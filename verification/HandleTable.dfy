// The handle table as the object that owns the slab. Handles.InsertMeaning,
// LookupMeaning and ReleaseMeaning say what each call does to the map from
// tokens to payloads.
module HandleTables {
  import opened Collections
  import H = Handles
  import opened Handles

  class HandleTable<P> {
    var slots: seq<Slot<P>>
    var freeList: seq<nat>

    function State(): Table<P>
      reads this
    {
      Table(slots, freeList)
    }

    constructor ()
      ensures State() == Empty() && Inv(State())
    {
      slots, freeList := [], [];
    }

    method Insert(kind: Kind, payload: P) returns (token: nat)
      requires Inv(State())
      modifies this
      ensures Inv(State()) && (State(), token) == H.Insert(old(State()), kind, payload)
    {
      InsertKeeps(State(), kind, payload);
      var i: nat;
      if freeList != [] {
        i := freeList[|freeList| - 1];
        freeList := freeList[..|freeList| - 1];
      } else {
        if |slots| >= MAX_SLOTS {
          return 0;
        }
        i := |slots|;
        slots := slots + [Slot(MIN_GENERATION, false, Core, None)];
      }
      assert freeList == old(freeList) ==>
        forall x :: slots[i := x] == old(slots) + [x];
      slots := slots[i := slots[i].(live := true, kind := kind, payload := Some(payload))];
      token := Pack(i, slots[i].generation);
    }

    method Lookup(token: nat, expected: Kind) returns (status: Status, payload: Option<P>)
      ensures (status, payload) == H.Lookup(State(), token, expected)
    {
      if token == 0 {
        return NullHandle, None;
      }
      var i, generation := UnpackSlot(token), UnpackGeneration(token);
      if i >= |slots| {
        return InvalidHandle, None;
      }
      var s := slots[i];
      if !s.live || s.generation != generation {
        return InvalidHandle, None;
      }
      if s.kind != expected {
        return InvalidHandle, None;
      }
      return Success, s.payload;
    }

    method Release(token: nat, expected: Kind) returns (status: Status)
      requires Inv(State())
      modifies this
      ensures Inv(State()) && (State(), status) == H.Release(old(State()), token, expected)
    {
      ReleaseKeeps(State(), token, expected);
      if token == 0 {
        return NullHandle;
      }
      var i, generation := UnpackSlot(token), UnpackGeneration(token);
      if i >= |slots| {
        return InvalidHandle;
      }
      var s := slots[i];
      if !s.live || s.generation != generation || s.kind != expected {
        return InvalidHandle;
      }
      var g := (s.generation + 1) % WRAP;
      if g == 0 {
        g := MIN_GENERATION;
      }
      slots := slots[i := s.(live := false, payload := None, generation := g)];
      freeList := freeList + [i];
      return Success;
    }
  }
}
