// The slab of generation-stamped slots behind every opaque handle, and the
// partial map from tokens to payloads that it implements.
module Handles {
  import opened Arithmetic
  import opened Collections

  const WRAP := 0x1_0000_0000
  const MAX_SLOTS := 0xFFFF_FFFF
  const MIN_GENERATION := 1

  datatype Kind = Core | Dataset | Io | View

  datatype Slot<P> = Slot(generation: nat, live: bool, kind: Kind, payload: Option<P>)

  // Indices in free are the slots to reuse, the last first.
  datatype Table<P> = Table(slots: seq<Slot<P>>, free: seq<nat>)

  datatype Status = Success | NullHandle | InvalidHandle

  // The slot in the high 32 bits, the generation in the low 32.
  function Pack(slot: nat, generation: nat): nat {
    slot * WRAP + generation
  }

  function UnpackSlot(token: nat): nat {
    token / WRAP % WRAP
  }

  function UnpackGeneration(token: nat): nat {
    token % WRAP
  }

  lemma PackRoundTrip(slot: nat, generation: nat)
    requires slot < WRAP && generation < WRAP
    ensures Pack(slot, generation) < WRAP * WRAP && Pack(slot, generation) / WRAP == slot
    ensures UnpackSlot(Pack(slot, generation)) == slot && UnpackGeneration(Pack(slot, generation)) == generation
  {
  }

  lemma UnpackRoundTrip(token: nat)
    requires token < WRAP * WRAP
    ensures Pack(UnpackSlot(token), UnpackGeneration(token)) == token
  {
    assert token / WRAP < WRAP;
  }

  // A 32-bit increment that skips zero.
  function NextGeneration(g: nat): nat {
    if (g + 1) % WRAP == 0 then MIN_GENERATION else (g + 1) % WRAP
  }

  function Insert<P>(t: Table<P>, kind: Kind, payload: P): (Table<P>, nat)
    requires forall k :: 0 <= k < |t.free| ==> t.free[k] < |t.slots|
  {
    if t.free != [] then
      var i := t.free[|t.free| - 1];
      var s := t.slots[i].(live := true, kind := kind, payload := Some(payload));
      (Table(t.slots[i := s], t.free[..|t.free| - 1]), Pack(i, s.generation))
    else if |t.slots| >= MAX_SLOTS then (t, 0)
    else
      (t.(slots := t.slots + [Slot(MIN_GENERATION, true, kind, Some(payload))]), Pack(|t.slots|, MIN_GENERATION))
  }

  // The token names a live slot of the kind.
  predicate Names<P>(t: Table<P>, token: nat, kind: Kind) {
    var i := UnpackSlot(token);
    i < |t.slots| && t.slots[i].live && t.slots[i].generation == UnpackGeneration(token) && t.slots[i].kind == kind
  }

  function Lookup<P>(t: Table<P>, token: nat, kind: Kind): (Status, Option<P>) {
    if token == 0 then (NullHandle, None)
    else if Names(t, token, kind) then (Success, t.slots[UnpackSlot(token)].payload)
    else (InvalidHandle, None)
  }

  function Release<P>(t: Table<P>, token: nat, kind: Kind): (Table<P>, Status) {
    if token == 0 then (t, NullHandle)
    else if !Names(t, token, kind) then (t, InvalidHandle)
    else
      var i := UnpackSlot(token);
      var s := t.slots[i].(live := false, payload := None, generation := NextGeneration(t.slots[i].generation));
      (Table(t.slots[i := s], t.free + [i]), Success)
  }

  // ----- the invariant and the map -----

  ghost predicate Inv<P>(t: Table<P>) {
    && |t.slots| <= MAX_SLOTS
    && Distinct(t.free)
    && (forall k :: 0 <= k < |t.free| ==> t.free[k] < |t.slots| && !t.slots[t.free[k]].live)
    && (forall i :: 0 <= i < |t.slots| ==>
          && MIN_GENERATION <= t.slots[i].generation < WRAP
          && (t.slots[i].live <==> t.slots[i].payload.Some?)
          && (!t.slots[i].live ==> i in t.free))
  }

  function Empty<P>(): Table<P> {
    Table([], [])
  }

  datatype Bound<P> = Bound(kind: Kind, payload: P)

  function TokenAt<P>(t: Table<P>, i: nat): nat
    requires i < |t.slots|
  {
    Pack(i, t.slots[i].generation)
  }

  ghost function Tokens<P>(t: Table<P>): set<nat> {
    set i | 0 <= i < |t.slots| && t.slots[i].live :: TokenAt(t, i)
  }

  // What the table stands for: the live tokens and what each is bound to.
  ghost function Meaning<P>(t: Table<P>): map<nat, Bound<P>>
    requires Inv(t)
  {
    map token | token in Tokens(t) && TokenIn(t, token) ::
      Bound(t.slots[UnpackSlot(token)].kind, t.slots[UnpackSlot(token)].payload.value)
  }

  ghost predicate TokenIn<P>(t: Table<P>, token: nat) {
    var i := UnpackSlot(token);
    i < |t.slots| && t.slots[i].live && t.slots[i].generation == UnpackGeneration(token) && token < WRAP * WRAP
  }

  lemma TokensAreNamed<P>(t: Table<P>, token: nat)
    requires Inv(t)
    ensures token in Tokens(t) <==> TokenIn(t, token)
  {
    if token in Tokens(t) {
      var i: nat :| i < |t.slots| && t.slots[i].live && token == TokenAt(t, i);
      PackRoundTrip(i, t.slots[i].generation);
    }
    if TokenIn(t, token) {
      UnpackRoundTrip(token);
      assert token == TokenAt(t, UnpackSlot(token));
    }
  }

  // Lookup is the map's: it succeeds exactly on live tokens of the kind, and
  // live tokens are never zero.
  lemma LookupMeaning<P>(t: Table<P>, token: nat, kind: Kind)
    requires Inv(t) && token < WRAP * WRAP
    ensures 0 !in Meaning(t)
    ensures var (status, payload) := Lookup(t, token, kind);
      if token == 0 then status == NullHandle && payload == None
      else if token in Meaning(t) && Meaning(t)[token].kind == kind then
        status == Success && payload == Some(Meaning(t)[token].payload)
      else status == InvalidHandle && payload == None
  {
    TokensAreNamed(t, token);
    TokensAreNamed(t, 0);
  }

  lemma InsertKeeps<P>(t: Table<P>, kind: Kind, payload: P)
    requires Inv(t)
    ensures Inv(Insert(t, kind, payload).0)
  {
    if t.free != [] {
      var last := |t.free| - 1;
      var t' := Insert(t, kind, payload).0;
      forall i | 0 <= i < |t'.slots| && !t'.slots[i].live ensures i in t'.free {
        var k :| 0 <= k < |t.free| && t.free[k] == i;
        assert t'.free[k] == i;
      }
    }
  }

  // Insertion mints a token that is neither zero nor live and binds it, and
  // changes nothing else; it returns zero exactly when every slot is live and
  // no index is left.
  lemma InsertMeaning<P>(t: Table<P>, kind: Kind, payload: P)
    requires Inv(t)
    ensures var (t', token) := Insert(t, kind, payload);
      && Inv(t')
      && (token == 0 <==> |t.slots| == MAX_SLOTS && forall i :: 0 <= i < |t.slots| ==> t.slots[i].live)
      && (token == 0 ==> t' == t)
      && (token != 0 ==> token !in Meaning(t) && Meaning(t') == Meaning(t)[token := Bound(kind, payload)])
  {
    InsertKeeps(t, kind, payload);
    if t.free == [] {
      assert forall i :: 0 <= i < |t.slots| ==> t.slots[i].live;
    } else {
      assert !t.slots[t.free[|t.free| - 1]].live;
    }
    var (t', token) := Insert(t, kind, payload);
    if token != 0 {
      Bind(t, t', if t.free == [] then |t.slots| else t.free[|t.free| - 1], kind, payload);
    }
  }

  // The table grows only when every slot is live, by one.
  lemma GrowsOnlyWhenFull<P>(t: Table<P>, kind: Kind, payload: P)
    requires Inv(t)
    ensures var full := forall i :: 0 <= i < |t.slots| ==> t.slots[i].live;
      |Insert(t, kind, payload).0.slots| == |t.slots| + if full && |t.slots| < MAX_SLOTS then 1 else 0
  {
    if t.free == [] {
      assert forall i :: 0 <= i < |t.slots| ==> t.slots[i].live;
    } else {
      assert !t.slots[t.free[|t.free| - 1]].live;
    }
  }

  // The slot released last is reused first, under its next generation.
  lemma ReusesLastReleased<P>(t: Table<P>, token: nat, kind: Kind, kind': Kind, payload: P)
    requires Inv(t) && token != 0 && token < WRAP * WRAP && Names(t, token, kind)
    ensures var (t', token') := Insert(Release(t, token, kind).0, kind', payload);
      && UnpackSlot(token') == UnpackSlot(token) && token' != token
      && UnpackGeneration(token') == NextGeneration(UnpackGeneration(token))
      && t'.free == t.free && |t'.slots| == |t.slots|
  {
    hide UnpackSlot, UnpackGeneration, Pack;
    var i := UnpackSlot(token);
    var t1 := Release(t, token, kind).0;
    assert t1.free[..|t1.free| - 1] == t.free;
    PackRoundTrip(i, t1.slots[i].generation);
  }

  ghost predicate OthersSame<P>(t: Table<P>, t': Table<P>, i: nat) {
    forall j :: 0 <= j < |t'.slots| && j != i ==> j < |t.slots| && t'.slots[j] == t.slots[j]
  }

  // Making one slot live binds its token.
  lemma Bind<P>(t: Table<P>, t': Table<P>, i: nat, kind: Kind, payload: P)
    requires Inv(t) && Inv(t') && |t.slots| <= |t'.slots| && i < |t'.slots| && (i < |t.slots| ==> !t.slots[i].live)
    requires OthersSame(t, t', i) && t'.slots[i].live && t'.slots[i].kind == kind
        && t'.slots[i].payload == Some(payload)
    ensures TokenAt(t', i) !in Meaning(t) && Meaning(t') == Meaning(t)[TokenAt(t', i) := Bound(kind, payload)]
  {
    var token := TokenAt(t', i);
    PackRoundTrip(i, t'.slots[i].generation);
    TokensAreNamed(t, token);
    forall other ensures other in Meaning(t') <==> other in Meaning(t) || other == token {
      Elsewhere(t, t', i, other);
    }
    assert Meaning(t') == Meaning(t)[token := Bound(kind, payload)];
  }

  // Two tables that differ in one slot agree on the tokens of the others.
  lemma Elsewhere<P>(t: Table<P>, t': Table<P>, i: nat, token: nat)
    requires Inv(t) && Inv(t') && |t.slots| <= |t'.slots| && i < |t'.slots|
    requires OthersSame(t, t', i)
    ensures token in Meaning(t') <==> TokenIn(t', token)
    ensures token in Meaning(t) <==> TokenIn(t, token)
    ensures UnpackSlot(token) != i ==> (TokenIn(t', token) <==> TokenIn(t, token))
    ensures UnpackSlot(token) == i && TokenIn(t', token) ==> token == TokenAt(t', i)
  {
    TokensAreNamed(t, token);
    TokensAreNamed(t', token);
    if UnpackSlot(token) == i && TokenIn(t', token) {
      UnpackRoundTrip(token);
    }
  }

  lemma ReleaseKeeps<P>(t: Table<P>, token: nat, kind: Kind)
    requires Inv(t)
    ensures Inv(Release(t, token, kind).0)
  {
    var (t', status) := Release(t, token, kind);
    if status == Success {
      var i := UnpackSlot(token);
      assert t'.free[|t.free|] == i;
      forall j | 0 <= j < |t'.slots| && !t'.slots[j].live ensures j in t'.free {
        if j != i {
          var k :| 0 <= k < |t.free| && t.free[k] == j;
          assert t'.free[k] == j;
        }
      }
    }
  }

  // Releasing removes exactly a live token of the kind from the map.
  lemma ReleaseMeaning<P>(t: Table<P>, token: nat, kind: Kind)
    requires Inv(t) && token < WRAP * WRAP
    ensures var (t', status) := Release(t, token, kind);
      && Inv(t')
      && (status == Success <==> token in Meaning(t) && Meaning(t)[token].kind == kind)
      && (status == NullHandle <==> token == 0)
      && Meaning(t') == if status == Success then Meaning(t) - {token} else Meaning(t)
  {
    ReleaseKeeps(t, token, kind);
    LookupMeaning(t, token, kind);
    var (t', status) := Release(t, token, kind);
    TokensAreNamed(t, token);
    if status == Success {
      var i := UnpackSlot(token);
      UnpackRoundTrip(token);
      forall other ensures other in Meaning(t') <==> other in Meaning(t) && other != token {
        Elsewhere(t, t', i, other);
        if TokenIn(t, other) && UnpackSlot(other) == i {
          UnpackRoundTrip(other);
        }
      }
      assert Meaning(t') == Meaning(t) - {token};
    }
  }

  // ----- reuse of slots over runs -----

  datatype Op<P> = DoInsert(kind: Kind, payload: P) | DoRelease(token: nat, kind: Kind)

  function Apply<P>(t: Table<P>, op: Op<P>): Table<P>
    requires forall k :: 0 <= k < |t.free| ==> t.free[k] < |t.slots|
  {
    match op
    case DoInsert(kind, payload) => Insert(t, kind, payload).0
    case DoRelease(token, kind) => Release(t, token, kind).0
  }

  lemma ApplyKeeps<P>(t: Table<P>, op: Op<P>)
    requires Inv(t)
    ensures Inv(Apply(t, op)) && |Apply(t, op).slots| >= |t.slots|
  {
    match op
    case DoInsert(kind, payload) => InsertKeeps(t, kind, payload);
    case DoRelease(token, kind) => ReleaseKeeps(t, token, kind);
  }

  ghost function ApplyAll<P>(t: Table<P>, ops: seq<Op<P>>): Table<P>
    requires Inv(t)
    decreases |ops|
  {
    if ops == [] then t else ApplyKeeps(t, ops[0]); ApplyAll(Apply(t, ops[0]), ops[1..])
  }

  // One if the operation releases slot i.
  function Freeing<P>(t: Table<P>, op: Op<P>, i: nat): nat {
    if op.DoRelease? && op.token != 0 && Names(t, op.token, op.kind) && UnpackSlot(op.token) == i then 1 else 0
  }

  ghost function Freed<P>(t: Table<P>, ops: seq<Op<P>>, i: nat): nat
    requires Inv(t)
    decreases |ops|
  {
    if ops == [] then 0
    else ApplyKeeps(t, ops[0]); Freeing(t, ops[0], i) + Freed(Apply(t, ops[0]), ops[1..], i)
  }

  // The generation after k releases: WRAP - 1 values, in a circle.
  function Advance(g: nat, k: nat): nat
    requires g >= 1
  {
    (g - 1 + k) % (WRAP - 1) + 1
  }

  lemma AdvanceOne(g: nat, k: nat)
    requires 1 <= g < WRAP
    ensures Advance(g, 0) == g && NextGeneration(g) == Advance(g, 1)
    ensures Advance(Advance(g, 1), k) == Advance(g, k + 1)
  {
    if g == WRAP - 1 {
      assert g - 1 + (k + 1) == k + (WRAP - 1);
    }
  }

  lemma AdvanceMore(g: nat, step: nat, k: nat)
    requires 1 <= g < WRAP && step <= 1
    ensures 1 <= Advance(g, step) < WRAP && Advance(Advance(g, step), k) == Advance(g, step + k)
  {
    AdvanceOne(g, k);
  }

  lemma OneGeneration<P>(t: Table<P>, op: Op<P>, i: nat)
    requires Inv(t) && i < |t.slots|
    ensures i < |Apply(t, op).slots|
    ensures Apply(t, op).slots[i].generation == Advance(t.slots[i].generation, Freeing(t, op, i))
  {
    AdvanceOne(t.slots[i].generation, 0);
  }

  lemma {:induction false} GenerationAfter<P>(t: Table<P>, ops: seq<Op<P>>, i: nat)
    requires Inv(t) && i < |t.slots|
    ensures var t' := ApplyAll(t, ops);
      && Inv(t') && i < |t'.slots| && t'.slots[i].generation == Advance(t.slots[i].generation, Freed(t, ops, i))
    decreases |ops|
  {
    if ops == [] {
      AdvanceOne(t.slots[i].generation, 0);
    } else {
      ApplyKeeps(t, ops[0]);
      OneGeneration(t, ops[0], i);
      var t1 := Apply(t, ops[0]);
      GenerationAfter(t1, ops[1..], i);
      AdvanceMore(t.slots[i].generation, Freeing(t, ops[0], i), Freed(t1, ops[1..], i));
    }
  }

  // A released token names a live slot again exactly when its slot is live
  // and has been released a multiple of WRAP - 1 times, counting the release
  // itself: until the generation has gone all the way round it stays invalid.
  lemma StaleUntilWrapped<P>(t: Table<P>, token: nat, kind: Kind, t1: Table<P>, ops: seq<Op<P>>)
    requires Inv(t) && token < WRAP * WRAP && Release(t, token, kind) == (t1, Success) && Inv(t1)
    ensures var t' := ApplyAll(t1, ops);
      var releases := Freed(t1, ops, UnpackSlot(token)) + 1;
      && Inv(t') && UnpackSlot(token) < |t'.slots|
      && (token in Meaning(t') <==> t'.slots[UnpackSlot(token)].live && releases % (WRAP - 1) == 0)
      && (releases < WRAP - 1 ==> token !in Meaning(t'))
  {
    ReleaseAges(t, token, kind);
    StaleSince(t1, token, ops);
  }

  lemma ReleaseAges<P>(t: Table<P>, token: nat, kind: Kind)
    requires Inv(t) && Release(t, token, kind).1 == Success
    ensures var t1 := Release(t, token, kind).0;
      && UnpackSlot(token) < |t1.slots| && UnpackGeneration(token) >= 1
      && t1.slots[UnpackSlot(token)].generation == NextGeneration(UnpackGeneration(token))
  {
  }

  lemma CircleOf<P>(t1: Table<P>, i: nat, g: nat, ops: seq<Op<P>>)
    requires Inv(t1) && i < |t1.slots| && 1 <= g < WRAP && t1.slots[i].generation == NextGeneration(g)
    ensures var t' := ApplyAll(t1, ops);
      && Inv(t') && i < |t'.slots|
      && (t'.slots[i].generation == g <==> (Freed(t1, ops, i) + 1) % (WRAP - 1) == 0)
      && (Freed(t1, ops, i) + 1 < WRAP - 1 ==> t'.slots[i].generation != g)
  {
    GenerationAfter(t1, ops, i);
    Reissued(g, Freed(t1, ops, i));
    NotAllRound(Freed(t1, ops, i) + 1);
  }

  lemma NotAllRound(k: nat)
    ensures 0 < k < WRAP - 1 ==> k % (WRAP - 1) != 0
  {
  }

  lemma StaleSince<P>(t1: Table<P>, token: nat, ops: seq<Op<P>>)
    requires Inv(t1) && token < WRAP * WRAP && UnpackSlot(token) < |t1.slots| && UnpackGeneration(token) >= 1
    requires t1.slots[UnpackSlot(token)].generation == NextGeneration(UnpackGeneration(token))
    ensures var t' := ApplyAll(t1, ops);
      var releases := Freed(t1, ops, UnpackSlot(token)) + 1;
      && Inv(t') && UnpackSlot(token) < |t'.slots|
      && (token in Meaning(t') <==> t'.slots[UnpackSlot(token)].live && releases % (WRAP - 1) == 0)
      && (releases < WRAP - 1 ==> token !in Meaning(t'))
  {
    CircleOf(t1, UnpackSlot(token), UnpackGeneration(token), ops);
    NamedAgain(ApplyAll(t1, ops), token);
  }

  lemma NamedAgain<P>(t: Table<P>, token: nat)
    requires Inv(t) && token < WRAP * WRAP && UnpackSlot(token) < |t.slots|
    ensures var s := t.slots[UnpackSlot(token)];
      token in Meaning(t) <==> s.live && s.generation == UnpackGeneration(token)
  {
    TokensAreNamed(t, token);
  }

  lemma Reissued(g: nat, k: nat)
    requires 1 <= g < WRAP
    ensures 1 <= NextGeneration(g) < WRAP
    ensures Advance(NextGeneration(g), k) == g <==> (k + 1) % (WRAP - 1) == 0
  {
    AdvanceOne(g, k);
    FullCircle(g, k + 1);
  }

  lemma FullCircle(g: nat, k: nat)
    requires 1 <= g < WRAP
    ensures Advance(g, k) == g <==> k % (WRAP - 1) == 0
  {
    var m := WRAP - 1;
    var r := k % m;
    assert k == k / m * m + r;
    assert g - 1 + k == k / m * m + (g - 1 + r);
    ShiftMod(g - 1 + r, k / m, m);
    if g - 1 + r >= m {
      ShiftMod(g - 1 + r - m, 1, m);
    }
  }
}
