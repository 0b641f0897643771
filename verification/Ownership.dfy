// Who holds which staging slot on the read path. The lemmas speak of any
// assignment of slots to owners, so that each step of the read path only has
// to say which owner gained, lost or passed on a slot.
module Ownership {
  import opened Collections
  import opened Staging
  import opened Prefetching

  // A fetch inside the driver, an entry of a queue's completed map, a reader
  // between the queue and its view, and a live view.
  datatype Owner = Fetch(v: nat, t: int) | Entry(v: nat, t: int) | Hand(reader: nat) | View(token: nat)

  // The record a buffer is known to hold.
  datatype Label = Label(src: Source, t: int, sel: Selection)

  datatype Holding = Holding(slot: nat, tag: Option<Label>)

  type Holdings = Owner -> Option<Holding>

  ghost predicate Says(p: Pool, h: Holding) {
    && InUse(p, h.slot) && p.buffers[h.slot].refs == 1
    && (h.tag.Some? ==> Right(h.tag.value.src, h.tag.value.t, h.tag.value.sel, p.buffers[h.slot]))
  }

  // The slots in use are exactly the slots held, each by one owner, once, and
  // each labelled buffer holds the record its label names.
  ghost predicate Owned(p: Pool, h: Holdings) {
    && (forall o :: h(o).Some? ==> Says(p, h(o).value))
    && (forall o, o' :: h(o).Some? && h(o').Some? && h(o).value.slot == h(o').value.slot ==> o == o')
    && (forall i: nat :: InUse(p, i) ==> exists o :: h(o).Some? && h(o).value.slot == i)
  }

  ghost predicate SameBut(h: Holdings, h': Holdings, x: Owner, y: Owner) {
    forall o :: o != x && o != y ==> h'(o) == h(o)
  }

  // Every slot in use but i stays in use, unchanged, and nothing else becomes so.
  ghost predicate SamePoolBut(p: Pool, p': Pool, i: nat) {
    && (forall j: nat :: j != i && InUse(p, j) ==> InUse(p', j) && p'.buffers[j] == p.buffers[j])
    && (forall j: nat :: j != i && InUse(p', j) ==> InUse(p, j))
  }

  lemma Gain(p: Pool, p': Pool, h: Holdings, h': Holdings, x: Owner, held: Holding)
    requires Owned(p, h) && h(x).None? && h'(x) == Some(held) && SameBut(h, h', x, x)
    requires !InUse(p, held.slot) && Says(p', held) && SamePoolBut(p, p', held.slot)
    ensures Owned(p', h')
  {
    forall i: nat | InUse(p', i) ensures exists o :: h'(o).Some? && h'(o).value.slot == i {
      if i == held.slot {
        assert h'(x).Some?;
      } else {
        var o :| h(o).Some? && h(o).value.slot == i;
        assert h'(o) == h(o);
      }
    }
  }

  lemma Lose(p: Pool, p': Pool, h: Holdings, h': Holdings, x: Owner)
    requires Owned(p, h) && h(x).Some? && h'(x).None? && SameBut(h, h', x, x)
    requires !InUse(p', h(x).value.slot) && SamePoolBut(p, p', h(x).value.slot)
    ensures Owned(p', h')
  {
    forall i: nat | InUse(p', i) ensures exists o :: h'(o).Some? && h'(o).value.slot == i {
      var o :| h(o).Some? && h(o).value.slot == i;
      assert h'(o) == h(o);
    }
  }

  // The slot changes hands; its old holder may have written it.
  lemma Pass(p: Pool, p': Pool, h: Holdings, h': Holdings, x: Owner, y: Owner, held: Holding)
    requires Owned(p, h) && x != y && h(x).Some? && h(y).None? && held.slot == h(x).value.slot
    requires h'(x).None? && h'(y) == Some(held) && SameBut(h, h', x, y)
    requires Says(p', held) && SamePoolBut(p, p', held.slot)
    ensures Owned(p', h')
  {
    forall i: nat | InUse(p', i) ensures exists o :: h'(o).Some? && h'(o).value.slot == i {
      if i == held.slot {
        assert h'(y).Some?;
      } else {
        var o :| h(o).Some? && h(o).value.slot == i;
        assert h'(o) == h(o);
      }
    }
  }

  lemma Unchanged(p: Pool, h: Holdings, h': Holdings)
    requires Owned(p, h) && forall o :: h'(o) == h(o)
    ensures Owned(p, h')
  {
    forall i: nat | InUse(p, i) ensures exists o :: h'(o).Some? && h'(o).value.slot == i {
      var o :| h(o).Some? && h(o).value.slot == i;
      assert h'(o) == h(o);
    }
  }

  // A whole completed map is released at once.
  lemma LoseAll(p: Pool, p': Pool, h: Holdings, h': Holdings, v: nat, completed: map<int, nat>)
    requires Owned(p, h) && Freed(completed, p, p')
    requires forall t :: t in completed ==> h(Entry(v, t)).Some? && h(Entry(v, t)).value.slot == completed[t]
    requires forall o :: h'(o) == if o.Entry? && o.v == v && o.t in completed then None else h(o)
    ensures Owned(p', h')
  {
    forall o | h'(o).Some? ensures Says(p', h'(o).value) {
      assert h(o).Some?;
      forall t | t in completed ensures completed[t] != h(o).value.slot {
        assert h(Entry(v, t)).Some? && o != Entry(v, t);
      }
      assert !Stages(completed, h(o).value.slot);
    }
    forall i: nat | InUse(p', i) ensures exists o :: h'(o).Some? && h'(o).value.slot == i {
      assert InUse(p, i) && !Stages(completed, i);
      var o :| h(o).Some? && h(o).value.slot == i;
      assert h'(o) == h(o);
    }
  }

  // Every slot of the pool is in exactly one place: the free list, or one
  // owner's hands.
  lemma InOnePlace(p: Pool, h: Holdings, i: nat)
    requires Inv(p) && Owned(p, h) && i < |p.buffers|
    ensures i in p.free <==> !exists o :: h(o).Some? && h(o).value.slot == i
    ensures forall o, o' :: h(o).Some? && h(o').Some? && h(o).value.slot == i == h(o').value.slot ==> o == o'
  {
    assert i in p.free <==> !InUse(p, i);
  }
}
