// Whole runs of the read path: any interleaving of the sections of any number
// of readers, workers, view releases and closes.
module ReadRuns {
  import opened Collections
  import opened Staging
  import opened Prefetching
  import opened Ownership
  import opened ReadPath

  ghost predicate Runs(s: State, steps: seq<Step>)
    decreases |steps|
  {
    steps == [] || (Enabled(s, steps[0]) && Runs(After(s, steps[0]), steps[1..]))
  }

  ghost function Execute(s: State, steps: seq<Step>): State
    requires Runs(s, steps)
    decreases |steps|
  {
    if steps == [] then s else Execute(After(s, steps[0]), steps[1..])
  }

  lemma {:induction false} RunKeeps(s: State, steps: seq<Step>)
    requires PathInv(s) && Runs(s, steps)
    ensures PathInv(Execute(s, steps))
    decreases |steps|
  {
    hide PathInv, Enabled, After;
    if steps != [] {
      StepKeeps(s, steps[0]);
      RunKeeps(After(s, steps[0]), steps[1..]);
    }
  }

  // A pool none of whose slots is in use.
  ghost predicate Unused(p: Pool) {
    Inv(p) && forall i :: 0 <= i < |p.buffers| ==> p.buffers[i].refs == 0
  }

  ghost predicate Holder(s: State, o: Owner, i: nat) {
    Held(s)(o).Some? && Held(s)(o).value.slot == i
  }

  // After any run, a staging slot is in exactly one place: the free list, one
  // fetch inside the driver, one staged entry, one reader's hands, one view.
  lemma SingleOwnership(p: IndexedPool, steps: seq<Step>, i: nat)
    requires Unused(p) && Runs(Start(p), steps) && i < |Execute(Start(p), steps).pool.buffers|
    ensures var s := Execute(Start(p), steps);
      && (i in s.pool.free <==> !exists o :: Holder(s, o, i))
      && (forall o, o' :: Holder(s, o, i) && Holder(s, o', i) ==> o == o')
  {
    hide Inv, Owned, HeldIn, Records;
    AfterStart(p, steps);
    var s := Execute(Start(p), steps);
    InOnePlace(s.pool, Held(s), i);
    assert forall o :: Holder(s, o, i) <==> Held(s)(o).Some? && Held(s)(o).value.slot == i;
  }

  lemma AfterStart(p: IndexedPool, steps: seq<Step>)
    requires Unused(p) && Runs(Start(p), steps)
    ensures PathInv(Execute(Start(p), steps))
  {
    hide PathInv;
    StartKeeps(p);
    RunKeeps(Start(p), steps);
  }

  // ----- runs without a deadline -----

  predicate NoDeadline(steps: seq<Step>) {
    forall k :: 0 <= k < |steps| ==> !steps[k].Expire?
  }

  // No buffer in a reader's hands or behind a view was taken late.
  ghost predicate Punctual(s: State) {
    && (forall r :: r in s.hands ==> !s.hands[r].late)
    && (forall k :: k in s.views ==> !s.views[k].late)
  }

  lemma LookIsPunctual(s: State, reader: nat)
    requires Punctual(s) && Enabled(s, Look(reader))
    ensures Punctual(After(s, Look(reader)))
  {
    hide Collect;
  }

  lemma PunctualStep(s: State, step: Step)
    requires Punctual(s) && Enabled(s, step) && !step.Expire?
    ensures Punctual(After(s, step))
  {
    if step.Look? {
      LookIsPunctual(s, step.reader);
    } else {
      hide AcquireFor, Deliver, DropAll, Drop, Schedule, CheckCancelled, Resolved;
    }
  }

  lemma {:induction false} PunctualRun(s: State, steps: seq<Step>)
    requires Punctual(s) && Runs(s, steps) && NoDeadline(steps)
    ensures Punctual(Execute(s, steps))
    decreases |steps|
  {
    hide Punctual, Enabled, After;
    if steps != [] {
      PunctualStep(s, steps[0]);
      PunctualRun(After(s, steps[0]), steps[1..]);
    }
  }

  // A run in which no read waits past its deadline shows every view exactly
  // what its request asked for, whatever selections the readers of a variable
  // mix.
  lemma PunctualViewsMatch(p: IndexedPool, steps: seq<Step>, token: nat)
    requires Unused(p) && Runs(Start(p), steps) && NoDeadline(steps)
    requires token in Execute(Start(p), steps).views
    ensures var s := Execute(Start(p), steps);
      var g := s.views[token];
      && g.req.v < |s.vars| && InUse(s.pool, g.slot)
      && s.pool.buffers[g.slot].data == s.vars[g.req.v].src.content(g.req.t, ForDriver(g.req.sel))
  {
    hide Runs, Execute, PathInv, Inv;
    AfterStart(p, steps);
    PunctualRun(Start(p), steps);
    ViewShowsRecord(Execute(Start(p), steps), token);
  }

  // ----- a cancelled queue drains -----

  // What a cancelled queue may still stage: what was past the cancellation
  // check, or staged, before.
  ghost predicate Busy(q: Queue, t: int) {
    t in q.completed || (t in q.tasks && !q.tasks[t].Queued?)
  }

  ghost predicate OnlyDrains(q: Queue, q': Queue) {
    q.cancelled ==> q'.cancelled && forall t :: Busy(q', t) ==> Busy(q, t)
  }

  // Every section of a cancelled queue, and so every step, only drains it:
  // after a close nothing is staged but by fetches that were already past
  // the check.
  lemma SectionsDrain(q: Queue, p: IndexedPool, src: Source, t: int, req: Selection)
    ensures OnlyDrains(q, Latch(q, req)) && OnlyDrains(q, Schedule(q, t)) && OnlyDrains(q, Cancelled(q))
    ensures t in q.tasks && q.tasks[t].Queued? ==> OnlyDrains(q, CheckCancelled(q, t))
    ensures OnlyDrains(q, Collect(q, p, t, req).0) && OnlyDrains(q, CollectAfterTimeout(q, t).0)
  {
    hide BboxSame, Drop;
  }

  lemma FetchesDrain(q: Queue, t: int)
    ensures forall e :: OnlyDrains(q, MarkFailed(q, t, e))
    ensures forall slot, sel :: Busy(q, t) ==> OnlyDrains(q, MarkComplete(q, t, slot, sel))
    ensures forall slot, sel :: Busy(q, t) ==> OnlyDrains(q, q.(tasks := q.tasks[t := Reading(sel, slot)]))
  {
  }

  lemma QueueDrains(s: State, v: nat, q: Queue, p: IndexedPool, u: nat)
    requires v < |s.vars| && u < |s.vars| && OnlyDrains(Q(s, v), q)
    ensures OnlyDrains(Q(s, u), Q(WithQueue(s, v, q).(pool := p), u)) && OnlyDrains(Q(s, u), Q(WithQueue(s, v, q), u))
  {
  }

  lemma BusyDrains(q: Queue, p: IndexedPool, src: Source, t: int, o: Outcome)
    ensures t in q.tasks && q.tasks[t].Acquiring? ==> OnlyDrains(q, AcquireFor(q, p, src, t).0)
    ensures t in q.tasks && q.tasks[t].Reading? && InUse(p, q.tasks[t].slot) ==>
        OnlyDrains(q, Deliver(q, p, src, t, o).0)
  {
    hide Acquire, Fill, Drop, AcquireBytes;
    FetchesDrain(q, t);
  }

  lemma FetchStepDrains(s: State, step: Step, u: nat)
    requires Enabled(s, step) && u < |s.vars| && FetchStep(step)
    ensures u < |After(s, step).vars| && OnlyDrains(Q(s, u), Q(After(s, step), u))
  {
    hide OnlyDrains, DropAll;
    match step
    case ScheduleFetch(v, t) =>
      SectionsDrain(Q(s, v), s.pool, s.vars[v].src, t, None);
      QueueDrains(s, v, Schedule(Q(s, v), t), s.pool, u);
    case Check(v, t) =>
      SectionsDrain(Q(s, v), s.pool, s.vars[v].src, t, None);
      QueueDrains(s, v, CheckCancelled(Q(s, v), t), s.pool, u);
    case Grab(v, t) =>
      BusyDrains(Q(s, v), s.pool, s.vars[v].src, t, Returned(0));
      var (q, p) := AcquireFor(Q(s, v), s.pool, s.vars[v].src, t);
      QueueDrains(s, v, q, p, u);
    case Finish(v, t, o) =>
      BusyDrains(Q(s, v), s.pool, s.vars[v].src, t, o);
      var (q, p) := Deliver(Q(s, v), s.pool, s.vars[v].src, t, o);
      QueueDrains(s, v, q, p, u);
    case Cancel(v) =>
      SectionsDrain(Q(s, v), s.pool, s.vars[v].src, 0, None);
      QueueDrains(s, v, Cancelled(Q(s, v)), DropAll(Q(s, v).completed, s.pool), u);
  }

  lemma CollectDrains(s: State, reader: nat, late: bool, result: (Queue, Pool, Taken), v: nat)
    requires reader in s.waiting && s.waiting[reader].v < |s.vars| && v < |s.vars| && Indexed(result.1)
    requires OnlyDrains(Q(s, s.waiting[reader].v), result.0)
    ensures var s' := AfterLook(s, reader, late, result); v < |s'.vars| && OnlyDrains(Q(s, v), Q(s', v))
  {
  }

  lemma CancelledOnlyDrains(s: State, step: Step, v: nat)
    requires Enabled(s, step) && v < |s.vars|
    ensures v < |After(s, step).vars| && OnlyDrains(Q(s, v), Q(After(s, step), v))
  {
    hide Collect, CollectAfterTimeout, AcquireFor, Deliver, DropAll;
    if FetchStep(step) {
      FetchStepDrains(s, step, v);
    } else if step.Look? || step.Expire? {
      var req := s.waiting[step.reader];
      SectionsDrain(Q(s, req.v), s.pool, s.vars[req.v].src, req.t, req.sel);
      var (q, p, taken) := Collect(Q(s, req.v), s.pool, req.t, req.sel);
      CollectDrains(s, step.reader, false, (q, p, taken), v);
      var (q', taken') := CollectAfterTimeout(Q(s, req.v), req.t);
      CollectDrains(s, step.reader, true, (q', s.pool, taken'), v);
    }
  }

  lemma {:induction false} RunDrains(s: State, steps: seq<Step>, v: nat)
    requires Runs(s, steps) && v < |s.vars| && Q(s, v).cancelled
    ensures var s' := Execute(s, steps); v < |s'.vars| && OnlyDrains(Q(s, v), Q(s', v))
    decreases |steps|
  {
    if steps != [] {
      CancelledOnlyDrains(s, steps[0], v);
      RunDrains(After(s, steps[0]), steps[1..], v);
    }
  }

  // ----- reads that race with a close -----

  // Nobody is reading the dataset and nobody holds a view of it.
  ghost predicate Quiet(s: State, dataset: nat) {
    && (forall r :: r in s.waiting && s.waiting[r].v < |s.vars| ==> s.vars[s.waiting[r].v].dataset != dataset)
    && (forall r :: r in s.hands ==> s.hands[r].dataset != dataset)
    && (forall k :: k in s.views ==> s.views[k].dataset != dataset)
  }

  ghost predicate Reads(s: State, step: Step, dataset: nat) {
    step.Ask? && step.req.v < |s.vars| && s.vars[step.req.v].dataset == dataset
  }

  ghost predicate NoNewRead(s: State, steps: seq<Step>, dataset: nat)
    requires Runs(s, steps)
    decreases |steps|
  {
    steps == [] || (!Reads(s, steps[0], dataset) && NoNewRead(After(s, steps[0]), steps[1..], dataset))
  }

  ghost predicate Viewed(s: State, dataset: nat) {
    exists k :: k in s.views && s.views[k].dataset == dataset
  }

  lemma QueueStaysQuiet(s: State, v: nat, q: Queue, p: IndexedPool, dataset: nat)
    requires v < |s.vars| && Quiet(s, dataset)
    ensures Quiet(WithQueue(s, v, q), dataset) && Quiet(WithQueue(s, v, q).(pool := p), dataset)
  {
  }

  lemma LookStaysQuiet(s: State, reader: nat, late: bool, result: (Queue, Pool, Taken), dataset: nat)
    requires reader in s.waiting && s.waiting[reader].v < |s.vars| && Indexed(result.1) && Quiet(s, dataset)
    ensures Quiet(AfterLook(s, reader, late, result), dataset)
  {
    hide Have, Indexed;
    QueueStaysQuiet(s, s.waiting[reader].v, result.0, result.1, dataset);
  }

  lemma FetchStepQuiet(s: State, step: Step, dataset: nat)
    requires Enabled(s, step) && Quiet(s, dataset) && FetchStep(step)
    ensures Quiet(After(s, step), dataset)
  {
    hide Quiet, Deliver, DropAll;
    match step
    case ScheduleFetch(v, t) => QueueStaysQuiet(s, v, Schedule(Q(s, v), t), s.pool, dataset);
    case Check(v, t) => QueueStaysQuiet(s, v, CheckCancelled(Q(s, v), t), s.pool, dataset);
    case Grab(v, t) =>
      var (q, p) := AcquireFor(Q(s, v), s.pool, s.vars[v].src, t);
      QueueStaysQuiet(s, v, q, p, dataset);
    case Finish(v, t, o) =>
      var (q, p) := Deliver(Q(s, v), s.pool, s.vars[v].src, t, o);
      QueueStaysQuiet(s, v, q, p, dataset);
    case Cancel(v) => QueueStaysQuiet(s, v, Cancelled(Q(s, v)), DropAll(Q(s, v).completed, s.pool), dataset);
  }

  lemma StaysQuiet(s: State, step: Step, dataset: nat)
    requires WaitingOk(|s.vars|, s.waiting, s.hands) && Enabled(s, step) && Quiet(s, dataset)
        && !Reads(s, step, dataset)
    ensures Quiet(After(s, step), dataset)
  {
    hide Collect, CollectAfterTimeout, AcquireFor, Deliver;
    if FetchStep(step) {
      FetchStepQuiet(s, step, dataset);
    } else if step.Look? || step.Expire? {
      var req := s.waiting[step.reader];
      LookStaysQuiet(s, step.reader, false, Collect(Q(s, req.v), s.pool, req.t, req.sel), dataset);
      var (q, taken) := CollectAfterTimeout(Q(s, req.v), req.t);
      LookStaysQuiet(s, step.reader, true, (q, s.pool, taken), dataset);
    }
  }

  // Without a new read, a quiet dataset stays quiet through any run.
  lemma {:induction false} QuietForever(s: State, steps: seq<Step>, dataset: nat)
    requires PathInv(s) && Runs(s, steps) && Quiet(s, dataset) && NoNewRead(s, steps, dataset)
    ensures Quiet(Execute(s, steps), dataset)
    decreases |steps|
  {
    hide Inv, Owned, HeldIn, Enabled, After, Quiet, Reads;
    if steps != [] {
      StepKeeps(s, steps[0]);
      StaysQuiet(s, steps[0], dataset);
      QuietForever(After(s, steps[0]), steps[1..], dataset);
    }
  }

  lemma FreshToken(tokens: set<nat>) returns (token: nat)
    ensures token !in tokens
  {
    if tokens >= Below(|tokens| + 1) {
      SubsetSize(Below(|tokens| + 1), tokens);
      assert false;
    }
    token :| token in Below(|tokens| + 1) && token !in tokens;
  }

  // The guard of a close does not see a reader that is past the queue.
  lemma GuardPasses(s: State, reader: nat)
    requires PathInv(s) && reader in s.hands
    requires forall k :: k in s.counted ==> s.counted[k] != s.hands[reader].dataset
    ensures var d := s.hands[reader].dataset;
      Enabled(s, CheckClose(d)) && After(s, CheckClose(d)) == s.(closing := s.closing + {d})
  {
    hide Inv, Owned, HeldIn, TokensOk, WaitingOk;
    var d := s.hands[reader].dataset;
    assert Answers(s.vars, s.hands[reader]);
    if CountedOf(s.counted, d) != {} {
      var k := Pick(CountedOf(s.counted, d));
      assert false;
    }
  }

  lemma MintsView(s: State, reader: nat, token: nat)
    requires reader in s.hands && token !in s.tokens
    ensures Enabled(s, Mint(reader, token)) && After(s, Mint(reader, token)).closing == s.closing
    ensures Viewed(After(s, Mint(reader, token)), s.hands[reader].dataset)
  {
    assert After(s, Mint(reader, token)).views[token] == s.hands[reader];
  }
}
