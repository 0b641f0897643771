// The last look of a reader whose deadline has passed compares no selections.
// Which requests that can answer with another request's record, and what a
// close in the middle of a read leads to, in runs from an unused pool.
module LateReads {
  import opened Collections
  import opened Staging
  import opened Prefetching
  import opened Ownership
  import opened ReadPath
  import opened ReadRuns
  import opened ReadCores

  // The driver cannot tell the selections apart.
  ghost predicate Alike(a: Selection, b: Selection) {
    ForDriver(a) == ForDriver(b)
  }

  // The view shows the record of its request, under the requested selection.
  ghost predicate ShowsRequest(s: State, token: nat)
    requires token in s.views
  {
    var g := s.views[token];
    && g.req.v < |s.vars| && g.slot < |s.pool.buffers|
    && s.pool.buffers[g.slot].data == s.vars[g.req.v].src.content(g.req.t, ForDriver(g.req.sel))
  }

  // ----- one selection -----

  // The step reads variable v, and schedules its fetches, only under
  // selections the driver cannot tell from sel.
  ghost predicate Keeps(s: State, step: Step, v: nat, sel: Selection) {
    && (step.Ask? && step.req.v == v ==> Alike(step.req.sel, sel))
    && (step.ScheduleFetch? && step.v == v && v < |s.vars| ==> Alike(Q(s, v).latched, sel))
  }

  ghost predicate AllKeep(s: State, steps: seq<Step>, v: nat, sel: Selection)
    requires Runs(s, steps)
    decreases |steps|
  {
    steps == [] || (Keeps(s, steps[0], v, sel) && AllKeep(After(s, steps[0]), steps[1..], v, sel))
  }

  ghost predicate QueueUnder(q: Queue, sel: Selection) {
    && (forall t :: t in q.tasks ==> Alike(q.tasks[t].sel, sel))
    && (forall t :: t in q.completed ==> Alike(Have(q, t), sel))
  }

  ghost predicate GrantsUnder(grants: map<nat, Grant>, v: nat, sel: Selection) {
    forall k :: k in grants && grants[k].req.v == v ==> Alike(grants[k].req.sel, sel) && Alike(grants[k].holds.sel, sel)
  }

  ghost predicate WaitingUnder(waiting: map<nat, Request>, v: nat, sel: Selection) {
    forall r :: r in waiting && waiting[r].v == v ==> Alike(waiting[r].sel, sel)
  }

  // Everything fetched, staged, asked for and viewed of variable v is alike.
  ghost predicate Under(s: State, v: nat, sel: Selection) {
    && (v < |s.vars| ==> QueueUnder(s.vars[v].q, sel))
    && WaitingUnder(s.waiting, v, sel) && GrantsUnder(s.hands, v, sel) && GrantsUnder(s.views, v, sel)
  }

  lemma SectionsUnder(q: Queue, t: int, sel: Selection)
    requires QueueUnder(q, sel)
    ensures forall req :: QueueUnder(Latch(q, req), sel)
    ensures Alike(q.latched, sel) ==> QueueUnder(Schedule(q, t), sel)
    ensures t in q.tasks && q.tasks[t].Queued? ==> QueueUnder(CheckCancelled(q, t), sel)
    ensures forall e :: QueueUnder(MarkFailed(q, t, e), sel)
    ensures QueueUnder(Cancelled(q), sel)
  {
    hide Alike;
  }

  lemma CompleteUnder(q: Queue, t: int, slot: nat, sel: Selection)
    requires QueueUnder(q, sel) && t in q.tasks
    ensures QueueUnder(MarkComplete(q, t, slot, q.tasks[t].sel), sel)
  {
    hide Alike;
    var q' := MarkComplete(q, t, slot, q.tasks[t].sel);
    forall u | u in q'.completed ensures Alike(Have(q', u), sel) {
      assert if u == t then Have(q', u) == q.tasks[t].sel else Have(q', u) == Have(q, u);
    }
  }

  lemma FetchesUnder(q: Queue, p: IndexedPool, src: Source, t: int, o: Outcome, sel: Selection)
    requires QueueUnder(q, sel)
    ensures t in q.tasks && q.tasks[t].Acquiring? ==> QueueUnder(AcquireFor(q, p, src, t).0, sel)
    ensures t in q.tasks && q.tasks[t].Reading? && InUse(p, q.tasks[t].slot) ==>
        QueueUnder(Deliver(q, p, src, t, o).0, sel)
  {
    hide Alike, Acquire, Drop, Fill, AcquireBytes;
    SectionsUnder(q, t, sel);
    if t in q.tasks && q.tasks[t].Reading? {
      CompleteUnder(q, t, q.tasks[t].slot, sel);
    }
  }

  lemma CollectUnder(q: Queue, p: IndexedPool, t: int, req: Selection, sel: Selection)
    requires QueueUnder(q, sel)
    ensures QueueUnder(Collect(q, p, t, req).0, sel) && QueueUnder(CollectAfterTimeout(q, t).0, sel)
    ensures Collect(q, p, t, req).2.Got? || CollectAfterTimeout(q, t).1.Got? ==> Alike(Have(q, t), sel)
  {
    hide Alike, BboxSame, Drop;
  }

  lemma SetQueueUnder(s: State, v: nat, q: Queue, p: IndexedPool, u: nat, sel: Selection)
    requires Under(s, u, sel) && v < |s.vars| && (u == v ==> QueueUnder(q, sel))
    ensures Under(WithQueue(s, v, q), u, sel) && Under(WithQueue(s, v, q).(pool := p), u, sel)
  {
    hide QueueUnder, WaitingUnder, GrantsUnder;
  }

  lemma FetchStepUnder(s: State, step: Step, u: nat, sel: Selection)
    requires Under(s, u, sel) && Enabled(s, step) && FetchStep(step) && Keeps(s, step, u, sel)
    ensures Under(After(s, step), u, sel)
  {
    hide QueueUnder, WaitingUnder, GrantsUnder, Alike, DropAll;
    match step
    case ScheduleFetch(v, t) =>
      if v == u {
        SectionsUnder(Q(s, v), t, sel);
      }
      SetQueueUnder(s, v, Schedule(Q(s, v), t), s.pool, u, sel);
    case Check(v, t) =>
      if v == u {
        SectionsUnder(Q(s, v), t, sel);
      }
      SetQueueUnder(s, v, CheckCancelled(Q(s, v), t), s.pool, u, sel);
    case Grab(v, t) =>
      if v == u {
        FetchesUnder(Q(s, v), s.pool, s.vars[v].src, t, Returned(0), sel);
      }
      var (q, p) := AcquireFor(Q(s, v), s.pool, s.vars[v].src, t);
      SetQueueUnder(s, v, q, p, u, sel);
    case Finish(v, t, o) =>
      if v == u {
        FetchesUnder(Q(s, v), s.pool, s.vars[v].src, t, o, sel);
      }
      var (q, p) := Deliver(Q(s, v), s.pool, s.vars[v].src, t, o);
      SetQueueUnder(s, v, q, p, u, sel);
    case Cancel(v) =>
      if v == u {
        SectionsUnder(Q(s, v), 0, sel);
      }
      SetQueueUnder(s, v, Cancelled(Q(s, v)), DropAll(Q(s, v).completed, s.pool), u, sel);
  }

  lemma LookUnder(s: State, reader: nat, late: bool, result: (Queue, Pool, Taken), u: nat, sel: Selection)
    requires Under(s, u, sel) && reader in s.waiting && s.waiting[reader].v < |s.vars| && Indexed(result.1)
    requires s.waiting[reader].v == u ==>
      QueueUnder(result.0, sel) && (result.2.Got? ==> Alike(Have(Q(s, u), s.waiting[reader].t), sel))
    ensures Under(AfterLook(s, reader, late, result), u, sel)
  {
    hide QueueUnder, Alike, Have;
    SetQueueUnder(s, s.waiting[reader].v, result.0, result.1, u, sel);
  }

  lemma LooksUnder(s: State, step: Step, u: nat, sel: Selection)
    requires Under(s, u, sel) && Enabled(s, step) && (step.Look? || step.Expire?)
    ensures Under(After(s, step), u, sel)
  {
    hide QueueUnder, WaitingUnder, GrantsUnder, Alike, Collect, CollectAfterTimeout;
    var req := s.waiting[step.reader];
    var q := Q(s, req.v);
    if req.v == u {
      CollectUnder(q, s.pool, req.t, req.sel, sel);
    }
    LookUnder(s, step.reader, false, Collect(q, s.pool, req.t, req.sel), u, sel);
    var (q', taken) := CollectAfterTimeout(q, req.t);
    LookUnder(s, step.reader, true, (q', s.pool, taken), u, sel);
  }

  lemma AskUnder(s: State, reader: nat, req: Request, u: nat, sel: Selection)
    requires Under(s, u, sel) && Enabled(s, Ask(reader, req)) && Keeps(s, Ask(reader, req), u, sel)
    ensures Under(After(s, Ask(reader, req)), u, sel)
  {
    hide QueueUnder, GrantsUnder, Alike;
    if req.v == u {
      SectionsUnder(Q(s, req.v), 0, sel);
    }
    SetQueueUnder(s, req.v, Latch(Q(s, req.v), req.sel), s.pool, u, sel);
  }

  lemma StepUnder(s: State, step: Step, u: nat, sel: Selection)
    requires PathInv(s) && Under(s, u, sel) && Enabled(s, step) && Keeps(s, step, u, sel)
    ensures Under(After(s, step), u, sel)
  {
    hide Inv, Owned, HeldIn, Records, Alike, Collect, CollectAfterTimeout, AcquireFor, Deliver;
    if FetchStep(step) {
      FetchStepUnder(s, step, u, sel);
    } else if step.Look? || step.Expire? {
      LooksUnder(s, step, u, sel);
    } else if step.Ask? {
      AskUnder(s, step.reader, step.req, u, sel);
    }
  }

  lemma {:induction false} RunUnder(s: State, steps: seq<Step>, u: nat, sel: Selection)
    requires PathInv(s) && Under(s, u, sel) && Runs(s, steps) && AllKeep(s, steps, u, sel)
    ensures Under(Execute(s, steps), u, sel)
    decreases |steps|
  {
    hide PathInv, Under, Enabled, After, Keeps;
    if steps != [] {
      StepUnder(s, steps[0], u, sel);
      StepKeeps(s, steps[0]);
      RunUnder(After(s, steps[0]), steps[1..], u, sel);
    }
  }

  lemma AlikeShows(s: State, token: nat, sel: Selection)
    requires PathInv(s) && token in s.views && Under(s, s.views[token].req.v, sel)
    ensures ShowsRequest(s, token)
  {
    hide Inv, Owned, HeldIn, Records, WaitingUnder, QueueUnder;
    ViewShowsRecord(s, token);
  }

  // If a variable is read under one selection, as far as the driver can tell,
  // every view of it shows the requested record, also those taken after the
  // deadline.
  lemma OneSelectionReadsRight(p: IndexedPool, steps: seq<Step>, v: nat, sel: Selection, token: nat)
    requires Unused(p) && Runs(Start(p), steps) && AllKeep(Start(p), steps, v, sel)
    requires var s := Execute(Start(p), steps); token in s.views && s.views[token].req.v == v
    ensures ShowsRequest(Execute(Start(p), steps), token)
  {
    hide PathInv;
    StartKeeps(p);
    RunUnder(Start(p), steps, v, sel);
    AfterStart(p, steps);
    AlikeShows(Execute(Start(p), steps), token, sel);
  }

  // ----- two selections -----

  // What read checks before it asks the queue.
  ghost predicate Valid(src: Source, t: int, sel: Selection) {
    0 <= t < src.total && WindowOk(sel, src.rank, src.extents)
  }

  // The step is one that the entry points allow, asks for the windows a and b
  // only, and schedules fetches only under them.
  ghost predicate Admits(s: State, step: Step, a: Selection, b: Selection) {
    && (step.Ask? && step.req.v < |s.vars| ==>
          (step.req.sel == a || step.req.sel == b) && Valid(s.vars[step.req.v].src, step.req.t, step.req.sel))
    && (step.ScheduleFetch? && step.v < |s.vars| ==> Q(s, step.v).latched == a || Q(s, step.v).latched == b)
    && (step.Resolve? ==> step.name != "")
  }

  ghost predicate AllAdmit(s: State, steps: seq<Step>, a: Selection, b: Selection)
    requires Runs(s, steps)
    decreases |steps|
  {
    steps == [] || (Admits(s, steps[0], a, b) && AllAdmit(After(s, steps[0]), steps[1..], a, b))
  }

  ghost predicate Reached(p: IndexedPool, a: Selection, b: Selection, s: State) {
    exists steps :: Runs(Start(p), steps) && AllAdmit(Start(p), steps, a, b) && Execute(Start(p), steps) == s
  }

  lemma {:induction false} AppendAdmit(s: State, steps: seq<Step>, step: Step, a: Selection, b: Selection)
    requires Runs(s, steps) && AllAdmit(s, steps, a, b)
    requires Enabled(Execute(s, steps), step) && Admits(Execute(s, steps), step, a, b)
    ensures Runs(s, steps + [step]) && AllAdmit(s, steps + [step], a, b)
    ensures Execute(s, steps + [step]) == After(Execute(s, steps), step)
    decreases |steps|
  {
    hide Enabled, After, Admits;
    if steps == [] {
      assert steps + [step] == [step] && [step][1..] == [];
    } else {
      assert (steps + [step])[0] == steps[0] && (steps + [step])[1..] == steps[1..] + [step];
      AppendAdmit(After(s, steps[0]), steps[1..], step, a, b);
    }
  }

  lemma Extend(p: IndexedPool, a: Selection, b: Selection, s: State, step: Step)
    requires Reached(p, a, b, s) && Enabled(s, step) && Admits(s, step, a, b)
    ensures Reached(p, a, b, After(s, step))
  {
    hide Enabled, After, Admits;
    var steps :| Runs(Start(p), steps) && AllAdmit(Start(p), steps, a, b) && Execute(Start(p), steps) == s;
    AppendAdmit(Start(p), steps, step, a, b);
  }

  // One dataset with one variable, nobody past its queue.
  function OneVar(p: IndexedPool, src: Source, q: Queue, waiting: map<nat, Request>): State {
    State([Var(0, "v", src, q)], p, waiting, map[], {}, map[], map[], map[0 := 0], {})
  }

  function Fetching(t: int, task: Task, latched: Selection): Queue {
    EMPTY.(latched := latched, pending := {t}, tasks := map[t := task])
  }

  function StagedAlone(t: int, slot: nat, sel: Selection, latched: Selection): Queue {
    EMPTY.(latched := latched, completed := map[t := slot], fetched := if sel.Some? then map[t := sel.value] else map[])
  }

  // The sections of one fetch, on a queue with nothing else in it.
  lemma FetchSections(t: int, slot: nat, a: Selection, latched: Selection)
    ensures Schedule(EMPTY.(latched := a), t) == Fetching(t, Queued(a), a)
    ensures CheckCancelled(Fetching(t, Queued(a), latched), t) == Fetching(t, Acquiring(a), latched)
    ensures InDriver(Fetching(t, Acquiring(a), latched), t, slot) == Fetching(t, Reading(a, slot), latched)
    ensures MarkComplete(Fetching(t, Reading(a, slot), latched), t, slot, a) == StagedAlone(t, slot, a, latched)
  {
    var q := MarkComplete(Fetching(t, Reading(a, slot), latched), t, slot, a);
    assert q.pending == {} && q.tasks == map[] && q.completed == map[t := slot];
    assert q.fetched == StagedAlone(t, slot, a, latched).fetched;
    assert {} + {t} == {t} && Schedule(EMPTY.(latched := a), t).tasks == map[t := Queued(a)];
    assert CheckCancelled(Fetching(t, Queued(a), latched), t).tasks == map[t := Acquiring(a)];
    assert InDriver(Fetching(t, Acquiring(a), latched), t, slot).tasks == map[t := Reading(a, slot)];
  }

  lemma Opens(p: IndexedPool, src: Source, a: Selection, b: Selection)
    ensures Reached(p, a, b, OneVar(p, src, EMPTY, map[]))
  {
    hide Reached;
    assert Reached(p, a, b, Start(p)) by {
      NothingRun(p, a, b);
    }
    Extend(p, a, b, Start(p), Open(0));
    var s := After(Start(p), Open(0));
    Extend(p, a, b, s, Resolve(0, "v", src));
    assert After(s, Resolve(0, "v", src)) == OneVar(p, src, EMPTY, map[]);
  }

  lemma NothingRun(p: IndexedPool, a: Selection, b: Selection)
    ensures Reached(p, a, b, Start(p))
  {
    assert Runs(Start(p), []) && AllAdmit(Start(p), [], a, b) && Execute(Start(p), []) == Start(p);
  }

  lemma Asks(p: IndexedPool, a: Selection, b: Selection, p': IndexedPool, src: Source, q: Queue,
             waiting: map<nat, Request>, reader: nat, req: Request)
    requires Reached(p, a, b, OneVar(p', src, q, waiting)) && reader !in waiting
    requires req.v == 0 && (req.sel == a || req.sel == b) && Valid(src, req.t, req.sel)
    ensures Reached(p, a, b, OneVar(p', src, q.(latched := req.sel), waiting[reader := req]))
  {
    hide Reached, Valid;
    var s := OneVar(p', src, q, waiting);
    Extend(p, a, b, s, Ask(reader, req));
    assert After(s, Ask(reader, req)) == OneVar(p', src, q.(latched := req.sel), waiting[reader := req]);
  }

  lemma Schedules(p: IndexedPool, a: Selection, b: Selection, src: Source, waiting: map<nat, Request>, t: int)
    requires Reached(p, a, b, OneVar(p, src, EMPTY.(latched := a), waiting))
    ensures Reached(p, a, b, OneVar(p, src, Fetching(t, Acquiring(a), a), waiting))
  {
    hide Reached;
    FetchSections(t, 0, a, a);
    var s := OneVar(p, src, EMPTY.(latched := a), waiting);
    Extend(p, a, b, s, ScheduleFetch(0, t));
    var s1 := OneVar(p, src, Fetching(t, Queued(a), a), waiting);
    assert After(s, ScheduleFetch(0, t)) == s1;
    Extend(p, a, b, s1, Check(0, t));
    assert After(s1, Check(0, t)) == OneVar(p, src, Fetching(t, Acquiring(a), a), waiting);
  }

  lemma Grabs(p: IndexedPool, a: Selection, b: Selection, src: Source, waiting: map<nat, Request>, t: int)
    returns (p': IndexedPool, slot: nat)
    requires Unused(p) && !Exhausted(p)
    requires Reached(p, a, b, OneVar(p, src, Fetching(t, Acquiring(a), a), waiting))
    ensures InUse(p', slot) && Reached(p, a, b, OneVar(p', src, Fetching(t, Reading(a, slot), a), waiting))
  {
    hide Reached, Inv, Exhausted, Acquire;
    var s := OneVar(p, src, Fetching(t, Acquiring(a), a), waiting);
    var bytes := AcquireBytes(src, a, p.nominal);
    AcquireMeaning(p, bytes);
    var (q, r) := Acquire(p, bytes);
    InvIndexed(q);
    p', slot := q, r.value;
    FetchSections(t, slot, a, a);
    Extend(p, a, b, s, Grab(0, t));
    assert After(s, Grab(0, t)) == OneVar(p', src, Fetching(t, Reading(a, slot), a), waiting);
  }

  lemma InvIndexed(p: Pool)
    requires Inv(p)
    ensures Indexed(p)
  {
  }

  // A second reader finds nothing staged and goes on waiting.
  lemma LooksInVain(p: IndexedPool, a: Selection, b: Selection, s: State, reader: nat)
    requires Reached(p, a, b, s) && Enabled(s, Look(reader))
    requires var req := s.waiting[reader]; req.t !in Q(s, req.v).completed && req.t !in Q(s, req.v).failed
    ensures Reached(p, a, b, After(s, Look(reader))) && After(s, Look(reader)) == s
  {
    hide Reached;
    Extend(p, a, b, s, Look(reader));
  }

  lemma Finishes(p: IndexedPool, a: Selection, b: Selection, p': IndexedPool, src: Source, waiting: map<nat, Request>,
                 t: int, slot: nat, latched: Selection)
    returns (p1: IndexedPool)
    requires Reached(p, a, b, OneVar(p', src, Fetching(t, Reading(a, slot), latched), waiting)) && InUse(p', slot)
    ensures Reached(p, a, b, OneVar(p1, src, StagedAlone(t, slot, a, latched), waiting))
  {
    hide Reached, Bytes;
    var s := OneVar(p', src, Fetching(t, Reading(a, slot), latched), waiting);
    var step := Finish(0, t, Returned(0));
    FetchSections(t, slot, a, latched);
    Extend(p, a, b, s, step);
    p1 := Fill(p', slot, Bytes(src, t, a, Returned(0)), 0);
    assert After(s, step) == OneVar(p1, src, StagedAlone(t, slot, a, latched), waiting);
  }

  // The reader's deadline passes, and it takes what is staged.
  lemma Expires(p: IndexedPool, a: Selection, b: Selection, p': IndexedPool, src: Source, waiting: map<nat, Request>,
                t: int, slot: nat, latched: Selection, reader: nat)
    returns (s: State)
    requires Reached(p, a, b, OneVar(p', src, StagedAlone(t, slot, a, latched), waiting))
    requires reader in waiting && waiting[reader].v == 0 && waiting[reader].t == t
    ensures Reached(p, a, b, s) && |s.vars| == 1 && s.vars[0].src == src && s.tokens == {} && s.counted == map[]
    ensures s.hands == map[reader := Grant(0, waiting[reader], slot, Label(src, t, a), true)]
  {
    hide Reached;
    var before := OneVar(p', src, StagedAlone(t, slot, a, latched), waiting);
    assert Have(Q(before, 0), t) == a;
    Extend(p, a, b, before, Expire(reader));
    s := After(before, Expire(reader));
  }

  // Reader 0 reads a, its fetch enters the driver; reader 1 reads b, finds
  // nothing, and its deadline passes just after the fetch has landed.
  lemma LateHand(p: IndexedPool, src: Source, t: int, a: Selection, b: Selection) returns (s: State, slot: nat)
    requires Unused(p) && !Exhausted(p) && Valid(src, t, a) && Valid(src, t, b)
    ensures Reached(p, a, b, s) && |s.vars| == 1 && s.vars[0].src == src && s.tokens == {} && s.counted == map[]
    ensures s.hands == map[1 := Grant(0, Request(0, t, b), slot, Label(src, t, a), true)]
  {
    hide Reached, Unused, Exhausted, Valid;
    Opens(p, src, a, b);
    Asks(p, a, b, p, src, EMPTY, map[], 0, Request(0, t, a));
    var first := map[0 := Request(0, t, a)];
    Schedules(p, a, b, src, first, t);
    var p';
    p', slot := Grabs(p, a, b, src, first, t);
    var both := first[1 := Request(0, t, b)];
    Asks(p, a, b, p', src, Fetching(t, Reading(a, slot), a), first, 1, Request(0, t, b));
    LooksInVain(p, a, b, OneVar(p', src, Fetching(t, Reading(a, slot), b), both), 1);
    var p1 := Finishes(p, a, b, p', src, both, t, slot, b);
    s := Expires(p, a, b, p1, src, both, t, slot, b, 1);
  }

  lemma ReachedKeeps(p: IndexedPool, a: Selection, b: Selection, s: State)
    requires Unused(p) && Reached(p, a, b, s)
    ensures PathInv(s)
  {
    hide PathInv, Unused;
    var steps :| Runs(Start(p), steps) && AllAdmit(Start(p), steps, a, b) && Execute(Start(p), steps) == s;
    AfterStart(p, steps);
  }

  // For any two selections the driver can tell apart, and any contents that
  // differ under them, some run of reads under the two ends with a view of
  // bytes that are not the requested ones.
  lemma WrongAnswer(p: IndexedPool, src: Source, t: int, a: Selection, b: Selection) returns (s: State, token: nat)
    requires Unused(p) && !Exhausted(p) && Valid(src, t, a) && Valid(src, t, b)
    requires src.content(t, ForDriver(a)) != src.content(t, ForDriver(b))
    ensures Reached(p, a, b, s) && token in s.views && s.views[token].req == Request(0, t, b)
    ensures s.views[token].slot < |s.pool.buffers| && |s.vars| == 1 && s.vars[0].src == src
    ensures s.pool.buffers[s.views[token].slot].data == src.content(t, ForDriver(a))
  {
    hide Reached, Unused, Exhausted, Valid, PathInv;
    var s0, slot := LateHand(p, src, t, a, b);
    token := 0;
    Extend(p, a, b, s0, Mint(1, token));
    s := After(s0, Mint(1, token));
    ReachedKeeps(p, a, b, s);
    ViewShowsRecord(s, token);
  }

  lemma {:induction false} AdmitKeeps(s: State, steps: seq<Step>, a: Selection, b: Selection, v: nat)
    requires Runs(s, steps) && AllAdmit(s, steps, a, b) && Alike(a, b)
    ensures AllKeep(s, steps, v, a)
    decreases |steps|
  {
    hide After, Valid;
    if steps != [] {
      AdmitKeeps(After(s, steps[0]), steps[1..], a, b, v);
    }
  }

  // The header's promise that a returned buffer matches the requested box, for
  // reads under two valid windows of one shape: it holds in every run, late
  // answers included, exactly when the windows are the same box.
  lemma AnswersMatchExactlyWhen(p: IndexedPool, rank: int, extents: Dims, a: Selection, b: Selection)
    requires Unused(p) && !Exhausted(p) && WindowOk(a, rank, extents) && WindowOk(b, rank, extents)
    ensures (forall s, token :: Reached(p, a, b, s) && token in s.views ==> ShowsRequest(s, token)) <==> BboxSame(a, b)
  {
    hide Unused, Exhausted, WindowOk, Reached, BboxSame;
    BboxSameMeaning(a, b);
    if BboxSame(a, b) {
      forall s, token | Reached(p, a, b, s) && token in s.views ensures ShowsRequest(s, token) {
        SameBoxMatches(p, a, b, s, token);
      }
    } else {
      var content: (int, Selection) -> Payload := (u, sel) => if sel == ForDriver(a) then [1] else [0];
      var s, token := WrongAnswer(p, Source(1, 1, 1, rank, extents, content), 0, a, b);
      assert !ShowsRequest(s, token);
    }
  }

  lemma SameBoxMatches(p: IndexedPool, a: Selection, b: Selection, s: State, token: nat)
    requires Unused(p) && Reached(p, a, b, s) && token in s.views && BboxSame(a, b)
    ensures ShowsRequest(s, token)
  {
    hide Unused, BboxSame;
    BboxSameMeaning(a, b);
    var steps :| Runs(Start(p), steps) && AllAdmit(Start(p), steps, a, b) && Execute(Start(p), steps) == s;
    AdmitKeeps(Start(p), steps, a, b, s.views[token].req.v);
    OneSelectionReadsRight(p, steps, s.views[token].req.v, a, token);
  }

  // From any unused pool that has room, a close can pass its guard while a
  // read of the dataset is under way, and the read then ends with a view of
  // the closing dataset.
  lemma ClosingViewReached(p: IndexedPool, src: Source, t: int, sel: Selection) returns (s: State)
    requires Unused(p) && !Exhausted(p) && Valid(src, t, sel)
    ensures Reached(p, sel, sel, s) && 0 in s.closing && Viewed(s, 0)
  {
    hide Reached, Unused, Exhausted, Valid, PathInv, Viewed;
    var s0, slot := LateHand(p, src, t, sel, sel);
    ReachedKeeps(p, sel, sel, s0);
    GuardPasses(s0, 1);
    Extend(p, sel, sel, s0, CheckClose(0));
    var s1 := After(s0, CheckClose(0));
    MintsView(s1, 1, 0);
    Extend(p, sel, sel, s1, Mint(1, 0));
    s := After(s1, Mint(1, 0));
  }
}
