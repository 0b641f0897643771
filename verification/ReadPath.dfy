// Reads, view releases and closes of many datasets, variables and threads
// over one staging pool. A step is one lock-protected section of one thread
// or worker; a run is any interleaving of steps.
module ReadPath {
  import opened Collections
  import opened Staging
  import opened Prefetching
  import opened Ownership

  type Name = string

  // What resolve_variable keeps for one variable.
  datatype Var = Var(dataset: nat, name: Name, src: Source, q: Queue)

  datatype Request = Request(v: nat, t: int, sel: Selection)

  // A buffer taken out of a queue for a reader: the request it answers, the
  // record it holds, and whether it was taken after the deadline.
  datatype Grant = Grant(dataset: nat, req: Request, slot: nat, holds: Label, late: bool)

  // A dataset stays in the table after its handle is gone. Waiting readers
  // are inside get_buffer; a reader with a grant is about to mint a view.
  // tokens are the view handles in the table, views the records behind them
  // that still hold a buffer, and counted the views that a dataset's
  // outstanding count includes, with their datasets.
  datatype State = State(
    vars: seq<Var>,
    pool: IndexedPool,
    waiting: map<nat, Request>,
    hands: map<nat, Grant>,
    tokens: set<nat>,
    views: map<nat, Grant>,
    counted: map<nat, nat>,
    outstanding: map<nat, int>,
    closing: set<nat>)

  datatype Step =
    | Open(dataset: nat)
    | Resolve(dataset: nat, name: Name, src: Source)
    | Ask(reader: nat, req: Request)
    | ScheduleFetch(v: nat, t: int)
    | Check(v: nat, t: int)
    | Grab(v: nat, t: int)
    | Finish(v: nat, t: int, outcome: Outcome)
    | Look(reader: nat)
    | GiveUp(reader: nat)
    | Expire(reader: nat)
    | Mint(reader: nat, token: nat)
    | CountView(token: nat)
    | ReleaseView(token: nat)
    | Uncount(token: nat)
    | FreeToken(token: nat)
    | CheckClose(dataset: nat)
    | Cancel(v: nat)

  // Steps of the workers and of a closing thread; steps inside a read; steps
  // on a view's record.
  predicate FetchStep(step: Step) {
    step.ScheduleFetch? || step.Check? || step.Grab? || step.Finish? || step.Cancel?
  }

  predicate ReaderStep(step: Step) {
    step.Ask? || step.Look? || step.GiveUp? || step.Expire?
  }

  predicate ViewStep(step: Step) {
    step.Mint? || step.CountView? || step.ReleaseView? || step.Uncount? || step.FreeToken?
  }

  function SetQueue(vars: seq<Var>, v: nat, q: Queue): seq<Var>
    requires v < |vars|
  {
    vars[v := vars[v].(q := q)]
  }

  function WithQueue(s: State, v: nat, q: Queue): State
    requires v < |s.vars|
  {
    s.(vars := SetQueue(s.vars, v, q))
  }

  predicate Resolved(s: State, dataset: nat, name: Name) {
    exists v :: 0 <= v < |s.vars| && s.vars[v].dataset == dataset && s.vars[v].name == name
  }

  predicate HasTask(s: State, v: nat, t: int) {
    v < |s.vars| && t in s.vars[v].q.tasks
  }

  function Q(s: State, v: nat): Queue
    requires v < |s.vars|
  {
    s.vars[v].q
  }

  // Any thread may try to schedule any timestep: the first window, the
  // replenishment after a read and the retry of a slow path are all of this
  // form. A view can be released once read has returned its token, which is
  // after it was counted.
  predicate Enabled(s: State, step: Step) {
    match step
    case Open(dataset) => dataset !in s.outstanding
    case Resolve(dataset, name, src) => dataset in s.outstanding
    case Ask(reader, req) => reader !in s.waiting && reader !in s.hands && req.v < |s.vars|
    case ScheduleFetch(v, t) => v < |s.vars|
    case Check(v, t) => HasTask(s, v, t) && Q(s, v).tasks[t].Queued?
    case Grab(v, t) => HasTask(s, v, t) && Q(s, v).tasks[t].Acquiring?
    case Finish(v, t, outcome) => HasTask(s, v, t) && Q(s, v).tasks[t].Reading? && InUse(s.pool, Q(s, v).tasks[t].slot)
    case Look(reader) => reader in s.waiting && s.waiting[reader].v < |s.vars|
    case GiveUp(reader) => reader in s.waiting && s.waiting[reader].v < |s.vars| && Q(s, s.waiting[reader].v).cancelled
    case Expire(reader) => reader in s.waiting && s.waiting[reader].v < |s.vars|
    case Mint(reader, token) => reader in s.hands && token !in s.tokens
    case CountView(token) => token in s.views && token !in s.counted
    case ReleaseView(token) => token in s.views && token in s.counted
    case Uncount(token) => token in s.counted && token !in s.views
    case FreeToken(token) => token in s.tokens && token !in s.views && token !in s.counted
    case CheckClose(dataset) => dataset in s.outstanding
    case Cancel(v) => v < |s.vars| && s.vars[v].dataset in s.closing
  }

  function AfterLook(s: State, reader: nat, late: bool, result: (Queue, Pool, Taken)): State
    requires reader in s.waiting && s.waiting[reader].v < |s.vars| && Indexed(result.1)
  {
    var req := s.waiting[reader];
    var holds := Label(s.vars[req.v].src, req.t, Have(Q(s, req.v), req.t));
    var s' := WithQueue(s, req.v, result.0).(pool := result.1);
    match result.2
    case Got(slot) => s'.(waiting := s.waiting - {reader},
        hands := s.hands[reader := Grant(s.vars[req.v].dataset, req, slot, holds, late)])
    case Failure(_) => s'.(waiting := s.waiting - {reader})
    case _ => s'
  }

  function Count(outstanding: map<nat, int>, dataset: nat, change: int): map<nat, int> {
    if dataset in outstanding then outstanding[dataset := outstanding[dataset] + change] else outstanding
  }

  ghost function After(s: State, step: Step): State
    requires Enabled(s, step)
  {
    match step
    case Open(dataset) => s.(outstanding := s.outstanding[dataset := 0])
    case Resolve(dataset, name, src) =>
      if Resolved(s, dataset, name) then s else s.(vars := s.vars + [Var(dataset, name, src, EMPTY)])
    case Ask(reader, req) => WithQueue(s, req.v, Latch(Q(s, req.v), req.sel)).(waiting := s.waiting[reader := req])
    case ScheduleFetch(v, t) => WithQueue(s, v, Schedule(Q(s, v), t))
    case Check(v, t) => WithQueue(s, v, CheckCancelled(Q(s, v), t))
    case Grab(v, t) =>
      var (q, p) := AcquireFor(Q(s, v), s.pool, s.vars[v].src, t);
      WithQueue(s, v, q).(pool := p)
    case Finish(v, t, outcome) =>
      var (q, p) := Deliver(Q(s, v), s.pool, s.vars[v].src, t, outcome);
      WithQueue(s, v, q).(pool := p)
    case Look(reader) =>
      var req := s.waiting[reader];
      AfterLook(s, reader, false, Collect(Q(s, req.v), s.pool, req.t, req.sel))
    case GiveUp(reader) => s.(waiting := s.waiting - {reader})
    case Expire(reader) =>
      var req := s.waiting[reader];
      var (q, taken) := CollectAfterTimeout(Q(s, req.v), req.t);
      AfterLook(s, reader, true, (q, s.pool, taken))
    case Mint(reader, token) =>
      s.(hands := s.hands - {reader}, tokens := s.tokens + {token}, views := s.views[token := s.hands[reader]])
    case CountView(token) =>
      var dataset := s.views[token].dataset;
      s.(counted := s.counted[token := dataset], outstanding := Count(s.outstanding, dataset, 1))
    case ReleaseView(token) => s.(views := s.views - {token}, pool := Drop(s.pool, s.views[token].slot))
    case Uncount(token) =>
      s.(counted := s.counted - {token}, outstanding := Count(s.outstanding, s.counted[token], -1))
    case FreeToken(token) => s.(tokens := s.tokens - {token})
    case CheckClose(dataset) => if s.outstanding[dataset] > 0 then s else s.(closing := s.closing + {dataset})
    case Cancel(v) => WithQueue(s, v, Cancelled(Q(s, v))).(pool := DropAll(Q(s, v).completed, s.pool))
  }

  // ----- who holds what -----

  function FetchOf(q: Queue, t: int): Option<Holding> {
    if t in q.tasks && q.tasks[t].Reading? then Some(Holding(q.tasks[t].slot, None)) else None
  }

  function EntryOf(q: Queue, src: Source, t: int): Option<Holding> {
    if t in q.completed then Some(Holding(q.completed[t], Some(Label(src, t, Have(q, t))))) else None
  }

  function GrantOf(grants: map<nat, Grant>, k: nat): Option<Holding> {
    if k in grants then Some(Holding(grants[k].slot, Some(grants[k].holds))) else None
  }

  function HoldingIn(vars: seq<Var>, hands: map<nat, Grant>, views: map<nat, Grant>, o: Owner): Option<Holding> {
    match o
    case Fetch(v, t) => if v < |vars| then FetchOf(vars[v].q, t) else None
    case Entry(v, t) => if v < |vars| then EntryOf(vars[v].q, vars[v].src, t) else None
    case Hand(reader) => GrantOf(hands, reader)
    case View(token) => GrantOf(views, token)
  }

  ghost function HeldIn(vars: seq<Var>, hands: map<nat, Grant>, views: map<nat, Grant>): Holdings {
    o => HoldingIn(vars, hands, views, o)
  }

  ghost function Held(s: State): Holdings {
    HeldIn(s.vars, s.hands, s.views)
  }

  // ----- the invariant -----

  // A grant answers its request: the record's variable and timestep always,
  // its selection unless the deadline had passed.
  ghost predicate Answers(vars: seq<Var>, g: Grant) {
    && g.req.v < |vars| && g.dataset == vars[g.req.v].dataset
    && g.holds.src == vars[g.req.v].src && g.holds.t == g.req.t
    && (g.late || BboxSame(g.holds.sel, g.req.sel))
  }

  ghost predicate AllAnswer(vars: seq<Var>, grants: map<nat, Grant>) {
    forall k :: k in grants ==> Answers(vars, grants[k])
  }

  ghost predicate WaitingOk(count: nat, waiting: map<nat, Request>, hands: map<nat, Grant>) {
    forall r :: r in waiting ==> waiting[r].v < count && r !in hands
  }

  ghost predicate QueuesOk(vars: seq<Var>, datasets: set<nat>) {
    && (forall v :: 0 <= v < |vars| ==> QueueInv(vars[v].q) && vars[v].dataset in datasets)
    && (forall v, u :: 0 <= v < u < |vars| ==> (vars[v].dataset, vars[v].name) != (vars[u].dataset, vars[u].name))
  }

  ghost function CountedOf(counted: map<nat, nat>, dataset: nat): set<nat> {
    set k | k in counted && counted[k] == dataset
  }

  // A dataset's outstanding count is the number of its views that were
  // counted and not yet uncounted.
  ghost predicate CountsOk(counted: map<nat, nat>, outstanding: map<nat, int>) {
    forall d :: d in outstanding ==> outstanding[d] == |CountedOf(counted, d)|
  }

  ghost predicate TokensOk(tokens: set<nat>, views: map<nat, Grant>, counted: map<nat, nat>, datasets: set<nat>) {
    && (forall k :: k in views ==> k in tokens && (k in counted ==> counted[k] == views[k].dataset))
    && (forall k :: k in counted ==> k in tokens && counted[k] in datasets)
  }

  ghost predicate Records(s: State) {
    && QueuesOk(s.vars, s.outstanding.Keys)
    && WaitingOk(|s.vars|, s.waiting, s.hands)
    && AllAnswer(s.vars, s.hands) && AllAnswer(s.vars, s.views)
    && TokensOk(s.tokens, s.views, s.counted, s.outstanding.Keys) && CountsOk(s.counted, s.outstanding)
  }

  ghost predicate PathInv(s: State) {
    Inv(s.pool) && Records(s) && Owned(s.pool, Held(s))
  }

  function Start(p: IndexedPool): State {
    State([], p, map[], map[], {}, map[], map[], map[], {})
  }

  lemma StartKeeps(p: IndexedPool)
    requires Inv(p) && forall i :: 0 <= i < |p.buffers| ==> p.buffers[i].refs == 0
    ensures PathInv(Start(p))
  {
  }

  // ----- every step keeps the invariant -----

  lemma SetQueueRecords(s: State, v: nat, q: Queue, p: IndexedPool)
    requires Records(s) && v < |s.vars| && QueueInv(q)
    ensures Records(WithQueue(s, v, q)) && Records(WithQueue(s, v, q).(pool := p))
  {
    hide QueueInv, WaitingOk, TokensOk, CountsOk, BboxSame;
  }

  // Neither fetches inside the driver nor staged records change.
  ghost predicate SameHoldings(q: Queue, q': Queue) {
    && (forall t :: FetchOf(q', t) == FetchOf(q, t))
    && (forall src, t :: EntryOf(q', src, t) == EntryOf(q, src, t))
  }

  lemma QuietOwned(s: State, v: nat, q: Queue)
    requires Owned(s.pool, Held(s)) && v < |s.vars| && SameHoldings(s.vars[v].q, q)
    ensures Owned(s.pool, Held(WithQueue(s, v, q)))
  {
    hide Owned, FetchOf, EntryOf, GrantOf;
    var s' := WithQueue(s, v, q);
    forall o ensures Held(s')(o) == Held(s)(o) {
    }
    Unchanged(s.pool, Held(s), Held(s'));
  }

  lemma QuietStep(s: State, v: nat, q: Queue)
    requires PathInv(s) && v < |s.vars| && QueueInv(q) && SameHoldings(s.vars[v].q, q)
    ensures PathInv(WithQueue(s, v, q))
  {
    hide Inv, Records, Owned, SameHoldings, QueueInv, HeldIn;
    SetQueueRecords(s, v, q, s.pool);
    QuietOwned(s, v, q);
  }

  lemma QuietSections(q: Queue, t: int, sel: Selection)
    ensures SameHoldings(q, Latch(q, sel))
    ensures SameHoldings(q, Schedule(q, t)) || t in q.tasks
    ensures t in q.tasks && q.tasks[t].Queued? ==> SameHoldings(q, CheckCancelled(q, t))
    ensures t in q.tasks && !q.tasks[t].Reading? ==> forall e :: SameHoldings(q, MarkFailed(q, t, e))
  {
    hide SameHoldings, Latch, Schedule, CheckCancelled, MarkFailed;
    QuietSchedule(q, t, sel);
    QuietTask(q, t);
  }

  lemma QuietSchedule(q: Queue, t: int, sel: Selection)
    ensures SameHoldings(q, Latch(q, sel))
    ensures SameHoldings(q, Schedule(q, t)) || t in q.tasks
  {
  }

  lemma QuietTask(q: Queue, t: int)
    ensures t in q.tasks && q.tasks[t].Queued? ==> SameHoldings(q, CheckCancelled(q, t))
    ensures t in q.tasks && !q.tasks[t].Reading? ==> forall e :: SameHoldings(q, MarkFailed(q, t, e))
  {
  }

  function InDriver(q: Queue, t: int, slot: nat): Queue
    requires t in q.tasks
  {
    q.(tasks := q.tasks[t := Reading(q.tasks[t].sel, slot)])
  }

  lemma GrabOwned(s: State, v: nat, t: int, slot: nat, p: Pool)
    requires Owned(s.pool, Held(s)) && HasTask(s, v, t) && Q(s, v).tasks[t].Acquiring?
    requires !InUse(s.pool, slot) && Says(p, Holding(slot, None)) && SamePoolBut(s.pool, p, slot)
    ensures Owned(p, Held(WithQueue(s, v, InDriver(Q(s, v), t, slot))))
  {
    hide Owned, Says, SamePoolBut, InUse, GrantOf;
    var h, h' := Held(s), Held(WithQueue(s, v, InDriver(Q(s, v), t, slot)));
    assert SameBut(h, h', Fetch(v, t), Fetch(v, t));
    Gain(s.pool, p, h, h', Fetch(v, t), Holding(slot, None));
  }

  lemma InDriverKeeps(q: Queue, t: int, slot: nat)
    requires QueueInv(q) && t in q.tasks
    ensures QueueInv(InDriver(q, t, slot))
  {
    assert InDriver(q, t, slot).tasks.Keys == q.tasks.Keys;
  }

  lemma GrantedSlot(p: Pool, p': Pool, bytes: nat, slot: nat)
    requires Granted(p, p', bytes, slot) && Inv(p) && Inv(p')
    ensures !InUse(p, slot) && Says(p', Holding(slot, None)) && SamePoolBut(p, p', slot)
  {
  }

  lemma GrabKeeps(s: State, v: nat, t: int)
    requires PathInv(s) && Enabled(s, Grab(v, t))
    ensures PathInv(After(s, Grab(v, t)))
  {
    hide Inv, Records, Owned, SameHoldings, HeldIn, Granted, Exhausted, Acquire, QueueInv, Says, SamePoolBut, InUse,
        AcquireBytes;
    var q := Q(s, v);
    var bytes := AcquireBytes(s.vars[v].src, q.tasks[t].sel, s.pool.nominal);
    AcquireMeaning(s.pool, bytes);
    var (p, slot) := Acquire(s.pool, bytes);
    QueueAt(s, v);
    if slot.Some? {
      GrantedSlot(s.pool, p, bytes, slot.value);
      GrabOwned(s, v, t, slot.value, p);
      InDriverKeeps(q, t, slot.value);
      SetQueueRecords(s, v, InDriver(q, t, slot.value), p);
    } else {
      SectionsKeep(q, t);
      QuietSections(q, t, None);
      QuietStep(s, v, MarkFailed(q, t, StagingBackpressure));
    }
  }

  lemma QueueAt(s: State, v: nat)
    requires Records(s) && v < |s.vars|
    ensures QueueInv(Q(s, v))
  {
  }

  lemma FinishPasses(s: State, v: nat, t: int, p: Pool)
    requires Owned(s.pool, Held(s)) && HasTask(s, v, t) && Q(s, v).tasks[t].Reading? && t !in Q(s, v).completed
    requires SamePoolBut(s.pool, p, Q(s, v).tasks[t].slot)
    requires Says(p, Holding(Q(s, v).tasks[t].slot, Some(Label(s.vars[v].src, t, Q(s, v).tasks[t].sel))))
    ensures Owned(p, Held(WithQueue(s, v, MarkComplete(Q(s, v), t, Q(s, v).tasks[t].slot, Q(s, v).tasks[t].sel))))
  {
    hide Owned, Says, SamePoolBut, InUse, GrantOf;
    var Reading(sel, slot) := Q(s, v).tasks[t];
    var q := MarkComplete(Q(s, v), t, slot, sel);
    assert Have(q, t) == sel;
    var h, h' := Held(s), Held(WithQueue(s, v, q));
    assert SameBut(h, h', Fetch(v, t), Entry(v, t));
    Pass(s.pool, p, h, h', Fetch(v, t), Entry(v, t), Holding(slot, Some(Label(s.vars[v].src, t, sel))));
  }

  lemma FinishLoses(s: State, v: nat, t: int, p: Pool)
    requires Owned(s.pool, Held(s)) && HasTask(s, v, t) && Q(s, v).tasks[t].Reading?
    requires SamePoolBut(s.pool, p, Q(s, v).tasks[t].slot) && !InUse(p, Q(s, v).tasks[t].slot)
    ensures Owned(p, Held(WithQueue(s, v, MarkFailed(Q(s, v), t, BackendFailure))))
  {
    hide Owned, SamePoolBut, InUse, GrantOf;
    var h, h' := Held(s), Held(WithQueue(s, v, MarkFailed(Q(s, v), t, BackendFailure)));
    assert SameBut(h, h', Fetch(v, t), Fetch(v, t));
    Lose(s.pool, p, h, h', Fetch(v, t));
  }

  // The driver's writes touch nothing but the fetch's own slot.
  lemma Delivered(p: Pool, src: Source, t: int, sel: Selection, slot: nat, o: Outcome)
    requires Inv(p) && InUse(p, slot) && p.buffers[slot].refs == 1
    ensures var p' := Fill(p, slot, Bytes(src, t, sel, o), o.used);
      && Inv(p') && SamePoolBut(p, p', slot)
      && (Kept(o, p.buffers[slot].capacity) ==> Says(p', Holding(slot, Some(Label(src, t, sel)))))
      && Inv(Drop(p', slot)) && SamePoolBut(p, Drop(p', slot), slot) && !InUse(Drop(p', slot), slot)
  {
    FillKeeps(p, slot, Bytes(src, t, sel, o), o.used);
    FillThenDrop(p, slot, Bytes(src, t, sel, o), o.used);
  }

  lemma FillThenDrop(p: Pool, slot: nat, data: Payload, used: nat)
    requires Inv(p) && InUse(p, slot) && p.buffers[slot].refs == 1
    ensures var p' := Drop(Fill(p, slot, data, used), slot); Inv(p') && SamePoolBut(p, p', slot) && !InUse(p', slot)
  {
    hide Inv, Drop;
    FillKeeps(p, slot, data, used);
    DropKeeps(Fill(p, slot, data, used), slot);
  }

  lemma FinishKeeps(s: State, v: nat, t: int, o: Outcome)
    requires PathInv(s) && Enabled(s, Finish(v, t, o))
    ensures PathInv(After(s, Finish(v, t, o)))
  {
    hide Inv, Records, SameHoldings, Fill, Drop, Says, SamePoolBut, Bytes, QueueInv, HeldIn, Owned;
    var Reading(sel, slot) := Q(s, v).tasks[t];
    FetchHolds(s, v, t);
    Delivered(s.pool, s.vars[v].src, t, sel, slot, o);
    var p := Fill(s.pool, slot, Bytes(s.vars[v].src, t, sel, o), o.used);
    QueueAt(s, v);
    SectionsKeep(Q(s, v), t);
    if Kept(o, s.pool.buffers[slot].capacity) {
      FinishPasses(s, v, t, p);
      SetQueueRecords(s, v, MarkComplete(Q(s, v), t, slot, sel), p);
    } else {
      FinishLoses(s, v, t, Drop(p, slot));
      SetQueueRecords(s, v, MarkFailed(Q(s, v), t, BackendFailure), Drop(p, slot));
    }
  }

  lemma FetchHolds(s: State, v: nat, t: int)
    requires Owned(s.pool, Held(s)) && HasTask(s, v, t) && Q(s, v).tasks[t].Reading?
    ensures InUse(s.pool, Q(s, v).tasks[t].slot) && s.pool.buffers[Q(s, v).tasks[t].slot].refs == 1
  {
    assert Held(s)(Fetch(v, t)) == Some(Holding(Q(s, v).tasks[t].slot, None));
  }

  // The queue without its staged record of timestep t.
  ghost predicate WithoutEntry(q: Queue, q': Queue, t: int) {
    && (forall u :: FetchOf(q', u) == FetchOf(q, u))
    && (forall src, u :: EntryOf(q', src, u) == if u == t then None else EntryOf(q, src, u))
  }

  lemma DropHeld(s: State, o: Owner)
    requires Inv(s.pool) && Owned(s.pool, Held(s)) && Held(s)(o).Some?
    ensures var slot := Held(s)(o).value.slot;
      InUse(s.pool, slot) && Inv(Drop(s.pool, slot)) && !InUse(Drop(s.pool, slot), slot)
          && SamePoolBut(s.pool, Drop(s.pool, slot), slot)
  {
    hide Inv, Drop, HeldIn;
    DropKeeps(s.pool, Held(s)(o).value.slot);
  }

  lemma HandOverOwned(s: State, v: nat, q: Queue, t: int, reader: nat, g: Grant)
    requires Owned(s.pool, Held(s)) && v < |s.vars| && t in Q(s, v).completed && reader !in s.hands
    requires WithoutEntry(Q(s, v), q, t)
    requires g.slot == Q(s, v).completed[t] && g.holds == Label(s.vars[v].src, t, Have(Q(s, v), t))
    ensures Owned(s.pool, Held(WithQueue(s, v, q).(hands := s.hands[reader := g])))
  {
    var h, h' := Held(s), Held(WithQueue(s, v, q).(hands := s.hands[reader := g]));
    assert h(Entry(v, t)) == Some(Holding(g.slot, Some(g.holds)));
    assert Says(s.pool, Holding(g.slot, Some(g.holds)));
    HandOverSame(s, v, q, t, reader, g);
    PassOn(s.pool, h, h', Entry(v, t), Hand(reader), Holding(g.slot, Some(g.holds)));
  }

  lemma HandOverSame(s: State, v: nat, q: Queue, t: int, reader: nat, g: Grant)
    requires v < |s.vars| && t in Q(s, v).completed && reader !in s.hands && WithoutEntry(Q(s, v), q, t)
    ensures SameBut(Held(s), Held(WithQueue(s, v, q).(hands := s.hands[reader := g])), Entry(v, t), Hand(reader))
    ensures Held(WithQueue(s, v, q).(hands := s.hands[reader := g]))(Entry(v, t)).None?
  {
    hide FetchOf, EntryOf;
  }

  // A buffer passes from one owner to another as it is.
  lemma PassOn(p: Pool, h: Holdings, h': Holdings, x: Owner, y: Owner, held: Holding)
    requires Owned(p, h) && x != y && h(x) == Some(held) && h(y).None?
    requires h'(x).None? && h'(y) == Some(held) && SameBut(h, h', x, y)
    ensures Owned(p, h')
  {
    Pass(p, p, h, h', x, y, held);
  }

  lemma HandOver(s: State, reader: nat, q: Queue, g: Grant)
    requires PathInv(s) && Enabled(s, Look(reader)) && QueueInv(q) && g.req == s.waiting[reader]
    requires g.req.t in Q(s, g.req.v).completed && WithoutEntry(Q(s, g.req.v), q, g.req.t)
    requires g.dataset == s.vars[g.req.v].dataset && (g.late || BboxSame(g.holds.sel, g.req.sel))
    requires g.slot == Q(s, g.req.v).completed[g.req.t]
    requires g.holds == Label(s.vars[g.req.v].src, g.req.t, Have(Q(s, g.req.v), g.req.t))
    ensures PathInv(WithQueue(s, g.req.v, q).(waiting := s.waiting - {reader}, hands := s.hands[reader := g]))
  {
    hide Inv, Owned, HeldIn, QueueInv, QueuesOk, TokensOk, CountsOk, WithoutEntry, Have;
    SetQueueRecords(s, g.req.v, q, s.pool);
    HandOverOwned(s, g.req.v, q, g.req.t, reader, g);
  }

  lemma DropStaleOwned(s: State, v: nat, q: Queue, t: int, p: Pool)
    requires Owned(s.pool, Held(s)) && v < |s.vars| && t in Q(s, v).completed && WithoutEntry(Q(s, v), q, t)
    requires !InUse(p, Q(s, v).completed[t]) && SamePoolBut(s.pool, p, Q(s, v).completed[t])
    ensures Owned(p, Held(WithQueue(s, v, q)))
  {
    hide Owned, InUse, SamePoolBut, FetchOf;
    var h, h' := Held(s), Held(WithQueue(s, v, q));
    assert SameBut(h, h', Entry(v, t), Entry(v, t));
    Lose(s.pool, p, h, h', Entry(v, t));
  }

  lemma DropStale(s: State, v: nat, t: int, q: Queue)
    requires PathInv(s) && v < |s.vars| && QueueInv(q)
    requires t in Q(s, v).completed && WithoutEntry(Q(s, v), q, t)
    ensures PathInv(WithQueue(s, v, q).(pool := Drop(s.pool, Q(s, v).completed[t])))
  {
    hide Inv, Records, Owned, QueueInv, WithoutEntry, Drop, InUse, SamePoolBut;
    var slot := Q(s, v).completed[t];
    assert Held(s)(Entry(v, t)).Some?;
    DropHeld(s, Entry(v, t));
    SetQueueRecords(s, v, q, Drop(s.pool, slot));
    DropStaleOwned(s, v, q, t, Drop(s.pool, slot));
  }

  lemma Left(s: State, reader: nat)
    requires PathInv(s)
    ensures PathInv(s.(waiting := s.waiting - {reader}))
  {
    hide Inv, Owned, HeldIn, QueuesOk, AllAnswer, TokensOk, CountsOk;
  }

  // A reader leaves without a buffer.
  lemma LeaveEmpty(s: State, reader: nat, q: Queue)
    requires PathInv(s) && Enabled(s, Look(reader)) && QueueInv(q)
    requires SameHoldings(Q(s, s.waiting[reader].v), q)
    ensures PathInv(WithQueue(s, s.waiting[reader].v, q).(waiting := s.waiting - {reader}))
  {
    hide PathInv, SameHoldings, QueueInv;
    var v := s.waiting[reader].v;
    QuietStep(s, v, q);
    Left(WithQueue(s, v, q), reader);
  }

  lemma CollectSection(q: Queue, p: IndexedPool, t: int, req: Selection)
    requires QueueInv(q)
    ensures var (q', p', taken) := Collect(q, p, t, req);
      && QueueInv(q')
      && (if t in q.completed then WithoutEntry(q, q', t) else SameHoldings(q, q') && p' == p && !taken.Got?)
  {
    hide BboxSame, Drop;
  }

  lemma TimeoutSection(q: Queue, t: int)
    requires QueueInv(q)
    ensures var (q', taken) := CollectAfterTimeout(q, t);
      && QueueInv(q')
      && (if t in q.completed then WithoutEntry(q, q', t) else SameHoldings(q, q') && !taken.Got?)
  {
  }

  lemma LookKeeps(s: State, reader: nat)
    requires PathInv(s) && Enabled(s, Look(reader))
    ensures PathInv(After(s, Look(reader)))
  {
    hide PathInv, SameHoldings, WithoutEntry, QueueInv, BboxSame, Drop;
    var req := s.waiting[reader];
    var q := Q(s, req.v);
    InvQueueAt(s, req.v);
    CollectSection(q, s.pool, req.t, req.sel);
    var (q', p', taken) := Collect(q, s.pool, req.t, req.sel);
    if req.t in q.completed {
      if BboxSame(Have(q, req.t), req.sel) {
        HandOver(s, reader, q', Grant(s.vars[req.v].dataset, req, q.completed[req.t],
            Label(s.vars[req.v].src, req.t, Have(q, req.t)), false));
      } else {
        DropStale(s, req.v, req.t, q');
      }
    } else {
      LeaveEmpty(s, reader, q');
      QuietStep(s, req.v, q');
    }
  }

  // Only the pool counts as staged; in a valid queue a failed timestep is not.
  lemma InvQueueAt(s: State, v: nat)
    requires PathInv(s) && v < |s.vars|
    ensures QueueInv(Q(s, v)) && Q(s, v).completed.Keys !! Q(s, v).failed.Keys
  {
    hide Inv, Owned, HeldIn;
    QueueAt(s, v);
  }

  lemma ExpireKeeps(s: State, reader: nat)
    requires PathInv(s) && Enabled(s, Expire(reader))
    ensures PathInv(After(s, Expire(reader)))
  {
    hide PathInv, SameHoldings, WithoutEntry, QueueInv;
    var req := s.waiting[reader];
    var q := Q(s, req.v);
    InvQueueAt(s, req.v);
    TimeoutSection(q, req.t);
    var (q', taken) := CollectAfterTimeout(q, req.t);
    if req.t in q.completed {
      HandOver(s, reader, q', Grant(s.vars[req.v].dataset, req, q.completed[req.t],
          Label(s.vars[req.v].src, req.t, Have(q, req.t)), true));
    } else {
      LeaveEmpty(s, reader, q');
    }
  }

  lemma AskKeeps(s: State, reader: nat, req: Request)
    requires PathInv(s) && Enabled(s, Ask(reader, req))
    ensures PathInv(After(s, Ask(reader, req)))
  {
    hide PathInv, SameHoldings;
    InvQueueAt(s, req.v);
    QuietSections(Q(s, req.v), req.t, req.sel);
    QuietStep(s, req.v, Latch(Q(s, req.v), req.sel));
    AskWaiting(WithQueue(s, req.v, Latch(Q(s, req.v), req.sel)), reader, req);
  }

  lemma AskWaiting(s: State, reader: nat, req: Request)
    requires PathInv(s) && reader !in s.waiting && reader !in s.hands && req.v < |s.vars|
    ensures PathInv(s.(waiting := s.waiting[reader := req]))
  {
    hide Inv, Owned, HeldIn, QueuesOk, AllAnswer, TokensOk, CountsOk;
  }

  lemma NoneCounted(s: State, dataset: nat)
    requires Records(s) && dataset !in s.outstanding
    ensures CountedOf(s.counted, dataset) == {}
  {
  }

  lemma OpenRecords(s: State, dataset: nat)
    requires Records(s) && dataset !in s.outstanding
    ensures Records(s.(outstanding := s.outstanding[dataset := 0]))
  {
    hide QueueInv, AllAnswer, WaitingOk;
    NoneCounted(s, dataset);
  }

  lemma OpenKeeps(s: State, dataset: nat)
    requires PathInv(s) && dataset !in s.outstanding
    ensures PathInv(s.(outstanding := s.outstanding[dataset := 0]))
  {
    hide Inv, Records, Owned, HeldIn;
    OpenRecords(s, dataset);
  }

  lemma ResolvedRecords(s: State, added: Var)
    requires Records(s) && added.dataset in s.outstanding && added.q == EMPTY
    requires !Resolved(s, added.dataset, added.name)
    ensures Records(s.(vars := s.vars + [added]))
  {
    hide TokensOk, CountsOk, BboxSame;
  }

  lemma ResolvedOwned(s: State, added: Var)
    requires Owned(s.pool, Held(s)) && added.q == EMPTY
    ensures Owned(s.pool, Held(s.(vars := s.vars + [added])))
  {
    hide Owned, GrantOf;
    var s' := s.(vars := s.vars + [added]);
    forall o ensures Held(s')(o) == Held(s)(o) {
    }
    Unchanged(s.pool, Held(s), Held(s'));
  }

  lemma ResolveKeeps(s: State, dataset: nat, name: Name, src: Source)
    requires PathInv(s) && dataset in s.outstanding && !Resolved(s, dataset, name)
    ensures PathInv(s.(vars := s.vars + [Var(dataset, name, src, EMPTY)]))
  {
    hide Inv, Records, Owned, HeldIn, Resolved;
    ResolvedRecords(s, Var(dataset, name, src, EMPTY));
    ResolvedOwned(s, Var(dataset, name, src, EMPTY));
  }

  lemma MintRecords(s: State, reader: nat, token: nat)
    requires Records(s) && reader in s.hands && token !in s.tokens
    ensures Records(s.(hands := s.hands - {reader}, tokens := s.tokens + {token},
        views := s.views[token := s.hands[reader]]))
    ensures token !in s.views
  {
    hide QueuesOk, CountsOk, Answers;
  }

  lemma MintOwned(s: State, reader: nat, token: nat)
    requires Owned(s.pool, Held(s)) && reader in s.hands && token !in s.views
    ensures Owned(s.pool, Held(s.(hands := s.hands - {reader}, views := s.views[token := s.hands[reader]])))
  {
    hide Owned, FetchOf, EntryOf;
    var h, h' := Held(s), Held(s.(hands := s.hands - {reader}, views := s.views[token := s.hands[reader]]));
    assert SameBut(h, h', Hand(reader), View(token));
    PassOn(s.pool, h, h', Hand(reader), View(token), h(Hand(reader)).value);
  }

  lemma MintKeeps(s: State, reader: nat, token: nat)
    requires PathInv(s) && Enabled(s, Mint(reader, token))
    ensures PathInv(After(s, Mint(reader, token)))
  {
    hide Inv, Records, Owned, HeldIn;
    MintRecords(s, reader, token);
    MintOwned(s, reader, token);
  }

  lemma CountsChange(counted: map<nat, nat>, counted': map<nat, nat>, outstanding: map<nat, int>, dataset: nat,
      change: int)
    requires CountsOk(counted, outstanding)
    requires |CountedOf(counted', dataset)| == |CountedOf(counted, dataset)| + change
    requires forall d :: d != dataset ==> CountedOf(counted', d) == CountedOf(counted, d)
    ensures CountsOk(counted', Count(outstanding, dataset, change))
  {
    hide CountedOf;
  }

  lemma Added(counted: map<nat, nat>, token: nat, dataset: nat)
    requires token !in counted
    ensures CountedOf(counted[token := dataset], dataset) == CountedOf(counted, dataset) + {token}
    ensures forall d :: d != dataset ==> CountedOf(counted[token := dataset], d) == CountedOf(counted, d)
  {
  }

  lemma Removed(counted: map<nat, nat>, token: nat)
    requires token in counted
    ensures CountedOf(counted - {token}, counted[token]) == CountedOf(counted, counted[token]) - {token}
    ensures token in CountedOf(counted, counted[token])
    ensures forall d :: d != counted[token] ==> CountedOf(counted - {token}, d) == CountedOf(counted, d)
  {
  }

  lemma CountViewRecords(s: State, token: nat)
    requires Records(s) && token in s.views && token !in s.counted
    ensures var dataset := s.views[token].dataset;
      Records(s.(counted := s.counted[token := dataset], outstanding := Count(s.outstanding, dataset, 1)))
  {
    hide QueuesOk, WaitingOk, CountsOk, CountedOf, BboxSame;
    var dataset := s.views[token].dataset;
    ViewDataset(s, token);
    Added(s.counted, token, dataset);
    assert token !in CountedOf(s.counted, dataset) by {
      NotCounted(s.counted, token, dataset);
    }
    CountsChange(s.counted, s.counted[token := dataset], s.outstanding, dataset, 1);
    assert Count(s.outstanding, dataset, 1).Keys == s.outstanding.Keys;
  }

  lemma NotCounted(counted: map<nat, nat>, token: nat, dataset: nat)
    requires token !in counted
    ensures token !in CountedOf(counted, dataset)
  {
  }

  lemma ViewDataset(s: State, token: nat)
    requires Records(s) && token in s.views
    ensures s.views[token].dataset in s.outstanding
  {
    assert Answers(s.vars, s.views[token]);
  }

  lemma CountViewKeeps(s: State, token: nat)
    requires PathInv(s) && Enabled(s, CountView(token))
    ensures PathInv(After(s, CountView(token)))
  {
    hide Inv, Records, Owned, HeldIn;
    CountViewRecords(s, token);
  }

  lemma UncountRecords(s: State, token: nat)
    requires Records(s) && token in s.counted
    ensures Records(s.(counted := s.counted - {token}, outstanding := Count(s.outstanding, s.counted[token], -1)))
  {
    hide QueuesOk, WaitingOk, AllAnswer, CountsOk, CountedOf;
    Removed(s.counted, token);
    CountsChange(s.counted, s.counted - {token}, s.outstanding, s.counted[token], -1);
    assert Count(s.outstanding, s.counted[token], -1).Keys == s.outstanding.Keys;
  }

  lemma UncountKeeps(s: State, token: nat)
    requires PathInv(s) && Enabled(s, Uncount(token))
    ensures PathInv(After(s, Uncount(token)))
  {
    hide Inv, Records, Owned, HeldIn;
    UncountRecords(s, token);
  }

  lemma ReleaseViewOwned(s: State, token: nat, p: Pool)
    requires Owned(s.pool, Held(s)) && token in s.views
    requires !InUse(p, s.views[token].slot) && SamePoolBut(s.pool, p, s.views[token].slot)
    ensures Owned(p, Held(s.(views := s.views - {token})))
  {
    hide Owned, InUse, SamePoolBut, FetchOf, EntryOf;
    var h, h' := Held(s), Held(s.(views := s.views - {token}));
    assert SameBut(h, h', View(token), View(token));
    Lose(s.pool, p, h, h', View(token));
  }

  lemma ReleaseViewRecords(s: State, token: nat, p: IndexedPool)
    requires Records(s)
    ensures Records(s.(views := s.views - {token}, pool := p))
  {
    hide QueuesOk, WaitingOk, CountsOk, Answers;
  }

  lemma ReleaseViewKeeps(s: State, token: nat)
    requires PathInv(s) && Enabled(s, ReleaseView(token))
    ensures PathInv(After(s, ReleaseView(token)))
  {
    hide Inv, Records, Owned, InUse, SamePoolBut, Drop;
    assert Held(s)(View(token)).Some?;
    DropHeld(s, View(token));
    ReleaseViewRecords(s, token, Drop(s.pool, s.views[token].slot));
    ReleaseViewOwned(s, token, Drop(s.pool, s.views[token].slot));
  }

  lemma FreeTokenKeeps(s: State, token: nat)
    requires PathInv(s) && Enabled(s, FreeToken(token))
    ensures PathInv(After(s, FreeToken(token)))
  {
    hide Inv, Owned, HeldIn, QueuesOk, WaitingOk, AllAnswer, CountsOk;
  }

  lemma CloseKeeps(s: State, dataset: nat)
    requires PathInv(s) && Enabled(s, CheckClose(dataset))
    ensures PathInv(After(s, CheckClose(dataset)))
  {
    hide Inv, Owned, HeldIn, QueuesOk, WaitingOk, AllAnswer, TokensOk, CountsOk;
  }

  lemma CancelOwned(s: State, v: nat, p: Pool)
    requires Owned(s.pool, Held(s)) && v < |s.vars| && Freed(Q(s, v).completed, s.pool, p)
    ensures Owned(p, Held(WithQueue(s, v, Cancelled(Q(s, v)))))
  {
    hide Owned, Freed, GrantOf;
    var h, h' := Held(s), Held(WithQueue(s, v, Cancelled(Q(s, v))));
    LoseAll(s.pool, p, h, h', v, Q(s, v).completed);
  }

  lemma EntriesHeldOnce(s: State, v: nat)
    requires Owned(s.pool, Held(s)) && v < |s.vars|
    ensures HeldOnce(Q(s, v).completed, s.pool)
  {
    var completed := Q(s, v).completed;
    forall t | t in completed
      ensures Held(s)(Entry(v, t)).Some? && Held(s)(Entry(v, t)).value.slot == completed[t]
    {
    }
    forall t, u | t in completed && u in completed && t != u ensures completed[t] != completed[u] {
      assert Entry(v, t) != Entry(v, u);
    }
  }

  lemma CancelKeeps(s: State, v: nat)
    requires PathInv(s) && Enabled(s, Cancel(v))
    ensures PathInv(After(s, Cancel(v)))
  {
    hide Inv, Records, Owned, HeldIn, HeldOnce, DropAll, QueueInv;
    EntriesHeldOnce(s, v);
    DropAllKeeps(Q(s, v).completed, s.pool);
    QueueAt(s, v);
    SectionsKeep(Q(s, v), 0);
    SetQueueRecords(s, v, Cancelled(Q(s, v)), DropAll(Q(s, v).completed, s.pool));
    CancelOwned(s, v, DropAll(Q(s, v).completed, s.pool));
  }

  lemma ScheduleKeeps(s: State, v: nat, t: int)
    requires PathInv(s) && v < |s.vars|
    ensures PathInv(WithQueue(s, v, Schedule(Q(s, v), t)))
  {
    hide PathInv, FetchOf, EntryOf;
    InvQueueAt(s, v);
    SectionsKeep(Q(s, v), t);
    QuietSections(Q(s, v), t, None);
    QuietStep(s, v, Schedule(Q(s, v), t));
  }

  lemma CheckKeeps(s: State, v: nat, t: int)
    requires PathInv(s) && Enabled(s, Check(v, t))
    ensures PathInv(WithQueue(s, v, CheckCancelled(Q(s, v), t)))
  {
    hide PathInv, SameHoldings, QueueInv;
    InvQueueAt(s, v);
    SectionsKeep(Q(s, v), t);
    QuietSections(Q(s, v), t, None);
    QuietStep(s, v, CheckCancelled(Q(s, v), t));
  }

  lemma FetchStepKeeps(s: State, step: Step)
    requires PathInv(s) && Enabled(s, step) && FetchStep(step)
    ensures PathInv(After(s, step))
  {
    hide PathInv;
    match step
    case ScheduleFetch(v, t) => ScheduleKeeps(s, v, t);
    case Check(v, t) => CheckKeeps(s, v, t);
    case Grab(v, t) => GrabKeeps(s, v, t);
    case Finish(v, t, outcome) => FinishKeeps(s, v, t, outcome);
    case Cancel(v) => CancelKeeps(s, v);
  }

  lemma ReaderStepKeeps(s: State, step: Step)
    requires PathInv(s) && Enabled(s, step) && ReaderStep(step)
    ensures PathInv(After(s, step))
  {
    hide PathInv;
    match step
    case Ask(reader, req) => AskKeeps(s, reader, req);
    case Look(reader) => LookKeeps(s, reader);
    case GiveUp(reader) => Left(s, reader);
    case Expire(reader) => ExpireKeeps(s, reader);
  }

  lemma ViewStepKeeps(s: State, step: Step)
    requires PathInv(s) && Enabled(s, step) && ViewStep(step)
    ensures PathInv(After(s, step))
  {
    hide PathInv;
    match step
    case Mint(reader, token) => MintKeeps(s, reader, token);
    case CountView(token) => CountViewKeeps(s, token);
    case ReleaseView(token) => ReleaseViewKeeps(s, token);
    case Uncount(token) => UncountKeeps(s, token);
    case FreeToken(token) => FreeTokenKeeps(s, token);
  }

  lemma StepKeeps(s: State, step: Step)
    requires PathInv(s) && Enabled(s, step)
    ensures PathInv(After(s, step))
  {
    hide PathInv, Enabled;
    if FetchStep(step) {
      FetchStepKeeps(s, step);
    } else if ReaderStep(step) {
      ReaderStepKeeps(s, step);
    } else if ViewStep(step) {
      ViewStepKeeps(s, step);
    } else {
      DatasetStepKeeps(s, step);
    }
  }

  lemma DatasetStepKeeps(s: State, step: Step)
    requires PathInv(s) && Enabled(s, step) && !FetchStep(step) && !ReaderStep(step) && !ViewStep(step)
    ensures PathInv(After(s, step))
  {
    hide PathInv, Resolved;
    match step
    case Open(dataset) => OpenKeeps(s, dataset);
    case Resolve(dataset, name, src) =>
      if !Resolved(s, dataset, name) {
        ResolveKeeps(s, dataset, name, src);
      }
    case CheckClose(dataset) => CloseKeeps(s, dataset);
  }

  // ----- what a view shows -----

  // A view shows the record of its request's variable and timestep, under the
  // requested selection unless the buffer was taken after the deadline.
  lemma ViewShowsRecord(s: State, token: nat)
    requires PathInv(s) && token in s.views
    ensures var g := s.views[token];
      && g.req.v < |s.vars| && InUse(s.pool, g.slot) && s.pool.buffers[g.slot].refs == 1
      && s.pool.buffers[g.slot].used <= s.pool.buffers[g.slot].capacity
      && s.pool.buffers[g.slot].data == s.vars[g.req.v].src.content(g.req.t, ForDriver(g.holds.sel))
      && (!g.late ==> s.pool.buffers[g.slot].data == s.vars[g.req.v].src.content(g.req.t, ForDriver(g.req.sel)))
  {
    var g := s.views[token];
    assert Held(s)(View(token)) == Some(Holding(g.slot, Some(g.holds)));
    BboxSameMeaning(g.holds.sel, g.req.sel);
  }

  // Closing starts exactly when every view of the dataset that was counted
  // has been uncounted.
  lemma CloseNeedsNoViews(s: State, dataset: nat)
    requires PathInv(s) && Enabled(s, CheckClose(dataset)) && dataset !in s.closing
    ensures dataset in After(s, CheckClose(dataset)).closing <==>
      forall k :: k in s.counted ==> s.counted[k] != dataset
  {
    if CountedOf(s.counted, dataset) != {} {
      var k := Pick(CountedOf(s.counted, dataset));
      assert s.counted[k] == dataset;
    } else {
      assert forall k :: k in s.counted ==> k !in CountedOf(s.counted, dataset);
    }
  }

  // A fetch inside the driver can always finish.
  lemma FetchCanFinish(s: State, v: nat, t: int, o: Outcome)
    requires PathInv(s) && HasTask(s, v, t) && Q(s, v).tasks[t].Reading?
    ensures Enabled(s, Finish(v, t, o))
  {
    assert Held(s)(Fetch(v, t)).Some?;
  }

  lemma ViewsChange(s: State, step: Step, token: nat)
    requires Records(s) && Enabled(s, step) && token in s.views && step != ReleaseView(token)
    ensures token in After(s, step).views && After(s, step).views[token] == s.views[token]
  {
    hide QueuesOk, WaitingOk, AllAnswer, CountsOk, AcquireFor, Deliver, DropAll, Collect, CollectAfterTimeout;
    match step
    case Look(reader) => LooksLeaveViews(s, reader, step);
    case Expire(reader) => LooksLeaveViews(s, reader, step);
    case _ =>
  }

  lemma LooksLeaveViews(s: State, reader: nat, step: Step)
    requires Enabled(s, step) && (step == Look(reader) || step == Expire(reader))
    ensures After(s, step).views == s.views
  {
    hide Collect, CollectAfterTimeout;
  }

  lemma ViewHolds(s: State, token: nat)
    requires PathInv(s) && token in s.views
    ensures var g := s.views[token];
      InUse(s.pool, g.slot) && s.pool.buffers[g.slot].data == g.holds.src.content(g.holds.t, ForDriver(g.holds.sel))
  {
    assert Held(s)(View(token)) == Some(Holding(s.views[token].slot, Some(s.views[token].holds)));
  }

  // The view is still there, and shows the same bytes.
  ghost predicate StillShown(s: State, s': State, token: nat)
    requires token in s.views
  {
    var slot := s.views[token].slot;
    && token in s'.views && s'.views[token] == s.views[token]
    && InUse(s.pool, slot) && InUse(s'.pool, slot)
    && s'.pool.buffers[slot].data == s.pool.buffers[slot].data
  }

  lemma SameBytes(s: State, s': State, token: nat)
    requires PathInv(s) && PathInv(s') && token in s.views && token in s'.views && s'.views[token] == s.views[token]
    ensures StillShown(s, s', token)
  {
    ViewHolds(s, token);
    ViewHolds(s', token);
  }

  // A live view survives every step but its own release, and its bytes do
  // not change.
  lemma ViewIsStable(s: State, step: Step, token: nat)
    requires PathInv(s) && Enabled(s, step) && token in s.views && step != ReleaseView(token)
    ensures StillShown(s, After(s, step), token)
  {
    StepKeeps(s, step);
    ViewsChange(s, step, token);
    SameBytes(s, After(s, step), token);
  }
}
