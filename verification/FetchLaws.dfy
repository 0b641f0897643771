// What the synchronous queue answers, and which timesteps it is ahead of, told
// from the state before the call and the driver alone.
module FetchLaws {
  import opened Collections
  import opened Staging
  import opened Prefetching
  import opened SyncPrefetching
  import opened FetchSizes

  // Every call for this record succeeds and fills no more than there is room.
  ghost predicate Obliging(d: Driver, t: int, sel: Selection, room: nat) {
    forall n: nat :: !Misbehaves(d.respond(n, t, ForDriver(sel)), room)
  }

  // Every call for this record throws.
  ghost predicate Broken(d: Driver, t: int, sel: Selection) {
    forall n: nat :: d.respond(n, t, ForDriver(sel)).Threw?
  }

  lemma {:induction false} NoDriverFailure(d: Driver, t: int, sel: Selection, room: nat, from: nat, calls: nat)
    requires Obliging(d, t, sel, room)
    ensures !DriverFailed(d, t, sel, room, from, from + calls)
    decreases calls
  {
    if calls > 0 {
      NoDriverFailure(d, t, sel, room, from + 1, calls - 1);
    }
  }

  // ----- one fetch -----

  datatype Fate = Lands | Fails(error: Error)

  predicate Meets(q: Queue, t: int, sel: Selection, f: Fate) {
    match f
    case Lands => t in q.completed && Have(q, t) == sel
    case Fails(e) => t in q.failed && q.failed[t] == e
  }

  ghost predicate Destined(p: Pool, d: Driver, t: int, sel: Selection, f: Fate) {
    match f
    case Lands => !Exhausted(p) && Obliging(d, t, sel, AcquireBytes(d.src, sel, p.nominal))
    case Fails(StagingBackpressure) => Exhausted(p)
    case Fails(BackendFailure) => !Exhausted(p) && Broken(d, t, sel)
    case Fails(Timeout) => false
  }

  lemma PerformFate(p: Pool, d: Driver, t: int, sel: Selection, n: nat, f: Fate)
    requires Inv(p) && Destined(p, d, t, sel, f)
    ensures var a := Perform(p, d, t, sel, n).1; if f.Lands? then a.Landed? else a == Lost(f.error)
  {
    hide AcquireBytes, Acquire, Exhausted;
    var asked := AcquireBytes(d.src, sel, p.nominal);
    AcquireMeaning(p, asked);
    PerformMeaning(p, d, t, sel, n);
    var (p', a, n') := Perform(p, d, t, sel, n);
    if f.Lands? {
      NoDriverFailure(d, t, sel, asked, n, n' - n);
    }
  }

  lemma FetchFate(w: World, d: Driver, t: int, f: Fate)
    requires Inv(w.p) && !w.q.cancelled && !Tracked(w.q, t) && Destined(w.p, d, t, w.q.latched, f)
    ensures Meets(FetchNow(w, d, t).q, t, w.q.latched, f)
  {
    hide Perform, Inv, Destined;
    PerformFate(w.p, d, t, w.q.latched, w.calls, f);
  }

  // ----- what a fetch leaves alone -----

  predicate SameEntry(q: Queue, q': Queue, t: int) {
    && (t in q.completed <==> t in q'.completed) && (t in q.completed ==> q'.completed[t] == q.completed[t])
    && (t in q.failed <==> t in q'.failed) && (t in q.failed ==> q'.failed[t] == q.failed[t])
    && Have(q', t) == Have(q, t) && (t in q.pending <==> t in q'.pending)
  }

  lemma FetchFrame(w: World, d: Driver, u: int, t: int)
    requires u != t || Tracked(w.q, t)
    ensures SameEntry(w.q, FetchNow(w, d, u).q, t)
  {
    hide Perform;
  }

  lemma FetchFlags(w: World, d: Driver, u: int)
    ensures var w' := FetchNow(w, d, u);
      w'.q.latched == w.q.latched && w'.q.cancelled == w.q.cancelled && w'.q.kickedOff == w.q.kickedOff
  {
    hide Perform;
  }

  // With nothing in flight before, a fetch adds its own timestep to those
  // tracked.
  lemma FetchTracks(w: World, d: Driver, u: int)
    requires w.q.pending == {} && !w.q.cancelled
    ensures FetchNow(w, d, u).q.pending == {}
    ensures forall v :: Tracked(FetchNow(w, d, u).q, v) <==> Tracked(w.q, v) || v == u
  {
    hide Perform;
  }

  lemma FetchAllStep(w: World, d: Driver, t: int, count: nat)
    requires count > 0
    ensures FetchAll(w, d, t, count) == FetchNow(FetchAll(w, d, t, count - 1), d, t + (count - 1))
  {
    hide FetchNow;
  }

  lemma FetchNone(w: World, d: Driver, t: int)
    ensures FetchAll(w, d, t, 0) == w
  {
  }

  lemma {:induction false} FetchAllTracks(w: World, d: Driver, t: int, count: nat)
    requires w.q.pending == {} && !w.q.cancelled
    ensures var w' := FetchAll(w, d, t, count);
      && w'.q.pending == {} && !w'.q.cancelled && w'.q.latched == w.q.latched && w'.q.kickedOff == w.q.kickedOff
      && forall v :: Tracked(w'.q, v) <==> Tracked(w.q, v) || t <= v < t + count
    decreases count
  {
    hide FetchNow, FetchAll, Tracked;
    if count > 0 {
      FetchAllTracks(w, d, t, count - 1);
      FetchAllStep(w, d, t, count);
      FetchTracks(FetchAll(w, d, t, count - 1), d, t + (count - 1));
      FetchFlags(FetchAll(w, d, t, count - 1), d, t + (count - 1));
    } else {
      FetchNone(w, d, t);
    }
  }

  // The window leaves a tracked timestep alone, and the first timestep as its
  // own fetch left it.
  lemma {:induction false} FetchAllFirst(w: World, d: Driver, t: int, count: nat)
    requires w.q.pending == {} && !w.q.cancelled && (Tracked(w.q, t) || count > 0)
    ensures var first := if Tracked(w.q, t) then w else FetchNow(w, d, t);
      Tracked(first.q, t) && SameEntry(first.q, FetchAll(w, d, t, count).q, t)
    decreases count
  {
    hide FetchNow, FetchAll;
    if !Tracked(w.q, t) {
      FetchTracks(w, d, t);
    }
    if count == 0 {
      FetchNone(w, d, t);
    } else if count == 1 && !Tracked(w.q, t) {
      FetchAllStep(w, d, t, 1);
      FetchNone(w, d, t);
    } else {
      FetchAllFirst(w, d, t, count - 1);
      FetchAllStep(w, d, t, count);
      FetchFrame(FetchAll(w, d, t, count - 1), d, t + (count - 1), t);
    }
  }

  // ----- the answer -----

  predicate Answers(r: Reply, f: Fate) {
    if f.Lands? then r.Ready? else r == Refused(f.error)
  }

  lemma LookMeets(w: World, t: int, req: Selection, f: Fate)
    requires QueueInv(w.q) && Meets(w.q, t, req, f)
    ensures var taken := Look(w, t, req).1; if f.Lands? then taken.Got? else taken == Failure(f.error)
  {
    hide Drop, BboxSame;
    BboxSameRefl(req);
  }

  lemma RefetchAnswers(w: World, d: Driver, t: int, req: Selection, f: Fate)
    requires SyncInv(w, d) && !w.q.cancelled && !Tracked(w.q, t) && w.q.latched == req
    requires Destined(w.p, d, t, req, f)
    ensures Answers(Refetch(w, d, t, req).1, f)
  {
    hide FetchNow, Destined, Look, Settle, Staged, Inv, QueueInv;
    FetchFate(w, d, t, f);
    FetchKeeps(w, d, t);
    LookMeets(FetchNow(w, d, t), t, req, f);
  }

  // A buffer that goes back can be granted next.
  lemma DroppedIsFree(p: Pool, i: nat)
    requires Inv(p) && InUse(p, i) && p.buffers[i].refs == 1
    ensures !Exhausted(Drop(p, i))
  {
    DropKeeps(p, i);
    assert !InUse(Drop(p, i), i);
  }

  lemma RefetchStale(w: World, d: Driver, t: int, req: Selection, f: Fate)
    requires SyncInv(w, d) && !w.q.cancelled && w.q.latched == req
    requires t in w.q.completed && !BboxSame(Have(w.q, t), req)
    requires if f.Lands? then Obliging(d, t, req, AcquireBytes(d.src, req, w.p.nominal))
             else f.error == BackendFailure && Broken(d, t, req)
    ensures Answers(LookThenFetch(w, d, t, req).1, f)
  {
    hide Refetch, AcquireBytes, Obliging, Broken, BboxSame, Inv, Exhausted;
    DroppedInv(w, d, t);
    DroppedIsFree(w.p, w.q.completed[t]);
    DropKeeps(w.p, w.q.completed[t]);
    RefetchAnswers(Look(w, t, req).0, d, t, req, f);
  }

  lemma MeetsSame(q: Queue, q': Queue, t: int, sel: Selection, f: Fate)
    requires SameEntry(q, q', t)
    ensures Meets(q, t, sel, f) <==> Meets(q', t, sel, f)
  {
  }

  // The state in which the window opens.
  function Opening(w: World, req: Selection): World {
    w.(q := Latch(w.q, req).(kickedOff := true))
  }

  lemma OpenIs(w: World, d: Driver, t: int, req: Selection)
    ensures Open(w, d, t, req)
         == FetchAll(Opening(w, req), d, t, if w.q.kickedOff then 0 else Window(d.src, t))
  {
    FetchNone(Opening(w, req), d, t);
    assert w.q.kickedOff ==> Opening(w, req).q == Latch(w.q, req);
  }

  lemma OpeningInv(w: World, d: Driver, req: Selection)
    requires SyncInv(w, d)
    ensures SyncInv(Opening(w, req), d) && w.q.pending == {}
  {
  }

  // A request whose timestep is staged under the same selection, or failed
  // before, is answered from the maps.
  lemma KnownAnswer(w: World, d: Driver, t: int, req: Selection, f: Fate)
    requires SyncInv(w, d) && !w.q.cancelled
    requires if f.Lands? then t in w.q.completed && BboxSame(Have(w.q, t), req)
             else t in w.q.failed && w.q.failed[t] == f.error
    ensures Answers(GetBuffer(w, d, t, req).1, f)
  {
    hide FetchAll, Refetch, BboxSame, Inv, Staged;
    OpenIs(w, d, t, req);
    OpeningInv(w, d, req);
    FetchAllFirst(Opening(w, req), d, t, if w.q.kickedOff then 0 else Window(d.src, t));
  }

  // One staged under another selection is fetched anew: its own buffer comes
  // free for that.
  lemma StaleAnswer(w: World, d: Driver, t: int, req: Selection, f: Fate)
    requires SyncInv(w, d) && !w.q.cancelled && t in w.q.completed && !BboxSame(Have(w.q, t), req)
    requires if f.Lands? then Obliging(d, t, req, AcquireBytes(d.src, req, w.p.nominal))
             else f.error == BackendFailure && Broken(d, t, req)
    ensures Answers(GetBuffer(w, d, t, req).1, f)
  {
    hide FetchAll, LookThenFetch, BboxSame, Inv, Staged, AcquireBytes, Obliging, Broken, Undisturbed, Explained,
        Answers;
    OpenIs(w, d, t, req);
    OpeningInv(w, d, req);
    FetchAllFirst(Opening(w, req), d, t, if w.q.kickedOff then 0 else Window(d.src, t));
    OpenKeeps(w, d, t, req);
    RefetchStale(Open(w, d, t, req), d, t, req, f);
  }

  // One nobody tracks is what its own fetch makes of it.
  lemma FreshAnswer(w: World, d: Driver, t: int, req: Selection, f: Fate)
    requires SyncInv(w, d) && !w.q.cancelled && !Tracked(w.q, t) && Destined(w.p, d, t, req, f)
    ensures Answers(GetBuffer(w, d, t, req).1, f)
  {
    hide FetchAll, FetchNow, Inv, Staged, Destined, Undisturbed, Explained, Look, Refetch, QueueInv;
    var w0, count := Opening(w, req), if w.q.kickedOff then 0 else Window(d.src, t);
    OpenIs(w, d, t, req);
    OpeningInv(w, d, req);
    OpenKeeps(w, d, t, req);
    if count > 0 {
      FetchFate(w0, d, t, f);
      FetchAllFirst(w0, d, t, count);
      MeetsSame(FetchNow(w0, d, t).q, FetchAll(w0, d, t, count).q, t, req, f);
      LookMeets(FetchAll(w0, d, t, count), t, req, f);
    } else {
      FetchNone(w0, d, t);
      LookMissing(w0, t, req);
      RefetchAnswers(w0, d, t, req, f);
    }
  }

  lemma LookMissing(w: World, t: int, req: Selection)
    requires !Tracked(w.q, t)
    ensures Look(w, t, req) == (w, Missing)
  {
  }

  lemma CancelledAnswer(w: World, d: Driver, t: int, req: Selection)
    requires SyncInv(w, d) && w.q.cancelled
    ensures GetBuffer(w, d, t, req).1 == Refused(BackendFailure)
  {
    OpenKeeps(w, d, t, req);
    var w1 := Open(w, d, t, req);
    assert w1.q.cancelled && !Tracked(w1.q, t);
    LookMissing(w1, t, req);
    assert FetchNow(w1, d, t) == w1;
  }

  // ----- the answers, told without the functions that compute them -----

  // A record's own size, or one nominal buffer where it has none.
  ghost function Room(src: Source, sel: Selection, nominal: nat): nat {
    if Wanted(src, sel) > 0 then Wanted(src, sel) else nominal
  }

  // A well-behaved driver means that a request is ready whenever a buffer is
  // free or the timestep is staged: any record that fits the space its true
  // size needs is handed out.
  lemma ReadyWhen(w: World, d: Driver, t: int, req: Selection)
    requires SyncInv(w, d) && !w.q.cancelled && t !in w.q.failed
    requires Wanted(d.src, req) < SIZE_RANGE && Obliging(d, t, req, Room(d.src, req, w.p.nominal))
    ensures var r := GetBuffer(w, d, t, req).1;
      if t in w.q.completed || !Exhausted(w.p) then r.Ready? else r == Refused(StagingBackpressure)
  {
    hide GetBuffer, AcquireBytes, Wanted, Inv, Staged, Exhausted, BboxSame, Obliging;
    AcquireBytesMeaning(d.src, req, w.p.nominal);
    if t in w.q.completed {
      if BboxSame(Have(w.q, t), req) {
        KnownAnswer(w, d, t, req, Lands);
      } else {
        StaleAnswer(w, d, t, req, Lands);
      }
    } else {
      FreshAnswer(w, d, t, req, if Exhausted(w.p) then Fails(StagingBackpressure) else Lands);
    }
  }

  // The errors: a recorded one is returned first, a cancelled queue and a
  // driver that throws are backend failures, and a full pool is reported
  // before the driver is asked.
  lemma RefusedWhen(w: World, d: Driver, t: int, req: Selection)
    requires SyncInv(w, d)
    ensures var r := GetBuffer(w, d, t, req).1;
      && (t in w.q.failed ==> r == Refused(w.q.failed[t]))
      && (w.q.cancelled ==> r == Refused(BackendFailure))
      && (!w.q.cancelled && !Tracked(w.q, t) && Exhausted(w.p) ==> r == Refused(StagingBackpressure))
      && (!w.q.cancelled && t !in w.q.failed && Broken(d, t, req) ==>
           if t in w.q.completed then
             if BboxSame(Have(w.q, t), req) then r.Ready? else r == Refused(BackendFailure)
           else r == Refused(if Exhausted(w.p) then StagingBackpressure else BackendFailure))
  {
    hide GetBuffer, AcquireBytes, Inv, Staged, Exhausted, BboxSame, Broken;
    if w.q.cancelled {
      CancelledAnswer(w, d, t, req);
    } else if t in w.q.failed {
      KnownAnswer(w, d, t, req, Fails(w.q.failed[t]));
    } else if t in w.q.completed {
      if BboxSame(Have(w.q, t), req) {
        KnownAnswer(w, d, t, req, Lands);
      } else if Broken(d, t, req) {
        StaleAnswer(w, d, t, req, Fails(BackendFailure));
      }
    } else if Exhausted(w.p) {
      FreshAnswer(w, d, t, req, Fails(StagingBackpressure));
    } else if Broken(d, t, req) {
      FreshAnswer(w, d, t, req, Fails(BackendFailure));
    }
  }

  // ----- after a cancellation -----

  lemma CancelledGet(w: World, d: Driver, t: int, req: Selection)
    requires SyncInv(w, d) && w.q.cancelled
    ensures var w' := GetBuffer(w, d, t, req).0; w'.q.cancelled && w'.calls == w.calls
  {
    CancelledAll(Opening(w, req), d, t, if w.q.kickedOff then 0 else Window(d.src, t));
    OpenIs(w, d, t, req);
    assert Open(w, d, t, req) == Opening(w, req);
    LookMissing(Opening(w, req), t, req);
    assert FetchNow(Opening(w, req), d, t) == Opening(w, req);
  }

  lemma {:induction false} CancelledAll(w: World, d: Driver, t: int, count: nat)
    requires w.q.cancelled
    ensures FetchAll(w, d, t, count) == w
    decreases count
  {
    hide FetchAll;
    if count > 0 {
      CancelledAll(w, d, t, count - 1);
      FetchAllStep(w, d, t, count);
    } else {
      FetchNone(w, d, t);
    }
  }

  lemma CancelledStays(s: Session, d: Driver, call: Call)
    requires SessionInv(s, d) && Permitted(s, call) && s.w.q.cancelled
    ensures Answer(s, d, call).w.q.cancelled && Answer(s, d, call).w.calls == s.w.calls
  {
    hide GetBuffer, DropAll, Drop;
    if call.Get? {
      CancelledGet(s.w, d, call.t, call.req);
    }
  }

  // Once cancelled, whatever is called afterwards, the driver is not called
  // again and every request is refused.
  lemma {:induction false} CancelledForever(s: Session, d: Driver, calls: seq<Call>, t: int, req: Selection)
    requires SessionInv(s, d) && AllPermitted(s, d, calls) && s.w.q.cancelled
    ensures var w := PerformAll(s, d, calls).w;
      w.calls == s.w.calls && GetBuffer(w, d, t, req).1 == Refused(BackendFailure)
    decreases |calls|
  {
    hide Answer, GetBuffer;
    if calls == [] {
      CancelledAnswer(s.w, d, t, req);
    } else {
      CallKeeps(s, d, calls[0]);
      CancelledStays(s, d, calls[0]);
      CancelledForever(Answer(s, d, calls[0]), d, calls[1..], t, req);
    }
  }

  // A cancellation cancels.
  lemma CancelRefuses(s: Session, d: Driver, calls: seq<Call>, t: int, req: Selection)
    requires SessionInv(s, d) && AllPermitted(Answer(s, d, CancelAll), d, calls)
    ensures var w := PerformAll(Answer(s, d, CancelAll), d, calls).w;
      w.calls == s.w.calls && GetBuffer(w, d, t, req).1 == Refused(BackendFailure)
  {
    hide GetBuffer, SyncInv, DropAll;
    CallKeeps(s, d, CancelAll);
    CancelledForever(Answer(s, d, CancelAll), d, calls, t, req);
  }

  // ----- looking ahead -----

  // The first request tracks depth timesteps from its own on, as far as the
  // dataset goes; later ones track no more.
  lemma OpenTracks(w: World, d: Driver, t: int, req: Selection)
    requires SyncInv(w, d) && !w.q.cancelled
    ensures var q := Open(w, d, t, req).q;
      && q.kickedOff && !q.cancelled && q.latched == req && q.pending == {}
      && forall v :: Tracked(q, v) <==>
           Tracked(w.q, v) || (!w.q.kickedOff && t <= v < t + d.src.depth && v < d.src.total)
  {
    hide FetchAll, Open;
    OpenIs(w, d, t, req);
    OpeningInv(w, d, req);
    FetchAllTracks(Opening(w, req), d, t, if w.q.kickedOff then 0 else Window(d.src, t));
    assert forall v :: Tracked(Opening(w, req).q, v) <==> Tracked(w.q, v);
  }

  lemma NextTracks(w: World, d: Driver, t: int)
    requires SyncInv(w, d) && !w.q.cancelled
    ensures var q := ScheduleNext(w, d, t).q;
      && q.kickedOff == w.q.kickedOff && !q.cancelled
      && forall v :: Tracked(q, v) <==> Tracked(w.q, v) || (v == t + d.src.depth && v < d.src.total)
  {
    hide FetchNow, Tracked;
    FetchTracks(w, d, t + d.src.depth);
    FetchFlags(w, d, t + d.src.depth);
  }

  // A look takes its timestep off the books.
  lemma LookTracks(w: World, t: int, req: Selection)
    requires QueueInv(w.q) && t !in w.q.pending
    ensures var (w', taken) := Look(w, t, req);
      && w'.q.kickedOff == w.q.kickedOff && w'.q.cancelled == w.q.cancelled && w'.q.latched == w.q.latched
      && w'.q.pending == w.q.pending
      && (forall v :: Tracked(w'.q, v) <==> v != t && Tracked(w.q, v))
      && (taken.Missing? <==> !Tracked(w.q, t))
      && (taken.Stale? ==> t in w.q.completed && Have(w.q, t) != req)
  {
    hide Drop, BboxSame;
    BboxSameRefl(req);
  }

  lemma RefetchTracks(w: World, d: Driver, t: int, req: Selection)
    requires SyncInv(w, d) && !w.q.cancelled && !Tracked(w.q, t) && w.q.latched == req
    ensures var q := Refetch(w, d, t, req).0.q;
      && q.kickedOff == w.q.kickedOff && q.cancelled == w.q.cancelled
      && forall v :: Tracked(q, v) <==> Tracked(w.q, v)
  {
    hide FetchNow, Look, Settle, Staged, Inv, FreshFailure, Exhausted, Undisturbed;
    FetchKeeps(w, d, t);
    FetchTracks(w, d, t);
    LookTracks(FetchNow(w, d, t), t, req);
  }

  lemma GetTracks(w: World, d: Driver, t: int, req: Selection)
    requires SyncInv(w, d) && !w.q.cancelled
    ensures var q := GetBuffer(w, d, t, req).0.q;
      && q.kickedOff && !q.cancelled
      && forall v :: Tracked(q, v) <==>
           v != t && (Tracked(w.q, v) || (!w.q.kickedOff && t <= v < t + d.src.depth && v < d.src.total))
  {
    hide Open, Look, Refetch, Tracked, Staged, Inv, Undisturbed, Explained, QueueInv;
    var w1 := Open(w, d, t, req);
    OpenKeeps(w, d, t, req);
    OpenTracks(w, d, t, req);
    LookTracks(w1, t, req);
    LookKeeps(w1, d, t, req);
    var (w2, taken) := Look(w1, t, req);
    if taken.Stale? || taken.Missing? {
      RefetchTracks(w2, d, t, req);
    }
  }

  // Reading timesteps t, t + 1, ... one after the other, each read followed
  // by its replenishment.
  function ReadOn(w: World, d: Driver, t: int, reqs: seq<Selection>): World
    decreases |reqs|
  {
    if reqs == [] then w
    else
      var n := |reqs| - 1;
      ScheduleNext(GetBuffer(ReadOn(w, d, t, reqs[..n]), d, t + n, reqs[n]).0, d, t + n)
  }

  // Such a reader never waits for a fetch to be scheduled: from the second
  // read on, exactly the next depth timesteps that exist are fetched or
  // failed already, whatever selections it asks for.
  lemma {:induction false} StaysAhead(w: World, d: Driver, t: int, reqs: seq<Selection>)
    requires SyncInv(w, d) && !w.q.cancelled && !w.q.kickedOff && reqs != [] && d.src.depth > 0
    requires forall v :: !Tracked(w.q, v)
    ensures var n, w' := |reqs|, ReadOn(w, d, t, reqs);
      && SyncInv(w', d) && !w'.q.cancelled && w'.q.kickedOff
      && forall v :: Tracked(w'.q, v) <==> t + n <= v < t + n + d.src.depth && v < d.src.total
    decreases |reqs|
  {
    hide SyncInv, GetBuffer, ScheduleNext, Tracked, Caused;
    var n := |reqs| - 1;
    var before := ReadOn(w, d, t, reqs[..n]);
    if n > 0 {
      StaysAhead(w, d, t, reqs[..n]);
    } else {
      assert reqs[..n] == [] && before == w;
    }
    GetBufferMeaning(before, d, t + n, reqs[n]);
    GetTracks(before, d, t + n, reqs[n]);
    var after := GetBuffer(before, d, t + n, reqs[n]).0;
    NextKeeps(after, d, t + n);
    NextTracks(after, d, t + n);
  }

  // ----- one model -----

  // The queue while timestep t is being fetched.
  function During(q: Queue, t: int, task: Task): Queue {
    q.(pending := q.pending + {t}, tasks := map[t := task])
  }

  lemma StartSections(q: Queue, t: int)
    requires q.tasks == map[] && !q.cancelled && !Tracked(q, t)
    ensures CheckCancelled(Schedule(q, t), t) == During(q, t, Acquiring(q.latched))
  {
    assert map[t := Queued(q.latched)][t := Acquiring(q.latched)] == map[t := Acquiring(q.latched)];
  }

  lemma EndSections(q: Queue, t: int, task: Task, a: Attempt)
    requires q.tasks == map[] && !Tracked(q, t)
    ensures Record(During(q, t, task), t, q.latched, a) == Record(q, t, q.latched, a)
  {
    assert q.pending + {t} - {t} == q.pending - {t};
    assert map[t := task] - {t} == q.tasks - {t};
  }

  // The last section, if the fetch got a buffer.
  function Concluded(q: Queue, p: IndexedPool, d: Driver, t: int, calls: nat): World {
    if t in q.tasks && q.tasks[t].Reading? && InUse(p, q.tasks[t].slot) then
      var (q', p') := Deliver(q, p, d.src, t, d.respond(calls, t, ForDriver(q.tasks[t].sel)));
      World(q', p', calls + 1)
    else World(q, p, calls)
  }

  // A synchronous fetch is the four sections of an asynchronous one, run one
  // after the other.
  lemma SectionsInSequence(w: World, d: Driver, t: int)
    requires SyncInv(w, d) && !w.q.cancelled && !Tracked(w.q, t)
    ensures CheckCancelled(Schedule(w.q, t), t) == During(w.q, t, Acquiring(w.q.latched))
    ensures var (q, p) := AcquireFor(During(w.q, t, Acquiring(w.q.latched)), w.p, d.src, t);
      && Indexed(p) && (t in q.tasks ==> q.tasks[t].Reading? && InUse(p, q.tasks[t].slot))
      && FetchNow(w, d, t) == Concluded(q, p, d, t, w.calls)
  {
    hide AcquireBytes, Acquire, Fill, Drop, Inv, Staged, Schedule, CheckCancelled, Kept, Bytes, MarkFailed,
        MarkComplete;
    StartSections(w.q, t);
    var (p, slot) := Acquire(w.p, AcquireBytes(d.src, w.q.latched, w.p.nominal));
    AcquireMeaning(w.p, AcquireBytes(d.src, w.q.latched, w.p.nominal));
    var asking := Acquiring(w.q.latched);
    if slot.Some? {
      var reading := Reading(w.q.latched, slot.value);
      assert map[t := asking][t := reading] == map[t := reading];
      EndSections(w.q, t, reading, Landed(slot.value));
      EndSections(w.q, t, reading, Lost(BackendFailure));
    } else {
      EndSections(w.q, t, asking, Lost(StagingBackpressure));
      NotTracking(During(w.q, t, asking), t, StagingBackpressure);
    }
  }

  lemma NotTracking(q: Queue, t: int, e: Error)
    ensures t !in MarkFailed(q, t, e).tasks
  {
  }

  // The last look after a deadline answers with a timeout exactly when the
  // timestep is neither staged nor failed.
  lemma LastLook(q: Queue, t: int)
    requires QueueInv(q) && forall u :: u in q.failed ==> q.failed[u] != Timeout
    ensures var (q', taken) := CollectAfterTimeout(q, t);
      && (taken == Failure(Timeout) <==> t !in q.completed && t !in q.failed)
      && (taken.Got? <==> t in q.completed) && (taken.Got? ==> taken.slot == q.completed[t])
      && (t in q.failed ==> taken == Failure(q.failed[t]))
      && t !in q'.completed && t !in q'.failed && q'.fetched == q.fetched
      && (forall u :: u != t ==> SameEntry(q, q', u))
  {
  }
}
