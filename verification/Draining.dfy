// Draining the worker pool: with no further submissions, and workers that keep
// trying and finish what they start, everything queued has run.
module Draining {
  import opened WriteOrdering

  predicate NoSubmissions(steps: seq<Step>) {
    forall i :: 0 <= i < |steps| ==> !steps[i].Submit? && !steps[i].SubmitFetch?
  }

  function Queued(s: State): nat {
    |s.writes| + |s.prefetches|
  }

  // What a run without submissions leaves queued.
  ghost predicate Shrinks(s: State, s': State) {
    && |s'.writes| <= |s.writes| && |s'.prefetches| <= |s.prefetches|
    && multiset(s'.writes) <= multiset(s.writes) && s'.accepted == s.accepted
    && s'.fetchesAccepted == s.fetchesAccepted
  }

  lemma TryHistory(c: Config, s: State, worker: nat, pick: nat)
    requires Enabled(c, s, Try(worker, pick))
    ensures var s' := Apply(c, s, Try(worker, pick));
      s'.accepted == s.accepted && s'.fetchesAccepted == s.fetchesAccepted
  {
    hide Eligible;
  }

  lemma TryShrinks(c: Config, s: State, worker: nat, pick: nat)
    requires Enabled(c, s, Try(worker, pick))
    ensures Shrinks(s, Apply(c, s, Try(worker, pick)))
  {
    hide Apply, Enabled, FrontTurn;
    var s' := Apply(c, s, Try(worker, pick));
    TryHistory(c, s, worker, pick);
    TryStarts(c, s, worker, pick);
    assert |multiset(s'.writes)| == |s'.writes| && |multiset(s.writes)| == |s.writes|;
    assert |multiset(s'.prefetches)| == |s'.prefetches| && |multiset(s.prefetches)| == |s.prefetches|;
  }

  lemma QueueStep(c: Config, s: State, step: Step)
    requires Enabled(c, s, step) && !step.Submit? && !step.SubmitFetch?
    ensures Shrinks(s, Apply(c, s, step))
  {
    if step.Try? {
      hide Apply;
      TryShrinks(c, s, step.worker, step.pick);
    }
  }

  lemma {:induction false} QueueShrinks(c: Config, s: State, steps: seq<Step>)
    requires Runs(c, s, steps) && NoSubmissions(steps)
    ensures Shrinks(s, Execute(c, s, steps))
    decreases |steps|
  {
    hide Enabled, Apply;
    if steps != [] {
      QueueStep(c, s, steps[0]);
      QueueShrinks(c, Apply(c, s, steps[0]), steps[1..]);
    }
  }

  // A round of draining: no submissions, at least as many tries as there are
  // queued tasks, and every worker done with what it started at the end.
  ghost predicate Round(c: Config, s: State, steps: seq<Step>) {
    Runs(c, s, steps) && NoSubmissions(steps) && Tries(steps) >= Queued(s) && Execute(c, s, steps).busy == map[]
  }

  ghost predicate Rounds(c: Config, s: State, rounds: seq<seq<Step>>)
    decreases |rounds|
  {
    rounds == [] || (Round(c, s, rounds[0]) && Rounds(c, Execute(c, s, rounds[0]), rounds[1..]))
  }

  ghost function AfterRounds(c: Config, s: State, rounds: seq<seq<Step>>): State
    requires Rounds(c, s, rounds)
    decreases |rounds|
  {
    if rounds == [] then s else AfterRounds(c, Execute(c, s, rounds[0]), rounds[1..])
  }

  lemma SameSizeSame(a: multiset<Write>, b: multiset<Write>)
    requires a <= b && |a| == |b|
    ensures a == b
  {
    assert b == a + (b - a);
  }

  lemma StartedHasLeft(c: Config, s: State, w: Write)
    requires Inv(c, s) && Started(s, w) && NoWriter(s)
    ensures w !in s.writes
  {
    forall j | 0 <= j < |s.writes| ensures s.writes[j] != w {
      assert OrderOf(s, s.writes[j].key).exec <= s.writes[j].dvSeq;
    }
  }

  // An eligible write leaves the queue for good during a round.
  lemma WritesShrink(c: Config, s: State, steps: seq<Step>)
    requires Inv(c, s) && NoWriter(s) && Round(c, s, steps) && s.writes != []
    ensures |Execute(c, s, steps).writes| < |s.writes|
  {
    hide Inv, Started;
    var s' := Execute(c, s, steps);
    var i := SomeTaskEligible(c, s);
    RotationFindsWork(c, s, steps, i);
    RunKeeps(c, s, steps);
    QueueShrinks(c, s, steps);
    StartedHasLeft(c, s', s.writes[i]);
    assert s.writes[i] in multiset(s.writes) && s.writes[i] !in multiset(s'.writes);
    if |s'.writes| == |s.writes| {
      SameSizeSame(multiset(s'.writes), multiset(s.writes));
    }
  }

  // With no write queued, the first try takes a prefetch.
  lemma {:induction false} PrefetchesShrink(c: Config, s: State, steps: seq<Step>)
    requires Runs(c, s, steps) && NoSubmissions(steps) && s.writes == [] && s.prefetches != [] && Tries(steps) > 0
    ensures |Execute(c, s, steps).prefetches| < |s.prefetches|
    decreases |steps|
  {
    var s' := Apply(c, s, steps[0]);
    if steps[0].Try? {
      QueueShrinks(c, s', steps[1..]);
    } else {
      PrefetchesShrink(c, s', steps[1..]);
    }
  }

  lemma RoundShrinks(c: Config, s: State, steps: seq<Step>)
    requires Inv(c, s) && s.busy == map[] && Round(c, s, steps) && Queued(s) > 0
    ensures Queued(Execute(c, s, steps)) < Queued(s)
  {
    hide Inv;
    QueueShrinks(c, s, steps);
    if s.writes != [] {
      WritesShrink(c, s, steps);
    } else {
      PrefetchesShrink(c, s, steps);
    }
  }

  lemma NothingInFlight(c: Config, s: State)
    requires Inv(c, s) && s.busy == map[]
    ensures s.inFlight == 0 && NoWriter(s)
  {
  }

  // With no further submissions the pool drains: as many rounds as there are
  // queued tasks, and one more if a worker was busy, leave both queues empty
  // and nothing in flight; per key every accepted write has run, in order, and
  // every accepted prefetch has run once.
  lemma {:induction false} DrainCompletes(c: Config, s: State, rounds: seq<seq<Step>>)
    requires Inv(c, s) && Rounds(c, s, rounds)
    requires |rounds| >= Queued(s) + if s.busy == map[] then 0 else 1
    ensures Drained(AfterRounds(c, s, rounds))
    ensures forall k :: PerKey(AfterRounds(c, s, rounds).executed, k) == PerKey(s.accepted, k)
    ensures multiset(AfterRounds(c, s, rounds).fetchesRun) == multiset(s.fetchesAccepted)
    decreases |rounds|
  {
    hide Inv, PerKey;
    if rounds == [] {
      NothingInFlight(c, s);
      NothingOutstanding(c, s);
      DrainedMeansRun(c, s);
    } else {
      RunKeeps(c, s, rounds[0]);
      QueueShrinks(c, s, rounds[0]);
      if s.busy == map[] && Queued(s) > 0 {
        RoundShrinks(c, s, rounds[0]);
      }
      DrainCompletes(c, Execute(c, s, rounds[0]), rounds[1..]);
    }
  }

  // ----- rounds exist -----

  lemma {:induction false} RunsAppend(c: Config, s: State, a: seq<Step>, b: seq<Step>)
    requires Runs(c, s, a) && Runs(c, Execute(c, s, a), b)
    ensures Runs(c, s, a + b) && Execute(c, s, a + b) == Execute(c, Execute(c, s, a), b)
    ensures Tries(a + b) == Tries(a) + Tries(b)
    decreases |a|
  {
    hide Enabled, Apply;
    if a == [] {
      assert a + b == b;
    } else {
      assert (a + b)[0] == a[0] && (a + b)[1..] == a[1..] + b;
      RunsAppend(c, Apply(c, s, a[0]), a[1..], b);
    }
  }

  lemma {:induction false} NearestExists(prefetches: seq<Prefetch>) returns (pick: nat)
    requires prefetches != []
    ensures Nearest(prefetches, pick)
    decreases |prefetches|
  {
    var n := |prefetches| - 1;
    if n == 0 {
      pick := 0;
    } else {
      pick := NearestExists(prefetches[..n]);
      assert forall i :: 0 <= i < n ==> prefetches[..n][i] == prefetches[i];
      if prefetches[n].distance < prefetches[pick].distance {
        pick := n;
      }
    }
  }

  lemma OneStep(c: Config, s: State, step: Step)
    requires Enabled(c, s, step)
    ensures Runs(c, s, [step]) && Execute(c, s, [step]) == Apply(c, s, step)
    ensures Tries([step]) == if step.Try? then 1 else 0
  {
    hide Enabled, Apply;
    assert [step][1..] == [];
  }

  // A busy worker returns and retires.
  lemma FreeWorker(c: Config, s: State, worker: nat) returns (steps: seq<Step>)
    requires worker in s.busy
    ensures Runs(c, s, steps) && NoSubmissions(steps)
    ensures Execute(c, s, steps).busy == s.busy - {worker}
  {
    hide Runs, Execute, Tries;
    steps := [Retire(worker)];
    if s.busy[worker].Leaving? {
      OneStep(c, s, Retire(worker));
    } else {
      var s1 := Apply(c, s, Return(worker));
      OneStep(c, s, Return(worker));
      OneStep(c, s1, Retire(worker));
      assert s1.busy - {worker} == s.busy - {worker};
      RunsAppend(c, s, [Return(worker)], steps);
      steps := [Return(worker)] + steps;
    }
  }

  lemma {:induction false} FreeAll(c: Config, s: State) returns (steps: seq<Step>)
    ensures Runs(c, s, steps) && NoSubmissions(steps) && Execute(c, s, steps).busy == map[]
    decreases |s.busy.Keys|
  {
    hide Enabled, Apply;
    steps := [];
    if s.busy.Keys != {} {
      var worker :| worker in s.busy.Keys;
      var first := FreeWorker(c, s, worker);
      assert Execute(c, s, first).busy.Keys == s.busy.Keys - {worker};
      var rest := FreeAll(c, Execute(c, s, first));
      RunsAppend(c, s, first, rest);
      steps := first + rest;
    }
  }

  lemma PickExists(s: State) returns (pick: nat)
    ensures s.prefetches != [] ==> Nearest(s.prefetches, pick)
  {
    pick := 0;
    if s.prefetches != [] {
      pick := NearestExists(s.prefetches);
    }
  }

  // One idle worker makes n tries by itself, finishing what it starts.
  lemma {:induction false} TriesAlone(c: Config, s: State, n: nat) returns (steps: seq<Step>)
    requires c.threads > 0 && s.busy == map[]
    ensures Runs(c, s, steps) && NoSubmissions(steps) && Tries(steps) >= n && Execute(c, s, steps).busy == map[]
    decreases n
  {
    hide Apply, Nearest;
    steps := [];
    if n > 0 {
      var pick := PickExists(s);
      OneStep(c, s, Try(0, pick));
      var two := FreeAll(c, Apply(c, s, Try(0, pick)));
      RunsAppend(c, s, [Try(0, pick)], two);
      var one := [Try(0, pick)] + two;
      var rest := TriesAlone(c, Execute(c, s, one), n - 1);
      RunsAppend(c, s, one, rest);
      steps := one + rest;
    }
  }

  lemma {:induction false} NoThreadsNoTries(c: Config, s: State, steps: seq<Step>)
    requires c.threads == 0 && Runs(c, s, steps)
    ensures Tries(steps) == 0
    decreases |steps|
  {
    hide Apply;
    if steps != [] {
      NoThreadsNoTries(c, Apply(c, s, steps[0]), steps[1..]);
    }
  }

  lemma NobodyBusy(c: Config, s: State)
    requires Inv(c, s) && c.threads == 0
    ensures s.busy == map[]
  {
    assert forall w :: w !in s.busy;
  }

  // A round exists if there is a worker at all or nothing to do; otherwise
  // none does.
  lemma RoundExists(c: Config, s: State)
    requires Inv(c, s)
    ensures (exists steps :: Round(c, s, steps)) <==> c.threads > 0 || Queued(s) == 0
  {
    hide Inv;
    if c.threads > 0 {
      var free := FreeAll(c, s);
      var rest := TriesAlone(c, Execute(c, s, free), Queued(s));
      RunsAppend(c, s, free, rest);
      assert Round(c, s, free + rest);
    } else {
      NobodyBusy(c, s);
      if Queued(s) == 0 {
        assert Round(c, s, []);
      }
      forall steps | Runs(c, s, steps) ensures Tries(steps) == 0 {
        NoThreadsNoTries(c, s, steps);
      }
    }
  }

  // So with a worker every state can be drained.
  lemma {:induction false} DrainExists(c: Config, s: State, n: nat) returns (rounds: seq<seq<Step>>)
    requires Inv(c, s) && c.threads > 0
    ensures |rounds| == n && Rounds(c, s, rounds)
    decreases n
  {
    hide Inv;
    rounds := [];
    if n > 0 {
      RoundExists(c, s);
      var steps :| Round(c, s, steps);
      RunKeeps(c, s, steps);
      var rest := DrainExists(c, Execute(c, s, steps), n - 1);
      rounds := [steps] + rest;
      assert rounds[1..] == rest;
    }
  }
}
