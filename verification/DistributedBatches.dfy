/**
 When coordinators share a batch id. A batch id is a millisecond timestamp, so two coordinators started
 together can have the same one; their task ids then coincide, and each takes the other's results.
 */
module DistributedBatches {
  import opened Options
  import opened Collections
  import opened DistributedScan

  /** Any two coordinators that have targets and share a batch id have one target each. */
  ghost predicate Harmless(cs: seq<Coordinator>) {
    forall c, d :: 0 <= c < |cs| && 0 <= d < |cs| && c != d && Clash(cs[c], cs[d]) ==> |cs[c].targets| == 1
  }

  predicate Clash(k: Coordinator, l: Coordinator) {
    k.batch == l.batch && k.targets != [] && l.targets != []
  }

  // ----- what every run keeps, whatever the batch ids -----

  /** No id of the coordinator's batch is in two places. */
  ghost predicate OwnUnique(s: System, c: nat) {
    c < |s.coordinators| && forall i: nat :: Copies(s, TaskId(s.coordinators[c].batch, i)) <= 1
  }

  /** A coordinator with at most one target takes no more results than it has targets. */
  predicate Modest(k: Coordinator) {
    |k.targets| <= 1 ==> |k.consumed| + (if k.hand.Some? then 1 else 0) <= |k.targets|
  }

  ghost predicate LonesUnique(s: System) {
    forall c: nat :: Lone(s.coordinators, c) ==> OwnUnique(s, c)
  }

  ghost predicate AllModest(s: System) {
    forall c :: 0 <= c < |s.coordinators| ==> Modest(s.coordinators[c])
  }

  ghost predicate SharedInv(s: System) {
    AllIssued(s) && AllConsistent(s) && LonesUnique(s) && AllModest(s)
  }

  lemma ConsumedCounts(k: Coordinator)
    requires Consistent(k) && k.consumed != []
    ensures Progress(k) > 0
  {
    var front, last := k.consumed[..|k.consumed| - 1], k.consumed[|k.consumed| - 1];
    if Successful(last) {
      assert k.successful == Reports(front) + [last.report.value];
    } else {
      assert last.taskId in k.failures;
    }
  }

  lemma StepKeepsModest(s: System, step: Step)
    requires AllConsistent(s) && AllModest(s)
    ensures AllModest(Next(s, step))
  {
    hide TaskId, Consistent;
    if Enabled(s, step) && step.PopResult? {
      var k := s.coordinators[step.c];
      assert Consistent(k);
      if k.consumed != [] {
        ConsumedCounts(k);
      }
    }
    hide Progress;
  }

  lemma LoneStays(cs: seq<Coordinator>, cs': seq<Coordinator>, c: nat)
    requires |cs| == |cs'| && forall d :: 0 <= d < |cs| ==> Grows(cs[d], cs'[d])
    ensures Lone(cs, c) <==> Lone(cs', c)
  {
  }

  lemma StepKeepsOwnUnique(s: System, step: Step, c: nat)
    requires AllIssued(s) && Lone(s.coordinators, c) && OwnUnique(s, c)
    requires AllConsistent(s)
    ensures OwnUnique(Next(s, step), c)
  {
    hide TaskId, AllIssued, Copies, Next, Lost;
    StepGrows(s, step);
    var batch := s.coordinators[c].batch;
    assert Next(s, step).coordinators[c].batch == batch;
    forall i: nat
      ensures Copies(Next(s, step), TaskId(batch, i)) <= 1
    {
      StepConservesIds(s, step, TaskId(batch, i));
      if Added(s, step, TaskId(batch, i)) > 0 {
        var k := s.coordinators[step.c];
        TaskIdInjective(k.batch, k.pushed, batch, i);
        assert k.targets != [];
        assert step.c == c;
        NextIdIsFresh(s, c);
      }
    }
  }

  lemma {:induction false} SharedInvAlways(s: System, steps: seq<Step>)
    requires Initial(s)
    ensures SharedInv(Run(s, steps))
    ensures |Run(s, steps).coordinators| == |s.coordinators|
    ensures forall c :: 0 <= c < |s.coordinators| ==> Grows(s.coordinators[c], Run(s, steps).coordinators[c])
  {
    if steps == [] {
      forall x
        ensures Copies(s, x) == 0
      {
        SumZero(s.workers, InWorker(x));
        SumZero(s.coordinators, InCoordinator(x));
      }
    } else {
      var before, step := Run(s, steps[..|steps| - 1]), steps[|steps| - 1];
      SharedInvAlways(s, steps[..|steps| - 1]);
      RunLast(s, steps);
      hide Run, Next, Initial, Copies;
      StepGrows(before, step);
      StepKeepsIssued(before, step);
      StepKeepsConsistent(before, step);
      StepKeepsModest(before, step);
      hide AllIssued, AllConsistent, AllModest;
      var after := Next(before, step);
      forall c: nat | Lone(after.coordinators, c)
        ensures OwnUnique(after, c)
      {
        LoneStays(before.coordinators, after.coordinators, c);
        StepKeepsOwnUnique(before, step, c);
      }
    }
  }

  // ----- when the count is exact -----

  lemma OwnIdsDistinct(s: System, c: nat)
    requires SharedInv(s) && Lone(s.coordinators, c)
    ensures Distinct(IdsOf(s.coordinators[c].consumed))
  {
    hide TaskId;
    var k := s.coordinators[c];
    assert OwnUnique(s, c);
    forall i, j | 0 <= i < j < |k.consumed|
      ensures k.consumed[i].taskId != k.consumed[j].taskId
    {
      var x := k.consumed[i].taskId;
      var d, index := ConsumedWasIssued(s, c, i);
      assert k.consumed[i].Ticket().id == TaskId(k.batch, index);
      assert Copies(s, x) <= 1;
      hide SharedInv, OwnUnique, Lone;
      SumPair(k.consumed, i, j, InResult(x));
      SumCovers(s.coordinators, c, InCoordinator(x));
    }
  }

  lemma OwnIdsOnly(s: System, c: nat)
    requires SharedInv(s) && c < |s.coordinators| && (Lone(s.coordinators, c) || Harmless(s.coordinators))
    ensures Elements(IdsOf(s.coordinators[c].consumed))
         <= BatchIds(s.coordinators[c].batch, |s.coordinators[c].targets|)
  {
    hide TaskId;
    var k := s.coordinators[c];
    assert Modest(k);
    forall x | x in Elements(IdsOf(k.consumed))
      ensures x in BatchIds(k.batch, |k.targets|)
    {
      var j :| 0 <= j < |k.consumed| && IdsOf(k.consumed)[j] == x;
      var d, i := ConsumedWasIssued(s, c, j);
      assert x == k.consumed[j].Ticket().id == TaskId(k.batch, i);
      hide SharedInv, Modest;
      if d != c {
        assert Clash(s.coordinators[d], k) && Clash(k, s.coordinators[d]);
      }
      assert i < |k.targets|;
    }
  }

  /** Progress is exact for a coordinator that shares its batch id with no other, or has a single target. */
  lemma ExactWhenHarmless(s: System, c: nat)
    requires SharedInv(s) && Harmless(s.coordinators) && c < |s.coordinators|
    ensures ProgressExact(s.coordinators[c])
  {
    var k := s.coordinators[c];
    assert Consistent(k) && Modest(k);
    OwnIdsOnly(s, c);
    if Lone(s.coordinators, c) {
      OwnIdsDistinct(s, c);
    } else {
      var d :| 0 <= d < |s.coordinators| && d != c && s.coordinators[d].batch == k.batch
        && s.coordinators[d].targets != [];
      assert k.targets != [] ==> Clash(k, s.coordinators[d]);
      assert |k.consumed| <= 1;
    }
    hide SharedInv, Harmless, Lone, BatchIds, Elements;
    CountIsExact(k);
  }

  // ----- the run that miscounts -----

  /** After `d` has pushed its first task and `c` has enqueued `n` of its own. */
  ghost predicate Enqueued(s: System, u: System, c: nat, d: nat, n: nat)
    requires c < |s.coordinators| && d < |s.coordinators|
  {
    var (k, x) := (s.coordinators[c], TaskId(s.coordinators[c].batch, 0));
    && u.results == [] && u.workers == s.workers && |u.coordinators| == |s.coordinators|
    && u.coordinators[c] == k.(pushed := n, marked := n)
    && |u.tasks| == 1 + n && u.tasks[0] == MakeFirst(s.coordinators[d])
    && (n > 0 ==> u.tasks[1] == MakeFirst(k))
  }

  function MakeFirst(k: Coordinator): Task {
    Task(TaskId(k.batch, 0), k.batch, if k.targets != [] then k.targets[0] else "")
  }

  lemma RunSnoc(s: System, steps: seq<Step>, step: Step)
    ensures Run(s, steps + [step]) == Next(Run(s, steps), step)
  {
    assert (steps + [step])[..|steps|] == steps;
  }

  lemma PushedAndMarked(s: System, u: System, c: nat, d: nat, n: nat)
    requires c < |s.coordinators| && d < |s.coordinators| && c != d && Enqueued(s, u, c, d, n)
    requires n < |s.coordinators[c].targets| && s.coordinators[c].running
    ensures Enqueued(s, Next(Next(u, PushTask(c)), MarkQueued(c)), c, d, n + 1)
  {
    hide TaskId;
    var k := u.coordinators[c];
    var pushed := Next(u, PushTask(c));
    assert pushed == u.(tasks := u.tasks + [MakeTask(k.batch, k.targets, n)],
                        coordinators := u.coordinators[c := k.(pushed := n + 1)]);
    assert n == 0 ==> MakeTask(k.batch, k.targets, 0) == MakeFirst(k);
  }

  lemma {:induction false} EnqueueRun(s: System, c: nat, d: nat, n: nat) returns (steps: seq<Step>)
    requires Initial(s) && c < |s.coordinators| && d < |s.coordinators| && c != d
    requires Clash(s.coordinators[c], s.coordinators[d]) && n <= |s.coordinators[c].targets|
    ensures Enqueued(s, Run(s, steps), c, d, n)
    decreases n
  {
    hide TaskId;
    if n == 0 {
      steps := [PushTask(d)];
      assert steps == [] + [PushTask(d)];
      RunSnoc(s, [], PushTask(d));
    } else {
      var before := EnqueueRun(s, c, d, n - 1);
      assert s.coordinators[c].running;
      hide Enqueued, Next, Initial, Run;
      RunSnoc(s, before, PushTask(c));
      RunSnoc(s, before + [PushTask(c)], MarkQueued(c));
      PushedAndMarked(s, Run(s, before), c, d, n - 1);
      steps := before + [PushTask(c)] + [MarkQueued(c)];
    }
  }

  /** Worker 0 takes the head task through to the result list. */
  function AfterTurn(u: System): System
    requires u.tasks != []
  {
    var r := MakeResult(u.tasks[0], 0, Scanned(""));
    u.(tasks := u.tasks[1..], results := u.results + [r], status := u.status[r.taskId := Running][r.taskId := Done])
  }

  lemma WorkerTurn(s: System, steps: seq<Step>) returns (more: seq<Step>)
    requires var u := Run(s, steps); u.tasks != [] && u.workers != [] && u.workers[0] == Polling
    ensures Run(s, more) == AfterTurn(Run(s, steps))
  {
    var u := Run(s, steps);
    more := steps + [PopTask(0)] + [MarkRunning(0)] + [FinishScan(0, Scanned(""))] + [PushResult(0)];
    RunSnoc(s, steps, PopTask(0));
    RunSnoc(s, steps + [PopTask(0)], MarkRunning(0));
    RunSnoc(s, steps + [PopTask(0)] + [MarkRunning(0)], FinishScan(0, Scanned("")));
    RunSnoc(s, steps + [PopTask(0)] + [MarkRunning(0)] + [FinishScan(0, Scanned(""))], PushResult(0));
    hide Run;
    TurnSteps(u);
  }

  lemma TurnSteps(u: System)
    requires u.tasks != [] && u.workers != [] && u.workers[0] == Polling
    ensures Next(Next(Next(Next(u, PopTask(0)), MarkRunning(0)), FinishScan(0, Scanned(""))), PushResult(0))
      == AfterTurn(u)
  {
    var (t, r) := (u.tasks[0], MakeResult(u.tasks[0], 0, Scanned("")));
    var u1 := u.(tasks := u.tasks[1..], workers := u.workers[0 := Claimed(t)]);
    var u2 := u1.(status := u.status[t.id := Running], workers := u.workers[0 := Scanning(t)]);
    var u3 := u2.(status := u2.status[t.id := Done], workers := u.workers[0 := Reporting(r)]);
    assert Next(u, PopTask(0)) == u1;
    assert u1.workers[0 := Scanning(t)] == u2.workers && Next(u1, MarkRunning(0)) == u2;
    assert u2.workers[0 := Reporting(r)] == u3.workers && Next(u2, FinishScan(0, Scanned(""))) == u3;
    assert u3.workers[0 := Polling] == u.workers;
  }

  /** Coordinator `c` takes the head result, which carries its batch id. */
  lemma TakeResult(s: System, steps: seq<Step>, c: nat) returns (more: seq<Step>)
    requires
      var u := Run(s, steps);
      && c < |u.coordinators| && u.coordinators[c].hand.None? && Collecting(u.coordinators[c])
      && u.results != [] && u.results[0].batch == u.coordinators[c].batch
    ensures
      var u := Run(s, steps);
      Run(s, more) == u.(results := u.results[1..],
        coordinators := u.coordinators[c := Absorb(u.coordinators[c].(hand := Some(u.results[0])), u.results[0])])
  {
    var u := Run(s, steps);
    more := steps + [PopResult(c)] + [Collect(c)];
    RunSnoc(s, steps, PopResult(c));
    RunSnoc(s, steps + [PopResult(c)], Collect(c));
    assert u.coordinators[c].running;
    hide Run, Absorb, Collecting;
    var k := u.coordinators[c].(hand := Some(u.results[0]));
    var popped := u.(results := u.results[1..], coordinators := u.coordinators[c := k]);
    assert Next(u, PopResult(c)) == popped;
    assert popped.coordinators[c := Absorb(k, u.results[0])] == u.coordinators[c := Absorb(k, u.results[0])];
  }

  /** What the coordinator holds after it has consumed the other's first task and then its own. */
  function Misled(k: Coordinator, l: Coordinator): Coordinator {
    var (r, r') := (MakeResult(MakeFirst(l), 0, Scanned("")), MakeResult(MakeFirst(k), 0, Scanned("")));
    k.(pushed := |k.targets|, marked := |k.targets|, hand := None, consumed := [r, r'], successful := ["", ""])
  }

  /**
   Two coordinators share a batch id and one of them, `c`, has two targets or more. Then `c` can take the
   other's first result as its own, and then its own first one: two results with one id.
   */
  lemma SharedBatchMiscounts(s: System, c: nat, d: nat) returns (steps: seq<Step>)
    requires Initial(s) && s.workers != [] && c < |s.coordinators| && d < |s.coordinators| && c != d
    requires Clash(s.coordinators[c], s.coordinators[d]) && |s.coordinators[c].targets| >= 2
    ensures |Run(s, steps).coordinators| == |s.coordinators|
    ensures Run(s, steps).coordinators[c] == Misled(s.coordinators[c], s.coordinators[d])
  {
    var (k, l) := (s.coordinators[c], s.coordinators[d]);
    var n := |k.targets|;
    assert Fresh(k) && s.workers[0] == Polling;
    var enqueued := EnqueueRun(s, c, d, n);
    var u := Run(s, enqueued);
    var turn := WorkerTurn(s, enqueued);
    var again := WorkerTurn(s, turn);
    var v := Run(s, again);
    var (r, r') := (MakeResult(MakeFirst(l), 0, Scanned("")), MakeResult(MakeFirst(k), 0, Scanned("")));
    hide Run, TaskId, Initial;
    assert u.tasks[0] == MakeFirst(l) && u.tasks[1..][0] == u.tasks[1] == MakeFirst(k);
    assert v.results == [r, r'] && v.coordinators == u.coordinators;
    var one := TakeResult(s, again, c);
    assert Run(s, one).results == [r'];
    steps := TakeResult(s, one, c);
  }

  lemma MisledIsWrong(k: Coordinator, l: Coordinator)
    requires Clash(k, l) && |k.targets| >= 2
    ensures !ProgressExact(Misled(k, l))
  {
    hide TaskId;
    var ids := IdsOf(Misled(k, l).consumed);
    assert ids[0] == ids[1];
  }

  /**
   Progress is exact over all runs, for every coordinator, if and only if any two coordinators that have
   targets and share a batch id have one target each.
   */
  lemma ProgressIsExactIff(s: System)
    requires Initial(s) && s.workers != []
    ensures (forall steps, c :: 0 <= c < |Run(s, steps).coordinators| ==> ProgressExact(Run(s, steps).coordinators[c]))
      <==> Harmless(s.coordinators)
  {
    if Harmless(s.coordinators) {
      forall steps, c | 0 <= c < |Run(s, steps).coordinators|
        ensures ProgressExact(Run(s, steps).coordinators[c])
      {
        SharedInvAlways(s, steps);
        HarmlessStays(s.coordinators, Run(s, steps).coordinators);
        ExactWhenHarmless(Run(s, steps), c);
      }
    } else {
      var c, d :| 0 <= c < |s.coordinators| && 0 <= d < |s.coordinators| && c != d
        && Clash(s.coordinators[c], s.coordinators[d]) && |s.coordinators[c].targets| != 1;
      var steps := SharedBatchMiscounts(s, c, d);
      MisledIsWrong(s.coordinators[c], s.coordinators[d]);
      hide ProgressExact;
      assert !ProgressExact(Run(s, steps).coordinators[c]);
    }
  }

  lemma HarmlessStays(cs: seq<Coordinator>, cs': seq<Coordinator>)
    requires |cs| == |cs'| && forall d :: 0 <= d < |cs| ==> Grows(cs[d], cs'[d])
    requires Harmless(cs)
    ensures Harmless(cs')
  {
    forall c, d | 0 <= c < |cs'| && 0 <= d < |cs'| && c != d && Clash(cs'[c], cs'[d])
      ensures |cs'[c].targets| == 1
    {
      assert Clash(cs[c], cs[d]);
    }
  }

  function Starting(batch: string, targets: seq<string>): Coordinator {
    Coordinator(batch, targets, 0, 0, None, [], map[], [], true)
  }

  /**
   For example: coordinators for ["a", "b"] and for ["c"] under one batch id. The first ends with progress
   2 of 2, but it has scanned "c" and "a", and its second task was never consumed.
   */
  lemma CompleteWithoutSecondTarget(batch: string) returns (steps: seq<Step>)
    ensures
      var s := System([], [], map[], [Polling], [Starting(batch, ["a", "b"]), Starting(batch, ["c"])]);
      && |Run(s, steps).coordinators| == 2
      && var k := Run(s, steps).coordinators[0];
         && Progress(k) == |k.targets| == 2 && |k.consumed| == 2
         && k.consumed[0].target == "c" && k.consumed[1].target == "a"
         && TaskId(batch, 1) !in IdsOf(k.consumed)
  {
    var s := System([], [], map[], [Polling], [Starting(batch, ["a", "b"]), Starting(batch, ["c"])]);
    steps := SharedBatchMiscounts(s, 0, 1);
    hide Run, TaskId;
    if TaskId(batch, 1) == TaskId(batch, 0) {
      TaskIdInjective(batch, 1, batch, 0);
    }
    var ids := IdsOf(Run(s, steps).coordinators[0].consumed);
    assert ids[0] == TaskId(batch, 0) && ids[1] == TaskId(batch, 0);
  }
}
