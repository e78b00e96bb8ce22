/**
 Where the reports of a coordinator come from: each is what some worker's scan ended with, whatever happened to the
 lists in between.
 */
module DistributedReports {
  import opened Options
  import opened Collections
  import opened Decimal
  import opened DistributedScan
  import opened DistributedBatches

  // ----- task ids -----

  /** A task id is the batch, a hyphen and at least six digits that spell the index. */
  lemma TaskIdReads(batch: string, index: nat)
    ensures
      var digits := Pad(Format(index), 6);
      && TaskId(batch, index) == batch + "-" + digits
      && AllDigits(digits) && Value(digits) == index && |digits| >= 6
      && (|digits| > 6 ==> digits[0] != '0')
  {
    ValueOfFormat(index);
    ValueOfPad(Format(index), 6);
    PadWidth(Format(index), 6);
    NoLeadingZero(index);
  }

  lemma {:induction false} PadWidth(s: string, width: nat)
    requires AllDigits(s)
    ensures |Pad(s, width)| == if |s| >= width then |s| else width
    ensures |s| >= width ==> Pad(s, width) == s
    decreases width - |s|
  {
    if |s| < width {
      PadWidth(['0'] + s, width);
    }
  }

  lemma {:induction false} NoLeadingZero(n: nat)
    ensures |Format(n)| > 1 ==> Format(n)[0] != '0'
    ensures n > 0 ==> Format(n)[0] != '0'
  {
    if n >= 10 {
      NoLeadingZero(n / 10);
    }
  }

  // ----- every result was scanned -----

  /** In step `p` of the run a worker finished a scan, and `r` is what it had to report. */
  ghost predicate CameFrom(s: System, steps: seq<Step>, p: nat, r: TaskResult) {
    p < |steps| && steps[p].FinishScan? &&
    var u := Run(s, steps[..p]);
    Enabled(u, steps[p]) && Tells(r, u.workers[steps[p].w].task, steps[p].w, steps[p].outcome)
  }

  ghost predicate Sourced(s: System, steps: seq<Step>, r: TaskResult) {
    exists p: nat :: CameFrom(s, steps, p, r)
  }

  ghost predicate WorkerSourced(s: System, steps: seq<Step>, w: Worker) {
    w.Reporting? ==> Sourced(s, steps, w.result)
  }

  ghost predicate CoordinatorSourced(s: System, steps: seq<Step>, k: Coordinator) {
    && (k.hand.Some? ==> Sourced(s, steps, k.hand.value))
    && (forall j :: 0 <= j < |k.consumed| ==> Sourced(s, steps, k.consumed[j]))
  }

  /** Every result in `u`, wherever it is. */
  ghost predicate AllSourced(s: System, steps: seq<Step>, u: System) {
    && (forall w :: 0 <= w < |u.workers| ==> WorkerSourced(s, steps, u.workers[w]))
    && (forall i :: 0 <= i < |u.results| ==> Sourced(s, steps, u.results[i]))
    && (forall c :: 0 <= c < |u.coordinators| ==> CoordinatorSourced(s, steps, u.coordinators[c]))
  }

  lemma SourcedLonger(s: System, steps: seq<Step>, r: TaskResult)
    requires steps != [] && Sourced(s, steps[..|steps| - 1], r)
    ensures Sourced(s, steps, r)
  {
    var front := steps[..|steps| - 1];
    var p: nat :| CameFrom(s, front, p, r);
    assert front[..p] == steps[..p] && front[p] == steps[p];
    hide Run, Enabled, Tells;
    assert CameFrom(s, steps, p, r);
  }

  lemma AllSourcedLonger(s: System, steps: seq<Step>, u: System)
    requires steps != [] && AllSourced(s, steps[..|steps| - 1], u)
    ensures AllSourced(s, steps, u)
  {
    hide Sourced;
    forall r | Sourced(s, steps[..|steps| - 1], r)
      ensures Sourced(s, steps, r)
    {
      SourcedLonger(s, steps, r);
    }
  }

  /** The scan that has just finished. */
  lemma FinishSources(s: System, steps: seq<Step>)
    requires steps != [] && steps[|steps| - 1].FinishScan?
    requires
      var (u, step) := (Run(s, steps[..|steps| - 1]), steps[|steps| - 1]);
      Enabled(u, step)
    ensures
      var (u, step) := (Run(s, steps[..|steps| - 1]), steps[|steps| - 1]);
      Sourced(s, steps, MakeResult(u.workers[step.w].task, step.w, step.outcome))
  {
    var p := |steps| - 1;
    var u := Run(s, steps[..p]);
    hide Run;
    assert CameFrom(s, steps, p, MakeResult(u.workers[steps[p].w].task, steps[p].w, steps[p].outcome));
  }

  /** Other steps only move results. */
  lemma StepKeepsSourced(s: System, steps: seq<Step>, u: System, step: Step)
    requires AllSourced(s, steps, u)
    requires step.FinishScan? && Enabled(u, step) ==>
      Sourced(s, steps, MakeResult(u.workers[step.w].task, step.w, step.outcome))
    ensures AllSourced(s, steps, Next(u, step))
  {
    hide Sourced, TaskId, Collecting, ErrorText, MakeResult, MakeTask;
    if Enabled(u, step) {
      if step.PushResult? {
        assert WorkerSourced(s, steps, u.workers[step.w]);
      } else if step.PopResult? || step.PushBack? || step.Collect? || step.Halt? || step.PushTask? || step.MarkQueued? {
        assert CoordinatorSourced(s, steps, u.coordinators[step.c]);
      }
    }
  }

  lemma {:induction false} AllSourcedAlways(s: System, steps: seq<Step>)
    requires Initial(s)
    ensures AllSourced(s, steps, Run(s, steps))
    decreases |steps|
  {
    if steps != [] {
      var front := steps[..|steps| - 1];
      AllSourcedAlways(s, front);
      AllSourcedLonger(s, steps, Run(s, front));
      RunLast(s, steps);
      var step := steps[|front|];
      if step.FinishScan? && Enabled(Run(s, front), step) {
        FinishSources(s, steps);
      }
      hide *;
      StepKeepsSourced(s, steps, Run(s, front), step);
    }
  }

  // ----- the loops of the processes as steps -----

  /** One turn of a worker is four steps: the head task becomes a result, and its key the final status. */
  lemma WorkerTurnIsFourSteps(s: System, w: nat, outcome: Outcome)
    requires w < |s.workers| && s.workers[w].Polling? && s.tasks != []
    ensures
      var s' := Next(Next(Next(Next(s, PopTask(w)), MarkRunning(w)), FinishScan(w, outcome)), PushResult(w));
      && |s'.results| == |s.results| + 1
      && var (task, r) := (s.tasks[0], s'.results[|s.results|]);
         && Tells(r, task, w, outcome)
         && s' == System(s.tasks[1..], s.results + [r],
                         s.status[task.id := if outcome.Scanned? then Done else Failed], s.workers, s.coordinators)
  {
    var (a, task) := (Next(s, PopTask(w)), s.tasks[0]);
    assert a.workers == s.workers[w := Claimed(task)];
    var b := Next(a, MarkRunning(w));
    assert b.workers == s.workers[w := Scanning(task)] && b.status == s.status[task.id := Running];
    var r := MakeResult(task, w, outcome);
    var c := Next(b, FinishScan(w, outcome));
    assert c.workers == s.workers[w := Reporting(r)] && c.status == s.status[task.id := r.status];
    var d := Next(c, PushResult(w));
    assert d.workers == s.workers && d.results == s.results + [r];
  }

  /** Queueing one target is two steps: the task goes to the tail, and then its key says so. */
  lemma QueueingIsTwoSteps(s: System, c: nat)
    requires c < |s.coordinators| && s.coordinators[c].running
    requires s.coordinators[c].pushed == s.coordinators[c].marked < |s.coordinators[c].targets|
    ensures
      var k := s.coordinators[c];
      var id := TaskId(k.batch, k.pushed);
      Next(Next(s, PushTask(c)), MarkQueued(c))
      == s.(tasks := s.tasks + [Task(id, k.batch, k.targets[k.pushed])], status := s.status[id := Queued],
            coordinators := s.coordinators[c := k.(pushed := k.pushed + 1, marked := k.marked + 1)])
  {
    hide TaskId;
    var k := s.coordinators[c];
    var a := Next(s, PushTask(c));
    assert a.coordinators == s.coordinators[c := k.(pushed := k.pushed + 1)];
    var b := Next(a, MarkQueued(c));
    assert b.coordinators == s.coordinators[c := k.(pushed := k.pushed + 1, marked := k.marked + 1)];
  }

  // ----- what a coordinator has collected -----

  /** The reports of the scans at these steps, in order; failed scans have none. */
  ghost function ScannedReports(steps: seq<Step>, origins: seq<nat>): seq<Report>
    requires forall j :: 0 <= j < |origins| ==> origins[j] < |steps| && steps[origins[j]].FinishScan?
  {
    if origins == [] then []
    else
      var (front, outcome) := (ScannedReports(steps, origins[..|origins| - 1]), steps[origins[|origins| - 1]].outcome);
      if outcome.Scanned? then front + [outcome.report] else front
  }

  /** Each of these results came from the scan its origin names. */
  ghost predicate Origins(s: System, steps: seq<Step>, consumed: seq<TaskResult>, origins: seq<nat>) {
    |origins| == |consumed| && forall j :: 0 <= j < |consumed| ==> CameFrom(s, steps, origins[j], consumed[j])
  }

  lemma {:induction false} FindOrigins(s: System, steps: seq<Step>, consumed: seq<TaskResult>)
    returns (origins: seq<nat>)
    requires forall j :: 0 <= j < |consumed| ==> Sourced(s, steps, consumed[j])
    ensures Origins(s, steps, consumed, origins)
    decreases |consumed|
  {
    hide CameFrom;
    if consumed == [] {
      origins := [];
    } else {
      var last := |consumed| - 1;
      var front := FindOrigins(s, steps, consumed[..last]);
      assert Sourced(s, steps, consumed[last]);
      var p: nat :| CameFrom(s, steps, p, consumed[last]);
      origins := front + [p];
    }
  }

  lemma {:induction false} ReportsOfOrigins(s: System, steps: seq<Step>, consumed: seq<TaskResult>, origins: seq<nat>)
    requires Origins(s, steps, consumed, origins)
    ensures forall j :: 0 <= j < |origins| ==> origins[j] < |steps| && steps[origins[j]].FinishScan?
    ensures Reports(consumed) == ScannedReports(steps, origins)
    ensures forall j :: 0 <= j < |consumed| && steps[origins[j]].outcome.ScanFailed? ==>
      consumed[j].taskId in FailureMap(consumed)
    decreases |consumed|
  {
    hide Run;
    if consumed != [] {
      var last := |consumed| - 1;
      ReportsOfOrigins(s, steps, consumed[..last], origins[..last]);
      assert CameFrom(s, steps, origins[last], consumed[last]);
    }
  }

  lemma ConsistentAlways(s: System, steps: seq<Step>, c: nat)
    requires Initial(s) && c < |Run(s, steps).coordinators|
    ensures Consistent(Run(s, steps).coordinators[c])
  {
    hide TaskId, Run, Consistent;
    SharedInvAlways(s, steps);
  }

  lemma AllFromScans(s: System, steps: seq<Step>, c: nat) returns (origins: seq<nat>)
    requires Initial(s) && c < |Run(s, steps).coordinators|
    ensures Origins(s, steps, Run(s, steps).coordinators[c].consumed, origins)
  {
    AllSourcedAlways(s, steps);
    var k := Run(s, steps).coordinators[c];
    assert CoordinatorSourced(s, steps, k) by {
      hide CoordinatorSourced, Run;
    }
    hide Sourced, Run;
    origins := FindOrigins(s, steps, k.consumed);
  }

  /**
   Over every run, also with shared batch ids: each result a coordinator has consumed came from a step in which some
   worker finished a scan, unchanged. The coordinator's reports are exactly those of these scans, in the order
   consumed, and each failed scan is among its failures.
   */
  lemma ReportsAreScanned(s: System, steps: seq<Step>, c: nat) returns (origins: seq<nat>)
    requires Initial(s) && c < |Run(s, steps).coordinators|
    ensures
      var k := Run(s, steps).coordinators[c];
      && Origins(s, steps, k.consumed, origins)
      && (forall j :: 0 <= j < |origins| ==> origins[j] < |steps| && steps[origins[j]].FinishScan?)
      && k.successful == ScannedReports(steps, origins)
      && (forall j :: 0 <= j < |origins| && steps[origins[j]].outcome.ScanFailed? ==>
            k.consumed[j].taskId in k.failures)
  {
    origins := AllFromScans(s, steps, c);
    ConsistentAlways(s, steps, c);
    var k := Run(s, steps).coordinators[c];
    hide Run, CameFrom;
    ReportsOfOrigins(s, steps, k.consumed, origins);
    assert k.successful == Reports(k.consumed) && k.failures == FailureMap(k.consumed);
  }

  lemma {:induction false} MessagesAre(consumed: seq<TaskResult>)
    requires Distinct(IdsOf(consumed))
    ensures forall j :: 0 <= j < |consumed| && !Successful(consumed[j]) ==>
      && consumed[j].taskId in FailureMap(consumed)
      && var (text, error) := (FailureMap(consumed)[consumed[j].taskId], consumed[j].error);
         (error.Some? ==> text == error.value) && (error.None? ==> text == "worker returned no scan result")
    ensures forall x :: x in FailureMap(consumed) ==>
      exists j :: 0 <= j < |consumed| && consumed[j].taskId == x && !Successful(consumed[j])
    decreases |consumed|
  {
    hide Successful;
    if consumed != [] {
      var (front, last) := (consumed[..|consumed| - 1], consumed[|consumed| - 1]);
      assert IdsOf(consumed) == IdsOf(front) + [last.taskId];
      MessagesAre(front);
      assert forall j :: 0 <= j < |front| ==> front[j] == consumed[j] && IdsOf(consumed)[j] != last.taskId;
      assert consumed[|front|] == last;
    }
  }

  lemma CollectedFacts(s: System, steps: seq<Step>, c: nat)
    requires Initial(s) && DistinctBatches(s.coordinators) && c < |Run(s, steps).coordinators|
    ensures
      var k := Run(s, steps).coordinators[c];
      k.failures == FailureMap(k.consumed) && Distinct(IdsOf(k.consumed))
  {
    InvAlways(s, steps);
    ConsistentAlways(s, steps, c);
    hide Run, Inv, FailureMap, Enabled, TaskId;
    ConsumedIdsDistinct(Run(s, steps), c);
  }

  /** With distinct batch ids no scan is counted twice, and each failure is kept with the message of its scan. */
  lemma ScansCountOnce(s: System, steps: seq<Step>, c: nat, origins: seq<nat>)
    requires Initial(s) && DistinctBatches(s.coordinators) && c < |Run(s, steps).coordinators|
    requires Origins(s, steps, Run(s, steps).coordinators[c].consumed, origins)
    ensures
      var k := Run(s, steps).coordinators[c];
      && Distinct(origins)
      && (forall j :: 0 <= j < |origins| ==>
            origins[j] < |steps| && steps[origins[j]].FinishScan? &&
            var outcome := steps[origins[j]].outcome;
            outcome.ScanFailed? ==>
              k.consumed[j].taskId in k.failures && k.failures[k.consumed[j].taskId] == outcome.message)
      && (forall x :: x in k.failures ==>
            exists j :: 0 <= j < |origins| && k.consumed[j].taskId == x && steps[origins[j]].outcome.ScanFailed?)
  {
    CollectedFacts(s, steps, c);
    var k := Run(s, steps).coordinators[c];
    MessagesAre(k.consumed);
    hide Run, FailureMap, Enabled, DistinctBatches, Initial;
    forall i, j | 0 <= i < j < |origins|
      ensures origins[i] != origins[j]
    {
      assert CameFrom(s, steps, origins[i], k.consumed[i]) && CameFrom(s, steps, origins[j], k.consumed[j]);
      assert IdsOf(k.consumed)[i] != IdsOf(k.consumed)[j];
    }
    assert forall j :: 0 <= j < |origins| ==> CameFrom(s, steps, origins[j], k.consumed[j]);
  }
}
