/**
 The status keys of the distributed scan. A worker writes Running and then Done or Failed; the
 coordinator writes Queued after its push, so that write can come last.
 */
module DistributedStatus {
  import opened Options
  import opened Collections
  import opened DistributedScan

  predicate Settled(status: map<string, TaskStatus>, r: TaskResult) {
    r.taskId in status && (status[r.taskId] == r.status || status[r.taskId] == Queued)
  }

  predicate WorkerSettled(status: map<string, TaskStatus>, w: Worker) {
    w.Reporting? ==> Settled(status, w.result)
  }

  predicate CoordinatorSettled(status: map<string, TaskStatus>, k: Coordinator) {
    && (k.hand.Some? ==> Settled(status, k.hand.value))
    && (forall j :: 0 <= j < |k.consumed| ==> Settled(status, k.consumed[j]))
  }

  /** Every finished result, wherever it is, has its own status or a late Queued in its key. */
  ghost predicate StatusOk(s: System) {
    && (forall w :: 0 <= w < |s.workers| ==> WorkerSettled(s.status, s.workers[w]))
    && (forall i :: 0 <= i < |s.results| ==> Settled(s.status, s.results[i]))
    && (forall c :: 0 <= c < |s.coordinators| ==> CoordinatorSettled(s.status, s.coordinators[c]))
  }

  /** While a worker holds a task, no finished result of that task exists anywhere else. */
  lemma HolderIsAlone(s: System, w: nat, x: string)
    requires Unique(s) && w < |s.workers| && InWorkerHand(s.workers[w], x) == 1
    ensures forall v :: 0 <= v < |s.workers| && v != w ==> InWorkerHand(s.workers[v], x) == 0
    ensures forall i :: 0 <= i < |s.results| ==> s.results[i].taskId != x
    ensures forall c :: 0 <= c < |s.coordinators| ==> InCoordinator(x)(s.coordinators[c]) == 0
  {
    assert Copies(s, x) <= 1;
    SumCovers(s.workers, w, InWorker(x));
    forall v | 0 <= v < |s.workers| && v != w
      ensures InWorkerHand(s.workers[v], x) == 0
    {
      SumPair(s.workers, if v < w then v else w, if v < w then w else v, InWorker(x));
    }
    forall i | 0 <= i < |s.results|
      ensures s.results[i].taskId != x
    {
      SumCovers(s.results, i, InResult(x));
    }
    forall c | 0 <= c < |s.coordinators|
      ensures InCoordinator(x)(s.coordinators[c]) == 0
    {
      SumCovers(s.coordinators, c, InCoordinator(x));
    }
  }

  lemma CoordinatorWithout(k: Coordinator, x: string, status: map<string, TaskStatus>, value: TaskStatus)
    requires InCoordinator(x)(k) == 0 && CoordinatorSettled(status, k)
    ensures CoordinatorSettled(status[x := value], k)
  {
    forall j | 0 <= j < |k.consumed|
      ensures Settled(status[x := value], k.consumed[j])
    {
      SumCovers(k.consumed, j, InResult(x));
    }
  }

  lemma StatusWriteByWorker(s: System, step: Step)
    requires step.MarkRunning? || step.FinishScan?
    requires Enabled(s, step) && Unique(s) && StatusOk(s)
    ensures StatusOk(Apply(s, step))
  {
    var s' := Apply(s, step);
    var x := s.workers[step.w].task.id;
    HolderIsAlone(s, step.w, x);
    forall c | 0 <= c < |s.coordinators|
      ensures CoordinatorSettled(s'.status, s'.coordinators[c])
    {
      CoordinatorWithout(s.coordinators[c], x, s.status, s'.status[x]);
    }
    forall v | 0 <= v < |s.workers|
      ensures WorkerSettled(s'.status, s'.workers[v])
    {
      assert v != step.w ==> InWorkerHand(s.workers[v], x) == 0;
    }
  }

  lemma OtherStepKeepsStatus(s: System, step: Step)
    requires !step.MarkRunning? && !step.FinishScan?
    requires Enabled(s, step) && StatusOk(s)
    ensures StatusOk(Apply(s, step))
  {
    hide TaskId, Collecting;
    var s' := Apply(s, step);
    assert forall r :: Settled(s.status, r) ==> Settled(s'.status, r);
    if step.PushResult? {
      assert WorkerSettled(s.status, s.workers[step.w]);
    } else if step.PopResult? || step.PushBack? || step.Collect? || step.Halt? || step.PushTask? || step.MarkQueued? {
      assert CoordinatorSettled(s.status, s.coordinators[step.c]);
    }
  }

  lemma {:induction false} StatusAlways(s: System, steps: seq<Step>)
    requires Initial(s) && DistinctBatches(s.coordinators)
    ensures StatusOk(Run(s, steps))
  {
    if steps != [] {
      var front, step := steps[..|steps| - 1], steps[|steps| - 1];
      StatusAlways(s, front);
      InvAlways(s, front);
      if Enabled(Run(s, front), step) {
        if step.MarkRunning? || step.FinishScan? {
          StatusWriteByWorker(Run(s, front), step);
        } else {
          OtherStepKeepsStatus(Run(s, front), step);
        }
      }
    }
  }

  /** Over every run, the key of a consumed task holds the status it was consumed with, or Queued. */
  lemma ConsumedStatus(s: System, steps: seq<Step>, c: nat, j: nat)
    requires Initial(s) && DistinctBatches(s.coordinators)
    requires c < |Run(s, steps).coordinators| && j < |Run(s, steps).coordinators[c].consumed|
    ensures
      var s' := Run(s, steps);
      var r := s'.coordinators[c].consumed[j];
      r.taskId in s'.status && s'.status[r.taskId] in {r.status, Queued}
  {
    StatusAlways(s, steps);
    assert CoordinatorSettled(Run(s, steps).status, Run(s, steps).coordinators[c]);
  }

  // ----- which of the two it is -----

  /** Step `p` of the run is where a worker finishes the scan of task `x` and writes its status. */
  ghost predicate FinishedAt(s: System, steps: seq<Step>, p: nat, x: string) {
    p < |steps| && Finishes(Run(s, steps[..p]), steps[p], x)
  }

  predicate Finishes(s: System, step: Step, x: string) {
    step.FinishScan? && Enabled(s, step) && s.workers[step.w].task.id == x
  }

  function InReport(x: string): Worker -> nat {
    (w: Worker) => if w.Reporting? then Holds(w.result.taskId, x) else 0
  }

  /** How often `x` occurs as a result. */
  function ResultCopies(s: System, x: string): nat {
    Sum(s.workers, InReport(x)) + Sum(s.results, InResult(x)) + Sum(s.coordinators, InCoordinator(x))
  }

  /** A result comes from a finished scan and from nowhere else. */
  lemma ResultsComeFromFinishing(s: System, step: Step, x: string)
    ensures ResultCopies(Next(s, step), x) <= ResultCopies(s, x) + if Finishes(s, step, x) then 1 else 0
  {
    if Enabled(s, step) {
      hide TaskId, Collecting, Progress, Absorb;
      var s' := Apply(s, step);
      if step.PopTask? || step.MarkRunning? || step.FinishScan? || step.PushResult? || step.CrashWorker? {
        SumUpdate(s.workers, step.w, s'.workers[step.w], InReport(x));
        if step.PushResult? {
          SumAppend(s.results, s.workers[step.w].result, InResult(x));
        }
      } else {
        var k := s.coordinators[step.c];
        SumUpdate(s.coordinators, step.c, s'.coordinators[step.c], InCoordinator(x));
        if step.Collect? {
          AbsorbConserves(k, x);
        } else if step.PushBack? {
          SumAppend(s.results, k.hand.value, InResult(x));
        }
      }
    }
  }

  lemma NoResultsAtFirst(s: System, x: string)
    requires Initial(s)
    ensures ResultCopies(s, x) == 0
  {
    SumZero(s.workers, InReport(x));
    SumZero(s.coordinators, InCoordinator(x));
  }

  lemma FinishedInFront(s: System, steps: seq<Step>, p: nat, x: string)
    requires steps != []
    ensures
      var front := steps[..|steps| - 1];
      && (FinishedAt(s, front, p, x) ==> FinishedAt(s, steps, p, x))
      && (Finishes(Run(s, front), steps[|front|], x) ==> FinishedAt(s, steps, |front|, x))
  {
    hide Run, Finishes;
    var front := steps[..|steps| - 1];
    if p < |front| {
      assert front[..p] == steps[..p];
    }
  }

  lemma {:induction false} ResultWasFinished(s: System, steps: seq<Step>, x: string) returns (p: nat)
    requires Initial(s) && ResultCopies(Run(s, steps), x) > 0
    ensures FinishedAt(s, steps, p, x)
    decreases |steps|
  {
    if steps == [] {
      NoResultsAtFirst(s, x);
      assert false;
    } else {
      var front := steps[..|steps| - 1];
      var (u, step) := (Run(s, front), steps[|front|]);
      RunLast(s, steps);
      ResultsComeFromFinishing(u, step, x);
      hide *;
      if Finishes(u, step, x) {
        p := |front|;
      } else {
        p := ResultWasFinished(s, front, x);
      }
      FinishedInFront(s, steps, p, x);
    }
  }

  /** Nobody is about to work on task `x`: it exists as a result, or not at all. */
  predicate OnlyAsResult(s: System, x: string) {
    && (forall i :: 0 <= i < |s.tasks| ==> s.tasks[i].id != x)
    && (forall w :: 0 <= w < |s.workers| ==>
          (s.workers[w].Claimed? ==> s.workers[w].task.id != x)
            && (s.workers[w].Scanning? ==> s.workers[w].task.id != x))
  }

  /** After the finish: the key holds `value`, unless the coordinator wrote `Queued` after it. */
  predicate Written(s: System, c: nat, i: nat, late: bool, value: TaskStatus) {
    c < |s.coordinators| && i < s.coordinators[c].pushed &&
    var (k, x) := (s.coordinators[c], TaskId(s.coordinators[c].batch, i));
    && OnlyAsResult(s, x) && x in s.status
    && s.status[x] == (if late && i < k.marked then Queued else value)
    && (!late ==> i < k.marked)
  }

  /** The status that finishing a scan writes. */
  function FinalStatus(s: System, step: Step): TaskStatus {
    if step.FinishScan? && step.outcome.Scanned? then Done else Failed
  }

  lemma FinishIsAlone(s: System, step: Step, x: string)
    requires Unique(s) && Finishes(s, step, x)
    ensures OnlyAsResult(Next(s, step), x)
    ensures x in Next(s, step).status && Next(s, step).status[x] == FinalStatus(s, step)
    ensures Next(s, step).coordinators == s.coordinators
  {
    HolderIsAlone(s, step.w, x);
    NoTaskWhileHeld(s, step.w, x);
    hide Unique, Copies;
    forall w | 0 <= w < |s.workers| && w != step.w
      ensures s.workers[w].Claimed? ==> s.workers[w].task.id != x
      ensures s.workers[w].Scanning? ==> s.workers[w].task.id != x
    {
      assert InWorkerHand(s.workers[w], x) == 0;
    }
  }

  lemma HeldIsPushed(s: System, w: nat, c: nat, i: nat)
    requires Inv(s) && w < |s.workers| && c < |s.coordinators|
    requires s.workers[w].Scanning? && s.workers[w].task.id == TaskId(s.coordinators[c].batch, i)
    ensures i < s.coordinators[c].pushed
  {
    hide TaskId, Copies, Unique, AllConsistent;
    var cs := s.coordinators;
    assert WorkerIssued(cs, s.workers[w]);
    var d, index :| 0 <= d < |cs| && IssuedBy(cs[d], index, s.workers[w].task);
    hide AllIssued;
    TaskIdInjective(cs[d].batch, index, cs[c].batch, i);
    assert d == c;
  }

  lemma FinishWrites(s: System, step: Step, c: nat, i: nat)
    requires Inv(s) && c < |s.coordinators| && Finishes(s, step, TaskId(s.coordinators[c].batch, i))
    ensures Written(Next(s, step), c, i, s.coordinators[c].marked <= i, FinalStatus(s, step))
  {
    HeldIsPushed(s, step.w, c, i);
    FinishIsAlone(s, step, TaskId(s.coordinators[c].batch, i));
    hide TaskId, Inv, Finishes, Next, OnlyAsResult;
  }

  lemma NoTaskWhileHeld(s: System, w: nat, x: string)
    requires Unique(s) && w < |s.workers| && InWorkerHand(s.workers[w], x) == 1
    ensures forall i :: 0 <= i < |s.tasks| ==> s.tasks[i].id != x
  {
    assert Copies(s, x) <= 1;
    SumCovers(s.workers, w, InWorker(x));
    forall i | 0 <= i < |s.tasks|
      ensures s.tasks[i].id != x
    {
      SumCovers(s.tasks, i, InTask(x));
    }
  }

  lemma IdsOfOthersDiffer(s: System, d: nat, n: nat, c: nat, i: nat)
    requires DistinctBatches(s.coordinators) && d < |s.coordinators| && c < |s.coordinators|
    requires TaskId(s.coordinators[d].batch, n) == TaskId(s.coordinators[c].batch, i)
    ensures d == c && n == i
  {
    hide TaskId;
    TaskIdInjective(s.coordinators[d].batch, n, s.coordinators[c].batch, i);
  }

  lemma PushKeepsWritten(s: System, step: Step, c: nat, i: nat, late: bool, value: TaskStatus)
    requires Inv(s) && Written(s, c, i, late, value) && step.PushTask? && Enabled(s, step)
    ensures Written(Apply(s, step), c, i, late, value)
  {
    hide TaskId, Unique, AllIssued, AllConsistent;
    var k := s.coordinators[step.c];
    if TaskId(k.batch, k.pushed) == TaskId(s.coordinators[c].batch, i) {
      IdsOfOthersDiffer(s, step.c, k.pushed, c, i);
    }
  }

  lemma MarkKeepsWritten(s: System, step: Step, c: nat, i: nat, late: bool, value: TaskStatus)
    requires Inv(s) && Written(s, c, i, late, value) && step.MarkQueued? && Enabled(s, step)
    ensures Written(Apply(s, step), c, i, late, value)
  {
    hide TaskId, Unique, AllIssued, OnlyAsResult;
    var (k, s') := (s.coordinators[step.c], Apply(s, step));
    assert Consistent(k) && OnlyAsResult(s', TaskId(s.coordinators[c].batch, i)) by {
      SameHands(s, s', TaskId(s.coordinators[c].batch, i));
    }
    if TaskId(k.batch, k.pushed - 1) == TaskId(s.coordinators[c].batch, i) {
      IdsOfOthersDiffer(s, step.c, k.pushed - 1, c, i);
    }
  }

  lemma SameHands(s: System, s': System, x: string)
    requires s'.tasks == s.tasks && s'.workers == s.workers
    ensures OnlyAsResult(s', x) == OnlyAsResult(s, x)
  {
  }

  lemma OtherKeepsWritten(s: System, step: Step, c: nat, i: nat, late: bool, value: TaskStatus)
    requires Written(s, c, i, late, value) && Enabled(s, step) && !step.PushTask? && !step.MarkQueued?
    ensures Written(Apply(s, step), c, i, late, value)
  {
    hide TaskId, Collecting, Progress, Absorb, MakeResult;
    AbsorbOnlyAdds(s, step);
    var s' := Apply(s, step);
    var x := TaskId(s.coordinators[c].batch, i);
    if step.PopTask? {
      assert s.tasks[0].id != x;
    }
    assert s'.coordinators[c].batch == s.coordinators[c].batch && s'.coordinators[c].marked == s.coordinators[c].marked;
    if step.FinishScan? {
      assert s.workers[step.w].task.id != x;
      ResultKeepsId(s.workers[step.w].task, step.w, step.outcome);
    }
  }

  lemma ResultKeepsId(t: Task, w: nat, outcome: Outcome)
    ensures MakeResult(t, w, outcome).taskId == t.id
  {
  }

  lemma AbsorbOnlyAdds(s: System, step: Step)
    ensures step.Collect? && Enabled(s, step) ==>
      var (k, k') := (s.coordinators[step.c], Absorb(s.coordinators[step.c], s.coordinators[step.c].hand.value));
      k'.batch == k.batch && k'.targets == k.targets && k'.pushed == k.pushed && k'.marked == k.marked
  {
    hide TaskId, Collecting, Progress;
  }

  /** After the finish nobody but the coordinator writes the key, and it does so once at most. */
  lemma StepKeepsWritten(s: System, step: Step, c: nat, i: nat, late: bool, value: TaskStatus)
    requires Inv(s) && Written(s, c, i, late, value)
    ensures Written(Next(s, step), c, i, late, value)
  {
    if Enabled(s, step) {
      assert Next(s, step) == Apply(s, step);
      hide *;
      if step.PushTask? {
        PushKeepsWritten(s, step, c, i, late, value);
      } else if step.MarkQueued? {
        MarkKeepsWritten(s, step, c, i, late, value);
      } else {
        OtherKeepsWritten(s, step, c, i, late, value);
      }
    }
  }

  lemma RunPrefix(s: System, steps: seq<Step>, n: nat)
    requires 0 < n <= |steps|
    ensures Run(s, steps[..n]) == Next(Run(s, steps[..n - 1]), steps[n - 1])
  {
    assert steps[..n][..n - 1] == steps[..n - 1];
    RunLast(s, steps[..n]);
  }

  lemma {:induction false} RunKeepsWritten(s: System, steps: seq<Step>, p: nat, n: nat, u: System, c: nat, i: nat)
    requires Initial(s) && DistinctBatches(s.coordinators) && p < n <= |steps| && u == Run(s, steps[..p])
    requires c < |u.coordinators| && Finishes(u, steps[p], TaskId(u.coordinators[c].batch, i))
    ensures Written(Run(s, steps[..n]), c, i, u.coordinators[c].marked <= i, FinalStatus(u, steps[p]))
    decreases n
  {
    var before := Run(s, steps[..n - 1]);
    RunPrefix(s, steps, n);
    InvAlways(s, steps[..n - 1]);
    hide *;
    if p == n - 1 {
      FinishWrites(u, steps[p], c, i);
    } else {
      RunKeepsWritten(s, steps, p, n - 1, u, c, i);
      StepKeepsWritten(before, steps[n - 1], c, i, u.coordinators[c].marked <= i, FinalStatus(u, steps[p]));
    }
  }

  lemma BatchStays(s: System, steps: seq<Step>, p: nat)
    requires p <= |steps|
    ensures
      var (cs, cs') := (Run(s, steps[..p]).coordinators, Run(s, steps).coordinators);
      |cs| == |cs'| && forall c :: 0 <= c < |cs| ==> Grows(cs[c], cs'[c])
    decreases |steps|
  {
    if p == |steps| {
      assert steps[..p] == steps;
    } else {
      var front := steps[..|steps| - 1];
      assert front[..p] == steps[..p];
      BatchStays(s, front, p);
      RunLast(s, steps);
      StepGrows(Run(s, front), steps[|front|]);
      hide Run, Next;
    }
  }

  lemma ConsumedIsResult(s: System, c: nat, j: nat)
    requires c < |s.coordinators| && j < |s.coordinators[c].consumed|
    ensures ResultCopies(s, s.coordinators[c].consumed[j].taskId) > 0
  {
    var x := s.coordinators[c].consumed[j].taskId;
    SumCovers(s.coordinators[c].consumed, j, InResult(x));
    SumCovers(s.coordinators, c, InCoordinator(x));
    hide Sum;
  }

  /** What the key of a consumed result holds, given the moment `p` at which its scan finished. */
  ghost predicate KeyIs(s: System, steps: seq<Step>, p: nat, c: nat, i: nat, status: TaskStatus, value: TaskStatus)
    requires p <= |steps|
  {
    var u := Run(s, steps[..p]);
    c < |u.coordinators| && value == if u.coordinators[c].marked <= i then Queued else status
  }

  /**
   The key of a consumed result is Queued exactly when, at the moment its scan finished, the coordinator
   had not yet written Queued for it; otherwise it is the result's status.
   */
  lemma ConsumedStatusIff(s: System, steps: seq<Step>, c: nat, j: nat, i: nat)
    requires Initial(s) && DistinctBatches(s.coordinators)
    requires c < |Run(s, steps).coordinators| && j < |Run(s, steps).coordinators[c].consumed|
    requires Run(s, steps).coordinators[c].consumed[j].taskId == TaskId(Run(s, steps).coordinators[c].batch, i)
    ensures
      var s' := Run(s, steps);
      var r := s'.coordinators[c].consumed[j];
      && r.taskId in s'.status
      && (exists p: nat :: FinishedAt(s, steps, p, r.taskId))
      && (forall p: nat ::
        FinishedAt(s, steps, p, r.taskId) ==> KeyIs(s, steps, p, c, i, r.status, s'.status[r.taskId]))
  {
    var s' := Run(s, steps);
    var r := s'.coordinators[c].consumed[j];
    ConsumedIsResult(s', c, j);
    var first := ResultWasFinished(s, steps, r.taskId);
    ConsumedStatus(s, steps, c, j);
    ConsumedIsMarked(s, steps, c, j, i);
    hide TaskId, Run, Initial;
    forall p: nat | FinishedAt(s, steps, p, r.taskId)
      ensures KeyIs(s, steps, p, c, i, r.status, s'.status[r.taskId])
    {
      BatchStays(s, steps, p);
      assert steps[..|steps|] == steps;
      RunKeepsWritten(s, steps, p, |steps|, Run(s, steps[..p]), c, i);
    }
  }

  lemma ConsumedIsMarked(s: System, steps: seq<Step>, c: nat, j: nat, i: nat)
    requires Initial(s) && DistinctBatches(s.coordinators)
    requires c < |Run(s, steps).coordinators| && j < |Run(s, steps).coordinators[c].consumed|
    requires Run(s, steps).coordinators[c].consumed[j].taskId == TaskId(Run(s, steps).coordinators[c].batch, i)
    ensures i < Run(s, steps).coordinators[c].marked
  {
    var s' := Run(s, steps);
    InvAlways(s, steps);
    hide TaskId, Run;
    var i' := ConsumedAreOwnTasks(s', c, j);
    assert s'.coordinators[c].consumed[j].Ticket().id == TaskId(s'.coordinators[c].batch, i');
    TaskIdInjective(s'.coordinators[c].batch, i, s'.coordinators[c].batch, i');
    assert Consistent(s'.coordinators[c]);
  }

  lemma {:induction false} RunSplit(s: System, a: seq<Step>, b: seq<Step>)
    ensures Run(s, a + b) == Run(Run(s, a), b)
  {
    if b == [] {
      assert a + b == a;
    } else {
      assert (a + b)[..|a + b| - 1] == a + b[..|b| - 1];
      RunSplit(s, a, b[..|b| - 1]);
    }
  }

  lemma RunTwo(s: System, a: Step, b: Step)
    ensures Run(s, [a, b]) == Next(Next(s, a), b)
  {
    assert [a, b][..1] == [a] && [a][..0] == [];
    assert Run(s, [a]) == Next(s, a);
  }

  /** One task, one worker and one coordinator, after 0, 2, 4, 6 and 8 steps of the late write. */
  function Late(k: Coordinator, report: Report, steps: nat): System
    requires |k.targets| == 1
  {
    var t := MakeTask(k.batch, k.targets, 0);
    var r := MakeResult(t, 0, Scanned(report));
    var marked := k.(pushed := 1, marked := 1);
    if steps == 0 then System([], [], map[], [Polling], [k])
    else if steps == 2 then System([], [], map[], [Claimed(t)], [k.(pushed := 1)])
    else if steps == 4 then System([], [], map[t.id := Done], [Reporting(r)], [k.(pushed := 1)])
    else if steps == 6 then System([], [r], map[t.id := Queued], [Polling], [marked])
    else System([], [], map[t.id := Queued], [Polling], [Absorb(marked, r)])
  }

  lemma LateClaim(k: Coordinator, report: Report)
    requires Fresh(k) && |k.targets| == 1
    ensures Run(Late(k, report, 0), [PushTask(0), PopTask(0)]) == Late(k, report, 2)
  {
    RunTwo(Late(k, report, 0), PushTask(0), PopTask(0));
  }

  lemma LateScan(k: Coordinator, report: Report)
    requires Fresh(k) && |k.targets| == 1
    ensures Run(Late(k, report, 2), [MarkRunning(0), FinishScan(0, Scanned(report))]) == Late(k, report, 4)
  {
    RunTwo(Late(k, report, 2), MarkRunning(0), FinishScan(0, Scanned(report)));
  }

  lemma LateMark(k: Coordinator, report: Report)
    requires Fresh(k) && |k.targets| == 1
    ensures Run(Late(k, report, 4), [PushResult(0), MarkQueued(0)]) == Late(k, report, 6)
  {
    RunTwo(Late(k, report, 4), PushResult(0), MarkQueued(0));
  }

  lemma LateCollect(k: Coordinator, report: Report)
    requires Fresh(k) && |k.targets| == 1
    ensures Run(Late(k, report, 6), [PopResult(0), Collect(0)]) == Late(k, report, 8)
  {
    RunTwo(Late(k, report, 6), PopResult(0), Collect(0));
  }

  /** The exception is real: the coordinator's write of Queued can land after the worker's Done. */
  lemma LateQueuedOverwritesDone(k: Coordinator, report: Report) returns (steps: seq<Step>)
    requires Fresh(k) && |k.targets| == 1
    ensures
      var s := System([], [], map[], [Polling], [k]);
      var r := MakeResult(MakeTask(k.batch, k.targets, 0), 0, Scanned(report));
      && Initial(s)
      && |Run(s, steps).coordinators| == 1 && Run(s, steps).coordinators[0].consumed == [r]
      && r.status == Done
      && Run(s, steps).status == map[r.taskId := Queued]
  {
    var claim, scan := [PushTask(0), PopTask(0)], [MarkRunning(0), FinishScan(0, Scanned(report))];
    var mark, collect := [PushResult(0), MarkQueued(0)], [PopResult(0), Collect(0)];
    LateClaim(k, report);
    LateScan(k, report);
    LateMark(k, report);
    LateCollect(k, report);
    RunSplit(Late(k, report, 0), claim, scan);
    RunSplit(Late(k, report, 0), claim + scan, mark);
    RunSplit(Late(k, report, 0), claim + scan + mark, collect);
    steps := claim + scan + mark + collect;
  }
}
