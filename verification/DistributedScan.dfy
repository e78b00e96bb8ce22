/**
 The distributed scan: coordinators push one task per target on a shared FIFO list, any number of
 workers pop, scan and push one result each, and every coordinator collects the results of its own
 batch, pushing results of other batches back to the tail.

 One step is one command on the shared lists. A step that is not enabled leaves the system as it is,
 so `Run` ranges over every interleaving, with crashes of workers and coordinators at any point.
 */
module DistributedScan {
  import opened Options
  import opened Collections
  import opened Decimal

  type Report = string

  datatype TaskStatus = Queued | Running | Done | Failed

  datatype Task = Task(id: string, batch: string, target: string)

  /** What one scan ends with; the scan itself is outside the model. */
  datatype Outcome = Scanned(report: Report) | ScanFailed(message: string)

  datatype TaskResult = TaskResult(
    taskId: string, batch: string, target: string, worker: nat,
    status: TaskStatus, report: Option<Report>, error: Option<string>)
  {
    function Ticket(): Task {
      Task(taskId, batch, target)
    }
  }

  datatype Worker = Polling | Claimed(task: Task) | Scanning(task: Task) | Reporting(result: TaskResult) | Gone

  datatype Coordinator = Coordinator(
    batch: string, targets: seq<string>,
    pushed: nat, marked: nat,
    hand: Option<TaskResult>,
    successful: seq<Report>, failures: map<string, string>,
    consumed: seq<TaskResult>, running: bool)

  datatype System = System(
    tasks: seq<Task>, results: seq<TaskResult>, status: map<string, TaskStatus>,
    workers: seq<Worker>, coordinators: seq<Coordinator>)

  /** `{batch}-{index:06}`. */
  function TaskId(batch: string, index: nat): string {
    batch + "-" + Pad(Format(index), 6)
  }

  function MakeTask(batch: string, targets: seq<string>, index: nat): Task
    requires index < |targets|
  {
    Task(TaskId(batch, index), batch, targets[index])
  }

  function MakeResult(task: Task, worker: nat, outcome: Outcome): TaskResult {
    match outcome
    case Scanned(report) => TaskResult(task.id, task.batch, task.target, worker, Done, Some(report), None)
    case ScanFailed(message) => TaskResult(task.id, task.batch, task.target, worker, Failed, None, Some(message))
  }

  /** `r` is what `worker` has to report about `task` after a scan that ended with `outcome`. */
  ghost predicate Tells(r: TaskResult, task: Task, worker: nat, outcome: Outcome) {
    && r.taskId == task.id && r.batch == task.batch && r.target == task.target && r.worker == worker
    && (outcome.Scanned? ==> r.status == Done && r.report == Some(outcome.report) && r.error == None)
    && (outcome.ScanFailed? ==> r.status == Failed && r.report == None && r.error == Some(outcome.message))
  }

  function ErrorText(result: TaskResult): string {
    if result.error.Some? then result.error.value else "worker returned no scan result"
  }

  /** The coordinator counts what it holds as a list plus a map. */
  function Progress(k: Coordinator): nat {
    |k.successful| + |k.failures|
  }

  predicate Collecting(k: Coordinator) {
    k.running && k.marked == |k.targets| && Progress(k) < |k.targets|
  }

  function Absorb(k: Coordinator, result: TaskResult): Coordinator {
    if result.status == Done && result.report.Some? then
      k.(hand := None, consumed := k.consumed + [result], successful := k.successful + [result.report.value])
    else
      k.(hand := None, consumed := k.consumed + [result],
         failures := k.failures[result.taskId := ErrorText(result)])
  }

  datatype Step =
    | PushTask(c: nat)                    // coordinator: append the next task
    | MarkQueued(c: nat)                  // coordinator: write its Queued status
    | PopTask(w: nat)                     // worker: take the head task
    | MarkRunning(w: nat)                 // worker: write its Running status
    | FinishScan(w: nat, outcome: Outcome)// worker: scan, then write Done or Failed
    | PushResult(w: nat)                  // worker: append the result
    | CrashWorker(w: nat)                 // worker dies, with whatever it holds
    | PopResult(c: nat)                   // coordinator: take the head result
    | PushBack(c: nat)                    // coordinator: append a foreign result again
    | Collect(c: nat)                     // coordinator: keep a result of its own batch
    | Halt(c: nat)                        // coordinator times out or dies

  predicate CoordinatorReady(k: Coordinator, step: Step) {
    k.running &&
    match step
    case PushTask(_) => k.pushed == k.marked < |k.targets|
    case MarkQueued(_) => k.marked < k.pushed
    case PopResult(_) => k.hand.None? && Collecting(k)
    case PushBack(_) => k.hand.Some? && k.hand.value.batch != k.batch
    case Collect(_) => k.hand.Some? && k.hand.value.batch == k.batch
    case _ => true
  }

  predicate Enabled(s: System, step: Step) {
    match step
    case PushTask(c) => c < |s.coordinators| && CoordinatorReady(s.coordinators[c], step)
    case MarkQueued(c) => c < |s.coordinators| && CoordinatorReady(s.coordinators[c], step)
                          && 0 < s.coordinators[c].pushed <= |s.coordinators[c].targets|
    case PopTask(w) => w < |s.workers| && s.workers[w].Polling? && s.tasks != []
    case MarkRunning(w) => w < |s.workers| && s.workers[w].Claimed?
    case FinishScan(w, _) => w < |s.workers| && s.workers[w].Scanning?
    case PushResult(w) => w < |s.workers| && s.workers[w].Reporting?
    case CrashWorker(w) => w < |s.workers|
    case PopResult(c) => c < |s.coordinators| && CoordinatorReady(s.coordinators[c], step) && s.results != []
    case PushBack(c) => c < |s.coordinators| && CoordinatorReady(s.coordinators[c], step)
    case Collect(c) => c < |s.coordinators| && CoordinatorReady(s.coordinators[c], step)
    case Halt(c) => c < |s.coordinators|
  }

  function Apply(s: System, step: Step): System
    requires Enabled(s, step)
  {
    match step
    case PushTask(c) =>
      var k := s.coordinators[c];
      s.(tasks := s.tasks + [MakeTask(k.batch, k.targets, k.pushed)],
         coordinators := s.coordinators[c := k.(pushed := k.pushed + 1)])
    case MarkQueued(c) =>
      var k := s.coordinators[c];
      s.(status := s.status[TaskId(k.batch, k.pushed - 1) := Queued],
         coordinators := s.coordinators[c := k.(marked := k.marked + 1)])
    case PopTask(w) =>
      s.(tasks := s.tasks[1..], workers := s.workers[w := Claimed(s.tasks[0])])
    case MarkRunning(w) =>
      var task := s.workers[w].task;
      s.(status := s.status[task.id := Running], workers := s.workers[w := Scanning(task)])
    case FinishScan(w, outcome) =>
      var result := MakeResult(s.workers[w].task, w, outcome);
      s.(status := s.status[result.taskId := result.status], workers := s.workers[w := Reporting(result)])
    case PushResult(w) =>
      s.(results := s.results + [s.workers[w].result], workers := s.workers[w := Polling])
    case CrashWorker(w) =>
      s.(workers := s.workers[w := Gone])
    case PopResult(c) =>
      s.(results := s.results[1..],
         coordinators := s.coordinators[c := s.coordinators[c].(hand := Some(s.results[0]))])
    case PushBack(c) =>
      var k := s.coordinators[c];
      s.(results := s.results + [k.hand.value], coordinators := s.coordinators[c := k.(hand := None)])
    case Collect(c) =>
      var k := s.coordinators[c];
      s.(coordinators := s.coordinators[c := Absorb(k, k.hand.value)])
    case Halt(c) =>
      s.(coordinators := s.coordinators[c := s.coordinators[c].(hand := None, running := false)])
  }

  function Next(s: System, step: Step): System {
    if Enabled(s, step) then Apply(s, step) else s
  }

  function Run(s: System, steps: seq<Step>): System {
    if steps == [] then s else Next(Run(s, steps[..|steps| - 1]), steps[|steps| - 1])
  }

  predicate Fresh(k: Coordinator) {
    && k.pushed == 0 && k.marked == 0 && k.hand.None? && k.running
    && k.successful == [] && k.failures == map[] && k.consumed == []
  }

  predicate Initial(s: System) {
    && s.tasks == [] && s.results == [] && s.status == map[]
    && (forall w :: 0 <= w < |s.workers| ==> s.workers[w] == Polling)
    && (forall c :: 0 <= c < |s.coordinators| ==> Fresh(s.coordinators[c]))
  }

  predicate DistinctBatches(cs: seq<Coordinator>) {
    forall c, d :: 0 <= c < d < |cs| ==> cs[c].batch != cs[d].batch
  }

  /** No other coordinator with targets has the batch id of coordinator `c`. */
  ghost predicate Lone(cs: seq<Coordinator>, c: nat) {
    c < |cs| && forall d :: 0 <= d < |cs| && d != c && cs[d].batch == cs[c].batch ==> cs[d].targets == []
  }

  // ----- task identifiers -----

  lemma TaskIdInjective(batch: string, i: nat, batch': string, i': nat)
    requires TaskId(batch, i) == TaskId(batch', i')
    ensures batch == batch' && i == i'
  {
    var x, y := Pad(Format(i), 6), Pad(Format(i'), 6);
    var id := TaskId(batch, i);
    assert id == batch + ['-'] + x == batch' + ['-'] + y;
    assert id[|batch|] == '-' && id[|batch'|] == '-';
    assert forall j :: |batch| < j < |id| ==> id[j] == x[j - |batch| - 1];
    assert forall j :: |batch'| < j < |id| ==> id[j] == y[j - |batch'| - 1];
    assert |batch| == |batch'|;
    assert batch == id[..|batch|] == batch';
    assert x == id[|batch| + 1..] == y;
    ValueOfPad(Format(i), 6);
    ValueOfPad(Format(i'), 6);
    ValueOfFormat(i);
    ValueOfFormat(i');
  }

  // ----- where every task id is -----

  function Holds(id: string, x: string): nat {
    if id == x then 1 else 0
  }

  function InTask(x: string): Task -> nat {
    (t: Task) => Holds(t.id, x)
  }

  function InResult(x: string): TaskResult -> nat {
    (r: TaskResult) => Holds(r.taskId, x)
  }

  function InWorkerHand(w: Worker, x: string): nat {
    match w
    case Claimed(task) => Holds(task.id, x)
    case Scanning(task) => Holds(task.id, x)
    case Reporting(result) => Holds(result.taskId, x)
    case _ => 0
  }

  function InWorker(x: string): Worker -> nat {
    (w: Worker) => InWorkerHand(w, x)
  }

  function InCoordinatorHand(k: Coordinator, x: string): nat {
    if k.hand.Some? then Holds(k.hand.value.taskId, x) else 0
  }

  function InCoordinator(x: string): Coordinator -> nat {
    (k: Coordinator) => InCoordinatorHand(k, x) + Sum(k.consumed, InResult(x))
  }

  /**
   How often id `x` occurs in the queue of tasks, workers' hands, result queue, coordinators' hands and consumed
   results.
   */
  function Copies(s: System, x: string): nat {
    Sum(s.tasks, InTask(x)) + Sum(s.workers, InWorker(x))
    + Sum(s.results, InResult(x)) + Sum(s.coordinators, InCoordinator(x))
  }

  /** Each id is in at most one place, at most once. */
  ghost predicate Unique(s: System) {
    forall x :: Copies(s, x) <= 1
  }

  /** What a step adds to the system and what it takes out of it. */
  function Added(s: System, step: Step, x: string): nat {
    if step.PushTask? && Enabled(s, step) then
      Holds(TaskId(s.coordinators[step.c].batch, s.coordinators[step.c].pushed), x)
    else 0
  }

  function Lost(s: System, step: Step, x: string): nat {
    if !Enabled(s, step) then 0
    else if step.CrashWorker? then InWorkerHand(s.workers[step.w], x)
    else if step.Halt? then InCoordinatorHand(s.coordinators[step.c], x)
    else 0
  }

  lemma WorkerStepConserves(s: System, step: Step, x: string)
    requires step.PopTask? || step.MarkRunning? || step.FinishScan? || step.PushResult? || step.CrashWorker?
    requires Enabled(s, step)
    ensures Copies(Apply(s, step), x) + Lost(s, step, x) == Copies(s, x)
  {
    SumUpdate(s.workers, step.w, Apply(s, step).workers[step.w], InWorker(x));
    if step.PushResult? {
      SumAppend(s.results, s.workers[step.w].result, InResult(x));
    }
  }

  lemma AbsorbConserves(k: Coordinator, x: string)
    requires k.hand.Some?
    ensures InCoordinator(x)(Absorb(k, k.hand.value)) == InCoordinator(x)(k)
  {
    SumAppend(k.consumed, k.hand.value, InResult(x));
  }

  lemma AppendingStepConserves(s: System, step: Step, x: string)
    requires step.PushTask? || step.PushBack?
    requires Enabled(s, step)
    ensures Copies(Apply(s, step), x) == Copies(s, x) + Added(s, step, x)
  {
    hide TaskId, Collecting;
    var k := s.coordinators[step.c];
    SumUpdate(s.coordinators, step.c, Apply(s, step).coordinators[step.c], InCoordinator(x));
    if step.PushTask? {
      SumAppend(s.tasks, MakeTask(k.batch, k.targets, k.pushed), InTask(x));
    } else {
      SumAppend(s.results, k.hand.value, InResult(x));
    }
  }

  lemma CoordinatorStepConserves(s: System, step: Step, x: string)
    requires step.MarkQueued? || step.PopResult? || step.Collect? || step.Halt?
    requires Enabled(s, step)
    ensures Copies(Apply(s, step), x) + Lost(s, step, x) == Copies(s, x)
  {
    var (k, s') := (s.coordinators[step.c], Apply(s, step));
    var k' := s'.coordinators[step.c];
    if step.Collect? {
      AbsorbConserves(k, x);
    }
    hide Absorb, TaskId, Collecting, CoordinatorReady;
    assert InCoordinator(x)(k') + Lost(s, step, x) + Sum(s'.results, InResult(x))
      == InCoordinator(x)(k) + Sum(s.results, InResult(x));
    SumUpdate(s.coordinators, step.c, k', InCoordinator(x));
    assert s'.coordinators == s.coordinators[step.c := k'] && s'.tasks == s.tasks && s'.workers == s.workers;
    hide Sum, Lost, Apply, Holds, InCoordinatorHand;
  }

  /** Conservation: apart from new tasks and crashes, a step only moves ids from one place to another. */
  lemma StepConservesIds(s: System, step: Step, x: string)
    ensures Copies(Next(s, step), x) + Lost(s, step, x) == Copies(s, x) + Added(s, step, x)
  {
    if Enabled(s, step) {
      match step
      case PopTask(_) => WorkerStepConserves(s, step, x);
      case MarkRunning(_) => WorkerStepConserves(s, step, x);
      case FinishScan(_, _) => WorkerStepConserves(s, step, x);
      case PushResult(_) => WorkerStepConserves(s, step, x);
      case CrashWorker(_) => WorkerStepConserves(s, step, x);
      case PushTask(_) => AppendingStepConserves(s, step, x);
      case PushBack(_) => AppendingStepConserves(s, step, x);
      case _ => CoordinatorStepConserves(s, step, x);
    }
  }

  // ----- every ticket in the system was issued by its coordinator -----

  predicate IssuedBy(k: Coordinator, i: nat, t: Task) {
    i < k.pushed && i < |k.targets| && t == MakeTask(k.batch, k.targets, i)
  }

  ghost predicate Issued(cs: seq<Coordinator>, t: Task) {
    exists c, i :: 0 <= c < |cs| && IssuedBy(cs[c], i, t)
  }

  ghost predicate WorkerIssued(cs: seq<Coordinator>, w: Worker) {
    match w
    case Claimed(task) => Issued(cs, task)
    case Scanning(task) => Issued(cs, task)
    case Reporting(result) => Issued(cs, result.Ticket())
    case _ => true
  }

  ghost predicate CoordinatorIssued(cs: seq<Coordinator>, k: Coordinator) {
    && (k.hand.Some? ==> Issued(cs, k.hand.value.Ticket()))
    && ResultsIssued(cs, k.consumed)
  }

  ghost predicate TasksIssued(cs: seq<Coordinator>, tasks: seq<Task>) {
    forall i :: 0 <= i < |tasks| ==> Issued(cs, tasks[i])
  }

  ghost predicate ResultsIssued(cs: seq<Coordinator>, results: seq<TaskResult>) {
    forall i :: 0 <= i < |results| ==> Issued(cs, results[i].Ticket())
  }

  ghost predicate AllIssued(s: System) {
    && TasksIssued(s.coordinators, s.tasks)
    && (forall w :: 0 <= w < |s.workers| ==> WorkerIssued(s.coordinators, s.workers[w]))
    && ResultsIssued(s.coordinators, s.results)
    && (forall c :: 0 <= c < |s.coordinators| ==> CoordinatorIssued(s.coordinators, s.coordinators[c]))
  }

  predicate Grows(k: Coordinator, k': Coordinator) {
    k'.batch == k.batch && k'.targets == k.targets && k.pushed <= k'.pushed
  }

  lemma IssuedGrows(cs: seq<Coordinator>, cs': seq<Coordinator>)
    requires |cs| == |cs'| && forall c :: 0 <= c < |cs| ==> Grows(cs[c], cs'[c])
    ensures forall t :: Issued(cs, t) ==> Issued(cs', t)
  {
    forall t | Issued(cs, t)
      ensures Issued(cs', t)
    {
      var c, i :| 0 <= c < |cs| && IssuedBy(cs[c], i, t);
      assert IssuedBy(cs'[c], i, t);
    }
  }

  lemma StepGrows(s: System, step: Step)
    ensures var cs := Next(s, step).coordinators;
            |cs| == |s.coordinators| && forall c :: 0 <= c < |cs| ==> Grows(s.coordinators[c], cs[c])
  {
  }

  lemma GrowthKeepsIssued(s: System, cs: seq<Coordinator>)
    requires AllIssued(s)
    requires |cs| == |s.coordinators| && forall c :: 0 <= c < |cs| ==> Grows(s.coordinators[c], cs[c])
    ensures TasksIssued(cs, s.tasks) && ResultsIssued(cs, s.results)
    ensures forall w :: 0 <= w < |s.workers| ==> WorkerIssued(cs, s.workers[w])
    ensures forall c :: 0 <= c < |s.coordinators| ==> CoordinatorIssued(cs, s.coordinators[c])
  {
    IssuedGrows(s.coordinators, cs);
  }

  lemma WorkerStepKeepsIssued(s: System, step: Step)
    requires step.PopTask? || step.MarkRunning? || step.FinishScan? || step.PushResult? || step.CrashWorker?
    requires Enabled(s, step) && AllIssued(s)
    ensures AllIssued(Apply(s, step))
  {
    assert WorkerIssued(s.coordinators, s.workers[step.w]);
    assert WorkerIssued(s.coordinators, Apply(s, step).workers[step.w]);
  }

  lemma NewTaskIssued(cs: seq<Coordinator>, c: nat, i: nat)
    requires c < |cs| && i < cs[c].pushed && i < |cs[c].targets|
    ensures Issued(cs, MakeTask(cs[c].batch, cs[c].targets, i))
  {
    assert IssuedBy(cs[c], i, MakeTask(cs[c].batch, cs[c].targets, i));
  }

  lemma AbsorbKeepsTickets(cs: seq<Coordinator>, k: Coordinator)
    ensures CoordinatorIssued(cs, k) && k.hand.Some? ==> CoordinatorIssued(cs, Absorb(k, k.hand.value))
  {
  }

  lemma CoordinatorStepKeepsIssued(s: System, step: Step)
    requires step.PushTask? || step.MarkQueued? || step.PopResult? || step.PushBack? || step.Collect? || step.Halt?
    requires Enabled(s, step) && AllIssued(s)
    ensures AllIssued(Apply(s, step))
  {
    hide Absorb, Issued, Collecting;
    var s' := Apply(s, step);
    var cs, k := s'.coordinators, s.coordinators[step.c];
    StepGrows(s, step);
    GrowthKeepsIssued(s, cs);
    AbsorbKeepsTickets(cs, k);
    assert CoordinatorIssued(cs, k);
    if step.PushTask? {
      NewTaskIssued(cs, step.c, k.pushed);
    }
    assert TasksIssued(cs, s'.tasks);
    assert ResultsIssued(cs, s'.results);
    assert CoordinatorIssued(cs, cs[step.c]);
  }

  lemma StepKeepsIssued(s: System, step: Step)
    requires AllIssued(s)
    ensures AllIssued(Next(s, step))
  {
    if Enabled(s, step) {
      match step
      case PopTask(_) => WorkerStepKeepsIssued(s, step);
      case MarkRunning(_) => WorkerStepKeepsIssued(s, step);
      case FinishScan(_, _) => WorkerStepKeepsIssued(s, step);
      case PushResult(_) => WorkerStepKeepsIssued(s, step);
      case CrashWorker(_) => WorkerStepKeepsIssued(s, step);
      case _ => CoordinatorStepKeepsIssued(s, step);
    }
  }

  // ----- what one coordinator holds -----

  predicate Successful(r: TaskResult) {
    r.status == Done && r.report.Some?
  }

  function Reports(rs: seq<TaskResult>): seq<Report> {
    if rs == [] then []
    else
      var front, last := Reports(rs[..|rs| - 1]), rs[|rs| - 1];
      if Successful(last) then front + [last.report.value] else front
  }

  function FailureMap(rs: seq<TaskResult>): map<string, string> {
    if rs == [] then map[]
    else
      var front, last := FailureMap(rs[..|rs| - 1]), rs[|rs| - 1];
      if Successful(last) then front else front[last.taskId := ErrorText(last)]
  }

  predicate Consistent(k: Coordinator) {
    && k.marked <= k.pushed <= k.marked + 1
    && k.pushed <= |k.targets|
    && (k.consumed != [] ==> k.marked == |k.targets|)
    && (k.hand.Some? ==> k.marked == |k.targets|)
    && (forall j :: 0 <= j < |k.consumed| ==> k.consumed[j].batch == k.batch)
    && k.successful == Reports(k.consumed)
    && k.failures == FailureMap(k.consumed)
  }

  ghost predicate AllConsistent(s: System) {
    forall c :: 0 <= c < |s.coordinators| ==> Consistent(s.coordinators[c])
  }

  lemma AbsorbKeepsConsistent(k: Coordinator)
    requires Consistent(k) && k.hand.Some? && k.hand.value.batch == k.batch
    ensures Consistent(Absorb(k, k.hand.value))
  {
    assert Absorb(k, k.hand.value).consumed[..|k.consumed|] == k.consumed;
  }

  lemma StepKeepsConsistent(s: System, step: Step)
    requires AllConsistent(s)
    ensures AllConsistent(Next(s, step))
  {
    hide Absorb, Progress, Reports, FailureMap, TaskId;
    if step.Collect? && Enabled(s, step) {
      AbsorbKeepsConsistent(s.coordinators[step.c]);
    }
  }

  function IdsOf(rs: seq<TaskResult>): (ids: seq<string>)
    ensures |ids| == |rs| && forall j :: 0 <= j < |rs| ==> ids[j] == rs[j].taskId
  {
    seq(|rs|, j requires 0 <= j < |rs| => rs[j].taskId)
  }

  lemma {:induction false} ListPlusMapCountsResults(rs: seq<TaskResult>)
    requires Distinct(IdsOf(rs))
    ensures |Reports(rs)| + |FailureMap(rs)| == |rs|
    ensures FailureMap(rs).Keys <= Elements(IdsOf(rs))
  {
    if rs != [] {
      var front, last := rs[..|rs| - 1], rs[|rs| - 1];
      assert IdsOf(rs) == IdsOf(front) + [last.taskId];
      ListPlusMapCountsResults(front);
      assert last.taskId !in IdsOf(front);
    }
  }

  function BatchIds(batch: string, n: nat): set<string> {
    set i | 0 <= i < n :: TaskId(batch, i)
  }

  lemma BatchIdsGrow(batch: string, n: nat)
    ensures BatchIds(batch, n + 1) == BatchIds(batch, n) + {TaskId(batch, n)}
    ensures TaskId(batch, n) !in BatchIds(batch, n)
  {
    hide TaskId;
    if TaskId(batch, n) in BatchIds(batch, n) {
      var i :| 0 <= i < n && TaskId(batch, i) == TaskId(batch, n);
      TaskIdInjective(batch, i, batch, n);
    }
  }

  lemma {:induction false} BatchIdsCardinality(batch: string, n: nat)
    ensures |BatchIds(batch, n)| == n
  {
    hide TaskId;
    if n > 0 {
      BatchIdsCardinality(batch, n - 1);
      BatchIdsGrow(batch, n - 1);
    }
  }

  // ----- the global invariant -----

  ghost predicate Inv(s: System) {
    DistinctBatches(s.coordinators) && Unique(s) && AllIssued(s) && AllConsistent(s)
  }

  lemma OtherTicket(cs: seq<Coordinator>, c: nat, t: Task)
    requires Lone(cs, c) && Issued(cs, t)
    ensures t.id != TaskId(cs[c].batch, cs[c].pushed)
  {
    hide TaskId;
    if t.id == TaskId(cs[c].batch, cs[c].pushed) {
      var d, i :| 0 <= d < |cs| && IssuedBy(cs[d], i, t);
      TaskIdInjective(cs[d].batch, i, cs[c].batch, cs[c].pushed);
    }
  }

  /** The id a coordinator is about to use is nowhere in the system. */
  lemma NextIdIsFresh(s: System, c: nat)
    requires Lone(s.coordinators, c) && AllIssued(s)
    ensures Copies(s, TaskId(s.coordinators[c].batch, s.coordinators[c].pushed)) == 0
  {
    var cs := s.coordinators;
    var x := TaskId(cs[c].batch, cs[c].pushed);
    hide TaskId;
    forall t | Issued(cs, t)
      ensures t.id != x
    {
      OtherTicket(cs, c, t);
    }
    SumZero(s.tasks, InTask(x));
    SumZero(s.workers, InWorker(x));
    SumZero(s.results, InResult(x)) by {
      assert forall i :: 0 <= i < |s.results| ==> s.results[i].Ticket().id == s.results[i].taskId;
    }
    forall d | 0 <= d < |cs|
      ensures InCoordinator(x)(cs[d]) == 0
    {
      assert forall j :: 0 <= j < |cs[d].consumed| ==> cs[d].consumed[j].Ticket().id == cs[d].consumed[j].taskId;
      SumZero(cs[d].consumed, InResult(x));
      assert cs[d].hand.Some? ==> cs[d].hand.value.Ticket().id == cs[d].hand.value.taskId;
    }
    SumZero(cs, InCoordinator(x));
  }

  lemma StepKeepsUnique(s: System, step: Step)
    requires DistinctBatches(s.coordinators) && Unique(s) && AllIssued(s)
    ensures Unique(Next(s, step))
  {
    forall x
      ensures Copies(Next(s, step), x) <= 1
    {
      StepConservesIds(s, step, x);
      if Added(s, step, x) > 0 {
        NextIdIsFresh(s, step.c);
      }
    }
  }

  lemma {:induction false} InvAlways(s: System, steps: seq<Step>)
    requires Initial(s) && DistinctBatches(s.coordinators)
    ensures Inv(Run(s, steps))
  {
    if steps == [] {
      forall x
        ensures Copies(s, x) == 0
      {
        SumZero(s.workers, InWorker(x));
        SumZero(s.coordinators, InCoordinator(x));
      }
    } else {
      var before, step := Run(s, steps[..|steps| - 1]), steps[|steps| - 1];
      InvAlways(s, steps[..|steps| - 1]);
      StepGrows(before, step);
      StepKeepsIssued(before, step);
      StepKeepsConsistent(before, step);
      StepKeepsUnique(before, step);
    }
  }

  // ----- main results about the protocol -----

  lemma AtMostOnePlace(s: System, steps: seq<Step>)
    requires Initial(s) && DistinctBatches(s.coordinators)
    ensures forall x :: Copies(Run(s, steps), x) <= 1
  {
    InvAlways(s, steps);
  }

  lemma ConsumedIdsDistinct(s: System, c: nat)
    requires c < |s.coordinators| && Unique(s)
    ensures Distinct(IdsOf(s.coordinators[c].consumed))
  {
    var k := s.coordinators[c];
    forall i, j | 0 <= i < j < |k.consumed|
      ensures k.consumed[i].taskId != k.consumed[j].taskId
    {
      var x := k.consumed[i].taskId;
      SumPair(k.consumed, i, j, InResult(x));
      SumCovers(s.coordinators, c, InCoordinator(x));
      assert Copies(s, x) <= 1;
    }
  }

  /** A consumed result was issued as a task, by a coordinator with this batch id. */
  lemma ConsumedWasIssued(s: System, c: nat, j: nat) returns (d: nat, i: nat)
    requires AllIssued(s) && AllConsistent(s) && c < |s.coordinators| && j < |s.coordinators[c].consumed|
    ensures d < |s.coordinators| && s.coordinators[d].batch == s.coordinators[c].batch
    ensures IssuedBy(s.coordinators[d], i, s.coordinators[c].consumed[j].Ticket())
  {
    hide TaskId;
    var cs := s.coordinators;
    assert CoordinatorIssued(cs, cs[c]) && Consistent(cs[c]);
    hide AllIssued, AllConsistent, Consistent, CoordinatorIssued;
    var t := cs[c].consumed[j].Ticket();
    var owner, index :| 0 <= owner < |cs| && IssuedBy(cs[owner], index, t);
    d, i := owner, index;
  }

  lemma ConsumedAreOwnTasks(s: System, c: nat, j: nat) returns (i: nat)
    requires Inv(s) && c < |s.coordinators| && j < |s.coordinators[c].consumed|
    ensures i < |s.coordinators[c].targets|
    ensures s.coordinators[c].consumed[j].Ticket() == MakeTask(s.coordinators[c].batch, s.coordinators[c].targets, i)
  {
    hide TaskId, AllIssued, AllConsistent, Unique;
    var d, index := ConsumedWasIssued(s, c, j);
    i := index;
  }

  /**
   Progress counts the distinct tasks consumed, all of the coordinator's batch, and is full only when all of
   them are.
   */
  predicate ProgressExact(k: Coordinator) {
    var consumed := Elements(IdsOf(k.consumed));
    && Distinct(IdsOf(k.consumed))
    && consumed <= BatchIds(k.batch, |k.targets|)
    && Progress(k) == |consumed| <= |k.targets|
    && (Progress(k) == |k.targets| <==> consumed == BatchIds(k.batch, |k.targets|))
  }

  lemma CountIsExact(k: Coordinator)
    requires Consistent(k) && Distinct(IdsOf(k.consumed))
    requires Elements(IdsOf(k.consumed)) <= BatchIds(k.batch, |k.targets|)
    ensures ProgressExact(k)
  {
    var consumed := Elements(IdsOf(k.consumed));
    ListPlusMapCountsResults(k.consumed);
    DistinctCardinality(IdsOf(k.consumed));
    SubsetCardinality(consumed, BatchIds(k.batch, |k.targets|));
    BatchIdsCardinality(k.batch, |k.targets|);
    hide Elements, BatchIds, Distinct, IdsOf, Reports, FailureMap;
  }

  /**
   Over every run the list-plus-map progress of a coordinator is the number of distinct tasks it has
   consumed, all of them its own; it never exceeds the number of targets, and it reaches that number
   exactly when every task of the batch has been consumed.
   */
  lemma ProgressIsExact(s: System, steps: seq<Step>, c: nat)
    requires Initial(s) && DistinctBatches(s.coordinators)
    requires c < |Run(s, steps).coordinators|
    ensures ProgressExact(Run(s, steps).coordinators[c])
  {
    InvAlways(s, steps);
    ExactWhenUnique(Run(s, steps), c);
  }

  lemma ExactWhenUnique(s: System, c: nat)
    requires Inv(s) && c < |s.coordinators|
    ensures ProgressExact(s.coordinators[c])
  {
    var k := s.coordinators[c];
    ConsumedIdsDistinct(s, c);
    assert Consistent(k);
    hide Inv, TaskId, Copies;
    forall x | x in Elements(IdsOf(k.consumed))
      ensures x in BatchIds(k.batch, |k.targets|)
    {
      var j :| 0 <= j < |k.consumed| && IdsOf(k.consumed)[j] == x;
      var i := ConsumedAreOwnTasks(s, c, j);
      assert k.consumed[j].Ticket().id == TaskId(k.batch, i);
    }
    CountIsExact(k);
  }

  /** A consumed result names the target its index had in the coordinator's list. */
  lemma ConsumedTargetsMatch(s: System, steps: seq<Step>, c: nat, j: nat)
    requires Initial(s) && DistinctBatches(s.coordinators)
    requires c < |Run(s, steps).coordinators| && j < |Run(s, steps).coordinators[c].consumed|
    ensures
      var k := Run(s, steps).coordinators[c];
      exists i ::
        0 <= i < |k.targets| && k.consumed[j].taskId == TaskId(k.batch, i) && k.consumed[j].target == k.targets[i]
  {
    InvAlways(s, steps);
    var k := Run(s, steps).coordinators[c];
    var i := ConsumedAreOwnTasks(Run(s, steps), c, j);
    assert k.consumed[j].Ticket().id == TaskId(k.batch, i) && k.consumed[j].Ticket().target == k.targets[i];
  }

  /** A worker dies with something in its hands, or a coordinator stops or dies with a result in its hand. */
  predicate Drops(s: System, step: Step) {
    Enabled(s, step) &&
    ((step.CrashWorker? && (s.workers[step.w].Claimed? || s.workers[step.w].Scanning? || s.workers[step.w].Reporting?))
     || (step.Halt? && s.coordinators[step.c].hand.Some?))
  }

  /** The id that such a step takes out of the system. */
  function Dropped(s: System, step: Step): string
    requires Drops(s, step)
  {
    if step.Halt? then s.coordinators[step.c].hand.value.taskId
    else match s.workers[step.w]
      case Claimed(task) => task.id
      case Scanning(task) => task.id
      case Reporting(result) => result.taskId
      case _ => ""
  }

  lemma LossIsADrop(s: System, step: Step, x: string)
    ensures Lost(s, step, x) == if Drops(s, step) && Dropped(s, step) == x then 1 else 0
  {
  }

  /** No step of the run drops anything: an idle worker may leave, and a coordinator stop with empty hands. */
  ghost predicate DropFree(s: System, steps: seq<Step>) {
    forall i :: 0 <= i < |steps| ==> !Drops(Run(s, steps[..i]), steps[i])
  }

  predicate IdPlaced(s: System, c: nat, i: nat) {
    c < |s.coordinators| && Copies(s, TaskId(s.coordinators[c].batch, i)) == 1
  }

  /** Every issued id is in exactly one place. */
  ghost predicate Placed(s: System) {
    forall c: nat, i: nat :: c < |s.coordinators| && i < s.coordinators[c].pushed ==> IdPlaced(s, c, i)
  }

  /** An id issued before: a step leaves it where it is, or moves it, or drops it for good. */
  lemma StepKeepsOldId(s: System, step: Step, c: nat, i: nat)
    requires Inv(s) && c < |s.coordinators| && i < s.coordinators[c].pushed
    ensures
      var x := TaskId(s.coordinators[c].batch, i);
      Copies(Next(s, step), x) == if Drops(s, step) && Dropped(s, step) == x then 0 else Copies(s, x)
  {
    var x := TaskId(s.coordinators[c].batch, i);
    StepConservesIds(s, step, x);
    LossIsADrop(s, step, x);
    StepAddsNoOldId(s, step, c, i);
    assert Copies(s, x) <= 1;
    hide Copies, TaskId, Next, Inv, Lost, Added, Drops, Dropped;
  }

  lemma StepAddsNoOldId(s: System, step: Step, c: nat, i: nat)
    requires Inv(s) && c < |s.coordinators| && i < s.coordinators[c].pushed
    ensures Added(s, step, TaskId(s.coordinators[c].batch, i)) == 0
  {
    hide TaskId, Unique, AllIssued, AllConsistent;
    var cs := s.coordinators;
    if step.PushTask? && Enabled(s, step) && TaskId(cs[step.c].batch, cs[step.c].pushed) == TaskId(cs[c].batch, i) {
      TaskIdInjective(cs[step.c].batch, cs[step.c].pushed, cs[c].batch, i);
    }
  }

  lemma StepPlacesNewId(s: System, c: nat)
    requires Inv(s) && Enabled(s, PushTask(c))
    ensures Copies(Next(s, PushTask(c)), TaskId(s.coordinators[c].batch, s.coordinators[c].pushed)) == 1
  {
    StepConservesIds(s, PushTask(c), TaskId(s.coordinators[c].batch, s.coordinators[c].pushed));
    NextIdIsFresh(s, c);
    hide TaskId, Copies, Next;
  }

  lemma OnlyPushTaskIssues(s: System, step: Step, c: nat)
    requires c < |s.coordinators|
    ensures
      var cs := Next(s, step).coordinators;
      && |cs| == |s.coordinators| && cs[c].batch == s.coordinators[c].batch
      && (cs[c].pushed == s.coordinators[c].pushed
          || (step == PushTask(c) && Enabled(s, step) && cs[c].pushed == s.coordinators[c].pushed + 1))
  {
  }

  predicate DropsId(s: System, step: Step, c: nat, i: nat) {
    c < |s.coordinators| && Drops(s, step) && Dropped(s, step) == TaskId(s.coordinators[c].batch, i)
  }

  lemma DroppedWasIssued(s: System, step: Step) returns (c: nat, i: nat)
    requires Inv(s) && Drops(s, step)
    ensures c < |s.coordinators| && i < s.coordinators[c].pushed && DropsId(s, step, c, i)
  {
    hide TaskId, Unique, AllConsistent;
    var cs := s.coordinators;
    var t: Task;
    if step.Halt? {
      t := cs[step.c].hand.value.Ticket();
      assert CoordinatorIssued(cs, cs[step.c]);
    } else {
      t := match s.workers[step.w]
        case Claimed(task) => task
        case Scanning(task) => task
        case Reporting(result) => result.Ticket()
        case _ => Task("", "", "");
      assert WorkerIssued(cs, s.workers[step.w]);
    }
    var owner, index :| 0 <= owner < |cs| && IssuedBy(cs[owner], index, t);
    c, i := owner, index;
  }

  lemma StepPlacesId(s: System, step: Step, c: nat, i: nat)
    requires Inv(s) && c < |s.coordinators| && i < Next(s, step).coordinators[c].pushed
    ensures IdPlaced(Next(s, step), c, i) <==>
      i >= s.coordinators[c].pushed || (IdPlaced(s, c, i) && !DropsId(s, step, c, i))
  {
    hide Next, Copies, TaskId, Inv, Enabled, Drops, Dropped;
    OnlyPushTaskIssues(s, step, c);
    if i < s.coordinators[c].pushed {
      StepKeepsOldId(s, step, c, i);
    } else {
      StepPlacesNewId(s, c);
    }
  }

  lemma NothingDropped(s: System, step: Step)
    ensures !Drops(s, step) ==> forall c: nat, i: nat :: !DropsId(s, step, c, i)
  {
    hide Drops, Dropped, TaskId;
  }

  /** One step keeps every issued id in place exactly if it drops none. */
  lemma StepKeepsPlaced(s: System, step: Step)
    requires Inv(s)
    ensures Placed(Next(s, step)) <==> Placed(s) && !Drops(s, step)
  {
    hide Next, Inv, IdPlaced, Drops, Dropped, DropsId, Enabled, Apply, TaskId, Copies;
    var s' := Next(s, step);
    NothingDropped(s, step);
    StepGrows(s, step);
    forall c: nat, i: nat | c < |s.coordinators| && i < s'.coordinators[c].pushed
      ensures IdPlaced(s', c, i) <==> i >= s.coordinators[c].pushed || (IdPlaced(s, c, i) && !DropsId(s, step, c, i))
    {
      StepPlacesId(s, step, c, i);
    }
    if Drops(s, step) {
      var c, i := DroppedWasIssued(s, step);
      assert !IdPlaced(s', c, i);
    }
  }

  /** A task is lost exactly when some step drops it: without drops each issued id is in exactly one place. */
  lemma {:induction false} NothingLostIff(s: System, steps: seq<Step>)
    requires Initial(s) && DistinctBatches(s.coordinators)
    ensures Placed(Run(s, steps)) <==> DropFree(s, steps)
  {
    if steps != [] {
      var front, step := steps[..|steps| - 1], steps[|steps| - 1];
      NothingLostIff(s, front);
      InvAlways(s, front);
      RunLast(s, steps);
      DropFreeLast(s, steps);
      hide *;
      StepKeepsPlaced(Run(s, front), step);
    }
  }

  lemma DropFreeLast(s: System, steps: seq<Step>)
    requires steps != []
    ensures
      var front, step := steps[..|steps| - 1], steps[|steps| - 1];
      DropFree(s, steps) <==> DropFree(s, front) && !Drops(Run(s, front), step)
  {
    hide Run, Drops;
    var front := steps[..|steps| - 1];
    assert forall i :: 0 <= i < |front| ==> front[..i] == steps[..i] && front[i] == steps[i];
    assert steps[..|front|] == front;
  }

  lemma RunLast(s: System, steps: seq<Step>)
    requires steps != []
    ensures Run(s, steps) == Next(Run(s, steps[..|steps| - 1]), steps[|steps| - 1])
  {
  }

  predicate Drained(s: System) {
    && s.tasks == [] && s.results == []
    && (forall w :: 0 <= w < |s.workers| ==> s.workers[w].Polling? || s.workers[w].Gone?)
    && (forall c :: 0 <= c < |s.coordinators| ==> s.coordinators[c].hand.None?)
  }

  lemma ConsumerExists(s: System, x: string) returns (d: nat, j: nat)
    requires Drained(s) && Copies(s, x) == 1
    ensures d < |s.coordinators| && j < |s.coordinators[d].consumed| && s.coordinators[d].consumed[j].taskId == x
  {
    SumZero(s.workers, InWorker(x));
    if forall d :: 0 <= d < |s.coordinators| ==> InCoordinator(x)(s.coordinators[d]) == 0 {
      SumZero(s.coordinators, InCoordinator(x));
      assert false;
    }
    d :| 0 <= d < |s.coordinators| && InCoordinator(x)(s.coordinators[d]) != 0;
    var k := s.coordinators[d];
    if forall j :: 0 <= j < |k.consumed| ==> InResult(x)(k.consumed[j]) == 0 {
      SumZero(k.consumed, InResult(x));
      assert false;
    }
    j :| 0 <= j < |k.consumed| && InResult(x)(k.consumed[j]) != 0;
  }

  lemma DrainedIdIsConsumed(s: System, c: nat, i: nat)
    requires Inv(s) && Drained(s) && c < |s.coordinators|
    requires Copies(s, TaskId(s.coordinators[c].batch, i)) == 1
    ensures TaskId(s.coordinators[c].batch, i) in Elements(IdsOf(s.coordinators[c].consumed))
  {
    var k := s.coordinators[c];
    var d, j := ConsumerExists(s, TaskId(k.batch, i));
    hide TaskId, Copies, Drained, Unique, AllIssued, AllConsistent;
    var i' := ConsumedAreOwnTasks(s, d, j);
    assert s.coordinators[d].consumed[j].Ticket().id == TaskId(s.coordinators[d].batch, i');
    TaskIdInjective(k.batch, i, s.coordinators[d].batch, i');
    assert d == c;
    assert IdsOf(k.consumed)[j] == TaskId(k.batch, i);
  }

  /**
   A run without drops that has emptied both lists and all hands has completed every coordinator that enqueued
   its batch.
   */
  lemma DrainedMeansComplete(s: System, steps: seq<Step>, c: nat)
    requires Initial(s) && DistinctBatches(s.coordinators) && DropFree(s, steps)
    requires Drained(Run(s, steps)) && c < |Run(s, steps).coordinators|
    requires Run(s, steps).coordinators[c].marked == |Run(s, steps).coordinators[c].targets|
    ensures Progress(Run(s, steps).coordinators[c]) == |Run(s, steps).coordinators[c].targets|
  {
    var s' := Run(s, steps);
    InvAlways(s, steps);
    NothingLostIff(s, steps);
    ProgressIsExact(s, steps, c);
    AllConsumed(s', c);
  }

  lemma AllConsumed(s: System, c: nat)
    requires Inv(s) && Placed(s) && Drained(s) && c < |s.coordinators|
    requires s.coordinators[c].marked == |s.coordinators[c].targets| && ProgressExact(s.coordinators[c])
    ensures Progress(s.coordinators[c]) == |s.coordinators[c].targets|
  {
    var k := s.coordinators[c];
    assert Consistent(k);
    hide Inv, Drained, Copies, TaskId, Elements, IdsOf, ProgressExact, Progress;
    forall i | 0 <= i < |k.targets|
      ensures TaskId(k.batch, i) in Elements(IdsOf(k.consumed))
    {
      assert IdPlaced(s, c, i);
      DrainedIdIsConsumed(s, c, i);
    }
    FullWhenAllConsumed(k);
  }

  lemma FullWhenAllConsumed(k: Coordinator)
    requires ProgressExact(k) && forall i :: 0 <= i < |k.targets| ==> TaskId(k.batch, i) in Elements(IdsOf(k.consumed))
    ensures Progress(k) == |k.targets|
  {
    hide TaskId, Elements, IdsOf, Progress;
    assert BatchIds(k.batch, |k.targets|) <= Elements(IdsOf(k.consumed));
  }

  lemma SharedBatchDuplicates(s: System, c: nat, d: nat)
    requires Initial(s) && c < d < |s.coordinators|
    requires s.coordinators[c].batch == s.coordinators[d].batch
    requires s.coordinators[c].targets != [] && s.coordinators[d].targets != []
    ensures !Unique(Run(s, [PushTask(c), PushTask(d)]))
  {
    var x := TaskId(s.coordinators[c].batch, 0);
    var one, both := [PushTask(c)], [PushTask(c), PushTask(d)];
    assert both[..1] == one && one[..0] == [];
    var first := Apply(s, PushTask(c));
    assert Run(s, one) == first;
    var second := Apply(first, PushTask(d));
    assert Run(s, both) == second;
    assert second.tasks[0].id == x && second.tasks[1].id == x;
    SumPair(second.tasks, 0, 1, InTask(x));
    assert Copies(second, x) >= 2;
  }

  /**
   Batch ids are millisecond timestamps. They must differ: as soon as two coordinators share one,
   some run holds the same task id twice.
   */
  lemma DistinctBatchesAreNeeded(s: System)
    requires Initial(s)
    requires forall c :: 0 <= c < |s.coordinators| ==> s.coordinators[c].targets != []
    ensures (forall steps :: Unique(Run(s, steps))) <==> DistinctBatches(s.coordinators)
  {
    if DistinctBatches(s.coordinators) {
      forall steps
        ensures Unique(Run(s, steps))
      {
        InvAlways(s, steps);
      }
    } else {
      var c, d :| 0 <= c < d < |s.coordinators| && s.coordinators[c].batch == s.coordinators[d].batch;
      SharedBatchDuplicates(s, c, d);
    }
  }
}
