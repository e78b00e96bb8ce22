/**
 The worker and coordinator loops as they run against the shared lists, one call at a time. What the
 other processes do in between is an input.
 */
module DistributedBroker {
  import opened Collections
  import opened Options
  import opened DistributedScan

  /** Tasks `from` to the end of a batch, in list order. */
  function BatchTasks(batch: string, targets: seq<string>, from: nat): seq<Task>
    requires from <= |targets|
    decreases |targets| - from
  {
    if from == |targets| then [] else [MakeTask(batch, targets, from)] + BatchTasks(batch, targets, from + 1)
  }

  lemma {:induction false} BatchTasksAre(batch: string, targets: seq<string>, from: nat)
    requires from <= |targets|
    ensures |BatchTasks(batch, targets, from)| == |targets| - from
    ensures forall i :: 0 <= i < |targets| - from ==>
      BatchTasks(batch, targets, from)[i] == Task(TaskId(batch, from + i), batch, targets[from + i])
    decreases |targets| - from
  {
    hide TaskId;
    if from < |targets| {
      BatchTasksAre(batch, targets, from + 1);
      var (all, rest) := (BatchTasks(batch, targets, from), BatchTasks(batch, targets, from + 1));
      forall i | 0 <= i < |all|
        ensures all[i] == Task(TaskId(batch, from + i), batch, targets[from + i])
      {
        if i > 0 {
          assert all[i] == rest[i - 1];
        }
      }
    }
  }

  // ----- the other processes -----

  /**
   What the others do between two commands of this coordinator: tasks and results they append, how many
   they take off either list, and the status keys they write.
   */
  datatype Others = Others(tasks: seq<Task>, tasksTaken: nat, results: seq<TaskResult>, resultsTaken: nat,
                           written: map<string, TaskStatus>)

  /** They act before the coordinator's pop, and again before it does something with what it popped. */
  datatype Turn = Turn(before: Others, between: Others)

  function TakenOf<T>(list: seq<T>, taken: nat): seq<T> {
    list[..if taken <= |list| then taken else |list|]
  }

  /** First in, first out: however appends and pops are mixed, the heads are gone and the appended are last. */
  function LeftOf<T>(list: seq<T>, taken: nat): seq<T> {
    list[if taken <= |list| then taken else |list|..]
  }

  function Copies(list: seq<TaskResult>, r: TaskResult): nat {
    multiset(list)[r]
  }

  lemma CopiesOfSum(a: seq<TaskResult>, b: seq<TaskResult>, r: TaskResult)
    ensures Copies(a + b, r) == Copies(a, r) + Copies(b, r)
  {
  }

  lemma TakenAndLeft(list: seq<TaskResult>, more: seq<TaskResult>, taken: nat, r: TaskResult)
    ensures Copies(TakenOf(list + more, taken), r) + Copies(LeftOf(list + more, taken), r)
      == Copies(list, r) + Copies(more, r)
  {
    var all := list + more;
    CopiesOfSum(list, more, r);
    CopiesOfSum(TakenOf(all, taken), LeftOf(all, taken), r);
    hide Copies;
    assert TakenOf(all, taken) + LeftOf(all, taken) == all;
  }

  function ResultsAfter(results: seq<TaskResult>, others: Others): seq<TaskResult> {
    LeftOf(results + others.results, others.resultsTaken)
  }

  function ResultsTaken(results: seq<TaskResult>, others: Others): seq<TaskResult> {
    TakenOf(results + others.results, others.resultsTaken)
  }

  function TasksAfter(tasks: seq<Task>, others: Others): seq<Task> {
    LeftOf(tasks + others.tasks, others.tasksTaken)
  }

  /** The tasks after `n` turns. */
  function TasksAfterTurns(tasks: seq<Task>, turns: seq<Turn>, n: nat): seq<Task>
    requires n <= |turns|
  {
    if n == 0 then tasks
    else TasksAfter(TasksAfter(TasksAfterTurns(tasks, turns, n - 1), turns[n - 1].before), turns[n - 1].between)
  }

  /** The status keys after `n` turns: a coordinator writes none once its tasks are pushed. */
  function StatusAfterTurns(status: map<string, TaskStatus>, turns: seq<Turn>, n: nat): map<string, TaskStatus>
    requires n <= |turns|
  {
    if n == 0 then status
    else StatusAfterTurns(status, turns, n - 1) + turns[n - 1].before.written + turns[n - 1].between.written
  }

  lemma NoTurnYet(tasks: seq<Task>, status: map<string, TaskStatus>, turns: seq<Turn>)
    ensures TasksAfterTurns(tasks, turns, 0) == tasks && StatusAfterTurns(status, turns, 0) == status
  {
  }

  lemma OneTurnMore(tasks: seq<Task>, status: map<string, TaskStatus>, turns: seq<Turn>, n: nat)
    requires n < |turns|
    ensures TasksAfterTurns(tasks, turns, n + 1)
         == TasksAfter(TasksAfter(TasksAfterTurns(tasks, turns, n), turns[n].before), turns[n].between)
    ensures StatusAfterTurns(status, turns, n + 1)
         == StatusAfterTurns(status, turns, n) + turns[n].before.written + turns[n].between.written
  {
    hide TasksAfter;
  }

  // ----- the coordinator's loop as a function -----

  /** One round: take the head; keep it if it is ours, otherwise append it again. */
  function Round(k: Coordinator, queue: seq<TaskResult>, between: Others): (Coordinator, seq<TaskResult>) {
    if queue == [] then (k, ResultsAfter(queue, between))
    else if queue[0].batch != k.batch then (k, ResultsAfter(queue[1..], between) + [queue[0]])
    else (Absorb(k, queue[0]), ResultsAfter(queue[1..], between))
  }

  /** What the others take off the list of results during one turn. */
  function TurnTakes(queue: seq<TaskResult>, turn: Turn): seq<TaskResult> {
    ResultsTaken(queue, turn.before) + ResultsTaken(Rest(ResultsAfter(queue, turn.before)), turn.between)
  }

  /** How a loop ends: the coordinator, the list, and the turns not reached. */
  datatype Collected = Collected(k: Coordinator, queue: seq<TaskResult>, later: seq<Turn>)

  /** The loop: in round `i` the others act as `turns[i]` says; the deadline passes when `turns` runs out. */
  function CollectLoop(k: Coordinator, queue: seq<TaskResult>, turns: seq<Turn>): (c: Collected)
    ensures |c.later| <= |turns|
    decreases |turns|
  {
    if Progress(k) >= |k.targets| || turns == [] then Collected(k, queue, turns)
    else
      var (k', queue') := Round(k, ResultsAfter(queue, turns[0].before), turns[0].between);
      CollectLoop(k', queue', turns[1..])
  }

  /** What the others take off the list of results while the loop runs. */
  function LoopTakes(k: Coordinator, queue: seq<TaskResult>, turns: seq<Turn>): seq<TaskResult>
    decreases |turns|
  {
    if Progress(k) >= |k.targets| || turns == [] then []
    else
      var (k', queue') := Round(k, ResultsAfter(queue, turns[0].before), turns[0].between);
      TurnTakes(queue, turns[0]) + LoopTakes(k', queue', turns[1..])
  }

  function TurnBrings(turn: Turn): seq<TaskResult> {
    turn.before.results + turn.between.results
  }

  function Arrivals(turns: seq<Turn>): seq<TaskResult> {
    if turns == [] then [] else TurnBrings(turns[0]) + Arrivals(turns[1..])
  }

  function Rest(queue: seq<TaskResult>): seq<TaskResult> {
    if queue == [] then [] else queue[1..]
  }

  lemma RoundMoves(k: Coordinator, queue: seq<TaskResult>, between: Others, r: TaskResult)
    ensures
      var (k', queue') := Round(k, queue, between);
      Copies(queue', r) + Copies(k'.consumed, r) + Copies(ResultsTaken(Rest(queue), between), r)
      == Copies(queue, r) + Copies(k.consumed, r) + Copies(between.results, r)
  {
    TakenAndLeft(Rest(queue), between.results, between.resultsTaken, r);
    if queue != [] {
      var head := [queue[0]];
      assert queue == head + Rest(queue);
      CopiesOfSum(head, Rest(queue), r);
      CopiesOfSum(ResultsAfter(Rest(queue), between), head, r);
      CopiesOfSum(k.consumed, head, r);
      assert Absorb(k, queue[0]).consumed == k.consumed + head;
    }
    hide Copies, LeftOf, TakenOf, Absorb;
  }

  lemma TurnMoves(k: Coordinator, queue: seq<TaskResult>, turn: Turn, r: TaskResult)
    ensures
      var (k', queue') := Round(k, ResultsAfter(queue, turn.before), turn.between);
      Copies(queue', r) + Copies(k'.consumed, r) + Copies(TurnTakes(queue, turn), r)
      == Copies(queue, r) + Copies(k.consumed, r) + Copies(TurnBrings(turn), r)
  {
    var list := ResultsAfter(queue, turn.before);
    TakenAndLeft(queue, turn.before.results, turn.before.resultsTaken, r);
    RoundMoves(k, list, turn.between, r);
    CopiesOfSum(ResultsTaken(queue, turn.before), ResultsTaken(Rest(list), turn.between), r);
    CopiesOfSum(turn.before.results, turn.between.results, r);
    hide Copies, LeftOf, TakenOf, Round;
  }

  /** Conservation over the whole loop: every result is still queued, yet to arrive, consumed, or with somebody else. */
  lemma {:induction false} CollectLoopConserves(k: Coordinator, queue: seq<TaskResult>, turns: seq<Turn>, r: TaskResult)
    ensures
      var c := CollectLoop(k, queue, turns);
      Copies(c.queue, r) + Copies(Arrivals(c.later), r) + Copies(c.k.consumed, r)
        + Copies(LoopTakes(k, queue, turns), r)
      == Copies(queue, r) + Copies(Arrivals(turns), r) + Copies(k.consumed, r)
    decreases |turns|
  {
    if Progress(k) < |k.targets| && turns != [] {
      var (k', queue') := Round(k, ResultsAfter(queue, turns[0].before), turns[0].between);
      CollectLoopConserves(k', queue', turns[1..], r);
      TurnMoves(k, queue, turns[0], r);
      CopiesOfSum(TurnBrings(turns[0]), Arrivals(turns[1..]), r);
      CopiesOfSum(TurnTakes(queue, turns[0]), LoopTakes(k', queue', turns[1..]), r);
      hide Copies, Round, ResultsAfter, TurnTakes, TurnBrings;
    }
  }

  /** Only results of the coordinator's own batch are taken out of circulation by it. */
  lemma {:induction false} CollectLoopTakesOwn(k: Coordinator, queue: seq<TaskResult>, turns: seq<Turn>)
    ensures
      var k' := CollectLoop(k, queue, turns).k;
      && k'.batch == k.batch && k'.targets == k.targets && k.consumed <= k'.consumed
      && (forall j :: |k.consumed| <= j < |k'.consumed| ==> k'.consumed[j].batch == k.batch)
    decreases |turns|
  {
    if Progress(k) < |k.targets| && turns != [] {
      hide ResultsAfter;
      var (k', queue') := Round(k, ResultsAfter(queue, turns[0].before), turns[0].between);
      CollectLoopTakesOwn(k', queue', turns[1..]);
    }
  }

  predicate NobodyTakes(turn: Turn) {
    turn.before.resultsTaken == 0 && turn.between.resultsTaken == 0
  }

  /** If nobody else takes, what was behind the head moves up one place. */
  lemma QuietRound(k: Coordinator, queue: seq<TaskResult>, turn: Turn)
    requires queue != [] && NobodyTakes(turn)
    ensures
      var (k', queue') := Round(k, ResultsAfter(queue, turn.before), turn.between);
      queue[1..] <= queue' && k' == if queue[0].batch == k.batch then Absorb(k, queue[0]) else k
  {
    hide Absorb;
  }

  /**
   With `p` foreign results in front of it and nobody else popping, the coordinator's own result at
   position `p` is received after exactly `p` re-pushes, whatever the others append meanwhile.
   */
  lemma {:induction false} ReceivedAfterExactlyPRePushes(k: Coordinator, queue: seq<TaskResult>, p: nat,
      turns: seq<Turn>)
    requires Progress(k) < |k.targets| && p < |queue| && p < |turns|
    requires forall j :: 0 <= j <= p ==> NobodyTakes(turns[j])
    requires forall j :: 0 <= j < p ==> queue[j].batch != k.batch
    requires queue[p].batch == k.batch
    ensures CollectLoop(k, queue, turns[..p]).k == k
    ensures queue[p..] <= CollectLoop(k, queue, turns[..p]).queue
    ensures CollectLoop(k, queue, turns[..p + 1]).k == Absorb(k, queue[p])
    decreases p
  {
    hide *;
    var (k', queue') := Round(k, ResultsAfter(queue, turns[0].before), turns[0].between);
    assert NobodyTakes(turns[0]);
    QuietRound(k, queue, turns[0]);
    FirstRound(k, queue, turns, p + 1);
    if p == 0 {
      NoTurns(k, queue, turns[..0]);
      NoTurns(k', queue', turns[1..][..0]);
    } else {
      FirstRound(k, queue, turns, p);
      assert k' == k && queue[1..] <= queue';
      ReceivedAfterExactlyPRePushes(k, queue', p - 1, turns[1..]);
      assert queue[p..] <= queue'[p - 1..] by {
        assert queue[p..] == queue[1..][p - 1..];
      }
    }
  }

  lemma FirstRound(k: Coordinator, queue: seq<TaskResult>, turns: seq<Turn>, n: nat)
    requires Progress(k) < |k.targets| && 0 < n <= |turns|
    ensures
      var (k', queue') := Round(k, ResultsAfter(queue, turns[0].before), turns[0].between);
      var (c, rest) := (CollectLoop(k, queue, turns[..n]), CollectLoop(k', queue', turns[1..][..n - 1]));
      c.k == rest.k && c.queue == rest.queue
  {
    assert turns[..n][0] == turns[0] && turns[..n][1..] == turns[1..][..n - 1];
    hide Round, ResultsAfter;
  }

  lemma NoTurns(k: Coordinator, queue: seq<TaskResult>, turns: seq<Turn>)
    requires turns == []
    ensures CollectLoop(k, queue, turns).k == k && CollectLoop(k, queue, turns).queue == queue
  {
  }

  const NOBODY := Others([], 0, [], 0, map[])

  /** One round is two steps of the protocol. */
  lemma RoundIsTwoSteps(s: System, c: nat)
    requires c < |s.coordinators| && s.coordinators[c].hand.None? && Collecting(s.coordinators[c]) && s.results != []
    ensures
      var k := s.coordinators[c];
      var own := s.results[0].batch == k.batch;
      var (k', queue') := Round(k, s.results, NOBODY);
      Next(Next(s, PopResult(c)), if own then Collect(c) else PushBack(c))
      == s.(results := queue', coordinators := s.coordinators[c := k'])
  {
    var k := s.coordinators[c];
    var popped := Next(s, PopResult(c));
    assert popped.coordinators[c] == k.(hand := Some(s.results[0]));
    assert k.(hand := Some(s.results[0])).(hand := None) == k;
    assert popped.coordinators[c := Round(k, s.results, NOBODY).0]
      == s.coordinators[c := Round(k, s.results, NOBODY).0];
  }

  // ----- what the coordinator has at the end -----

  /** Consumed result `j` is that of a finished scan. */
  predicate IsScanned(consumed: seq<TaskResult>, j: int) {
    0 <= j < |consumed| && consumed[j].status == Done && consumed[j].report.Some?
  }

  predicate Counts(k: Coordinator) {
    k.successful == Reports(k.consumed) && k.failures == FailureMap(k.consumed)
  }

  lemma AbsorbCounts(k: Coordinator, r: TaskResult)
    requires Counts(k)
    ensures Counts(Absorb(k, r))
  {
    assert Absorb(k, r).consumed[..|k.consumed|] == k.consumed;
  }

  lemma {:induction false} CollectLoopCounts(k: Coordinator, queue: seq<TaskResult>, turns: seq<Turn>)
    requires Counts(k)
    ensures Counts(CollectLoop(k, queue, turns).k)
    decreases |turns|
  {
    if Progress(k) < |k.targets| && turns != [] {
      var list := ResultsAfter(queue, turns[0].before);
      var (k', queue') := Round(k, list, turns[0].between);
      if list != [] {
        AbsorbCounts(k, list[0]);
      }
      hide ResultsAfter, Counts, Absorb;
      CollectLoopCounts(k', queue', turns[1..]);
    }
  }

  lemma {:induction false} ReportsCount(consumed: seq<TaskResult>)
    ensures Reports(consumed) != [] <==> exists j :: IsScanned(consumed, j)
    ensures Reports(consumed) == [] ==> FailureMap(consumed).Keys == Elements(IdsOf(consumed))
  {
    if consumed != [] {
      var (front, last) := (consumed[..|consumed| - 1], consumed[|consumed| - 1]);
      ReportsCount(front);
      assert forall j :: IsScanned(front, j) ==> IsScanned(consumed, j);
      assert IsScanned(consumed, |front|) <==> Successful(last);
      assert forall j :: IsScanned(consumed, j) && j < |front| ==> IsScanned(front, j);
      assert IdsOf(consumed) == IdsOf(front) + [last.taskId];
    } else {
      assert forall j :: !IsScanned(consumed, j);
    }
  }

  lemma WhatCounts(k: Coordinator)
    requires Counts(k)
    ensures k.successful == Reports(k.consumed)
    ensures k.successful != [] <==> exists j :: IsScanned(k.consumed, j)
    ensures k.successful == [] ==> |k.failures| == |Elements(IdsOf(k.consumed))|
  {
    ReportsCount(k.consumed);
    hide Reports, FailureMap, IsScanned;
    assert |k.failures| == |k.failures.Keys|;
  }

  // ----- the loops themselves -----

  lemma LoopTurn(k: Coordinator, queue: seq<TaskResult>, turns: seq<Turn>, round: nat)
    requires Progress(k) < |k.targets| && round < |turns|
    ensures
      var (k', queue') := Round(k, ResultsAfter(queue, turns[round].before), turns[round].between);
      CollectLoop(k, queue, turns[round..]) == CollectLoop(k', queue', turns[round + 1..])
  {
    assert turns[round..][0] == turns[round] && turns[round..][1..] == turns[round + 1..];
    hide Round, ResultsAfter;
  }

  lemma LoopEnds(k: Coordinator, queue: seq<TaskResult>, turns: seq<Turn>)
    requires Progress(k) >= |k.targets| || turns == []
    ensures CollectLoop(k, queue, turns) == Collected(k, queue, turns)
  {
  }

  /** A coordinator whose tasks are all pushed and marked. */
  function NewCoordinator(batch: string, targets: seq<string>): Coordinator {
    Coordinator(batch, targets, |targets|, |targets|, None, [], map[], [], true)
  }

  function AllQueued(batch: string, targets: seq<string>): map<string, TaskStatus> {
    map x | x in BatchIds(batch, |targets|) :: Queued
  }

  lemma MarkedAll(before: map<string, TaskStatus>, after: map<string, TaskStatus>, batch: string, targets: seq<string>)
    requires after.Keys == before.Keys + BatchIds(batch, |targets|)
    requires forall x :: x in BatchIds(batch, |targets|) ==> after[x] == Queued
    requires forall x :: x in before && x !in BatchIds(batch, |targets|) ==> after[x] == before[x]
    ensures after == before + AllQueued(batch, targets)
  {
    hide BatchIds;
  }

  class Broker {
    var tasks: seq<Task>
    var results: seq<TaskResult>
    var status: map<string, TaskStatus>

    constructor ()
      ensures tasks == [] && results == [] && status == map[]
    {
      tasks, results, status := [], [], map[];
    }

    method SetTaskStatus(id: string, value: TaskStatus)
      modifies this`status
      ensures status == old(status)[id := value]
    {
      status := status[id := value];
    }

    method PopTask() returns (task: Option<Task>)
      modifies this`tasks
      ensures old(tasks) == [] ==> task == None && tasks == []
      ensures old(tasks) != [] ==> task == Some(old(tasks)[0]) && [old(tasks)[0]] + tasks == old(tasks)
    {
      if tasks == [] {
        return None;
      }
      task, tasks := Some(tasks[0]), tasks[1..];
    }

    method PopResult() returns (result: Option<TaskResult>)
      modifies this`results
      ensures old(results) == [] ==> result == None && results == []
      ensures old(results) != [] ==> result == Some(old(results)[0]) && [old(results)[0]] + results == old(results)
    {
      if results == [] {
        return None;
      }
      result, results := Some(results[0]), results[1..];
    }

    method PushResult(result: TaskResult)
      modifies this`results
      ensures results == old(results) + [result]
    {
      results := results + [result];
    }

    /** Pushes one task per target, in order, and marks each one Queued. */
    method EnqueueTargets(batch: string, targets: seq<string>)
      modifies this`tasks, this`status
      ensures tasks == old(tasks) + BatchTasks(batch, targets, 0)
      ensures |tasks| == |old(tasks)| + |targets|
      ensures forall i :: 0 <= i < |targets| ==> tasks[|old(tasks)| + i] == Task(TaskId(batch, i), batch, targets[i])
      ensures status == old(status) + AllQueued(batch, targets)
    {
      var index := 0;
      while index < |targets|
        invariant index <= |targets|
        invariant tasks + BatchTasks(batch, targets, index) == old(tasks) + BatchTasks(batch, targets, 0)
        invariant status.Keys == old(status).Keys + BatchIds(batch, index)
        invariant forall x :: x in BatchIds(batch, index) ==> status[x] == Queued
        invariant forall x :: x in old(status) && x !in BatchIds(batch, index) ==> status[x] == old(status)[x]
      {
        var task := MakeTask(batch, targets, index);
        assert BatchIds(batch, index + 1) == BatchIds(batch, index) + {task.id};
        assert tasks + BatchTasks(batch, targets, index) == (tasks + [task]) + BatchTasks(batch, targets, index + 1);
        tasks := tasks + [task];
        SetTaskStatus(task.id, Queued);
        index := index + 1;
      }
      MarkedAll(old(status), status, batch, targets);
      BatchTasksAre(batch, targets, 0);
    }

    /** One turn of a worker: at most one entry moves from the first list to the second, as a result. */
    method RunWorkerOnce(worker: nat, outcome: Outcome) returns (ran: bool)
      modifies this
      ensures ran == (old(tasks) != [])
      ensures !ran ==> tasks == old(tasks) && results == old(results) && status == old(status)
      ensures ran ==> |results| == |old(results)| + 1
      ensures ran ==>
                var (task, r) := (old(tasks)[0], results[|results| - 1]);
                && [task] + tasks == old(tasks)
                && results == old(results) + [r] && Tells(r, task, worker, outcome)
                && status == old(status)[task.id := if outcome.Scanned? then Done else Failed]
    {
      var task := PopTask();
      if task == None {
        return false;
      }
      SetTaskStatus(task.value.id, TaskStatus.Running);
      var result := MakeResult(task.value, worker, outcome);
      SetTaskStatus(result.taskId, result.status);
      PushResult(result);
      return true;
    }

    /** The other processes get a turn. */
    method LetOthers(others: Others)
      modifies this
      ensures tasks == TasksAfter(old(tasks), others)
      ensures results == ResultsAfter(old(results), others)
      ensures status == old(status) + others.written
    {
      tasks := LeftOf(tasks + others.tasks, others.tasksTaken);
      results := LeftOf(results + others.results, others.resultsTaken);
      status := status + others.written;
    }

    /** One round of the coordinator: pop a result, and keep it or push it back. */
    method CollectOnce(ghost k: Coordinator, batch: string, successful: seq<Report>, failures: map<string, string>,
        turn: Turn)
      returns (ghost k': Coordinator, successful': seq<Report>, failures': map<string, string>)
      requires k.batch == batch && k.successful == successful && k.failures == failures
      modifies this
      ensures (k', results) == Round(k, ResultsAfter(old(results), turn.before), turn.between)
      ensures k'.batch == batch && k'.targets == k.targets && k'.successful == successful' && k'.failures == failures'
      ensures tasks == TasksAfter(TasksAfter(old(tasks), turn.before), turn.between)
      ensures status == old(status) + turn.before.written + turn.between.written
    {
      hide ResultsAfter, TasksAfter;
      k', successful', failures' := k, successful, failures;
      LetOthers(turn.before);
      var popped := PopResult();
      LetOthers(turn.between);
      if popped.Some? {
        var result := popped.value;
        if result.batch != batch {
          PushResult(result);
        } else if result.status == Done && result.report.Some? {
          successful' := successful + [result.report.value];
          k' := Absorb(k, result);
        } else {
          failures' := failures[result.taskId := ErrorText(result)];
          k' := Absorb(k, result);
        }
      }
    }

    /** The coordinator: collect own results until all targets are accounted for or the deadline passes. */
    method RunCoordinator(batch: string, targets: seq<string>, turns: seq<Turn>)
      returns (outcome: Result<seq<Report>, nat>, ghost rounds: nat)
      modifies this
      ensures rounds <= |turns|
      ensures
        var c := CollectLoop(NewCoordinator(batch, targets), old(results), turns);
        && rounds == |turns| - |c.later|
        && results == c.queue
        && (outcome.Ok? <==> exists j :: IsScanned(c.k.consumed, j))
        && (outcome.Ok? ==> outcome.value == Reports(c.k.consumed))
        && (outcome.Err? ==> outcome.error == |Elements(IdsOf(c.k.consumed))|)
      ensures tasks == TasksAfterTurns(old(tasks) + BatchTasks(batch, targets, 0), turns, rounds)
      ensures status == StatusAfterTurns(old(status) + AllQueued(batch, targets), turns, rounds)
    {
      EnqueueTargets(batch, targets);
      NoTurnYet(tasks, status, turns);
      ghost var (enqueued, marked) := (tasks, status);
      hide CollectLoop, Round, ResultsAfter, TasksAfter, TasksAfterTurns, StatusAfterTurns, BatchTasks, AllQueued;
      var successful: seq<Report> := [];
      var failures: map<string, string> := map[];
      var round := 0;
      ghost var k := NewCoordinator(batch, targets);
      ghost var end := CollectLoop(k, results, turns);
      assert turns[0..] == turns;
      while |successful| + |failures| < |targets| && round < |turns|
        invariant round <= |turns|
        invariant k.batch == batch && k.targets == targets && k.successful == successful && k.failures == failures
        invariant CollectLoop(k, results, turns[round..]) == end
        invariant tasks == TasksAfterTurns(enqueued, turns, round) && status == StatusAfterTurns(marked, turns, round)
        decreases |turns| - round
      {
        LoopTurn(k, results, turns, round);
        OneTurnMore(enqueued, marked, turns, round);
        k, successful, failures := CollectOnce(k, batch, successful, failures, turns[round]);
        round := round + 1;
      }
      LoopEnds(k, results, turns[round..]);
      CollectLoopCounts(NewCoordinator(batch, targets), old(results), turns);
      WhatCounts(k);
      rounds := round;
      outcome := if successful == [] then Err(|failures|) else Ok(successful);
    }
  }
}
