/** Histories at whose end the store does otherwise than one may expect. */
module Deviations {
  import opened Outcomes
  import opened Tables
  import opened Budgets
  import opened RunOps
  import opened WorkOps
  import opened TaskOps
  import opened Store
  import opened Fencing
  import opened ToolRecovery
  import Scheduler
  import Continuations
  import Ticks

  /** A Run with its goal, its coordinator and its budget, and two executors. */
  datatype Cast = Cast(run: RunId, goal: GoalId, agent: AgentId, budget: Budget, first: ExecutorId, second: ExecutorId)

  lemma PlaySnoc(db: Database, history: seq<Entry>, e: Entry)
    ensures Play(db, history + [e]) == Next(Play(db, history), e)
  {
    hide Next;
    assert (history + [e])[..|history|] == history;
  }

  // ----- A Run begins, is leased, and is taken over -----

  function Opening(c: Cast): Entry
  {
    Entry(RunPart(DoCreateRun(c.run, c.goal, c.agent, "1", c.budget, map[])), 0)
  }

  function Leasing(c: Cast): Entry { Entry(RunPart(DoAcquireLease(c.run, c.first, 10)), 0) }

  function TakingOver(c: Cast): Entry { Entry(RunPart(DoAcquireLease(c.run, c.second, 10)), 20) }

  function FirstFence(c: Cast): Fence { Fence(c.run, c.first, 1) }

  function SecondFence(c: Cast): Fence { Fence(c.run, c.second, 2) }

  function Leased(c: Cast): seq<Entry> { [Opening(c)] + [Leasing(c)] }

  predicate UnderWay(db: Database, c: Cast)
  {
    && c.run in db.runs && db.runs[c.run].status == Running && db.runs[c.run].currentGoal == c.goal
    && db.runs[c.run].budget == c.budget && db.runs[c.run].usage == NoUsage()
    && c.goal in db.goals && db.goals[c.goal].runId == c.run && db.goals[c.goal].status == GoalActive
    && db.goals[c.goal].version == "1"
    && c.agent in db.agents && db.agents[c.agent] == Agent(c.run, AgentRunning, None)
    && db.actions == map[c.run := Action(0, None, 0)]
    && db.runs.Keys == {c.run} && db.goals.Keys == {c.goal} && db.agents.Keys == {c.agent}
    && db.tasks == map[] && db.toolCalls == map[]
  }

  predicate Begun(run: Run, c: Cast, status: RunStatus)
  {
    run.status == status && run.currentGoal == c.goal && run.budget == c.budget && run.usage == NoUsage()
  }

  lemma Appended(db: Database, c: Cast, kind: EventKind, status: RunStatus)
    requires c.run in db.runs && Begun(db.runs[c.run], c, status)
    ensures var next := AppendEvent(db, c.run, kind, None);
            c.run in next.runs && Begun(next.runs[c.run], c, status) && next.runs.Keys == db.runs.Keys
  {
    hide NoUsage;
  }

  lemma QueuedRuns(db: Database, c: Cast)
    requires c.run in db.runs && Begun(db.runs[c.run], c, Queued)
    ensures var next := MoveRun(db, c.run, Running);
            next.Ok? && Begun(next.value.runs[c.run], c, Running) && next.value.runs.Keys == db.runs.Keys
  {
    hide AppendEvent, NoUsage;
    var run := db.runs[c.run];
    var moved := db.(runs := db.runs[c.run := run.(status := Running, revision := run.revision + 1)]);
    Appended(moved, c, RunStatusChanged(Queued, Running), Running);
    hide Begun;
  }

  lemma RunStarts(db: Database, c: Cast)
    requires c.run in db.runs && Begun(db.runs[c.run], c, Running) && c.run !in db.actions
    requires c.goal in db.goals && db.goals[c.goal].status == GoalActive
    ensures var next := Started(db, c.run, c.agent, 0);
            && c.run in next.runs && Begun(next.runs[c.run], c, Running) && next.runs.Keys == db.runs.Keys
            && next.agents == db.agents[c.agent := Agent(c.run, AgentRunning, None)]
            && next.actions == db.actions[c.run := Action(0, None, 0)]
  {
    hide AppendEvent, NoUsage;
    var started := db.(agents := db.agents[c.agent := Agent(c.run, AgentRunning, None)]);
    Appended(started, c, AgentStatusChanged, Running);
  }

  lemma OpeningIs(db: Database, c: Cast)
    ensures Step(db, Opening(c)) == CreateRun(db, c.run, c.goal, c.agent, "1", c.budget, map[], 0)
  {
    hide CreateRun;
  }

  lemma OpeningSucceeds(db: Database, c: Cast)
    requires c.run !in db.runs && c.goal !in db.goals && c.agent !in db.agents && c.run !in db.actions
    ensures var next := Next(db, Opening(c));
            && c.run in next.runs && Begun(next.runs[c.run], c, Running) && next.runs.Keys == db.runs.Keys + {c.run}
            && next.goals == db.goals[c.goal := Goal(c.run, GoalActive, "1", 0)]
            && next.agents == db.agents[c.agent := Agent(c.run, AgentRunning, None)]
            && next.actions == db.actions[c.run := Action(0, None, 0)]
            && next == db.(runs := next.runs, goals := next.goals, agents := next.agents, events := next.events,
                           actions := next.actions, requirements := next.requirements)
  {
    hide AppendEvent, MoveRun, Started, NoUsage, Step, Opening;
    OpeningIs(db, c);
    var inserted := Inserted(db, c.run, c.goal, c.agent, "1", c.budget, map[]);
    Appended(inserted, c, RunCreated, Queued);
    hide Inserted;
    var made := AppendEvent(inserted, c.run, RunCreated, None);
    QueuedRuns(made, c);
    RunStarts(MoveRun(made, c.run, Running).value, c);
  }

  lemma OpeningCreates(c: Cast)
    ensures var db := Next(EMPTY_DATABASE, Opening(c)); UnderWay(db, c) && db.leases == map[]
  {
    hide Next, Opening;
    OpeningSucceeds(EMPTY_DATABASE, c);
  }

  lemma FirstLease(db: Database, c: Cast)
    requires c.run in db.runs && c.run !in db.leases
    ensures var next := Next(db, Leasing(c));
            && next.leases == db.leases[c.run := Lease(c.first, 1, 10)]
            && next == db.(leases := next.leases, runs := next.runs)
            && next.runs == db.runs[c.run := db.runs[c.run].(epoch := db.runs[c.run].epoch + 1)]
  {
    assert Step(db, Leasing(c)) == AcquireLease(db, c.run, c.first, 10, 0);
    hide Step;
  }

  lemma LeasedIs(c: Cast)
    ensures var db := Play(EMPTY_DATABASE, Leased(c));
            UnderWay(db, c) && db.leases == map[c.run := Lease(c.first, 1, 10)]
  {
    hide Next, Opening, Leasing;
    OpeningCreates(c);
    assert [Opening(c)][..0] == [];
    assert Play(EMPTY_DATABASE, [Opening(c)]) == Next(EMPTY_DATABASE, Opening(c));
    PlaySnoc(EMPTY_DATABASE, [Opening(c)], Leasing(c));
    hide Play;
    FirstLease(Next(EMPTY_DATABASE, Opening(c)), c);
  }

  lemma TakenOver(db: Database, c: Cast)
    requires c.first != c.second && c.run in db.runs && c.run in db.leases
    requires db.leases[c.run].holder == c.first && db.leases[c.run].generation == 1 && db.leases[c.run].expiresAt <= 20
    ensures var next := Next(db, TakingOver(c));
            && c.run in next.leases && next.leases[c.run] == Lease(c.second, 2, 30)
            && next == db.(leases := next.leases, runs := next.runs)
            && next.runs.Keys == db.runs.Keys
  {
    assert Step(db, TakingOver(c)) == AcquireLease(db, c.run, c.second, 10, 20);
    hide Step;
  }

  // ----- A goal moved under a superseded fence -----

  function StaleMove(c: Cast): Entry
  {
    Entry(RunPart(DoSetGoalStatus(c.goal, "1", GoalPaused, Some(FirstFence(c)))), 21)
  }

  /** Created, leased, taken over: the fence of the first executor is superseded, and its move of the goal commits. */
  lemma StaleGoalMoveCommits(c: Cast)
    requires c.first != c.second
    ensures var db := Play(EMPTY_DATABASE, Leased(c) + [TakingOver(c)]);
            && Superseded(db, FirstFence(c)) && FenceOf(StaleMove(c).op) == Some(FirstFence(c))
            && Commits(db, StaleMove(c))
            && c.goal in Next(db, StaleMove(c)).goals && Next(db, StaleMove(c)).goals[c.goal].status == GoalPaused
  {
    var before := Play(EMPTY_DATABASE, Leased(c));
    LeasedIs(c);
    PlaySnoc(EMPTY_DATABASE, Leased(c), TakingOver(c));
    TakenOver(before, c);
    var db := Next(before, TakingOver(c));
    GoalMoves(db, StaleMove(c).op.run, 21);
    assert Step(db, StaleMove(c)) == RunStep(db, StaleMove(c).op.run, 21);
    hide Step, Play, RunStep;
  }

  // ----- An unknown call given a result -----

  function Uncapped(): Budget
  {
    var none := Reservation(0, 0, 0, 0.0, 0, 0);
    Budget(None, None, None, None, None, None, None, None, none, none)
  }

  function Intending(c: Cast, call: ToolCallId): Entry
  {
    Entry(WorkPart(DoRecordToolIntent(FirstFence(c), call, None)), 1)
  }

  function Reconciling(c: Cast): Entry { Entry(WorkPart(DoReconcileInterrupted(c.run)), 2) }

  function Completing(c: Cast, call: ToolCallId): Entry
  {
    Entry(WorkPart(DoCompleteToolCall(FirstFence(c), call, true)), 3)
  }

  predicate Holding(db: Database, c: Cast)
  {
    c.run in db.runs && c.run in db.leases && db.leases[c.run] == Lease(c.first, 1, 10)
  }

  lemma IntentBegins(db: Database, c: Cast, call: ToolCallId)
    requires Holding(db, c) && call !in db.toolCalls && c.budget == Uncapped() && db.runs[c.run].budget == c.budget
    requires db.runs[c.run].status == Running && db.runs[c.run].usage == NoUsage()
    ensures var next := Next(db, Intending(c, call));
            && Holding(next, c) && call in next.toolCalls && next.toolCalls[call] == ToolCall(c.run, CallRunning, 1)
  {
    hide AddUsage, Allowed, Uncapped, ValidCosts;
    UncappedAllows(AddUsage(NoUsage(), Calls(1)));
    var fence := FirstFence(c);
    assert LeaseHolds(db, fence, 1);
    assert Step(db, Intending(c, call)) == RecordToolIntent(db, fence, call, None, 1);
    hide Step, LeaseHolds, AppendEvent;
  }

  lemma UncappedAllows(u: Usage)
    ensures Allowed(Uncapped(), u) && ValidCosts(Uncapped())
  {
  }

  lemma ReconciliationLeavesUnknown(db: Database, c: Cast, call: ToolCallId)
    requires Holding(db, c) && call in db.toolCalls && db.toolCalls[call] == ToolCall(c.run, CallRunning, 1)
    ensures var next := Next(db, Reconciling(c));
            && Holding(next, c) && call in next.toolCalls && next.toolCalls[call] == ToolCall(c.run, CallUnknown, 1)
  {
    assert Step(db, Reconciling(c)) == ReconcileInterrupted(db, c.run);
    hide Step, AppendEvent;
    assert call in InterruptedCalls(db, c.run);
  }

  lemma UnknownGetsResult(db: Database, c: Cast, call: ToolCallId)
    requires Holding(db, c) && call in db.toolCalls && db.toolCalls[call] == ToolCall(c.run, CallUnknown, 1)
    ensures Commits(db, Completing(c, call))
    ensures var next := Next(db, Completing(c, call));
            call in next.toolCalls && next.toolCalls[call].status == CallSucceeded
  {
    assert Step(db, Completing(c, call)) == CompleteToolCall(db, FirstFence(c), call, true, 3);
    hide Step, AppendEvent;
  }

  /** A call that the reconciliation marked unknown is reached, and then given a result by the generation that began
      it. */
  lemma UnknownCallCompletes(c: Cast, call: ToolCallId)
    requires c.budget == Uncapped()
    ensures var db := Play(EMPTY_DATABASE, Leased(c) + [Intending(c, call)] + [Reconciling(c)]);
            && call in db.toolCalls && db.toolCalls[call].status == CallUnknown
            && Commits(db, Completing(c, call))
            && var next := Next(db, Completing(c, call));
               call in next.toolCalls && next.toolCalls[call].status == CallSucceeded
  {
    hide Next, Commits, Intending, Reconciling, Completing, Uncapped;
    LeasedIs(c);
    PlaySnoc(EMPTY_DATABASE, Leased(c), Intending(c, call));
    PlaySnoc(EMPTY_DATABASE, Leased(c) + [Intending(c, call)], Reconciling(c));
    hide Play;
    var leased := Play(EMPTY_DATABASE, Leased(c));
    IntentBegins(leased, c, call);
    ReconciliationLeavesUnknown(Next(leased, Intending(c, call)), c, call);
    UnknownGetsResult(Next(Next(leased, Intending(c, call)), Reconciling(c)), c, call);
  }

  // ----- A tool started beyond the budget -----

  function Capped(): Budget { Uncapped().(maxToolCalls := Some(0)) }

  function Pausing(c: Cast): Entry { Entry(RunPart(DoTransitionRun(c.run, Paused, None, None)), 1) }

  lemma CappedRefuses()
    ensures !Allowed(Capped(), AddUsage(NoUsage(), Calls(1)))
  {
    AllowedMeaning(Capped(), AddUsage(NoUsage(), Calls(1)));
    hide Exhausted;
  }

  lemma PauseKeepsLease(db: Database, c: Cast)
    requires Holding(db, c) && db.runs[c.run].status == Running
    ensures var next := Next(db, Pausing(c));
            && Holding(next, c) && next.runs[c.run].status == Paused && next.toolCalls == db.toolCalls
            && next.runs[c.run].budget == db.runs[c.run].budget && next.runs[c.run].usage == db.runs[c.run].usage
  {
    assert Step(db, Pausing(c)) == TransitionRun(db, c.run, Paused, None, None, 1);
    hide Step;
  }

  lemma PausedIntentBegins(db: Database, c: Cast, call: ToolCallId)
    requires Holding(db, c) && call !in db.toolCalls && db.runs[c.run].budget == Capped()
    requires db.runs[c.run].status == Paused && db.runs[c.run].usage == NoUsage()
    ensures IntentAccepted(db, FirstFence(c), call, None, 1)
  {
    hide AddUsage, Allowed, AppendEvent, Capped, ValidCosts;
    CappedValid();
    PausedCharge(db, c);
    assert LeaseHolds(db, FirstFence(c), 1);
    hide LeaseHolds, Charge;
  }

  lemma PausedCharge(db: Database, c: Cast)
    requires c.run in db.runs && db.runs[c.run].status == Paused && db.runs[c.run].usage.costUsd == 0.0
    requires ValidCosts(db.runs[c.run].budget)
    ensures var charged := Charge(db, c.run, Calls(1));
            && charged.Ok? && c.run in charged.value.runs && charged.value.runs[c.run].status == Paused
            && charged.value.toolCalls == db.toolCalls
  {
    hide AddUsage, Allowed, ValidCosts, MoveRun;
  }

  lemma CappedValid()
    ensures ValidCosts(Capped())
  {
  }

  /** A Run whose budget allows no tool call is paused, and then starts a tool. */
  lemma PausedRunExceedsBudget(c: Cast, call: ToolCallId)
    requires c.budget == Capped()
    ensures var db := Play(EMPTY_DATABASE, Leased(c) + [Pausing(c)]);
            && c.run in db.runs && !Allowed(c.budget, AddUsage(db.runs[c.run].usage, Calls(1)))
            && db.runs[c.run].budget == c.budget && IntentAccepted(db, FirstFence(c), call, None, 1)
  {
    hide Next, Pausing, Capped, Allowed, AddUsage, IntentAccepted;
    LeasedIs(c);
    PlaySnoc(EMPTY_DATABASE, Leased(c), Pausing(c));
    hide Play;
    var leased := Play(EMPTY_DATABASE, Leased(c));
    PauseKeepsLease(leased, c);
    PausedIntentBegins(Next(leased, Pausing(c)), c, call);
    CappedRefuses();
  }

  // ----- A claim of a waiting task -----

  function Planning(c: Cast, task: TaskId): Entry { Entry(TaskPart(DoCreateTask(task, c.run, [], None)), 1) }

  function Claiming(c: Cast, task: TaskId): Entry { Entry(TaskPart(DoClaimTask(FirstFence(c), task, c.agent)), 2) }

  function Suspending(task: TaskId): Entry { Entry(TaskPart(DoTransitionTask(task, TaskWaiting, None)), 3) }

  function Claimed(c: Cast): Task { Task(c.run, TaskRunning, Some(c.agent), Some(1), 0, {}) }

  predicate Staffed(db: Database, c: Cast)
  {
    Holding(db, c) && c.agent in db.agents && db.agents[c.agent].runId == c.run
  }

  lemma PlannedIsReady(db: Database, c: Cast, task: TaskId)
    requires Staffed(db, c) && db.tasks == map[]
    ensures var next := Next(db, Planning(c, task));
            Staffed(next, c) && next.tasks == map[task := Task(c.run, TaskReady, None, None, 0, {})]
  {
    hide Refresh, Promoted, MakeReady;
    assert Step(db, Planning(c, task)) == CreateTask(db, task, c.run, [], None, 1);
    hide Step;
    NewTaskPromoted(c.run, task);
    Refreshes(WithTask(db, task, NewTask(c.run, [])), c.run);
  }

  lemma NewTaskPromoted(r: RunId, task: TaskId)
    ensures var made := map[task := NewTask(r, [])];
            MakeReady(made, Promoted(made, r)) == map[task := Task(r, TaskReady, None, None, 0, {})]
  {
    var made := map[task := NewTask(r, [])];
    assert NewTask(r, []) == Task(r, TaskPending, None, None, 0, {});
    assert Promoted(made, r) == {task};
  }

  lemma WaitingNotPromoted(task: TaskId, t: Task, r: RunId)
    requires t.status == TaskWaiting
    ensures MakeReady(map[task := t], Promoted(map[task := t], r)) == map[task := t]
  {
    assert Promoted(map[task := t], r) == {};
  }

  lemma Refreshes(db: Database, r: RunId)
    requires r in db.runs
    ensures var next := Refresh(db, r);
            && next.tasks == MakeReady(db.tasks, Promoted(db.tasks, r))
            && next == db.(tasks := next.tasks, runs := next.runs, events := next.events)
            && next.runs.Keys == db.runs.Keys
  {
    hide AppendEvents, Promoted, MakeReady;
  }

  lemma ReadyIsClaimed(db: Database, c: Cast, task: TaskId)
    requires Staffed(db, c) && task in db.tasks && db.tasks[task] == Task(c.run, TaskReady, None, None, 0, {})
    ensures var next := Next(db, Claiming(c, task));
            Staffed(next, c) && next.tasks == db.tasks[task := Claimed(c)]
  {
    assert Step(db, Claiming(c, task)) == ClaimTask(db, FirstFence(c), task, c.agent, 2);
    hide Step;
  }

  lemma SuspendingIs(db: Database, task: TaskId)
    ensures Step(db, Suspending(task)) == TransitionTask(db, task, TaskWaiting, None, 3)
  {
    hide TransitionTask;
  }

  lemma ClaimedIsSuspended(db: Database, c: Cast, task: TaskId)
    requires Staffed(db, c) && db.tasks == map[task := Claimed(c)]
    ensures var next := Next(db, Suspending(task));
            Staffed(next, c) && next.tasks == map[task := Claimed(c).(status := TaskWaiting)]
  {
    hide AppendEvent, Refresh, Promoted, MakeReady, Step, Suspending;
    SuspendingIs(db, task);
    var moved := Claimed(c).(status := TaskWaiting);
    WaitingNotPromoted(task, moved, c.run);
    assert WithTask(db, task, moved).tasks == map[task := moved];
    Refreshes(AppendEvent(WithTask(db, task, moved), c.run, TaskStatusChanged, None), c.run);
  }

  lemma WaitingClaimSucceeds(db: Database, c: Cast, task: TaskId)
    requires Staffed(db, c) && db.tasks == map[task := Claimed(c).(status := TaskWaiting)]
    ensures Commits(db, Claiming(c, task)) && Next(db, Claiming(c, task)).tasks == db.tasks
  {
    assert Step(db, Claiming(c, task)) == ClaimTask(db, FirstFence(c), task, c.agent, 2);
    hide Step, AppendEvent;
  }

  /** A waiting task is reached, its owner claims it, the claim succeeds, and the task still waits. */
  lemma WaitingTaskClaimed(c: Cast, task: TaskId)
    ensures var db := Play(EMPTY_DATABASE, Leased(c) + [Planning(c, task)] + [Claiming(c, task)] + [Suspending(task)]);
            && task in db.tasks && db.tasks[task].status == TaskWaiting
            && Commits(db, Claiming(c, task)) && Next(db, Claiming(c, task)).tasks == db.tasks
  {
    hide Next, Commits, Planning, Claiming, Suspending;
    LeasedIs(c);
    var h1 := Leased(c) + [Planning(c, task)];
    var h2 := h1 + [Claiming(c, task)];
    PlaySnoc(EMPTY_DATABASE, Leased(c), Planning(c, task));
    PlaySnoc(EMPTY_DATABASE, h1, Claiming(c, task));
    PlaySnoc(EMPTY_DATABASE, h2, Suspending(task));
    hide Play;
    PlannedIsReady(Play(EMPTY_DATABASE, Leased(c)), c, task);
    ReadyIsClaimed(Play(EMPTY_DATABASE, h1), c, task);
    ClaimedIsSuspended(Play(EMPTY_DATABASE, h2), c, task);
    WaitingClaimSucceeds(Play(EMPTY_DATABASE, h2 + [Suspending(task)]), c, task);
  }

  // ----- A task that waits for another Run -----

  /** A task of another Run that depends on this one. */
  function Depending(other: Cast, task: TaskId, on: TaskId): Entry
  {
    Entry(TaskPart(DoCreateTask(task, other.run, [on], None)), 1)
  }

  function Finishing(task: TaskId): Entry { Entry(TaskPart(DoTransitionTask(task, TaskCompleted, None)), 3) }

  function Dependent(other: Cast, on: TaskId): Task { Task(other.run, TaskPending, None, None, 0, {on}) }

  predicate Apart(c: Cast, other: Cast) { c.run != other.run && c.goal != other.goal && c.agent != other.agent }

  lemma OpeningBeside(db: Database, c: Cast, other: Cast)
    requires UnderWay(db, c) && Staffed(db, c) && Apart(c, other)
    ensures var next := Next(db, Opening(other)); Staffed(next, c) && other.run in next.runs && next.tasks == map[]
  {
    hide Next, Opening;
    OpeningSucceeds(db, other);
  }

  lemma DependentIsPending(db: Database, c: Cast, other: Cast, task: TaskId, on: TaskId)
    requires Staffed(db, c) && other.run in db.runs && c.run != other.run && task != on
    requires db.tasks == map[on := Task(c.run, TaskReady, None, None, 0, {})]
    ensures var next := Next(db, Depending(other, task, on));
            && Staffed(next, c) && other.run in next.runs
            && next.tasks == db.tasks[task := Dependent(other, on)]
  {
    hide Refresh, Promoted, MakeReady;
    assert Step(db, Depending(other, task, on)) == CreateTask(db, task, other.run, [on], None, 1);
    hide Step;
    var made := db.tasks[task := Dependent(other, on)];
    assert NewTask(other.run, [on]) == Dependent(other, on);
    NonePromoted(made, other.run);
    Refreshes(WithTask(db, task, Dependent(other, on)), other.run);
  }

  lemma NonePromoted(tasks: map<TaskId, Task>, r: RunId)
    requires forall id :: id in tasks ==> !Promotable(tasks, tasks[id], r)
    ensures MakeReady(tasks, Promoted(tasks, r)) == tasks
  {
    assert Promoted(tasks, r) == {};
  }

  lemma FinishedUnseen(db: Database, c: Cast, other: Cast, task: TaskId, on: TaskId)
    requires Staffed(db, c) && c.run != other.run && task != on
    requires db.tasks == map[on := Claimed(c), task := Dependent(other, on)]
    ensures var next := Next(db, Finishing(on));
            && task in next.tasks && next.tasks[task].status == TaskPending
            && DependenciesDone(next.tasks, next.tasks[task])
  {
    hide AppendEvent, Refresh, Promoted, MakeReady;
    assert Step(db, Finishing(on)) == TransitionTask(db, on, TaskCompleted, None, 3);
    hide Step;
    var moved := Moved(Claimed(c), TaskCompleted, None);
    var after := db.tasks[on := moved];
    NonePromoted(after, c.run);
    assert WithTask(db, on, moved).tasks == after;
    Refreshes(AppendEvent(WithTask(db, on, moved), c.run, TaskStatusChanged, None), c.run);
  }

  function Crossed(c: Cast, other: Cast, task: TaskId, on: TaskId): seq<Entry>
  {
    Leased(c) + [Opening(other)] + [Planning(c, on)] + [Depending(other, task, on)] + [Claiming(c, on)]
    + [Finishing(on)]
  }

  /** Everything a pending task depends on is completed, in another Run, and the task is still pending. */
  lemma DependentWaitsForNothing(c: Cast, other: Cast, task: TaskId, on: TaskId)
    requires Apart(c, other) && task != on
    ensures var db := Play(EMPTY_DATABASE, Crossed(c, other, task, on));
            task in db.tasks && db.tasks[task].status == TaskPending && DependenciesDone(db.tasks, db.tasks[task])
  {
    hide Next, Opening, Planning, Depending, Claiming, Finishing, DependenciesDone;
    LeasedIs(c);
    var h1 := Leased(c) + [Opening(other)];
    var h2 := h1 + [Planning(c, on)];
    var h3 := h2 + [Depending(other, task, on)];
    var h4 := h3 + [Claiming(c, on)];
    PlaySnoc(EMPTY_DATABASE, Leased(c), Opening(other));
    PlaySnoc(EMPTY_DATABASE, h1, Planning(c, on));
    PlaySnoc(EMPTY_DATABASE, h2, Depending(other, task, on));
    PlaySnoc(EMPTY_DATABASE, h3, Claiming(c, on));
    PlaySnoc(EMPTY_DATABASE, h4, Finishing(on));
    hide Play;
    OpeningBeside(Play(EMPTY_DATABASE, Leased(c)), c, other);
    PlannedBeside(Play(EMPTY_DATABASE, h1), c, other, on);
    DependentIsPending(Play(EMPTY_DATABASE, h2), c, other, task, on);
    ReadyIsClaimed(Play(EMPTY_DATABASE, h3), c, on);
    assert Play(EMPTY_DATABASE, h4).tasks == map[on := Claimed(c), task := Dependent(other, on)];
    FinishedUnseen(Play(EMPTY_DATABASE, h4), c, other, task, on);
  }

  lemma PlannedBeside(db: Database, c: Cast, other: Cast, task: TaskId)
    requires Staffed(db, c) && other.run in db.runs && db.tasks == map[]
    ensures var next := Next(db, Planning(c, task));
            && Staffed(next, c) && other.run in next.runs
            && next.tasks == map[task := Task(c.run, TaskReady, None, None, 0, {})]
  {
    PlannedIsReady(db, c, task);
    hide Refresh;
    assert Step(db, Planning(c, task)) == CreateTask(db, task, c.run, [], None, 1);
    hide Step;
    Refreshes(WithTask(db, task, NewTask(c.run, [])), c.run);
  }

  // ----- A recovery refused -----

  function Troubling(c: Cast): Entry
  {
    Entry(TaskPart(DoTransitionAgent(c.agent, AgentRecovering, Some(FirstFence(c)))), 1)
  }

  function Recovering(c: Cast): Entry { Entry(TaskPart(DoRecoverGraphWork(SecondFence(c))), 21) }

  lemma TroubledAgent(db: Database, c: Cast)
    requires Holding(db, c) && c.agent in db.agents && db.agents[c.agent] == Agent(c.run, AgentRunning, None)
    ensures var next := Next(db, Troubling(c));
            && Holding(next, c) && c.agent in next.agents
            && next.agents[c.agent] == Agent(c.run, AgentRecovering, Some(1))
  {
    assert Step(db, Troubling(c)) == TransitionAgent(db, c.agent, AgentRecovering, Some(FirstFence(c)), 1);
    hide Step, AppendEvent;
  }

  lemma RecoveryIsRefused(db: Database, c: Cast)
    requires c.run in db.runs && c.run in db.leases && db.leases[c.run] == Lease(c.second, 2, 30)
    requires c.agent in db.agents && db.agents[c.agent] == Agent(c.run, AgentRecovering, Some(1))
    ensures LeaseHolds(db, SecondFence(c), 21) && !Commits(db, Recovering(c))
  {
    assert Step(db, Recovering(c)) == RecoverGraphWork(db, SecondFence(c), 21);
    hide Step, AppendEvents, Recovered, StrandedTasks;
    assert c.agent in StrandedAgents(db, SecondFence(c));
  }

  /** An agent is left in recovering, its executor is replaced, and the live lease of the successor cannot recover. */
  lemma RecoveringAgentBlocksRecovery(c: Cast)
    requires c.first != c.second
    ensures var db := Play(EMPTY_DATABASE, Leased(c) + [Troubling(c)] + [TakingOver(c)]);
            LeaseHolds(db, SecondFence(c), 21) && !Commits(db, Recovering(c))
  {
    hide Next, Troubling, TakingOver, Recovering, LeaseHolds, Commits;
    LeasedIs(c);
    var h := Leased(c) + [Troubling(c)];
    PlaySnoc(EMPTY_DATABASE, Leased(c), Troubling(c));
    PlaySnoc(EMPTY_DATABASE, h, TakingOver(c));
    hide Play;
    TroubledAgent(Play(EMPTY_DATABASE, Leased(c)), c);
    TakenOver(Play(EMPTY_DATABASE, h), c);
    RecoveryIsRefused(Play(EMPTY_DATABASE, h + [TakingOver(c)]), c);
  }

  // ----- Attempts without end -----

  function ClaimRound(c: Cast, task: TaskId, n: nat): Entry
  {
    Entry(TaskPart(DoClaimTask(Fence(c.run, c.first, n + 1), task, c.agent)), 20 * n + 1)
  }

  function LeaseRound(c: Cast, n: nat): Entry { Entry(RunPart(DoAcquireLease(c.run, c.first, 10)), 20 * n + 20) }

  function RecoverRound(c: Cast, n: nat): Entry
  {
    Entry(TaskPart(DoRecoverGraphWork(Fence(c.run, c.first, n + 2))), 20 * n + 21)
  }

  /** The task is claimed, its executor loses the lease and comes back, and the task is recovered; `n` times over. */
  function Rounds(c: Cast, task: TaskId, n: nat): seq<Entry>
  {
    if n == 0 then Leased(c) + [Planning(c, task)]
    else Rounds(c, task, n - 1) + [ClaimRound(c, task, n - 1)] + [LeaseRound(c, n - 1)] + [RecoverRound(c, n - 1)]
  }

  /** The lease of generation `n + 1` is out, and the only agent belongs to no generation. */
  predicate RoundHeld(db: Database, c: Cast, n: nat)
  {
    && c.run in db.runs && c.run in db.leases && db.leases[c.run] == Lease(c.first, n + 1, 20 * n + 10)
    && c.agent in db.agents && db.agents.Keys == {c.agent} && db.agents[c.agent] == Agent(c.run, AgentRunning, None)
  }

  predicate Tried(db: Database, c: Cast, task: TaskId, n: nat)
  {
    && db.tasks.Keys == {task} && db.tasks[task].runId == c.run && db.tasks[task].status == TaskReady
    && db.tasks[task].owner == None && db.tasks[task].attempt == n
  }

  lemma RoundClaims(db: Database, c: Cast, task: TaskId, n: nat)
    requires RoundHeld(db, c, n) && Tried(db, c, task, n)
    ensures var next := Next(db, ClaimRound(c, task, n));
            && RoundHeld(next, c, n) && next.tasks.Keys == {task}
            && next.tasks[task].runId == c.run && next.tasks[task].status == TaskRunning
            && next.tasks[task].generation == Some(n + 1) && next.tasks[task].attempt == n
  {
    assert Step(db, ClaimRound(c, task, n))
        == ClaimTask(db, Fence(c.run, c.first, n + 1), task, c.agent, 20 * n + 1);
    hide Step, AppendEvent;
  }

  lemma RoundLeases(db: Database, c: Cast, n: nat)
    requires RoundHeld(db, c, n)
    ensures var next := Next(db, LeaseRound(c, n)); RoundHeld(next, c, n + 1) && next.tasks == db.tasks
  {
    assert Step(db, LeaseRound(c, n)) == AcquireLease(db, c.run, c.first, 10, 20 * n + 20);
    hide Step;
  }

  lemma RecoverRoundIs(db: Database, c: Cast, n: nat)
    ensures Step(db, RecoverRound(c, n)) == RecoverGraphWork(db, Fence(c.run, c.first, n + 2), 20 * n + 21)
  {
    hide RecoverGraphWork;
  }

  lemma RoundRecovers(db: Database, c: Cast, task: TaskId, n: nat)
    requires RoundHeld(db, c, n + 1) && db.tasks.Keys == {task}
    requires db.tasks[task].runId == c.run && db.tasks[task].status == TaskRunning
    requires db.tasks[task].generation == Some(n + 1) && db.tasks[task].attempt == n
    ensures var next := Next(db, RecoverRound(c, n)); RoundHeld(next, c, n + 1) && Tried(next, c, task, n + 1)
  {
    hide AppendEvents, Step, RecoverRound;
    var fence := Fence(c.run, c.first, n + 2);
    RecoverRoundIs(db, c, n);
    assert StrandedTasks(db, fence) == {task} && StrandedAgents(db, fence) == {};
    assert RequeueAgents(db.agents, {}, fence) == db.agents;
  }

  /** For every number of attempts there is a history at whose end the task has had that many and is ready again. */
  lemma {:induction false} AttemptsHaveNoLimit(c: Cast, task: TaskId, n: nat)
    ensures var db := Play(EMPTY_DATABASE, Rounds(c, task, n));
            RoundHeld(db, c, n) && Tried(db, c, task, n)
  {
    hide Next, Planning, ClaimRound, LeaseRound, RecoverRound;
    if n == 0 {
      LeasedIs(c);
      PlaySnoc(EMPTY_DATABASE, Leased(c), Planning(c, task));
      hide Play;
      PlannedIsReady(Play(EMPTY_DATABASE, Leased(c)), c, task);
      PlanningKeepsAgents(Play(EMPTY_DATABASE, Leased(c)), c, task);
    } else {
      var h := Rounds(c, task, n - 1);
      AttemptsHaveNoLimit(c, task, n - 1);
      PlaySnoc(EMPTY_DATABASE, h, ClaimRound(c, task, n - 1));
      PlaySnoc(EMPTY_DATABASE, h + [ClaimRound(c, task, n - 1)], LeaseRound(c, n - 1));
      PlaySnoc(EMPTY_DATABASE, h + [ClaimRound(c, task, n - 1)] + [LeaseRound(c, n - 1)], RecoverRound(c, n - 1));
      hide Play;
      var db := Play(EMPTY_DATABASE, h);
      RoundClaims(db, c, task, n - 1);
      RoundLeases(Next(db, ClaimRound(c, task, n - 1)), c, n - 1);
      RoundRecovers(Next(Next(db, ClaimRound(c, task, n - 1)), LeaseRound(c, n - 1)), c, task, n - 1);
    }
  }

  lemma PlanningKeepsAgents(db: Database, c: Cast, task: TaskId)
    ensures Next(db, Planning(c, task)).agents == db.agents && Next(db, Planning(c, task)).leases == db.leases
  {
    assert Step(db, Planning(c, task)) == CreateTask(db, task, c.run, [], None, 1);
    hide Step, Refresh;
  }

  // ----- An orphaned continuation -----

  type Process = Scheduler.Process

  function LeaseMoves(c: Cast, p: Process): seq<Scheduler.Move>
  {
    [Scheduler.Elsewhere(Opening(c))] + [Scheduler.Tick(p, c.run, Scheduler.Begin(Running), 0)]
    + [Scheduler.Tick(p, c.run, Scheduler.Acquire(10), 0)]
  }

  /** A daemon begins a tick, gets as far as the claim, and crashes. */
  function CrashMoves(c: Cast, p: Process): seq<Scheduler.Move>
  {
    LeaseMoves(c, p) + [Scheduler.Tick(p, c.run, Scheduler.Recover, 0)]
    + [Scheduler.Tick(p, c.run, Scheduler.Resume, 0)]
    + [Scheduler.Tick(p, c.run, Scheduler.ClaimIt, 0)] + [Scheduler.Crash(p)]
  }

  /** The process is in this phase for the Run, and every other process is idle for it. */
  ghost predicate Alone(s: Scheduler.System, c: Cast, p: Process, phase: Scheduler.Phase)
  {
    && Scheduler.PhaseOf(s, p, c.run) == phase
    && forall q :: q != p ==> Scheduler.PhaseOf(s, q, c.run) == Scheduler.Idle
  }

  lemma Turns(s: Scheduler.System, c: Cast, p: Process, phase: Scheduler.Phase, turn: Scheduler.Turn)
    requires Alone(s, c, p, phase)
    ensures var next := Scheduler.After(s, Scheduler.Tick(p, c.run, turn, 0));
            && next.db == Scheduler.DatabaseAfter(s.db, phase, p, c.run, turn, 0)
            && Alone(next, c, p, Scheduler.TurnedPhase(s.db, phase, p, c.run, turn, 0))
  {
    Scheduler.TickAfter(s, p, c.run, turn, 0);
    hide Scheduler.PhaseOf, Scheduler.After, Scheduler.TurnedPhase, Scheduler.DatabaseAfter;
  }

  lemma BeginTurn(db: Database, c: Cast, p: Process)
    ensures Scheduler.DatabaseAfter(db, Scheduler.Idle, p, c.run, Scheduler.Begin(Running), 0) == db
    ensures Scheduler.TurnedPhase(db, Scheduler.Idle, p, c.run, Scheduler.Begin(Running), 0)
         == Scheduler.Starting(false)
  {
    hide Next, Commits;
  }

  lemma AcquireTurn(db: Database, c: Cast, p: Process)
    requires UnderWay(db, c) && db.leases == map[] && p.executorId == c.first
    ensures var next := Scheduler.DatabaseAfter(db, Scheduler.Starting(false), p, c.run, Scheduler.Acquire(10), 0);
            && UnderWay(next, c) && Holding(next, c)
            && Scheduler.TurnedPhase(db, Scheduler.Starting(false), p, c.run, Scheduler.Acquire(10), 0)
               == Scheduler.Leased(FirstFence(c), false)
  {
    FirstLease(db, c);
    assert Step(db, Leasing(c)) == AcquireLease(db, c.run, c.first, 10, 0);
    assert Commits(db, Leasing(c));
    hide Next, Commits, Step;
  }

  lemma RecoverTurn(db: Database, c: Cast, p: Process)
    requires UnderWay(db, c) && Holding(db, c)
    ensures var phase := Scheduler.Leased(FirstFence(c), false);
            && Scheduler.DatabaseAfter(db, phase, p, c.run, Scheduler.Recover, 0) == db
            && Scheduler.TurnedPhase(db, phase, p, c.run, Scheduler.Recover, 0)
               == Scheduler.Reconciled(FirstFence(c), false)
  {
    var e := Entry(WorkPart(DoRecoverClaimedWork(FirstFence(c))), 0);
    assert Step(db, e) == RecoverClaimedWork(db, FirstFence(c), 0);
    NothingStranded(db, c);
    hide Step, RecoverClaimedWork;
  }

  lemma NothingStranded(db: Database, c: Cast)
    requires UnderWay(db, c) && Holding(db, c)
    ensures RecoverClaimedWork(db, FirstFence(c), 0) == Ok(db)
  {
    assert StrandedCalls(db, FirstFence(c)) == {};
    assert db.actions[c.run := db.actions[c.run]] == db.actions;
    hide StrandedCalls, AppendEvent, MarkUnknown;
  }

  lemma ResumeTurn(db: Database, c: Cast, p: Process)
    ensures var phase := Scheduler.Reconciled(FirstFence(c), false);
            && Scheduler.DatabaseAfter(db, phase, p, c.run, Scheduler.Resume, 0) == db
            && Scheduler.TurnedPhase(db, phase, p, c.run, Scheduler.Resume, 0) == Scheduler.Ready(FirstFence(c))
  {
    hide Next, Commits;
  }

  lemma ClaimTurn(db: Database, c: Cast, p: Process)
    requires UnderWay(db, c) && Holding(db, c)
    ensures var next := Scheduler.DatabaseAfter(db, Scheduler.Ready(FirstFence(c)), p, c.run, Scheduler.ClaimIt, 0);
            && Holding(next, c) && Continuations.ClaimOn(next.actions, c.run) == Some(Claim(c.first, 1))
  {
    var e := Entry(RunPart(DoClaimContinuation(FirstFence(c))), 0);
    Scheduler.ClaimTakes(db, FirstFence(c), 0);
    Frames(db, e);
    assert Claimable(db, c.run, 0) && LeaseHolds(db, FirstFence(c), 0);
    hide Next, Commits, Step, LeaseHolds, Claimable;
  }

  lemma CrashLeavesNobody(s: Scheduler.System, c: Cast, p: Process, phase: Scheduler.Phase)
    requires Alone(s, c, p, phase) && Holding(s.db, c)
    requires Continuations.ClaimOn(s.db.actions, c.run) == Some(Claim(c.first, 1))
    ensures Scheduler.Orphaned(Scheduler.After(s, Scheduler.Crash(p)), c.run, c.first)
  {
    var next := Scheduler.After(s, Scheduler.Crash(p));
    assert forall q :: Scheduler.PhaseOf(next, q, c.run)
                    == if q == p then Scheduler.Idle else Scheduler.PhaseOf(s, q, c.run);
    hide Scheduler.PhaseOf, Scheduler.After;
  }

  lemma OpeningMove(c: Cast, p: Process)
    ensures var s := Scheduler.Operate([Scheduler.Elsewhere(Opening(c))]);
            s.db == Next(EMPTY_DATABASE, Opening(c)) && Alone(s, c, p, Scheduler.Idle)
  {
    hide Next, Opening;
    var m := Scheduler.Elsewhere(Opening(c));
    assert [m] == [] + [m];
    Scheduler.OperateSnoc([], m);
  }

  lemma LeasedByTick(c: Cast, p: Process)
    requires p.executorId == c.first
    ensures var s := Scheduler.Operate(LeaseMoves(c, p));
            UnderWay(s.db, c) && Holding(s.db, c) && Alone(s, c, p, Scheduler.Leased(FirstFence(c), false))
  {
    hide Next, Opening, Scheduler.Operate, Scheduler.After, Alone, Scheduler.DatabaseAfter, Scheduler.TurnedPhase,
         UnderWay, Holding;
    var m0, m1 := Scheduler.Elsewhere(Opening(c)), Scheduler.Tick(p, c.run, Scheduler.Begin(Running), 0);
    var s0 := Scheduler.Operate([m0]);
    OpeningMove(c, p);
    Scheduler.OperateSnoc([m0], m1);
    Scheduler.OperateSnoc([m0] + [m1], Scheduler.Tick(p, c.run, Scheduler.Acquire(10), 0));
    OpeningCreates(c);
    Turns(s0, c, p, Scheduler.Idle, Scheduler.Begin(Running));
    BeginTurn(s0.db, c, p);
    var s1 := Scheduler.After(s0, m1);
    Turns(s1, c, p, Scheduler.Starting(false), Scheduler.Acquire(10));
    AcquireTurn(s1.db, c, p);
  }

  /** A crash with a claim leaves an orphan: the state in which a restart under the same identity starves. */
  lemma CrashOrphans(c: Cast, p: Process)
    requires p.executorId == c.first
    ensures Scheduler.Orphaned(Scheduler.Operate(CrashMoves(c, p)), c.run, c.first)
    ensures forall m :: m in CrashMoves(c, p) ==> Scheduler.Allowed(m)
  {
    hide Scheduler.Operate, Scheduler.After, Alone, Scheduler.DatabaseAfter, Scheduler.TurnedPhase, UnderWay, Holding,
         Scheduler.Orphaned;
    LeasedByTick(c, p);
    var h := LeaseMoves(c, p);
    var m3, m4 := Scheduler.Tick(p, c.run, Scheduler.Recover, 0), Scheduler.Tick(p, c.run, Scheduler.Resume, 0);
    var m5 := Scheduler.Tick(p, c.run, Scheduler.ClaimIt, 0);
    Scheduler.OperateSnoc(h, m3);
    Scheduler.OperateSnoc(h + [m3], m4);
    Scheduler.OperateSnoc(h + [m3] + [m4], m5);
    Scheduler.OperateSnoc(h + [m3] + [m4] + [m5], Scheduler.Crash(p));
    var s2 := Scheduler.Operate(h);
    Turns(s2, c, p, Scheduler.Leased(FirstFence(c), false), Scheduler.Recover);
    RecoverTurn(s2.db, c, p);
    var s3 := Scheduler.After(s2, m3);
    Turns(s3, c, p, Scheduler.Reconciled(FirstFence(c), false), Scheduler.Resume);
    ResumeTurn(s3.db, c, p);
    var s4 := Scheduler.After(s3, m4);
    Turns(s4, c, p, Scheduler.Ready(FirstFence(c)), Scheduler.ClaimIt);
    ClaimTurn(s4.db, c, p);
    var s5 := Scheduler.After(s4, m5);
    var phase := Scheduler.TurnedPhase(s4.db, Scheduler.Ready(FirstFence(c)), p, c.run, Scheduler.ClaimIt, 0);
    CrashLeavesNobody(s5, c, p, phase);
  }

  // ----- A Run resumed without a lease -----

  function FellBack(c: Cast): Entry { Entry(RunPart(DoTransitionRun(c.run, RunStatus.Recovering, None, None)), 0) }

  /** A daemon finds the Run recovering, leases it and recovers its work. */
  function LateMoves(c: Cast, p: Process): seq<Scheduler.Move>
  {
    [Scheduler.Elsewhere(Opening(c))] + [Scheduler.Elsewhere(FellBack(c))]
    + [Scheduler.Tick(p, c.run, Scheduler.Begin(RunStatus.Recovering), 0)]
    + [Scheduler.Tick(p, c.run, Scheduler.Acquire(10), 0)]
    + [Scheduler.Tick(p, c.run, Scheduler.Recover, 0)]
  }

  lemma RecoveringRun(db: Database, c: Cast)
    requires UnderWay(db, c) && db.leases == map[]
    ensures var next := Next(db, FellBack(c));
            && c.run in next.runs && next.runs[c.run].status == RunStatus.Recovering
            && next.runs[c.run].currentGoal == c.goal
            && next.leases == map[] && next.goals == db.goals && next.actions == db.actions
  {
    assert Step(db, FellBack(c)) == TransitionRun(db, c.run, RunStatus.Recovering, None, None, 0);
    hide Step;
  }

  lemma RecoveringTakeable(c: Cast, p: Process)
    ensures var s := Scheduler.Operate([Scheduler.Elsewhere(Opening(c))] + [Scheduler.Elsewhere(FellBack(c))]);
            && Ticks.Takeable(s.db, c.run, p.executorId, 0) && s.db.runs[c.run].status == RunStatus.Recovering
            && s.db.leases == map[] && Scheduler.PhaseOf(s, p, c.run) == Scheduler.Idle
  {
    hide Next, Opening, FellBack, Scheduler.Operate, Ticks.Takeable, UnderWay, Scheduler.PhaseOf;
    FellBackIs(c, p);
    OpeningCreates(c);
    var db := Next(EMPTY_DATABASE, Opening(c));
    RecoveringRun(db, c);
    FellBackTakeable(db, Next(db, FellBack(c)), c, p.executorId);
  }

  lemma FellBackIs(c: Cast, p: Process)
    ensures var s := Scheduler.Operate([Scheduler.Elsewhere(Opening(c))] + [Scheduler.Elsewhere(FellBack(c))]);
            && s.db == Next(Next(EMPTY_DATABASE, Opening(c)), FellBack(c))
            && Scheduler.PhaseOf(s, p, c.run) == Scheduler.Idle
  {
    hide Next, Opening, FellBack;
    var first := Scheduler.Elsewhere(Opening(c));
    assert [first] == [] + [first];
    Scheduler.OperateSnoc([], first);
    Scheduler.OperateSnoc([first], Scheduler.Elsewhere(FellBack(c)));
  }

  lemma FellBackTakeable(db: Database, next: Database, c: Cast, x: ExecutorId)
    requires UnderWay(db, c) && c.run in next.runs && next.runs[c.run].status == RunStatus.Recovering
    requires next.runs[c.run].currentGoal == c.goal && next.leases == map[] && next.goals == db.goals
    requires next.actions == db.actions
    ensures Ticks.Takeable(next, c.run, x, 0)
  {
  }

  /** The lease runs out while the daemon is between recovering the work and resuming the Run, and the Run is set
      running all the same. */
  lemma LateResumeMoves(c: Cast, p: Process)
    requires p.executorId == c.first
    ensures var s := Scheduler.Operate(LateMoves(c, p));
            var next := Scheduler.Operate(LateMoves(c, p) + [Scheduler.Tick(p, c.run, Scheduler.Turn.Resume, 20)]);
            && Scheduler.PhaseOf(s, p, c.run) == Scheduler.Reconciled(FirstFence(c), true)
            && !LeaseHolds(s.db, FirstFence(c), 20)
            && c.run in s.db.runs && s.db.runs[c.run].status == RunStatus.Recovering
            && c.run in next.db.runs && next.db.runs[c.run].status == Running
  {
    hide Opening, FellBack, Scheduler.Operate, Scheduler.PhaseOf, Ticks.Takeable, Ticks.Along, Ticks.CallsMarked,
         Scheduler.DatabaseAfter, Scheduler.TurnedPhase, Ticks.Reaches, Scheduler.After;
    var h0 := [Scheduler.Elsewhere(Opening(c))] + [Scheduler.Elsewhere(FellBack(c))];
    RecoveringTakeable(c, p);
    var start := Scheduler.Operate(h0).db;
    Ticks.IsReached(h0, p, c.run);
    var after := LateRecovery(c, p, h0, start);
    var h3 := h0 + [Scheduler.Tick(p, c.run, Scheduler.Begin(RunStatus.Recovering), 0)]
      + [Scheduler.Tick(p, c.run, Scheduler.Acquire(10), 0)] + [Scheduler.Tick(p, c.run, Scheduler.Recover, 0)];
    assert h3 == LateMoves(c, p);
    Ticks.IsReached(h3, p, c.run);
    Ticks.ReachedOnce(h3, p, c.run, Scheduler.Reconciled(FirstFence(c), true), after);
    Scheduler.OperateSnoc(h3, Scheduler.Tick(p, c.run, Scheduler.Turn.Resume, 20));
    Ticks.ResumeIgnoresLease(Scheduler.Operate(h3), p, c.run, 20);
  }

  lemma LateRecovery(c: Cast, p: Process, h0: seq<Scheduler.Move>, start: Database) returns (after: Database)
    requires p.executorId == c.first && Ticks.Reaches(h0, p, c.run, Scheduler.Idle, start)
    requires Ticks.Takeable(start, c.run, p.executorId, 0)
    requires start.runs[c.run].status == RunStatus.Recovering && start.leases == map[]
    ensures Ticks.Reaches(h0 + [Scheduler.Tick(p, c.run, Scheduler.Begin(RunStatus.Recovering), 0)]
                          + [Scheduler.Tick(p, c.run, Scheduler.Acquire(10), 0)]
                          + [Scheduler.Tick(p, c.run, Scheduler.Recover, 0)],
                          p, c.run, Scheduler.Reconciled(FirstFence(c), true), after)
    ensures after.leases == map[c.run := Lease(c.first, 1, 10)]
    ensures c.run in after.runs && after.runs[c.run].status == RunStatus.Recovering
  {
    hide Scheduler.DatabaseAfter, Scheduler.TurnedPhase, Ticks.Reaches, Ticks.Along, Ticks.CallsMarked;
    var r, row := c.run, Ticks.RowOf(start, c.run);
    Ticks.BeginTurn(start, p, r, 0);
    Ticks.Turns(h0, p, r, Scheduler.Idle, start, Scheduler.Begin(RunStatus.Recovering), 0);
    var h1 := h0 + [Scheduler.Tick(p, r, Scheduler.Begin(RunStatus.Recovering), 0)];
    var db1 := Scheduler.DatabaseAfter(start, Scheduler.Idle, p, r, Scheduler.Begin(RunStatus.Recovering), 0);
    Ticks.AcquireTurn(start, db1, p, r, true, RunStatus.Recovering, row, 10, 0);
    Ticks.Turns(h1, p, r, Scheduler.Starting(true), db1, Scheduler.Acquire(10), 0);
    var h2 := h1 + [Scheduler.Tick(p, r, Scheduler.Acquire(10), 0)];
    var db2 := Scheduler.DatabaseAfter(db1, Scheduler.Starting(true), p, r, Scheduler.Acquire(10), 0);
    Ticks.RecoverTurn(start, db2, p, r, FirstFence(c), true, RunStatus.Recovering, row, 0);
    Ticks.Turns(h2, p, r, Scheduler.Leased(FirstFence(c), true), db2, Scheduler.Recover, 0);
    after := Scheduler.DatabaseAfter(db2, Scheduler.Leased(FirstFence(c), true), p, r, Scheduler.Recover, 0);
    var freed := if row.None? then None else Some(row.value.(claim := None));
    Ticks.AlongStatus(start, after, r, RunStatus.Recovering, freed);
  }
}
