/** The Task Graph, the Agents that work on it, and the resource locks. */
module TaskOps {
  import opened Outcomes
  import opened Tables
  import Scopes

  /** A task that has failed this many times stops being automatically retried. */
  const MAX_TASK_ATTEMPTS := 5

  // ----- Readiness -----

  predicate DependenciesDone(tasks: map<TaskId, Task>, task: Task)
  {
    forall d :: d in task.dependencies && d in tasks ==> tasks[d].status == TaskCompleted
  }

  /** The rows `refreshTaskReadinessInternal` selects, and promotes when nothing they depend on is open. */
  predicate Promotable(tasks: map<TaskId, Task>, task: Task, runId: RunId)
  {
    && task.runId == runId
    && (task.status == TaskPending || (task.status == TaskFailed && task.attempt < MAX_TASK_ATTEMPTS))
    && DependenciesDone(tasks, task)
  }

  function Promoted(tasks: map<TaskId, Task>, runId: RunId): set<TaskId>
  {
    set id | id in tasks && Promotable(tasks, tasks[id], runId)
  }

  function MakeReady(tasks: map<TaskId, Task>, ids: set<TaskId>): map<TaskId, Task>
  {
    map id | id in tasks :: if id in ids then tasks[id].(status := TaskReady) else tasks[id]
  }

  /** `count` events of one kind, appended one after the other. */
  function AppendEvents(db: Database, runId: RunId, kind: EventKind, generation: Option<nat>, count: nat): (r: Database)
    requires runId in db.runs
    ensures runId in r.runs && forall k :: k in r.runs <==> k in db.runs
    ensures r == db.(runs := r.runs, events := r.events)
    decreases count
  {
    if count == 0 then db
    else AppendEvent(AppendEvents(db, runId, kind, generation, count - 1), runId, kind, generation)
  }

  /** `refreshTaskReadinessInternal`. */
  function Refresh(db: Database, runId: RunId): (r: Database)
    requires runId in db.runs
    ensures r == db.(tasks := r.tasks, runs := r.runs, events := r.events)
  {
    var ids := Promoted(db.tasks, runId);
    AppendEvents(db.(tasks := MakeReady(db.tasks, ids)), runId, TaskStatusChanged, None, |ids|)
  }

  // ----- Tasks -----

  predicate NoRepeats(ids: seq<TaskId>) { forall i, j :: 0 <= i < j < |ids| ==> ids[i] != ids[j] }

  function WithTask(db: Database, id: TaskId, task: Task): (r: Database)
    ensures r == db.(tasks := r.tasks)
  {
    db.(tasks := db.tasks[id := task])
  }

  function NewTask(runId: RunId, dependencies: seq<TaskId>): Task
  {
    Task(runId, TaskPending, None, None, 0, set d | d in dependencies)
  }

  /** `createTask`: every dependency must exist, of whichever Run it is. */
  function CreateTask(db: Database, id: TaskId, runId: RunId, dependencies: seq<TaskId>, lease: Option<Fence>,
      now: Time): (r: Outcome)
    ensures r.Ok? ==> r.value == db.(tasks := r.value.tasks, runs := r.value.runs, events := r.value.events)
  {
    if !MayWrite(db, lease, runId, now) then Err(Fenced)
    else if id in db.tasks || !NoRepeats(dependencies) then Err(Duplicate)
    else if runId !in db.runs || exists d :: d in dependencies && d !in db.tasks then Err(NotFound)
    else
      Ok(Refresh(WithTask(db, id, NewTask(runId, dependencies)), runId))
  }

  /** `claimTask`: the conditional update is the claim, and the owner read back decides whether it took. */
  function ClaimTask(db: Database, lease: Fence, id: TaskId, agent: AgentId, now: Time): (r: Outcome)
    ensures r.Ok? ==> r.value == db.(tasks := r.value.tasks, runs := r.value.runs, events := r.value.events)
  {
    if !LeaseHolds(db, lease, now) then Err(Fenced)
    else if id !in db.tasks then Err(NotFound)
    else if db.tasks[id].runId != lease.runId then Err(WrongRun)
    else if agent !in db.agents || lease.runId !in db.runs then Err(NotFound)
    else if db.agents[agent].runId != db.tasks[id].runId then Err(WrongRun)
    else
      var task := db.tasks[id];
      if !CanMoveTask(task.status, TaskRunning) then Err(InvalidTransition)
      else
        var claimed := if task.status == TaskReady && task.owner.None?
                       then task.(status := TaskRunning, owner := Some(agent), generation := Some(lease.generation))
                       else task;
        if claimed.owner != Some(agent) then Err(ClaimLost)
        else
          var announced := AppendEvent(WithTask(db, id, claimed), lease.runId, TaskAssigned, Some(lease.generation));
          Ok(AppendEvent(announced, lease.runId, TaskStatusChanged, Some(lease.generation)))
  }

  /** The row `transitionTask` writes. */
  function Moved(task: Task, to: TaskStatus, lease: Option<Fence>): Task
  {
    var released := to == TaskCompleted || to == TaskFailed || to == TaskCancelled;
    task.(status := to,
          owner := if released then None else task.owner,
          attempt := task.attempt + (if to == TaskFailed then 1 else 0),
          generation := if lease.Some? then Some(lease.value.generation) else task.generation)
  }

  function TransitionTask(db: Database, id: TaskId, to: TaskStatus, lease: Option<Fence>, now: Time): (r: Outcome)
    ensures r.Ok? ==> r.value == db.(tasks := r.value.tasks, runs := r.value.runs, events := r.value.events)
  {
    if lease.Some? && !LeaseHolds(db, lease.value, now) then Err(Fenced)
    else if id !in db.tasks then Err(NotFound)
    else
      var task := db.tasks[id];
      if lease.Some? && task.runId != lease.value.runId then Err(WrongRun)
      else if !CanMoveTask(task.status, to) then Err(InvalidTransition)
      else if task.runId !in db.runs then Err(NotFound)
      else
        var generation := if lease.Some? then Some(lease.value.generation) else None;
        var moved := WithTask(db, id, Moved(task, to, lease));
        Ok(Refresh(AppendEvent(moved, task.runId, TaskStatusChanged, generation), task.runId))
  }

  // ----- Recovery of the graph -----

  predicate Older(generation: Option<nat>, lease: Fence)
  {
    generation.Some? && generation.value < lease.generation
  }

  predicate StrandedTask(task: Task, lease: Fence)
  {
    task.runId == lease.runId && task.status == TaskRunning && Older(task.generation, lease)
  }

  /** A stranded task passes through `failed` and comes out claimable. */
  function RecoveredTask(task: Task, lease: Fence): Task
  {
    task.(status := TaskReady, owner := None, generation := Some(lease.generation), attempt := task.attempt + 1)
  }

  predicate StrandedAgent(agent: Agent, lease: Fence)
  {
    agent.runId == lease.runId && (agent.status == AgentRunning || agent.status == AgentRecovering)
    && Older(agent.generation, lease)
  }

  function StrandedTasks(db: Database, lease: Fence): set<TaskId>
  {
    set id | id in db.tasks && StrandedTask(db.tasks[id], lease)
  }

  function StrandedAgents(db: Database, lease: Fence): set<AgentId>
  {
    set id | id in db.agents && StrandedAgent(db.agents[id], lease)
  }

  function RecoverTasks(tasks: map<TaskId, Task>, ids: set<TaskId>, lease: Fence): map<TaskId, Task>
  {
    map id | id in tasks :: if id in ids then RecoveredTask(tasks[id], lease) else tasks[id]
  }

  function RequeueAgents(agents: map<AgentId, Agent>, ids: set<AgentId>, lease: Fence): map<AgentId, Agent>
  {
    map id | id in agents ::
      if id in ids then agents[id].(status := AgentQueued, generation := Some(lease.generation)) else agents[id]
  }

  /** The rows as the recovery leaves them. */
  function Recovered(db: Database, lease: Fence): (r: Database)
    ensures r == db.(tasks := r.tasks, agents := r.agents)
  {
    db.(tasks := RecoverTasks(db.tasks, StrandedTasks(db, lease), lease),
        agents := RequeueAgents(db.agents, StrandedAgents(db, lease), lease))
  }

  /** `recoverGraphWork`. No transition leads from recovering to recovering, so a stranded agent left there
      rolls the whole recovery back. */
  function RecoverGraphWork(db: Database, lease: Fence, now: Time): (r: Outcome)
    ensures r.Ok? ==> r.value == db.(tasks := r.value.tasks, agents := r.value.agents, runs := r.value.runs,
        events := r.value.events)
  {
    if !LeaseHolds(db, lease, now) then Err(Fenced)
    else
      var tasks, agents := StrandedTasks(db, lease), StrandedAgents(db, lease);
      if tasks == {} && agents == {} then Ok(db)
      else if lease.runId !in db.runs then Err(NotFound)
      else if exists id :: id in agents && db.agents[id].status == AgentRecovering then Err(InvalidTransition)
      else
        var reported := AppendEvents(Recovered(db, lease), lease.runId, TaskRecovered, Some(lease.generation), |tasks|);
        Ok(AppendEvents(reported, lease.runId, AgentStatusChanged, None, 2 * |agents|))
  }

  // ----- Agents -----

  function SpawnAgent(db: Database, id: AgentId, runId: RunId, lease: Option<Fence>, now: Time): (r: Outcome)
    ensures r.Ok? ==> r.value == db.(agents := r.value.agents, runs := r.value.runs, events := r.value.events)
  {
    if !MayWrite(db, lease, runId, now) then Err(Fenced)
    else if id in db.agents then Err(Duplicate)
    else if runId !in db.runs then Err(NotFound)
    else
      var generation := if lease.Some? then Some(lease.value.generation) else None;
      Ok(AppendEvent(db.(agents := db.agents[id := Agent(runId, AgentCreated, generation)]), runId, AgentStatusChanged,
          generation))
  }

  function TransitionAgent(db: Database, id: AgentId, to: AgentStatus, lease: Option<Fence>, now: Time): (r: Outcome)
    ensures r.Ok? ==> r.value == db.(agents := r.value.agents, runs := r.value.runs, events := r.value.events)
  {
    if lease.Some? && !LeaseHolds(db, lease.value, now) then Err(Fenced)
    else if id !in db.agents then Err(NotFound)
    else
      var agent := db.agents[id];
      if lease.Some? && agent.runId != lease.value.runId then Err(WrongRun)
      else if !CanMoveAgent(agent.status, to) then Err(InvalidTransition)
      else if agent.runId !in db.runs then Err(NotFound)
      else
        var generation := if lease.Some? then Some(lease.value.generation) else agent.generation;
        Ok(AppendEvent(db.(agents := db.agents[id := agent.(status := to, generation := generation)]),
                       agent.runId, AgentStatusChanged, if lease.Some? then generation else None))
  }

  /** `markAgentActive` records under which generation an agent works, and no event. */
  function MarkAgentActive(db: Database, lease: Fence, id: AgentId, now: Time): (r: Outcome)
    ensures r.Ok? ==> r.value == db.(agents := r.value.agents)
  {
    if !LeaseHolds(db, lease, now) then Err(Fenced)
    else if id !in db.agents then Err(NotFound)
    else if db.agents[id].runId != lease.runId then Err(WrongRun)
    else Ok(db.(agents := db.agents[id := db.agents[id].(generation := Some(lease.generation))]))
  }

  // ----- Resource locks -----

  function GenerationOf(lease: Option<Fence>): nat
  {
    if lease.Some? then lease.value.generation else 0
  }

  predicate OwnedBy(lock: Lock, executor: ExecutorId, runId: RunId, generation: nat)
  {
    lock.holder == executor && lock.runId == runId && lock.generation == generation
  }

  /** The locks `acquireResourceLocks` leaves in place before it looks for conflicts. */
  predicate Survives(lock: Lock, runId: RunId, lease: Option<Fence>, now: Time)
  {
    && (lease.Some? ==> !(lock.runId == runId && lock.generation < lease.value.generation))
    && now < lock.expiresAt
  }

  function Keep(locks: seq<Lock>, keep: Lock -> bool): (r: seq<Lock>)
    ensures forall l :: l in r <==> l in locks && keep(l)
  {
    if locks == [] then []
    else (if keep(locks[0]) then [locks[0]] else []) + Keep(locks[1..], keep)
  }

  predicate Obstructed(locks: seq<Lock>, scopes: seq<Scope>, executor: ExecutorId, runId: RunId, generation: nat)
  {
    exists i, j :: 0 <= i < |scopes| && 0 <= j < |locks| && !OwnedBy(locks[j], executor, runId, generation)
                   && Scopes.Conflict(scopes[i], locks[j].scope)
  }

  function NewLocks(executor: ExecutorId, runId: RunId, generation: nat, scopes: seq<Scope>,
      expiresAt: Time): (r: seq<Lock>)
    ensures |r| == |scopes|
    ensures forall i :: 0 <= i < |r| ==> r[i] == Lock(runId, executor, generation, scopes[i], expiresAt)
  {
    seq(|scopes|, i requires 0 <= i < |scopes| => Lock(runId, executor, generation, scopes[i], expiresAt))
  }

  /** `acquireResourceLocks`: all of the scopes or none. */
  function AcquireLocks(db: Database, executor: ExecutorId, runId: RunId, scopes: seq<Scope>, ttl: int,
      lease: Option<Fence>, now: Time): (r: Outcome)
    ensures r.Ok? ==> r.value == db.(locks := r.value.locks)
  {
    if !MayWrite(db, lease, runId, now) then Err(Fenced)
    else if runId !in db.runs && scopes != [] then Err(NotFound)
    else
      var generation := GenerationOf(lease);
      var existing := Keep(db.locks, l => Survives(l, runId, lease, now));
      if Obstructed(existing, scopes, executor, runId, generation) then Err(LockConflict)
      else Ok(db.(locks := existing + NewLocks(executor, runId, generation, scopes, now + ttl)))
  }

  function ReleaseLocks(db: Database, executor: ExecutorId, runId: RunId, generation: nat): (r: Outcome)
    ensures r.Ok? ==> r.value == db.(locks := r.value.locks)
  {
    Ok(db.(locks := Keep(db.locks, l => !OwnedBy(l, executor, runId, generation))))
  }

  datatype TaskOp =
    | DoCreateTask(taskId: TaskId, runId: RunId, dependencies: seq<TaskId>, lease: Option<Fence>)
    | DoClaimTask(fence: Fence, taskId: TaskId, agentId: AgentId)
    | DoTransitionTask(taskId: TaskId, taskTo: TaskStatus, lease: Option<Fence>)
    | DoRecoverGraphWork(fence: Fence)
    | DoSpawnAgent(agentId: AgentId, runId: RunId, lease: Option<Fence>)
    | DoTransitionAgent(agentId: AgentId, agentTo: AgentStatus, lease: Option<Fence>)
    | DoMarkAgentActive(fence: Fence, agentId: AgentId)
    | DoAcquireLocks(executor: ExecutorId, runId: RunId, scopes: seq<Scope>, ttl: int, lease: Option<Fence>)
    | DoReleaseLocks(executor: ExecutorId, runId: RunId, generation: nat)

  function TaskStep(db: Database, op: TaskOp, now: Time): Outcome
  {
    match op
    case DoCreateTask(id, r, d, l) => CreateTask(db, id, r, d, l, now)
    case DoClaimTask(f, id, a) => ClaimTask(db, f, id, a, now)
    case DoTransitionTask(id, to, l) => TransitionTask(db, id, to, l, now)
    case DoRecoverGraphWork(f) => RecoverGraphWork(db, f, now)
    case DoSpawnAgent(id, r, l) => SpawnAgent(db, id, r, l, now)
    case DoTransitionAgent(id, to, l) => TransitionAgent(db, id, to, l, now)
    case DoMarkAgentActive(f, id) => MarkAgentActive(db, f, id, now)
    case DoAcquireLocks(e, r, s, ttl, l) => AcquireLocks(db, e, r, s, ttl, l, now)
    case DoReleaseLocks(e, r, g) => ReleaseLocks(db, e, r, g)
  }
}
