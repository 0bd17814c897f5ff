/** The rows and tables of the control plane's database, and its lifecycle tables. */
module Tables {
  import opened Outcomes

  type RunId = string
  type GoalId = string
  type TaskId = string
  type AgentId = string
  type ToolCallId = string
  type ApprovalId = string
  type RequirementId = string
  type ExecutorId = string
  /** An ISO timestamp, as the instant it stands for. */
  type Time = int

  datatype RunStatus =
    | Queued | Running | WaitingExternal | Paused | Recovering | Blocked
    | BudgetLimited | UsageLimited | Failed | Completed | Cancelled

  datatype GoalStatus = GoalActive | GoalPaused | GoalBlocked | GoalWaiting | GoalBudgetLimited
                      | GoalUsageLimited | GoalComplete | GoalCancelled

  datatype TaskStatus = TaskPending | TaskReady | TaskRunning | TaskWaiting | TaskBlocked
                      | TaskCompleted | TaskFailed | TaskCancelled

  datatype AgentStatus = AgentCreated | AgentQueued | AgentRunning | AgentWaiting | AgentSuspended
                       | AgentRecovering | AgentCompleted | AgentFailed | AgentStopped | AgentClosed

  predicate CanMoveRun(from: RunStatus, to: RunStatus)
  {
    match from
    case Queued => to.Running? || to.Paused? || to.Failed? || to.Cancelled?
    case Running => to.WaitingExternal? || to.Paused? || to.Recovering? || to.Blocked? || to.BudgetLimited?
        || to.UsageLimited? || to.Failed? || to.Completed? || to.Cancelled?
    case WaitingExternal => to.Running? || to.Paused? || to.Recovering? || to.Blocked? || to.BudgetLimited?
        || to.UsageLimited? || to.Failed? || to.Cancelled?
    case Paused => to.Queued? || to.Running? || to.Recovering? || to.Cancelled?
    case Recovering => to.Running? || to.WaitingExternal? || to.Paused? || to.Blocked? || to.BudgetLimited?
        || to.UsageLimited? || to.Failed? || to.Cancelled?
    case Blocked => to.Queued? || to.Running? || to.Paused? || to.Cancelled?
    case BudgetLimited => to.Queued? || to.Running? || to.Paused? || to.Cancelled?
    case UsageLimited => to.Queued? || to.Running? || to.Paused? || to.Cancelled?
    case _ => false
  }

  predicate IsTerminal(status: RunStatus) { status.Failed? || status.Completed? || status.Cancelled? }

  predicate CanMoveGoal(from: GoalStatus, to: GoalStatus)
  {
    match from
    case GoalActive => to.GoalPaused? || to.GoalBlocked? || to.GoalWaiting? || to.GoalBudgetLimited?
        || to.GoalUsageLimited? || to.GoalComplete? || to.GoalCancelled?
    case GoalPaused => to.GoalActive? || to.GoalCancelled?
    case GoalBlocked => to.GoalActive? || to.GoalPaused? || to.GoalCancelled?
    case GoalWaiting => to.GoalActive? || to.GoalPaused? || to.GoalBlocked? || to.GoalBudgetLimited?
        || to.GoalUsageLimited? || to.GoalCancelled?
    case GoalBudgetLimited => to.GoalActive? || to.GoalPaused? || to.GoalCancelled?
    case GoalUsageLimited => to.GoalActive? || to.GoalPaused? || to.GoalCancelled?
    case _ => false
  }

  predicate CanMoveTask(from: TaskStatus, to: TaskStatus)
  {
    match from
    case TaskPending => to.TaskReady? || to.TaskCancelled?
    case TaskReady => to.TaskPending? || to.TaskRunning? || to.TaskCancelled?
    case TaskRunning => to.TaskWaiting? || to.TaskBlocked? || to.TaskCompleted? || to.TaskFailed? || to.TaskCancelled?
    case TaskWaiting => to.TaskReady? || to.TaskRunning? || to.TaskBlocked? || to.TaskCancelled?
    case TaskBlocked => to.TaskReady? || to.TaskPending? || to.TaskCancelled?
    case TaskFailed => to.TaskReady? || to.TaskPending? || to.TaskCancelled?
    case _ => false
  }

  predicate CanMoveAgent(from: AgentStatus, to: AgentStatus)
  {
    match from
    case AgentCreated => to.AgentQueued? || to.AgentStopped? || to.AgentClosed?
    case AgentQueued => to.AgentRunning? || to.AgentSuspended? || to.AgentStopped? || to.AgentFailed? || to.AgentClosed?
    case AgentRunning => to.AgentWaiting? || to.AgentSuspended? || to.AgentRecovering? || to.AgentCompleted?
        || to.AgentFailed? || to.AgentStopped? || to.AgentClosed?
    case AgentWaiting => to.AgentQueued? || to.AgentRunning? || to.AgentSuspended? || to.AgentRecovering?
        || to.AgentStopped? || to.AgentFailed? || to.AgentClosed?
    case AgentSuspended => to.AgentQueued? || to.AgentRunning? || to.AgentStopped? || to.AgentClosed?
    case AgentRecovering => to.AgentQueued? || to.AgentRunning? || to.AgentWaiting? || to.AgentSuspended?
        || to.AgentFailed? || to.AgentStopped? || to.AgentClosed?
    case AgentCompleted => to.AgentClosed?
    case AgentFailed => to.AgentQueued? || to.AgentRecovering? || to.AgentClosed?
    case AgentStopped => to.AgentQueued? || to.AgentClosed?
    case AgentClosed => false
  }

  // ----- Rows -----

  datatype Lease = Lease(holder: ExecutorId, generation: nat, expiresAt: Time)

  /** What an executor presents with a write: `Pick<RunLease, ...>`. */
  datatype Fence = Fence(runId: RunId, executorId: ExecutorId, generation: nat)

  datatype Claim = Claim(holder: ExecutorId, epoch: nat)

  /** A `scheduled_actions` row: `pending` while unclaimed. */
  datatype Action = Action(dueAt: Time, claim: Option<Claim>, attempt: nat)

  datatype Goal = Goal(runId: RunId, status: GoalStatus, version: string, continuations: nat)

  /** Shared consumption; a `BudgetDelta` has zero where it names no metric. */
  datatype Usage = Usage(inputTokens: nat, outputTokens: nat, cachedTokens: nat, costUsd: real,
                         wallTimeMs: nat, toolCalls: nat, childAgents: nat)

  function NoUsage(): Usage { Usage(0, 0, 0, 0.0, 0, 0, 0) }

  function Calls(n: nat): Usage { Usage(0, 0, 0, 0.0, 0, n, 0) }

  datatype Reservation = Reservation(inputTokens: nat, outputTokens: nat, totalTokens: nat, costUsd: real,
                                     wallTimeMs: nat, toolCalls: nat)

  datatype Budget = Budget(maxInputTokens: Option<nat>, maxOutputTokens: Option<nat>, maxTotalTokens: Option<nat>,
                           maxCachedTokens: Option<nat>, maxCostUsd: Option<real>, maxWallTimeMs: Option<nat>,
                           maxToolCalls: Option<nat>, maxChildAgents: Option<nat>,
                           recovery: Reservation, validation: Reservation)

  datatype Run = Run(status: RunStatus, currentGoal: GoalId, budget: Budget, usage: Usage,
                     nextSequence: nat, revision: nat, epoch: nat)

  datatype EventKind =
    | RunCreated | RunStatusChanged(from: RunStatus, to: RunStatus) | GoalStatusChanged
    | TaskAssigned | TaskStatusChanged | TaskRecovered | AgentStatusChanged
    | ToolCallStarted | ToolCallFinished | RecoveryRequired
    | ApprovalRequested | ApprovalResolved | ValidationFinished | Reported

  datatype Event = Event(sequence: nat, kind: EventKind, generation: Option<nat>)

  datatype Task = Task(runId: RunId, status: TaskStatus, owner: Option<AgentId>, generation: Option<nat>,
                       attempt: nat, dependencies: set<TaskId>)

  datatype Agent = Agent(runId: RunId, status: AgentStatus, generation: Option<nat>)

  datatype ToolStatus = CallRunning | CallSucceeded | CallFailed | CallUnknown

  datatype ToolCall = ToolCall(runId: RunId, status: ToolStatus, generation: nat)

  datatype ApprovalStatus = ApprovalPending | Approved | Rejected | Expired | Consumed

  datatype Approval = Approval(runId: RunId, status: ApprovalStatus)

  datatype UsageEntry = UsageEntry(runId: RunId, key: string, agent: Option<AgentId>, delta: Usage)

  datatype Receipt = Receipt(runId: RunId, result: Run)

  datatype RequirementStatus = Contradicted | Proven | Unproven | Waived

  datatype Strength = Strong | Supporting | Weak

  datatype Requirement = Requirement(runId: RunId, required: bool, status: RequirementStatus, evidence: seq<Strength>)

  datatype Validation = Validation(runId: RunId, passed: bool, independent: bool)

  datatype ScopeKind = Custom | DatabaseScope | Deployment | File | Git | Process | Repository | Service

  datatype Access = Read | Write

  datatype Scope = Scope(kind: ScopeKind, identifier: string, access: Access)

  datatype Lock = Lock(runId: RunId, holder: ExecutorId, generation: nat, scope: Scope, expiresAt: Time)

  datatype Wake = Wake(runId: RunId, wakeAt: Time, woken: bool)

  // ----- Tables -----

  datatype Database = Database(
    runs: map<RunId, Run>,
    goals: map<GoalId, Goal>,
    events: map<RunId, seq<Event>>,
    leases: map<RunId, Lease>,
    actions: map<RunId, Action>,
    tasks: map<TaskId, Task>,
    agents: map<AgentId, Agent>,
    toolCalls: map<ToolCallId, ToolCall>,
    approvals: map<ApprovalId, Approval>,
    usageEntries: seq<UsageEntry>,
    receipts: map<string, Receipt>,
    requirements: map<RequirementId, Requirement>,
    validations: seq<Validation>,
    wakes: seq<Wake>,
    locks: seq<Lock>)

  const EMPTY_DATABASE :=
    Database(map[], map[], map[], map[], map[], map[], map[], map[], map[], [], map[], map[], [], [], [])

  datatype StoreError =
    | NotFound | Duplicate | Fenced | InvalidTransition | RevisionConflict | WrongRun
    | ClaimLost | AlreadyResolved | NotAuthorized | NoStrongEvidence | InvalidUsage | LockConflict

  /** A committed transaction's database, or the error that rolled it back. */
  type Outcome = Result<Database, StoreError>

  // ----- Writes shared by the operations -----

  /** The events of a Run, in sequence order. */
  function Journal(db: Database, runId: RunId): seq<Event>
  {
    if runId in db.events then db.events[runId] else []
  }

  /** `appendEventInternal`, for a Run that exists. */
  function AppendEvent(db: Database, runId: RunId, kind: EventKind, generation: Option<nat>): (r: Database)
    requires runId in db.runs
    ensures forall k :: k in r.runs <==> k in db.runs
    ensures r == db.(runs := r.runs, events := r.events)
  {
    var run := db.runs[runId];
    var next := run.nextSequence + 1;
    db.(runs := db.runs[runId := run.(nextSequence := next, revision := run.revision + 1)],
        events := db.events[runId := Journal(db, runId) + [Event(next, kind, generation)]])
  }

  /** `transitionRunInternal`. */
  function MoveRun(db: Database, runId: RunId, to: RunStatus): (r: Outcome)
    ensures r.Ok? ==> runId in db.runs && forall k :: k in r.value.runs <==> k in db.runs
    ensures r.Ok? ==> r.value == db.(runs := r.value.runs, events := r.value.events)
  {
    if runId !in db.runs then Err(NotFound)
    else
      var run := db.runs[runId];
      if !CanMoveRun(run.status, to) then Err(InvalidTransition)
      else
        var moved := db.(runs := db.runs[runId := run.(status := to, revision := run.revision + 1)]);
        Ok(AppendEvent(moved, runId, RunStatusChanged(run.status, to), None))
  }

  predicate GoalIsActive(db: Database, runId: RunId)
    requires runId in db.runs
  {
    var goal := db.runs[runId].currentGoal;
    goal in db.goals && db.goals[goal].status == GoalActive
  }

  /** `ensureContinuationInternal`: a row per running Run, inserted only if there is none. */
  function EnsureContinuation(db: Database, runId: RunId, now: Time): (r: Database)
    ensures r == db.(actions := r.actions)
  {
    if runId in db.runs && db.runs[runId].status == Running && GoalIsActive(db, runId) && runId !in db.actions
    then db.(actions := db.actions[runId := Action(now, None, 0)])
    else db
  }

  /** A move, and the continuation a Run that is running again needs. */
  function MoveAndContinue(db: Database, runId: RunId, to: RunStatus, now: Time): (r: Outcome)
    ensures r.Ok? ==> runId in db.runs && forall k :: k in r.value.runs <==> k in db.runs
    ensures r.Ok? ==> r.value == db.(runs := r.value.runs, events := r.value.events, actions := r.value.actions)
  {
    match MoveRun(db, runId, to)
    case Err(e) => Err(e)
    case Ok(moved) => Ok(if to == Running then EnsureContinuation(moved, runId, now) else moved)
  }

  // ----- Fences -----

  /** `canWriteWithLease`: the specification of the fence. */
  predicate CanWriteWithLease(runId: RunId, active: Lease, fence: Fence, now: Time)
  {
    && now < active.expiresAt
    && runId == fence.runId
    && active.holder == fence.executorId
    && active.generation == fence.generation
  }

  /** `assertLeaseInternal` does not throw. */
  predicate LeaseHolds(db: Database, fence: Fence, now: Time)
  {
    && fence.runId in db.leases
    && var current := db.leases[fence.runId];
       !(current.holder != fence.executorId || current.generation != fence.generation || current.expiresAt <= now)
  }

  /** An optional fence passes, or is not there; where it is there it belongs to `runId`. */
  predicate MayWrite(db: Database, lease: Option<Fence>, runId: RunId, now: Time)
  {
    lease.Some? ==> lease.value.runId == runId && LeaseHolds(db, lease.value, now)
  }

  /** The store's check is the core's specification of the fence. */
  lemma FenceAgrees(db: Database, fence: Fence, now: Time)
    ensures LeaseHolds(db, fence, now) <==>
            exists runId :: runId in db.leases && CanWriteWithLease(runId, db.leases[runId], fence, now)
  {
    if LeaseHolds(db, fence, now) {
      assert CanWriteWithLease(fence.runId, db.leases[fence.runId], fence, now);
    }
  }
}
