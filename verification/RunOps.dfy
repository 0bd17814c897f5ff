/** Runs, goals, commands, wakes, leases and continuations: each function is one transaction. */
module RunOps {
  import opened Outcomes
  import opened Tables

  // ----- Runs and goals -----

  /** The rows `createRun` inserts before anything moves. */
  function Inserted(db: Database, runId: RunId, goalId: GoalId, coordinator: AgentId, version: string, budget: Budget,
                    requirements: map<RequirementId, bool>): (r: Database)
    ensures r == db.(runs := r.runs, goals := r.goals, agents := r.agents, requirements := r.requirements)
    ensures r.runs == db.runs[runId := Run(Queued, goalId, budget, NoUsage(), 0, 0, 0)]
  {
    db.(runs := db.runs[runId := Run(Queued, goalId, budget, NoUsage(), 0, 0, 0)],
        goals := db.goals[goalId := Goal(runId, GoalActive, version, 0)],
        agents := db.agents[coordinator := Agent(runId, AgentQueued, None)],
        requirements := db.requirements
          + map id | id in requirements :: Requirement(runId, requirements[id], Unproven, []))
  }

  function CreateRun(db: Database, runId: RunId, goalId: GoalId, coordinator: AgentId, version: string, budget: Budget,
                     requirements: map<RequirementId, bool>, now: Time): (r: Outcome)
    ensures r.Ok? ==>
              r.value == db.(runs := r.value.runs, goals := r.value.goals, agents := r.value.agents,
                             requirements := r.value.requirements, events := r.value.events, actions := r.value.actions)
  {
    if runId in db.runs || goalId in db.goals || coordinator in db.agents then Err(Duplicate)
    else if !(requirements.Keys !! db.requirements.Keys) then Err(Duplicate)
    else
      var inserted := Inserted(db, runId, goalId, coordinator, version, budget, requirements);
      match MoveRun(AppendEvent(inserted, runId, RunCreated, None), runId, Running)
      case Err(e) => Err(e)
      case Ok(running) => Ok(Started(running, runId, coordinator, now))
  }

  function Started(db: Database, runId: RunId, coordinator: AgentId, now: Time): (r: Database)
    requires runId in db.runs
    ensures r == db.(runs := r.runs, agents := r.agents, events := r.events, actions := r.actions)
  {
    var started := db.(agents := db.agents[coordinator := Agent(runId, AgentRunning, None)]);
    EnsureContinuation(AppendEvent(started, runId, AgentStatusChanged, None), runId, now)
  }

  /** `transitionRun`; its type does not let a caller ask for `completed`. */
  function TransitionRun(db: Database, runId: RunId, to: RunStatus, lease: Option<Fence>, expectedRevision: Option<nat>,
                         now: Time): (r: Outcome)
    requires to != Completed
    ensures r.Ok? ==> r.value == db.(runs := r.value.runs, events := r.value.events, actions := r.value.actions)
  {
    if !MayWrite(db, lease, runId, now) then Err(Fenced)
    else if runId !in db.runs then Err(NotFound)
    else if expectedRevision.Some? && expectedRevision.value != db.runs[runId].revision then Err(RevisionConflict)
    else MoveAndContinue(db, runId, to, now)
  }

  /** `setGoalStatus`; whatever lease a caller passes to it is never looked at. */
  function SetGoalStatus(db: Database, goalId: GoalId, expectedVersion: string, to: GoalStatus, now: Time): (r: Outcome)
    ensures r.Ok? ==> r.value == db.(goals := r.value.goals, runs := r.value.runs, events := r.value.events,
        actions := r.value.actions)
  {
    if goalId !in db.goals then Err(NotFound)
    else
      var goal := db.goals[goalId];
      if goal.version != expectedVersion then Err(RevisionConflict)
      else if !CanMoveGoal(goal.status, to) then Err(InvalidTransition)
      else if goal.runId !in db.runs then Err(NotFound)
      else
        var moved := AppendEvent(db.(goals := db.goals[goalId := goal.(status := to)]), goal.runId, GoalStatusChanged,
            None);
        Ok(if to == GoalActive then EnsureContinuation(moved, goal.runId, now) else moved)
  }

  function AppendFencedEvent(db: Database, lease: Fence, now: Time): (r: Outcome)
    ensures r.Ok? ==> r.value == db.(runs := r.value.runs, events := r.value.events)
  {
    if !LeaseHolds(db, lease, now) then Err(Fenced)
    else if lease.runId !in db.runs then Err(NotFound)
    else Ok(AppendEvent(db, lease.runId, Reported, Some(lease.generation)))
  }

  // ----- Commands -----

  datatype Command = Pause | Resume | Cancel

  predicate AlreadyExecuted(db: Database, runId: RunId, commandId: string)
  {
    commandId in db.receipts && db.receipts[commandId].runId == runId
  }

  /** The transition a command asks for; a running Run has nothing to resume. */
  function CommandTarget(command: Command, status: RunStatus): Option<RunStatus>
  {
    match command
    case Pause => Some(Paused)
    case Cancel => Some(Cancelled)
    case Resume =>
      if status == Running then None
      else if status == Paused || status == WaitingExternal then Some(Running)
      else Some(Queued)
  }

  function ObeyCommand(db: Database, runId: RunId, command: Command, now: Time): (r: Outcome)
    requires runId in db.runs
    ensures r.Ok? ==> r.value == db.(runs := r.value.runs, events := r.value.events, actions := r.value.actions)
  {
    match CommandTarget(command, db.runs[runId].status)
    case None => Ok(db)
    case Some(to) => MoveAndContinue(db, runId, to, now)
  }

  /** `executeCommand`: the receipt commits with the transition. */
  function ExecuteCommand(db: Database, runId: RunId, commandId: string, command: Command, now: Time): (r: Outcome)
    ensures r.Ok? ==> r.value == db.(runs := r.value.runs, events := r.value.events, actions := r.value.actions,
        receipts := r.value.receipts)
  {
    if AlreadyExecuted(db, runId, commandId) then Ok(db)
    else if runId !in db.runs then Err(NotFound)
    else
      match ObeyCommand(db, runId, command, now)
      case Err(e) => Err(e)
      case Ok(obeyed) =>
        if commandId in db.receipts || runId !in obeyed.runs then Err(Duplicate)
        else Ok(obeyed.(receipts := obeyed.receipts[commandId := Receipt(runId, obeyed.runs[runId])]))
  }

  // ----- Timers -----

  function ScheduleWake(db: Database, runId: RunId, wakeAt: Time, lease: Option<Fence>, now: Time): (r: Outcome)
    ensures r.Ok? ==> r.value == db.(wakes := r.value.wakes, runs := r.value.runs, events := r.value.events)
  {
    if !MayWrite(db, lease, runId, now) then Err(Fenced)
    else if runId !in db.runs then Err(NotFound)
    else
      var scheduled := db.(wakes := db.wakes + [Wake(runId, wakeAt, false)]);
      if db.runs[runId].status == Running then MoveRun(scheduled, runId, WaitingExternal) else Ok(scheduled)
  }

  predicate Due(w: Wake, now: Time) { !w.woken && w.wakeAt <= now }

  /** What `wakeDueRuns` does for the condition at index `i`. */
  function WakeOne(db: Database, i: nat, now: Time): (r: Outcome)
    requires i < |db.wakes|
    ensures r.Ok? ==> |r.value.wakes| == |db.wakes|
    ensures r.Ok? ==> r.value == db.(wakes := r.value.wakes, runs := r.value.runs, events := r.value.events,
                                     actions := r.value.actions)
  {
    var w := db.wakes[i];
    var marked := db.(wakes := db.wakes[i := w.(woken := true)]);
    if w.runId !in db.runs then Err(NotFound)
    else if db.runs[w.runId].status != WaitingExternal then Ok(EnsureContinuation(marked, w.runId, now))
    else MoveAndContinue(marked, w.runId, Running, now)
  }

  /** The conditions from index `i` on, in order. */
  function WakeDueFrom(db: Database, i: nat, now: Time): (r: Outcome)
    requires i <= |db.wakes|
    ensures r.Ok? ==> r.value == db.(wakes := r.value.wakes, runs := r.value.runs, events := r.value.events,
        actions := r.value.actions)
    decreases |db.wakes| - i
  {
    if i == |db.wakes| then Ok(db)
    else if !Due(db.wakes[i], now) then WakeDueFrom(db, i + 1, now)
    else
      match WakeOne(db, i, now)
      case Err(e) => Err(e)
      case Ok(next) => WakeDueFrom(next, i + 1, now)
  }

  // ----- Leases -----

  /** The generation an acquisition grants: the holder keeps it only while its lease lives. */
  function GrantedGeneration(db: Database, runId: RunId, executor: ExecutorId, now: Time): nat
  {
    if runId !in db.leases then 1
    else
      var current := db.leases[runId];
      current.generation + (if current.holder == executor && current.expiresAt > now then 0 else 1)
  }

  function AcquireLease(db: Database, runId: RunId, executor: ExecutorId, ttl: int, now: Time): (r: Outcome)
    ensures r.Ok? ==> r.value == db.(leases := r.value.leases, runs := r.value.runs)
  {
    if runId in db.leases && db.leases[runId].holder != executor && db.leases[runId].expiresAt > now then Err(Fenced)
    else if runId !in db.runs then Err(NotFound)
    else
      var run := db.runs[runId];
      Ok(db.(leases := db.leases[runId := Lease(executor, GrantedGeneration(db, runId, executor, now), now + ttl)],
             runs := db.runs[runId := run.(epoch := run.epoch + 1)]))
  }

  function RenewLease(db: Database, lease: Fence, ttl: int, now: Time): (r: Outcome)
    ensures r.Ok? ==> r.value == db.(leases := r.value.leases)
  {
    if !LeaseHolds(db, lease, now) then Err(Fenced)
    else Ok(db.(leases := db.leases[lease.runId := db.leases[lease.runId].(expiresAt := now + ttl)]))
  }

  // ----- Continuations -----

  /** The continuation is offered: pending, due, and its Run and goal want it. */
  predicate Claimable(db: Database, runId: RunId, now: Time)
  {
    && runId in db.actions && db.actions[runId].claim == None && db.actions[runId].dueAt <= now
    && runId in db.runs && db.runs[runId].status == Running && GoalIsActive(db, runId)
  }

  /** `claimContinuation`; a caller that is offered nothing changes nothing. */
  function ClaimContinuation(db: Database, lease: Fence, now: Time): (r: Outcome)
    ensures r.Ok? ==> r.value == db.(actions := r.value.actions, goals := r.value.goals)
  {
    if !LeaseHolds(db, lease, now) then Err(Fenced)
    else if !Claimable(db, lease.runId, now) then Ok(db)
    else
      var action := db.actions[lease.runId];
      var goal := db.runs[lease.runId].currentGoal;
      Ok(db.(actions := db.actions[lease.runId := action.(claim := Some(Claim(lease.executorId, lease.generation)),
                                                          attempt := action.attempt + 1)],
             goals := db.goals[goal := db.goals[goal].(continuations := db.goals[goal].continuations + 1)]))
  }

  predicate ClaimedBy(db: Database, lease: Fence)
  {
    lease.runId in db.actions && db.actions[lease.runId].claim == Some(Claim(lease.executorId, lease.generation))
  }

  function SettleContinuation(db: Database, lease: Fence, requeue: bool, now: Time): (r: Outcome)
    ensures r.Ok? ==> r.value == db.(actions := r.value.actions)
  {
    if !LeaseHolds(db, lease, now) then Err(Fenced)
    else
      var settled := if ClaimedBy(db, lease) then db.(actions := db.actions - {lease.runId}) else db;
      Ok(if requeue then EnsureContinuation(settled, lease.runId, now) else settled)
  }

  datatype RunOp =
    | DoCreateRun(runId: RunId, goalId: GoalId, coordinator: AgentId, version: string, budget: Budget,
                  requirements: map<RequirementId, bool>)
    | DoTransitionRun(runId: RunId, to: RunStatus, lease: Option<Fence>, expectedRevision: Option<nat>)
    | DoSetGoalStatus(goalId: GoalId, expectedVersion: string, goalTo: GoalStatus, lease: Option<Fence>)
    | DoAppendFencedEvent(fence: Fence)
    | DoExecuteCommand(runId: RunId, commandId: string, command: Command)
    | DoScheduleWake(runId: RunId, wakeAt: Time, lease: Option<Fence>)
    | DoWakeDueRuns
    | DoAcquireLease(runId: RunId, executor: ExecutorId, ttl: int)
    | DoRenewLease(fence: Fence, ttl: int)
    | DoClaimContinuation(fence: Fence)
    | DoSettleContinuation(fence: Fence, requeue: bool)

  function RunStep(db: Database, op: RunOp, now: Time): Outcome
  {
    match op
    case DoCreateRun(r, g, a, v, b, q) => CreateRun(db, r, g, a, v, b, q, now)
    case DoTransitionRun(r, to, l, e) => if to == Completed then Err(InvalidTransition)
        else TransitionRun(db, r, to, l, e, now)
    case DoSetGoalStatus(g, v, to, _) => SetGoalStatus(db, g, v, to, now)
    case DoAppendFencedEvent(f) => AppendFencedEvent(db, f, now)
    case DoExecuteCommand(r, id, c) => ExecuteCommand(db, r, id, c, now)
    case DoScheduleWake(r, w, l) => ScheduleWake(db, r, w, l, now)
    case DoWakeDueRuns => WakeDueFrom(db, 0, now)
    case DoAcquireLease(r, e, ttl) => AcquireLease(db, r, e, ttl, now)
    case DoRenewLease(f, ttl) => RenewLease(db, f, ttl, now)
    case DoClaimContinuation(f) => ClaimContinuation(db, f, now)
    case DoSettleContinuation(f, q) => SettleContinuation(db, f, q, now)
  }
}
