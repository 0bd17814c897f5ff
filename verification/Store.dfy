/** The store as a state machine: a transaction is one atomic step, and an error leaves no trace.
    Any number of processes take steps in any order, each reading whatever clock it has; a crash is a
    process that takes no more of them. */
module Store {
  import opened Outcomes
  import opened Tables
  import opened RunOps
  import opened WorkOps
  import opened TaskOps

  datatype Op = RunPart(run: RunOp) | WorkPart(work: WorkOp) | TaskPart(task: TaskOp)

  /** One transaction, and the clock reading its process made. */
  datatype Entry = Entry(op: Op, now: Time)

  function Step(db: Database, e: Entry): Outcome
  {
    match e.op
    case RunPart(op) => RunStep(db, op, e.now)
    case WorkPart(op) => WorkStep(db, op, e.now)
    case TaskPart(op) => TaskStep(db, op, e.now)
  }

  predicate Commits(db: Database, e: Entry) { Step(db, e).Ok? }

  function Next(db: Database, e: Entry): Database
  {
    match Step(db, e)
    case Ok(next) => next
    case Err(_) => db
  }

  function Play(db: Database, history: seq<Entry>): Database
  {
    if history == [] then db
    else Next(Play(db, history[..|history| - 1]), history[|history| - 1])
  }

  lemma {:induction false} PlayAppend(db: Database, first: seq<Entry>, second: seq<Entry>)
    ensures Play(db, first + second) == Play(Play(db, first), second)
    decreases |second|
  {
    hide Next;
    if second == [] {
      assert first + second == first;
    } else {
      var n := |second| - 1;
      PlayAppend(db, first, second[..n]);
      assert (first + second)[..|first + second| - 1] == first + second[..n];
    }
  }

  // ----- Which tables an operation can touch -----

  predicate TouchesLeases(op: Op) { op.RunPart? && (op.run.DoAcquireLease? || op.run.DoRenewLease?) }

  predicate TouchesToolCalls(op: Op)
  {
    op.WorkPart? && (op.work.DoRecordToolIntent? || op.work.DoCompleteToolCall?
                     || op.work.DoReconcileInterrupted? || op.work.DoRecoverClaimedWork?)
  }

  predicate TouchesApprovals(op: Op)
  {
    op.WorkPart? && (op.work.DoRequestApproval? || op.work.DoResolveApproval? || op.work.DoRecordToolIntent?)
  }

  predicate TouchesUsage(op: Op)
  {
    op.WorkPart? && (op.work.DoRecordUsage? || op.work.DoRecordUsageFenced? || op.work.DoRecordToolIntent?)
  }

  predicate TouchesTasks(op: Op)
  {
    op.TaskPart? && (op.task.DoCreateTask? || op.task.DoClaimTask? || op.task.DoTransitionTask?
                     || op.task.DoRecoverGraphWork?)
  }

  predicate TouchesLocks(op: Op) { op.TaskPart? && (op.task.DoAcquireLocks? || op.task.DoReleaseLocks?) }

  predicate TouchesActions(op: Op)
  {
    || (op.RunPart? && !op.run.DoAppendFencedEvent? && !op.run.DoScheduleWake? && !op.run.DoAcquireLease?
        && !op.run.DoRenewLease?)
    || (op.WorkPart? && (op.work.DoResolveApproval? || op.work.DoRecoverClaimedWork?))
  }

  predicate TouchesEvidence(op: Op)
  {
    || (op.RunPart? && op.run.DoCreateRun?)
    || (op.WorkPart? && (op.work.DoAddRequirement? || op.work.DoAddEvidence? || op.work.DoSetRequirementStatus?
                         || op.work.DoRecordValidation?))
  }

  /** An operation leaves every table alone that it has no business with. */
  predicate Framed(op: Op, db: Database, next: Database)
  {
    && (TouchesLeases(op) || next.leases == db.leases)
    && (TouchesToolCalls(op) || next.toolCalls == db.toolCalls)
    && (TouchesApprovals(op) || next.approvals == db.approvals)
    && (TouchesUsage(op) || next.usageEntries == db.usageEntries)
    && (TouchesTasks(op) || next.tasks == db.tasks)
    && (TouchesLocks(op) || next.locks == db.locks)
    && (TouchesActions(op) || next.actions == db.actions)
    && (TouchesEvidence(op) || (next.requirements == db.requirements && next.validations == db.validations))
    && ((op.RunPart? && op.run.DoExecuteCommand?) || next.receipts == db.receipts)
  }

  lemma Frames(db: Database, e: Entry)
    ensures Framed(e.op, db, Next(db, e))
  {
    hide RunStep, WorkStep, TaskStep;
    match e.op
    case RunPart(op) => RunFrames(db, op, e.now);
    case WorkPart(op) => WorkFrames(db, op, e.now);
    case TaskPart(op) => TaskFrames(db, op, e.now);
  }

  lemma RunFrames(db: Database, op: RunOp, now: Time)
    ensures RunStep(db, op, now).Ok? ==> Framed(RunPart(op), db, RunStep(db, op, now).value)
  {
    hide CreateRun, TransitionRun, SetGoalStatus, AppendFencedEvent, ExecuteCommand, ScheduleWake, WakeDueFrom,
         AcquireLease, RenewLease, ClaimContinuation, SettleContinuation;
  }

  lemma WorkFrames(db: Database, op: WorkOp, now: Time)
    ensures WorkStep(db, op, now).Ok? ==> Framed(WorkPart(op), db, WorkStep(db, op, now).value)
  {
    hide Charge, RecordUsageFenced, RequestApproval, ResolveApproval, RecordToolIntent, CompleteToolCall,
         ReconcileInterrupted, RecoverClaimedWork, AddRequirement, AddEvidence, SetRequirementStatus,
         RecordValidation, ProposeCompletion;
  }

  lemma TaskFrames(db: Database, op: TaskOp, now: Time)
    ensures TaskStep(db, op, now).Ok? ==> Framed(TaskPart(op), db, TaskStep(db, op, now).value)
  {
    hide CreateTask, ClaimTask, TransitionTask, RecoverGraphWork, SpawnAgent, TransitionAgent, MarkAgentActive,
         AcquireLocks, ReleaseLocks;
  }

  // ----- Fenced operations -----

  /** The fence an operation presents, if it presents one. */
  function FenceOf(op: Op): Option<Fence>
  {
    match op
    case RunPart(o) =>
      (match o
       case DoTransitionRun(_, _, lease, _) => lease
       case DoSetGoalStatus(_, _, _, lease) => lease
       case DoScheduleWake(_, _, lease) => lease
       case DoAppendFencedEvent(fence) => Some(fence)
       case DoRenewLease(fence, _) => Some(fence)
       case DoClaimContinuation(fence) => Some(fence)
       case DoSettleContinuation(fence, _) => Some(fence)
       case _ => None)
    case WorkPart(o) =>
      (match o
       case DoRequestApproval(_, _, lease) => lease
       case DoAddRequirement(_, _, _, lease) => lease
       case DoAddEvidence(_, _, _, lease) => lease
       case DoSetRequirementStatus(_, _, _, lease) => lease
       case DoRecordValidation(_, _, _, lease) => lease
       case DoProposeCompletion(_, _, _, lease) => lease
       case DoRecordUsageFenced(fence, _, _) => Some(fence)
       case DoRecordToolIntent(fence, _, _) => Some(fence)
       case DoCompleteToolCall(fence, _, _) => Some(fence)
       case DoRecoverClaimedWork(fence) => Some(fence)
       case _ => None)
    case TaskPart(o) =>
      (match o
       case DoCreateTask(_, _, _, lease) => lease
       case DoTransitionTask(_, _, lease) => lease
       case DoSpawnAgent(_, _, lease) => lease
       case DoTransitionAgent(_, _, lease) => lease
       case DoAcquireLocks(_, _, _, _, lease) => lease
       case DoClaimTask(fence, _, _) => Some(fence)
       case DoRecoverGraphWork(fence) => Some(fence)
       case DoMarkAgentActive(fence, _) => Some(fence)
       case _ => None)
  }

  /** `setGoalStatus` takes a fence and never checks it; it is the only operation that does so. */
  predicate IgnoresFence(op: Op) { op.RunPart? && op.run.DoSetGoalStatus? }

  /** Every other transaction that presents a fence commits only while that fence is the live lease. */
  lemma CommitsUnderLease(db: Database, e: Entry)
    requires FenceOf(e.op).Some? && !IgnoresFence(e.op) && Commits(db, e)
    ensures LeaseHolds(db, FenceOf(e.op).value, e.now)
    ensures var fence := FenceOf(e.op).value;
            && fence.runId in db.leases
            && var lease := db.leases[fence.runId];
               lease.holder == fence.executorId && lease.generation == fence.generation && e.now < lease.expiresAt
  {
    match e.op
    case RunPart(o) => FencedRunOp(db, o, e.now);
    case WorkPart(o) => FencedWorkOp(db, o, e.now);
    case TaskPart(o) => FencedTaskOp(db, o, e.now);
  }

  lemma FencedRunOp(db: Database, op: RunOp, now: Time)
    requires FenceOf(RunPart(op)).Some? && !IgnoresFence(RunPart(op)) && RunStep(db, op, now).Ok?
    ensures LeaseHolds(db, FenceOf(RunPart(op)).value, now)
  {
    hide LeaseHolds, MoveAndContinue, MoveRun, EnsureContinuation, AppendEvent, Claimable, ClaimedBy,
         CreateRun, ExecuteCommand, SetGoalStatus, WakeDueFrom;
  }

  lemma FencedWorkOp(db: Database, op: WorkOp, now: Time)
    requires FenceOf(WorkPart(op)).Some? && WorkStep(db, op, now).Ok?
    ensures LeaseHolds(db, FenceOf(WorkPart(op)).value, now)
  {
    hide LeaseHolds, MoveAndContinue, MoveRun, AppendEvent, Charge, Consume, MarkUnknown, OfferAgain, HasEntry,
         Completable, Authorizes, CanMarkProven, ResolveApproval, ReconcileInterrupted;
  }

  lemma FencedTaskOp(db: Database, op: TaskOp, now: Time)
    requires FenceOf(TaskPart(op)).Some? && TaskStep(db, op, now).Ok?
    ensures LeaseHolds(db, FenceOf(TaskPart(op)).value, now)
  {
    hide LeaseHolds, AppendEvent, AppendEvents, Refresh, CanMoveTask, CanMoveAgent, Obstructed, Keep, NewLocks,
         ReleaseLocks, StrandedTasks, StrandedAgents;
  }
}
