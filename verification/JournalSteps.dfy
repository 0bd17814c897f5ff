/** Every transaction keeps the journals: no Run or event is lost, and status follows the journal. */
module JournalSteps {
  import opened Outcomes
  import opened Tables
  import opened RunOps
  import opened WorkOps
  import opened TaskOps
  import opened Store
  import opened Journals

  // ----- Operations on Runs -----

  lemma InsertKeeps(db: Database, runId: RunId, written: Database)
    requires runId !in db.runs && written.events == db.events
    requires runId in written.runs && written.runs == db.runs[runId := written.runs[runId]]
    requires written.runs[runId].status == Queued && written.runs[runId].nextSequence == 0
    requires written.runs[runId].usage == NoUsage()
    ensures Keeps(db, written)
  {
    forall r ensures KeepsRun(db, written, r) {
      if r == runId && FaithfulFor(db, r) {
        assert Journal(written, r) == [];
      }
    }
  }

  lemma CreateRunKeeps(db: Database, runId: RunId, goalId: GoalId, coordinator: AgentId, version: string,
      budget: Budget, requirements: map<RequirementId, bool>, now: Time)
    ensures var r := CreateRun(db, runId, goalId, coordinator, version, budget, requirements, now);
            r.Ok? ==> Keeps(db, r.value)
  {
    hide Keeps, AppendEvent, EnsureContinuation, MoveRun, Inserted;
    if CreateRun(db, runId, goalId, coordinator, version, budget, requirements, now).Ok? {
      var inserted := Inserted(db, runId, goalId, coordinator, version, budget, requirements);
      InsertKeeps(db, runId, inserted);
      var created := AppendEvent(inserted, runId, RunCreated, None);
      AppendKeeps(inserted, runId, RunCreated, None);
      KeepsTwice(db, inserted, created);
      var running := MoveRun(created, runId, Running).value;
      MoveKeeps(created, runId, Running);
      KeepsTwice(db, created, running);
      StartedKeeps(running, runId, coordinator, now);
      KeepsTwice(db, running, Started(running, runId, coordinator, now));
    }
  }

  lemma StartedKeeps(db: Database, runId: RunId, coordinator: AgentId, now: Time)
    requires runId in db.runs
    ensures Keeps(db, Started(db, runId, coordinator, now))
  {
    hide Keeps, AppendEvent, EnsureContinuation;
    var started := db.(agents := db.agents[coordinator := Agent(runId, AgentRunning, None)]);
    WriteAndAppendKeeps(db, started, runId, AgentStatusChanged, None);
    WriteAfterKeeps(db, AppendEvent(started, runId, AgentStatusChanged, None), Started(db, runId, coordinator, now));
  }

  lemma SetGoalStatusKeeps(db: Database, goalId: GoalId, expectedVersion: string, to: GoalStatus, now: Time)
    ensures var r := SetGoalStatus(db, goalId, expectedVersion, to, now); r.Ok? ==> Keeps(db, r.value)
  {
    hide Keeps, AppendEvent, EnsureContinuation, CanMoveGoal;
    var r := SetGoalStatus(db, goalId, expectedVersion, to, now);
    if r.Ok? {
      var goal := db.goals[goalId];
      var written := db.(goals := db.goals[goalId := goal.(status := to)]);
      WriteAndAppendKeeps(db, written, goal.runId, GoalStatusChanged, None);
      WriteAfterKeeps(db, AppendEvent(written, goal.runId, GoalStatusChanged, None), r.value);
    }
  }

  lemma ExecuteCommandKeeps(db: Database, runId: RunId, commandId: string, command: Command, now: Time)
    ensures var r := ExecuteCommand(db, runId, commandId, command, now); r.Ok? ==> Keeps(db, r.value)
  {
    hide Keeps, MoveAndContinue;
    var r := ExecuteCommand(db, runId, commandId, command, now);
    KeepsFramed(db, db);
    if r.Ok? && !AlreadyExecuted(db, runId, commandId) {
      var target := CommandTarget(command, db.runs[runId].status);
      if target.Some? {
        WriteMoveAndContinueKeeps(db, db, runId, target.value, now);
      }
      WriteAfterKeeps(db, ObeyCommand(db, runId, command, now).value, r.value);
    }
  }

  lemma ScheduleWakeKeeps(db: Database, runId: RunId, wakeAt: Time, lease: Option<Fence>, now: Time)
    ensures var r := ScheduleWake(db, runId, wakeAt, lease, now); r.Ok? ==> Keeps(db, r.value)
  {
    hide Keeps, MoveRun, MayWrite;
    var r := ScheduleWake(db, runId, wakeAt, lease, now);
    if r.Ok? {
      var scheduled := db.(wakes := db.wakes + [Wake(runId, wakeAt, false)]);
      KeepsFramed(db, scheduled);
      if db.runs[runId].status == Running {
        WriteAndMoveKeeps(db, scheduled, runId, WaitingExternal);
      }
    }
  }

  lemma WakeOneKeeps(db: Database, i: nat, now: Time)
    requires i < |db.wakes|
    ensures var r := WakeOne(db, i, now); r.Ok? ==> Keeps(db, r.value)
  {
    hide Keeps, MoveAndContinue, EnsureContinuation;
    var r := WakeOne(db, i, now);
    if r.Ok? {
      var w := db.wakes[i];
      var marked := db.(wakes := db.wakes[i := w.(woken := true)]);
      if db.runs[w.runId].status != WaitingExternal {
        KeepsFramed(db, r.value);
      } else {
        WriteMoveAndContinueKeeps(db, marked, w.runId, Running, now);
      }
    }
  }

  lemma {:induction false} WakeDueFromKeeps(db: Database, i: nat, now: Time)
    requires i <= |db.wakes|
    ensures var r := WakeDueFrom(db, i, now); r.Ok? ==> Keeps(db, r.value)
    decreases |db.wakes| - i
  {
    hide Keeps, WakeOne;
    KeepsFramed(db, db);
    if i < |db.wakes| {
      if !Due(db.wakes[i], now) {
        WakeDueFromKeeps(db, i + 1, now);
      } else if WakeOne(db, i, now).Ok? {
        var next := WakeOne(db, i, now).value;
        WakeOneKeeps(db, i, now);
        WakeDueFromKeeps(next, i + 1, now);
        if WakeDueFrom(next, i + 1, now).Ok? {
          KeepsTwice(db, next, WakeDueFrom(next, i + 1, now).value);
        }
      }
    }
  }

  lemma AcquireLeaseKeeps(db: Database, runId: RunId, executor: ExecutorId, ttl: int, now: Time)
    ensures var r := AcquireLease(db, runId, executor, ttl, now); r.Ok? ==> Keeps(db, r.value)
  {
    hide Keeps, GrantedGeneration;
    var r := AcquireLease(db, runId, executor, ttl, now);
    if r.Ok? {
      var run := r.value.runs[runId];
      RowKeeps(db, runId, run);
      WriteAfterKeeps(db, db.(runs := db.runs[runId := run]), r.value);
    }
  }

  lemma RunStepKeeps(db: Database, op: RunOp, now: Time)
    ensures var r := RunStep(db, op, now); r.Ok? ==> Keeps(db, r.value)
  {
    hide Keeps, CreateRun, TransitionRun, SetGoalStatus, AppendFencedEvent, ExecuteCommand, ScheduleWake, WakeDueFrom,
         AcquireLease, RenewLease, ClaimContinuation, SettleContinuation;
    match op
    case DoCreateRun(r, g, a, v, b, q) => CreateRunKeeps(db, r, g, a, v, b, q, now);
    case DoTransitionRun(r, to, l, x) => if to != Completed { TransitionRunKeeps(db, r, to, l, x, now); }
    case DoSetGoalStatus(g, v, to, _) => SetGoalStatusKeeps(db, g, v, to, now);
    case DoAppendFencedEvent(f) => AppendFencedEventKeeps(db, f, now);
    case DoExecuteCommand(r, id, c) => ExecuteCommandKeeps(db, r, id, c, now);
    case DoScheduleWake(r, w, l) => ScheduleWakeKeeps(db, r, w, l, now);
    case DoWakeDueRuns => WakeDueFromKeeps(db, 0, now);
    case DoAcquireLease(r, x, ttl) => AcquireLeaseKeeps(db, r, x, ttl, now);
    case _ => if RunStep(db, op, now).Ok? { KeepsFramed(db, RunStep(db, op, now).value); }
  }

  lemma TransitionRunKeeps(db: Database, runId: RunId, to: RunStatus, lease: Option<Fence>,
                           expectedRevision: Option<nat>, now: Time)
    requires to != Completed
    ensures var r := TransitionRun(db, runId, to, lease, expectedRevision, now); r.Ok? ==> Keeps(db, r.value)
  {
    hide Keeps, MoveAndContinue, MayWrite;
    WriteMoveAndContinueKeeps(db, db, runId, to, now);
  }

  lemma AppendFencedEventKeeps(db: Database, lease: Fence, now: Time)
    ensures var r := AppendFencedEvent(db, lease, now); r.Ok? ==> Keeps(db, r.value)
  {
    hide Keeps, AppendEvent, LeaseHolds;
    if AppendFencedEvent(db, lease, now).Ok? {
      AppendKeeps(db, lease.runId, Reported, Some(lease.generation));
    }
  }

  // ----- Usage, approvals, tool calls, evidence -----

  lemma ChargeKeeps(db: Database, written: Database, runId: RunId, delta: Usage)
    requires written.runs == db.runs && written.events == db.events
    ensures var r := Charge(written, runId, delta); r.Ok? ==> KeepsJournals(db, r.value)
  {
    hide KeepsJournals, MoveRun, Budgets.AddUsage, Budgets.Allowed;
    var r := Charge(written, runId, delta);
    if r.Ok? {
      var run := db.runs[runId];
      var charged := written.(runs := written.runs[runId := run.(usage := Budgets.AddUsage(run.usage, delta))]);
      KeepsFramed(db, written);
      RowKeepsJournals(written, runId, charged.runs[runId]);
      KeepsJournalsTwice(db, written, charged);
      if r.value != charged {
        WriteAndMoveKeeps(charged, charged, runId, BudgetLimited);
        KeepsJournalsTwice(db, charged, r.value);
      }
    }
  }

  lemma RecordUsageFencedKeeps(db: Database, lease: Fence, delta: Usage, entry: Option<EntryKey>, now: Time)
    ensures var r := RecordUsageFenced(db, lease, delta, entry, now); r.Ok? ==> KeepsJournals(db, r.value)
  {
    hide Keeps, KeepsJournals, Charge, HasEntry, LeaseHolds;
    KeepsFramed(db, db);
    ChargeKeeps(db, db, lease.runId, delta);
    if entry.Some? {
      var row := UsageEntry(lease.runId, entry.value.key, entry.value.agent, delta);
      ChargeKeeps(db, db.(usageEntries := db.usageEntries + [row]), lease.runId, delta);
    }
  }

  lemma RequestApprovalKeeps(db: Database, runId: RunId, id: ApprovalId, lease: Option<Fence>, now: Time)
    ensures var r := RequestApproval(db, runId, id, lease, now); r.Ok? ==> Keeps(db, r.value)
  {
    hide Keeps, AppendEvent, MayWrite;
    if RequestApproval(db, runId, id, lease, now).Ok? {
      var written := db.(approvals := db.approvals[id := Approval(runId, ApprovalPending)]);
      WriteAndAppendKeeps(db, written, runId, ApprovalRequested, None);
    }
  }

  lemma ResolveApprovalKeeps(db: Database, id: ApprovalId, to: ApprovalStatus, now: Time)
    requires to == Approved || to == Rejected || to == Expired
    ensures var r := ResolveApproval(db, id, to, now); r.Ok? ==> Keeps(db, r.value)
  {
    hide Keeps, AppendEvent, MoveAndContinue, AwaitsApproval;
    var r := ResolveApproval(db, id, to, now);
    if r.Ok? {
      var runId := db.approvals[id].runId;
      var written := db.(approvals := db.approvals[id := db.approvals[id].(status := to)]);
      var resolved := AppendEvent(written, runId, ApprovalResolved, None);
      WriteAndAppendKeeps(db, written, runId, ApprovalResolved, None);
      if r.value != resolved {
        WriteMoveAndContinueKeeps(resolved, resolved, runId, Running, now);
        KeepsTwice(db, resolved, r.value);
      }
    }
  }

  lemma ConsumeKeeps(db: Database, id: ApprovalId, lease: Fence)
    requires id in db.approvals && lease.runId in db.runs
    ensures Keeps(db, Consume(db, id, lease))
  {
    hide Keeps, AppendEvent;
    var written := db.(approvals := db.approvals[id := db.approvals[id].(status := Consumed)]);
    WriteAndAppendKeeps(db, written, lease.runId, ApprovalResolved, Some(lease.generation));
  }

  /** After the charge, an intent keeps the bill too. */
  lemma IntentKeeps(db: Database, lease: Fence, id: ToolCallId, approval: Option<ApprovalId>, now: Time)
    ensures var r := RecordToolIntent(db, lease, id, approval, now);
            r.Ok? ==> Charge(db, lease.runId, Calls(1)).Ok? && Keeps(Charge(db, lease.runId, Calls(1)).value, r.value)
  {
    hide Keeps, AppendEvent, Charge, Consume, Authorizes, LeaseHolds;
    var r := RecordToolIntent(db, lease, id, approval, now);
    if r.Ok? {
      var charged := Charge(db, lease.runId, Calls(1)).value;
      KeepsFramed(charged, charged);
      if r.value != charged {
        var authorized := if approval.None? then charged else Consume(charged, approval.value, lease);
        if approval.Some? {
          ConsumeKeeps(charged, approval.value, lease);
        }
        var begun := authorized.(toolCalls :=
          authorized.toolCalls[id := ToolCall(lease.runId, CallRunning, lease.generation)]);
        WriteAndAppendKeeps(authorized, begun, lease.runId, ToolCallStarted, Some(lease.generation));
        KeepsTwice(charged, authorized, r.value);
      }
    }
  }

  lemma RecordToolIntentKeeps(db: Database, lease: Fence, id: ToolCallId, approval: Option<ApprovalId>, now: Time)
    ensures var r := RecordToolIntent(db, lease, id, approval, now); r.Ok? ==> KeepsJournals(db, r.value)
  {
    IntentKeeps(db, lease, id, approval, now);
    hide KeepsJournals, Charge, RecordToolIntent;
    var r := RecordToolIntent(db, lease, id, approval, now);
    if r.Ok? {
      var charged := Charge(db, lease.runId, Calls(1)).value;
      ChargeKeeps(db, db, lease.runId, Calls(1));
      KeepsJournalsTwice(db, charged, r.value);
    }
  }

  lemma CompleteToolCallKeeps(db: Database, lease: Fence, id: ToolCallId, success: bool, now: Time)
    ensures var r := CompleteToolCall(db, lease, id, success, now); r.Ok? ==> Keeps(db, r.value)
  {
    hide Keeps, AppendEvent, LeaseHolds;
    if CompleteToolCall(db, lease, id, success, now).Ok? {
      var written := db.(toolCalls := WithResult(db.toolCalls, lease, id, success));
      WriteAndAppendKeeps(db, written, lease.runId, ToolCallFinished, Some(lease.generation));
    }
  }

  lemma ReconcileInterruptedKeeps(db: Database, runId: RunId)
    ensures var r := ReconcileInterrupted(db, runId); r.Ok? ==> Keeps(db, r.value)
  {
    hide Keeps, AppendEvent, MarkUnknown, InterruptedCalls;
    KeepsFramed(db, db);
    if runId in db.runs {
      var written := db.(toolCalls := MarkUnknown(db.toolCalls, InterruptedCalls(db, runId)));
      WriteAndAppendKeeps(db, written, runId, RecoveryRequired, None);
    }
  }

  lemma RecoverClaimedWorkKeeps(db: Database, lease: Fence, now: Time)
    ensures var r := RecoverClaimedWork(db, lease, now); r.Ok? ==> Keeps(db, r.value)
  {
    hide Keeps, AppendEvent, LeaseHolds, OfferAgain, MarkUnknown, StrandedCalls;
    var offered := OfferAgain(db, lease);
    KeepsFramed(db, offered);
    if lease.runId in db.runs {
      var written := offered.(toolCalls := MarkUnknown(offered.toolCalls, StrandedCalls(db, lease)));
      WriteAndAppendKeeps(db, written, lease.runId, RecoveryRequired, Some(lease.generation));
    }
  }

  lemma RecordValidationKeeps(db: Database, runId: RunId, passed: bool, independent: bool, lease: Option<Fence>,
      now: Time)
    ensures var r := RecordValidation(db, runId, passed, independent, lease, now); r.Ok? ==> Keeps(db, r.value)
  {
    hide Keeps, AppendEvent, MayWrite;
    if RecordValidation(db, runId, passed, independent, lease, now).Ok? {
      var written := db.(validations := db.validations + [Validation(runId, passed, independent)]);
      WriteAndAppendKeeps(db, written, runId, ValidationFinished, None);
    }
  }

  lemma UnrecordedKeeps(db: Database, op: WorkOp, now: Time)
    requires op.DoAddRequirement? || op.DoAddEvidence? || op.DoSetRequirementStatus?
    ensures var r := WorkStep(db, op, now); r.Ok? ==> Keeps(db, r.value)
  {
    hide Keeps, AddRequirement, AddEvidence, SetRequirementStatus;
    if WorkStep(db, op, now).Ok? {
      KeepsFramed(db, WorkStep(db, op, now).value);
    }
  }

  lemma UsageStepKeeps(db: Database, op: WorkOp, now: Time)
    requires TouchesUsage(WorkPart(op))
    ensures var r := WorkStep(db, op, now); r.Ok? ==> KeepsJournals(db, r.value)
  {
    hide KeepsJournals, Charge, RecordUsageFenced, RecordToolIntent;
    match op
    case DoRecordUsage(r, d) => ChargeKeeps(db, db, r, d);
    case DoRecordUsageFenced(f, d, x) => RecordUsageFencedKeeps(db, f, d, x, now);
    case DoRecordToolIntent(f, id, a) => RecordToolIntentKeeps(db, f, id, a, now);
  }

  /** Apart from `proposeCompletion` and the writes that charge a Run. */
  lemma WorkStepKeeps(db: Database, op: WorkOp, now: Time)
    requires !op.DoProposeCompletion? && !TouchesUsage(WorkPart(op))
    ensures var r := WorkStep(db, op, now); r.Ok? ==> Keeps(db, r.value)
  {
    hide Keeps, RequestApproval, ResolveApproval, CompleteToolCall, ReconcileInterrupted, RecoverClaimedWork,
         AddRequirement, AddEvidence, SetRequirementStatus, RecordValidation;
    match op
    case DoRequestApproval(r, id, l) => RequestApprovalKeeps(db, r, id, l, now);
    case DoResolveApproval(id, to) => if to in {Approved, Rejected, Expired} { ResolveApprovalKeeps(db, id, to, now); }
    case DoCompleteToolCall(f, id, s) => CompleteToolCallKeeps(db, f, id, s, now);
    case DoReconcileInterrupted(r) => ReconcileInterruptedKeeps(db, r);
    case DoRecoverClaimedWork(f) => RecoverClaimedWorkKeeps(db, f, now);
    case DoRecordValidation(r, p, i, l) => RecordValidationKeeps(db, r, p, i, l, now);
    case DoAddRequirement(_, _, _, _) => UnrecordedKeeps(db, op, now);
    case DoAddEvidence(_, _, _, _) => UnrecordedKeeps(db, op, now);
    case DoSetRequirementStatus(_, _, _, _) => UnrecordedKeeps(db, op, now);
  }

  // ----- The Task Graph -----

  lemma RefreshKeeps(db: Database, written: Database, runId: RunId)
    requires runId in written.runs && Keeps(db, written)
    ensures Keeps(db, Refresh(written, runId))
  {
    hide Keeps, Promoted, MakeReady, AppendEvents;
    var ids := Promoted(written.tasks, runId);
    var ready := written.(tasks := MakeReady(written.tasks, ids));
    WriteAfterKeeps(db, written, ready);
    AppendsKeep(ready, runId, TaskStatusChanged, None, |ids|);
    KeepsTwice(db, ready, Refresh(written, runId));
  }

  lemma CreateTaskKeeps(db: Database, id: TaskId, runId: RunId, dependencies: seq<TaskId>, lease: Option<Fence>,
      now: Time)
    ensures var r := CreateTask(db, id, runId, dependencies, lease, now); r.Ok? ==> Keeps(db, r.value)
  {
    hide Keeps, Refresh, MayWrite, NoRepeats, NewTask;
    if CreateTask(db, id, runId, dependencies, lease, now).Ok? {
      var written := WithTask(db, id, NewTask(runId, dependencies));
      KeepsFramed(db, written);
      RefreshKeeps(db, written, runId);
    }
  }

  lemma ClaimTaskKeeps(db: Database, lease: Fence, id: TaskId, agent: AgentId, now: Time)
    ensures var r := ClaimTask(db, lease, id, agent, now); r.Ok? ==> Keeps(db, r.value)
  {
    hide Keeps, AppendEvent, LeaseHolds, CanMoveTask;
    var r := ClaimTask(db, lease, id, agent, now);
    if r.Ok? {
      var written := WithTask(db, id, r.value.tasks[id]);
      var announced := AppendEvent(written, lease.runId, TaskAssigned, Some(lease.generation));
      WriteAndAppendKeeps(db, written, lease.runId, TaskAssigned, Some(lease.generation));
      AppendKeeps(announced, lease.runId, TaskStatusChanged, Some(lease.generation));
      KeepsTwice(db, announced, r.value);
    }
  }

  lemma TransitionTaskKeeps(db: Database, id: TaskId, to: TaskStatus, lease: Option<Fence>, now: Time)
    ensures var r := TransitionTask(db, id, to, lease, now); r.Ok? ==> Keeps(db, r.value)
  {
    hide Keeps, AppendEvent, Refresh, LeaseHolds, CanMoveTask;
    if TransitionTask(db, id, to, lease, now).Ok? {
      var task := db.tasks[id];
      var generation := if lease.Some? then Some(lease.value.generation) else None;
      var written := WithTask(db, id, Moved(task, to, lease));
      WriteAndAppendKeeps(db, written, task.runId, TaskStatusChanged, generation);
      RefreshKeeps(db, AppendEvent(written, task.runId, TaskStatusChanged, generation), task.runId);
    }
  }

  lemma RecoverGraphWorkKeeps(db: Database, lease: Fence, now: Time)
    ensures var r := RecoverGraphWork(db, lease, now); r.Ok? ==> Keeps(db, r.value)
  {
    hide Keeps, AppendEvents, LeaseHolds, StrandedTasks, StrandedAgents, Recovered;
    var r := RecoverGraphWork(db, lease, now);
    KeepsFramed(db, db);
    var tasks, agents := StrandedTasks(db, lease), StrandedAgents(db, lease);
    if r.Ok? && !(tasks == {} && agents == {}) {
      var recovered := Recovered(db, lease);
      KeepsFramed(db, recovered);
      var reported := AppendEvents(recovered, lease.runId, TaskRecovered, Some(lease.generation), |tasks|);
      AppendsKeep(recovered, lease.runId, TaskRecovered, Some(lease.generation), |tasks|);
      KeepsTwice(db, recovered, reported);
      AppendsKeep(reported, lease.runId, AgentStatusChanged, None, 2 * |agents|);
      KeepsTwice(db, reported, r.value);
    }
  }

  lemma AgentOpsKeep(db: Database, op: TaskOp, now: Time)
    requires op.DoSpawnAgent? || op.DoTransitionAgent?
    ensures var r := TaskStep(db, op, now); r.Ok? ==> Keeps(db, r.value)
  {
    hide Keeps, AppendEvent, MayWrite, LeaseHolds, CanMoveAgent;
    var r := TaskStep(db, op, now);
    if r.Ok? {
      var id := op.agentId;
      var runId := if op.DoSpawnAgent? then op.runId else db.agents[id].runId;
      var written := db.(agents := r.value.agents);
      var generation := if op.lease.Some? then Some(op.lease.value.generation) else None;
      WriteAndAppendKeeps(db, written, runId, AgentStatusChanged, generation);
    }
  }

  lemma TaskStepKeeps(db: Database, op: TaskOp, now: Time)
    ensures var r := TaskStep(db, op, now); r.Ok? ==> Keeps(db, r.value)
  {
    hide Keeps, CreateTask, ClaimTask, TransitionTask, RecoverGraphWork, SpawnAgent, TransitionAgent, MarkAgentActive,
         AcquireLocks, ReleaseLocks;
    match op
    case DoCreateTask(id, r, d, l) => CreateTaskKeeps(db, id, r, d, l, now);
    case DoClaimTask(f, id, a) => ClaimTaskKeeps(db, f, id, a, now);
    case DoTransitionTask(id, to, l) => TransitionTaskKeeps(db, id, to, l, now);
    case DoRecoverGraphWork(f) => RecoverGraphWorkKeeps(db, f, now);
    case DoSpawnAgent(_, _, _) => AgentOpsKeep(db, op, now);
    case DoTransitionAgent(_, _, _) => AgentOpsKeep(db, op, now);
    case _ => if TaskStep(db, op, now).Ok? { KeepsFramed(db, TaskStep(db, op, now).value); }
  }
}
