/** Usage, approvals, tool calls and their recovery, completion evidence. */
module WorkOps {
  import opened Outcomes
  import opened Tables
  import Budgets

  // ----- Usage -----

  /** `recordUsageInternal`: a running Run whose budget is exhausted stops being one. */
  function Charge(db: Database, runId: RunId, delta: Usage): (r: Outcome)
    ensures r.Ok? ==> runId in db.runs && forall k :: k in r.value.runs <==> k in db.runs
    ensures r.Ok? ==> r.value == db.(runs := r.value.runs, events := r.value.events)
  {
    if runId !in db.runs then Err(NotFound)
    else if delta.costUsd < 0.0 || db.runs[runId].usage.costUsd < 0.0 || !Budgets.ValidCosts(db.runs[runId].budget)
    then Err(InvalidUsage)
    else
      var run := db.runs[runId];
      var usage := Budgets.AddUsage(run.usage, delta);
      var charged := db.(runs := db.runs[runId := run.(usage := usage)]);
      if !Budgets.Allowed(run.budget, usage) && run.status == Running then MoveRun(charged, runId, BudgetLimited)
      else Ok(charged)
  }

  predicate HasEntry(db: Database, runId: RunId, key: string)
  {
    exists i :: 0 <= i < |db.usageEntries| && db.usageEntries[i].runId == runId && db.usageEntries[i].key == key
  }

  datatype EntryKey = EntryKey(agent: Option<AgentId>, key: string)

  /** `recordUsageFenced`: a key that is already there makes the write a no-op. */
  function RecordUsageFenced(db: Database, lease: Fence, delta: Usage, entry: Option<EntryKey>, now: Time): (r: Outcome)
    ensures r.Ok? ==> r.value == db.(usageEntries := r.value.usageEntries, runs := r.value.runs,
        events := r.value.events)
  {
    if !LeaseHolds(db, lease, now) then Err(Fenced)
    else if entry.None? then Charge(db, lease.runId, delta)
    else if HasEntry(db, lease.runId, entry.value.key) then (if lease.runId in db.runs then Ok(db) else Err(NotFound))
    else
      var row := UsageEntry(lease.runId, entry.value.key, entry.value.agent, delta);
      Charge(db.(usageEntries := db.usageEntries + [row]), lease.runId, delta)
  }

  // ----- Approvals -----

  function RequestApproval(db: Database, runId: RunId, id: ApprovalId, lease: Option<Fence>, now: Time): (r: Outcome)
    ensures r.Ok? ==> r.value == db.(approvals := r.value.approvals, runs := r.value.runs, events := r.value.events)
  {
    if !MayWrite(db, lease, runId, now) then Err(Fenced)
    else if id in db.approvals then Err(Duplicate)
    else if runId !in db.runs then Err(NotFound)
    else Ok(AppendEvent(db.(approvals := db.approvals[id := Approval(runId, ApprovalPending)]), runId,
        ApprovalRequested, None))
  }

  predicate AwaitsApproval(db: Database, runId: RunId)
  {
    exists id :: id in db.approvals && db.approvals[id].runId == runId && db.approvals[id].status == ApprovalPending
  }

  function ResolveApproval(db: Database, id: ApprovalId, to: ApprovalStatus, now: Time): (r: Outcome)
    requires to in {Approved, Rejected, Expired}
    ensures r.Ok? ==> r.value == db.(approvals := r.value.approvals, runs := r.value.runs, events := r.value.events,
        actions := r.value.actions)
  {
    if id !in db.approvals then Err(NotFound)
    else if db.approvals[id].status != ApprovalPending then Err(AlreadyResolved)
    else
      var approval := db.approvals[id];
      if approval.runId !in db.runs then Err(NotFound)
      else
        var resolved := AppendEvent(db.(approvals := db.approvals[id := approval.(status := to)]),
                                    approval.runId, ApprovalResolved, None);
        if AwaitsApproval(resolved, approval.runId) || db.runs[approval.runId].status != WaitingExternal then
            Ok(resolved)
        else MoveAndContinue(resolved, approval.runId, Running, now)
  }

  // ----- Tool calls -----

  predicate OutOfBudget(db: Database, runId: RunId)
    requires runId in db.runs
  {
    db.runs[runId].status == BudgetLimited || db.runs[runId].status == UsageLimited
  }

  /** The approval named by an intent is approved for its Run. */
  predicate Authorizes(db: Database, id: ApprovalId, runId: RunId)
  {
    id in db.approvals && db.approvals[id].runId == runId && db.approvals[id].status == Approved
  }

  /** `recordToolIntent`: the charge commits even when the budget then refuses the call. */
  function RecordToolIntent(db: Database, lease: Fence, id: ToolCallId, approval: Option<ApprovalId>,
      now: Time): (r: Outcome)
    ensures r.Ok? ==> r.value == db.(toolCalls := r.value.toolCalls, approvals := r.value.approvals,
        runs := r.value.runs, events := r.value.events)
  {
    if !LeaseHolds(db, lease, now) then Err(Fenced)
    else
      match Charge(db, lease.runId, Calls(1))
      case Err(e) => Err(e)
      case Ok(charged) =>
        if OutOfBudget(charged, lease.runId) then Ok(charged)
        else if approval.Some? && approval.value !in charged.approvals then Err(NotFound)
        else if approval.Some? && !Authorizes(charged, approval.value, lease.runId) then Err(NotAuthorized)
        else if id in charged.toolCalls then Err(Duplicate)
        else
          var authorized := if approval.None? then charged else Consume(charged, approval.value, lease);
          var begun := authorized.(toolCalls :=
            authorized.toolCalls[id := ToolCall(lease.runId, CallRunning, lease.generation)]);
          Ok(AppendEvent(begun, lease.runId, ToolCallStarted, Some(lease.generation)))
  }

  function Consume(db: Database, id: ApprovalId, lease: Fence): (r: Database)
    requires id in db.approvals && lease.runId in db.runs
    ensures forall k :: k in r.runs <==> k in db.runs
  {
    AppendEvent(db.(approvals := db.approvals[id := db.approvals[id].(status := Consumed)]),
                lease.runId, ApprovalResolved, Some(lease.generation))
  }

  /** The intent was recorded and its caller may start the tool. */
  predicate IntentAccepted(db: Database, lease: Fence, id: ToolCallId, approval: Option<ApprovalId>, now: Time)
  {
    var r := RecordToolIntent(db, lease, id, approval, now);
    r.Ok? && id in r.value.toolCalls && id !in db.toolCalls
  }

  /** `completeToolCall` updates the row of this Run and generation, whatever its status; the event is appended even
      when no row matches. */
  function CompleteToolCall(db: Database, lease: Fence, id: ToolCallId, success: bool, now: Time): (r: Outcome)
    ensures r.Ok? ==> r.value == db.(toolCalls := r.value.toolCalls, runs := r.value.runs, events := r.value.events)
  {
    if !LeaseHolds(db, lease, now) then Err(Fenced)
    else if lease.runId !in db.runs then Err(NotFound)
    else
      Ok(AppendEvent(db.(toolCalls := WithResult(db.toolCalls, lease, id, success)), lease.runId, ToolCallFinished,
                     Some(lease.generation)))
  }

  function WithResult(calls: map<ToolCallId, ToolCall>, lease: Fence, id: ToolCallId, success: bool)
    : map<ToolCallId, ToolCall>
  {
    if id in calls && calls[id].runId == lease.runId && calls[id].generation == lease.generation
    then calls[id := calls[id].(status := if success then CallSucceeded else CallFailed)]
    else calls
  }

  predicate Interrupted(call: ToolCall, runId: RunId)
  {
    call.runId == runId && call.status == CallRunning
  }

  predicate Stranded(call: ToolCall, lease: Fence)
  {
    Interrupted(call, lease.runId) && call.generation < lease.generation
  }

  function InterruptedCalls(db: Database, runId: RunId): set<ToolCallId>
  {
    set id | id in db.toolCalls && Interrupted(db.toolCalls[id], runId)
  }

  function StrandedCalls(db: Database, lease: Fence): set<ToolCallId>
  {
    set id | id in db.toolCalls && Stranded(db.toolCalls[id], lease)
  }

  /** `reconcileInterruptedToolCalls`, which takes no lease. */
  function ReconcileInterrupted(db: Database, runId: RunId): (r: Outcome)
    ensures r.Ok? ==> r.value == db.(toolCalls := r.value.toolCalls, runs := r.value.runs, events := r.value.events)
  {
    var calls := InterruptedCalls(db, runId);
    if calls == {} then Ok(db)
    else if runId !in db.runs then Err(NotFound)
    else Ok(AppendEvent(db.(toolCalls := MarkUnknown(db.toolCalls, calls)), runId, RecoveryRequired, None))
  }

  function MarkUnknown(calls: map<ToolCallId, ToolCall>, ids: set<ToolCallId>): map<ToolCallId, ToolCall>
  {
    map id | id in calls :: if id in ids then calls[id].(status := CallUnknown) else calls[id]
  }

  /** The row a takeover finds: a claim of an older generation is offered again. */
  function Reoffered(action: Action, generation: nat): Action
  {
    if action.claim.Some? && action.claim.value.epoch < generation then action.(claim := None) else action
  }

  function OfferAgain(db: Database, lease: Fence): (r: Database)
    ensures r == db.(actions := r.actions)
  {
    if lease.runId !in db.actions then db
    else db.(actions := db.actions[lease.runId := Reoffered(db.actions[lease.runId], lease.generation)])
  }

  /** `recoverClaimedWork`. */
  function RecoverClaimedWork(db: Database, lease: Fence, now: Time): (r: Outcome)
    ensures r.Ok? ==> r.value == db.(actions := r.value.actions, toolCalls := r.value.toolCalls, runs := r.value.runs,
        events := r.value.events)
  {
    if !LeaseHolds(db, lease, now) then Err(Fenced)
    else
      var offered := OfferAgain(db, lease);
      var calls := StrandedCalls(db, lease);
      if calls == {} then Ok(offered)
      else if lease.runId !in db.runs then Err(NotFound)
      else Ok(AppendEvent(offered.(toolCalls := MarkUnknown(offered.toolCalls, calls)),
                          lease.runId, RecoveryRequired, Some(lease.generation)))
  }

  // ----- Completion -----

  function AddRequirement(db: Database, id: RequirementId, runId: RunId, required: bool, lease: Option<Fence>,
      now: Time): (r: Outcome)
    ensures r.Ok? ==> r.value == db.(requirements := r.value.requirements)
  {
    if !MayWrite(db, lease, runId, now) then Err(Fenced)
    else if id in db.requirements then (if db.requirements[id].runId == runId then Ok(db) else Err(Duplicate))
    else if runId !in db.runs then Err(NotFound)
    else Ok(db.(requirements := db.requirements[id := Requirement(runId, required, Unproven, [])]))
  }

  function AddEvidence(db: Database, id: RequirementId, runId: RunId, strength: Strength, lease: Option<Fence>,
      now: Time): (r: Outcome)
    ensures r.Ok? ==> r.value == db.(requirements := r.value.requirements)
  {
    if !MayWrite(db, lease, runId, now) then Err(Fenced)
    else if id !in db.requirements then Err(NotFound)
    else Ok(db.(requirements := db.requirements[id := db.requirements[id].(evidence := db.requirements[id].evidence
        + [strength])]))
  }

  predicate CanMarkProven(evidence: seq<Strength>) { Strong in evidence }

  function SetRequirementStatus(db: Database, id: RequirementId, runId: RunId, to: RequirementStatus,
      lease: Option<Fence>, now: Time): (r: Outcome)
    ensures r.Ok? ==> r.value == db.(requirements := r.value.requirements)
  {
    if !MayWrite(db, lease, runId, now) then Err(Fenced)
    else if to == Proven && (id !in db.requirements || !CanMarkProven(db.requirements[id].evidence)) then
        Err(NoStrongEvidence)
    else if id in db.requirements && db.requirements[id].runId == runId
    then Ok(db.(requirements := db.requirements[id := db.requirements[id].(status := to)]))
    else Ok(db)
  }

  function RecordValidation(db: Database, runId: RunId, passed: bool, independent: bool, lease: Option<Fence>,
      now: Time): (r: Outcome)
    ensures r.Ok? ==> r.value == db.(validations := r.value.validations, runs := r.value.runs, events := r.value.events)
  {
    if !MayWrite(db, lease, runId, now) then Err(Fenced)
    else if runId !in db.runs then Err(NotFound)
    else Ok(AppendEvent(db.(validations := db.validations + [Validation(runId, passed, independent)]),
                        runId, ValidationFinished, None))
  }

  /** The store's own filter over the requirements. */
  predicate RemainsUnproven(q: Requirement)
  {
    q.required && q.status != Waived && (q.status != Proven || !CanMarkProven(q.evidence))
  }

  /** No control-plane reason stands against completion. */
  predicate Completable(db: Database, runId: RunId)
  {
    && (forall id :: id in db.requirements && db.requirements[id].runId == runId ==>
        !RemainsUnproven(db.requirements[id]))
    && (forall i :: 0 <= i < |db.validations| && db.validations[i].runId == runId ==> db.validations[i].passed)
    && (exists i :: 0 <= i < |db.validations| && db.validations[i].runId == runId
                    && db.validations[i].passed && db.validations[i].independent)
  }

  /** `proposeCompletion`. */
  function ProposeCompletion(db: Database, runId: RunId, accepted: bool, verified: bool, lease: Option<Fence>,
      now: Time): (r: Outcome)
    ensures r.Ok? ==> r.value == db.(runs := r.value.runs, events := r.value.events)
  {
    if !MayWrite(db, lease, runId, now) then Err(Fenced)
    else if runId !in db.runs then Err(NotFound)
    else
      var reported := AppendEvent(db, runId, ValidationFinished, None);
      if accepted && verified && Completable(db, runId) then MoveRun(reported, runId, Completed) else Ok(reported)
  }

  datatype WorkOp =
    | DoRecordUsage(runId: RunId, delta: Usage)
    | DoRecordUsageFenced(fence: Fence, delta: Usage, entry: Option<EntryKey>)
    | DoRequestApproval(runId: RunId, approvalId: ApprovalId, lease: Option<Fence>)
    | DoResolveApproval(approvalId: ApprovalId, resolution: ApprovalStatus)
    | DoRecordToolIntent(fence: Fence, callId: ToolCallId, approval: Option<ApprovalId>)
    | DoCompleteToolCall(fence: Fence, callId: ToolCallId, success: bool)
    | DoReconcileInterrupted(runId: RunId)
    | DoRecoverClaimedWork(fence: Fence)
    | DoAddRequirement(requirementId: RequirementId, runId: RunId, required: bool, lease: Option<Fence>)
    | DoAddEvidence(requirementId: RequirementId, runId: RunId, strength: Strength, lease: Option<Fence>)
    | DoSetRequirementStatus(requirementId: RequirementId, runId: RunId, status: RequirementStatus,
        lease: Option<Fence>)
    | DoRecordValidation(runId: RunId, passed: bool, independent: bool, lease: Option<Fence>)
    | DoProposeCompletion(runId: RunId, accepted: bool, verified: bool, lease: Option<Fence>)

  function WorkStep(db: Database, op: WorkOp, now: Time): Outcome
  {
    match op
    case DoRecordUsage(r, d) => Charge(db, r, d)
    case DoRecordUsageFenced(f, d, e) => RecordUsageFenced(db, f, d, e, now)
    case DoRequestApproval(r, id, l) => RequestApproval(db, r, id, l, now)
    case DoResolveApproval(id, to) => if to in {Approved, Rejected, Expired} then ResolveApproval(db, id, to, now)
        else Err(AlreadyResolved)
    case DoRecordToolIntent(f, id, a) => RecordToolIntent(db, f, id, a, now)
    case DoCompleteToolCall(f, id, s) => CompleteToolCall(db, f, id, s, now)
    case DoReconcileInterrupted(r) => ReconcileInterrupted(db, r)
    case DoRecoverClaimedWork(f) => RecoverClaimedWork(db, f, now)
    case DoAddRequirement(id, r, q, l) => AddRequirement(db, id, r, q, l, now)
    case DoAddEvidence(id, r, s, l) => AddEvidence(db, id, r, s, l, now)
    case DoSetRequirementStatus(id, r, s, l) => SetRequirementStatus(db, id, r, s, l, now)
    case DoRecordValidation(r, p, i, l) => RecordValidation(db, r, p, i, l, now)
    case DoProposeCompletion(r, a, v, l) => ProposeCompletion(db, r, a, v, l, now)
  }
}
