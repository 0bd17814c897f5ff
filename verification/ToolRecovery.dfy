/** Tool calls left behind by a crash: once a takeover has marked one unknown, it stays unknown. */
module ToolRecovery {
  import opened Outcomes
  import opened Tables
  import opened WorkOps
  import opened Store
  import opened Fencing

  // ----- What a step does to a call -----

  predicate Completes(op: Op, id: ToolCallId, call: ToolCall)
  {
    && op.WorkPart? && op.work.DoCompleteToolCall? && op.work.callId == id
    && op.work.fence.runId == call.runId && op.work.fence.generation == call.generation
  }

  /** A call keeps its Run and generation; it stops running by becoming unknown, and anything else that happens to its
      status is its completion by its own generation. A new call runs, for the lease that recorded it. */
  predicate CallStep(before: map<ToolCallId, ToolCall>, after: map<ToolCallId, ToolCall>, op: Op, id: ToolCallId)
  {
    && (id in before ==>
          && id in after
          && after[id] == before[id].(status := after[id].status)
          && (after[id].status != before[id].status ==>
                || (before[id].status == CallRunning && after[id].status == CallUnknown)
                || (Completes(op, id, before[id])
                    && (after[id].status == CallSucceeded || after[id].status == CallFailed))))
    && (id !in before && id in after ==>
          && after[id].status == CallRunning && op.WorkPart? && op.work.DoRecordToolIntent?
          && after[id].runId == op.work.fence.runId && after[id].generation == op.work.fence.generation)
  }

  lemma IntentCallStep(db: Database, fence: Fence, call: ToolCallId, approval: Option<ApprovalId>, now: Time,
                       id: ToolCallId)
    ensures var r := RecordToolIntent(db, fence, call, approval, now);
            r.Ok? ==> CallStep(db.toolCalls, r.value.toolCalls, WorkPart(DoRecordToolIntent(fence, call, approval)), id)
  {
    hide Charge, OutOfBudget, Authorizes, LeaseHolds, AppendEvent;
  }

  lemma ReconcileCallStep(db: Database, runId: RunId, id: ToolCallId)
    ensures var r := ReconcileInterrupted(db, runId);
            r.Ok? ==> CallStep(db.toolCalls, r.value.toolCalls, WorkPart(DoReconcileInterrupted(runId)), id)
  {
    var op := WorkPart(DoReconcileInterrupted(runId));
    assert CallStep(db.toolCalls, MarkUnknown(db.toolCalls, InterruptedCalls(db, runId)), op, id);
    assert CallStep(db.toolCalls, db.toolCalls, op, id);
    hide AppendEvent, MarkUnknown, InterruptedCalls, CallStep;
  }

  lemma RecoverCallStep(db: Database, fence: Fence, now: Time, id: ToolCallId)
    ensures var r := RecoverClaimedWork(db, fence, now);
            r.Ok? ==> CallStep(db.toolCalls, r.value.toolCalls, WorkPart(DoRecoverClaimedWork(fence)), id)
  {
    var op := WorkPart(DoRecoverClaimedWork(fence));
    assert CallStep(db.toolCalls, MarkUnknown(db.toolCalls, StrandedCalls(db, fence)), op, id);
    assert CallStep(db.toolCalls, db.toolCalls, op, id);
    hide AppendEvent, MarkUnknown, StrandedCalls, OfferAgain, CallStep, LeaseHolds;
  }

  lemma CompletionCallStep(db: Database, fence: Fence, call: ToolCallId, success: bool, now: Time, id: ToolCallId)
    ensures var r := CompleteToolCall(db, fence, call, success, now);
            r.Ok? ==> CallStep(db.toolCalls, r.value.toolCalls, WorkPart(DoCompleteToolCall(fence, call, success)), id)
  {
    var op := WorkPart(DoCompleteToolCall(fence, call, success));
    assert CallStep(db.toolCalls, WithResult(db.toolCalls, fence, call, success), op, id);
    hide LeaseHolds, AppendEvent, WithResult, CallStep;
  }

  /** A completion under a live lease gives the call its result if the call is of this Run and generation, and leaves
      every other call as it was. */
  lemma CompletionLeaves(db: Database, fence: Fence, call: ToolCallId, success: bool, now: Time, id: ToolCallId)
    requires fence.runId in db.runs && id in db.toolCalls
    ensures var r := CompleteToolCall(db, fence, call, success, now);
            && (r.Ok? <==> LeaseHolds(db, fence, now))
            && (r.Ok? ==>
                  && r.value.toolCalls.Keys == db.toolCalls.Keys
                  && r.value.toolCalls[id] ==
                     if id == call && db.toolCalls[id].runId == fence.runId
                        && db.toolCalls[id].generation == fence.generation
                     then ToolCall(fence.runId, if success then CallSucceeded else CallFailed, fence.generation)
                     else db.toolCalls[id])
  {
    hide LeaseHolds, AppendEvent;
  }

  lemma StepCall(db: Database, e: Entry, id: ToolCallId)
    ensures CallStep(db.toolCalls, Next(db, e).toolCalls, e.op, id)
  {
    if !Commits(db, e) || !TouchesToolCalls(e.op) {
      hide Step;
      Frames(db, e);
    } else {
      StepTouchedCall(db, e.op.work, e.now, id);
      hide WorkStep, CallStep;
    }
  }

  lemma StepTouchedCall(db: Database, op: WorkOp, now: Time, id: ToolCallId)
    requires TouchesToolCalls(WorkPart(op)) && WorkStep(db, op, now).Ok?
    ensures CallStep(db.toolCalls, WorkStep(db, op, now).value.toolCalls, WorkPart(op), id)
  {
    hide CallStep, RecordToolIntent, CompleteToolCall, ReconcileInterrupted, RecoverClaimedWork;
    match op
    case DoRecordToolIntent(f, c, a) => IntentCallStep(db, f, c, a, now, id);
    case DoCompleteToolCall(f, c, s) => CompletionCallStep(db, f, c, s, now, id);
    case DoReconcileInterrupted(r) => ReconcileCallStep(db, r, id);
    case DoRecoverClaimedWork(f) => RecoverCallStep(db, f, now, id);
  }

  // ----- Abandoned calls -----

  /** Marked unknown after a crash, with the generation that made it over. */
  predicate Abandoned(db: Database, id: ToolCallId)
  {
    && id in db.toolCalls && db.toolCalls[id].status == CallUnknown
    && db.toolCalls[id].runId in db.leases
    && db.toolCalls[id].generation < db.leases[db.toolCalls[id].runId].generation
  }

  lemma AbandonedStays(db: Database, e: Entry, id: ToolCallId)
    requires Abandoned(db, id)
    ensures Abandoned(Next(db, e), id) && Next(db, e).toolCalls[id] == db.toolCalls[id]
  {
    hide Step;
    StepCall(db, e, id);
    StepEvolves(db, e);
    if Commits(db, e) && Completes(e.op, id, db.toolCalls[id]) {
      CommitsUnderLease(db, e);
      assert false;
    }
  }

  /** An abandoned call is never completed, in any history. */
  lemma {:induction false} AbandonedForever(db: Database, history: seq<Entry>, id: ToolCallId)
    requires Abandoned(db, id)
    ensures Abandoned(Play(db, history), id) && Play(db, history).toolCalls[id] == db.toolCalls[id]
    decreases |history|
  {
    hide Next, Abandoned;
    if history != [] {
      var n := |history| - 1;
      AbandonedForever(db, history[..n], id);
      AbandonedStays(Play(db, history[..n]), history[n], id);
    }
    assert id in db.toolCalls by { AbandonedIsThere(db, id); }
  }

  lemma AbandonedIsThere(db: Database, id: ToolCallId)
    requires Abandoned(db, id)
    ensures id in db.toolCalls
  {
  }

  /** A recovery abandons exactly the running calls of older generations, and touches no other. */
  lemma RecoveryAbandonsStranded(db: Database, fence: Fence, now: Time, id: ToolCallId)
    requires RecoverClaimedWork(db, fence, now).Ok? && id in db.toolCalls
    ensures var next := RecoverClaimedWork(db, fence, now).value;
            && id in next.toolCalls
            && (Stranded(db.toolCalls[id], fence) ==> Abandoned(next, id))
            && (!Stranded(db.toolCalls[id], fence) ==> next.toolCalls[id] == db.toolCalls[id])
            && !Stranded(next.toolCalls[id], fence)
  {
    assert Stranded(db.toolCalls[id], fence) <==> id in StrandedCalls(db, fence);
    hide OfferAgain, AppendEvent, StrandedCalls;
  }

  // ----- Calls and generations -----

  /** A call was made by a generation that was granted for its Run, and its Run exists. */
  predicate CallFits(db: Database, id: ToolCallId)
  {
    id in db.toolCalls ==>
      && db.toolCalls[id].runId in db.leases
      && db.toolCalls[id].generation <= db.leases[db.toolCalls[id].runId].generation
  }

  lemma StepCallFits(db: Database, e: Entry, id: ToolCallId)
    requires CallFits(db, id)
    ensures CallFits(Next(db, e), id)
  {
    hide Step;
    StepCall(db, e, id);
    StepEvolves(db, e);
    if id !in db.toolCalls && id in Next(db, e).toolCalls {
      CommitsUnderLease(db, e);
    }
  }

  lemma {:induction false} CallsFit(history: seq<Entry>, id: ToolCallId)
    ensures CallFits(Play(EMPTY_DATABASE, history), id)
    decreases |history|
  {
    hide Next, CallFits;
    if history == [] {
      EmptyFits(id);
    } else {
      var n := |history| - 1;
      CallsFit(history[..n], id);
      StepCallFits(Play(EMPTY_DATABASE, history[..n]), history[n], id);
    }
  }

  lemma EmptyFits(id: ToolCallId)
    ensures CallFits(EMPTY_DATABASE, id)
  {
  }

  // ----- The unfenced reconciliation -----

  lemma IntentLeavesOthers(db: Database, fence: Fence, call: ToolCallId, approval: Option<ApprovalId>, now: Time,
                           id: ToolCallId)
    requires RecordToolIntent(db, fence, call, approval, now).Ok? && id in db.toolCalls
    ensures var next := RecordToolIntent(db, fence, call, approval, now).value.toolCalls;
            id in next && next[id] == db.toolCalls[id]
  {
    hide Charge, OutOfBudget, Authorizes, LeaseHolds, AppendEvent;
  }

  lemma CompletionIsKnown(db: Database, fence: Fence, call: ToolCallId, success: bool, now: Time, id: ToolCallId)
    requires CompleteToolCall(db, fence, call, success, now).Ok? && id in db.toolCalls
    ensures var next := CompleteToolCall(db, fence, call, success, now).value.toolCalls;
            id in next && (next[id] == db.toolCalls[id] || next[id].status != CallUnknown)
  {
    hide LeaseHolds, AppendEvent;
  }

  /** A running call is marked unknown by the reconciliation of its Run, or else it is abandoned. */
  lemma MarkedBy(db: Database, e: Entry, id: ToolCallId)
    requires id in db.toolCalls && db.toolCalls[id].status == CallRunning
    requires id in Next(db, e).toolCalls && Next(db, e).toolCalls[id].status == CallUnknown
    ensures e.op == WorkPart(DoReconcileInterrupted(db.toolCalls[id].runId)) || Abandoned(Next(db, e), id)
  {
    if !Commits(db, e) || !TouchesToolCalls(e.op) {
      hide Step;
      Frames(db, e);
      assert false;
    } else {
      hide RecordToolIntent, CompleteToolCall, RecoverClaimedWork, AppendEvent, Abandoned, Stranded;
      match e.op.work
      case DoRecordToolIntent(f, c, a) => IntentLeavesOthers(db, f, c, a, e.now, id);
      case DoCompleteToolCall(f, c, s) => CompletionIsKnown(db, f, c, s, e.now, id);
      case DoReconcileInterrupted(r) =>
      case DoRecoverClaimedWork(f) => RecoveryAbandonsStranded(db, f, e.now, id);
    }
  }

  /** In this history the running call was marked unknown by a reconciliation of its Run. */
  ghost predicate Reconciled(history: seq<Entry>, id: ToolCallId)
  {
    exists k :: 0 <= k < |history| && ReconciledAt(history, k, id)
  }

  predicate ReconciledAt(history: seq<Entry>, k: nat, id: ToolCallId)
    requires k < |history|
  {
    var before := Play(EMPTY_DATABASE, history[..k]);
    && id in before.toolCalls && before.toolCalls[id].status == CallRunning
    && history[k].op == WorkPart(DoReconcileInterrupted(before.toolCalls[id].runId))
  }

  /** Only the unfenced reconciliation leaves an unknown call that no newer generation has been granted over. */
  lemma {:induction false} UnknownIsReconciled(history: seq<Entry>, id: ToolCallId)
    requires var db := Play(EMPTY_DATABASE, history);
             id in db.toolCalls && db.toolCalls[id].status == CallUnknown && !Abandoned(db, id)
    ensures Reconciled(history, id)
    decreases |history|
  {
    hide Next, Abandoned, CallStep;
    if history != [] {
      var n := |history| - 1;
      var before, e := Play(EMPTY_DATABASE, history[..n]), history[n];
      assert UnknownBefore(before, id) by { UnknownWas(before, e, id); }
      hide Play;
      if before.toolCalls[id].status == CallUnknown {
        if Abandoned(before, id) {
          AbandonedStays(before, e, id);
          assert false;
        }
        UnknownIsReconciled(history[..n], id);
        var k :| 0 <= k < n && ReconciledAt(history[..n], k, id);
        assert history[..n][..k] == history[..k];
        assert ReconciledAt(history, k, id);
      } else {
        MarkedBy(before, e, id);
        assert ReconciledAt(history, n, id);
      }
    }
  }

  predicate UnknownBefore(before: Database, id: ToolCallId)
  {
    id in before.toolCalls
    && (before.toolCalls[id].status == CallUnknown || before.toolCalls[id].status == CallRunning)
  }

  lemma UnknownWas(before: Database, e: Entry, id: ToolCallId)
    requires id in Next(before, e).toolCalls && Next(before, e).toolCalls[id].status == CallUnknown
    ensures UnknownBefore(before, id)
  {
    hide Next;
    StepCall(before, e, id);
  }

  /** Some write of its own generation would still give the call a result. */
  ghost predicate CanStillComplete(db: Database, id: ToolCallId)
    requires id in db.toolCalls
  {
    exists fence, success, now :: CompletesNow(db, id, fence, success, now)
  }

  predicate CompletesNow(db: Database, id: ToolCallId, fence: Fence, success: bool, now: Time)
    requires id in db.toolCalls
  {
    var r := CompleteToolCall(db, fence, id, success, now);
    r.Ok? && id in r.value.toolCalls
    && r.value.toolCalls[id].status == (if success then CallSucceeded else CallFailed)
    && fence.generation == db.toolCalls[id].generation
  }

  lemma CompletionEffect(db: Database, id: ToolCallId, fence: Fence, success: bool, now: Time)
    requires id in db.toolCalls && db.toolCalls[id].status == CallUnknown
    ensures CompletesNow(db, id, fence, success, now) <==>
            && LeaseHolds(db, fence, now) && fence.runId in db.runs
            && fence.runId == db.toolCalls[id].runId && fence.generation == db.toolCalls[id].generation
  {
    var r := CompleteToolCall(db, fence, id, success, now);
    assert r.Ok? <==> LeaseHolds(db, fence, now) && fence.runId in db.runs;
    assert r.Ok? ==> r.value.toolCalls == WithResult(db.toolCalls, fence, id, success);
    hide LeaseHolds, CompleteToolCall;
  }

  /** `completeToolCall` never asks for the status, so a call that `reconcileInterruptedToolCalls` marked unknown can
      still be given a result; that holds exactly as long as no newer generation has been granted. */
  lemma UnknownCompletesIff(db: Database, id: ToolCallId)
    requires id in db.toolCalls && db.toolCalls[id].status == CallUnknown
    requires CallFits(db, id) && db.toolCalls[id].runId in db.runs
    ensures CanStillComplete(db, id) <==>
            db.toolCalls[id].generation == db.leases[db.toolCalls[id].runId].generation
  {
    var call := db.toolCalls[id];
    var lease := db.leases[call.runId];
    hide CompletesNow;
    if call.generation == lease.generation {
      var fence := Fence(call.runId, lease.holder, lease.generation);
      CompletionEffect(db, id, fence, true, lease.expiresAt - 1);
    }
    if CanStillComplete(db, id) {
      var fence, success, now :| CompletesNow(db, id, fence, success, now);
      CompletionEffect(db, id, fence, success, now);
    }
  }
}
