/** The continuation of a Run: who may hold its claim, who may end it, and how a takeover frees it. */
module Continuations {
  import opened Outcomes
  import opened Tables
  import opened RunOps
  import opened WorkOps
  import opened TaskOps
  import opened Store
  import opened Fencing

  /** The claim on a Run's continuation row; none while the row is pending or absent. */
  function ClaimOn(actions: map<RunId, Action>, r: RunId): Option<Claim>
  {
    if r in actions then actions[r].claim else None
  }

  function ClaimIn(fence: Fence): Claim { Claim(fence.executorId, fence.generation) }

  // ----- What a step does to a row -----

  predicate Settles(op: Op, r: RunId, c: Claim)
  {
    && op.RunPart? && op.run.DoSettleContinuation?
    && op.run.fence.runId == r && c == ClaimIn(op.run.fence)
  }

  predicate Claims(op: Op, r: RunId, c: Claim)
  {
    && op.RunPart? && op.run.DoClaimContinuation?
    && op.run.fence.runId == r && c == ClaimIn(op.run.fence)
  }

  predicate Recovers(op: Op, r: RunId, c: Claim)
  {
    && op.WorkPart? && op.work.DoRecoverClaimedWork?
    && op.work.fence.runId == r && c.epoch < op.work.fence.generation
  }

  /** A row goes only when its claimant settles it; a claim goes only then or when a newer generation recovers it;
      a claim comes only by being claimed. */
  predicate RowStep(before: map<RunId, Action>, after: map<RunId, Action>, op: Op, r: RunId)
  {
    && (r in before && r !in after ==> before[r].claim.Some? && Settles(op, r, before[r].claim.value))
    && (ClaimOn(before, r).Some? && ClaimOn(after, r) != ClaimOn(before, r) ==>
          && ClaimOn(after, r).None?
          && (Settles(op, r, ClaimOn(before, r).value)
              || (Recovers(op, r, ClaimOn(before, r).value) && r in after)))
    && (ClaimOn(before, r).None? && ClaimOn(after, r).Some? ==> Claims(op, r, ClaimOn(after, r).value))
  }

  /** Rows are at most added, and are added pending. */
  predicate OnlyOffers(before: map<RunId, Action>, after: map<RunId, Action>)
  {
    && (forall r :: r in before ==> r in after && after[r] == before[r])
    && (forall r :: r in after && r !in before ==> after[r].claim.None?)
  }

  lemma EnsureOnlyOffers(db: Database, r: RunId, now: Time)
    ensures OnlyOffers(db.actions, EnsureContinuation(db, r, now).actions)
  {
  }

  lemma MoveOnlyOffers(db: Database, r: RunId, to: RunStatus, now: Time)
    ensures var m := MoveAndContinue(db, r, to, now); m.Ok? ==> OnlyOffers(db.actions, m.value.actions)
  {
    var m := MoveRun(db, r, to);
    if m.Ok? {
      EnsureOnlyOffers(m.value, r, now);
    }
    hide MoveRun, EnsureContinuation;
  }

  lemma {:induction false} WakeOnlyOffers(db: Database, i: nat, now: Time)
    requires i <= |db.wakes|
    ensures var w := WakeDueFrom(db, i, now); w.Ok? ==> OnlyOffers(db.actions, w.value.actions)
    decreases |db.wakes| - i
  {
    if i < |db.wakes| {
      var marked := db.(wakes := db.wakes[i := db.wakes[i].(woken := true)]);
      MoveOnlyOffers(marked, db.wakes[i].runId, Running, now);
      EnsureOnlyOffers(marked, db.wakes[i].runId, now);
      hide MoveAndContinue, EnsureContinuation;
      if !Due(db.wakes[i], now) {
        WakeOnlyOffers(db, i + 1, now);
      } else if WakeOne(db, i, now).Ok? {
        WakeOnlyOffers(WakeOne(db, i, now).value, i + 1, now);
      }
    }
  }

  lemma CreateOnlyOffers(db: Database, op: RunOp, now: Time)
    requires op.DoCreateRun? && RunStep(db, op, now).Ok?
    ensures OnlyOffers(db.actions, RunStep(db, op, now).value.actions)
  {
    var inserted := Inserted(db, op.runId, op.goalId, op.coordinator, op.version, op.budget, op.requirements);
    var created := AppendEvent(inserted, op.runId, RunCreated, None);
    hide MoveRun, AppendEvent, EnsureContinuation, Inserted, OnlyOffers;
    var running := MoveRun(created, op.runId, Running).value;
    var started := running.(agents := running.agents[op.coordinator := Agent(op.runId, AgentRunning, None)]);
    EnsureOnlyOffers(AppendEvent(started, op.runId, AgentStatusChanged, None), op.runId, now);
  }

  lemma TransitionOnlyOffers(db: Database, r: RunId, to: RunStatus, lease: Option<Fence>, revision: Option<nat>,
      now: Time)
    requires to != Completed
    ensures var t := TransitionRun(db, r, to, lease, revision, now); t.Ok? ==> OnlyOffers(db.actions, t.value.actions)
  {
    MoveOnlyOffers(db, r, to, now);
    hide MoveAndContinue, OnlyOffers, MayWrite;
  }

  lemma ObeyOnlyOffers(db: Database, r: RunId, command: Command, now: Time)
    requires r in db.runs
    ensures var t := ObeyCommand(db, r, command, now); t.Ok? ==> OnlyOffers(db.actions, t.value.actions)
  {
    var target := CommandTarget(command, db.runs[r].status);
    hide MoveAndContinue, CommandTarget;
    if target.None? {
      assert OnlyOffers(db.actions, db.actions);
    } else {
      MoveOnlyOffers(db, r, target.value, now);
    }
  }

  lemma CommandOnlyOffers(db: Database, r: RunId, id: string, command: Command, now: Time)
    ensures var t := ExecuteCommand(db, r, id, command, now); t.Ok? ==> OnlyOffers(db.actions, t.value.actions)
  {
    assert OnlyOffers(db.actions, db.actions);
    hide ObeyCommand, OnlyOffers;
    if r in db.runs {
      ObeyOnlyOffers(db, r, command, now);
    }
  }

  lemma GoalOnlyOffers(db: Database, g: GoalId, version: string, to: GoalStatus, now: Time)
    ensures var t := SetGoalStatus(db, g, version, to, now); t.Ok? ==> OnlyOffers(db.actions, t.value.actions)
  {
    assert OnlyOffers(db.actions, db.actions);
    if g in db.goals && db.goals[g].runId in db.runs {
      var goal := db.goals[g];
      var moved := AppendEvent(db.(goals := db.goals[g := goal.(status := to)]), goal.runId, GoalStatusChanged, None);
      EnsureOnlyOffers(moved, goal.runId, now);
    }
    hide AppendEvent, EnsureContinuation, CanMoveGoal, OnlyOffers;
  }

  lemma ResolveOnlyOffers(db: Database, id: ApprovalId, to: ApprovalStatus, now: Time)
    requires to == Approved || to == Rejected || to == Expired
    ensures var r := ResolveApproval(db, id, to, now); r.Ok? ==> OnlyOffers(db.actions, r.value.actions)
  {
    if id in db.approvals && db.approvals[id].runId in db.runs {
      var approval := db.approvals[id];
      var resolved := AppendEvent(db.(approvals := db.approvals[id := approval.(status := to)]),
                                  approval.runId, ApprovalResolved, None);
      MoveOnlyOffers(resolved, approval.runId, Running, now);
      hide MoveAndContinue, AppendEvent, AwaitsApproval;
    }
  }

  lemma SettleStep(db: Database, fence: Fence, requeue: bool, now: Time, r: RunId)
    ensures var s := SettleContinuation(db, fence, requeue, now);
            s.Ok? ==> RowStep(db.actions, s.value.actions, RunPart(DoSettleContinuation(fence, requeue)), r)
  {
    var settled := if ClaimedBy(db, fence) then db.(actions := db.actions - {fence.runId}) else db;
    EnsureOnlyOffers(settled, fence.runId, now);
    hide EnsureContinuation, LeaseHolds;
  }

  lemma ClaimStep(db: Database, fence: Fence, now: Time, r: RunId)
    ensures var c := ClaimContinuation(db, fence, now);
            c.Ok? ==> RowStep(db.actions, c.value.actions, RunPart(DoClaimContinuation(fence)), r)
  {
    hide LeaseHolds;
  }

  lemma RecoverStep(db: Database, fence: Fence, now: Time, r: RunId)
    ensures var c := RecoverClaimedWork(db, fence, now);
            c.Ok? ==> RowStep(db.actions, c.value.actions, WorkPart(DoRecoverClaimedWork(fence)), r)
  {
    assert RowStep(db.actions, OfferAgain(db, fence).actions, WorkPart(DoRecoverClaimedWork(fence)), r);
    hide LeaseHolds, OfferAgain, AppendEvent, MarkUnknown, StrandedCalls, RowStep;
  }

  lemma StepRow(db: Database, e: Entry, r: RunId)
    ensures RowStep(db.actions, Next(db, e).actions, e.op, r)
  {
    hide RunStep, WorkStep, TaskStep;
    if !Commits(db, e) || !TouchesActions(e.op) {
      Frames(db, e);
    } else if e.op.RunPart? {
      StepRunRow(db, e.op.run, e.now, r);
    } else {
      StepWorkRow(db, e.op.work, e.now, r);
    }
  }

  lemma StepRunRow(db: Database, op: RunOp, now: Time, r: RunId)
    requires TouchesActions(RunPart(op)) && RunStep(db, op, now).Ok?
    ensures RowStep(db.actions, RunStep(db, op, now).value.actions, RunPart(op), r)
  {
    hide CreateRun, TransitionRun, SetGoalStatus, ExecuteCommand, WakeDueFrom, ClaimContinuation, SettleContinuation;
    match op
    case DoSettleContinuation(f, q) => SettleStep(db, f, q, now, r);
    case DoClaimContinuation(f) => ClaimStep(db, f, now, r);
    case DoWakeDueRuns => WakeOnlyOffers(db, 0, now);
    case DoCreateRun(_, _, _, _, _, _) => CreateOnlyOffers(db, op, now);
    case DoTransitionRun(x, to, l, v) => TransitionOnlyOffers(db, x, to, l, v, now);
    case DoSetGoalStatus(g, v, to, _) => GoalOnlyOffers(db, g, v, to, now);
    case DoExecuteCommand(x, id, c) => CommandOnlyOffers(db, x, id, c, now);
  }

  lemma StepWorkRow(db: Database, op: WorkOp, now: Time, r: RunId)
    requires TouchesActions(WorkPart(op)) && WorkStep(db, op, now).Ok?
    ensures RowStep(db.actions, WorkStep(db, op, now).value.actions, WorkPart(op), r)
  {
    hide RecoverClaimedWork, ResolveApproval;
    match op
    case DoRecoverClaimedWork(f) => RecoverStep(db, f, now, r);
    case DoResolveApproval(id, to) => ResolveOnlyOffers(db, id, to, now);
  }

  // ----- Histories -----

  /** A claim belongs to a generation that was granted, and a claim of the current one to its holder. */
  predicate ClaimFits(db: Database, r: RunId)
  {
    var c := ClaimOn(db.actions, r);
    c.Some? ==>
      && r in db.leases && c.value.epoch <= db.leases[r].generation
      && (c.value.epoch == db.leases[r].generation ==> c.value.holder == db.leases[r].holder)
  }

  lemma StepFits(db: Database, e: Entry, r: RunId)
    requires ClaimFits(db, r)
    ensures ClaimFits(Next(db, e), r)
  {
    hide Step;
    StepRow(db, e, r);
    StepEvolves(db, e);
    var c := ClaimOn(Next(db, e).actions, r);
    if c.Some? && ClaimOn(db.actions, r).None? {
      CommitsUnderLease(db, e);
      Frames(db, e);
    }
  }

  /** In every history. */
  lemma {:induction false} ClaimsFit(history: seq<Entry>, r: RunId)
    ensures ClaimFits(Play(EMPTY_DATABASE, history), r)
    decreases |history|
  {
    hide Next, ClaimFits;
    if history == [] {
      assert ClaimFits(EMPTY_DATABASE, r) by { EmptyFits(r); }
    } else {
      var n := |history| - 1;
      ClaimsFit(history[..n], r);
      StepFits(Play(EMPTY_DATABASE, history[..n]), history[n], r);
    }
  }

  lemma EmptyFits(r: RunId)
    ensures ClaimFits(EMPTY_DATABASE, r)
  {
  }

  /** A live lease of the claimed generation is the claimant's: no other executor that is not fenced off can hold
      the claim of the current generation. */
  lemma OneUnfencedClaimant(history: seq<Entry>, fence: Fence, now: Time)
    requires LeaseHolds(Play(EMPTY_DATABASE, history), fence, now)
    ensures var c := ClaimOn(Play(EMPTY_DATABASE, history).actions, fence.runId);
            && (c.Some? && c.value.epoch == fence.generation ==> c.value.holder == fence.executorId)
            && (c.Some? && c.value != ClaimIn(fence) ==>
                  Superseded(Play(EMPTY_DATABASE, history), Fence(fence.runId, c.value.holder, c.value.epoch)))
  {
    ClaimsFit(history, fence.runId);
    hide Play;
  }

  /** The step settles the claim `c` of `r` under its claimant's live lease. */
  predicate SettledBy(db: Database, e: Entry, r: RunId, c: Claim)
  {
    && ClaimOn(db.actions, r) == Some(c) && Settles(e.op, r, c)
    && Commits(db, e) && LeaseHolds(db, Fence(r, c.holder, c.epoch), e.now)
  }

  /** Whatever crashes, a continuation row is lost only to a settlement by its own claimant under a live lease. */
  lemma {:induction false} ContinuationLostOnlyBySettling(db: Database, history: seq<Entry>, r: RunId)
    requires r in db.actions && r !in Play(db, history).actions
    ensures exists i, c :: 0 <= i < |history| && SettledBy(Play(db, history[..i]), history[i], r, c)
    decreases |history|
  {
    hide Next, SettledBy;
    var n := |history| - 1;
    var before := Play(db, history[..n]);
    if r in before.actions {
      RowGoneBySettling(before, history[n], r);
    } else {
      ContinuationLostOnlyBySettling(db, history[..n], r);
      var i, c :| 0 <= i < n && SettledBy(Play(db, history[..n][..i]), history[..n][i], r, c);
      assert history[..n][..i] == history[..i];
      assert SettledBy(Play(db, history[..i]), history[i], r, c);
    }
  }

  lemma RowGoneBySettling(db: Database, e: Entry, r: RunId)
    requires r in db.actions && r !in Next(db, e).actions
    ensures exists c :: SettledBy(db, e, r, c)
  {
    hide Step;
    StepRow(db, e, r);
    CommitsUnderLease(db, e);
    assert SettledBy(db, e, r, db.actions[r].claim.value);
  }

  // ----- Takeover -----

  /** A recovery offers again whatever an older generation had claimed, and nothing else. */
  lemma RecoveryFreesOlderClaims(db: Database, fence: Fence, now: Time)
    requires RecoverClaimedWork(db, fence, now).Ok?
    ensures var next := RecoverClaimedWork(db, fence, now).value;
            && next.actions.Keys == db.actions.Keys
            && (ClaimFits(db, fence.runId) ==>
                  ClaimOn(next.actions, fence.runId)
                  == if ClaimOn(db.actions, fence.runId) == Some(ClaimIn(fence)) then Some(ClaimIn(fence)) else None)
  {
    var offered := OfferAgain(db, fence);
    assert offered.actions.Keys == db.actions.Keys;
    assert ClaimFits(db, fence.runId) ==>
             ClaimOn(offered.actions, fence.runId)
             == if ClaimOn(db.actions, fence.runId) == Some(ClaimIn(fence)) then Some(ClaimIn(fence)) else None;
    hide AppendEvent, MarkUnknown, StrandedCalls, OfferAgain, ClaimFits, ClaimOn, LeaseHolds;
  }

  /** What a scheduler does when it finds a Run: acquire, then recover. It frees a claim of the current generation
      exactly when the generation changes hands: not for the same executor identity within its lease. */
  lemma TakeoverFreesClaimIff(db: Database, r: RunId, executor: ExecutorId, ttl: int, now: Time)
    requires ClaimFits(db, r) && ClaimOn(db.actions, r).Some? && ttl > 0
    requires AcquireLease(db, r, executor, ttl, now).Ok?
    ensures var acquired := AcquireLease(db, r, executor, ttl, now).value;
            var fence := Fence(r, executor, GrantedGeneration(db, r, executor, now));
            var recovered := RecoverClaimedWork(acquired, fence, now);
            && recovered.Ok?
            && (ClaimOn(recovered.value.actions, r).None? <==>
                  || ClaimOn(db.actions, r).value.epoch < db.leases[r].generation
                  || db.leases[r].holder != executor || db.leases[r].expiresAt <= now)
  {
    hide AppendEvent, MarkUnknown, StrandedCalls;
  }

  /** A settlement by the claimant ends its claim: the row goes, and a pending one takes its place only if it is asked
      for and the Run and its goal still want it. */
  lemma SettlementEnds(db: Database, fence: Fence, requeue: bool, now: Time)
    requires LeaseHolds(db, fence, now) && ClaimedBy(db, fence)
    ensures var s := SettleContinuation(db, fence, requeue, now);
            var wanted := fence.runId in db.runs && db.runs[fence.runId].status == Running
                && GoalIsActive(db, fence.runId);
            && s.Ok?
            && (fence.runId in s.value.actions <==> requeue && wanted)
            && (fence.runId in s.value.actions ==> s.value.actions[fence.runId] == Action(now, None, 0))
            && (forall x :: x != fence.runId ==> (x in s.value.actions <==> x in db.actions))
            && (forall x :: x != fence.runId && x in db.actions ==> s.value.actions[x] == db.actions[x])
  {
    hide LeaseHolds;
  }
}
