/** What a scheduler's turns come to in the table of continuations, one by one and over a whole tick. */
module Ticks {
  import opened Outcomes
  import opened Tables
  import opened RunOps
  import opened WorkOps
  import opened Store
  import opened Continuations
  import opened Scheduler

  // ----- How a claim ends -----

  /** The Run is running and its goal is active. */
  predicate Wanted(db: Database, r: RunId) { r in db.runs && db.runs[r].status == Running && GoalIsActive(db, r) }

  /** The claim on the Run is over, and an unclaimed row stands in its place exactly when the Run is offered again and
      still wanted; nothing else has changed. */
  predicate ClaimOver(before: Database, after: Database, r: RunId, offered: bool, now: Time)
  {
    && (r in after.actions <==> offered && Wanted(before, r))
    && (r in after.actions ==> after.actions[r] == Action(now, None, 0))
    && after.actions - {r} == before.actions - {r}
    && after == before.(actions := after.actions)
  }

  lemma SettlementIs(db: Database, fence: Fence, requeue: bool, now: Time)
    requires LeaseHolds(db, fence, now) && ClaimOn(db.actions, fence.runId) == Some(ClaimIn(fence))
    ensures ClaimOver(db, Next(db, Entry(RunPart(DoSettleContinuation(fence, requeue)), now)), fence.runId, requeue,
                      now)
  {
    hide LeaseHolds, GoalIsActive, SettleContinuation, Next, ClaimOver;
    SettlementEnds(db, fence, requeue, now);
    SettlementSteps(db, fence, requeue, now);
    RowsAgree(db, SettleContinuation(db, fence, requeue, now).value, fence.runId, requeue, now);
  }

  lemma SettlementSteps(db: Database, fence: Fence, requeue: bool, now: Time)
    requires SettleContinuation(db, fence, requeue, now).Ok?
    ensures Next(db, Entry(RunPart(DoSettleContinuation(fence, requeue)), now))
         == SettleContinuation(db, fence, requeue, now).value
  {
    var e := Entry(RunPart(DoSettleContinuation(fence, requeue)), now);
    assert Step(db, e) == SettleContinuation(db, fence, requeue, now);
    hide Step, SettleContinuation;
  }

  lemma RowsAgree(before: Database, after: Database, r: RunId, offered: bool, now: Time)
    requires after == before.(actions := after.actions) && (r in after.actions <==> offered && Wanted(before, r))
    requires r in after.actions ==> after.actions[r] == Action(now, None, 0)
    requires forall x :: x != r ==> (x in after.actions <==> x in before.actions)
    requires forall x :: x != r && x in before.actions ==> after.actions[x] == before.actions[x]
    ensures ClaimOver(before, after, r, offered, now)
  {
    hide Wanted;
  }

  lemma StaleSettlement(db: Database, fence: Fence, requeue: bool, now: Time)
    requires !LeaseHolds(db, fence, now)
    ensures Next(db, Entry(RunPart(DoSettleContinuation(fence, requeue)), now)) == db
  {
    var e := Entry(RunPart(DoSettleContinuation(fence, requeue)), now);
    assert Step(db, e) == SettleContinuation(db, fence, requeue, now);
    hide Step, LeaseHolds;
  }

  /** A process that works on a continuation under a live lease has the claim on it. */
  lemma WorkerHasClaim(moves: seq<Move>, p: Process, r: RunId, now: Time)
    requires forall m :: m in moves ==> Allowed(m)
    requires var s := Operate(moves);
             Holds(PhaseOf(s, p, r)) && LeaseHolds(s.db, PhaseOf(s, p, r).fence, now)
    ensures var s := Operate(moves);
            var fence := PhaseOf(s, p, r).fence;
            fence.runId == r && ClaimOn(s.db.actions, r) == Some(ClaimIn(fence))
  {
    hide Operate;
    OperationFits(moves);
    var s := Operate(moves);
    hide PhaseOf;
    assert PhaseFits(s.db, PhaseOf(s, p, r), p, r);
  }

  /** The Run is not running any more, or the daemon is stopping. */
  predicate LaunchRefused(db: Database, r: RunId, stopping: bool)
  {
    stopping || r !in db.runs || db.runs[r].status != Running
  }

  /** What one turn of a process that works on the continuation does under a live lease. */
  predicate EndsAsAsked(before: Database, after: Database, phase: Phase, ended: Phase, r: RunId, turn: Turn, now: Time)
  {
    && (phase.Settling? && turn.Settle? ==> ClaimOver(before, after, r, phase.requeue, now) && ended == Idle)
    && (phase.Claimed? && turn.Launch? ==>
          if LaunchRefused(before, r, turn.stopping) then ClaimOver(before, after, r, true, now) && ended == Idle
          else after == before && ended == Executing(phase.fence, false))
    && (phase.Executing? && turn.Fail? && !turn.fenced ==> ClaimOver(before, after, r, true, now) && ended == Idle)
    && (phase.Executing? && turn.Fail? && turn.fenced ==> after == before && ended == Idle)
  }

  lemma TurnEnds(db: Database, phase: Phase, p: Process, r: RunId, turn: Turn, now: Time)
    requires Holds(phase) && phase.fence.runId == r && LeaseHolds(db, phase.fence, now)
    requires ClaimOn(db.actions, r) == Some(ClaimIn(phase.fence))
    ensures EndsAsAsked(db, DatabaseAfter(db, phase, p, r, turn, now), phase,
                        TurnedPhase(db, phase, p, r, turn, now), r, turn, now)
  {
    forall requeue
      ensures ClaimOver(db, Next(db, Entry(RunPart(DoSettleContinuation(phase.fence, requeue)), now)), r, requeue, now)
    {
      SettlementIs(db, phase.fence, requeue, now);
    }
    hide Next, Commits, LeaseHolds, ClaimOn, ClaimOver;
  }

  /** In any operation, a settlement leaves an unclaimed row exactly when its execution asked for one and the Run still
      wants it; a launch that is refused and an execution that fails offer the continuation again. */
  lemma ClaimsEndAsAsked(moves: seq<Move>, p: Process, r: RunId, turn: Turn, now: Time)
    requires forall m :: m in moves ==> Allowed(m)
    requires var s := Operate(moves);
             Holds(PhaseOf(s, p, r)) && LeaseHolds(s.db, PhaseOf(s, p, r).fence, now)
    ensures var s, next := Operate(moves), Operate(moves + [Tick(p, r, turn, now)]);
            EndsAsAsked(s.db, next.db, PhaseOf(s, p, r), PhaseOf(next, p, r), r, turn, now)
  {
    var s := Operate(moves);
    WorkerHasClaim(moves, p, r, now);
    OperateSnoc(moves, Tick(p, r, turn, now));
    TickAfter(s, p, r, turn, now);
    hide Operate, After, PhaseOf, DatabaseAfter, TurnedPhase, EndsAsAsked, LeaseHolds;
    TurnEnds(s.db, PhaseOf(s, p, r), p, r, turn, now);
  }

  /** Once the lease is gone no turn of the old holder changes anything, but for the one that resumes a recovering Run,
      whose transition carries no lease. */
  lemma FencedTurnsChangeNothing(s: System, p: Process, r: RunId, turn: Turn, now: Time)
    requires HasFence(PhaseOf(s, p, r)) && !LeaseHolds(s.db, PhaseOf(s, p, r).fence, now)
    requires !(PhaseOf(s, p, r).Reconciled? && PhaseOf(s, p, r).recovering && turn.Resume?)
    ensures After(s, Tick(p, r, turn, now)).db == s.db
  {
    var phase := PhaseOf(s, p, r);
    TickAfter(s, p, r, turn, now);
    forall requeue ensures Next(s.db, Entry(RunPart(DoSettleContinuation(phase.fence, requeue)), now)) == s.db {
      StaleSettlement(s.db, phase.fence, requeue, now);
    }
    forall ttl ensures Next(s.db, Entry(RunPart(DoRenewLease(phase.fence, ttl)), now)) == s.db {
      StaleRenewal(s.db, phase.fence, ttl, now);
    }
    StaleRecovery(s.db, phase.fence, now);
    ClaimTakes(s.db, phase.fence, now);
    hide Next, After, PhaseOf, LeaseHolds, Commits;
  }

  /** The turn that resumes a recovering Run moves it whether or not the lease still holds. */
  lemma ResumeIgnoresLease(s: System, p: Process, r: RunId, now: Time)
    requires PhaseOf(s, p, r).Reconciled? && PhaseOf(s, p, r).recovering && r in s.db.runs
    ensures var next := After(s, Tick(p, r, Turn.Resume, now));
            && r in next.db.runs
            && next.db.runs[r].status ==
               if CanMoveRun(s.db.runs[r].status, Running) then Running else s.db.runs[r].status
  {
    var e := Entry(RunPart(DoTransitionRun(r, Running, None, None)), now);
    assert Step(s.db, e) == TransitionRun(s.db, r, Running, None, None, now);
    hide Step, CanMoveRun;
  }

  lemma StaleRenewal(db: Database, fence: Fence, ttl: int, now: Time)
    requires !LeaseHolds(db, fence, now)
    ensures Next(db, Entry(RunPart(DoRenewLease(fence, ttl)), now)) == db
  {
    var e := Entry(RunPart(DoRenewLease(fence, ttl)), now);
    assert Step(db, e) == RenewLease(db, fence, ttl, now);
    hide Step, LeaseHolds;
  }

  lemma StaleRecovery(db: Database, fence: Fence, now: Time)
    requires !LeaseHolds(db, fence, now)
    ensures Next(db, Entry(WorkPart(DoRecoverClaimedWork(fence)), now)) == db
  {
    var e := Entry(WorkPart(DoRecoverClaimedWork(fence)), now);
    assert Step(db, e) == RecoverClaimedWork(db, fence, now);
    hide Step, LeaseHolds;
  }

  // ----- An execution under way -----

  /** Only the end of the lease of the Run has changed. */
  predicate Extended(before: Database, after: Database, r: RunId, until: Time)
  {
    r in before.leases && after == before.(leases := before.leases[r := before.leases[r].(expiresAt := until)])
  }

  lemma RenewalIs(db: Database, fence: Fence, ttl: int, now: Time)
    ensures var e := Entry(RunPart(DoRenewLease(fence, ttl)), now);
            && (Commits(db, e) <==> LeaseHolds(db, fence, now))
            && (Commits(db, e) ==> Extended(db, Next(db, e), fence.runId, now + ttl))
            && (!Commits(db, e) ==> Next(db, e) == db)
  {
    var e := Entry(RunPart(DoRenewLease(fence, ttl)), now);
    assert Step(db, e) == RenewLease(db, fence, ttl, now);
    hide Step;
  }

  /** A heartbeat extends the lease, and one that comes too late spoils the execution; an execution settles only if no
      heartbeat failed and its own renewal is in time, and asks for what its result says. */
  lemma ExecutionRenews(db: Database, fence: Fence, failed: bool, p: Process, ttl: int, requeue: bool, now: Time)
    ensures var phase := Executing(fence, failed);
            var beat, done := Heartbeat(ttl), Finish(ttl, requeue);
            var r, live := fence.runId, LeaseHolds(db, fence, now);
            && (live ==> Extended(db, DatabaseAfter(db, phase, p, r, beat, now), r, now + ttl))
            && (!live ==> DatabaseAfter(db, phase, p, r, beat, now) == db)
            && TurnedPhase(db, phase, p, r, beat, now) == Executing(fence, failed || !live)
            && (live && !failed ==> Extended(db, DatabaseAfter(db, phase, p, r, done, now), r, now + ttl))
            && (failed || !live ==> DatabaseAfter(db, phase, p, r, done, now) == db)
            && TurnedPhase(db, phase, p, r, done, now) == if live && !failed then Settling(fence, requeue) else Idle
  {
    RenewalIs(db, fence, ttl, now);
    hide Next, Commits, LeaseHolds;
  }

  // ----- A whole tick -----

  /** A tick that nothing interrupts, on a Run listed as it is, and an execution that ends with this result. */
  function WholeTick(p: Process, r: RunId, seen: RunStatus, ttl: int, requeue: bool, now: Time): seq<Move>
  {
    [Tick(p, r, Begin(seen), now)] + [Tick(p, r, Acquire(ttl), now)] + [Tick(p, r, Recover, now)]
    + [Tick(p, r, Turn.Resume, now)] + [Tick(p, r, ClaimIt, now)] + [Tick(p, r, Launch(false), now)]
    + [Tick(p, r, Finish(ttl, requeue), now)] + [Tick(p, r, Settle, now)]
  }

  function RowOf(db: Database, r: RunId): Option<Action> { if r in db.actions then Some(db.actions[r]) else None }

  /** The generation a tick of this executor comes to run under. */
  function ComingGeneration(db: Database, r: RunId, x: ExecutorId, now: Time): nat
  {
    if r !in db.leases then 1
    else if db.leases[r].holder == x && now < db.leases[r].expiresAt then db.leases[r].generation
    else db.leases[r].generation + 1
  }

  /** A tick can take the Run: nobody else's lease is live, its goal is active, and its continuation is due and offered,
      or claimed by a generation that has been replaced, or still to be offered when the Run begins. */
  predicate Takeable(db: Database, r: RunId, x: ExecutorId, now: Time)
  {
    && r in db.runs && (db.runs[r].status == Queued || db.runs[r].status == Running || db.runs[r].status == Recovering)
    && GoalIsActive(db, r)
    && (r in db.leases && db.leases[r].holder != x ==> db.leases[r].expiresAt <= now)
    && match RowOf(db, r)
       case None => db.runs[r].status != Running
       case Some(row) =>
         row.dueAt <= now && (row.claim.None? || row.claim.value.epoch < ComingGeneration(db, r, x, now))
  }

  /** The state on the way: the Run has this status and row, and apart from it nothing has changed but the tables given.
      */
  predicate Along(start: Database, db: Database, r: RunId, status: RunStatus, row: Option<Action>)
  {
    && r in start.runs && r in db.runs && db.runs[r].currentGoal == start.runs[r].currentGoal
    && db.runs[r].status == status && GoalIsActive(db, r)
    && RowOf(db, r) == row && db.actions - {r} == start.actions - {r} && db.runs - {r} == start.runs - {r}
    && db == start.(runs := db.runs, events := db.events, actions := db.actions, leases := db.leases,
                    goals := db.goals, toolCalls := db.toolCalls)
  }

  function Offered(db: Database, r: RunId, now: Time): Option<Action>
  {
    if r in db.actions then Some(db.actions[r]) else Some(Action(now, None, 0))
  }

  /** A Run that is queued or recovering starts running, and its continuation is offered if it is not there. */
  lemma RunStarts(start: Database, db: Database, r: RunId, status: RunStatus, row: Option<Action>, now: Time)
    requires Along(start, db, r, status, row) && (status == Queued || status == Recovering)
    ensures var e := Entry(RunPart(DoTransitionRun(r, Running, None, None)), now);
            var next := Next(db, e);
            && Commits(db, e) && Along(start, next, r, Running, Offered(db, r, now))
            && next.leases == db.leases && next.goals == db.goals && next.toolCalls == db.toolCalls
  {
    var e := Entry(RunPart(DoTransitionRun(r, Running, None, None)), now);
    assert Step(db, e) == TransitionRun(db, r, Running, None, None, now);
    hide Step;
    MovedRuns(db, r);
    hide MoveRun;
  }

  lemma MovedRuns(db: Database, r: RunId)
    requires r in db.runs && (db.runs[r].status == Queued || db.runs[r].status == Recovering)
    ensures var m := MoveRun(db, r, Running);
            && m.Ok? && m.value.runs[r].status == Running && m.value.runs[r].currentGoal == db.runs[r].currentGoal
            && m.value.runs - {r} == db.runs - {r}
  {
  }

  /** The calls of older generations of the Run that were running are unknown, and all others are as they were. */
  predicate CallsMarked(before: map<ToolCallId, ToolCall>, after: map<ToolCallId, ToolCall>, r: RunId, generation: nat)
  {
    && after.Keys == before.Keys
    && forall id :: id in before ==>
         after[id] == if before[id].runId == r && before[id].status == CallRunning && before[id].generation < generation
                      then before[id].(status := CallUnknown) else before[id]
  }

  lemma BeginTurn(db: Database, p: Process, r: RunId, now: Time)
    requires Takeable(db, r, p.executorId, now)
    ensures var seen := db.runs[r].status;
            var next := DatabaseAfter(db, Idle, p, r, Begin(seen), now);
            && Along(db, next, r, if seen == Queued then Running else seen,
                     if seen == Queued then Offered(db, r, now) else RowOf(db, r))
            && next.leases == db.leases && next.goals == db.goals && next.toolCalls == db.toolCalls
            && TurnedPhase(db, Idle, p, r, Begin(seen), now) == Starting(seen == Recovering)
  {
    assert Along(db, db, r, db.runs[r].status, RowOf(db, r));
    if db.runs[r].status == Queued {
      RunStarts(db, db, r, Queued, RowOf(db, r), now);
    }
    hide Next, Commits, Along;
  }

  lemma AcquireTurn(start: Database, db: Database, p: Process, r: RunId, recovering: bool, status: RunStatus,
                    row: Option<Action>, ttl: int, now: Time)
    requires Along(start, db, r, status, row) && db.leases == start.leases
    requires r in db.leases && db.leases[r].holder != p.executorId ==> db.leases[r].expiresAt <= now
    ensures var generation := ComingGeneration(start, r, p.executorId, now);
            var next := DatabaseAfter(db, Starting(recovering), p, r, Acquire(ttl), now);
            && Along(start, next, r, status, row) && next.goals == db.goals && next.toolCalls == db.toolCalls
            && next.leases == start.leases[r := Lease(p.executorId, generation, now + ttl)]
            && TurnedPhase(db, Starting(recovering), p, r, Acquire(ttl), now)
               == Leased(Fence(r, p.executorId, generation), recovering)
  {
    var e := Entry(RunPart(DoAcquireLease(r, p.executorId, ttl)), now);
    assert Step(db, e) == AcquireLease(db, r, p.executorId, ttl, now);
    hide Step;
  }

  lemma RecoverTurn(start: Database, db: Database, p: Process, r: RunId, fence: Fence, recovering: bool,
                    status: RunStatus, row: Option<Action>, now: Time)
    requires Along(start, db, r, status, row) && fence.runId == r && LeaseHolds(db, fence, now)
    requires row.Some? && row.value.claim.Some? ==> row.value.claim.value.epoch < fence.generation
    ensures var next := DatabaseAfter(db, Leased(fence, recovering), p, r, Recover, now);
            && Along(start, next, r, status, if row.None? then None else Some(row.value.(claim := None)))
            && next.goals == db.goals && next.leases == db.leases
            && CallsMarked(db.toolCalls, next.toolCalls, r, fence.generation)
            && TurnedPhase(db, Leased(fence, recovering), p, r, Recover, now) == Reconciled(fence, recovering)
  {
    var e := Entry(WorkPart(DoRecoverClaimedWork(fence)), now);
    assert Step(db, e) == RecoverClaimedWork(db, fence, now);
    hide Step;
    RecoveryIs(start, db, r, fence, status, row, now);
    hide RecoverClaimedWork, LeaseHolds, Along, CallsMarked;
  }

  lemma RecoveryIs(start: Database, db: Database, r: RunId, fence: Fence, status: RunStatus, row: Option<Action>,
                   now: Time)
    requires Along(start, db, r, status, row) && fence.runId == r && LeaseHolds(db, fence, now)
    requires row.Some? && row.value.claim.Some? ==> row.value.claim.value.epoch < fence.generation
    ensures var m := RecoverClaimedWork(db, fence, now);
            && m.Ok? && Along(start, m.value, r, status, if row.None? then None else Some(row.value.(claim := None)))
            && m.value.goals == db.goals && m.value.leases == db.leases
            && CallsMarked(db.toolCalls, m.value.toolCalls, r, fence.generation)
  {
    hide LeaseHolds, Along, OfferAgain, StrandedCalls, MarkUnknown, CallsMarked, AppendEvent;
    var calls, offered := StrandedCalls(db, fence), OfferAgain(db, fence);
    var freed := if row.None? then None else Some(row.value.(claim := None));
    StrandedMarked(db, fence);
    OfferAlong(start, db, r, fence, status, row);
    MarkedAlong(start, offered, r, MarkUnknown(offered.toolCalls, calls), status, freed);
    AppendAlong(start, offered.(toolCalls := MarkUnknown(offered.toolCalls, calls)), r, RecoveryRequired,
                Some(fence.generation), status, freed);
    assert r in offered.runs && r in db.runs by { AlongStatus(start, db, r, status, row); }
  }

  lemma AlongStatus(start: Database, db: Database, r: RunId, status: RunStatus, row: Option<Action>)
    requires Along(start, db, r, status, row)
    ensures r in db.runs && db.runs[r].status == status
  {
  }

  lemma StrandedMarked(db: Database, fence: Fence)
    ensures CallsMarked(db.toolCalls, MarkUnknown(db.toolCalls, StrandedCalls(db, fence)), fence.runId,
                        fence.generation)
    ensures StrandedCalls(db, fence) == {} ==> MarkUnknown(db.toolCalls, StrandedCalls(db, fence)) == db.toolCalls
  {
  }

  lemma OfferAlong(start: Database, db: Database, r: RunId, fence: Fence, status: RunStatus, row: Option<Action>)
    requires Along(start, db, r, status, row) && fence.runId == r
    requires row.Some? && row.value.claim.Some? ==> row.value.claim.value.epoch < fence.generation
    ensures Along(start, OfferAgain(db, fence), r, status,
                  if row.None? then None else Some(row.value.(claim := None)))
  {
    assert OfferAgain(db, fence).actions - {r} == db.actions - {r};
  }

  lemma MarkedAlong(start: Database, db: Database, r: RunId, calls: map<ToolCallId, ToolCall>, status: RunStatus,
                    row: Option<Action>)
    requires Along(start, db, r, status, row)
    ensures Along(start, db.(toolCalls := calls), r, status, row)
  {
  }

  lemma AppendAlong(start: Database, db: Database, r: RunId, kind: EventKind, generation: Option<nat>,
                    status: RunStatus, row: Option<Action>)
    requires Along(start, db, r, status, row)
    ensures r in db.runs && Along(start, AppendEvent(db, r, kind, generation), r, status, row)
  {
    assert AppendEvent(db, r, kind, generation).runs - {r} == db.runs - {r};
  }

  lemma ResumeTurn(start: Database, db: Database, p: Process, r: RunId, fence: Fence, status: RunStatus,
                   row: Option<Action>, now: Time)
    requires Along(start, db, r, status, row) && (status == Running || status == Recovering)
    requires status == Running ==> row.Some?
    ensures var phase := Reconciled(fence, status == Recovering);
            var next := DatabaseAfter(db, phase, p, r, Turn.Resume, now);
            && Along(start, next, r, Running, Offered(db, r, now))
            && next.leases == db.leases && next.goals == db.goals && next.toolCalls == db.toolCalls
            && TurnedPhase(db, phase, p, r, Turn.Resume, now) == Ready(fence)
  {
    if status == Recovering {
      RunStarts(start, db, r, status, row, now);
    } else {
      assert RowOf(db, r) == Offered(db, r, now);
    }
    hide Next, Commits, GoalIsActive;
  }

  lemma ClaimTurn(start: Database, db: Database, p: Process, r: RunId, fence: Fence, row: Action, now: Time)
    requires Along(start, db, r, Running, Some(row)) && fence.runId == r && LeaseHolds(db, fence, now)
    requires row.claim.None? && row.dueAt <= now && db.goals == start.goals
    ensures var next, goal := DatabaseAfter(db, Ready(fence), p, r, ClaimIt, now), start.runs[r].currentGoal;
            && Along(start, next, r, Running,
                     Some(row.(claim := Some(ClaimIn(fence)), attempt := row.attempt + 1)))
            && next.leases == db.leases && next.toolCalls == db.toolCalls && goal in start.goals
            && next.goals
               == start.goals[goal := start.goals[goal].(continuations := start.goals[goal].continuations + 1)]
            && TurnedPhase(db, Ready(fence), p, r, ClaimIt, now) == Claimed(fence)
  {
    var e := Entry(RunPart(DoClaimContinuation(fence)), now);
    assert Step(db, e) == ClaimContinuation(db, fence, now);
    hide Step, LeaseHolds;
  }

  lemma FinishTurn(db: Database, p: Process, r: RunId, fence: Fence, ttl: int, requeue: bool, now: Time)
    requires fence.runId == r && LeaseHolds(db, fence, now) && db.leases[r].expiresAt == now + ttl
    ensures DatabaseAfter(db, Executing(fence, false), p, r, Finish(ttl, requeue), now) == db
    ensures TurnedPhase(db, Executing(fence, false), p, r, Finish(ttl, requeue), now) == Settling(fence, requeue)
  {
    ExecutionRenews(db, fence, false, p, ttl, requeue, now);
    assert db.leases[r := db.leases[r].(expiresAt := now + ttl)] == db.leases;
    hide DatabaseAfter, TurnedPhase;
  }

  /** What a whole tick leaves: the lease of the coming generation, a running Run, an unclaimed continuation exactly
      when the execution asked for one, one more continuation counted on the goal, and the calls of older generations
      unknown. */
  predicate Ticked(before: Database, after: Database, r: RunId, x: ExecutorId, ttl: int, requeue: bool, now: Time)
    requires r in before.runs && before.runs[r].currentGoal in before.goals
  {
    var generation, goal := ComingGeneration(before, r, x, now), before.runs[r].currentGoal;
    && after.leases == before.leases[r := Lease(x, generation, now + ttl)]
    && r in after.runs && after.runs[r].status == Running && after.runs - {r} == before.runs - {r}
    && RowOf(after, r) == (if requeue then Some(Action(now, None, 0)) else None)
    && after.actions - {r} == before.actions - {r}
    && after.goals == before.goals[goal := before.goals[goal].(continuations := before.goals[goal].continuations + 1)]
    && CallsMarked(before.toolCalls, after.toolCalls, r, generation)
    && after == before.(runs := after.runs, events := after.events, actions := after.actions, leases := after.leases,
                        goals := after.goals, toolCalls := after.toolCalls)
  }

  /** The phase of a process and the database after one more turn. */
  lemma Turned(moves: seq<Move>, p: Process, r: RunId, turn: Turn, now: Time)
    ensures var s, next := Operate(moves), Operate(moves + [Tick(p, r, turn, now)]);
            && next.db == DatabaseAfter(s.db, PhaseOf(s, p, r), p, r, turn, now)
            && PhaseOf(next, p, r) == TurnedPhase(s.db, PhaseOf(s, p, r), p, r, turn, now)
  {
    OperateSnoc(moves, Tick(p, r, turn, now));
    TickAfter(Operate(moves), p, r, turn, now);
    hide Operate, After, PhaseOf, DatabaseAfter, TurnedPhase;
  }

  /** A state of the tick, as an operation comes to it. */
  predicate Reaches(moves: seq<Move>, p: Process, r: RunId, phase: Phase, db: Database)
  {
    Operate(moves).db == db && PhaseOf(Operate(moves), p, r) == phase
  }

  lemma Turns(moves: seq<Move>, p: Process, r: RunId, phase: Phase, db: Database, turn: Turn, now: Time)
    requires Reaches(moves, p, r, phase, db)
    ensures Reaches(moves + [Tick(p, r, turn, now)], p, r, TurnedPhase(db, phase, p, r, turn, now),
                    DatabaseAfter(db, phase, p, r, turn, now))
  {
    Turned(moves, p, r, turn, now);
    hide Operate, PhaseOf, DatabaseAfter, TurnedPhase;
  }

  /** The first half: up to the phase in which the process asks for the continuation. */
  lemma TickReadies(moves: seq<Move>, p: Process, r: RunId, db: Database, ttl: int, now: Time)
      returns (ready: Database, row: Action)
    requires Reaches(moves, p, r, Idle, db) && Takeable(db, r, p.executorId, now) && ttl > 0
    ensures var generation := ComingGeneration(db, r, p.executorId, now);
            var fence := Fence(r, p.executorId, generation);
            && Reaches(moves + [Tick(p, r, Begin(db.runs[r].status), now)] + [Tick(p, r, Acquire(ttl), now)]
                       + [Tick(p, r, Recover, now)] + [Tick(p, r, Turn.Resume, now)], p, r, Ready(fence), ready)
            && Along(db, ready, r, Running, Some(row)) && row.claim.None? && row.dueAt <= now
            && ready.goals == db.goals && ready.leases == db.leases[r := Lease(p.executorId, generation, now + ttl)]
            && CallsMarked(db.toolCalls, ready.toolCalls, r, generation)
  {
    hide Reaches, DatabaseAfter, TurnedPhase, Along, CallsMarked, GoalIsActive, ComingGeneration;
    var seen, generation := db.runs[r].status, ComingGeneration(db, r, p.executorId, now);
    var fence, recovering := Fence(r, p.executorId, generation), seen == Recovering;
    var status := if seen == Queued then Running else seen;
    var first := if seen == Queued then Offered(db, r, now) else RowOf(db, r);
    assert first.Some? && first.value.claim.Some? ==> first.value.claim.value.epoch < generation;
    assert first.Some? ==> first.value.dueAt <= now;
    BeginTurn(db, p, r, now);
    Turns(moves, p, r, Idle, db, Begin(seen), now);
    var h1, db1 := moves + [Tick(p, r, Begin(seen), now)], DatabaseAfter(db, Idle, p, r, Begin(seen), now);
    AcquireTurn(db, db1, p, r, recovering, status, first, ttl, now);
    Turns(h1, p, r, Starting(recovering), db1, Acquire(ttl), now);
    var h2 := h1 + [Tick(p, r, Acquire(ttl), now)];
    var db2 := DatabaseAfter(db1, Starting(recovering), p, r, Acquire(ttl), now);
    RecoverTurn(db, db2, p, r, fence, recovering, status, first, now);
    Turns(h2, p, r, Leased(fence, recovering), db2, Recover, now);
    var h3, db3 := h2 + [Tick(p, r, Recover, now)], DatabaseAfter(db2, Leased(fence, recovering), p, r, Recover, now);
    var second := if first.None? then None else Some(first.value.(claim := None));
    ResumeTurn(db, db3, p, r, fence, status, second, now);
    Turns(h3, p, r, Reconciled(fence, recovering), db3, Turn.Resume, now);
    ready := DatabaseAfter(db3, Reconciled(fence, recovering), p, r, Turn.Resume, now);
    assert RowOf(db3, r) == second by { AlongRow(db, db3, r, status, second); }
    row := Offered(db3, r, now).value;
  }

  lemma AlongRow(start: Database, db: Database, r: RunId, status: RunStatus, row: Option<Action>)
    requires Along(start, db, r, status, row)
    ensures RowOf(db, r) == row
  {
  }

  /** The second half: the process claims, executes and settles. */
  lemma TickSettles(moves: seq<Move>, p: Process, r: RunId, fence: Fence, start: Database, db: Database, row: Action,
                    ttl: int, requeue: bool, now: Time) returns (after: Database)
    requires Reaches(moves, p, r, Ready(fence), db) && ttl > 0
    requires fence == Fence(r, p.executorId, ComingGeneration(start, r, p.executorId, now))
    requires Along(start, db, r, Running, Some(row)) && row.claim.None? && row.dueAt <= now && db.goals == start.goals
    requires db.leases == start.leases[r := Lease(p.executorId, fence.generation, now + ttl)]
    requires CallsMarked(start.toolCalls, db.toolCalls, r, fence.generation)
    ensures Reaches(moves + [Tick(p, r, ClaimIt, now)] + [Tick(p, r, Launch(false), now)]
                    + [Tick(p, r, Finish(ttl, requeue), now)] + [Tick(p, r, Settle, now)], p, r, Idle, after)
    ensures r in start.runs && start.runs[r].currentGoal in start.goals
    ensures Ticked(start, after, r, p.executorId, ttl, requeue, now)
  {
    hide Reaches, DatabaseAfter, TurnedPhase, Along, CallsMarked, ComingGeneration, Ticked, ClaimOver;
    assert LeaseHolds(db, fence, now);
    ClaimTurn(start, db, p, r, fence, row, now);
    Turns(moves, p, r, Ready(fence), db, ClaimIt, now);
    var h1, db1 := moves + [Tick(p, r, ClaimIt, now)], DatabaseAfter(db, Ready(fence), p, r, ClaimIt, now);
    var claimed := row.(claim := Some(ClaimIn(fence)), attempt := row.attempt + 1);
    assert LeaseHolds(db1, fence, now);
    hide LeaseHolds;
    AlongRuns(start, db1, r, claimed);
    assert ClaimOn(db1.actions, r) == Some(ClaimIn(fence));
    TurnEnds(db1, Claimed(fence), p, r, Launch(false), now);
    Turns(h1, p, r, Claimed(fence), db1, Launch(false), now);
    var h2 := h1 + [Tick(p, r, Launch(false), now)];
    FinishTurn(db1, p, r, fence, ttl, requeue, now);
    Turns(h2, p, r, Executing(fence, false), db1, Finish(ttl, requeue), now);
    var h3 := h2 + [Tick(p, r, Finish(ttl, requeue), now)];
    TurnEnds(db1, Settling(fence, requeue), p, r, Settle, now);
    Turns(h3, p, r, Settling(fence, requeue), db1, Settle, now);
    after := DatabaseAfter(db1, Settling(fence, requeue), p, r, Settle, now);
    TickDone(start, db1, after, r, claimed, p.executorId, ttl, requeue, now);
  }

  lemma AlongRuns(start: Database, db: Database, r: RunId, row: Action)
    requires Along(start, db, r, Running, Some(row))
    ensures r in start.runs && Wanted(db, r) && RowOf(db, r) == Some(row)
  {
  }

  lemma TickDone(start: Database, db: Database, after: Database, r: RunId, row: Action, x: ExecutorId, ttl: int,
                 requeue: bool, now: Time)
    requires Along(start, db, r, Running, Some(row)) && ClaimOver(db, after, r, requeue, now)
    requires start.runs[r].currentGoal in start.goals
    requires var goal := start.runs[r].currentGoal;
             db.goals == start.goals[goal := start.goals[goal].(continuations := start.goals[goal].continuations + 1)]
    requires db.leases == start.leases[r := Lease(x, ComingGeneration(start, r, x, now), now + ttl)]
    requires CallsMarked(start.toolCalls, db.toolCalls, r, ComingGeneration(start, r, x, now))
    ensures Ticked(start, after, r, x, ttl, requeue, now)
  {
    hide CallsMarked, ComingGeneration;
  }

  /** Whatever has happened before, a tick that nothing interrupts takes a Run that can be taken, under the generation
      it comes to, executes its continuation once and leaves it offered exactly when the execution asked for it. */
  lemma WholeTickRuns(moves: seq<Move>, p: Process, r: RunId, ttl: int, requeue: bool, now: Time)
    requires var s := Operate(moves); PhaseOf(s, p, r).Idle? && Takeable(s.db, r, p.executorId, now) && ttl > 0
    ensures var db := Operate(moves).db;
            var next := Operate(moves + WholeTick(p, r, db.runs[r].status, ttl, requeue, now));
            && db.runs[r].currentGoal in db.goals
            && Ticked(db, next.db, r, p.executorId, ttl, requeue, now) && PhaseOf(next, p, r).Idle?
  {
    hide Operate, PhaseOf, Ticked, Along, CallsMarked, ComingGeneration, GoalIsActive, Reaches;
    var db := Operate(moves).db;
    GoalKnown(db, r, p.executorId, now);
    assert Reaches(moves, p, r, Idle, db) by { IsReached(moves, p, r); }
    var seen := db.runs[r].status;
    var fence := Fence(r, p.executorId, ComingGeneration(db, r, p.executorId, now));
    var ready, row := TickReadies(moves, p, r, db, ttl, now);
    hide Takeable;
    var half := moves + [Tick(p, r, Begin(seen), now)] + [Tick(p, r, Acquire(ttl), now)] + [Tick(p, r, Recover, now)]
        + [Tick(p, r, Turn.Resume, now)];
    var after := TickSettles(half, p, r, fence, db, ready, row, ttl, requeue, now);
    var whole := moves + WholeTick(p, r, seen, ttl, requeue, now);
    assert half + [Tick(p, r, ClaimIt, now)] + [Tick(p, r, Launch(false), now)]
           + [Tick(p, r, Finish(ttl, requeue), now)] + [Tick(p, r, Settle, now)] == whole by {
      EightMore(moves, Tick(p, r, Begin(seen), now), Tick(p, r, Acquire(ttl), now), Tick(p, r, Recover, now),
                Tick(p, r, Turn.Resume, now), Tick(p, r, ClaimIt, now), Tick(p, r, Launch(false), now),
                Tick(p, r, Finish(ttl, requeue), now), Tick(p, r, Settle, now));
    }
    IsReached(whole, p, r);
    ReachedOnce(whole, p, r, Idle, after);
  }

  lemma EightMore<T>(m: seq<T>, a: T, b: T, c: T, d: T, e: T, f: T, g: T, h: T)
    ensures m + [a] + [b] + [c] + [d] + [e] + [f] + [g] + [h]
         == m + ([a] + [b] + [c] + [d] + [e] + [f] + [g] + [h])
  {
  }

  lemma IsReached(moves: seq<Move>, p: Process, r: RunId)
    ensures Reaches(moves, p, r, PhaseOf(Operate(moves), p, r), Operate(moves).db)
  {
    hide Operate, PhaseOf;
  }

  lemma ReachedOnce(moves: seq<Move>, p: Process, r: RunId, phase: Phase, db: Database)
    requires Reaches(moves, p, r, phase, db)
    ensures Operate(moves).db == db && PhaseOf(Operate(moves), p, r) == phase
  {
    hide Operate, PhaseOf;
  }

  lemma GoalKnown(db: Database, r: RunId, x: ExecutorId, now: Time)
    requires Takeable(db, r, x, now)
    ensures db.runs[r].currentGoal in db.goals
  {
  }
}
