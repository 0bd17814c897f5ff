/** Lease fencing over every history of the store. */
module Fencing {
  import opened Outcomes
  import opened Tables
  import opened RunOps
  import opened Store

  /** How lease tables may change: a generation never falls, and keeps the holder it was granted to. */
  predicate Evolves(before: map<RunId, Lease>, after: map<RunId, Lease>)
  {
    forall r :: r in before ==>
      && r in after && before[r].generation <= after[r].generation
      && (before[r].generation == after[r].generation ==> before[r].holder == after[r].holder)
  }

  lemma AcquireEvolves(db: Database, runId: RunId, executor: ExecutorId, ttl: int, now: Time)
    ensures var r := AcquireLease(db, runId, executor, ttl, now); r.Ok? ==> Evolves(db.leases, r.value.leases)
  {
  }

  lemma RenewEvolves(db: Database, fence: Fence, ttl: int, now: Time)
    ensures var r := RenewLease(db, fence, ttl, now); r.Ok? ==> Evolves(db.leases, r.value.leases)
  {
  }

  lemma StepEvolves(db: Database, e: Entry)
    ensures Evolves(db.leases, Next(db, e).leases)
  {
    hide AcquireLease, RenewLease, Framed;
    if !TouchesLeases(e.op) {
      assert Next(db, e).leases == db.leases by {
        hide Step;
        UntouchedLeases(db, e);
      }
    } else if e.op.run.DoAcquireLease? {
      AcquireEvolves(db, e.op.run.runId, e.op.run.executor, e.op.run.ttl, e.now);
    } else {
      RenewEvolves(db, e.op.run.fence, e.op.run.ttl, e.now);
    }
  }

  lemma UntouchedLeases(db: Database, e: Entry)
    requires !TouchesLeases(e.op)
    ensures Next(db, e).leases == db.leases
  {
    hide Next;
    Frames(db, e);
  }

  /** In every history, whatever the clocks say. */
  lemma {:induction false} LeasesEvolve(db: Database, history: seq<Entry>)
    ensures Evolves(db.leases, Play(db, history).leases)
    decreases |history|
  {
    hide Next;
    if history != [] {
      var n := |history| - 1;
      LeasesEvolve(db, history[..n]);
      StepEvolves(Play(db, history[..n]), history[n]);
    }
  }

  /** The fence's generation is over, or was granted to another executor. */
  predicate Superseded(db: Database, fence: Fence)
  {
    && fence.runId in db.leases
    && var current := db.leases[fence.runId];
       fence.generation < current.generation
       || (fence.generation == current.generation && fence.executorId != current.holder)
  }

  lemma SupersededForever(db: Database, history: seq<Entry>, fence: Fence)
    requires Superseded(db, fence)
    ensures Superseded(Play(db, history), fence)
  {
    LeasesEvolve(db, history);
  }

  /** Once a newer generation is granted, no write that carries an older one commits or leaves a trace, unless it is
      the one operation that never looks at its fence. */
  lemma StaleWritesRefused(db: Database, history: seq<Entry>, e: Entry)
    requires FenceOf(e.op).Some? && Superseded(db, FenceOf(e.op).value) && !IgnoresFence(e.op)
    ensures !Commits(Play(db, history), e) && Next(Play(db, history), e) == Play(db, history)
  {
    var later := Play(db, history);
    SupersededForever(db, history, FenceOf(e.op).value);
    if Commits(later, e) {
      hide Step;
      CommitsUnderLease(later, e);
      assert false;
    }
  }

  /** The goal is known, its Run exists, its version is the one expected, and its status may change so. */
  predicate GoalMayMove(db: Database, op: RunOp)
    requires op.DoSetGoalStatus?
  {
    && op.goalId in db.goals && db.goals[op.goalId].runId in db.runs
    && db.goals[op.goalId].version == op.expectedVersion && CanMoveGoal(db.goals[op.goalId].status, op.goalTo)
  }

  /** All that a goal's move writes: its status, one event in the journal of its Run, and, if the goal is active again,
      at most a pending continuation. */
  predicate MovesGoal(db: Database, next: Database, op: RunOp)
    requires op.DoSetGoalStatus? && GoalMayMove(db, op)
  {
    var goal := db.goals[op.goalId];
    var run := db.runs[goal.runId];
    && next == db.(goals := db.goals[op.goalId := goal.(status := op.goalTo)],
                   runs := db.runs[goal.runId := run.(nextSequence := run.nextSequence + 1,
                                                      revision := run.revision + 1)],
                   events := db.events[goal.runId :=
                     Journal(db, goal.runId) + [Event(run.nextSequence + 1, GoalStatusChanged, None)]],
                   actions := next.actions)
    && (next.actions == db.actions
        || (goal.runId !in db.actions && op.goalTo == GoalActive && goal.runId in next.actions
            && next.actions[goal.runId].claim.None? && next.actions - {goal.runId} == db.actions))
  }

  /** A transaction whose fence has been superseded commits, however much later, exactly when it is a move of a goal
      that could be made without any fence; and then it writes no more than that move. */
  lemma StaleCommitsIff(db: Database, history: seq<Entry>, e: Entry)
    requires FenceOf(e.op).Some? && Superseded(db, FenceOf(e.op).value)
    ensures var later := Play(db, history);
            && (Commits(later, e) <==> IgnoresFence(e.op) && GoalMayMove(later, e.op.run))
            && (Commits(later, e) ==> MovesGoal(later, Next(later, e), e.op.run))
            && (!Commits(later, e) ==> Next(later, e) == later)
  {
    var later := Play(db, history);
    if IgnoresFence(e.op) {
      GoalMoves(later, e.op.run, e.now);
      hide GoalMayMove, MovesGoal;
    } else {
      StaleWritesRefused(db, history, e);
      hide Step;
    }
  }

  lemma EnsureAdds(db: Database, r: RunId, now: Time)
    ensures var next := EnsureContinuation(db, r, now);
            && next == db.(actions := next.actions)
            && (next.actions == db.actions
                || (r !in db.actions && r in next.actions && next.actions[r].claim.None?
                    && next.actions - {r} == db.actions))
  {
    var next := EnsureContinuation(db, r, now);
    if next.actions != db.actions {
      assert next.actions - {r} == db.actions;
    }
  }

  /** The row of the goal, and the event, before a continuation is looked for. */
  function GoalMoved(db: Database, op: RunOp): Database
    requires op.DoSetGoalStatus? && GoalMayMove(db, op)
  {
    var goal := db.goals[op.goalId];
    AppendEvent(db.(goals := db.goals[op.goalId := goal.(status := op.goalTo)]), goal.runId, GoalStatusChanged, None)
  }

  lemma GoalSteps(db: Database, op: RunOp, now: Time)
    requires op.DoSetGoalStatus?
    ensures RunStep(db, op, now) ==
            if !GoalMayMove(db, op) then SetGoalStatus(db, op.goalId, op.expectedVersion, op.goalTo, now)
            else if op.goalTo == GoalActive then
              Ok(EnsureContinuation(GoalMoved(db, op), db.goals[op.goalId].runId, now))
            else Ok(GoalMoved(db, op))
    ensures RunStep(db, op, now).Ok? <==> GoalMayMove(db, op)
  {
    hide CanMoveGoal, AppendEvent, EnsureContinuation;
  }

  lemma GoalMovedWrites(db: Database, op: RunOp)
    requires op.DoSetGoalStatus? && GoalMayMove(db, op)
    ensures MovesGoal(db, GoalMoved(db, op), op)
    ensures GoalMoved(db, op).actions == db.actions
  {
    hide CanMoveGoal;
  }

  lemma ContinuationAdded(db: Database, moved: Database, next: Database, op: RunOp)
    requires op.DoSetGoalStatus? && GoalMayMove(db, op) && op.goalTo == GoalActive
    requires MovesGoal(db, moved, op) && moved.actions == db.actions && next == moved.(actions := next.actions)
    requires var r := db.goals[op.goalId].runId;
             next.actions == moved.actions
             || (r !in moved.actions && r in next.actions && next.actions[r].claim.None?
                 && next.actions - {r} == moved.actions)
    ensures MovesGoal(db, next, op)
  {
    hide CanMoveGoal, Journal;
  }

  lemma GoalMoves(db: Database, op: RunOp, now: Time)
    requires op.DoSetGoalStatus?
    ensures var r := RunStep(db, op, now);
            (r.Ok? <==> GoalMayMove(db, op)) && (r.Ok? ==> MovesGoal(db, r.value, op))
  {
    GoalSteps(db, op, now);
    if GoalMayMove(db, op) {
      GoalMovedWrites(db, op);
      hide RunStep, CanMoveGoal, EnsureContinuation, MovesGoal, GoalMoved;
      if op.goalTo == GoalActive {
        var moved, r := GoalMoved(db, op), db.goals[op.goalId].runId;
        EnsureAdds(moved, r, now);
        ContinuationAdded(db, moved, EnsureContinuation(moved, r, now), op);
      }
    }
  }

  /** Writes under a fence that is looked at commit, for each Run, in generation order, and all those of one generation
      come from one executor. */
  lemma CommitsInGenerationOrder(db: Database, first: Entry, between: seq<Entry>, second: Entry)
    requires FenceOf(first.op).Some? && FenceOf(second.op).Some?
    requires !IgnoresFence(first.op) && !IgnoresFence(second.op)
    requires FenceOf(first.op).value.runId == FenceOf(second.op).value.runId
    requires Commits(db, first) && Commits(Play(Next(db, first), between), second)
    ensures var f, g := FenceOf(first.op).value, FenceOf(second.op).value;
            f.generation <= g.generation && (f.generation == g.generation ==> f == g)
  {
    hide Step, Next;
    CommitsUnderLease(db, first);
    StepEvolves(db, first);
    LeasesEvolve(Next(db, first), between);
    CommitsUnderLease(Play(Next(db, first), between), second);
  }

  /** `takeOverRunLease`: the core's ownership transfer. */
  function TakeOver(current: Lease, successor: ExecutorId, expiresAt: Time): Lease
  {
    current.(holder := successor, expiresAt := expiresAt, generation := current.generation + 1)
  }

  /** Acquiring is refused exactly while another executor may still write. It is the core's takeover unless the
      caller may itself still write; and then, and only then, what the previous holder held is fenced off. */
  lemma AcquisitionIsTakeover(db: Database, runId: RunId, executor: ExecutorId, ttl: int, now: Time)
    requires runId in db.runs && runId in db.leases
    ensures var current := db.leases[runId];
            var r := AcquireLease(db, runId, executor, ttl, now);
            var held := Fence(runId, current.holder, current.generation);
            var granted := Fence(runId, executor, GrantedGeneration(db, runId, executor, now));
            && (r.Err? <==> CanWriteWithLease(runId, current, held, now) && executor != current.holder)
            && (r.Ok? && !CanWriteWithLease(runId, current, held, now) ==>
                  r.value.leases[runId] == TakeOver(current, executor, now + ttl) && Superseded(r.value, held))
            && (r.Ok? && CanWriteWithLease(runId, current, held, now) ==>
                  r.value.leases[runId] == current.(expiresAt := now + ttl) && !Superseded(r.value, held))
            && (r.Ok? ==> (LeaseHolds(r.value, granted, now) <==> ttl > 0))
  {
  }

  /** A renewal moves the end of the lease, for the holder of the current generation alone, and nothing else. */
  lemma RenewalExtends(db: Database, fence: Fence, ttl: int, now: Time, later: Time)
    ensures var r := RenewLease(db, fence, ttl, now);
            && (r.Ok? <==> LeaseHolds(db, fence, now))
            && (r.Ok? ==> (LeaseHolds(r.value, fence, later) <==> later < now + ttl))
            && (r.Ok? ==> forall x :: x in db.leases && x != fence.runId ==>
                            x in r.value.leases && r.value.leases[x] == db.leases[x])
  {
  }
}
