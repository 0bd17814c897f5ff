/** The continuation scheduler: processes that tick, execute, crash and come back, interleaved step by step. */
module Scheduler {
  import opened Outcomes
  import opened Tables
  import opened RunOps
  import opened WorkOps
  import opened Store
  import opened Fencing
  import opened Continuations

  /** One life of a daemon. Several may carry one executor identity: a delayed daemon and its successor, say. */
  datatype Process = Process(number: nat, executorId: ExecutorId)

  /** Where a process is in `tickRun` for a Run; between two phases anyone else may take steps. */
  datatype Phase =
    | Idle
    | Starting(recovering: bool)
    | Leased(fence: Fence, recovering: bool)
    | Reconciled(fence: Fence, recovering: bool)
    | Ready(fence: Fence)
    | Claimed(fence: Fence)
    | Executing(fence: Fence, heartbeatFailed: bool)
    | Settling(fence: Fence, requeue: bool)

  /** The next thing `tickRun` does, with what it is told from outside; `seen` is the status it listed the Run with. */
  datatype Turn =
    | Begin(seen: RunStatus) | Acquire(ttl: int) | Recover | Resume | ClaimIt | Launch(stopping: bool)
    | Heartbeat(ttl: int) | Finish(ttl: int, requeue: bool) | Settle | Fail(fenced: bool)

  datatype Move =
    | Tick(process: Process, runId: RunId, turn: Turn, now: Time)
    | Crash(process: Process)
    | Elsewhere(entry: Entry)

  datatype System = System(db: Database, phases: map<(Process, RunId), Phase>)

  function PhaseOf(s: System, p: Process, r: RunId): Phase
  {
    if (p, r) in s.phases then s.phases[(p, r)] else Idle
  }

  /** A pause or cancel that commits after the claim stops the execution before it starts. */
  predicate MayLaunch(db: Database, r: RunId, stopping: bool)
  {
    !stopping && r in db.runs && db.runs[r].status == Running
  }

  /** The transaction of a turn, if it makes one in this phase. */
  function TransactionOf(db: Database, phase: Phase, p: Process, r: RunId, turn: Turn): Option<Op>
  {
    match turn
    case Begin(seen) =>
      if phase.Idle? && seen == Queued then Some(RunPart(DoTransitionRun(r, Running, None, None))) else None
    case Acquire(ttl) => if phase.Starting? then Some(RunPart(DoAcquireLease(r, p.executorId, ttl))) else None
    case Recover => if phase.Leased? then Some(WorkPart(DoRecoverClaimedWork(phase.fence))) else None
    case Resume =>
      if phase.Reconciled? && phase.recovering then Some(RunPart(DoTransitionRun(r, Running, None, None))) else None
    case ClaimIt => if phase.Ready? then Some(RunPart(DoClaimContinuation(phase.fence))) else None
    case Launch(stopping) =>
      if phase.Claimed? && !MayLaunch(db, r, stopping) then Some(RunPart(DoSettleContinuation(phase.fence, true)))
      else None
    case Heartbeat(ttl) => if phase.Executing? then Some(RunPart(DoRenewLease(phase.fence, ttl))) else None
    case Finish(ttl, _) =>
      if phase.Executing? && !phase.heartbeatFailed then Some(RunPart(DoRenewLease(phase.fence, ttl))) else None
    case Settle =>
      if phase.Settling? then Some(RunPart(DoSettleContinuation(phase.fence, phase.requeue))) else None
    case Fail(fenced) =>
      if phase.Executing? && !fenced then Some(RunPart(DoSettleContinuation(phase.fence, true))) else None
  }

  /** The phase after it; `ok` says that the transaction, if there was one, committed. */
  function PhaseAfter(db: Database, next: Database, phase: Phase, p: Process, r: RunId, turn: Turn, ok: bool,
      now: Time): Phase
  {
    match turn
    case Begin(seen) =>
      if phase.Idle? && ok && (seen == Queued || seen == Running || seen == Recovering) then
          Starting(seen == Recovering)
      else phase
    case Acquire(_) =>
      if !phase.Starting? then phase
      else if ok && r in next.leases then Leased(Fence(r, p.executorId, next.leases[r].generation), phase.recovering)
      else Idle
    case Recover =>
      if !phase.Leased? then phase else if ok then Reconciled(phase.fence, phase.recovering) else Idle
    case Resume => if !phase.Reconciled? then phase else if ok then Ready(phase.fence) else Idle
    case ClaimIt =>
      if !phase.Ready? then phase else if ok && Claimable(db, r, now) then Claimed(phase.fence) else Idle
    case Launch(stopping) =>
      if !phase.Claimed? then phase else if MayLaunch(db, r, stopping) then Executing(phase.fence, false) else Idle
    case Heartbeat(_) => if phase.Executing? && !ok then phase.(heartbeatFailed := true) else phase
    case Finish(_, requeue) =>
      if !phase.Executing? then phase
      else if !phase.heartbeatFailed && ok then Settling(phase.fence, requeue) else Idle
    case Settle => if phase.Settling? then Idle else phase
    case Fail(_) => if phase.Executing? then Idle else phase
  }

  function After(s: System, m: Move): System
  {
    match m
    case Elsewhere(e) => s.(db := Next(s.db, e))
    case Crash(p) => s.(phases := map k | k in s.phases && k.0 != p :: s.phases[k])
    case Tick(p, r, turn, now) =>
      var phase := PhaseOf(s, p, r);
      var op := TransactionOf(s.db, phase, p, r, turn);
      var next := if op.Some? then Next(s.db, Entry(op.value, now)) else s.db;
      var ok := op.Some? ==> Commits(s.db, Entry(op.value, now));
      System(next, s.phases[(p, r) := PhaseAfter(s.db, next, phase, p, r, turn, ok, now)])
  }

  /** Leases are acquired and continuations claimed and settled by schedulers alone; every other operation, with any
      fence, may come from anywhere. */
  predicate Allowed(m: Move)
  {
    m.Elsewhere? && m.entry.op.RunPart? ==>
      && !m.entry.op.run.DoAcquireLease? && !m.entry.op.run.DoClaimContinuation?
      && !m.entry.op.run.DoSettleContinuation?
  }

  function Operate(moves: seq<Move>): System
  {
    if moves == [] then System(EMPTY_DATABASE, map[])
    else After(Operate(moves[..|moves| - 1]), moves[|moves| - 1])
  }

  // ----- The invariant -----

  predicate HasFence(phase: Phase) { !phase.Idle? && !phase.Starting? }

  predicate Holds(phase: Phase) { phase.Claimed? || phase.Executing? || phase.Settling? }

  /** A fence in use was granted to this executor, for this Run. */
  predicate Granted(db: Database, fence: Fence, p: Process, r: RunId)
  {
    && fence.runId == r && fence.executorId == p.executorId
    && r in db.leases && fence.generation <= db.leases[r].generation
  }

  predicate IsCurrent(db: Database, fence: Fence)
  {
    fence.runId in db.leases && fence.generation == db.leases[fence.runId].generation
  }

  predicate PhaseFits(db: Database, phase: Phase, p: Process, r: RunId)
  {
    && (HasFence(phase) ==> Granted(db, phase.fence, p, r))
    && (Holds(phase) && IsCurrent(db, phase.fence) ==> ClaimOn(db.actions, r) == Some(ClaimIn(phase.fence)))
  }

  /** Both phases hold a claim of the Run's current generation. */
  predicate BothHold(db: Database, a: Phase, b: Phase)
  {
    Holds(a) && Holds(b) && IsCurrent(db, a.fence) && IsCurrent(db, b.fence)
  }

  ghost predicate SystemFits(s: System)
  {
    && (forall p, r :: PhaseFits(s.db, PhaseOf(s, p, r), p, r))
    && (forall p, q, r :: p != q ==> !BothHold(s.db, PhaseOf(s, p, r), PhaseOf(s, q, r)))
  }

  // ----- A step of someone else -----

  /** What a transaction of another process or Run must leave as it is. */
  predicate Respects(db: Database, next: Database, r: RunId)
  {
    && Evolves(db.leases, next.leases)
    && (ClaimOn(db.actions, r).Some? && r in next.leases
        && ClaimOn(db.actions, r).value.epoch == next.leases[r].generation ==>
          ClaimOn(next.actions, r) == ClaimOn(db.actions, r))
  }

  lemma RespectedPhaseFits(db: Database, next: Database, phase: Phase, p: Process, r: RunId)
    requires PhaseFits(db, phase, p, r) && Respects(db, next, r)
    ensures PhaseFits(next, phase, p, r)
    ensures Holds(phase) && IsCurrent(next, phase.fence) ==> IsCurrent(db, phase.fence)
  {
  }

  /** Only its settlement takes a claim of the current generation away. */
  lemma StepRespects(db: Database, e: Entry, r: RunId)
    requires forall c :: Settles(e.op, r, c) ==> ClaimOn(db.actions, r) != Some(c)
    ensures Respects(db, Next(db, e), r)
  {
    hide Step;
    StepEvolves(db, e);
    StepRow(db, e, r);
    var c := ClaimOn(db.actions, r);
    if c.Some? && ClaimOn(Next(db, e).actions, r) != c {
      assert Recovers(e.op, r, c.value);
      CommitsUnderLease(db, e);
      Frames(db, e);
    }
  }

  // ----- A turn -----

  function DatabaseAfter(db: Database, phase: Phase, p: Process, r: RunId, turn: Turn, now: Time): Database
  {
    var op := TransactionOf(db, phase, p, r, turn);
    if op.Some? then Next(db, Entry(op.value, now)) else db
  }

  function TurnedPhase(db: Database, phase: Phase, p: Process, r: RunId, turn: Turn, now: Time): Phase
  {
    var op := TransactionOf(db, phase, p, r, turn);
    var ok := op.Some? ==> Commits(db, Entry(op.value, now));
    PhaseAfter(db, DatabaseAfter(db, phase, p, r, turn, now), phase, p, r, turn, ok, now)
  }

  lemma TickAfter(s: System, p: Process, r: RunId, turn: Turn, now: Time)
    ensures var phase, next := PhaseOf(s, p, r), After(s, Tick(p, r, turn, now));
            && next.db == DatabaseAfter(s.db, phase, p, r, turn, now)
            && PhaseOf(next, p, r) == TurnedPhase(s.db, phase, p, r, turn, now)
            && forall q, x :: (q, x) != (p, r) ==> PhaseOf(next, q, x) == PhaseOf(s, q, x)
  {
    hide PhaseAfter, TransactionOf, Next;
  }

  predicate IsSettling(turn: Turn) { turn.Launch? || turn.Settle? || turn.Fail? }

  /** A turn that is not a settlement respects every claim; so does any turn for another Run. */
  lemma TurnRespects(db: Database, phase: Phase, p: Process, r: RunId, turn: Turn, now: Time, x: RunId)
    requires HasFence(phase) ==> phase.fence.runId == r
    requires !IsSettling(turn) || x != r
    ensures Respects(db, DatabaseAfter(db, phase, p, r, turn, now), x)
  {
    hide Next;
    var op := TransactionOf(db, phase, p, r, turn);
    if op.Some? {
      StepRespects(db, Entry(op.value, now), x);
    }
  }

  /** A settlement leaves the leases alone, and the claim too unless it is the settling process's own and current. */
  lemma SettlementEffect(db: Database, phase: Phase, p: Process, r: RunId, turn: Turn, now: Time)
    requires IsSettling(turn) && PhaseFits(db, phase, p, r)
    ensures var next := DatabaseAfter(db, phase, p, r, turn, now);
            && next.leases == db.leases
            && (ClaimOn(next.actions, r) != ClaimOn(db.actions, r) ==>
                  (ClaimOn(db.actions, r).Some? ==> Holds(phase) && IsCurrent(db, phase.fence)))
  {
    hide Step;
    var op := TransactionOf(db, phase, p, r, turn);
    if op.Some? {
      var e := Entry(op.value, now);
      Frames(db, e);
      StepRow(db, e, r);
      if Commits(db, e) {
        CommitsUnderLease(db, e);
      }
    }
  }

  lemma OtherPhaseFits(db: Database, phase: Phase, p: Process, r: RunId, turn: Turn, now: Time, other: Phase,
      q: Process)
    requires PhaseFits(db, phase, p, r) && PhaseFits(db, other, q, r) && !BothHold(db, phase, other)
    ensures var next := DatabaseAfter(db, phase, p, r, turn, now);
            && PhaseFits(next, other, q, r)
            && (Holds(other) && IsCurrent(next, other.fence) ==> IsCurrent(db, other.fence))
  {
    hide DatabaseAfter;
    if IsSettling(turn) {
      SettlementEffect(db, phase, p, r, turn, now);
    } else {
      TurnRespects(db, phase, p, r, turn, now, r);
      RespectedPhaseFits(db, DatabaseAfter(db, phase, p, r, turn, now), other, q, r);
    }
  }

  lemma OwnPhaseFits(db: Database, phase: Phase, p: Process, r: RunId, turn: Turn, now: Time)
    requires PhaseFits(db, phase, p, r)
    ensures var next, turned := DatabaseAfter(db, phase, p, r, turn, now), TurnedPhase(db, phase, p, r, turn, now);
            && PhaseFits(next, turned, p, r)
            && (Holds(turned) && IsCurrent(next, turned.fence) ==>
                  || (Holds(phase) && turned.fence == phase.fence && IsCurrent(db, phase.fence))
                  || (ClaimOn(db.actions, r).None? && next.leases == db.leases))
  {
    hide DatabaseAfter, TurnedPhase;
    if turn.ClaimIt? && phase.Ready? {
      OwnClaimFits(db, phase, p, r, now);
    } else if IsSettling(turn) {
      LaunchKeepsClaim(db, phase, p, r, turn, now);
    } else {
      TurnRespects(db, phase, p, r, turn, now, r);
      RespectedPhaseFits(db, DatabaseAfter(db, phase, p, r, turn, now), phase, p, r);
      OrdinaryTurn(db, phase, p, r, turn, now);
    }
  }

  /** A turn that neither claims nor settles keeps the fence it has, or has just been granted one. */
  lemma OrdinaryTurn(db: Database, phase: Phase, p: Process, r: RunId, turn: Turn, now: Time)
    requires !(turn.ClaimIt? && phase.Ready?) && !IsSettling(turn)
    ensures var next, turned := DatabaseAfter(db, phase, p, r, turn, now), TurnedPhase(db, phase, p, r, turn, now);
            && (Holds(turned) ==> Holds(phase) && turned.fence == phase.fence)
            && (HasFence(turned) ==>
                  || (HasFence(phase) && turned.fence == phase.fence)
                  || (r in next.leases && turned.fence == Fence(r, p.executorId, next.leases[r].generation)))
  {
    hide DatabaseAfter, TransactionOf, Commits;
  }

  lemma LaunchKeepsClaim(db: Database, phase: Phase, p: Process, r: RunId, turn: Turn, now: Time)
    requires IsSettling(turn)
    ensures TurnedPhase(db, phase, p, r, turn, now).Idle?
            || (DatabaseAfter(db, phase, p, r, turn, now) == db
                && (HasFence(TurnedPhase(db, phase, p, r, turn, now)) ==>
                      HasFence(phase) && TurnedPhase(db, phase, p, r, turn, now).fence == phase.fence)
                && (Holds(TurnedPhase(db, phase, p, r, turn, now)) ==> Holds(phase)))
  {
    hide Next, Commits;
  }

  /** A claim takes the offered continuation, and nothing else of it or of the leases. */
  lemma ClaimTakes(db: Database, fence: Fence, now: Time)
    ensures var e := Entry(RunPart(DoClaimContinuation(fence)), now);
            && (Commits(db, e) <==> LeaseHolds(db, fence, now))
            && Next(db, e).leases == db.leases
            && (Commits(db, e) && Claimable(db, fence.runId, now) ==>
                  ClaimOn(db.actions, fence.runId).None?
                  && ClaimOn(Next(db, e).actions, fence.runId) == Some(ClaimIn(fence)))
            && (!Commits(db, e) || !Claimable(db, fence.runId, now) ==> Next(db, e) == db)
  {
    var e := Entry(RunPart(DoClaimContinuation(fence)), now);
    assert Step(db, e) == ClaimContinuation(db, fence, now);
    hide Step, LeaseHolds, GoalIsActive;
  }

  lemma OwnClaimFits(db: Database, phase: Phase, p: Process, r: RunId, now: Time)
    requires PhaseFits(db, phase, p, r) && phase.Ready?
    ensures var next, turned := DatabaseAfter(db, phase, p, r, ClaimIt, now),
        TurnedPhase(db, phase, p, r, ClaimIt, now);
            && PhaseFits(next, turned, p, r)
            && (Holds(turned) ==> ClaimOn(db.actions, r).None? && next.leases == db.leases)
  {
    ClaimTakes(db, phase.fence, now);
    hide Next, Commits, LeaseHolds, Claimable;
  }

  lemma TickFits(s: System, p: Process, r: RunId, turn: Turn, now: Time)
    requires SystemFits(s)
    ensures SystemFits(After(s, Tick(p, r, turn, now)))
  {
    var next := After(s, Tick(p, r, turn, now));
    var phase := PhaseOf(s, p, r);
    TickAfter(s, p, r, turn, now);
    assert PhaseFits(s.db, phase, p, r);
    OwnPhaseFits(s.db, phase, p, r, turn, now);
    hide After, PhaseOf, DatabaseAfter, TurnedPhase;
    forall q, x
      ensures PhaseFits(next.db, PhaseOf(next, q, x), q, x)
      ensures (q, x) != (p, r) && Holds(PhaseOf(next, q, x)) && IsCurrent(next.db, PhaseOf(next, q, x).fence) ==>
                Holds(PhaseOf(s, q, x)) && IsCurrent(s.db, PhaseOf(s, q, x).fence)
    {
      var other := PhaseOf(s, q, x);
      assert PhaseFits(s.db, other, q, x);
      if x != r {
        TurnRespects(s.db, phase, p, r, turn, now, x);
        RespectedPhaseFits(s.db, next.db, other, q, x);
      } else if q != p {
        assert !BothHold(s.db, phase, other);
        OtherPhaseFits(s.db, phase, p, r, turn, now, other, q);
      }
    }
    forall q, q', x | q != q' ensures !BothHold(next.db, PhaseOf(next, q, x), PhaseOf(next, q', x)) {
      assert !BothHold(s.db, PhaseOf(s, q, x), PhaseOf(s, q', x));
      assert PhaseFits(s.db, PhaseOf(s, q, x), q, x) && PhaseFits(s.db, PhaseOf(s, q', x), q', x);
      assert PhaseFits(next.db, PhaseOf(next, q, x), q, x) && PhaseFits(next.db, PhaseOf(next, q', x), q', x);
    }
  }

  lemma ElsewhereFits(s: System, e: Entry)
    requires SystemFits(s) && Allowed(Elsewhere(e))
    ensures SystemFits(After(s, Elsewhere(e)))
  {
    hide Next, PhaseOf, PhaseFits;
    var next := After(s, Elsewhere(e));
    forall q, x ensures PhaseOf(next, q, x) == PhaseOf(s, q, x) { SamePhases(s, next, q, x); }
    forall q, x
      ensures PhaseFits(next.db, PhaseOf(next, q, x), q, x)
      ensures Holds(PhaseOf(next, q, x)) && IsCurrent(next.db, PhaseOf(next, q, x).fence) ==>
                IsCurrent(s.db, PhaseOf(s, q, x).fence)
    {
      assert PhaseFits(s.db, PhaseOf(s, q, x), q, x);
      StepRespects(s.db, e, x);
      RespectedPhaseFits(s.db, next.db, PhaseOf(s, q, x), q, x);
    }
    forall q, q', x | q != q' ensures !BothHold(next.db, PhaseOf(next, q, x), PhaseOf(next, q', x)) {
      assert !BothHold(s.db, PhaseOf(s, q, x), PhaseOf(s, q', x));
    }
  }

  lemma SamePhases(s: System, t: System, q: Process, x: RunId)
    requires s.phases == t.phases
    ensures PhaseOf(s, q, x) == PhaseOf(t, q, x)
  {
  }

  lemma CrashFits(s: System, p: Process)
    requires SystemFits(s)
    ensures SystemFits(After(s, Crash(p)))
  {
    var next := After(s, Crash(p));
    assert forall q, x :: PhaseOf(next, q, x) == if q == p then Idle else PhaseOf(s, q, x);
    hide PhaseOf, After;
    forall q, x ensures PhaseFits(next.db, PhaseOf(next, q, x), q, x) {
      assert PhaseFits(s.db, PhaseOf(s, q, x), q, x);
    }
    forall q, q', x | q != q' ensures !BothHold(next.db, PhaseOf(next, q, x), PhaseOf(next, q', x)) {
      assert !BothHold(s.db, PhaseOf(s, q, x), PhaseOf(s, q', x));
    }
  }

  lemma {:induction false} OperationFits(moves: seq<Move>)
    requires forall m :: m in moves ==> Allowed(m)
    ensures SystemFits(Operate(moves))
    decreases |moves|
  {
    hide After, SystemFits, Allowed;
    if moves == [] {
      NothingFits();
    } else {
      var n := |moves| - 1;
      OperationFits(moves[..n]);
      assert moves[n] in moves;
      match moves[n]
      case Tick(p, r, turn, now) => TickFits(Operate(moves[..n]), p, r, turn, now);
      case Crash(p) => CrashFits(Operate(moves[..n]), p);
      case Elsewhere(e) => ElsewhereFits(Operate(moves[..n]), e);
    }
  }

  lemma NothingFits()
    ensures SystemFits(System(EMPTY_DATABASE, map[]))
  {
  }

  /** Whatever ticks, crashes, restarts and clock readings interleave, at most one process works on a Run's continuation
      with a claim that is not fenced off, even when processes share an executor identity; and its claim is the one in
      the table. */
  lemma OneUnfencedExecution(moves: seq<Move>, p: Process, q: Process, r: RunId)
    requires forall m :: m in moves ==> Allowed(m)
    ensures var s := Operate(moves);
            var a, b := PhaseOf(s, p, r), PhaseOf(s, q, r);
            && (Holds(a) && Holds(b) && !Superseded(s.db, a.fence) && !Superseded(s.db, b.fence) ==> p == q)
            && (Holds(a) && !Superseded(s.db, a.fence) ==> ClaimOn(s.db.actions, r) == Some(ClaimIn(a.fence)))
  {
    hide Operate;
    OperationFits(moves);
    var s := Operate(moves);
    hide PhaseOf;
    assert PhaseFits(s.db, PhaseOf(s, p, r), p, r) && PhaseFits(s.db, PhaseOf(s, q, r), q, r);
  }

  // ----- A restart under the same identity -----

  /** The store's part of a tick that gets as far as asking for the continuation. */
  function TickStore(db: Database, r: RunId, x: ExecutorId, ttl: int, now: Time): Database
  {
    var acquired := Next(db, Entry(RunPart(DoAcquireLease(r, x, ttl)), now));
    var fence := Fence(r, x, if r in acquired.leases then acquired.leases[r].generation else 0);
    var recovered := Next(acquired, Entry(WorkPart(DoRecoverClaimedWork(fence)), now));
    Next(recovered, Entry(RunPart(DoClaimContinuation(fence)), now))
  }

  /** The claim is of the live lease that executor `x` still has. */
  predicate OwnOrphan(db: Database, r: RunId, x: ExecutorId, now: Time)
  {
    && r in db.runs && r in db.leases && db.leases[r].holder == x && now < db.leases[r].expiresAt
    && ClaimOn(db.actions, r) == Some(Claim(x, db.leases[r].generation))
  }

  lemma OwnAcquire(db: Database, r: RunId, x: ExecutorId, ttl: int, now: Time)
    requires OwnOrphan(db, r, x, now)
    ensures var next := Next(db, Entry(RunPart(DoAcquireLease(r, x, ttl)), now));
            && next.actions == db.actions && r in next.runs
            && next.leases == db.leases[r := db.leases[r].(expiresAt := now + ttl)]
  {
    var e := Entry(RunPart(DoAcquireLease(r, x, ttl)), now);
    assert Step(db, e) == AcquireLease(db, r, x, ttl, now);
    hide Step;
  }

  lemma OwnRecover(db: Database, fence: Fence, now: Time)
    requires ClaimOn(db.actions, fence.runId) == Some(ClaimIn(fence)) && fence.runId in db.runs
    ensures var next := Next(db, Entry(WorkPart(DoRecoverClaimedWork(fence)), now));
            next.actions == db.actions && fence.runId in next.runs && next.leases == db.leases
  {
    hide RecoverClaimedWork;
    var e := Entry(WorkPart(DoRecoverClaimedWork(fence)), now);
    assert Step(db, e) == RecoverClaimedWork(db, fence, now);
    RecoversOwn(db, fence, now);
    hide Step;
  }

  lemma RecoversOwn(db: Database, fence: Fence, now: Time)
    requires ClaimOn(db.actions, fence.runId) == Some(ClaimIn(fence)) && fence.runId in db.runs
    ensures var a := RecoverClaimedWork(db, fence, now);
            a.Ok? ==> a.value.actions == db.actions && fence.runId in a.value.runs && a.value.leases == db.leases
  {
    hide MarkUnknown, StrandedCalls, LeaseHolds, OfferAgain, AppendEvent;
    NothingToOffer(db, fence);
  }

  lemma NothingToOffer(db: Database, fence: Fence)
    requires ClaimOn(db.actions, fence.runId) == Some(ClaimIn(fence))
    ensures OfferAgain(db, fence) == db
  {
    assert db.actions[fence.runId := db.actions[fence.runId]] == db.actions;
  }

  lemma OwnClaim(db: Database, fence: Fence, now: Time)
    requires ClaimOn(db.actions, fence.runId).Some?
    ensures Next(db, Entry(RunPart(DoClaimContinuation(fence)), now)) == db
  {
    var e := Entry(RunPart(DoClaimContinuation(fence)), now);
    assert Step(db, e) == ClaimContinuation(db, fence, now);
    hide Step, LeaseHolds;
  }

  lemma OrphanStays(db: Database, r: RunId, x: ExecutorId, ttl: int, now: Time)
    requires OwnOrphan(db, r, x, now)
    ensures var next := TickStore(db, r, x, ttl, now);
            && next.actions == db.actions && r in next.runs && r in next.leases
            && next.leases[r] == db.leases[r].(expiresAt := now + ttl)
  {
    hide Next;
    var acquired := Next(db, Entry(RunPart(DoAcquireLease(r, x, ttl)), now));
    OwnAcquire(db, r, x, ttl, now);
    var fence := Fence(r, x, acquired.leases[r].generation);
    OwnRecover(acquired, fence, now);
    OwnClaim(Next(acquired, Entry(WorkPart(DoRecoverClaimedWork(fence)), now)), fence, now);
  }

  /** Executor `x` took the claim of the current generation, and no process works on it any more. */
  ghost predicate Orphaned(s: System, r: RunId, x: ExecutorId)
  {
    && r in s.db.leases && s.db.leases[r].holder == x
    && ClaimOn(s.db.actions, r) == Some(Claim(x, s.db.leases[r].generation))
    && forall p :: !WorksOn(s, p, r)
  }

  predicate WorksOn(s: System, p: Process, r: RunId)
  {
    Holds(PhaseOf(s, p, r)) && IsCurrent(s.db, PhaseOf(s, p, r).fence)
  }

  predicate SameGeneration(db: Database, next: Database, r: RunId)
  {
    r in db.leases && r in next.leases && next.leases[r].generation == db.leases[r].generation
  }

  /** Whoever asks for the lease of the Run asks before it runs out. */
  predicate InTime(s: System, m: Move, r: RunId)
  {
    m.Tick? && m.runId == r && m.turn.Acquire? && PhaseOf(s, m.process, r).Starting? ==>
      r in s.db.leases && m.now < s.db.leases[r].expiresAt
  }

  /** Only an acquisition after the end of the lease raises a generation. */
  lemma StepInTime(db: Database, e: Entry, r: RunId)
    requires r in db.leases
    requires e.op.RunPart? && e.op.run.DoAcquireLease? && e.op.run.runId == r ==> e.now < db.leases[r].expiresAt
    ensures SameGeneration(db, Next(db, e), r)
  {
    hide AcquireLease, RenewLease, Framed;
    if !TouchesLeases(e.op) {
      hide Next;
      UntouchedLeases(db, e);
    } else if e.op.run.DoAcquireLease? {
      AcquireInTime(db, e.op.run.runId, e.op.run.executor, e.op.run.ttl, e.now, r);
    } else {
      RenewInTime(db, e.op.run.fence, e.op.run.ttl, e.now, r);
    }
  }

  lemma AcquireInTime(db: Database, x: RunId, executor: ExecutorId, ttl: int, now: Time, r: RunId)
    requires r in db.leases && (x == r ==> now < db.leases[r].expiresAt)
    ensures var a := AcquireLease(db, x, executor, ttl, now); a.Ok? ==> SameGeneration(db, a.value, r)
  {
  }

  lemma RenewInTime(db: Database, fence: Fence, ttl: int, now: Time, r: RunId)
    requires r in db.leases
    ensures var a := RenewLease(db, fence, ttl, now); a.Ok? ==> SameGeneration(db, a.value, r)
  {
    hide SameGeneration;
    var a := RenewLease(db, fence, ttl, now);
    if a.Ok? {
      OnlyExpiry(db, a.value, fence.runId, now + ttl, r);
    }
  }

  lemma OnlyExpiry(db: Database, next: Database, x: RunId, expiresAt: Time, r: RunId)
    requires r in db.leases && x in db.leases && next.leases == db.leases[x := db.leases[x].(expiresAt := expiresAt)]
    ensures SameGeneration(db, next, r)
  {
  }

  lemma MoveInTime(s: System, m: Move, r: RunId)
    requires Allowed(m) && InTime(s, m, r) && r in s.db.leases
    ensures SameGeneration(s.db, After(s, m).db, r)
  {
    hide Next;
    match m
    case Elsewhere(e) => StepInTime(s.db, e, r);
    case Crash(_) =>
    case Tick(p, x, turn, now) =>
      var op := TransactionOf(s.db, PhaseOf(s, p, x), p, x, turn);
      if op.Some? {
        StepInTime(s.db, Entry(op.value, now), r);
      }
  }

  lemma OrphanStep(s: System, m: Move, r: RunId, x: ExecutorId)
    requires SystemFits(s) && Allowed(m) && Orphaned(s, r, x) && SameGeneration(s.db, After(s, m).db, r)
    ensures Orphaned(After(s, m), r, x)
  {
    hide After, WorksOn;
    match m
    case Elsewhere(e) => OrphanElsewhere(s, e, r, x);
    case Crash(p) => OrphanCrash(s, p, r, x);
    case Tick(p, y, turn, now) => OrphanTick(s, p, y, turn, now, r, x);
  }

  lemma OrphanElsewhere(s: System, e: Entry, r: RunId, x: ExecutorId)
    requires SystemFits(s) && Allowed(Elsewhere(e)) && Orphaned(s, r, x)
    requires SameGeneration(s.db, After(s, Elsewhere(e)).db, r)
    ensures Orphaned(After(s, Elsewhere(e)), r, x)
  {
    hide Next;
    var next := After(s, Elsewhere(e));
    StepEvolves(s.db, e);
    StepRespects(s.db, e, r);
    hide After;
    StillIdle(s, next, r);
  }

  lemma OrphanCrash(s: System, p: Process, r: RunId, x: ExecutorId)
    requires Orphaned(s, r, x)
    ensures Orphaned(After(s, Crash(p)), r, x)
  {
    var next := After(s, Crash(p));
    assert forall q :: PhaseOf(next, q, r) == if q == p then Idle else PhaseOf(s, q, r);
    hide PhaseOf, After;
    forall q ensures !WorksOn(next, q, r) {
      assert !WorksOn(s, q, r);
    }
  }

  /** While the generation stays, processes whose phase stays still work on nothing. */
  lemma StillIdle(s: System, next: System, r: RunId)
    requires SystemFits(s) && (forall p :: !WorksOn(s, p, r))
    requires SameGeneration(s.db, next.db, r) && s.phases == next.phases
    ensures forall p :: !WorksOn(next, p, r)
  {
    hide SystemFits;
    forall p ensures !WorksOn(next, p, r) {
      SamePhases(s, next, p, r);
      StillIdleOne(s, next, p, r);
    }
  }

  lemma OrphanTick(s: System, p: Process, y: RunId, turn: Turn, now: Time, r: RunId, x: ExecutorId)
    requires SystemFits(s) && Orphaned(s, r, x) && SameGeneration(s.db, After(s, Tick(p, y, turn, now)).db, r)
    ensures Orphaned(After(s, Tick(p, y, turn, now)), r, x)
  {
    var next, phase := After(s, Tick(p, y, turn, now)), PhaseOf(s, p, y);
    TickAfter(s, p, y, turn, now);
    assert PhaseFits(s.db, phase, p, y) && (y == r ==> !WorksOn(s, p, r));
    OrphanTickIdle(s, p, y, turn, now, r);
    hide After, DatabaseAfter, TurnedPhase, PhaseOf, SystemFits;
    TickEvolves(s.db, phase, p, y, turn, now);
    if y == r && IsSettling(turn) {
      SettlementEffect(s.db, phase, p, r, turn, now);
    } else {
      TurnRespects(s.db, phase, p, y, turn, now, r);
    }
  }

  lemma OrphanTickIdle(s: System, p: Process, y: RunId, turn: Turn, now: Time, r: RunId)
    requires SystemFits(s) && ClaimOn(s.db.actions, r).Some? && forall q :: !WorksOn(s, q, r)
    requires SameGeneration(s.db, After(s, Tick(p, y, turn, now)).db, r)
    ensures forall q :: !WorksOn(After(s, Tick(p, y, turn, now)), q, r)
  {
    var next, phase := After(s, Tick(p, y, turn, now)), PhaseOf(s, p, y);
    TickAfter(s, p, y, turn, now);
    assert PhaseFits(s.db, phase, p, y);
    hide After, DatabaseAfter, TurnedPhase, PhaseOf, SystemFits;
    if y == r {
      OwnPhaseFits(s.db, phase, p, r, turn, now);
    }
    forall q ensures !WorksOn(next, q, r) {
      assert !WorksOn(s, q, r);
      if q != p || y != r {
        StillIdleOne(s, next, q, r);
      }
    }
  }

  lemma StillIdleOne(s: System, next: System, q: Process, r: RunId)
    requires SystemFits(s) && !WorksOn(s, q, r) && SameGeneration(s.db, next.db, r)
    requires PhaseOf(next, q, r) == PhaseOf(s, q, r)
    ensures !WorksOn(next, q, r)
  {
    hide PhaseOf;
    assert PhaseFits(s.db, PhaseOf(s, q, r), q, r);
  }

  lemma TickEvolves(db: Database, phase: Phase, p: Process, r: RunId, turn: Turn, now: Time)
    ensures Evolves(db.leases, DatabaseAfter(db, phase, p, r, turn, now).leases)
  {
    hide Next;
    var op := TransactionOf(db, phase, p, r, turn);
    if op.Some? {
      StepEvolves(db, Entry(op.value, now));
    }
  }

  /** A daemon that crashes with a claim leaves it orphaned. Whatever moves follow, by its successor under the same
      identity or by anyone else, as long as every acquisition comes before the lease runs out, so that it renews the
      very generation the orphaned claim belongs to, the claim stays and no process ever works on the continuation. */
  lemma {:induction false} RestartStarves(moves: seq<Move>, more: seq<Move>, r: RunId, x: ExecutorId)
    requires (forall m :: m in moves ==> Allowed(m)) && forall m :: m in more ==> Allowed(m)
    requires Orphaned(Operate(moves), r, x)
    requires forall i :: 0 <= i < |more| ==> InTime(Operate(moves + more[..i]), more[i], r)
    ensures Orphaned(Operate(moves + more), r, x)
    ensures SameGeneration(Operate(moves).db, Operate(moves + more).db, r)
    decreases |more|
  {
    hide Operate, Orphaned, InTime, After, SystemFits, Allowed;
    if more == [] {
      assert moves + more == moves;
      OrphanHasLease(Operate(moves), r, x);
    } else {
      var n := |more| - 1;
      var front := more[..n];
      forall i | 0 <= i < n ensures InTime(Operate(moves + front[..i]), front[i], r) {
        assert front[..i] == more[..i];
      }
      assert forall m :: m in front ==> m in more;
      RestartStarves(moves, front, r, x);
      var s := Operate(moves + front);
      assert more[n] in more && more[..n] == front;
      OperationFits(moves + front);
      OperateSnoc(moves + front, more[n]);
      assert moves + more == moves + front + [more[n]];
      OrphanHasLease(s, r, x);
      MoveInTime(s, more[n], r);
      OrphanStep(s, more[n], r, x);
    }
  }

  lemma OrphanHasLease(s: System, r: RunId, x: ExecutorId)
    requires Orphaned(s, r, x)
    ensures r in s.db.leases && SameGeneration(s.db, s.db, r)
  {
  }

  lemma OperateSnoc(moves: seq<Move>, m: Move)
    ensures Operate(moves + [m]) == After(Operate(moves), m)
  {
    hide After;
    assert (moves + [m])[..|moves|] == moves;
  }
}
