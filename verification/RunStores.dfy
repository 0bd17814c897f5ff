/** The store as an object: a transaction works on a draft of the tables and replaces them when it ends well. */
module RunStores {
  import opened Outcomes
  import opened Tables
  import opened RunOps
  import opened WorkOps
  import opened TaskOps
  import opened Drafts
  import Scopes

  /** The transaction ended as the outcome says, and an error left no trace. */
  predicate Ends(before: Database, outcome: Outcome, after: Database, error: Option<StoreError>)
  {
    match outcome
    case Ok(next) => error.None? && after == next
    case Err(x) => error == Some(x) && after == before
  }

  class RunStore {
    var database: Database

    constructor ()
      ensures database == EMPTY_DATABASE
    {
      database := EMPTY_DATABASE;
    }

    // ----- Leases and continuations -----

    method AcquireLease(runId: RunId, executor: ExecutorId, ttl: int, now: Time) returns (error: Option<StoreError>)
      modifies this
      ensures Ends(old(database), RunOps.AcquireLease(old(database), runId, executor, ttl, now), database, error)
    {
      var draft := database;
      var generation := 1;
      if runId in draft.leases {
        var current := draft.leases[runId];
        if current.holder != executor && current.expiresAt > now {
          return Some(Fenced);
        }
        generation := current.generation + (if current.holder == executor && current.expiresAt > now then 0 else 1);
      }
      if runId !in draft.runs {
        return Some(NotFound);
      }
      draft := draft.(leases := draft.leases[runId := Lease(executor, generation, now + ttl)]);
      draft := draft.(runs := draft.runs[runId := draft.runs[runId].(epoch := draft.runs[runId].epoch + 1)]);
      database := draft;
      return None;
    }

    method RenewLease(lease: Fence, ttl: int, now: Time) returns (error: Option<StoreError>)
      modifies this
      ensures Ends(old(database), RunOps.RenewLease(old(database), lease, ttl, now), database, error)
    {
      if !LeaseHolds(database, lease, now) {
        return Some(Fenced);
      }
      var row := database.leases[lease.runId];
      database := database.(leases := database.leases[lease.runId := row.(expiresAt := now + ttl)]);
      return None;
    }

    method ClaimContinuation(lease: Fence, now: Time) returns (action: Option<Action>, error: Option<StoreError>)
      modifies this
      ensures Ends(old(database), RunOps.ClaimContinuation(old(database), lease, now), database, error)
      ensures action.Some? <==> LeaseHolds(old(database), lease, now) && Claimable(old(database), lease.runId, now)
      ensures action.Some? ==> ClaimedBy(database, lease) && action.value == database.actions[lease.runId]
    {
      if !LeaseHolds(database, lease, now) {
        return None, Some(Fenced);
      }
      var draft := database;
      if lease.runId !in draft.actions || draft.actions[lease.runId].claim.Some?
          || draft.actions[lease.runId].dueAt > now {
        return None, None;
      }
      if lease.runId !in draft.runs || draft.runs[lease.runId].status != Running || !GoalIsActive(draft, lease.runId) {
        return None, None;
      }
      var row := draft.actions[lease.runId];
      row := row.(claim := Some(Claim(lease.executorId, lease.generation)), attempt := row.attempt + 1);
      draft := draft.(actions := draft.actions[lease.runId := row]);
      var goal := draft.runs[lease.runId].currentGoal;
      var counted := draft.goals[goal].(continuations := draft.goals[goal].continuations + 1);
      draft := draft.(goals := draft.goals[goal := counted]);
      database := draft;
      return Some(row), None;
    }

    method SettleContinuation(lease: Fence, requeue: bool, now: Time) returns (error: Option<StoreError>)
      modifies this
      ensures Ends(old(database), RunOps.SettleContinuation(old(database), lease, requeue, now), database, error)
    {
      hide EnsureContinuation;
      if !LeaseHolds(database, lease, now) {
        return Some(Fenced);
      }
      var draft := database;
      if ClaimedBy(draft, lease) {
        draft := draft.(actions := draft.actions - {lease.runId});
      }
      if requeue {
        draft := EnsureContinuation(draft, lease.runId, now);
      }
      database := draft;
      return None;
    }

    /** Every call of an older generation is marked in turn; one event reports them. */
    method RecoverClaimedWork(lease: Fence, now: Time) returns (calls: set<ToolCallId>, error: Option<StoreError>)
      modifies this
      ensures Ends(old(database), WorkOps.RecoverClaimedWork(old(database), lease, now), database, error)
      ensures error.None? ==> calls == StrandedCalls(old(database), lease)
    {
      calls := {};
      if !LeaseHolds(database, lease, now) {
        return calls, Some(Fenced);
      }
      var draft := OfferAgain(database, lease);
      calls := StrandedCalls(database, lease);
      var left := calls;
      assert draft.toolCalls == MarkUnknown(database.toolCalls, calls - left);
      hide OfferAgain, StrandedCalls, AppendEvent, LeaseHolds;
      while left != {}
        invariant left <= calls
        invariant draft == OfferAgain(database, lease).(toolCalls := MarkUnknown(database.toolCalls, calls - left))
      {
        var id :| id in left;
        left := left - {id};
        if id in draft.toolCalls {
          draft := draft.(toolCalls := draft.toolCalls[id := draft.toolCalls[id].(status := CallUnknown)]);
        }
        assert draft.toolCalls == MarkUnknown(database.toolCalls, calls - left);
      }
      assert calls - left == calls;
      if calls != {} {
        if lease.runId !in draft.runs {
          return calls, Some(NotFound);
        }
        draft := AppendEvent(draft, lease.runId, RecoveryRequired, Some(lease.generation));
      }
      database := draft;
      return calls, None;
    }

    // ----- Tasks and agents -----

    /** `refreshTaskReadinessInternal`, on a draft. */
    static method RefreshReadiness(start: Database, runId: RunId) returns (draft: Database)
      requires runId in start.runs
      ensures draft == Refresh(start, runId)
    {
      hide PromotedSoFar, DependenciesDone, AppendEvent, Promoted, Candidates;
      var left := Candidates(start.tasks, runId);
      ghost var ids, done := Promoted(start.tasks, runId), {};
      PromotedAmongCandidates(start.tasks, runId);
      LoopsBegin(start, Fence(runId, "", 0));
      draft := start;
      while left != {}
        invariant left <= start.tasks.Keys && done <= ids <= done + left && done !! left
        invariant forall id :: id in left ==> (id in ids <==> DependenciesDone(start.tasks, start.tasks[id]))
        invariant PromotedSoFar(start, runId, done, draft)
      {
        var id :| id in left;
        left := left - {id};
        PromoteRow(start, runId, done, id, draft);
        if DependenciesDone(draft.tasks, draft.tasks[id]) {
          draft := draft.(tasks := draft.tasks[id := draft.tasks[id].(status := TaskReady)]);
          draft := AppendEvent(draft, runId, TaskStatusChanged, None);
          done := done + {id};
        }
      }
      assert done == ids;
      RefreshEnds(start, runId, draft);
    }

    method CreateTask(id: TaskId, runId: RunId, dependencies: seq<TaskId>, lease: Option<Fence>, now: Time)
      returns (error: Option<StoreError>)
      modifies this
      ensures Ends(old(database), TaskOps.CreateTask(old(database), id, runId, dependencies, lease, now), database,
          error)
    {
      hide Refresh, MayWrite;
      if !MayWrite(database, lease, runId, now) {
        return Some(Fenced);
      }
      if id in database.tasks || !NoRepeats(dependencies) {
        return Some(Duplicate);
      }
      if runId !in database.runs || exists d :: d in dependencies && d !in database.tasks {
        return Some(NotFound);
      }
      var draft := RefreshReadiness(WithTask(database, id, NewTask(runId, dependencies)), runId);
      database := draft;
      return None;
    }

    method ClaimTask(lease: Fence, id: TaskId, agent: AgentId, now: Time) returns (error: Option<StoreError>)
      modifies this
      ensures Ends(old(database), TaskOps.ClaimTask(old(database), lease, id, agent, now), database, error)
    {
      hide LeaseHolds, AppendEvent, CanMoveTask;
      if !LeaseHolds(database, lease, now) {
        return Some(Fenced);
      }
      var draft := database;
      if id !in draft.tasks {
        return Some(NotFound);
      }
      var task := draft.tasks[id];
      if task.runId != lease.runId {
        return Some(WrongRun);
      }
      if agent !in draft.agents || lease.runId !in draft.runs {
        return Some(NotFound);
      }
      if draft.agents[agent].runId != task.runId {
        return Some(WrongRun);
      }
      if !CanMoveTask(task.status, TaskRunning) {
        return Some(InvalidTransition);
      }
      if task.status == TaskReady && task.owner.None? {
        task := task.(status := TaskRunning, owner := Some(agent), generation := Some(lease.generation));
        draft := draft.(tasks := draft.tasks[id := task]);
      }
      if task.owner != Some(agent) {
        return Some(ClaimLost);
      }
      assert draft.tasks == database.tasks[id := task];
      draft := AppendEvent(draft, lease.runId, TaskAssigned, Some(lease.generation));
      draft := AppendEvent(draft, lease.runId, TaskStatusChanged, Some(lease.generation));
      database := draft;
      return None;
    }

    method TransitionTask(id: TaskId, to: TaskStatus, lease: Option<Fence>, now: Time)
        returns (error: Option<StoreError>)
      modifies this
      ensures Ends(old(database), TaskOps.TransitionTask(old(database), id, to, lease, now), database, error)
    {
      hide LeaseHolds, AppendEvent, CanMoveTask, Refresh;
      if lease.Some? && !LeaseHolds(database, lease.value, now) {
        return Some(Fenced);
      }
      if id !in database.tasks {
        return Some(NotFound);
      }
      var task := database.tasks[id];
      if lease.Some? && task.runId != lease.value.runId {
        return Some(WrongRun);
      }
      if !CanMoveTask(task.status, to) {
        return Some(InvalidTransition);
      }
      if task.runId !in database.runs {
        return Some(NotFound);
      }
      var draft := WithTask(database, id, Moved(task, to, lease));
      draft := AppendEvent(draft, task.runId, TaskStatusChanged,
                           if lease.Some? then Some(lease.value.generation) else None);
      draft := RefreshReadiness(draft, task.runId);
      database := draft;
      return None;
    }

    /** Each stranded task is failed, then offered again; each stranded agent passes through recovering, which a
        stranded agent already in recovering cannot. */
    method RecoverGraphWork(lease: Fence, now: Time)
      returns (tasks: set<TaskId>, agents: set<AgentId>, error: Option<StoreError>)
      modifies this
      ensures Ends(old(database), TaskOps.RecoverGraphWork(old(database), lease, now), database, error)
      ensures error.None? ==>
          tasks == StrandedTasks(old(database), lease) && agents == StrandedAgents(old(database), lease)
    {
      tasks, agents := StrandedTasks(database, lease), StrandedAgents(database, lease);
      if !LeaseHolds(database, lease, now) {
        return tasks, agents, Some(Fenced);
      }
      if tasks == {} && agents == {} {
        return tasks, agents, None;
      }
      if lease.runId !in database.runs {
        return tasks, agents, Some(NotFound);
      }
      hide LeaseHolds;
      var failed, recovered := RecoverRows(database, lease, tasks, agents);
      if failed {
        return tasks, agents, Some(InvalidTransition);
      }
      database := recovered;
      return tasks, agents, None;
    }

    static method RecoverTaskRows(start: Database, lease: Fence, tasks: set<TaskId>) returns (draft: Database)
      requires lease.runId in start.runs && tasks <= start.tasks.Keys
      ensures RecoveredSoFar(start, lease, tasks, draft)
    {
      hide RecoveredSoFar, AppendEvent;
      LoopsBegin(start, lease);
      draft := start;
      var left := tasks;
      assert tasks - left == {};
      while left != {}
        invariant left <= tasks
        invariant RecoveredSoFar(start, lease, tasks - left, draft)
      {
        var id :| id in left;
        RecoverRow(start, lease, tasks - left, id, draft);
        assert tasks - left + {id} == tasks - (left - {id});
        left := left - {id};
        var task := draft.tasks[id];
        task := task.(status := TaskFailed, owner := None, generation := Some(lease.generation),
            attempt := task.attempt + 1);
        task := task.(status := TaskReady);
        draft := AppendEvent(draft.(tasks := draft.tasks[id := task]), lease.runId, TaskRecovered,
            Some(lease.generation));
      }
      assert tasks - left == tasks;
    }

    static method RecoverAgentRows(start: Database, lease: Fence, agents: set<AgentId>)
        returns (failed: bool, draft: Database)
      requires lease.runId in start.runs && agents <= start.agents.Keys
      requires forall a :: a in agents ==>
          start.agents[a].status == AgentRunning || start.agents[a].status == AgentRecovering
      ensures failed <==> exists a :: a in agents && start.agents[a].status == AgentRecovering
      ensures !failed ==> RequeuedSoFar(start, lease, agents, draft)
    {
      hide RequeuedSoFar, PassedThrough;
      LoopsBegin(start, lease);
      draft := start;
      var left := agents;
      assert agents - left == {};
      while left != {}
        invariant left <= agents
        invariant forall a :: a in agents - left ==> start.agents[a].status != AgentRecovering
        invariant RequeuedSoFar(start, lease, agents - left, draft)
      {
        var id :| id in left;
        RequeueRow(start, lease, agents - left, id, draft);
        assert agents - left + {id} == agents - (left - {id});
        left := left - {id};
        if !CanMoveAgent(draft.agents[id].status, AgentRecovering) {
          return true, start;
        }
        draft := PassedThrough(draft, lease, id);
      }
      assert agents - left == agents;
      return false, draft;
    }

    static method RecoverRows(start: Database, lease: Fence, tasks: set<TaskId>, agents: set<AgentId>)
      returns (failed: bool, draft: Database)
      requires lease.runId in start.runs
      requires tasks == StrandedTasks(start, lease) && agents == StrandedAgents(start, lease)
      ensures failed <==> exists a :: a in agents && start.agents[a].status == AgentRecovering
      ensures !failed ==>
                draft == AppendEvents(AppendEvents(Recovered(start, lease), lease.runId, TaskRecovered,
                                                   Some(lease.generation), |tasks|),
                                      lease.runId, AgentStatusChanged, None, 2 * |agents|)
    {
      hide AppendEvents, RecoverTasks, RequeueAgents, RecoveredSoFar, RequeuedSoFar;
      draft := RecoverTaskRows(start, lease, tasks);
      RecoverEnds(start, lease, tasks, draft);
      var recovered := RecoverTasks(start.tasks, tasks, lease);
      AppendsBeside(start, recovered, start.agents, lease.runId, TaskRecovered, Some(lease.generation), |tasks|);
      AppendsBeside(start, recovered, RequeueAgents(start.agents, agents, lease), lease.runId, TaskRecovered,
                    Some(lease.generation), |tasks|);
      var halfway := draft;
      failed, draft := RecoverAgentRows(halfway, lease, agents);
      if !failed {
        RequeueEnds(halfway, lease, agents, draft);
      }
    }

    // ----- Locks -----

    method AcquireResourceLocks(executor: ExecutorId, runId: RunId, scopes: seq<Scope>, ttl: int, lease: Option<Fence>,
                                now: Time)
      returns (error: Option<StoreError>)
      modifies this
      ensures Ends(old(database), AcquireLocks(old(database), executor, runId, scopes, ttl, lease, now), database,
          error)
    {
      hide MayWrite, Scopes.Conflict;
      if !MayWrite(database, lease, runId, now) {
        return Some(Fenced);
      }
      if runId !in database.runs && scopes != [] {
        return Some(NotFound);
      }
      var generation := if lease.Some? then lease.value.generation else 0;
      var existing := Keep(database.locks, l => Survives(l, runId, lease, now));
      for i := 0 to |scopes|
        invariant !Obstructed(existing, scopes[..i], executor, runId, generation)
      {
        for j := 0 to |existing|
          invariant forall k :: 0 <= k < j && !OwnedBy(existing[k], executor, runId, generation) ==>
                      !Scopes.Conflict(scopes[i], existing[k].scope)
        {
          if OwnedBy(existing[j], executor, runId, generation) { continue; }
          if Scopes.Conflict(scopes[i], existing[j].scope) {
            return Some(LockConflict);
          }
        }
      }
      var locks := existing;
      for i := 0 to |scopes|
        invariant locks == existing + NewLocks(executor, runId, generation, scopes[..i], now + ttl)
      {
        locks := locks + [Lock(runId, executor, generation, scopes[i], now + ttl)];
      }
      assert scopes[..|scopes|] == scopes;
      database := database.(locks := locks);
      return None;
    }

    method ReleaseResourceLocks(executor: ExecutorId, runId: RunId, generation: nat)
      modifies this
      ensures Ends(old(database), ReleaseLocks(old(database), executor, runId, generation), database, None)
    {
      database := database.(locks := Keep(database.locks, l => !OwnedBy(l, executor, runId, generation)));
    }

    // ----- Usage, approvals, tool calls -----

    method RecordUsageFenced(lease: Fence, delta: Usage, entry: Option<EntryKey>, now: Time)
      returns (error: Option<StoreError>)
      modifies this
      ensures Ends(old(database), WorkOps.RecordUsageFenced(old(database), lease, delta, entry, now), database, error)
    {
      hide LeaseHolds, HasEntry, Charge;
      if !LeaseHolds(database, lease, now) {
        return Some(Fenced);
      }
      var draft := database;
      if entry.Some? {
        if HasEntry(draft, lease.runId, entry.value.key) {
          return if lease.runId in draft.runs then None else Some(NotFound);
        }
        var row := UsageEntry(lease.runId, entry.value.key, entry.value.agent, delta);
        draft := draft.(usageEntries := draft.usageEntries + [row]);
      }
      match Charge(draft, lease.runId, delta)
      case Err(x) => return Some(x);
      case Ok(charged) =>
        database := charged;
        return None;
    }

    method ResolveApproval(id: ApprovalId, to: ApprovalStatus, now: Time) returns (error: Option<StoreError>)
      requires to == Approved || to == Rejected || to == Expired
      modifies this
      ensures Ends(old(database), WorkOps.ResolveApproval(old(database), id, to, now), database, error)
    {
      hide AwaitsApproval, AppendEvent, MoveAndContinue;
      var draft := database;
      if id !in draft.approvals {
        return Some(NotFound);
      }
      var approval := draft.approvals[id];
      if approval.status != ApprovalPending {
        return Some(AlreadyResolved);
      }
      if approval.runId !in draft.runs {
        return Some(NotFound);
      }
      var status := draft.runs[approval.runId].status;
      draft := draft.(approvals := draft.approvals[id := approval.(status := to)]);
      draft := AppendEvent(draft, approval.runId, ApprovalResolved, None);
      if !AwaitsApproval(draft, approval.runId) && status == WaitingExternal {
        match MoveAndContinue(draft, approval.runId, Running, now) {
          case Err(x) => return Some(x);
          case Ok(moved) => draft := moved;
        }
      }
      database := draft;
      return None;
    }

    /** The charge commits with the refusal; only then is the caller told that it may not begin. */
    method RecordToolIntent(lease: Fence, id: ToolCallId, approval: Option<ApprovalId>, now: Time)
      returns (begun: bool, error: Option<StoreError>)
      modifies this
      ensures Ends(old(database), WorkOps.RecordToolIntent(old(database), lease, id, approval, now), database, error)
      ensures id !in old(database).toolCalls ==> begun == IntentAccepted(old(database), lease, id, approval, now)
      ensures begun ==>
          id in database.toolCalls && database.toolCalls[id] == ToolCall(lease.runId, CallRunning, lease.generation)
    {
      hide LeaseHolds, Charge, Consume, AppendEvent, Authorizes, OutOfBudget;
      if !LeaseHolds(database, lease, now) {
        return false, Some(Fenced);
      }
      var charged := Charge(database, lease.runId, Calls(1));
      if charged.Err? {
        return false, Some(charged.error);
      }
      var draft := charged.value;
      if OutOfBudget(draft, lease.runId) {
        database := draft;
        return false, None;
      }
      if approval.Some? {
        if approval.value !in draft.approvals {
          return false, Some(NotFound);
        }
        if !Authorizes(draft, approval.value, lease.runId) {
          return false, Some(NotAuthorized);
        }
      }
      if id in draft.toolCalls {
        return false, Some(Duplicate);
      }
      if approval.Some? {
        draft := Consume(draft, approval.value, lease);
      }
      draft := draft.(toolCalls := draft.toolCalls[id := ToolCall(lease.runId, CallRunning, lease.generation)]);
      draft := AppendEvent(draft, lease.runId, ToolCallStarted, Some(lease.generation));
      database := draft;
      return true, None;
    }

    method CompleteToolCall(lease: Fence, id: ToolCallId, success: bool, now: Time) returns (error: Option<StoreError>)
      modifies this
      ensures Ends(old(database), WorkOps.CompleteToolCall(old(database), lease, id, success, now), database, error)
    {
      hide LeaseHolds, AppendEvent;
      if !LeaseHolds(database, lease, now) {
        return Some(Fenced);
      }
      if lease.runId !in database.runs {
        return Some(NotFound);
      }
      var draft := database;
      if id in draft.toolCalls && draft.toolCalls[id].runId == lease.runId
         && draft.toolCalls[id].generation == lease.generation {
        var status := if success then CallSucceeded else CallFailed;
        draft := draft.(toolCalls := draft.toolCalls[id := draft.toolCalls[id].(status := status)]);
      }
      assert draft == database.(toolCalls := WithResult(database.toolCalls, lease, id, success));
      draft := AppendEvent(draft, lease.runId, ToolCallFinished, Some(lease.generation));
      database := draft;
      return None;
    }

    // ----- Commands, wakes, completion -----

    method ExecuteCommand(runId: RunId, commandId: string, command: Command, now: Time)
        returns (error: Option<StoreError>)
      modifies this
      ensures Ends(old(database), RunOps.ExecuteCommand(old(database), runId, commandId, command, now), database, error)
    {
      hide MoveAndContinue;
      if AlreadyExecuted(database, runId, commandId) {
        return None;
      }
      if runId !in database.runs {
        return Some(NotFound);
      }
      var draft, run := database, database.runs[runId];
      var target := CommandTarget(command, run.status);
      if target.Some? {
        match MoveAndContinue(draft, runId, target.value, now) {
          case Err(x) => return Some(x);
          case Ok(moved) => draft := moved;
        }
      }
      if commandId in database.receipts {
        return Some(Duplicate);
      }
      draft := draft.(receipts := draft.receipts[commandId := Receipt(runId, draft.runs[runId])]);
      database := draft;
      return None;
    }

    method WakeDueRuns(now: Time) returns (error: Option<StoreError>)
      modifies this
      ensures Ends(old(database), WakeDueFrom(old(database), 0, now), database, error)
    {
      hide WakeOne;
      var draft, n := database, |database.wakes|;
      for i := 0 to n
        invariant |draft.wakes| == n
        invariant WakeDueFrom(draft, i, now) == WakeDueFrom(database, 0, now)
      {
        if Due(draft.wakes[i], now) {
          match WakeOne(draft, i, now) {
            case Err(x) => return Some(x);
            case Ok(next) => draft := next;
          }
        }
      }
      database := draft;
      return None;
    }

    method ProposeCompletion(runId: RunId, accepted: bool, verified: bool, lease: Option<Fence>, now: Time)
      returns (completed: bool, error: Option<StoreError>)
      modifies this
      ensures Ends(old(database), WorkOps.ProposeCompletion(old(database), runId, accepted, verified, lease, now),
          database, error)
      ensures completed <==> error.None? && accepted && verified && Completable(old(database), runId)
    {
      hide MayWrite, AppendEvent, MoveRun;
      if !MayWrite(database, lease, runId, now) {
        return false, Some(Fenced);
      }
      if runId !in database.runs {
        return false, Some(NotFound);
      }
      var unproven := exists id :: id in database.requirements && database.requirements[id].runId == runId
                                   && RemainsUnproven(database.requirements[id]);
      var failed, independent := false, false;
      for i := 0 to |database.validations|
        invariant failed <==> exists k :: 0 <= k < i && database.validations[k].runId == runId
                                          && !database.validations[k].passed
        invariant independent <==> exists k :: 0 <= k < i && database.validations[k].runId == runId
                                               && database.validations[k].passed && database.validations[k].independent
      {
        if database.validations[i].runId == runId {
          if !database.validations[i].passed {
            failed := true;
          } else if database.validations[i].independent {
            independent := true;
          }
        }
      }
      assert Completable(database, runId) <==> !unproven && !failed && independent;
      hide Completable;
      var draft := AppendEvent(database, runId, ValidationFinished, None);
      if accepted && verified && !unproven && !failed && independent {
        match MoveRun(draft, runId, Completed) {
          case Err(x) => return false, Some(x);
          case Ok(moved) =>
            database := moved;
            return true, None;
        }
      }
      database := draft;
      return false, None;
    }
  }
}
