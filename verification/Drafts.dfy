/** The loops of the store's transactions: a draft of the tables after some of the rows have been written. */
module Drafts {
  import opened Outcomes
  import opened Tables
  import opened TaskOps

  lemma AppendBeside(db: Database, tasks: map<TaskId, Task>, agents: map<AgentId, Agent>, runId: RunId, kind: EventKind,
                     generation: Option<nat>)
    requires runId in db.runs
    ensures AppendEvent(db.(tasks := tasks, agents := agents), runId, kind, generation)
            == AppendEvent(db, runId, kind, generation).(tasks := tasks, agents := agents)
  {
  }

  lemma AppendsStep(db: Database, runId: RunId, kind: EventKind, generation: Option<nat>, count: nat)
    requires runId in db.runs
    ensures AppendEvents(db, runId, kind, generation, 0) == db
    ensures AppendEvents(db, runId, kind, generation, count + 1)
            == AppendEvent(AppendEvents(db, runId, kind, generation, count), runId, kind, generation)
  {
  }

  lemma {:induction false} AppendsBeside(db: Database, tasks: map<TaskId, Task>, agents: map<AgentId, Agent>,
      runId: RunId, kind: EventKind, generation: Option<nat>, count: nat)
    requires runId in db.runs
    ensures AppendEvents(db.(tasks := tasks, agents := agents), runId, kind, generation, count)
            == AppendEvents(db, runId, kind, generation, count).(tasks := tasks, agents := agents)
  {
    hide AppendEvent, AppendEvents;
    var n := if count == 0 then 0 else count - 1;
    AppendsStep(db, runId, kind, generation, n);
    AppendsStep(db.(tasks := tasks, agents := agents), runId, kind, generation, n);
    if count > 0 {
      AppendsBeside(db, tasks, agents, runId, kind, generation, n);
      AppendBeside(AppendEvents(db, runId, kind, generation, n), tasks, agents, runId, kind, generation);
    }
  }

  /** While the rows are worked through, readiness is still decided by the tasks the refresh began with. */
  lemma PromotionReadsStart(tasks: map<TaskId, Task>, done: set<TaskId>, runId: RunId, id: TaskId)
    requires done <= Promoted(tasks, runId) && id in tasks && id !in done
    ensures var now := MakeReady(tasks, done);
            now[id] == tasks[id] && (DependenciesDone(now, tasks[id]) <==> DependenciesDone(tasks, tasks[id]))
  {
    var now := MakeReady(tasks, done);
    assert forall d :: d in tasks ==> (now[d].status == TaskCompleted <==> tasks[d].status == TaskCompleted);
  }

  /** The draft of a loop that has rewritten these tables and appended `count` events. */
  predicate HasWritten(start: Database, tasks: map<TaskId, Task>, agents: map<AgentId, Agent>, runId: RunId,
                       kind: EventKind, generation: Option<nat>, count: nat, draft: Database)
    requires runId in start.runs
  {
    && runId in draft.runs && draft.tasks == tasks && draft.agents == agents
    && draft == AppendEvents(start, runId, kind, generation, count).(tasks := tasks, agents := agents)
  }

  lemma WritingBegins(start: Database, runId: RunId, kind: EventKind, generation: Option<nat>)
    requires runId in start.runs
    ensures HasWritten(start, start.tasks, start.agents, runId, kind, generation, 0, start)
  {
  }

  lemma WritingEnds(start: Database, tasks: map<TaskId, Task>, agents: map<AgentId, Agent>, runId: RunId,
                    kind: EventKind, generation: Option<nat>, count: nat, draft: Database)
    requires runId in start.runs && HasWritten(start, tasks, agents, runId, kind, generation, count, draft)
    ensures draft == AppendEvents(start.(tasks := tasks, agents := agents), runId, kind, generation, count)
    ensures draft.tasks == tasks && draft.agents == agents && runId in draft.runs
  {
    AppendsBeside(start, tasks, agents, runId, kind, generation, count);
    hide AppendEvents;
  }

  lemma WritingGoesOn(start: Database, tasks: map<TaskId, Task>, agents: map<AgentId, Agent>, runId: RunId,
                      kind: EventKind, generation: Option<nat>, count: nat, draft: Database,
                      moreTasks: map<TaskId, Task>, moreAgents: map<AgentId, Agent>)
    requires runId in start.runs && HasWritten(start, tasks, agents, runId, kind, generation, count, draft)
    ensures HasWritten(start, moreTasks, moreAgents, runId, kind, generation, count + 1,
                       AppendEvent(draft.(tasks := moreTasks, agents := moreAgents), runId, kind, generation))
  {
    hide AppendEvents, AppendEvent;
    AppendsStep(start, runId, kind, generation, count);
    AppendBeside(AppendEvents(start, runId, kind, generation, count), moreTasks, moreAgents, runId, kind, generation);
  }

  lemma ReadyOneMore(tasks: map<TaskId, Task>, done: set<TaskId>, id: TaskId)
    requires id in tasks && id !in done
    ensures MakeReady(tasks, {}) == tasks && id in MakeReady(tasks, done)
    ensures var now := MakeReady(tasks, done);
            now[id := now[id].(status := TaskReady)] == MakeReady(tasks, done + {id}) && |done + {id}| == |done| + 1
  {
  }

  lemma RecoverOneMore(tasks: map<TaskId, Task>, done: set<TaskId>, id: TaskId, lease: Fence)
    requires id in tasks && id !in done
    ensures var now := RecoverTasks(tasks, done, lease);
            now[id := RecoveredTask(tasks[id], lease)] == RecoverTasks(tasks, done + {id}, lease)
            && |done + {id}| == |done| + 1 && id in now && now[id] == tasks[id]
  {
  }

  lemma RequeueOneMore(agents: map<AgentId, Agent>, done: set<AgentId>, id: AgentId, lease: Fence)
    requires id in agents && id !in done
    ensures var now := RequeueAgents(agents, done, lease);
            now[id := agents[id].(status := AgentQueued, generation := Some(lease.generation))]
            == RequeueAgents(agents, done + {id}, lease)
            && |done + {id}| == |done| + 1 && id in now && now[id] == agents[id]
  {
  }

  lemma RefreshEnds(start: Database, runId: RunId, draft: Database)
    requires runId in start.runs && PromotedSoFar(start, runId, Promoted(start.tasks, runId), draft)
    ensures draft == Refresh(start, runId)
  {
    hide HasWritten, Promoted, MakeReady, AppendEvents;
    var ids := Promoted(start.tasks, runId);
    WritingEnds(start, MakeReady(start.tasks, ids), start.agents, runId, TaskStatusChanged, None, |ids|, draft);
  }

  lemma RecoverEnds(start: Database, lease: Fence, done: set<TaskId>, draft: Database)
    requires lease.runId in start.runs && RecoveredSoFar(start, lease, done, draft)
    ensures draft == AppendEvents(start.(tasks := RecoverTasks(start.tasks, done, lease)), lease.runId, TaskRecovered,
                                  Some(lease.generation), |done|)
  {
    hide HasWritten, RecoverTasks, AppendEvents;
    WritingEnds(start, RecoverTasks(start.tasks, done, lease), start.agents, lease.runId, TaskRecovered,
                Some(lease.generation), |done|, draft);
  }

  lemma RequeueEnds(start: Database, lease: Fence, done: set<AgentId>, draft: Database)
    requires lease.runId in start.runs && RequeuedSoFar(start, lease, done, draft)
    ensures draft == AppendEvents(start.(agents := RequeueAgents(start.agents, done, lease)), lease.runId,
                                  AgentStatusChanged, None, 2 * |done|)
  {
    hide HasWritten, RequeueAgents, AppendEvents;
    WritingEnds(start, start.tasks, RequeueAgents(start.agents, done, lease), lease.runId, AgentStatusChanged, None,
                2 * |done|, draft);
  }

  lemma LoopsBegin(start: Database, lease: Fence)
    requires lease.runId in start.runs
    ensures PromotedSoFar(start, lease.runId, {}, start)
    ensures RecoveredSoFar(start, lease, {}, start) && RequeuedSoFar(start, lease, {}, start)
  {
    hide HasWritten, AppendEvents;
    NoneDone(start, lease);
    WritingBegins(start, lease.runId, TaskStatusChanged, None);
    WritingBegins(start, lease.runId, TaskRecovered, Some(lease.generation));
    WritingBegins(start, lease.runId, AgentStatusChanged, None);
  }

  /** The rows a refresh looks at. */
  function Candidates(tasks: map<TaskId, Task>, runId: RunId): set<TaskId>
  {
    set id | id in tasks && tasks[id].runId == runId
             && (tasks[id].status == TaskPending
                 || (tasks[id].status == TaskFailed && tasks[id].attempt < MAX_TASK_ATTEMPTS))
  }

  lemma PromotedAmongCandidates(tasks: map<TaskId, Task>, runId: RunId)
    ensures Promoted(tasks, runId) <= Candidates(tasks, runId) <= tasks.Keys
    ensures forall id :: id in Candidates(tasks, runId) ==>
              (id in Promoted(tasks, runId) <==> DependenciesDone(tasks, tasks[id]))
  {
    hide DependenciesDone;
  }

  // One row of each loop: the draft with the row written and its events appended is the draft of one more row.

  predicate PromotedSoFar(start: Database, runId: RunId, done: set<TaskId>, draft: Database)
    requires runId in start.runs
  {
    HasWritten(start, MakeReady(start.tasks, done), start.agents, runId, TaskStatusChanged, None, |done|, draft)
  }

  lemma PromoteRow(start: Database, runId: RunId, done: set<TaskId>, id: TaskId, draft: Database)
    requires runId in start.runs && PromotedSoFar(start, runId, done, draft)
    requires done <= Promoted(start.tasks, runId) && id in start.tasks && id !in done
    ensures runId in draft.runs && id in draft.tasks
    ensures DependenciesDone(draft.tasks, draft.tasks[id]) <==> DependenciesDone(start.tasks, start.tasks[id])
    ensures var written := draft.(tasks := draft.tasks[id := draft.tasks[id].(status := TaskReady)]);
            PromotedSoFar(start, runId, done + {id}, AppendEvent(written, runId, TaskStatusChanged, None))
  {
    hide HasWritten, DependenciesDone, MakeReady, AppendEvent;
    var now := MakeReady(start.tasks, done);
    WritingEnds(start, now, start.agents, runId, TaskStatusChanged, None, |done|, draft);
    PromotionReadsStart(start.tasks, done, runId, id);
    ReadyOneMore(start.tasks, done, id);
    WritingGoesOn(start, now, start.agents, runId, TaskStatusChanged, None, |done|, draft,
                  MakeReady(start.tasks, done + {id}), start.agents);
  }

  predicate RecoveredSoFar(start: Database, lease: Fence, done: set<TaskId>, draft: Database)
    requires lease.runId in start.runs
  {
    HasWritten(start, RecoverTasks(start.tasks, done, lease), start.agents, lease.runId, TaskRecovered,
               Some(lease.generation), |done|, draft)
  }

  lemma RecoverRow(start: Database, lease: Fence, done: set<TaskId>, id: TaskId, draft: Database)
    requires lease.runId in start.runs && RecoveredSoFar(start, lease, done, draft) && id in start.tasks && id !in done
    ensures lease.runId in draft.runs && id in draft.tasks
    ensures var written := draft.(tasks := draft.tasks[id := RecoveredTask(draft.tasks[id], lease)]);
            RecoveredSoFar(start, lease, done + {id},
                           AppendEvent(written, lease.runId, TaskRecovered, Some(lease.generation)))
  {
    hide HasWritten, RecoverTasks, AppendEvent, RecoveredTask;
    var now := RecoverTasks(start.tasks, done, lease);
    WritingEnds(start, now, start.agents, lease.runId, TaskRecovered, Some(lease.generation), |done|, draft);
    RecoverOneMore(start.tasks, done, id, lease);
    WritingGoesOn(start, now, start.agents, lease.runId, TaskRecovered, Some(lease.generation), |done|, draft,
                  RecoverTasks(start.tasks, done + {id}, lease), start.agents);
  }

  predicate RequeuedSoFar(start: Database, lease: Fence, done: set<AgentId>, draft: Database)
    requires lease.runId in start.runs
  {
    HasWritten(start, start.tasks, RequeueAgents(start.agents, done, lease), lease.runId, AgentStatusChanged, None,
               2 * |done|, draft)
  }

  /** An agent's row is written twice: into recovering, and on into queued. */
  function PassedThrough(draft: Database, lease: Fence, id: AgentId): Database
    requires lease.runId in draft.runs && id in draft.agents
  {
    var first := draft.agents[id := draft.agents[id].(status := AgentRecovering)];
    var reported := AppendEvent(draft.(agents := first), lease.runId, AgentStatusChanged, None);
    var second := first[id := first[id].(status := AgentQueued, generation := Some(lease.generation))];
    AppendEvent(reported.(agents := second), lease.runId, AgentStatusChanged, None)
  }

  lemma RequeueRow(start: Database, lease: Fence, done: set<AgentId>, id: AgentId, draft: Database)
    requires lease.runId in start.runs && RequeuedSoFar(start, lease, done, draft) && id in start.agents && id !in done
    ensures lease.runId in draft.runs && id in draft.agents && draft.agents[id] == start.agents[id]
    ensures RequeuedSoFar(start, lease, done + {id}, PassedThrough(draft, lease, id))
  {
    hide HasWritten, RequeueAgents, AppendEvent;
    var r, now := lease.runId, RequeueAgents(start.agents, done, lease);
    WritingEnds(start, start.tasks, now, r, AgentStatusChanged, None, 2 * |done|, draft);
    RequeueOneMore(start.agents, done, id, lease);
    var first := draft.agents[id := draft.agents[id].(status := AgentRecovering)];
    WritingGoesOn(start, start.tasks, now, r, AgentStatusChanged, None, 2 * |done|, draft, start.tasks, first);
    var reported := AppendEvent(draft.(agents := first), r, AgentStatusChanged, None);
    var second := first[id := first[id].(status := AgentQueued, generation := Some(lease.generation))];
    assert second == RequeueAgents(start.agents, done + {id}, lease);
    WritingEnds(start, start.tasks, first, r, AgentStatusChanged, None, 2 * |done| + 1, reported);
    WritingGoesOn(start, start.tasks, first, r, AgentStatusChanged, None, 2 * |done| + 1, reported, start.tasks,
        second);
  }

  lemma NoneDone(db: Database, lease: Fence)
    ensures MakeReady(db.tasks, {}) == db.tasks
    ensures RecoverTasks(db.tasks, {}, lease) == db.tasks && RequeueAgents(db.agents, {}, lease) == db.agents
  {
  }
}
