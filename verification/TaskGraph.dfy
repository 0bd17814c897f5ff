/** The Task Graph over every history: acyclic, never ahead of its dependencies, never stuck without a cause. */
module TaskGraph {
  import opened Outcomes
  import opened Tables
  import opened TaskOps
  import opened Store

  type Tasks = map<TaskId, Task>

  // ----- The invariant -----

  predicate DependsWithin(tasks: Tasks, t: Task)
  {
    forall d :: d in t.dependencies ==> d in tasks && tasks[d].runId == t.runId
  }

  /** What holds of a task whatever the refresh of its Run has still to do. */
  predicate Loose(tasks: Tasks, t: Task)
  {
    && DependsWithin(tasks, t)
    && (!t.status.TaskPending? && !t.status.TaskCancelled? ==> DependenciesDone(tasks, t))
    && (t.status.TaskPending? || t.status.TaskReady? || t.status.TaskFailed? ==> t.owner.None?)
  }

  /** A task that is past pending has its dependencies completed; a pending one has an uncompleted dependency; one left
      in failed has used every attempt; a task that waits to be claimed is unowned. */
  predicate TaskSound(tasks: Tasks, t: Task)
  {
    && Loose(tasks, t)
    && (t.status.TaskPending? ==> !DependenciesDone(tasks, t))
    && (t.status.TaskFailed? ==> t.attempt >= MAX_TASK_ATTEMPTS)
  }

  predicate Sound(tasks: Tasks) { forall id :: id in tasks ==> TaskSound(tasks, tasks[id]) }

  predicate IsLeast(tasks: Tasks, s: set<TaskId>, x: TaskId)
  {
    x in s && x in tasks && tasks[x].dependencies !! s
  }

  /** No cycle: every set of tasks has one that depends on no other in the set. */
  ghost predicate Acyclic(tasks: Tasks)
  {
    forall s: set<TaskId> :: s != {} && s <= tasks.Keys ==> exists x :: IsLeast(tasks, s, x)
  }

  predicate SameShape(before: Tasks, after: Tasks)
  {
    && before.Keys == after.Keys
    && forall id :: id in before ==>
         before[id].dependencies == after[id].dependencies && before[id].runId == after[id].runId
  }

  lemma ShapeKeepsAcyclic(before: Tasks, after: Tasks)
    requires SameShape(before, after) && Acyclic(before)
    ensures Acyclic(after)
  {
    forall s: set<TaskId> | s != {} && s <= after.Keys ensures exists x :: IsLeast(after, s, x) {
      var x :| IsLeast(before, s, x);
      assert IsLeast(after, s, x);
    }
  }

  lemma NewTaskKeepsAcyclic(tasks: Tasks, id: TaskId, t: Task)
    requires Acyclic(tasks) && id !in tasks && t.dependencies <= tasks.Keys
    requires forall x :: x in tasks ==> tasks[x].dependencies <= tasks.Keys
    ensures Acyclic(tasks[id := t])
  {
    var after := tasks[id := t];
    forall s: set<TaskId> | s != {} && s <= after.Keys ensures exists x :: IsLeast(after, s, x) {
      var rest := s - {id};
      if rest == {} {
        assert s == {id};
        assert IsLeast(after, s, id);
      } else {
        assert rest <= tasks.Keys;
        var x :| IsLeast(tasks, rest, x);
        assert IsLeast(after, s, x);
      }
    }
  }

  // ----- The refresh -----

  /** Between the write to one task of `r` and the refresh of `r`. */
  predicate Unrefreshed(tasks: Tasks, r: RunId)
  {
    forall id :: id in tasks ==> Loose(tasks, tasks[id]) && (tasks[id].runId != r ==> TaskSound(tasks, tasks[id]))
  }

  lemma DoneIsStable(before: Tasks, after: Tasks, t: Task)
    requires DependsWithin(before, t) && before.Keys <= after.Keys
    requires forall d :: d in t.dependencies ==> (before[d].status.TaskCompleted? <==> after[d].status.TaskCompleted?)
    ensures DependenciesDone(before, t) <==> DependenciesDone(after, t)
  {
  }

  lemma RefreshSettles(tasks: Tasks, r: RunId)
    requires Unrefreshed(tasks, r)
    ensures Sound(MakeReady(tasks, Promoted(tasks, r))) && SameShape(tasks, MakeReady(tasks, Promoted(tasks, r)))
  {
    var after := MakeReady(tasks, Promoted(tasks, r));
    forall id | id in after ensures TaskSound(after, after[id]) {
      assert Loose(tasks, tasks[id]);
      hide DependenciesDone, Loose;
      assert forall d :: d in tasks ==> (after[d].status.TaskCompleted? <==> tasks[d].status.TaskCompleted?);
      RefreshSettlesOne(tasks, after, r, id);
    }
  }

  lemma RefreshSettlesOne(tasks: Tasks, after: Tasks, r: RunId, id: TaskId)
    requires Unrefreshed(tasks, r) && after == MakeReady(tasks, Promoted(tasks, r)) && id in after
    ensures TaskSound(after, after[id])
  {
    var t := tasks[id];
    assert Loose(tasks, t);
    DoneIsStable(tasks, after, t);
    hide DependenciesDone;
    assert DependsWithin(after, t);
    assert DependenciesDone(after, after[id]) <==> DependenciesDone(after, t) by { DoneIsStable(after, after, t); }
  }

  // ----- Steps -----

  /** What callers ask of `transitionTask`, and dependencies within one Run; every other operation is unrestricted. */
  predicate Admissible(db: Database, op: Op)
  {
    && (op.TaskPart? && op.task.DoTransitionTask? ==>
          && !op.task.taskTo.TaskPending? && !op.task.taskTo.TaskReady? && !op.task.taskTo.TaskRunning?)
    && (op.TaskPart? && op.task.DoCreateTask? ==>
          forall d :: d in op.task.dependencies && d in db.tasks ==> db.tasks[d].runId == op.task.runId)
  }

  ghost predicate GraphSound(tasks: Tasks) { Sound(tasks) && Acyclic(tasks) }

  lemma RefreshedTasks(db: Database, r: RunId)
    requires r in db.runs
    ensures Refresh(db, r).tasks == MakeReady(db.tasks, Promoted(db.tasks, r))
  {
    hide AppendEvents;
  }

  lemma CreateTaskSound(db: Database, id: TaskId, runId: RunId, dependencies: seq<TaskId>, lease: Option<Fence>,
      now: Time)
    requires GraphSound(db.tasks) && CreateTask(db, id, runId, dependencies, lease, now).Ok?
    requires forall d :: d in dependencies && d in db.tasks ==> db.tasks[d].runId == runId
    ensures GraphSound(CreateTask(db, id, runId, dependencies, lease, now).value.tasks)
  {
    hide MayWrite, Refresh, Acyclic, Promoted, MakeReady, Sound, Unrefreshed;
    var t := NewTask(runId, dependencies);
    var created := db.tasks[id := t];
    RefreshedTasks(WithTask(db, id, t), runId);
    NewTaskIsLoose(db.tasks, id, runId, dependencies);
    RefreshSettles(created, runId);
    NewTaskKeepsAcyclic(db.tasks, id, t);
    ShapeKeepsAcyclic(created, MakeReady(created, Promoted(created, runId)));
  }

  lemma NewTaskIsLoose(tasks: Tasks, id: TaskId, runId: RunId, dependencies: seq<TaskId>)
    requires Sound(tasks) && id !in tasks
    requires forall d :: d in dependencies ==> d in tasks && tasks[d].runId == runId
    ensures Unrefreshed(tasks[id := NewTask(runId, dependencies)], runId)
    ensures NewTask(runId, dependencies).dependencies <= tasks.Keys
    ensures forall x :: x in tasks ==> tasks[x].dependencies <= tasks.Keys
  {
    var created := tasks[id := NewTask(runId, dependencies)];
    forall x | x in tasks ensures Loose(created, tasks[x]) && TaskSound(created, tasks[x]) {
      assert TaskSound(tasks, tasks[x]);
      DoneIsStable(tasks, created, tasks[x]);
      hide DependenciesDone;
    }
    forall x | x in tasks ensures tasks[x].dependencies <= tasks.Keys {
      assert TaskSound(tasks, tasks[x]);
    }
  }

  lemma TransitionTaskSound(db: Database, id: TaskId, to: TaskStatus, lease: Option<Fence>, now: Time)
    requires GraphSound(db.tasks) && TransitionTask(db, id, to, lease, now).Ok?
    requires !to.TaskPending? && !to.TaskReady? && !to.TaskRunning?
    ensures GraphSound(TransitionTask(db, id, to, lease, now).value.tasks)
  {
    hide LeaseHolds, Refresh, Acyclic, AppendEvent;
    var t, moved := db.tasks[id], Moved(db.tasks[id], to, lease);
    var after := db.tasks[id := moved];
    var generation := if lease.Some? then Some(lease.value.generation) else None;
    RefreshedTasks(AppendEvent(WithTask(db, id, moved), t.runId, TaskStatusChanged, generation), t.runId);
    MovedUnrefreshed(db.tasks, id, to, lease);
    RefreshSettles(after, t.runId);
    ShapeKeepsAcyclic(db.tasks, after);
    ShapeKeepsAcyclic(after, MakeReady(after, Promoted(after, t.runId)));
  }

  /** Moving one task on can only complete dependencies, and only within its own Run. */
  lemma MovedUnrefreshed(tasks: Tasks, id: TaskId, to: TaskStatus, lease: Option<Fence>)
    requires Sound(tasks) && id in tasks && CanMoveTask(tasks[id].status, to)
    requires !to.TaskPending? && !to.TaskReady? && !to.TaskRunning?
    ensures Unrefreshed(tasks[id := Moved(tasks[id], to, lease)], tasks[id].runId)
  {
    var after := tasks[id := Moved(tasks[id], to, lease)];
    forall x | x in after
      ensures Loose(after, after[x]) && (after[x].runId != tasks[id].runId ==> TaskSound(after, after[x]))
    {
      assert TaskSound(tasks, tasks[x]);
      MovedLoose(tasks, id, to, lease, x);
    }
  }

  lemma MovedLoose(tasks: Tasks, id: TaskId, to: TaskStatus, lease: Option<Fence>, x: TaskId)
    requires id in tasks && CanMoveTask(tasks[id].status, to) && x in tasks && TaskSound(tasks, tasks[x])
    requires !to.TaskPending? && !to.TaskReady? && !to.TaskRunning?
    ensures var after := tasks[id := Moved(tasks[id], to, lease)];
            Loose(after, after[x]) && (after[x].runId != tasks[id].runId ==> TaskSound(after, after[x]))
  {
    var after := tasks[id := Moved(tasks[id], to, lease)];
    assert !tasks[id].status.TaskCompleted?;
    assert DependenciesDone(tasks, tasks[x]) ==> DependenciesDone(after, tasks[x]);
    if tasks[x].runId != tasks[id].runId {
      DoneIsStable(tasks, after, tasks[x]);
    }
    assert DependenciesDone(after, after[x]) <==> DependenciesDone(after, tasks[x]);
    hide DependenciesDone;
  }

  lemma ClaimTaskSound(db: Database, lease: Fence, id: TaskId, agent: AgentId, now: Time)
    requires GraphSound(db.tasks) && ClaimTask(db, lease, id, agent, now).Ok?
    ensures GraphSound(ClaimTask(db, lease, id, agent, now).value.tasks)
  {
    hide LeaseHolds, AppendEvent, Acyclic;
    var after := ClaimTask(db, lease, id, agent, now).value.tasks;
    ShapeKeepsAcyclic(db.tasks, after);
    forall x | x in after ensures TaskSound(after, after[x]) {
      assert TaskSound(db.tasks, db.tasks[x]);
      SameDoneSound(db.tasks, after, x);
    }
  }

  /** A change that completes nothing and uncompletes nothing keeps a task sound, if what it does to it is sound. */
  lemma SameDoneSound(before: Tasks, after: Tasks, x: TaskId)
    requires SameShape(before, after) && x in before && TaskSound(before, before[x])
    requires forall d :: d in before ==> (before[d].status.TaskCompleted? <==> after[d].status.TaskCompleted?)
    requires after[x] == before[x]
             || (after[x].status.TaskRunning? && before[x].status.TaskReady?)
             || (after[x].status.TaskReady? && before[x].status.TaskRunning? && after[x].owner.None?)
    ensures TaskSound(after, after[x])
  {
    DoneIsStable(before, after, before[x]);
    assert DependenciesDone(after, after[x]) <==> DependenciesDone(after, before[x]);
    hide DependenciesDone;
  }

  lemma RecoverGraphWorkSound(db: Database, lease: Fence, now: Time)
    requires GraphSound(db.tasks) && RecoverGraphWork(db, lease, now).Ok?
    ensures GraphSound(RecoverGraphWork(db, lease, now).value.tasks)
  {
    hide LeaseHolds, AppendEvents, Acyclic;
    var after := RecoverGraphWork(db, lease, now).value.tasks;
    assert after == db.tasks || after == Recovered(db, lease).tasks;
    hide RecoverGraphWork;
    ShapeKeepsAcyclic(db.tasks, after);
    forall x | x in after ensures TaskSound(after, after[x]) {
      assert TaskSound(db.tasks, db.tasks[x]);
      SameDoneSound(db.tasks, after, x);
    }
  }

  lemma StepSound(db: Database, e: Entry)
    requires GraphSound(db.tasks) && Admissible(db, e.op)
    ensures GraphSound(Next(db, e).tasks)
  {
    hide GraphSound, CreateTask, ClaimTask, TransitionTask, RecoverGraphWork;
    if !TouchesTasks(e.op) || !Commits(db, e) {
      hide Step;
      Frames(db, e);
    } else {
      match e.op.task
      case DoCreateTask(id, r, d, l) => CreateTaskSound(db, id, r, d, l, e.now);
      case DoClaimTask(f, id, a) => ClaimTaskSound(db, f, id, a, e.now);
      case DoTransitionTask(id, to, l) => TransitionTaskSound(db, id, to, l, e.now);
      case DoRecoverGraphWork(f) => RecoverGraphWorkSound(db, f, e.now);
    }
  }

  predicate AllAdmissible(db: Database, history: seq<Entry>)
  {
    forall i :: 0 <= i < |history| ==> Admissible(Play(db, history[..i]), history[i].op)
  }

  /** The Task Graph is sound and acyclic in every history of such operations. */
  lemma {:induction false} GraphStaysSound(history: seq<Entry>)
    requires AllAdmissible(EMPTY_DATABASE, history)
    ensures GraphSound(Play(EMPTY_DATABASE, history).tasks)
    decreases |history|
  {
    hide Next, Admissible;
    if history != [] {
      var n := |history| - 1;
      forall i | 0 <= i < n ensures Admissible(Play(EMPTY_DATABASE, history[..n][..i]), history[..n][i].op) {
        assert history[..n][..i] == history[..i];
      }
      GraphStaysSound(history[..n]);
      hide GraphSound;
      assert Admissible(Play(EMPTY_DATABASE, history[..n]), history[n].op);
      StepSound(Play(EMPTY_DATABASE, history[..n]), history[n]);
    }
  }

  // ----- No deadlock -----

  /** A way from a pending task along uncompleted dependencies to one that is not waiting for another task. */
  predicate LeadsOut(tasks: Tasks, path: seq<TaskId>)
  {
    && |path| > 1
    && (forall i :: 0 <= i < |path| ==> path[i] in tasks && !tasks[path[i]].status.TaskCompleted?)
    && (forall i :: 0 <= i < |path| - 1 ==>
          tasks[path[i]].status.TaskPending? && path[i + 1] in tasks[path[i]].dependencies)
    && !tasks[path[|path| - 1]].status.TaskPending?
  }

  ghost predicate HasWayOut(tasks: Tasks, id: TaskId) { exists path :: LeadsOut(tasks, path) && path[0] == id }

  lemma WayOutExtends(tasks: Tasks, id: TaskId, d: TaskId)
    requires id in tasks && tasks[id].status.TaskPending?
    requires d in tasks[id].dependencies && d in tasks && !tasks[d].status.TaskCompleted?
    requires tasks[d].status.TaskPending? ==> HasWayOut(tasks, d)
    ensures HasWayOut(tasks, id)
  {
    if tasks[d].status.TaskPending? {
      var path :| LeadsOut(tasks, path) && path[0] == d;
      assert LeadsOut(tasks, [id] + path);
    } else {
      assert LeadsOut(tasks, [id, d]);
    }
  }

  /** From every pending task a chain of uncompleted dependencies leads to one that is ready, running, waiting, blocked,
      cancelled, or failed with every attempt used: nothing waits in a circle or for nothing. */
  lemma NoDeadlock(tasks: Tasks, id: TaskId)
    requires GraphSound(tasks) && id in tasks && tasks[id].status.TaskPending?
    ensures HasWayOut(tasks, id)
  {
    var stuck := set x | x in tasks && tasks[x].status.TaskPending? && !HasWayOut(tasks, x);
    if stuck != {} {
      assert stuck <= tasks.Keys;
      var x :| IsLeast(tasks, stuck, x);
      assert TaskSound(tasks, tasks[x]);
      var d :| d in tasks[x].dependencies && d in tasks && !tasks[d].status.TaskCompleted?;
      assert d !in stuck;
      WayOutExtends(tasks, x, d);
    }
    assert id !in stuck;
  }

  // ----- What a claim and a recovery come to -----

  /** A claim succeeds exactly when a live lease of the task's Run claims it for an agent of that Run, and the task is
      ready, or waits under that same agent. */
  lemma ClaimSucceedsIff(db: Database, lease: Fence, id: TaskId, agent: AgentId, now: Time)
    requires Sound(db.tasks)
    ensures ClaimTask(db, lease, id, agent, now).Ok?
       <==> LeaseHolds(db, lease, now) && lease.runId in db.runs
            && id in db.tasks && db.tasks[id].runId == lease.runId
            && agent in db.agents && db.agents[agent].runId == lease.runId
            && (db.tasks[id].status.TaskReady?
                || (db.tasks[id].status.TaskWaiting? && db.tasks[id].owner == Some(agent)))
  {
    hide LeaseHolds, AppendEvent, DependenciesDone;
    assert id in db.tasks ==> TaskSound(db.tasks, db.tasks[id]);
  }

  /** A successful claim leaves the task running under its claimant exactly when the task was ready. (A waiting task
      that the claimant already owns passes every check, and stays as it was.) */
  lemma ClaimRunsIff(db: Database, lease: Fence, id: TaskId, agent: AgentId, now: Time)
    requires Sound(db.tasks) && ClaimTask(db, lease, id, agent, now).Ok?
    ensures var next := ClaimTask(db, lease, id, agent, now).value.tasks;
            && id in db.tasks && id in next && next[id].owner == Some(agent)
            && (next[id].status.TaskRunning? <==> db.tasks[id].status.TaskReady?)
            && (next[id].status.TaskRunning? ==> next[id].generation == Some(lease.generation))
            && (!next[id].status.TaskRunning? ==> next == db.tasks && db.tasks[id].status.TaskWaiting?)
  {
    assert TaskSound(db.tasks, db.tasks[id]);
    hide LeaseHolds, AppendEvent, DependenciesDone;
  }

  /** The row belongs to the Run of the lease and to an older generation of it. */
  predicate IsOlder(runId: RunId, generation: Option<nat>, lease: Fence)
  {
    runId == lease.runId && generation.Some? && generation.value < lease.generation
  }

  /** A recovery makes every task of its Run that an older generation was running claimable again, counts the attempt,
      and queues every agent that an older generation was running; it touches no other task or agent. */
  lemma RecoveryRequeues(db: Database, lease: Fence, now: Time)
    requires RecoverGraphWork(db, lease, now).Ok?
    ensures var next := RecoverGraphWork(db, lease, now).value;
            && next.tasks.Keys == db.tasks.Keys && next.agents.Keys == db.agents.Keys
            && (forall id :: id in db.tasks ==>
                  var task := db.tasks[id];
                  next.tasks[id] ==
                  if IsOlder(task.runId, task.generation, lease) && task.status == TaskRunning
                  then task.(status := TaskReady, owner := None, generation := Some(lease.generation),
                             attempt := task.attempt + 1)
                  else task)
            && forall a :: a in db.agents ==>
                 var agent := db.agents[a];
                 next.agents[a] ==
                 if IsOlder(agent.runId, agent.generation, lease) && agent.status == AgentRunning
                 then agent.(status := AgentQueued, generation := Some(lease.generation))
                 else agent
  {
    hide LeaseHolds, AppendEvents;
    var tasks, agents := StrandedTasks(db, lease), StrandedAgents(db, lease);
    assert forall id :: id in tasks <==> id in db.tasks && StrandedTask(db.tasks[id], lease);
    assert forall a :: a in agents <==> a in db.agents && StrandedAgent(db.agents[a], lease);
    hide StrandedTasks, StrandedAgents;
  }

  /** It fails, under a live lease, exactly when an agent of an older generation was left in recovering. */
  lemma RecoveryFailsIff(db: Database, lease: Fence, now: Time)
    requires LeaseHolds(db, lease, now) && lease.runId in db.runs
    ensures RecoverGraphWork(db, lease, now).Err? <==>
            exists a :: a in db.agents && IsOlder(db.agents[a].runId, db.agents[a].generation, lease)
                        && db.agents[a].status == AgentRecovering
  {
    hide LeaseHolds, AppendEvents, Recovered, StrandedTasks;
    assert forall a :: a in StrandedAgents(db, lease) <==> a in db.agents && StrandedAgent(db.agents[a], lease);
    hide StrandedAgents;
  }

  /** Nothing keeps a task of the Run from being claimed: it is pending, or failed with attempts left of its five, and
      everything it depends on is completed. */
  predicate Opens(tasks: Tasks, task: Task, r: RunId)
  {
    && task.runId == r && (task.status == TaskPending || (task.status == TaskFailed && task.attempt < 5))
    && forall d :: d in task.dependencies && d in tasks ==> tasks[d].status == TaskCompleted
  }

  /** The row of a task after a refresh of the Run. */
  function Opened(tasks: Tasks, task: Task, r: RunId): Task
  {
    if Opens(tasks, task, r) then task.(status := TaskReady) else task
  }

  lemma RefreshOpens(db: Database, r: RunId)
    requires r in db.runs
    ensures var next := Refresh(db, r).tasks;
            next.Keys == db.tasks.Keys && forall id :: id in db.tasks ==> next[id] == Opened(db.tasks, db.tasks[id], r)
  {
    RefreshedTasks(db, r);
    assert forall id :: id in Promoted(db.tasks, r) <==> id in db.tasks && Opens(db.tasks, db.tasks[id], r);
    hide Refresh, Promoted, Opens;
  }

  /** A transition under the table moves the one task: it is released when it ends, an attempt is counted when it fails,
      and a lease leaves its generation. Then every task of the Run that nothing keeps from being claimed is ready. */
  lemma TransitionLeaves(db: Database, t: TaskId, to: TaskStatus, lease: Option<Fence>, now: Time)
    requires t in db.tasks && db.tasks[t].runId in db.runs
    ensures var r, task := TransitionTask(db, t, to, lease, now), db.tasks[t];
            && (r.Ok? <==> CanMoveTask(task.status, to)
                           && (lease.Some? ==> LeaseHolds(db, lease.value, now) && lease.value.runId == task.runId))
            && (r.Ok? ==>
                  var ended := to == TaskCompleted || to == TaskFailed || to == TaskCancelled;
                  var moved := Task(task.runId, to, if ended then None else task.owner,
                                    if lease.Some? then Some(lease.value.generation) else task.generation,
                                    if to == TaskFailed then task.attempt + 1 else task.attempt, task.dependencies);
                  var tasks := db.tasks[t := moved];
                  && r.value.tasks.Keys == db.tasks.Keys
                  && forall id :: id in db.tasks ==> r.value.tasks[id] == Opened(tasks, tasks[id], task.runId))
  {
    hide LeaseHolds, AppendEvent, CanMoveTask, Refresh, Opened;
    var task := db.tasks[t];
    var moved := WithTask(db, t, Moved(task, to, lease));
    var generation := if lease.Some? then Some(lease.value.generation) else None;
    RefreshOpens(AppendEvent(moved, task.runId, TaskStatusChanged, generation), task.runId);
  }

  /** A new task has a fresh id and known dependencies without repeats; it is ready at once exactly when they are all
      completed, and pending otherwise. (Every dependency in the table is a row of it, as its foreign key has it.) */
  lemma CreationLeaves(db: Database, t: TaskId, r: RunId, dependencies: seq<TaskId>, lease: Option<Fence>, now: Time)
    requires MayWrite(db, lease, r, now) && r in db.runs
    requires forall id :: id in db.tasks ==> db.tasks[id].dependencies <= db.tasks.Keys
    ensures var c := CreateTask(db, t, r, dependencies, lease, now);
            && (c.Ok? <==>
                  && t !in db.tasks && (forall d :: d in dependencies ==> d in db.tasks)
                  && forall i, j :: 0 <= i < j < |dependencies| ==> dependencies[i] != dependencies[j])
            && (c.Ok? ==>
                  && c.value.tasks.Keys == db.tasks.Keys + {t}
                  && (forall id :: id in db.tasks ==>
                        c.value.tasks[id] == Opened(db.tasks, db.tasks[id], r))
                  && var done := forall d :: d in dependencies ==> db.tasks[d].status == TaskCompleted;
                     c.value.tasks[t] == Task(r, if done then TaskReady else TaskPending, None, None, 0,
                                              set d | d in dependencies))
  {
    hide MayWrite, Refresh;
    if t !in db.tasks {
      RefreshOpens(WithTask(db, t, NewTask(r, dependencies)), r);
    }
  }

  /** Completing the last open dependency of a pending task makes it ready exactly when the two are tasks of one Run:
      `createTask` accepts a dependency on another Run's task, and nothing then announces its completion. */
  lemma CompletionUnblocksIff(db: Database, d: TaskId, t: TaskId, lease: Option<Fence>, now: Time)
    requires TransitionTask(db, d, TaskCompleted, lease, now).Ok?
    requires t in db.tasks && t != d && db.tasks[t].status.TaskPending?
    requires forall x :: x in db.tasks[t].dependencies && x != d && x in db.tasks ==> db.tasks[x].status.TaskCompleted?
    ensures var next := TransitionTask(db, d, TaskCompleted, lease, now).value.tasks;
            && t in next && d in db.tasks && DependenciesDone(next, next[t])
            && (next[t].status.TaskReady? <==> db.tasks[t].runId == db.tasks[d].runId)
            && (next[t].status.TaskReady? || next[t].status.TaskPending?)
  {
    hide LeaseHolds, AppendEvent, CanMoveTask, Refresh;
    var r := db.tasks[d].runId;
    var after := db.tasks[d := Moved(db.tasks[d], TaskCompleted, lease)];
    var generation := if lease.Some? then Some(lease.value.generation) else None;
    RefreshedTasks(AppendEvent(WithTask(db, d, Moved(db.tasks[d], TaskCompleted, lease)), r, TaskStatusChanged,
        generation), r);
    assert DependenciesDone(after, after[t]);
    assert d !in Promoted(after, r);
  }
}
