/** The resource locks: no two owners hold scopes that conflict, in any history. */
module LockTable {
  import opened Outcomes
  import opened Tables
  import opened Scopes
  import opened TaskOps
  import opened Store

  predicate SameOwner(a: Lock, b: Lock) { OwnedBy(a, b.holder, b.runId, b.generation) }

  predicate Exclusive(locks: seq<Lock>)
  {
    forall a, b :: a in locks && b in locks && !SameOwner(a, b) ==> !Conflict(a.scope, b.scope)
  }

  lemma AcquireExclusive(db: Database, executor: ExecutorId, runId: RunId, scopes: seq<Scope>, ttl: int,
                         lease: Option<Fence>, now: Time)
    requires Exclusive(db.locks)
    ensures var r := AcquireLocks(db, executor, runId, scopes, ttl, lease, now); r.Ok? ==> Exclusive(r.value.locks)
  {
    hide MayWrite, Conflict, Keep;
    var r := AcquireLocks(db, executor, runId, scopes, ttl, lease, now);
    if r.Ok? {
      var kept := Keep(db.locks, l => Survives(l, runId, lease, now));
      var added := NewLocks(executor, runId, GenerationOf(lease), scopes, now + ttl);
      forall a, b | a in kept + added && b in kept + added && !SameOwner(a, b) ensures !Conflict(a.scope, b.scope) {
        ConflictSymmetric(a.scope, b.scope);
        if a in added {
          var i :| 0 <= i < |added| && added[i] == a;
          var j :| 0 <= j < |kept| && kept[j] == b;
          assert !Conflict(scopes[i], kept[j].scope);
        } else if b in added {
          var i :| 0 <= i < |added| && added[i] == b;
          var j :| 0 <= j < |kept| && kept[j] == a;
          assert !Conflict(scopes[i], kept[j].scope);
        }
      }
    }
  }

  lemma StepExclusive(db: Database, e: Entry)
    requires Exclusive(db.locks)
    ensures Exclusive(Next(db, e).locks)
  {
    hide AcquireLocks, Exclusive;
    if !TouchesLocks(e.op) {
      hide Step;
      Frames(db, e);
    } else if e.op.task.DoAcquireLocks? {
      var op := e.op.task;
      AcquireExclusive(db, op.executor, op.runId, op.scopes, op.ttl, op.lease, e.now);
    } else {
      var op := e.op.task;
      ReleaseExclusive(db, op.executor, op.runId, op.generation);
    }
  }

  lemma ReleaseExclusive(db: Database, executor: ExecutorId, runId: RunId, generation: nat)
    requires Exclusive(db.locks)
    ensures Exclusive(ReleaseLocks(db, executor, runId, generation).value.locks)
  {
    hide Conflict, Keep;
  }

  lemma {:induction false} AlwaysExclusive(history: seq<Entry>)
    ensures Exclusive(Play(EMPTY_DATABASE, history).locks)
    decreases |history|
  {
    hide Next;
    if history != [] {
      var n := |history| - 1;
      AlwaysExclusive(history[..n]);
      hide Exclusive;
      StepExclusive(Play(EMPTY_DATABASE, history[..n]), history[n]);
    }
  }

  /** In every reachable state, of two locks of different owners neither writes what the other may be about. */
  lemma LocksExclude(history: seq<Entry>, a: Lock, b: Lock)
    requires a in Play(EMPTY_DATABASE, history).locks && b in Play(EMPTY_DATABASE, history).locks
    requires (a.holder, a.runId, a.generation) != (b.holder, b.runId, b.generation)
    ensures !Clash(a.scope, b.scope)
  {
    AlwaysExclusive(history);
    ConflictMeans(a.scope, b.scope);
    hide Play, Conflict, Clash;
  }

  // ----- When locks are refused -----

  /** The lock stands in the way of a request for the scope: it is live, not of an older generation of the Run that asks
      under a lease, and of another owner. */
  ghost predicate StandsInTheWay(l: Lock, scope: Scope, executor: ExecutorId, runId: RunId, lease: Option<Fence>,
                                 now: Time)
  {
    && now < l.expiresAt
    && !(lease.Some? && l.runId == runId && l.generation < lease.value.generation)
    && (l.holder, l.runId, l.generation) != (executor, runId, if lease.Some? then lease.value.generation else 0)
    && Clash(scope, l.scope)
  }

  /** A caller that may lock is refused with a conflict exactly when some lock stands in the way of some scope. */
  lemma ConflictsIff(db: Database, executor: ExecutorId, runId: RunId, scopes: seq<Scope>, ttl: int,
                     lease: Option<Fence>, now: Time)
    requires MayWrite(db, lease, runId, now) && (runId in db.runs || scopes == [])
    ensures var r := AcquireLocks(db, executor, runId, scopes, ttl, lease, now);
            && (r.Err? ==> r.error == LockConflict)
            && (r.Err? <==> exists l, s :: l in db.locks && s in scopes
                                           && StandsInTheWay(l, s, executor, runId, lease, now))
  {
    var existing := Keep(db.locks, l => Survives(l, runId, lease, now));
    var generation := GenerationOf(lease);
    hide MayWrite, Keep, Conflict, Clash;
    if Obstructed(existing, scopes, executor, runId, generation) {
      var i, j :| 0 <= i < |scopes| && 0 <= j < |existing| && !OwnedBy(existing[j], executor, runId, generation)
                  && Conflict(scopes[i], existing[j].scope);
      ConflictMeans(scopes[i], existing[j].scope);
      assert existing[j] in existing && scopes[i] in scopes;
      assert StandsInTheWay(existing[j], scopes[i], executor, runId, lease, now);
    }
    if l, s :| l in db.locks && s in scopes && StandsInTheWay(l, s, executor, runId, lease, now) {
      var i :| 0 <= i < |scopes| && scopes[i] == s;
      assert l in existing;
      var j :| 0 <= j < |existing| && existing[j] == l;
      ConflictMeans(scopes[i], existing[j].scope);
      assert Obstructed(existing, scopes, executor, runId, generation);
    }
  }

  // ----- How a lock ends -----

  /** The step may end the lock: its owner releases it, its time is up, or a newer generation of its Run locks. */
  predicate MayEnd(e: Entry, l: Lock)
  {
    && e.op.TaskPart?
    && match e.op.task
       case DoReleaseLocks(executor, runId, generation) => OwnedBy(l, executor, runId, generation)
       case DoAcquireLocks(_, runId, _, _, lease) =>
         l.expiresAt <= e.now || (lease.Some? && l.runId == runId && l.generation < lease.value.generation)
       case _ => false
  }

  /** No other step ends it; a release ends exactly its own generation's locks, never a successor's. */
  lemma LocksEndOnlyByRight(db: Database, e: Entry, l: Lock)
    requires l in db.locks
    ensures l !in Next(db, e).locks ==> MayEnd(e, l)
    ensures e.op.TaskPart? && e.op.task.DoReleaseLocks? ==> (l in Next(db, e).locks <==> !MayEnd(e, l))
  {
    hide AcquireLocks, Keep;
    if !TouchesLocks(e.op) || (e.op.task.DoAcquireLocks? && !Commits(db, e)) {
      hide Step;
      Frames(db, e);
    } else if e.op.task.DoAcquireLocks? {
      var op := e.op.task;
      AcquireEnds(db, op.executor, op.runId, op.scopes, op.ttl, op.lease, e.now, l);
    } else {
      var op := e.op.task;
      ReleaseEnds(db, op.executor, op.runId, op.generation, l);
    }
  }

  lemma AcquireEnds(db: Database, executor: ExecutorId, runId: RunId, scopes: seq<Scope>, ttl: int,
                    lease: Option<Fence>, now: Time, l: Lock)
    requires l in db.locks && AcquireLocks(db, executor, runId, scopes, ttl, lease, now).Ok?
    ensures l !in AcquireLocks(db, executor, runId, scopes, ttl, lease, now).value.locks ==>
              MayEnd(Entry(TaskPart(DoAcquireLocks(executor, runId, scopes, ttl, lease)), now), l)
  {
    hide MayWrite, Keep, Obstructed;
  }

  lemma ReleaseEnds(db: Database, executor: ExecutorId, runId: RunId, generation: nat, l: Lock)
    requires l in db.locks
    ensures l in ReleaseLocks(db, executor, runId, generation).value.locks <==> !OwnedBy(l, executor, runId, generation)
  {
    hide Keep;
  }

  /** Locking is all or nothing; what it grants is live and belongs to the caller, and a lease that locks leaves nothing
      of its Run's older generations behind. */
  lemma AcquisitionGrants(db: Database, executor: ExecutorId, runId: RunId, scopes: seq<Scope>, ttl: int,
                          lease: Option<Fence>, now: Time)
    ensures var r := AcquireLocks(db, executor, runId, scopes, ttl, lease, now);
            r.Ok? ==>
              && (forall s :: s in scopes ==>
                    Lock(runId, executor, GenerationOf(lease), s, now + ttl) in r.value.locks)
              && (forall l :: l in r.value.locks ==>
                  l in db.locks || (OwnedBy(l, executor, runId, GenerationOf(lease)) && l.scope in scopes))
              && (ttl > 0 ==> forall l :: l in r.value.locks ==> now < l.expiresAt)
              && (lease.Some? ==> forall l :: l in r.value.locks && l.runId == runId ==>
                  l.generation >= lease.value.generation)
  {
    hide MayWrite, Conflict, Keep;
    var r := AcquireLocks(db, executor, runId, scopes, ttl, lease, now);
    if r.Ok? {
      var kept := Keep(db.locks, l => Survives(l, runId, lease, now));
      var added := NewLocks(executor, runId, GenerationOf(lease), scopes, now + ttl);
      assert r.value.locks == kept + added;
      forall s | s in scopes ensures Lock(runId, executor, GenerationOf(lease), s, now + ttl) in r.value.locks {
        var i :| 0 <= i < |scopes| && scopes[i] == s;
        assert added[i] in r.value.locks;
      }
    }
  }
}
