/** The event journal of a Run: numbered without gaps, append-only, and a faithful record of its status. */
module Journals {
  import opened Outcomes
  import opened Tables
  import opened TaskOps

  predicate Numbered(journal: seq<Event>, last: nat)
  {
    |journal| == last && forall i :: 0 <= i < |journal| ==> journal[i].sequence == i + 1
  }

  /** The status a reader of the journal computes; none if some event does not follow from the one before. */
  function Replay(journal: seq<Event>): Option<RunStatus>
  {
    if journal == [] then Some(Queued)
    else
      var n := |journal| - 1;
      match journal[n].kind
      case RunStatusChanged(from, to) =>
        if Replay(journal[..n]) == Some(from) && CanMoveRun(from, to) then Some(to) else None
      case _ => Replay(journal[..n])
  }

  predicate FaithfulFor(db: Database, r: RunId)
  {
    && (r in db.runs ==>
          Numbered(Journal(db, r), db.runs[r].nextSequence) && Replay(Journal(db, r)) == Some(db.runs[r].status))
    && (r in db.events ==> r in db.runs)
  }

  /** The Run stays, with every event it had; it does not become completed; its journal stays faithful. */
  predicate KeepsRun(db: Database, next: Database, r: RunId)
  {
    && (r in db.runs ==> r in next.runs && Journal(db, r) <= Journal(next, r))
    && (r in next.runs && next.runs[r].status == Completed ==> r in db.runs && db.runs[r].status == Completed)
    && (FaithfulFor(db, r) ==> FaithfulFor(next, r))
  }

  ghost predicate KeepsJournals(db: Database, next: Database) { forall r :: KeepsRun(db, next, r) }

  /** No Run's budget or usage changes, and a new Run has used nothing. */
  predicate Unbilled(db: Database, next: Database, r: RunId)
  {
    && (r in db.runs ==>
          r in next.runs && next.runs[r].usage == db.runs[r].usage && next.runs[r].budget == db.runs[r].budget)
    && (r in next.runs && r !in db.runs ==> next.runs[r].usage == NoUsage())
  }

  ghost predicate Keeps(db: Database, next: Database)
  {
    KeepsJournals(db, next) && forall r :: Unbilled(db, next, r)
  }

  // ----- The shared writes -----

  lemma KeepsJournalsTwice(a: Database, b: Database, c: Database)
    requires KeepsJournals(a, b) && KeepsJournals(b, c)
    ensures KeepsJournals(a, c)
  {
    hide FaithfulFor, Journal;
    forall r ensures KeepsRun(a, c, r) {
      assert KeepsRun(a, b, r) && KeepsRun(b, c, r);
    }
  }

  lemma KeepsTwice(a: Database, b: Database, c: Database)
    requires Keeps(a, b) && Keeps(b, c)
    ensures Keeps(a, c)
  {
    KeepsJournalsTwice(a, b, c);
    hide KeepsJournals;
    forall r ensures Unbilled(a, c, r) {
      assert Unbilled(a, b, r) && Unbilled(b, c, r);
    }
  }

  /** Only Runs and events matter to a journal. */
  lemma KeepsFramed(db: Database, next: Database)
    requires next.runs == db.runs && next.events == db.events
    ensures Keeps(db, next)
  {
  }

  lemma RowKeepsJournals(db: Database, runId: RunId, run: Run)
    requires runId in db.runs
    requires run.status == db.runs[runId].status && run.nextSequence == db.runs[runId].nextSequence
    ensures KeepsJournals(db, db.(runs := db.runs[runId := run]))
  {
    hide Replay, Numbered;
  }

  lemma RowKeeps(db: Database, runId: RunId, run: Run)
    requires runId in db.runs
    requires run.status == db.runs[runId].status && run.nextSequence == db.runs[runId].nextSequence
    requires run.usage == db.runs[runId].usage && run.budget == db.runs[runId].budget
    ensures Keeps(db, db.(runs := db.runs[runId := run]))
  {
    RowKeepsJournals(db, runId, run);
    hide KeepsJournals;
  }

  lemma ReplaySnoc(journal: seq<Event>, event: Event)
    ensures Replay(journal + [event]) ==
            match event.kind
            case RunStatusChanged(from, to) =>
              if Replay(journal) == Some(from) && CanMoveRun(from, to) then Some(to) else None
            case _ => Replay(journal)
  {
    hide CanMoveRun;
    assert (journal + [event])[..|journal|] == journal;
  }

  lemma AppendKeeps(db: Database, runId: RunId, kind: EventKind, generation: Option<nat>)
    requires runId in db.runs && !kind.RunStatusChanged?
    ensures Keeps(db, AppendEvent(db, runId, kind, generation))
  {
    ReplaySnoc(Journal(db, runId), Event(db.runs[runId].nextSequence + 1, kind, generation));
    hide Replay, CanMoveRun;
  }

  lemma {:induction false} AppendsKeep(db: Database, runId: RunId, kind: EventKind, generation: Option<nat>, count: nat)
    requires runId in db.runs && !kind.RunStatusChanged?
    ensures Keeps(db, AppendEvents(db, runId, kind, generation, count))
  {
    if count == 0 {
      KeepsFramed(db, db);
    } else {
      var before := AppendEvents(db, runId, kind, generation, count - 1);
      AppendsKeep(db, runId, kind, generation, count - 1);
      AppendKeeps(before, runId, kind, generation);
      hide Keeps;
      KeepsTwice(db, before, AppendEvents(db, runId, kind, generation, count));
    }
  }

  /** A move; into `completed` it does all but leave the Run uncompleted. */
  predicate Moves(db: Database, next: Database, r: RunId)
  {
    && (r in db.runs ==> r in next.runs && Journal(db, r) <= Journal(next, r))
    && (FaithfulFor(db, r) ==> FaithfulFor(next, r))
  }

  /** What a move does to a Run and its journal. */
  lemma MoveEffect(db: Database, runId: RunId, to: RunStatus)
    requires MoveRun(db, runId, to).Ok?
    ensures var next := MoveRun(db, runId, to).value;
            && runId in db.runs && runId in next.runs && CanMoveRun(db.runs[runId].status, to)
            && next.runs[runId].status == to && next.runs[runId].nextSequence == db.runs[runId].nextSequence + 1
            && next.runs[runId].usage == db.runs[runId].usage && next.runs[runId].budget == db.runs[runId].budget
            && Journal(next, runId) == Journal(db, runId)
               + [Event(next.runs[runId].nextSequence, RunStatusChanged(db.runs[runId].status, to), None)]
            && (forall r :: r in next.runs <==> r in db.runs)
            && (forall r :: r in next.events <==> r in db.events || r == runId)
            && forall r :: r in db.runs && r != runId ==>
                 next.runs[r] == db.runs[r] && Journal(next, r) == Journal(db, r)
  {
    hide CanMoveRun;
  }

  lemma MoveKeeps(db: Database, runId: RunId, to: RunStatus)
    requires MoveRun(db, runId, to).Ok?
    ensures forall r :: Moves(db, MoveRun(db, runId, to).value, r)
    ensures to != Completed ==> Keeps(db, MoveRun(db, runId, to).value)
  {
    var run, next := db.runs[runId], MoveRun(db, runId, to).value;
    MoveEffect(db, runId, to);
    ReplaySnoc(Journal(db, runId), Event(run.nextSequence + 1, RunStatusChanged(run.status, to), None));
    hide Replay, CanMoveRun, MoveRun, Journal;
  }

  /** Other tables may change before an event is appended, ... */
  lemma WriteAndAppendKeeps(db: Database, written: Database, runId: RunId, kind: EventKind, generation: Option<nat>)
    requires written.runs == db.runs && written.events == db.events
    requires runId in db.runs && !kind.RunStatusChanged?
    ensures Keeps(db, AppendEvent(written, runId, kind, generation))
  {
    KeepsFramed(db, written);
    AppendKeeps(written, runId, kind, generation);
    hide Keeps, AppendEvent;
    KeepsTwice(db, written, AppendEvent(written, runId, kind, generation));
  }

  /** ... or before a move, ... */
  lemma WriteAndMoveKeeps(db: Database, written: Database, runId: RunId, to: RunStatus)
    requires written.runs == db.runs && written.events == db.events
    requires to != Completed && MoveRun(written, runId, to).Ok?
    ensures Keeps(db, MoveRun(written, runId, to).value)
  {
    KeepsFramed(db, written);
    MoveKeeps(written, runId, to);
    hide Keeps, MoveRun;
    KeepsTwice(db, written, MoveRun(written, runId, to).value);
  }

  /** ... and after it. */
  lemma WriteAfterKeeps(db: Database, before: Database, next: Database)
    requires Keeps(db, before) && next.runs == before.runs && next.events == before.events
    ensures Keeps(db, next)
  {
    KeepsFramed(before, next);
    hide Keeps;
    KeepsTwice(db, before, next);
  }

  lemma WriteMoveAndContinueKeeps(db: Database, written: Database, runId: RunId, to: RunStatus, now: Time)
    requires written.runs == db.runs && written.events == db.events && to != Completed
    ensures var r := MoveAndContinue(written, runId, to, now); r.Ok? ==> Keeps(db, r.value)
  {
    if MoveRun(written, runId, to).Ok? {
      WriteAndMoveKeeps(db, written, runId, to);
      hide Keeps, MoveRun, EnsureContinuation;
      WriteAfterKeeps(db, MoveRun(written, runId, to).value, MoveAndContinue(written, runId, to, now).value);
    }
  }
}
