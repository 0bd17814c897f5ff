/** What holds of a Run over every history of the store: its journal, its terminal states, its completion. */
module Histories {
  import opened Outcomes
  import opened Tables
  import opened RunOps
  import opened WorkOps
  import opened TaskOps
  import opened Store
  import opened Journals
  import opened JournalSteps

  // ----- Completion -----

  predicate Proposes(op: Op, r: RunId)
  {
    op.WorkPart? && op.work.DoProposeCompletion? && op.work.runId == r && op.work.accepted && op.work.verified
  }

  /** Completion has been earned: every obligation proven or waived, no validation failed, an independent one passed,
      and work was under way. */
  predicate Earned(db: Database, r: RunId)
  {
    r in db.runs && db.runs[r].status == Running && Completable(db, r)
  }

  predicate ProposalKeepsRun(db: Database, next: Database, op: Op, r: RunId)
  {
    && Moves(db, next, r)
    && (r in next.runs && next.runs[r].status == Completed ==>
          r in db.runs && (db.runs[r].status == Completed || (Proposes(op, r) && Earned(db, r))))
  }

  lemma ProposeKeeps(db: Database, op: WorkOp, now: Time)
    requires op.DoProposeCompletion?
    ensures var r := WorkStep(db, op, now);
            r.Ok? ==> forall id :: ProposalKeepsRun(db, r.value, WorkPart(op), id) && Unbilled(db, r.value, id)
  {
    var r := WorkStep(db, op, now);
    hide Completable, MayWrite, FaithfulFor, AppendEvent, MoveRun, Journal;
    if r.Ok? {
      var reported := AppendEvent(db, op.runId, ValidationFinished, None);
      AppendKeeps(db, op.runId, ValidationFinished, None);
      if r.value == reported {
        forall id ensures ProposalKeepsRun(db, r.value, WorkPart(op), id) && Unbilled(db, r.value, id) {
          assert KeepsRun(db, reported, id);
        }
      } else {
        AppendedRuns(db, op.runId, ValidationFinished, None);
        MoveKeeps(reported, op.runId, Completed);
        MoveEffect(reported, op.runId, Completed);
        forall id ensures ProposalKeepsRun(db, r.value, WorkPart(op), id) && Unbilled(db, r.value, id) {
          assert KeepsRun(db, reported, id) && Unbilled(db, reported, id) && Moves(reported, r.value, id);
        }
      }
    }
  }

  lemma AppendedRuns(db: Database, runId: RunId, kind: EventKind, generation: Option<nat>)
    requires runId in db.runs
    ensures AppendEvent(db, runId, kind, generation).runs[runId].status == db.runs[runId].status
  {
  }

  lemma StepKeeps(db: Database, e: Entry)
    ensures forall r :: ProposalKeepsRun(db, Next(db, e), e.op, r)
  {
    hide RunStep, WorkStep, TaskStep, FaithfulFor, Journal, Earned;
    if !Commits(db, e) {
      KeepsFramed(db, db);
      assert forall r :: KeepsRun(db, db, r) ==> ProposalKeepsRun(db, db, e.op, r);
    } else if e.op.WorkPart? && e.op.work.DoProposeCompletion? {
      ProposeKeeps(db, e.op.work, e.now);
    } else {
      match e.op {
        case RunPart(op) => RunStepKeeps(db, op, e.now);
        case WorkPart(op) =>
          if TouchesUsage(e.op) { UsageStepKeeps(db, op, e.now); } else { WorkStepKeeps(db, op, e.now); }
        case TaskPart(op) => TaskStepKeeps(db, op, e.now);
      }
      forall r ensures ProposalKeepsRun(db, Next(db, e), e.op, r) {
        assert KeepsRun(db, Next(db, e), r);
      }
    }
  }

  /** Only the three writes that record usage touch what a Run has used. */
  lemma StepUnbilled(db: Database, e: Entry, r: RunId)
    requires !TouchesUsage(e.op)
    ensures Unbilled(db, Next(db, e), r)
  {
    hide RunStep, WorkStep, TaskStep, KeepsJournals, Unbilled;
    if !Commits(db, e) {
      KeepsFramed(db, db);
    } else if e.op.WorkPart? && e.op.work.DoProposeCompletion? {
      ProposeKeeps(db, e.op.work, e.now);
    } else {
      match e.op
      case RunPart(op) => RunStepKeeps(db, op, e.now);
      case WorkPart(op) => WorkStepKeeps(db, op, e.now);
      case TaskPart(op) => TaskStepKeeps(db, op, e.now);
    }
  }

  // ----- Journals -----

  /** In every history: no Run and no event is lost or rewritten, and journals stay faithful. */
  lemma {:induction false} NothingIsLost(db: Database, history: seq<Entry>, r: RunId)
    ensures Moves(db, Play(db, history), r)
    decreases |history|
  {
    hide Next, FaithfulFor, Journal;
    if history != [] {
      var n := |history| - 1;
      NothingIsLost(db, history[..n], r);
      StepKeeps(Play(db, history[..n]), history[n]);
      assert ProposalKeepsRun(Play(db, history[..n]), Play(db, history), history[n].op, r);
    }
  }

  /** A Run's events always carry the sequences 1..n, and its status is what a reader of them computes. */
  lemma JournalsAreFaithful(history: seq<Entry>, r: RunId)
    ensures FaithfulFor(Play(EMPTY_DATABASE, history), r)
  {
    assert FaithfulFor(EMPTY_DATABASE, r);
    NothingIsLost(EMPTY_DATABASE, history, r);
  }

  /** No event follows a terminal status with another one. */
  lemma {:induction false} TerminalReplay(journal: seq<Event>, more: seq<Event>, status: RunStatus)
    requires journal <= more && Replay(journal) == Some(status) && IsTerminal(status)
    requires Replay(more).Some?
    ensures Replay(more) == Some(status)
    decreases |more|
  {
    if more != journal {
      var n := |more| - 1;
      assert journal <= more[..n];
      TerminalReplay(journal, more[..n], status);
    }
  }

  /** A failed, completed or cancelled Run never changes status again. */
  lemma TerminalForever(db: Database, history: seq<Entry>, r: RunId)
    requires FaithfulFor(db, r) && r in db.runs && IsTerminal(db.runs[r].status)
    ensures r in Play(db, history).runs && Play(db, history).runs[r].status == db.runs[r].status
  {
    NothingIsLost(db, history, r);
    hide Play;
    TerminalReplay(Journal(db, r), Journal(Play(db, history), r), db.runs[r].status);
  }

  /** A Run is completed only through a proposal that was accepted and verified when it had been earned. */
  lemma {:induction false} CompletionIsEarned(history: seq<Entry>, r: RunId)
    requires r in Play(EMPTY_DATABASE, history).runs
    requires Play(EMPTY_DATABASE, history).runs[r].status == Completed
    ensures exists i :: 0 <= i < |history|
                        && Proposes(history[i].op, r) && Earned(Play(EMPTY_DATABASE, history[..i]), r)
    decreases |history|
  {
    hide Next, Earned;
    if history != [] {
      var n := |history| - 1;
      var before := Play(EMPTY_DATABASE, history[..n]);
      StepKeeps(before, history[n]);
      assert ProposalKeepsRun(before, Play(EMPTY_DATABASE, history), history[n].op, r);
      if before.runs[r].status == Completed {
        CompletionIsEarned(history[..n], r);
        var i :| 0 <= i < n && Proposes(history[..n][i].op, r)
                 && Earned(Play(EMPTY_DATABASE, history[..n][..i]), r);
        assert history[..n][..i] == history[..i];
        assert Proposes(history[i].op, r);
      }
    }
  }
}
