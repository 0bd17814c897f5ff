/** What comes from outside: commands to a Run, timers that end its waiting, and approvals of tool calls. */
module Decisions {
  import opened Outcomes
  import opened Tables
  import opened RunOps
  import opened WorkOps
  import opened TaskOps
  import opened Store
  import opened Accounting
  import Journals

  // ----- Commands -----

  /** The statuses from which each command may be given. */
  predicate Obeys(command: Command, status: RunStatus)
  {
    match command
    case Pause => !IsTerminal(status) && status != Paused
    case Cancel => !IsTerminal(status)
    case Resume => !IsTerminal(status) && status != Queued && status != Recovering
  }

  /** A command given for the first time succeeds exactly where it may be given: a pause leaves the Run paused, a cancel
      cancelled, and a resume running if it was running, paused or waiting, and queued if it was stopped otherwise. */
  lemma CommandLeaves(db: Database, r: RunId, id: string, command: Command, now: Time)
    requires r in db.runs && id !in db.receipts
    ensures var before, m := db.runs[r].status, ExecuteCommand(db, r, id, command, now);
            && (m.Ok? <==> Obeys(command, before))
            && (m.Ok? ==>
                  && r in m.value.runs && id in m.value.receipts && m.value.receipts[id] == Receipt(r, m.value.runs[r])
                  && var after := m.value.runs[r].status;
                     && (command == Pause ==> after == Paused)
                     && (command == Cancel ==> after == Cancelled)
                     && (command == Resume ==>
                           after == if before == Blocked || before == BudgetLimited || before == UsageLimited
                                    then Queued else Running))
  {
    ObeyLeaves(db, r, command, now);
    hide ObeyCommand, Obeys;
  }

  lemma ObeyLeaves(db: Database, r: RunId, command: Command, now: Time)
    requires r in db.runs
    ensures var before, m := db.runs[r].status, ObeyCommand(db, r, command, now);
            && (m.Ok? <==> Obeys(command, before))
            && (m.Ok? ==>
                  && r in m.value.runs
                  && var after := m.value.runs[r].status;
                     && (command == Pause ==> after == Paused)
                     && (command == Cancel ==> after == Cancelled)
                     && (command == Resume ==>
                           after == if before == Blocked || before == BudgetLimited || before == UsageLimited
                                    then Queued else Running))
  {
    hide MoveAndContinue, CanMoveRun, CommandTarget, Obeys;
    var before := db.runs[r].status;
    var to := CommandTarget(command, before);
    TargetsObey(command, before);
    if to.Some? {
      MoveLeaves(db, r, to.value, now);
    }
  }

  lemma TargetsObey(command: Command, status: RunStatus)
    ensures var to := CommandTarget(command, status);
            && (Obeys(command, status) <==> (to.None? || CanMoveRun(status, to.value)))
            && (to.None? ==> command == Resume && status == Running)
            && (Obeys(command, status) && to.Some? ==>
                  to.value == match command
                              case Pause => Paused
                              case Cancel => Cancelled
                              case Resume =>
                                if status == Blocked || status == BudgetLimited || status == UsageLimited then Queued
                                else Running)
  {
  }

  lemma MoveLeaves(db: Database, r: RunId, to: RunStatus, now: Time)
    requires r in db.runs
    ensures var m := MoveAndContinue(db, r, to, now);
            && (m.Ok? <==> CanMoveRun(db.runs[r].status, to))
            && (m.Ok? ==> r in m.value.runs && m.value.runs[r].status == to
                          && (to == Running && GoalIsActive(db, r) ==> r in m.value.actions))
  {
    if CanMoveRun(db.runs[r].status, to) {
      Journals.MoveEffect(db, r, to);
      GoalStays(db, r, to);
    }
    hide CanMoveRun, GoalIsActive;
  }

  lemma GoalStays(db: Database, r: RunId, to: RunStatus)
    requires r in db.runs && MoveRun(db, r, to).Ok?
    ensures r in MoveRun(db, r, to).value.runs
    ensures GoalIsActive(MoveRun(db, r, to).value, r) <==> GoalIsActive(db, r)
  {
    hide CanMoveRun;
  }

  // ----- Timers -----

  predicate IsDue(w: Wake, now: Time) { !w.woken && w.wakeAt <= now }

  /** Some due condition from index `i` on is for the Run. */
  predicate DueFor(wakes: seq<Wake>, i: nat, r: RunId, now: Time)
  {
    exists j :: i <= j < |wakes| && IsDue(wakes[j], now) && wakes[j].runId == r
  }

  /** From index `i` on, the due conditions are marked, and the Runs that waited for one of them run. */
  predicate Awoken(before: Database, after: Database, i: nat, now: Time)
  {
    && |after.wakes| == |before.wakes|
    && (forall j :: 0 <= j < |before.wakes| ==>
          after.wakes[j] == if i <= j && IsDue(before.wakes[j], now) then before.wakes[j].(woken := true)
                            else before.wakes[j])
    && forall r :: r in before.runs ==>
         && r in after.runs
         && after.runs[r].status ==
            if before.runs[r].status == WaitingExternal && DueFor(before.wakes, i, r, now) then Running
            else before.runs[r].status
  }

  lemma OneWakes(db: Database, i: nat, now: Time)
    requires i < |db.wakes| && db.wakes[i].runId in db.runs
    ensures var m := WakeOne(db, i, now);
            && m.Ok? && m.value.wakes == db.wakes[i := db.wakes[i].(woken := true)]
            && m.value.runs.Keys == db.runs.Keys
            && forall r :: r in db.runs ==>
                 m.value.runs[r].status ==
                 if r == db.wakes[i].runId && db.runs[r].status == WaitingExternal then Running else db.runs[r].status
  {
    hide MoveAndContinue, EnsureContinuation, CanMoveRun;
    var r := db.wakes[i].runId;
    var marked := db.(wakes := db.wakes[i := db.wakes[i].(woken := true)]);
    if db.runs[r].status == WaitingExternal {
      WaitingMayRun();
      MoveLeaves(marked, r, Running, now);
      MovesOne(marked, r, Running, now);
    }
  }

  lemma WaitingMayRun()
    ensures CanMoveRun(WaitingExternal, Running)
  {
  }

  lemma MovesOne(db: Database, r: RunId, to: RunStatus, now: Time)
    requires MoveAndContinue(db, r, to, now).Ok?
    ensures var next := MoveAndContinue(db, r, to, now).value;
            next.runs.Keys == db.runs.Keys && next.wakes == db.wakes
            && forall x :: x in db.runs && x != r ==> next.runs[x] == db.runs[x]
  {
    hide CanMoveRun, EnsureContinuation, MoveRun;
    Journals.MoveEffect(db, r, to);
  }

  /** `wakeDueRuns` marks every due condition and no other, and sets running exactly the waiting Runs that one of them
      is for. */
  lemma {:induction false} TimersWake(db: Database, i: nat, now: Time)
    requires i <= |db.wakes| && forall j :: 0 <= j < |db.wakes| ==> db.wakes[j].runId in db.runs
    ensures WakeDueFrom(db, i, now).Ok? && Awoken(db, WakeDueFrom(db, i, now).value, i, now)
    decreases |db.wakes| - i
  {
    hide WakeOne, Awoken;
    if i == |db.wakes| {
      assert Awoken(db, db, i, now) by { NoneDue(db, i, now); }
    } else if !Due(db.wakes[i], now) {
      TimersWake(db, i + 1, now);
      OneLater(db, db, WakeDueFrom(db, i, now).value, i, now);
    } else {
      OneWakes(db, i, now);
      var next := WakeOne(db, i, now).value;
      TimersWake(next, i + 1, now);
      OneLater(db, next, WakeDueFrom(next, i + 1, now).value, i, now);
    }
  }

  lemma NoneDue(db: Database, i: nat, now: Time)
    requires i == |db.wakes|
    ensures Awoken(db, db, i, now)
  {
  }

  lemma OneLater(db: Database, next: Database, after: Database, i: nat, now: Time)
    requires i < |db.wakes| && Awoken(next, after, i + 1, now) && next.runs.Keys == db.runs.Keys
    requires db.wakes[i].runId in db.runs
    requires next.wakes == if IsDue(db.wakes[i], now) then db.wakes[i := db.wakes[i].(woken := true)] else db.wakes
    requires forall r :: r in db.runs ==>
               next.runs[r].status ==
               if IsDue(db.wakes[i], now) && r == db.wakes[i].runId && db.runs[r].status == WaitingExternal then Running
               else db.runs[r].status
    ensures Awoken(db, after, i, now)
  {
    forall r ensures DueFor(db.wakes, i, r, now)
                <==> (IsDue(db.wakes[i], now) && db.wakes[i].runId == r) || DueFor(next.wakes, i + 1, r, now)
    {
      DueLater(db.wakes, next.wakes, i, r, now);
    }
    hide DueFor;
  }

  lemma DueLater(wakes: seq<Wake>, next: seq<Wake>, i: nat, r: RunId, now: Time)
    requires i < |wakes| && |next| == |wakes| && forall j :: i < j < |wakes| ==> next[j] == wakes[j]
    ensures DueFor(wakes, i, r, now) <==> (IsDue(wakes[i], now) && wakes[i].runId == r) || DueFor(next, i + 1, r, now)
  {
  }

  // ----- Approvals -----

  /** An approval stays where it was requested; it is resolved once, and consumed by an intent of its Run once it was
      approved. */
  predicate ApprovalStep(before: map<ApprovalId, Approval>, after: map<ApprovalId, Approval>, op: Op, a: ApprovalId)
  {
    && (a in before ==>
          && a in after && after[a].runId == before[a].runId
          && (after[a].status != before[a].status ==>
                || (before[a].status == ApprovalPending && op == WorkPart(DoResolveApproval(a, after[a].status)))
                || (before[a].status == Approved && after[a].status == Consumed
                    && op.WorkPart? && op.work.DoRecordToolIntent? && op.work.approval == Some(a)
                    && op.work.fence.runId == before[a].runId)))
    && (a !in before && a in after ==> after[a].status == ApprovalPending)
  }

  lemma RequestStep(db: Database, r: RunId, id: ApprovalId, l: Option<Fence>, now: Time, a: ApprovalId)
    ensures var s := RequestApproval(db, r, id, l, now);
            s.Ok? ==> ApprovalStep(db.approvals, s.value.approvals, WorkPart(DoRequestApproval(r, id, l)), a)
  {
    hide AppendEvent, MayWrite;
  }

  lemma ResolveStep(db: Database, id: ApprovalId, to: ApprovalStatus, now: Time, a: ApprovalId)
    requires to == Approved || to == Rejected || to == Expired
    ensures var s := ResolveApproval(db, id, to, now);
            s.Ok? ==> ApprovalStep(db.approvals, s.value.approvals, WorkPart(DoResolveApproval(id, to)), a)
  {
    hide AppendEvent, MoveAndContinue, AwaitsApproval;
  }

  lemma IntentApprovals(db: Database, f: Fence, id: ToolCallId, x: Option<ApprovalId>, now: Time)
    requires RecordToolIntent(db, f, id, x, now).Ok?
    ensures var next := RecordToolIntent(db, f, id, x, now).value;
            || next.approvals == db.approvals
            || (x.Some? && Authorizes(db, x.value, f.runId)
                && next.approvals == db.approvals[x.value := Approval(f.runId, Consumed)])
  {
    hide AppendEvent, Charge, LeaseHolds, OutOfBudget;
  }

  lemma IntentStep(db: Database, f: Fence, id: ToolCallId, x: Option<ApprovalId>, now: Time, a: ApprovalId)
    ensures var s := RecordToolIntent(db, f, id, x, now);
            s.Ok? ==> ApprovalStep(db.approvals, s.value.approvals, WorkPart(DoRecordToolIntent(f, id, x)), a)
  {
    hide RecordToolIntent;
    if RecordToolIntent(db, f, id, x, now).Ok? {
      IntentApprovals(db, f, id, x, now);
    }
  }

  lemma StepApproval(db: Database, e: Entry, a: ApprovalId)
    ensures ApprovalStep(db.approvals, Next(db, e).approvals, e.op, a)
  {
    hide RunStep, TaskStep, ResolveApproval, RequestApproval, RecordToolIntent, ApprovalStep;
    Frames(db, e);
    if TouchesApprovals(e.op) && Commits(db, e) {
      match e.op.work
      case DoRecordToolIntent(f, id, x) => IntentStep(db, f, id, x, e.now, a);
      case DoRequestApproval(r, id, l) => RequestStep(db, r, id, l, e.now, a);
      case DoResolveApproval(id, to) => ResolveStep(db, id, to, e.now, a);
    } else {
      assert ApprovalStep(db.approvals, db.approvals, e.op, a) by { NothingStep(db.approvals, e.op, a); }
    }
  }

  lemma NothingStep(approvals: map<ApprovalId, Approval>, op: Op, a: ApprovalId)
    ensures ApprovalStep(approvals, approvals, op, a)
  {
  }

  /** Turned down, out of time, or used up. */
  predicate Closed(db: Database, a: ApprovalId)
  {
    a in db.approvals
    && (db.approvals[a].status == Rejected || db.approvals[a].status == Expired || db.approvals[a].status == Consumed)
  }

  /** An intent starts a call on an approval only if it is approved, for the Run of the intent, and it is then used up.
      */
  lemma SpendingUses(db: Database, e: Entry, a: ApprovalId)
    requires Spends(db, e, a)
    ensures a in db.approvals && db.approvals[a] == Approval(e.op.work.fence.runId, Approved)
    ensures a in Next(db, e).approvals && Next(db, e).approvals[a] == Approval(e.op.work.fence.runId, Consumed)
  {
    var op := e.op.work;
    assert Step(db, e) == RecordToolIntent(db, op.fence, op.callId, Some(a), e.now);
    hide Step, AppendEvent, Charge, LeaseHolds, OutOfBudget;
  }

  /** A rejected, expired or consumed approval stays so in every history, and starts no call. */
  lemma {:induction false} ClosedForever(db: Database, history: seq<Entry>, a: ApprovalId)
    requires Closed(db, a)
    ensures a in Play(db, history).approvals && Play(db, history).approvals[a] == db.approvals[a]
    ensures forall i :: 0 <= i < |history| ==> !Spends(Play(db, history[..i]), history[i], a)
    decreases |history|
  {
    hide Next, Spends, ApprovalStep;
    if history != [] {
      var n := |history| - 1;
      var before := Play(db, history[..n]);
      ClosedForever(db, history[..n], a);
      assert forall i :: 0 <= i < n ==> history[..n][..i] == history[..i];
      ClosedStays(before, history[n], a);
    }
  }

  lemma ClosedStays(db: Database, e: Entry, a: ApprovalId)
    requires Closed(db, a)
    ensures a in Next(db, e).approvals && Next(db, e).approvals[a] == db.approvals[a] && !Spends(db, e, a)
  {
    hide Next, Spends;
    StepApproval(db, e, a);
    if Spends(db, e, a) {
      SpendingUses(db, e, a);
    }
  }

  predicate ApprovedAt(history: seq<Entry>, i: nat, a: ApprovalId)
    requires i < |history|
  {
    history[i].op == WorkPart(DoResolveApproval(a, Approved)) && Commits(Play(EMPTY_DATABASE, history[..i]), history[i])
  }

  /** What is approved was approved by somebody: a committed resolution of the history says so. */
  lemma {:induction false} ApprovedBySomebody(history: seq<Entry>, a: ApprovalId)
    requires var db := Play(EMPTY_DATABASE, history); a in db.approvals && db.approvals[a].status == Approved
    ensures exists i :: 0 <= i < |history| && ApprovedAt(history, i, a)
    decreases |history|
  {
    hide Next, Commits;
    if history != [] {
      var n := |history| - 1;
      var before, e := Play(EMPTY_DATABASE, history[..n]), history[n];
      assert Next(before, e) == Play(EMPTY_DATABASE, history);
      hide Play;
      if a in before.approvals && before.approvals[a].status == Approved {
        ApprovedBySomebody(history[..n], a);
        var i :| 0 <= i < n && ApprovedAt(history[..n], i, a);
        assert history[..n][..i] == history[..i];
        assert ApprovedAt(history, i, a);
      } else {
        ApprovedNow(before, e, a);
        assert ApprovedAt(history, n, a);
      }
    }
  }

  lemma ApprovedNow(db: Database, e: Entry, a: ApprovalId)
    requires a in Next(db, e).approvals && Next(db, e).approvals[a].status == Approved
    requires !(a in db.approvals && db.approvals[a].status == Approved)
    ensures e.op == WorkPart(DoResolveApproval(a, Approved)) && Commits(db, e)
  {
    StepApproval(db, e, a);
    OnlyCommitsChange(db, e);
    hide Next, Commits;
  }

  lemma OnlyCommitsChange(db: Database, e: Entry)
    ensures !Commits(db, e) ==> Next(db, e) == db
  {
    hide Step;
  }

  /** An approval is resolved once, as asked; the last of a waiting Run's approvals to be resolved, whichever way, sets
      the Run running, with its continuation offered if its goal is active. */
  lemma ResolutionWakes(db: Database, a: ApprovalId, to: ApprovalStatus, now: Time)
    requires to == Approved || to == Rejected || to == Expired
    requires a in db.approvals && db.approvals[a].runId in db.runs
    ensures var r, m := db.approvals[a].runId, ResolveApproval(db, a, to, now);
            && (m.Ok? <==> db.approvals[a].status == ApprovalPending)
            && (m.Ok? ==>
                  && m.value.approvals == db.approvals[a := Approval(r, to)]
                  && r in m.value.runs
                  && var last := forall b :: b in db.approvals && b != a && db.approvals[b].runId == r ==>
                                   db.approvals[b].status != ApprovalPending;
                     && m.value.runs[r].status ==
                        (if last && db.runs[r].status == WaitingExternal then Running else db.runs[r].status)
                     && (last && db.runs[r].status == WaitingExternal && GoalIsActive(db, r) ==> r in m.value.actions))
  {
    if db.approvals[a].status == ApprovalPending {
      var r := db.approvals[a].runId;
      var resolved := AppendEvent(db.(approvals := db.approvals[a := db.approvals[a].(status := to)]), r,
                                  ApprovalResolved, None);
      assert resolved.runs[r].status == db.runs[r].status && (GoalIsActive(resolved, r) <==> GoalIsActive(db, r));
      hide AppendEvent, MoveAndContinue, GoalIsActive;
      OthersAwait(db, resolved, a, r, to);
      hide AwaitsApproval;
      MoveLeaves(resolved, r, Running, now);
    }
  }

  lemma OthersAwait(db: Database, resolved: Database, a: ApprovalId, r: RunId, to: ApprovalStatus)
    requires resolved.approvals == db.approvals[a := Approval(r, to)] && to != ApprovalPending
    ensures !AwaitsApproval(resolved, r)
       <==> forall b :: b in db.approvals && b != a && db.approvals[b].runId == r ==>
              db.approvals[b].status != ApprovalPending
  {
    forall b | b in db.approvals && b != a ensures b in resolved.approvals && resolved.approvals[b] == db.approvals[b] {
    }
  }
}
