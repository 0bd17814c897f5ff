/** What a Run has used: every charge is made once, and the sum is the Run's usage. */
module Accounting {
  import opened Outcomes
  import opened Tables
  import opened Budgets
  import opened RunOps
  import opened WorkOps
  import opened TaskOps
  import opened Store
  import opened Journals
  import opened JournalSteps
  import opened Histories

  // ----- The bill of one step -----

  /** A committed unkeyed record of usage. */
  function UnkeyedCharge(db: Database, e: Entry, r: RunId): Usage
  {
    if Commits(db, e) && e.op.WorkPart? then
      match e.op.work
      case DoRecordUsage(runId, delta) => if runId == r then delta else NoUsage()
      case DoRecordUsageFenced(fence, delta, entry) =>
        if fence.runId == r && entry.None? then delta else NoUsage()
      case _ => NoUsage()
    else NoUsage()
  }

  /** A committed tool intent, accepted or refused. */
  predicate IsIntent(db: Database, e: Entry, r: RunId)
  {
    Commits(db, e) && e.op.WorkPart? && e.op.work.DoRecordToolIntent? && e.op.work.fence.runId == r
  }

  function KeyedTotal(entries: seq<UsageEntry>, r: RunId): Usage
  {
    if entries == [] then NoUsage()
    else
      var n := |entries| - 1;
      AddUsage(KeyedTotal(entries[..n], r), if entries[n].runId == r then entries[n].delta else NoUsage())
  }

  // ----- The bill of a history -----

  function Unkeyed(db: Database, history: seq<Entry>, r: RunId): Usage
  {
    if history == [] then NoUsage()
    else
      var n := |history| - 1;
      AddUsage(Unkeyed(db, history[..n], r), UnkeyedCharge(Play(db, history[..n]), history[n], r))
  }

  function Intents(db: Database, history: seq<Entry>, r: RunId): nat
  {
    if history == [] then 0
    else
      var n := |history| - 1;
      Intents(db, history[..n], r) + if IsIntent(Play(db, history[..n]), history[n], r) then 1 else 0
  }

  predicate Accounted(db: Database, unkeyed: Usage, intents: nat, r: RunId)
  {
    var bill := AddUsage(AddUsage(KeyedTotal(db.usageEntries, r), unkeyed), Calls(intents));
    bill == if r in db.runs then db.runs[r].usage else NoUsage()
  }

  // ----- What a charge does -----

  lemma ChargeBills(db: Database, runId: RunId, delta: Usage, r: RunId)
    requires Charge(db, runId, delta).Ok?
    ensures var next := Charge(db, runId, delta).value;
            && runId in db.runs && (r in next.runs <==> r in db.runs)
            && (r in db.runs ==>
                  && next.runs[r].budget == db.runs[r].budget
                  && next.runs[r].usage
                     == if r == runId then AddUsage(db.runs[r].usage, delta) else db.runs[r].usage)
  {
    var run := db.runs[runId];
    var charged := db.(runs := db.runs[runId := run.(usage := AddUsage(run.usage, delta))]);
    hide MoveRun, AddUsage, Allowed, ValidCosts, KeepsJournals;
    if Charge(db, runId, delta).value != charged {
      WriteAndMoveKeeps(charged, charged, runId, BudgetLimited);
      assert Unbilled(charged, Charge(db, runId, delta).value, r);
    }
  }

  lemma KeyedTotalGrows(entries: seq<UsageEntry>, row: UsageEntry, r: RunId)
    ensures KeyedTotal(entries + [row], r)
            == AddUsage(KeyedTotal(entries, r), if row.runId == r then row.delta else NoUsage())
  {
    assert (entries + [row])[..|entries|] == entries;
  }

  /** A charge may enter the bill as any of its three parts. */
  lemma Regroup(keyed: Usage, unkeyed: Usage, intents: nat, delta: Usage)
    ensures var bill := AddUsage(AddUsage(keyed, unkeyed), Calls(intents));
            && AddUsage(bill, delta) == AddUsage(AddUsage(AddUsage(keyed, delta), unkeyed), Calls(intents))
            && AddUsage(bill, delta) == AddUsage(AddUsage(keyed, AddUsage(unkeyed, delta)), Calls(intents))
            && AddUsage(bill, Calls(1)) == AddUsage(AddUsage(keyed, unkeyed), Calls(intents + 1))
            && AddUsage(unkeyed, NoUsage()) == unkeyed && AddUsage(keyed, NoUsage()) == keyed
  {
  }

  lemma FencedUsageAccounted(db: Database, fence: Fence, delta: Usage, entry: Option<EntryKey>, now: Time,
                             unkeyed: Usage, intents: nat, r: RunId)
    requires Accounted(db, unkeyed, intents, r) && RecordUsageFenced(db, fence, delta, entry, now).Ok?
    ensures var next := RecordUsageFenced(db, fence, delta, entry, now).value;
            var more := if fence.runId == r && entry.None? then delta else NoUsage();
            Accounted(next, AddUsage(unkeyed, more), intents, r)
  {
    hide LeaseHolds, HasEntry, Charge, KeyedTotal, AddUsage, Accounted;
    Regroup(KeyedTotal(db.usageEntries, r), unkeyed, intents, delta);
    if entry.None? {
      ChargeAccounted(db, fence.runId, delta, unkeyed, intents, r);
    } else if !HasEntry(db, fence.runId, entry.value.key) {
      var row := UsageEntry(fence.runId, entry.value.key, entry.value.agent, delta);
      KeyedAccounted(db, row, unkeyed, intents, r);
    }
  }

  lemma KeyedAccounted(db: Database, row: UsageEntry, unkeyed: Usage, intents: nat, r: RunId)
    requires Accounted(db, unkeyed, intents, r)
    requires Charge(db.(usageEntries := db.usageEntries + [row]), row.runId, row.delta).Ok?
    ensures Accounted(Charge(db.(usageEntries := db.usageEntries + [row]), row.runId, row.delta).value, unkeyed,
        intents, r)
  {
    hide Charge, KeyedTotal, AddUsage;
    var written := db.(usageEntries := db.usageEntries + [row]);
    ChargeBills(written, row.runId, row.delta, r);
    KeyedTotalGrows(db.usageEntries, row, r);
    Regroup(KeyedTotal(db.usageEntries, r), unkeyed, intents, row.delta);
  }

  lemma ChargeAccounted(db: Database, runId: RunId, delta: Usage, unkeyed: Usage, intents: nat, r: RunId)
    requires Accounted(db, unkeyed, intents, r) && Charge(db, runId, delta).Ok?
    ensures Accounted(Charge(db, runId, delta).value, AddUsage(unkeyed, if runId == r then delta else NoUsage()),
                      intents, r)
  {
    hide Charge, KeyedTotal, AddUsage;
    ChargeBills(db, runId, delta, r);
    Regroup(KeyedTotal(db.usageEntries, r), unkeyed, intents, delta);
  }

  lemma IntentAccounted(db: Database, fence: Fence, id: ToolCallId, approval: Option<ApprovalId>, now: Time,
                        unkeyed: Usage, intents: nat, r: RunId)
    requires Accounted(db, unkeyed, intents, r) && RecordToolIntent(db, fence, id, approval, now).Ok?
    ensures var next := RecordToolIntent(db, fence, id, approval, now).value;
            Accounted(next, unkeyed, intents + (if fence.runId == r then 1 else 0), r)
  {
    hide KeepsJournals, RecordToolIntent, Charge, KeyedTotal, AddUsage;
    IntentKeeps(db, fence, id, approval, now);
    var next := RecordToolIntent(db, fence, id, approval, now).value;
    var charged := Charge(db, fence.runId, Calls(1)).value;
    ChargeBills(db, fence.runId, Calls(1), r);
    Regroup(KeyedTotal(db.usageEntries, r), unkeyed, intents, Calls(1));
    assert Unbilled(charged, next, r);
  }

  lemma StepAccounted(db: Database, e: Entry, unkeyed: Usage, intents: nat, r: RunId)
    requires Accounted(db, unkeyed, intents, r)
    ensures Accounted(Next(db, e), AddUsage(unkeyed, UnkeyedCharge(db, e, r)),
                      intents + (if IsIntent(db, e, r) then 1 else 0), r)
  {
    hide Accounted, Charge, RecordUsageFenced, RecordToolIntent, AddUsage;
    Regroup(unkeyed, unkeyed, intents, NoUsage());
    if !TouchesUsage(e.op) || !Commits(db, e) {
      UntouchedAccounted(db, e, unkeyed, intents, r);
    } else {
      match e.op.work
      case DoRecordUsage(runId, delta) => ChargeAccounted(db, runId, delta, unkeyed, intents, r);
      case DoRecordUsageFenced(f, d, x) => FencedUsageAccounted(db, f, d, x, e.now, unkeyed, intents, r);
      case DoRecordToolIntent(f, id, a) => IntentAccounted(db, f, id, a, e.now, unkeyed, intents, r);
    }
  }

  lemma UntouchedAccounted(db: Database, e: Entry, unkeyed: Usage, intents: nat, r: RunId)
    requires Accounted(db, unkeyed, intents, r) && (!TouchesUsage(e.op) || !Commits(db, e))
    ensures Accounted(Next(db, e), AddUsage(unkeyed, UnkeyedCharge(db, e, r)),
                      intents + (if IsIntent(db, e, r) then 1 else 0), r)
  {
    hide Step, KeyedTotal, AddUsage;
    Regroup(unkeyed, unkeyed, intents, NoUsage());
    if Commits(db, e) {
      Frames(db, e);
      StepUnbilled(db, e, r);
      assert r in db.runs ==> r in Next(db, e).runs;
    }
  }

  lemma BillGrows(db: Database, history: seq<Entry>, r: RunId)
    requires history != []
    ensures var n := |history| - 1;
            var before := Play(db, history[..n]);
            && Play(db, history) == Next(before, history[n])
            && Unkeyed(db, history, r) == AddUsage(Unkeyed(db, history[..n], r), UnkeyedCharge(before, history[n], r))
            && Intents(db, history, r)
               == Intents(db, history[..n], r) + (if IsIntent(before, history[n], r) then 1 else 0)
  {
    hide AddUsage, UnkeyedCharge, IsIntent, Next;
  }

  lemma EmptyAccounted(r: RunId)
    ensures Accounted(EMPTY_DATABASE, NoUsage(), 0, r)
  {
  }

  /** In every history a Run's usage is the sum of its keyed entries, of its unkeyed records, and of one tool call for
      every committed intent, refused ones included. */
  lemma {:induction false} UsageIsAccounted(history: seq<Entry>, r: RunId)
    ensures Accounted(Play(EMPTY_DATABASE, history), Unkeyed(EMPTY_DATABASE, history, r),
                      Intents(EMPTY_DATABASE, history, r), r)
    decreases |history|
  {
    if history == [] {
      EmptyAccounted(r);
      hide Accounted;
    } else {
      var n := |history| - 1;
      UsageIsAccounted(history[..n], r);
      BillGrows(EMPTY_DATABASE, history, r);
      StepAccounted(Play(EMPTY_DATABASE, history[..n]), history[n], Unkeyed(EMPTY_DATABASE, history[..n], r),
                    Intents(EMPTY_DATABASE, history[..n], r), r);
      hide Accounted, Next, Play, Unkeyed, Intents, UnkeyedCharge, IsIntent;
    }
  }

  // ----- Replays -----

  lemma {:induction false} ReceiptsStay(db: Database, history: seq<Entry>, id: string)
    requires id in db.receipts
    ensures id in Play(db, history).receipts && Play(db, history).receipts[id] == db.receipts[id]
    decreases |history|
  {
    hide Next;
    if history != [] {
      var n := |history| - 1;
      ReceiptsStay(db, history[..n], id);
      StepKeepsReceipt(Play(db, history[..n]), history[n], id);
    }
  }

  lemma StepKeepsReceipt(db: Database, e: Entry, id: string)
    requires id in db.receipts
    ensures id in Next(db, e).receipts && Next(db, e).receipts[id] == db.receipts[id]
  {
    hide WorkStep, TaskStep, ObeyCommand, AppendEvent;
    Frames(db, e);
    if e.op.RunPart? && e.op.run.DoExecuteCommand? {
      var op := e.op.run;
      assert Step(db, e) == ExecuteCommand(db, op.runId, op.commandId, op.command, e.now);
      hide Step;
    }
  }

  /** A command id that succeeded once for its Run changes nothing when it is replayed, however much later. */
  lemma CommandReplay(db: Database, history: seq<Entry>, runId: RunId, commandId: string, command: Command, now: Time)
    requires AlreadyExecuted(db, runId, commandId)
    ensures var later := Play(db, history);
            Next(later, Entry(RunPart(DoExecuteCommand(runId, commandId, command)), now)) == later
  {
    hide Play, ObeyCommand;
    ReceiptsStay(db, history, commandId);
  }

  /** Keyed entries are only added, and one (Run, key) has at most one. */
  predicate OneEntryPerKey(entries: seq<UsageEntry>)
  {
    forall i, j :: 0 <= i < j < |entries| ==> entries[i].runId != entries[j].runId || entries[i].key != entries[j].key
  }

  lemma StepEntries(db: Database, e: Entry)
    ensures db.usageEntries <= Next(db, e).usageEntries
    ensures OneEntryPerKey(db.usageEntries) ==> OneEntryPerKey(Next(db, e).usageEntries)
  {
    hide OneEntryPerKey, Step;
    Frames(db, e);
    if Commits(db, e) && TouchesUsage(e.op) {
      UsageEntriesStep(db, e);
    }
  }

  lemma UsageEntriesStep(db: Database, e: Entry)
    requires Commits(db, e) && TouchesUsage(e.op)
    ensures db.usageEntries <= Next(db, e).usageEntries
    ensures OneEntryPerKey(db.usageEntries) ==> OneEntryPerKey(Next(db, e).usageEntries)
  {
    hide OneEntryPerKey, Charge, RecordUsageFenced, RecordToolIntent;
    if e.op.work.DoRecordUsageFenced? {
      FencedEntries(db, e.op.work.fence, e.op.work.delta, e.op.work.entry, e.now);
    }
  }

  lemma FencedEntries(db: Database, fence: Fence, delta: Usage, entry: Option<EntryKey>, now: Time)
    requires RecordUsageFenced(db, fence, delta, entry, now).Ok?
    ensures var next := RecordUsageFenced(db, fence, delta, entry, now).value;
            && db.usageEntries <= next.usageEntries
            && (OneEntryPerKey(db.usageEntries) ==> OneEntryPerKey(next.usageEntries))
            && (entry.Some? ==> HasEntry(next, fence.runId, entry.value.key))
  {
    hide Charge, LeaseHolds;
    var next := RecordUsageFenced(db, fence, delta, entry, now).value;
    if entry.Some? && !HasEntry(db, fence.runId, entry.value.key) {
      var n := |db.usageEntries|;
      assert next.usageEntries[n].runId == fence.runId && next.usageEntries[n].key == entry.value.key;
    }
  }

  lemma {:induction false} EntriesStay(db: Database, history: seq<Entry>)
    ensures db.usageEntries <= Play(db, history).usageEntries
    ensures OneEntryPerKey(db.usageEntries) ==> OneEntryPerKey(Play(db, history).usageEntries)
    decreases |history|
  {
    hide Next, OneEntryPerKey;
    if history != [] {
      var n := |history| - 1;
      EntriesStay(db, history[..n]);
      StepEntries(Play(db, history[..n]), history[n]);
    }
  }

  /** A usage key that was charged once charges nothing when its turn is replayed, however much later. */
  lemma KeyedReplay(db: Database, history: seq<Entry>, fence: Fence, delta: Usage, entry: EntryKey, now: Time)
    requires HasEntry(db, fence.runId, entry.key)
    ensures var later := Play(db, history);
            Next(later, Entry(WorkPart(DoRecordUsageFenced(fence, delta, Some(entry))), now)) == later
  {
    hide Play, Charge, LeaseHolds;
    EntriesStay(db, history);
    var later := Play(db, history);
    var i :| 0 <= i < |db.usageEntries| && db.usageEntries[i].runId == fence.runId
        && db.usageEntries[i].key == entry.key;
    assert later.usageEntries[i] == db.usageEntries[i];
    assert HasEntry(later, fence.runId, entry.key);
  }

  // ----- Approvals -----

  /** The step starts a tool call on the strength of the approval. */
  predicate Spends(db: Database, e: Entry, a: ApprovalId)
  {
    && e.op.WorkPart? && e.op.work.DoRecordToolIntent? && e.op.work.approval == Some(a)
    && IntentAccepted(db, e.op.work.fence, e.op.work.callId, Some(a), e.now)
  }

  function Spendings(db: Database, history: seq<Entry>, a: ApprovalId): nat
  {
    if history == [] then 0
    else
      var n := |history| - 1;
      Spendings(db, history[..n], a) + if Spends(Play(db, history[..n]), history[n], a) then 1 else 0
  }

  predicate IsSpent(db: Database, a: ApprovalId) { a in db.approvals && db.approvals[a].status == Consumed }

  lemma StepSpends(db: Database, e: Entry, a: ApprovalId)
    ensures IsSpent(db, a) ==> IsSpent(Next(db, e), a) && !Spends(db, e, a)
    ensures Spends(db, e, a) ==> IsSpent(Next(db, e), a)
  {
    hide RunStep, TaskStep, ResolveApproval, RequestApproval, RecordToolIntent;
    Frames(db, e);
    if TouchesApprovals(e.op) && Commits(db, e) {
      match e.op.work
      case DoRecordToolIntent(f, id, x) => IntentSpends(db, f, id, x, e.now, a);
      case DoRequestApproval(r, id, l) => RequestSpends(db, r, id, l, e.now, a);
      case DoResolveApproval(id, to) => ResolveSpends(db, id, to, e.now, a);
    }
  }

  lemma RequestSpends(db: Database, r: RunId, id: ApprovalId, l: Option<Fence>, now: Time, a: ApprovalId)
    ensures var s := RequestApproval(db, r, id, l, now); s.Ok? && IsSpent(db, a) ==> IsSpent(s.value, a)
  {
    hide AppendEvent, MayWrite;
  }

  lemma ResolveSpends(db: Database, id: ApprovalId, to: ApprovalStatus, now: Time, a: ApprovalId)
    requires to == Approved || to == Rejected || to == Expired
    ensures var s := ResolveApproval(db, id, to, now); s.Ok? && IsSpent(db, a) ==> IsSpent(s.value, a)
  {
    hide AppendEvent, MoveAndContinue, AwaitsApproval;
  }

  lemma IntentSpends(db: Database, f: Fence, id: ToolCallId, x: Option<ApprovalId>, now: Time, a: ApprovalId)
    requires RecordToolIntent(db, f, id, x, now).Ok?
    ensures var next := RecordToolIntent(db, f, id, x, now).value;
            && (IsSpent(db, a) ==> IsSpent(next, a))
            && (x == Some(a) && id in next.toolCalls && id !in db.toolCalls ==> IsSpent(next, a) && !IsSpent(db, a))
  {
    hide AppendEvent, Charge, LeaseHolds, OutOfBudget;
  }

  lemma {:induction false} SpendingsBound(db: Database, history: seq<Entry>, a: ApprovalId)
    ensures Spendings(db, history, a) <= 1
    ensures Spendings(db, history, a) == 1 ==> IsSpent(Play(db, history), a)
    ensures IsSpent(db, a) ==> Spendings(db, history, a) == 0 && IsSpent(Play(db, history), a)
    decreases |history|
  {
    hide Next, Spends, IsSpent;
    if history != [] {
      var n := |history| - 1;
      SpendingsBound(db, history[..n], a);
      StepSpends(Play(db, history[..n]), history[n], a);
    }
  }

  /** In every history an approval starts at most one tool call. */
  lemma ApprovalAuthorizesOnce(db: Database, history: seq<Entry>, a: ApprovalId)
    ensures Spendings(db, history, a) <= 1
  {
    SpendingsBound(db, history, a);
  }

  // ----- The budget in front of a tool -----

  /** What a charge of one call makes of a Run. */
  lemma OneCallCharged(db: Database, r: RunId)
    requires Charge(db, r, Calls(1)).Ok?
    ensures var next := Charge(db, r, Calls(1)).value;
            && r in next.runs
            && next.runs[r].usage == AddUsage(db.runs[r].usage, Calls(1)) && next.runs[r].budget == db.runs[r].budget
            && next.approvals == db.approvals && next.toolCalls == db.toolCalls
            && next.runs[r].status ==
               if db.runs[r].status == Running && !Allowed(db.runs[r].budget, next.runs[r].usage) then BudgetLimited
               else db.runs[r].status
  {
    hide AddUsage, Allowed, Journals.Replay;
    var run := db.runs[r];
    var charged := db.(runs := db.runs[r := run.(usage := AddUsage(run.usage, Calls(1)))]);
    if Charge(db, r, Calls(1)).value != charged {
      MoveEffect(charged, r, BudgetLimited);
      hide MoveRun;
    }
  }

  /** An intent whose fence, approval and id are in order starts its tool exactly when the Run is not limited and, if it
      is running, its budget still allows general work with this call counted. A Run in any other status is not
      held to its budget. */
  lemma IntentStartsIff(db: Database, fence: Fence, id: ToolCallId, approval: Option<ApprovalId>, now: Time)
    requires LeaseHolds(db, fence, now) && Charge(db, fence.runId, Calls(1)).Ok? && id !in db.toolCalls
    requires approval.Some? ==> Authorizes(db, approval.value, fence.runId)
    ensures var run := db.runs[fence.runId];
            IntentAccepted(db, fence, id, approval, now) <==>
              && run.status != BudgetLimited && run.status != UsageLimited
              && (run.status == Running ==> Allowed(run.budget, AddUsage(run.usage, Calls(1))))
  {
    hide Charge, AddUsage, Allowed, Consume, AppendEvent, LeaseHolds;
    OneCallCharged(db, fence.runId);
  }
}
