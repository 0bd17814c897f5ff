/** Per-agent shares of a Run's keyed usage. */
module Shares {
  import opened Tables
  import opened Budgets
  import opened Accounting

  /** An entry without an agent is filed under the empty name. */
  function FiledUnder(entry: UsageEntry): string
  {
    if entry.agent.None? then "" else entry.agent.value
  }

  function AgentTotal(entries: seq<UsageEntry>, r: RunId, name: string): Usage
  {
    if entries == [] then NoUsage()
    else
      var n := |entries| - 1;
      AddUsage(AgentTotal(entries[..n], r, name),
               if entries[n].runId == r && FiledUnder(entries[n]) == name then entries[n].delta else NoUsage())
  }

  predicate Appears(entries: seq<UsageEntry>, r: RunId, name: string)
  {
    exists i :: 0 <= i < |entries| && entries[i].runId == r && FiledUnder(entries[i]) == name
  }

  /** What one more entry does to every agent's appearance and total. */
  lemma StepShares(entries: seq<UsageEntry>, entry: UsageEntry, r: RunId)
    ensures forall x :: Appears(entries + [entry], r, x) <==>
                        Appears(entries, r, x) || (entry.runId == r && FiledUnder(entry) == x)
    ensures forall x :: AgentTotal(entries + [entry], r, x) ==
                        if entry.runId == r && FiledUnder(entry) == x then
                            AddUsage(AgentTotal(entries, r, x), entry.delta)
                        else AgentTotal(entries, r, x)
    ensures KeyedTotal(entries + [entry], r) ==
            if entry.runId == r then AddUsage(KeyedTotal(entries, r), entry.delta) else KeyedTotal(entries, r)
  {
    hide AddUsage;
    var all := entries + [entry];
    assert all[..|entries|] == entries && all[|entries|] == entry;
    forall x
      ensures Appears(all, r, x) <==> Appears(entries, r, x) || (entry.runId == r && FiledUnder(entry) == x)
      ensures AgentTotal(all, r, x) ==
              if entry.runId == r && FiledUnder(entry) == x then AddUsage(AgentTotal(entries, r, x), entry.delta)
              else AgentTotal(entries, r, x)
    {
      AddUsageLaws(AgentTotal(entries, r, x), NoUsage(), NoUsage());
      if Appears(entries, r, x) {
        var i :| 0 <= i < |entries| && entries[i].runId == r && FiledUnder(entries[i]) == x;
        assert all[i] == entries[i];
      }
    }
    AddUsageLaws(KeyedTotal(entries, r), NoUsage(), NoUsage());
  }

  predicate AreDistinct(names: seq<string>) { forall i, j :: 0 <= i < j < |names| ==> names[i] != names[j] }

  function TotalOf(names: seq<string>, totals: map<string, Usage>): Usage
    requires forall x :: x in names ==> x in totals
  {
    if names == [] then NoUsage()
    else
      var n := |names| - 1;
      AddUsage(TotalOf(names[..n], totals), totals[names[n]])
  }

  lemma {:induction false} TotalUnchanged(names: seq<string>, totals: map<string, Usage>, name: string, usage: Usage)
    requires name !in names && forall x :: x in names ==> x in totals
    ensures TotalOf(names, totals[name := usage]) == TotalOf(names, totals)
  {
    hide AddUsage;
    if names != [] {
      TotalUnchanged(names[..|names| - 1], totals, name, usage);
    }
  }

  lemma {:induction false} TotalAdds(names: seq<string>, totals: map<string, Usage>, name: string, delta: Usage)
    requires AreDistinct(names) && name in names && forall x :: x in names ==> x in totals
    ensures TotalOf(names, totals[name := AddUsage(totals[name], delta)]) == AddUsage(TotalOf(names, totals), delta)
    decreases |names|
  {
    hide AddUsage;
    var n := |names| - 1;
    var added := totals[name := AddUsage(totals[name], delta)];
    if names[n] == name {
      TotalUnchanged(names[..n], totals, name, AddUsage(totals[name], delta));
      AddUsageLaws(TotalOf(names[..n], totals), totals[name], delta);
    } else {
      TotalAdds(names[..n], totals, name, delta);
      var rest, last := TotalOf(names[..n], totals), totals[names[n]];
      AddUsageLaws(rest, delta, last);
      AddUsageLaws(delta, last, rest);
      AddUsageLaws(rest, last, delta);
    }
  }

  /** The shares filed from these entries. */
  ghost predicate SharesOf(entries: seq<UsageEntry>, r: RunId, names: seq<string>, totals: map<string, Usage>)
  {
    && AreDistinct(names)
    && (forall x :: x in names <==> x in totals)
    && (forall x :: x in names <==> Appears(entries, r, x))
    && (forall x :: x in names ==> totals[x] == AgentTotal(entries, r, x))
    && TotalOf(names, totals) == KeyedTotal(entries, r)
  }

  lemma {:induction false} AbsentTotal(entries: seq<UsageEntry>, r: RunId, name: string)
    requires !Appears(entries, r, name)
    ensures AgentTotal(entries, r, name) == NoUsage()
  {
    hide AddUsage;
    if entries != [] {
      var n := |entries| - 1;
      assert entries[..n] + [entries[n]] == entries;
      StepShares(entries[..n], entries[n], r);
      AbsentTotal(entries[..n], r, name);
    }
  }

  lemma OldShareGrows(entries: seq<UsageEntry>, entry: UsageEntry, r: RunId, names: seq<string>,
      totals: map<string, Usage>)
    requires SharesOf(entries, r, names, totals) && entry.runId == r && FiledUnder(entry) in totals
    ensures var name := FiledUnder(entry);
            SharesOf(entries + [entry], r, names, totals[name := AddUsage(totals[name], entry.delta)])
  {
    hide AddUsage, Appears, AgentTotal, KeyedTotal, FiledUnder;
    StepShares(entries, entry, r);
    TotalAdds(names, totals, FiledUnder(entry), entry.delta);
  }

  lemma NewShareStarts(entries: seq<UsageEntry>, entry: UsageEntry, r: RunId, names: seq<string>,
      totals: map<string, Usage>)
    requires SharesOf(entries, r, names, totals) && entry.runId == r && FiledUnder(entry) !in totals
    ensures var name := FiledUnder(entry);
            SharesOf(entries + [entry], r, names + [name], totals[name := AddUsage(NoUsage(), entry.delta)])
  {
    hide AddUsage, Appears, AgentTotal, KeyedTotal, FiledUnder;
    var name := FiledUnder(entry);
    StepShares(entries, entry, r);
    AbsentTotal(entries, r, name);
    TotalUnchanged(names, totals, name, AddUsage(NoUsage(), entry.delta));
    AddUsageLaws(NoUsage(), entry.delta, NoUsage());
    AddUsageLaws(entry.delta, NoUsage(), NoUsage());
    assert (names + [name])[..|names|] == names;
  }

  lemma OtherRunsEntry(entries: seq<UsageEntry>, entry: UsageEntry, r: RunId, names: seq<string>,
      totals: map<string, Usage>)
    requires SharesOf(entries, r, names, totals) && entry.runId != r
    ensures SharesOf(entries + [entry], r, names, totals)
  {
    hide AddUsage, Appears, AgentTotal, KeyedTotal, FiledUnder;
    StepShares(entries, entry, r);
  }

  /** `usageByAgent`: one share for every agent that has an entry, in order of first appearance; each share is that
      agent's entries added up, and the shares add up to the Run's keyed total. */
  method UsageByAgent(entries: seq<UsageEntry>, r: RunId) returns (names: seq<string>, totals: map<string, Usage>)
    ensures AreDistinct(names) && forall x :: x in names <==> x in totals
    ensures forall x :: x in names <==> Appears(entries, r, x)
    ensures forall x :: x in names ==> totals[x] == AgentTotal(entries, r, x)
    ensures TotalOf(names, totals) == KeyedTotal(entries, r)
  {
    names, totals := [], map[];
    assert SharesOf([], r, names, totals);
    {
      hide AddUsage, SharesOf;
      for i := 0 to |entries|
        invariant SharesOf(entries[..i], r, names, totals)
      {
        var entry := entries[i];
        assert entries[..i] + [entry] == entries[..i + 1];
        if entry.runId != r {
          OtherRunsEntry(entries[..i], entry, r, names, totals);
          continue;
        }
        var name := FiledUnder(entry);
        if name in totals {
          OldShareGrows(entries[..i], entry, r, names, totals);
          totals := totals[name := AddUsage(totals[name], entry.delta)];
        } else {
          NewShareStarts(entries[..i], entry, r, names, totals);
          totals := totals[name := AddUsage(NoUsage(), entry.delta)];
          names := names + [name];
        }
      }
      assert entries[..|entries|] == entries;
    }
  }
}
