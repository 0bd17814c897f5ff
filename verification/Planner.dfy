/** Choosing context within a token budget. */
module Planner {
  import opened Outcomes
  import opened Text
  import opened Tokens

  datatype Item = Item(id: string, source: string, content: string, priority: real, relevance: real, required: bool,
                       allowTruncate: bool, maxTokens: Option<nat>)

  datatype Fit = Fit(content: string, truncated: bool)

  datatype Planned = Planned(item: Item, content: string, rendered: string, cost: nat, truncated: bool)

  datatype Reason = BudgetExhausted | ItemTooLarge

  datatype Omitted = Omitted(id: string, source: string, reason: Reason)

  datatype Choice = Choice(selected: seq<Planned>, omitted: seq<Omitted>, used: nat)

  datatype Plan = Plan(used: nat, text: string, selected: seq<Planned>, omitted: seq<Omitted>)

  datatype PlanError = EmptyId | EmptySource | BadRelevance | DuplicateId

  // ----- Rendering -----

  function Marker(): string { "\n\U{2026}[truncated]" }

  function Block(item: Item, content: string): string { "[" + item.source + ":" + item.id + "]\n" + content }

  predicate IsSeparator(separator: string) { separator == "" || separator == "\n\n" }

  function Rendered(separator: string, item: Item, content: string): string { separator + Block(item, content) }

  predicate HasInk(s: string) { exists i :: 0 <= i < |s| && !IsSpace(s[i]) }

  lemma RenderedCost(separator: string, item: Item, content: string)
    requires IsSeparator(separator)
    ensures var r := Rendered(separator, item, content);
            r != "" && !IsWord(r[0]) && HasInk(r) && Estimate(r) == Cost(r)
  {
    var r := Rendered(separator, item, content);
    assert r[|separator|] == '[' && !IsSpace(r[|separator|]);
    EstimateIsCost(r, |separator|);
  }

  lemma MarkerBreaks()
    ensures Marker() != "" && !IsWord(Marker()[0])
  {
  }

  /** The marker starts a new line, so no word runs into it. */
  lemma TruncatedCost(separator: string, item: Item, content: string)
    requires IsSeparator(separator)
    ensures Estimate(Rendered(separator, item, content + Marker()))
            == Cost(Rendered(separator, item, content)) + Cost(Marker())
  {
    hide Cost, Estimate, Marker, IsWord;
    RenderedCost(separator, item, content + Marker());
    MarkerBreaks();
    assert Rendered(separator, item, content + Marker()) == Rendered(separator, item, content) + Marker();
    CostAppend(Rendered(separator, item, content), Marker());
  }

  /** A longer beginning of the content, marked as truncated, never costs less. */
  lemma TruncationGrows(separator: string, item: Item, shorter: string, longer: string)
    requires IsSeparator(separator) && shorter <= longer
    ensures Estimate(Rendered(separator, item, shorter + Marker()))
         <= Estimate(Rendered(separator, item, longer + Marker()))
  {
    hide Cost, Estimate, Marker;
    TruncatedCost(separator, item, shorter);
    TruncatedCost(separator, item, longer);
    var rest := longer[|shorter|..];
    assert longer == shorter + rest;
    assert Rendered(separator, item, longer) == Rendered(separator, item, shorter) + rest;
    CostGrows(Rendered(separator, item, shorter), rest);
  }

  // ----- Fitting one item -----

  predicate Fits(separator: string, item: Item, budget: nat, m: nat)
    requires m <= |item.content|
  {
    Estimate(Rendered(separator, item, item.content[..m] + Marker())) <= budget
  }

  function LocalBudget(item: Item, budget: nat): nat
  {
    if item.maxTokens.Some? && item.maxTokens.value < budget then item.maxTokens.value else budget
  }

  /** The longest beginning of at most `m` characters that fits. */
  function Longest(separator: string, item: Item, budget: nat, m: nat): (r: Option<nat>)
    requires m <= |item.content|
    ensures r.Some? ==> r.value <= m && Fits(separator, item, budget, r.value)
    ensures r.Some? ==> forall k :: r.value < k <= m ==> !Fits(separator, item, budget, k)
    ensures r.None? ==> forall k :: 0 <= k <= m ==> !Fits(separator, item, budget, k)
  {
    hide Fits;
    if Fits(separator, item, budget, m) then Some(m)
    else if m == 0 then None
    else Longest(separator, item, budget, m - 1)
  }

  /** What of an item goes into the budget: all of it, or the longest beginning that fits, or nothing. */
  function Fitted(item: Item, separator: string, budget: nat): Option<Fit>
  {
    var local := LocalBudget(item, budget);
    if Estimate(Rendered(separator, item, item.content)) <= local then Some(Fit(item.content, false))
    else if !item.allowTruncate then None
    else
      match Longest(separator, item, local, |item.content|)
      case None => None
      case Some(m) => Some(Fit(item.content[..m] + Marker(), true))
  }

  /** `truncateToBudget`: a binary search, which finds the longest beginning because the estimate never falls. */
  method TruncateToBudget(item: Item, separator: string, budget: nat) returns (r: Option<Fit>)
    requires IsSeparator(separator)
    ensures r == Fitted(item, separator, budget)
  {
    hide Fits, Estimate, Rendered, Marker;
    var localBudget := if item.maxTokens.None? then budget
                       else if item.maxTokens.value < budget then item.maxTokens.value else budget;
    if Estimate(Rendered(separator, item, item.content)) <= localBudget {
      return Some(Fit(item.content, false));
    }
    if !item.allowTruncate {
      return None;
    }
    var low, high: int := 0, |item.content|;
    var selected: Option<string> := None;
    while low <= high
      invariant 0 <= low <= |item.content| + 1 && -1 <= high <= |item.content| && low <= high + 1
      invariant forall k :: 0 <= k < low ==> Fits(separator, item, localBudget, k)
      invariant forall k :: high < k <= |item.content| ==> !Fits(separator, item, localBudget, k)
      invariant selected == if low == 0 then None else Some(item.content[..low - 1] + Marker())
      decreases high - low
    {
      var middle := (low + high) / 2;
      var candidate := item.content[..middle] + Marker();
      FitsMeans(separator, item, localBudget, middle);
      if Estimate(Rendered(separator, item, candidate)) <= localBudget {
        ShorterFits(separator, item, localBudget, middle);
        selected := Some(candidate);
        low := middle + 1;
      } else {
        LongerFails(separator, item, localBudget, middle);
        high := middle - 1;
      }
    }
    if selected.None? {
      return None;
    }
    LongestIs(separator, item, localBudget, low - 1);
    return Some(Fit(selected.value, true));
  }

  lemma LongestIs(separator: string, item: Item, budget: nat, m: nat)
    requires m <= |item.content| && Fits(separator, item, budget, m)
    requires forall k :: m < k <= |item.content| ==> !Fits(separator, item, budget, k)
    ensures Longest(separator, item, budget, |item.content|) == Some(m)
  {
    hide Fits;
  }

  lemma FitsMeans(separator: string, item: Item, budget: nat, m: nat)
    requires m <= |item.content|
    ensures Fits(separator, item, budget, m) <==>
            Estimate(Rendered(separator, item, item.content[..m] + Marker())) <= budget
  {
    hide Estimate, Rendered, Marker;
  }

  lemma ShorterFits(separator: string, item: Item, budget: nat, m: nat)
    requires IsSeparator(separator) && m <= |item.content| && Fits(separator, item, budget, m)
    ensures forall k :: 0 <= k <= m ==> Fits(separator, item, budget, k)
  {
    hide Estimate, Rendered, Marker;
    forall k | 0 <= k <= m ensures Fits(separator, item, budget, k) {
      assert item.content[..k] <= item.content[..m];
      TruncationGrows(separator, item, item.content[..k], item.content[..m]);
    }
  }

  lemma LongerFails(separator: string, item: Item, budget: nat, m: nat)
    requires IsSeparator(separator) && m <= |item.content| && !Fits(separator, item, budget, m)
    ensures forall k :: m <= k <= |item.content| ==> !Fits(separator, item, budget, k)
  {
    hide Estimate, Rendered, Marker;
    forall k | m <= k <= |item.content| ensures !Fits(separator, item, budget, k) {
      assert item.content[..m] <= item.content[..k];
      TruncationGrows(separator, item, item.content[..m], item.content[..k]);
    }
  }

  // ----- Choosing among items -----

  function SeparatorAfter(selected: seq<Planned>): string { if selected == [] then "" else "\n\n" }

  function Omission(item: Item, remaining: nat): Omitted
  {
    var minimum := Estimate(Block(item, "")) + if remaining == 0 then 0 else Estimate("\n\n");
    Omitted(item.id, item.source, if minimum > remaining then ItemTooLarge else BudgetExhausted)
  }

  /** `choose`. */
  function Choose(choice: Choice, item: Item, budget: nat): Choice
  {
    var remaining := if choice.used <= budget then budget - choice.used else 0;
    var separator := SeparatorAfter(choice.selected);
    match Fitted(item, separator, remaining)
    case None => choice.(omitted := choice.omitted + [Omission(item, remaining)])
    case Some(fit) =>
      var rendered := Rendered(separator, item, fit.content);
      var cost := Estimate(rendered);
      if cost > remaining then choice.(omitted := choice.omitted + [Omission(item, remaining)])
      else
        Choice(choice.selected + [Planned(item, fit.content, rendered, cost, fit.truncated)], choice.omitted,
               choice.used + cost)
  }

  function ChooseAll(items: seq<Item>, budget: nat): Choice
  {
    if items == [] then Choice([], [], 0)
    else Choose(ChooseAll(items[..|items| - 1], budget), items[|items| - 1], budget)
  }

  function TextOf(selected: seq<Planned>): string
  {
    if selected == [] then "" else TextOf(selected[..|selected| - 1]) + selected[|selected| - 1].rendered
  }

  function SelectedIds(selected: seq<Planned>): seq<string>
  {
    seq(|selected|, i requires 0 <= i < |selected| => selected[i].item.id)
  }

  function OmittedIds(omitted: seq<Omitted>): seq<string>
  {
    seq(|omitted|, i requires 0 <= i < |omitted| => omitted[i].id)
  }

  function Ids(items: seq<Item>): seq<string> { seq(|items|, i requires 0 <= i < |items| => items[i].id) }

  /** What has been chosen so far: its text costs what was counted, within the budget, and every item seen is either in
      it or left out. */
  predicate Balanced(choice: Choice, items: seq<Item>, budget: nat)
  {
    && choice.used <= budget
    && Cost(TextOf(choice.selected)) == choice.used && Estimate(TextOf(choice.selected)) == choice.used
    && multiset(SelectedIds(choice.selected)) + multiset(OmittedIds(choice.omitted)) == multiset(Ids(items))
    && (choice.selected != [] ==> TextOf(choice.selected) != "")
  }

  function SumOfCosts(selected: seq<Planned>): nat
  {
    if selected == [] then 0 else SumOfCosts(selected[..|selected| - 1]) + selected[|selected| - 1].cost
  }

  // ----- What a choice comes to, in terms of the estimate alone -----

  /** The block of an item with this content, as it stands behind the blocks selected before it. */
  function TextAfter(selected: seq<Planned>, item: Item, content: string): string
  {
    (if selected == [] then "" else "\n\n") + ("[" + item.source + ":" + item.id + "]\n" + content)
  }

  function LeftBy(selected: seq<Planned>, budget: nat): nat
  {
    if SumOfCosts(selected) <= budget then budget - SumOfCosts(selected) else 0
  }

  /** The block measures no more than the item may have and than the blocks before it leave. */
  predicate Within(item: Item, content: string, selected: seq<Planned>, budget: nat)
  {
    && Estimate(TextAfter(selected, item, content)) <= LeftBy(selected, budget)
    && (item.maxTokens.Some? ==> Estimate(TextAfter(selected, item, content)) <= item.maxTokens.value)
  }

  function Cut(item: Item, m: nat): string
    requires m <= |item.content|
  {
    item.content[..m] + "\n\U{2026}[truncated]"
  }

  ghost predicate HasRoom(item: Item, selected: seq<Planned>, budget: nat)
  {
    || Within(item, item.content, selected, budget)
    || (item.allowTruncate && exists m :: 0 <= m <= |item.content| && Within(item, Cut(item, m), selected, budget))
  }

  /** All of the item if that is within, and else the longest beginning that is. */
  ghost predicate BestContent(item: Item, content: string, truncated: bool, selected: seq<Planned>, budget: nat)
  {
    if Within(item, item.content, selected, budget) then content == item.content && !truncated
    else
      && item.allowTruncate && truncated
      && exists m :: 0 <= m <= |item.content| && content == Cut(item, m) && Within(item, Cut(item, m), selected, budget)
                     && forall k :: m < k <= |item.content| ==> !Within(item, Cut(item, k), selected, budget)
  }

  lemma WithinMeans(item: Item, content: string, selected: seq<Planned>, budget: nat)
    ensures Within(item, content, selected, budget) <==>
            Estimate(Rendered(SeparatorAfter(selected), item, content)) <= LocalBudget(item, LeftBy(selected, budget))
    ensures Rendered(SeparatorAfter(selected), item, content) == TextAfter(selected, item, content)
  {
    hide Estimate, SumOfCosts;
  }

  lemma CutMeans(item: Item, m: nat, selected: seq<Planned>, budget: nat)
    requires m <= |item.content|
    ensures Within(item, Cut(item, m), selected, budget)
       <==> Fits(SeparatorAfter(selected), item, LocalBudget(item, LeftBy(selected, budget)), m)
  {
    hide Estimate, SumOfCosts, Within;
    WithinMeans(item, Cut(item, m), selected, budget);
  }

  lemma FittedMeans(item: Item, selected: seq<Planned>, budget: nat)
    ensures var f := Fitted(item, SeparatorAfter(selected), LeftBy(selected, budget));
            && (f.Some? <==> HasRoom(item, selected, budget))
            && (f.Some? ==> BestContent(item, f.value.content, f.value.truncated, selected, budget))
            && (f.Some? ==> Within(item, f.value.content, selected, budget))
  {
    hide Within, Fits, Estimate, Rendered, Longest, LeftBy, LocalBudget;
    WithinMeans(item, item.content, selected, budget);
    forall m | 0 <= m <= |item.content|
      ensures Within(item, Cut(item, m), selected, budget)
         <==> Fits(SeparatorAfter(selected), item, LocalBudget(item, LeftBy(selected, budget)), m)
    {
      CutMeans(item, m, selected, budget);
    }
  }

  /** A selected item is rendered with the best content behind what was selected before it, and costs what that
      measures. */
  ghost predicate Placed(selected: seq<Planned>, i: nat, budget: nat)
    requires i < |selected|
  {
    var p, before := selected[i], selected[..i];
    && BestContent(p.item, p.content, p.truncated, before, budget)
    && p.rendered == TextAfter(before, p.item, p.content) && p.cost == Estimate(p.rendered)
    && SumOfCosts(before) + p.cost <= budget
  }

  ghost predicate AllPlaced(choice: Choice, budget: nat)
  {
    && choice.used == SumOfCosts(choice.selected) <= budget
    && forall i :: 0 <= i < |choice.selected| ==> Placed(choice.selected, i, budget)
  }

  /** What choosing does when all before it is in place: it selects the item exactly when there is room for it. */
  lemma ChoiceMeans(choice: Choice, item: Item, budget: nat)
    requires choice.used == SumOfCosts(choice.selected) <= budget
    ensures var next, left := Choose(choice, item, budget), LeftBy(choice.selected, budget);
            if HasRoom(item, choice.selected, budget) then
              && |next.selected| == |choice.selected| + 1 && next.selected[..|choice.selected|] == choice.selected
              && next.omitted == choice.omitted
              && var p := next.selected[|choice.selected|];
                 && p.item == item && BestContent(item, p.content, p.truncated, choice.selected, budget)
                 && p.rendered == TextAfter(choice.selected, item, p.content) && p.cost == Estimate(p.rendered) <= left
                 && next.used == choice.used + p.cost
            else next == choice.(omitted := choice.omitted + [Omission(item, left)])
  {
    hide HasRoom, BestContent, Estimate, Fitted, Rendered, Omission, TextAfter, SumOfCosts, Within, SeparatorAfter;
    FittedMeans(item, choice.selected, budget);
    FittedRenders(item, choice.selected, budget);
    assert LeftBy(choice.selected, budget) == budget - choice.used;
    hide LeftBy;
  }

  lemma FittedRenders(item: Item, selected: seq<Planned>, budget: nat)
    ensures var f := Fitted(item, SeparatorAfter(selected), LeftBy(selected, budget));
            f.Some? ==>
              && Rendered(SeparatorAfter(selected), item, f.value.content) == TextAfter(selected, item, f.value.content)
              && Estimate(TextAfter(selected, item, f.value.content)) <= LeftBy(selected, budget)
  {
    hide Estimate, Fitted, Rendered, TextAfter, LeftBy, HasRoom, BestContent, SeparatorAfter;
    FittedMeans(item, selected, budget);
    var f := Fitted(item, SeparatorAfter(selected), LeftBy(selected, budget));
    if f.Some? {
      WithinMeans(item, f.value.content, selected, budget);
    }
  }

  lemma ChoosePlaced(choice: Choice, item: Item, budget: nat)
    requires AllPlaced(choice, budget)
    ensures AllPlaced(Choose(choice, item, budget), budget)
  {
    ChoiceMeans(choice, item, budget);
    hide Estimate, Choose, BestContent, HasRoom, TextAfter;
    var selected, next := choice.selected, Choose(choice, item, budget).selected;
    if HasRoom(item, selected, budget) {
      forall i | 0 <= i < |next| ensures Placed(next, i, budget) {
        if i < |selected| {
          assert Placed(selected, i, budget) && next[i] == selected[i] && next[..i] == selected[..i];
        }
      }
    }
  }

  lemma {:induction false} EveryPlaced(items: seq<Item>, budget: nat)
    ensures AllPlaced(ChooseAll(items, budget), budget)
  {
    if items != [] {
      hide AllPlaced, Choose;
      EveryPlaced(items[..|items| - 1], budget);
      ChoosePlaced(ChooseAll(items[..|items| - 1], budget), items[|items| - 1], budget);
    }
  }

  // ----- Who is selected and who is left out -----

  predicate Increasing(indices: seq<nat>, length: nat)
  {
    && (forall i :: 0 <= i < |indices| ==> indices[i] < length)
    && forall i, j :: 0 <= i < j < |indices| ==> indices[i] < indices[j]
  }

  /** So many of the indices come before `i`. */
  predicate CountsBefore(indices: seq<nat>, i: nat, k: nat)
  {
    k <= |indices| && (k > 0 ==> indices[k - 1] < i) && (k < |indices| ==> i < indices[k])
  }

  /** The item left out had no room behind those selected before it, and the reason given is whether an empty block of
      it would have had. */
  ghost predicate LeftOut(o: Omitted, item: Item, before: seq<Planned>, budget: nat)
  {
    var left := LeftBy(before, budget);
    var smallest := Estimate("[" + item.source + ":" + item.id + "]\n" + "") + if left == 0 then 0 else 1;
    && o.id == item.id && o.source == item.source && !HasRoom(item, before, budget)
    && (o.reason == ItemTooLarge <==> smallest > left)
  }

  /** The items at `chosen` are the selected ones and those at `others` the omitted ones, each in the order in which
      they were considered, and an item is omitted exactly when it has no room. */
  ghost predicate Considered(order: seq<Item>, selected: seq<Planned>, omitted: seq<Omitted>, chosen: seq<nat>,
                             others: seq<nat>, budget: nat)
  {
    && Increasing(chosen, |order|) && Increasing(others, |order|)
    && |chosen| == |selected| && |others| == |omitted| && |chosen| + |others| == |order|
    && (forall k, j :: 0 <= k < |chosen| && 0 <= j < |others| ==> chosen[k] != others[j])
    && (forall k :: 0 <= k < |chosen| ==>
          selected[k].item == order[chosen[k]] && HasRoom(order[chosen[k]], selected[..k], budget))
    && (forall j: nat, k: nat :: j < |others| && CountsBefore(chosen, others[j], k) ==>
          LeftOut(omitted[j], order[others[j]], selected[..k], budget))
  }

  lemma NewlineMeasures()
    ensures Estimate("\n\n") == 1
  {
    assert Pieces("\n") == [] by { assert "\n"[..0] == ""; }
    assert "\n\n"[..1] == "\n";
    assert Pieces("\n\n") == [];
  }

  lemma OmissionMeans(item: Item, before: seq<Planned>, budget: nat)
    requires !HasRoom(item, before, budget)
    ensures LeftOut(Omission(item, LeftBy(before, budget)), item, before, budget)
  {
    NewlineMeasures();
    hide Estimate, HasRoom, LeftBy;
  }

  lemma SelectedNext(order: seq<Item>, item: Item, choice: Choice, next: Choice, chosen: seq<nat>, others: seq<nat>,
                     budget: nat)
    requires Considered(order, choice.selected, choice.omitted, chosen, others, budget)
    requires HasRoom(item, choice.selected, budget) && next.omitted == choice.omitted
    requires |next.selected| == |choice.selected| + 1 && next.selected[..|choice.selected|] == choice.selected
    requires next.selected[|choice.selected|].item == item
    ensures Considered(order + [item], next.selected, next.omitted, chosen + [|order|], others, budget)
  {
    hide HasRoom, LeftOut;
    var longer, more := order + [item], chosen + [|order|];
    assert forall i :: 0 <= i < |order| ==> longer[i] == order[i];
    assert forall k :: 0 <= k <= |choice.selected| ==> next.selected[..k] == choice.selected[..k];
    forall j: nat, k: nat | j < |others| && CountsBefore(more, others[j], k)
      ensures LeftOut(next.omitted[j], longer[others[j]], next.selected[..k], budget)
    {
      assert k <= |chosen| && CountsBefore(chosen, others[j], k);
    }
  }

  lemma OmittedNext(order: seq<Item>, item: Item, choice: Choice, o: Omitted, chosen: seq<nat>, others: seq<nat>,
                    budget: nat)
    requires Considered(order, choice.selected, choice.omitted, chosen, others, budget)
    requires LeftOut(o, item, choice.selected, budget)
    ensures Considered(order + [item], choice.selected, choice.omitted + [o], chosen, others + [|order|], budget)
  {
    hide HasRoom, LeftOut;
    var longer, more := order + [item], others + [|order|];
    assert forall i :: 0 <= i < |order| ==> longer[i] == order[i];
    forall j: nat, k: nat | j < |more| && CountsBefore(chosen, more[j], k)
      ensures LeftOut((choice.omitted + [o])[j], longer[more[j]], choice.selected[..k], budget)
    {
      if j == |others| {
        assert k == |chosen|;
        assert choice.selected[..k] == choice.selected;
      } else {
        assert CountsBefore(chosen, others[j], k);
      }
    }
  }

  lemma {:induction false} AllConsidered(order: seq<Item>, budget: nat) returns (chosen: seq<nat>, others: seq<nat>)
    ensures var choice := ChooseAll(order, budget);
            Considered(order, choice.selected, choice.omitted, chosen, others, budget)
  {
    hide Choose, Considered, HasRoom, BestContent, AllPlaced, LeftOut;
    if order == [] {
      chosen, others := [], [];
      NoneConsidered(budget);
    } else {
      var front, item := order[..|order| - 1], order[|order| - 1];
      var choice := ChooseAll(front, budget);
      chosen, others := AllConsidered(front, budget);
      EveryPlaced(front, budget);
      assert choice.used == SumOfCosts(choice.selected) <= budget by { PlacedAddsUp(choice, budget); }
      ChoiceMeans(choice, item, budget);
      assert front + [item] == order;
      if HasRoom(item, choice.selected, budget) {
        SelectedNext(front, item, choice, Choose(choice, item, budget), chosen, others, budget);
        chosen := chosen + [|front|];
      } else {
        OmissionMeans(item, choice.selected, budget);
        OmittedNext(front, item, choice, Omission(item, LeftBy(choice.selected, budget)), chosen, others, budget);
        others := others + [|front|];
      }
    }
  }

  lemma PlacedAddsUp(choice: Choice, budget: nat)
    requires AllPlaced(choice, budget)
    ensures choice.used == SumOfCosts(choice.selected) <= budget
  {
  }

  lemma NoneConsidered(budget: nat)
    ensures Considered([], [], [], [], [], budget)
  {
  }

  lemma IdsGrow(choice: Choice, items: seq<Item>, item: Item, p: Planned, o: Omitted)
    requires p.item == item && o.id == item.id
    requires multiset(SelectedIds(choice.selected)) + multiset(OmittedIds(choice.omitted)) == multiset(Ids(items))
    ensures multiset(SelectedIds(choice.selected + [p])) + multiset(OmittedIds(choice.omitted))
        == multiset(Ids(items + [item]))
    ensures multiset(SelectedIds(choice.selected)) + multiset(OmittedIds(choice.omitted + [o]))
        == multiset(Ids(items + [item]))
  {
    assert SelectedIds(choice.selected + [p]) == SelectedIds(choice.selected) + [item.id];
    assert OmittedIds(choice.omitted + [o]) == OmittedIds(choice.omitted) + [item.id];
    assert Ids(items + [item]) == Ids(items) + [item.id];
  }

  lemma ChooseBalanced(choice: Choice, items: seq<Item>, item: Item, budget: nat)
    requires Balanced(choice, items, budget)
    ensures Balanced(Choose(choice, item, budget), items + [item], budget)
  {
    var remaining, separator := budget - choice.used, SeparatorAfter(choice.selected);
    hide Cost, Estimate, Fitted, Rendered, SelectedIds, OmittedIds, Ids, TextOf;
    var next := Choose(choice, item, budget);
    if next.selected == choice.selected {
      IdsGrow(choice, items, item, Planned(item, "", "", 0, false), next.omitted[|choice.omitted|]);
    } else {
      var p := next.selected[|choice.selected|];
      IdsGrow(choice, items, item, p, Omitted(item.id, "", ItemTooLarge));
      RenderedCost(separator, item, p.content);
      TextGrows(choice.selected, p);
    }
  }

  /** The estimate adds up over rendered blocks. */
  lemma TextGrows(selected: seq<Planned>, p: Planned)
    requires p.rendered != "" && !IsWord(p.rendered[0]) && Cost(p.rendered) == Estimate(p.rendered)
    requires Cost(TextOf(selected)) == Estimate(TextOf(selected))
    requires HasInk(p.rendered)
    ensures var text := TextOf(selected + [p]);
            text != "" && Cost(text) == Cost(TextOf(selected)) + Cost(p.rendered) && Estimate(text) == Cost(text)
  {
    hide Estimate, Cost;
    var front, text := TextOf(selected), TextOf(selected + [p]);
    assert (selected + [p])[..|selected|] == selected;
    CostAppend(front, p.rendered);
    var i :| 0 <= i < |p.rendered| && !IsSpace(p.rendered[i]);
    assert text[|front| + i] == p.rendered[i];
    EstimateIsCost(text, |front| + i);
  }

  lemma {:induction false} AllBalanced(items: seq<Item>, budget: nat)
    ensures Balanced(ChooseAll(items, budget), items, budget)
  {
    hide Cost, Estimate, Choose;
    if items == [] {
      NothingChosen(budget);
    } else {
      var n := |items| - 1;
      AllBalanced(items[..n], budget);
      ChooseBalanced(ChooseAll(items[..n], budget), items[..n], items[n], budget);
      assert items[..n] + [items[n]] == items;
    }
  }

  lemma NothingChosen(budget: nat)
    ensures Balanced(Choice([], [], 0), [], budget)
  {
    assert SelectedIds([]) == [] && OmittedIds([]) == [] && Ids([]) == [];
  }

  // ----- Order and validity -----

  /** `Array.prototype.sort` with a comparison: stable. */
  function Insert(item: Item, sorted: seq<Item>, leq: (Item, Item) -> bool): seq<Item>
  {
    if sorted == [] || leq(item, sorted[0]) then [item] + sorted else [sorted[0]] + Insert(item, sorted[1..], leq)
  }

  function Sort(items: seq<Item>, leq: (Item, Item) -> bool): seq<Item>
  {
    if items == [] then [] else Insert(items[0], Sort(items[1..], leq), leq)
  }

  lemma {:induction false} InsertKeepsIds(item: Item, sorted: seq<Item>, leq: (Item, Item) -> bool)
    ensures multiset(Ids(Insert(item, sorted, leq))) == multiset(Ids(sorted)) + multiset{item.id}
  {
    hide Ids;
    if sorted == [] || leq(item, sorted[0]) {
      IdsCons(item, sorted);
    } else {
      InsertKeepsIds(item, sorted[1..], leq);
      IdsCons(sorted[0], sorted[1..]);
      IdsCons(sorted[0], Insert(item, sorted[1..], leq));
      assert sorted == [sorted[0]] + sorted[1..];
    }
  }

  lemma IdsCons(item: Item, items: seq<Item>)
    ensures multiset(Ids([item] + items)) == multiset{item.id} + multiset(Ids(items)) && Ids([]) == []
  {
    assert Ids([item] + items) == [item.id] + Ids(items);
  }

  /** Sorting loses no item and makes none up. */
  lemma {:induction false} SortKeepsIds(items: seq<Item>, leq: (Item, Item) -> bool)
    ensures multiset(Ids(Sort(items, leq))) == multiset(Ids(items))
  {
    hide Ids;
    if items != [] {
      SortKeepsIds(items[1..], leq);
      InsertKeepsIds(items[0], Sort(items[1..], leq), leq);
      IdsCons(items[0], items[1..]);
      assert items == [items[0]] + items[1..];
    }
  }

  ghost predicate TotalOrder(leq: (Item, Item) -> bool)
  {
    && (forall a, b :: leq(a, b) || leq(b, a))
    && forall a, b, c :: leq(a, b) && leq(b, c) ==> leq(a, c)
  }

  ghost predicate InOrder(items: seq<Item>, leq: (Item, Item) -> bool)
  {
    forall i, j :: 0 <= i < j < |items| ==> leq(items[i], items[j])
  }

  lemma {:induction false} InsertKeeps(item: Item, sorted: seq<Item>, leq: (Item, Item) -> bool)
    ensures multiset(Insert(item, sorted, leq)) == multiset(sorted) + multiset{item}
  {
    if sorted != [] {
      InsertKeeps(item, sorted[1..], leq);
      assert sorted == [sorted[0]] + sorted[1..];
    }
  }

  lemma {:induction false} InsertSorts(item: Item, sorted: seq<Item>, leq: (Item, Item) -> bool)
    requires TotalOrder(leq) && InOrder(sorted, leq)
    ensures InOrder(Insert(item, sorted, leq), leq)
  {
    if sorted == [] {
    } else if leq(item, sorted[0]) {
      assert forall j :: 0 <= j < |sorted| ==> leq(item, sorted[j]);
    } else {
      var rest, tail := Insert(item, sorted[1..], leq), sorted[1..];
      assert sorted == [sorted[0]] + tail;
      InsertSorts(item, tail, leq);
      InsertKeeps(item, tail, leq);
      assert leq(sorted[0], item);
      hide TotalOrder, Insert;
      forall j | 0 <= j < |rest| ensures leq(sorted[0], rest[j]) {
        assert rest[j] in multiset(rest);
        assert rest[j] == item || rest[j] in tail;
      }
    }
  }

  /** Sorting by a total order puts the items in order, and loses and makes up none. */
  lemma {:induction false} SortSorts(items: seq<Item>, leq: (Item, Item) -> bool)
    requires TotalOrder(leq)
    ensures InOrder(Sort(items, leq), leq) && multiset(Sort(items, leq)) == multiset(items)
  {
    if items != [] {
      hide TotalOrder, InOrder;
      SortSorts(items[1..], leq);
      InsertSorts(items[0], Sort(items[1..], leq), leq);
      InsertKeeps(items[0], Sort(items[1..], leq), leq);
      assert items == [items[0]] + items[1..];
    }
  }

  function SourceWeight(source: string): int
  {
    if source == "mission" then 10
    else if source == "goal" || source == "policy" then 9
    else if source == "task" then 8
    else if source == "run_state" then 7
    else if source == "validation" then 6
    else if source == "file" || source == "git" || source == "lsp" then 5
    else if source == "semantic" || source == "memory" then 4
    else if source == "repo_map" then 3
    else if source == "tool_history" then 2
    else 0
  }

  function Rank(item: Item): real
  {
    item.priority * 100.0 + item.relevance * 10.0 + SourceWeight(item.source) as real
  }

  predicate FixedLeq(a: Item, b: Item)
  {
    a.priority > b.priority
    || (a.priority == b.priority
        && (SourceWeight(a.source) > SourceWeight(b.source)
            || (SourceWeight(a.source) == SourceWeight(b.source) && StringLeq(a.id, b.id))))
  }

  predicate RankLeq(a: Item, b: Item)
  {
    Rank(a) > Rank(b) || (Rank(a) == Rank(b) && StringLeq(a.id, b.id))
  }

  lemma OrdersAreTotal()
    ensures TotalOrder(FixedLeq) && TotalOrder(RankLeq)
  {
    hide Rank, SourceWeight, StringLeq;
    forall a: Item, b: Item
      ensures FixedLeq(a, b) || FixedLeq(b, a)
      ensures RankLeq(a, b) || RankLeq(b, a)
    {
      StringLeqTotal(a.id, b.id);
    }
    forall a: Item, b: Item, c: Item
      ensures FixedLeq(a, b) && FixedLeq(b, c) ==> FixedLeq(a, c)
      ensures RankLeq(a, b) && RankLeq(b, c) ==> RankLeq(a, c)
    {
      if StringLeq(a.id, b.id) && StringLeq(b.id, c.id) {
        StringLeqTransitive(a.id, b.id, c.id);
      }
    }
  }

  /** Fixed items come by falling priority, then by falling weight of their source, then by id, and candidates by
      falling 100 priorities, 10 relevances and the weight of their source, then by id; none is lost or made up. */
  lemma OrderedAsAsked(fixed: seq<Item>, candidates: seq<Item>, i: nat, j: nat)
    ensures var first := Sort(fixed, FixedLeq);
            && multiset(first) == multiset(fixed)
            && (i < j < |first| ==>
                  var a, b := first[i], first[j];
                  && a.priority >= b.priority
                  && (a.priority == b.priority ==> SourceWeight(a.source) >= SourceWeight(b.source))
                  && (a.priority == b.priority && SourceWeight(a.source) == SourceWeight(b.source) ==>
                        StringLeq(a.id, b.id)))
    ensures var ranked := Sort(candidates, RankLeq);
            && multiset(ranked) == multiset(candidates)
            && (i < j < |ranked| ==>
                  var a, b := ranked[i], ranked[j];
                  var u := 100.0 * a.priority + 10.0 * a.relevance + SourceWeight(a.source) as real;
                  var v := 100.0 * b.priority + 10.0 * b.relevance + SourceWeight(b.source) as real;
                  u >= v && (u == v ==> StringLeq(a.id, b.id)))
  {
    OrdersAreTotal();
    hide TotalOrder, SourceWeight, StringLeq, Sort;
    SortSorts(fixed, FixedLeq);
    SortSorts(candidates, RankLeq);
  }

  function ItemError(item: Item): Option<PlanError>
  {
    if IsBlank(item.id) then Some(EmptyId)
    else if IsBlank(item.source) then Some(EmptySource)
    else if item.relevance < 0.0 || item.relevance > 1.0 then Some(BadRelevance)
    else None
  }

  predicate DistinctIds(items: seq<Item>) { forall i, j :: 0 <= i < j < |items| ==> items[i].id != items[j].id }

  predicate ValidItems(items: seq<Item>)
  {
    (forall i :: 0 <= i < |items| ==> ItemError(items[i]).None?) && DistinctIds(items)
  }

  // ----- The planner -----

  /** `plan`: fixed context first, then candidates by rank. The text costs exactly what its parts were counted at,
      within the budget; an item is left out exactly when nothing of it has room behind those selected before it. */
  method MakePlan(budget: nat, fixed: seq<Item>, candidates: seq<Item>) returns (r: Result<Plan, PlanError>)
    ensures r.Ok? <==> ValidItems(fixed + candidates)
    ensures r.Ok? ==>
              var plan := r.value;
              && plan.used == Estimate(plan.text) <= budget && plan.text == TextOf(plan.selected)
              && plan.used == SumOfCosts(plan.selected)
              && (forall i :: 0 <= i < |plan.selected| ==> Placed(plan.selected, i, budget))
              && multiset(SelectedIds(plan.selected)) + multiset(OmittedIds(plan.omitted))
                 == multiset(Ids(fixed + candidates))
              && exists chosen, others :: Considered(Sort(fixed, FixedLeq) + Sort(candidates, RankLeq), plan.selected,
                                                     plan.omitted, chosen, others, budget)
  {
    hide ItemError, Sort, Choose, Estimate, Cost, TextOf, Rank, SumOfCosts, Placed, Considered;
    var all := fixed + candidates;
    var identifiers: set<string> := {};
    for i := 0 to |all|
      invariant forall j :: 0 <= j < i ==> ItemError(all[j]).None?
    {
      if ItemError(all[i]).Some? {
        return Err(ItemError(all[i]).value);
      }
    }
    for i := 0 to |all|
      invariant forall x :: x in identifiers <==> exists j :: 0 <= j < i && all[j].id == x
      invariant forall j, k :: 0 <= j < k < i ==> all[j].id != all[k].id
    {
      if all[i].id in identifiers {
        return Err(DuplicateId);
      }
      identifiers := identifiers + {all[i].id};
    }
    var order := Sort(fixed, FixedLeq) + Sort(candidates, RankLeq);
    var choice := Choice([], [], 0);
    for i := 0 to |order|
      invariant choice == ChooseAll(order[..i], budget)
    {
      assert order[..i + 1][..i] == order[..i];
      choice := Choose(choice, order[i], budget);
    }
    assert order[..|order|] == order;
    AllBalanced(order, budget);
    EveryPlaced(order, budget);
    ghost var chosen, others := AllConsidered(order, budget);
    OrderKeepsIds(fixed, candidates);
    var text := TextOf(choice.selected);
    // The source goes on to drop items while the text measures over the budget: it never does.
    assert Estimate(text) <= budget;
    return Ok(Plan(Estimate(text), text, choice.selected, choice.omitted));
  }

  lemma OrderKeepsIds(fixed: seq<Item>, candidates: seq<Item>)
    ensures multiset(Ids(Sort(fixed, FixedLeq) + Sort(candidates, RankLeq))) == multiset(Ids(fixed + candidates))
  {
    SortKeepsIds(fixed, FixedLeq);
    SortKeepsIds(candidates, RankLeq);
    hide Sort;
    assert Ids(Sort(fixed, FixedLeq) + Sort(candidates, RankLeq))
        == Ids(Sort(fixed, FixedLeq)) + Ids(Sort(candidates, RankLeq));
    assert Ids(fixed + candidates) == Ids(fixed) + Ids(candidates);
  }
}
