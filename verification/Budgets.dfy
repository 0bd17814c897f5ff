/** Shared Run budgets: adding usage and deciding whether work may continue. */
module Budgets {
  import opened Outcomes
  import opened Tables

  function AddUsage(usage: Usage, delta: Usage): Usage
  {
    Usage(usage.inputTokens + delta.inputTokens, usage.outputTokens + delta.outputTokens,
          usage.cachedTokens + delta.cachedTokens, usage.costUsd + delta.costUsd,
          usage.wallTimeMs + delta.wallTimeMs, usage.toolCalls + delta.toolCalls,
          usage.childAgents + delta.childAgents)
  }

  /** Every amount but a cost is a count here, so only a cost can be invalid. */
  predicate ValidCosts(b: Budget)
  {
    (b.maxCostUsd.Some? ==> b.maxCostUsd.value >= 0.0) && b.recovery.costUsd >= 0.0 && b.validation.costUsd >= 0.0
  }

  datatype Limit =
    | InputTokens | OutputTokens | CachedTokens | CostUsd | WallTimeMs | ToolCalls | TotalTokens | ChildAgents
    | ReservedCapacity

  function AssessMetric(maximum: Option<real>, used: real, protectedCapacity: real, limit: Limit): seq<Limit>
  {
    match maximum
    case None => []
    case Some(max) =>
      if max - used <= 0.0 then [limit]
      else if max - used - protectedCapacity <= 0.0 then [ReservedCapacity]
      else []
  }

  function AsReal(n: Option<nat>): Option<real>
  {
    match n
    case None => None
    case Some(v) => Some(v as real)
  }

  /** The limits `evaluateBudget` finds exhausted for general work; usage is allowed when there are none. */
  function Exhausted(b: Budget, u: Usage): seq<Limit>
  {
    var inputReserve := (b.recovery.inputTokens + b.validation.inputTokens) as real;
    var outputReserve := (b.recovery.outputTokens + b.validation.outputTokens) as real;
    var totalReserve := (b.recovery.totalTokens + b.validation.totalTokens) as real;
    AssessMetric(AsReal(b.maxInputTokens), u.inputTokens as real, inputReserve, InputTokens)
    + AssessMetric(AsReal(b.maxOutputTokens), u.outputTokens as real, outputReserve, OutputTokens)
    + AssessMetric(AsReal(b.maxCachedTokens), u.cachedTokens as real, 0.0, CachedTokens)
    + AssessMetric(b.maxCostUsd, u.costUsd, b.recovery.costUsd + b.validation.costUsd, CostUsd)
    + AssessMetric(AsReal(b.maxWallTimeMs), u.wallTimeMs as real,
                   (b.recovery.wallTimeMs + b.validation.wallTimeMs) as real, WallTimeMs)
    + AssessMetric(AsReal(b.maxToolCalls), u.toolCalls as real,
                   (b.recovery.toolCalls + b.validation.toolCalls) as real, ToolCalls)
    + AssessMetric(AsReal(b.maxTotalTokens), (u.inputTokens + u.outputTokens) as real,
                   inputReserve + outputReserve + totalReserve, TotalTokens)
    + AssessMetric(AsReal(b.maxChildAgents), u.childAgents as real, 0.0, ChildAgents)
  }

  predicate Allowed(b: Budget, u: Usage) { Exhausted(b, u) == [] }

  predicate Below(used: real, protectedCapacity: real, maximum: Option<real>)
  {
    maximum.Some? ==> used < maximum.value && used + protectedCapacity < maximum.value
  }

  /** General work goes on exactly while every capped metric stays below its cap less what is held back for
      recovery and validation; the total also holds back the input and output reserves. */
  lemma AllowedMeaning(b: Budget, u: Usage)
    ensures Allowed(b, u) <==>
            && Below(u.inputTokens as real, (b.recovery.inputTokens + b.validation.inputTokens) as real,
                AsReal(b.maxInputTokens))
            && Below(u.outputTokens as real, (b.recovery.outputTokens + b.validation.outputTokens) as real,
                AsReal(b.maxOutputTokens))
            && Below(u.cachedTokens as real, 0.0, AsReal(b.maxCachedTokens))
            && Below(u.costUsd, b.recovery.costUsd + b.validation.costUsd, b.maxCostUsd)
            && Below(u.wallTimeMs as real, (b.recovery.wallTimeMs + b.validation.wallTimeMs) as real,
                AsReal(b.maxWallTimeMs))
            && Below(u.toolCalls as real, (b.recovery.toolCalls + b.validation.toolCalls) as real,
                AsReal(b.maxToolCalls))
            && Below((u.inputTokens + u.outputTokens) as real,
                     (b.recovery.inputTokens + b.validation.inputTokens + b.recovery.outputTokens
                         + b.validation.outputTokens
                      + b.recovery.totalTokens + b.validation.totalTokens) as real, AsReal(b.maxTotalTokens))
            && Below(u.childAgents as real, 0.0, AsReal(b.maxChildAgents))
  {
  }

  /** More usage never reopens an exhausted budget. */
  lemma ExhaustionStays(b: Budget, u: Usage, delta: Usage)
    requires delta.costUsd >= 0.0
    ensures Allowed(b, AddUsage(u, delta)) ==> Allowed(b, u)
  {
    AllowedMeaning(b, u);
    AllowedMeaning(b, AddUsage(u, delta));
  }

  /** Usage adds up in any grouping. */
  lemma AddUsageLaws(a: Usage, b: Usage, c: Usage)
    ensures AddUsage(AddUsage(a, b), c) == AddUsage(a, AddUsage(b, c))
    ensures AddUsage(a, b) == AddUsage(b, a)
    ensures AddUsage(a, NoUsage()) == a
  {
  }
}
