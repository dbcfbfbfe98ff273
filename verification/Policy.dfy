/** Capability ladders and the policy record (models.py, config.py). */
module Policies {
  datatype ModelTier = Fast | Standard | Advanced | Frontier {
    function Rank(): nat {
      match this
      case Fast => 0
      case Standard => 1
      case Advanced => 2
      case Frontier => 3
    }
  }

  datatype ReasoningEffort = NoReasoning | Low | Medium | High | XHigh | MaxEffort {
    function Rank(): nat {
      match this
      case NoReasoning => 0
      case Low => 1
      case Medium => 2
      case High => 3
      case XHigh => 4
      case MaxEffort => 5
    }
  }

  const TIER_LADDER: seq<ModelTier> := [Fast, Standard, Advanced, Frontier]
  const REASONING_LADDER: seq<ReasoningEffort> := [NoReasoning, Low, Medium, High, XHigh, MaxEffort]

  datatype WatchdogPolicy = WatchdogPolicy(
    enabled: bool,
    noProgressSeconds: real,
    noProgressCycles: int,
    maxIdenticalFailures: int,
    maxRecoveryAttempts: int,
    maxNoProgressCycles: int,
    maxTotalAttempts: int,
    maxModelEscalations: int,
    trivialTimeout: real)
  {
    predicate Valid() {
      && noProgressSeconds > 0.0
      && noProgressCycles >= 1
      && maxIdenticalFailures >= 1
      && maxRecoveryAttempts >= 1
      && maxNoProgressCycles >= noProgressCycles
      && maxTotalAttempts >= 1
      && maxModelEscalations >= 0
      && trivialTimeout > 0.0
    }
  }

  datatype BudgetPolicy = BudgetPolicy(
    maxAgents: int,
    maxContextTokens: int,
    maxCost: real,
    maxTokens: int)
  {
    predicate Valid() {
      maxAgents >= 1 && maxContextTokens >= 1 && maxCost > 0.0 && maxTokens >= 1
    }
  }

  datatype RoutingWeights = RoutingWeights(cost: real, quality: real, latency: real) {
    predicate Valid() {
      cost >= 0.0 && quality >= 0.0 && latency >= 0.0 && cost + quality + latency > 0.0
    }
  }

  datatype RoutingThresholds = RoutingThresholds(standardAt: real, advancedAt: real, frontierAt: real) {
    predicate Valid() { 0.0 <= standardAt <= advancedAt <= frontierAt <= 1.0 }
  }

  datatype ReasoningThresholds =
    ReasoningThresholds(lowAt: real, mediumAt: real, highAt: real, xhighAt: real, maxAt: real)
  {
    predicate Valid() { 0.0 <= lowAt <= mediumAt <= highAt <= xhighAt <= maxAt <= 1.0 }
  }

  datatype CriticalRisk = CriticalRisk(
    securityAt: real,
    dataAt: real,
    irreversibilityAt: real,
    minTier: ModelTier,
    minReasoning: ReasoningEffort,
    requireReview: bool)
  {
    predicate Valid() {
      && 0.0 <= securityAt <= 1.0
      && 0.0 <= dataAt <= 1.0
      && 0.0 <= irreversibilityAt <= 1.0
    }
  }

  datatype Policy = Policy(
    weights: RoutingWeights,
    thresholds: RoutingThresholds,
    reasoning: ReasoningThresholds,
    watchdog: WatchdogPolicy,
    budget: BudgetPolicy,
    critical: CriticalRisk,
    reasoningFloor: ReasoningEffort,
    multiAgentRisk: real,
    multiAgentComplexity: real)
  {
    /** What construction of a policy enforces; an invalid policy never exists at run time. */
    predicate Valid() {
      && weights.Valid() && thresholds.Valid() && reasoning.Valid()
      && watchdog.Valid() && budget.Valid() && critical.Valid()
      && 0.0 <= multiAgentRisk <= 1.0
      && 0.0 <= multiAgentComplexity <= 1.0
    }
  }
}
