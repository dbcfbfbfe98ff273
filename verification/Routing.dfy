/** Model tier and reasoning effort selection (routing.py). */
module Routing {
  import opened Policies
  import opened Analysis

  const CRITICAL_RISK_OVERRIDE := 0.85
  const MAX_THRESHOLD_SHIFT := 0.15

  function CostPerThousand(tier: ModelTier): real {
    match tier
    case Fast => 0.001
    case Standard => 0.004
    case Advanced => 0.018
    case Frontier => 0.070
  }

  function EstimateCost(tier: ModelTier, tokens: int): real {
    CostPerThousand(tier) * (tokens as real / 1000.0)
  }

  /** Cost grows with the tier and with the tokens. */
  lemma CostMonotone(low: ModelTier, high: ModelTier, fewer: nat, more: nat)
    requires low.Rank() <= high.Rank() && fewer <= more
    ensures 0.0 <= EstimateCost(low, fewer) <= EstimateCost(high, more)
  {
    var x, y := fewer as real / 1000.0, more as real / 1000.0;
    assert 0.0 <= x <= y;
    assert 0.0 <= CostPerThousand(low) <= CostPerThousand(high);
    Product(CostPerThousand(low), CostPerThousand(high), x, y);
  }

  lemma Product(a: real, b: real, x: real, y: real)
    requires 0.0 <= a <= b && 0.0 <= x <= y
    ensures 0.0 <= a * x <= b * y
  {}

  /** What a thousand tokens cost on each tier; cost is proportional to the tokens. */
  lemma PriceList(tier: ModelTier, tokens: int, factor: int)
    ensures EstimateCost(Fast, 1000) == 0.001 && EstimateCost(Standard, 1000) == 0.004
    ensures EstimateCost(Advanced, 1000) == 0.018 && EstimateCost(Frontier, 1000) == 0.070
    ensures EstimateCost(tier, factor * tokens) == factor as real * EstimateCost(tier, tokens)
  {
    var price, f, x := CostPerThousand(tier), factor as real, tokens as real / 1000.0;
    assert (factor * tokens) as real == f * tokens as real;
    assert f * tokens as real / 1000.0 == f * x;
    assert price * (f * x) == f * (price * x);
  }

  function TierScore(c: Complexity, r: Risk): real { Clamp(0.5 * c.score + 0.5 * r.score) }

  function ReasoningScore(c: Complexity, r: Risk): real { Clamp(0.35 * c.score + 0.65 * r.score) }

  /** Some individual risk signal reaches its critical threshold. */
  predicate CriticalSignal(r: Risk, p: Policy) {
    || r.securityImpact >= p.critical.securityAt
    || r.dataImpact >= p.critical.dataAt
    || r.irreversibility >= p.critical.irreversibilityAt
  }

  function ThresholdShift(w: RoutingWeights): real
    requires w.Valid()
  {
    var total := w.cost + w.quality + w.latency;
    var bias := (w.cost / total + w.latency / total) - w.quality / total;
    bias * MAX_THRESHOLD_SHIFT
  }

  function SelectModelTier(c: Complexity, r: Risk, p: Policy): ModelTier
    requires p.Valid()
  {
    var score := TierScore(c, r);
    var shift := ThresholdShift(p.weights);
    var selected :=
      if score >= Clamp(p.thresholds.frontierAt + shift) then Frontier
      else if score >= Clamp(p.thresholds.advancedAt + shift) then Advanced
      else if score >= Clamp(p.thresholds.standardAt + shift) then Standard
      else Fast;
    var overridden := if r.score >= CRITICAL_RISK_OVERRIDE && selected.Rank() < Advanced.Rank() then Advanced else selected;
    if CriticalSignal(r, p) && overridden.Rank() < p.critical.minTier.Rank() then p.critical.minTier
    else overridden
  }

  function SelectReasoningEffort(c: Complexity, r: Risk, p: Policy): ReasoningEffort {
    var score := ReasoningScore(c, r);
    var selected :=
      if score >= p.reasoning.maxAt then MaxEffort
      else if score >= p.reasoning.xhighAt then XHigh
      else if score >= p.reasoning.highAt then High
      else if score >= p.reasoning.mediumAt then Medium
      else if score >= p.reasoning.lowAt then Low
      else NoReasoning;
    var floored := if selected.Rank() < p.reasoningFloor.Rank() then p.reasoningFloor else selected;
    if CriticalSignal(r, p) && floored.Rank() < p.critical.minReasoning.Rank() then p.critical.minReasoning
    else floored
  }

  datatype ModelProfile = ModelProfile(tier: ModelTier, reasoning: ReasoningEffort)

  function Route(c: Complexity, r: Risk, p: Policy): ModelProfile
    requires p.Valid()
  {
    ModelProfile(SelectModelTier(c, r, p), SelectReasoningEffort(c, r, p))
  }

  lemma Share(a: real, d: real)
    requires 0.0 <= a && d > 0.0
    ensures 0.0 <= a / d
  {}

  lemma Shares(a: real, b: real, d: real)
    requires 0.0 <= a && 0.0 <= b && a + b == d && d > 0.0
    ensures 0.0 <= a / d && 0.0 <= b / d && a / d + b / d == 1.0
  {
    Share(a, d);
    Share(b, d);
    SharesAdd(a, b, d);
  }

  /** The three weights move the thresholds by at most the maximal shift, up when cost and latency
      outweigh quality and down when quality outweighs them. */
  lemma ShiftIsBounded(w: RoutingWeights)
    requires w.Valid()
    ensures -0.15 <= ThresholdShift(w) <= 0.15
    ensures ThresholdShift(w) > 0.0 <==> w.cost + w.latency > w.quality
    ensures ThresholdShift(w) < 0.0 <==> w.cost + w.latency < w.quality
  {
    var total := w.cost + w.quality + w.latency;
    Shares(w.cost + w.latency, w.quality, total);
    SharesAdd(w.cost, w.latency, total);
    SharesCompare(w.cost + w.latency, w.quality, total);
  }

  lemma SharesAdd(a: real, b: real, d: real)
    requires d > 0.0
    ensures a / d + b / d == (a + b) / d
  {}

  lemma SharesCompare(a: real, b: real, d: real)
    requires d > 0.0
    ensures a / d > b / d <==> a > b
    ensures a / d < b / d <==> a < b
  {}

  /** The shift is the balance of the weights, scaled: cost and latency push up, quality pushes down. */
  lemma ShiftBalances(w: RoutingWeights)
    requires w.Valid()
    ensures ThresholdShift(w) * (w.cost + w.quality + w.latency) == 0.15 * (w.cost + w.latency - w.quality)
  {
    var total := w.cost + w.quality + w.latency;
    SharesAdd(w.cost, w.latency, total);
    ShareTimes(w.cost + w.latency, total);
    ShareTimes(w.quality, total);
    var a, b := (w.cost + w.latency) / total, w.quality / total;
    assert ((a - b) * 0.15) * total == 0.15 * (a * total - b * total);
  }

  lemma ShareTimes(a: real, d: real)
    requires d > 0.0
    ensures a / d * d == a
  {}

  /** Tier looks at complexity and risk alike, reasoning mostly at risk. */
  lemma ScoresBlend(c: Complexity, r: Risk)
    requires Unit(c.score) && Unit(r.score)
    ensures 2.0 * TierScore(c, r) == c.score + r.score
    ensures 100.0 * ReasoningScore(c, r) == 35.0 * c.score + 65.0 * r.score
  {}

  function TierThreshold(tier: ModelTier, p: Policy): real
    requires p.Valid()
  {
    match tier
    case Fast => 0.0
    case Standard => Clamp(p.thresholds.standardAt + ThresholdShift(p.weights))
    case Advanced => Clamp(p.thresholds.advancedAt + ThresholdShift(p.weights))
    case Frontier => Clamp(p.thresholds.frontierAt + ThresholdShift(p.weights))
  }

  /** A task is routed to at least a given tier exactly when its score reaches that tier's threshold, its
      risk is critical and the tier is at most Advanced, or one of its signals is critical and the policy's
      minimum reaches it. */
  lemma TierExactly(c: Complexity, r: Risk, p: Policy, tier: ModelTier)
    requires p.Valid()
    ensures SelectModelTier(c, r, p).Rank() >= tier.Rank() <==>
      || TierScore(c, r) >= TierThreshold(tier, p)
      || (r.score >= 0.85 && tier.Rank() <= Advanced.Rank())
      || ((|| r.securityImpact >= p.critical.securityAt || r.dataImpact >= p.critical.dataAt
           || r.irreversibility >= p.critical.irreversibilityAt)
          && tier.Rank() <= p.critical.minTier.Rank())
  {
    var shift := ThresholdShift(p.weights);
    ThresholdsStayOrdered(p.thresholds, shift);
  }

  lemma ThresholdsStayOrdered(t: RoutingThresholds, shift: real)
    requires t.Valid()
    ensures Clamp(t.standardAt + shift) <= Clamp(t.advancedAt + shift) <= Clamp(t.frontierAt + shift)
  {}

  function EffortThreshold(effort: ReasoningEffort, p: Policy): real {
    match effort
    case NoReasoning => 0.0
    case Low => p.reasoning.lowAt
    case Medium => p.reasoning.mediumAt
    case High => p.reasoning.highAt
    case XHigh => p.reasoning.xhighAt
    case MaxEffort => p.reasoning.maxAt
  }

  /** Likewise for reasoning: the score reaches the threshold, or the policy's floor or its critical
      minimum does. */
  lemma EffortExactly(c: Complexity, r: Risk, p: Policy, effort: ReasoningEffort)
    requires p.Valid()
    ensures SelectReasoningEffort(c, r, p).Rank() >= effort.Rank() <==>
      || ReasoningScore(c, r) >= EffortThreshold(effort, p)
      || effort.Rank() <= p.reasoningFloor.Rank()
      || ((|| r.securityImpact >= p.critical.securityAt || r.dataImpact >= p.critical.dataAt
           || r.irreversibility >= p.critical.irreversibilityAt)
          && effort.Rank() <= p.critical.minReasoning.Rank())
  {}

  /** Lower scores and factors never route to a higher tier or to more reasoning; a critical signal
      keeps both at or above the policy's floors. */
  lemma RouteMonotone(c: Complexity, r: Risk, c': Complexity, r': Risk, p: Policy)
    requires p.Valid() && ComplexityLeq(c, c') && RiskLeq(r, r')
    ensures Route(c, r, p).tier.Rank() <= Route(c', r', p).tier.Rank()
    ensures Route(c, r, p).reasoning.Rank() <= Route(c', r', p).reasoning.Rank()
    ensures CriticalSignal(r, p) ==>
              && p.critical.minTier.Rank() <= Route(c, r, p).tier.Rank()
              && p.critical.minReasoning.Rank() <= Route(c, r, p).reasoning.Rank()
  {}
}
