/** Evidence-driven escalation of model tier and reasoning effort (escalation.py). */
module Escalation {
  import opened Common
  import opened Policies
  import opened Budget
  import opened Routing

  const REPEATED_FAILURES := 2
  const UNCERTAINTY := 0.6

  datatype EscalationSignals = EscalationSignals(
    repeatedFailures: nat,
    uncertainty: real,
    architecturalRisk: bool,
    securityRisk: bool,
    insufficientContext: bool,
    failedTests: bool,
    stalled: bool)

  datatype Trigger =
    | SecurityRisk | ArchitecturalRisk | RepeatedFailure | Uncertainty
    | InsufficientContext | FailedTests | StalledExecution

  datatype EscalationDecision =
    | Approved(tier: ModelTier, reasoning: ReasoningEffort, trigger: Trigger)
    | NoTrigger
    | LimitReached
    | CeilingReached
    | BudgetDenied

  function TriggeringReason(s: EscalationSignals): Option<Trigger> {
    if s.securityRisk then Some(SecurityRisk)
    else if s.architecturalRisk then Some(ArchitecturalRisk)
    else if s.repeatedFailures >= REPEATED_FAILURES then Some(RepeatedFailure)
    else if s.uncertainty >= UNCERTAINTY then Some(Uncertainty)
    else if s.insufficientContext then Some(InsufficientContext)
    else if s.failedTests then Some(FailedTests)
    else if s.stalled then Some(StalledExecution)
    else None
  }

  function NextStep(tier: ModelTier, reasoning: ReasoningEffort): (ModelTier, ReasoningEffort) {
    (TIER_LADDER[Min(tier.Rank() + 1, |TIER_LADDER| - 1)],
     REASONING_LADDER[Min(reasoning.Rank() + 1, |REASONING_LADDER| - 1)])
  }

  function CriticalJump(reasoning: ReasoningEffort): (ModelTier, ReasoningEffort) {
    (Frontier, REASONING_LADDER[Max(reasoning.Rank(), High.Rank())])
  }

  function Target(tier: ModelTier, reasoning: ReasoningEffort, trigger: Trigger): (ModelTier, ReasoningEffort) {
    if trigger.SecurityRisk? || trigger.ArchitecturalRisk? then CriticalJump(reasoning)
    else NextStep(tier, reasoning)
  }

  function DecideEscalation(
    tier: ModelTier, reasoning: ReasoningEffort, used: nat, s: EscalationSignals,
    p: WatchdogPolicy, contextTokens: int, ledger: Ledger): EscalationDecision
  {
    match TriggeringReason(s)
    case None => NoTrigger
    case Some(trigger) =>
      if used >= p.maxModelEscalations then LimitReached
      else
        var (nextTier, nextReasoning) := Target(tier, reasoning, trigger);
        if nextTier == tier && nextReasoning == reasoning then CeilingReached
        else if !Fits(ledger, contextTokens, EstimateCost(nextTier, contextTokens)) then BudgetDenied
        else Approved(nextTier, nextReasoning, trigger)
  }

  /** The longest chain of strict rises, by steps and critical jumps in any mix, that is still possible
      with the given distances to the top of the two ladders. */
  function Headroom(tierGap: nat, reasoningGap: nat): nat
    decreases tierGap, reasoningGap
  {
    if tierGap == 0 then reasoningGap
    else Max(
      1 + Headroom(tierGap - 1, if reasoningGap > 0 then reasoningGap - 1 else 0),
      1 + Min(reasoningGap, MaxEffort.Rank() - High.Rank()))
  }

  function Climb(tier: ModelTier, reasoning: ReasoningEffort): nat {
    Headroom(Frontier.Rank() - tier.Rank(), MaxEffort.Rank() - reasoning.Rank())
  }

  /** From anywhere on the two ladders at most five rises are possible. */
  lemma ClimbIsShort(tier: ModelTier, reasoning: ReasoningEffort)
    ensures Climb(tier, reasoning) <= 5
  {
    forall r: nat | r <= 5
      ensures Headroom(1, r) == if r <= 2 then r + 1 else r
    {
      assert Headroom(1, r) == Max(1 + Headroom(0, if r > 0 then r - 1 else 0), 1 + Min(r, 2));
    }
    forall r: nat | r <= 5
      ensures Headroom(2, r) == if r == 0 then 2 else if r <= 2 then r + 1 else Max(r, 4)
    {
      assert Headroom(2, r) == Max(1 + Headroom(1, if r > 0 then r - 1 else 0), 1 + Min(r, 2));
    }
    forall r: nat | r <= 5 ensures Headroom(3, r) <= 5 {
      assert Headroom(3, r) == Max(1 + Headroom(2, if r > 0 then r - 1 else 0), 1 + Min(r, 2));
    }
  }

  /** One rung up on both ladders, where there is one, uses up headroom. */
  lemma StepUsesHeadroom(gap: nat, depth: nat)
    requires gap > 0 || depth > 0
    ensures Headroom(if gap > 0 then gap - 1 else 0, if depth > 0 then depth - 1 else 0) < Headroom(gap, depth)
  {}

  /** A jump to the top tier with at least high effort leaves less headroom than there was. */
  lemma JumpUsesHeadroom(gap: nat, depth: nat)
    requires gap > 0 || depth > MaxEffort.Rank() - High.Rank()
    ensures Headroom(0, Min(depth, MaxEffort.Rank() - High.Rank())) < Headroom(gap, depth)
  {}

  /** How far a trigger moves on the two ladders, measured from their tops. */
  predicate Rise(gap: nat, depth: nat, gap': nat, depth': nat) {
    || (gap' == 0 && depth' == Min(depth, MaxEffort.Rank() - High.Rank()))
    || (gap' == Max(gap - 1, 0) && depth' == Max(depth - 1, 0))
  }

  lemma RiseUsesHeadroom(gap: nat, depth: nat, gap': nat, depth': nat)
    requires Rise(gap, depth, gap', depth') && (gap' != gap || depth' != depth)
    ensures gap' <= gap && depth' <= depth && Headroom(gap', depth') < Headroom(gap, depth)
  {
    if gap' == Max(gap - 1, 0) && depth' == Max(depth - 1, 0) {
      StepUsesHeadroom(gap, depth);
    } else {
      JumpUsesHeadroom(gap, depth);
    }
  }

  lemma TargetIsRise(tier: ModelTier, reasoning: ReasoningEffort, trigger: Trigger)
    ensures var (t, r) := Target(tier, reasoning, trigger);
      && Rise(Frontier.Rank() - tier.Rank(), MaxEffort.Rank() - reasoning.Rank(),
              Frontier.Rank() - t.Rank(), MaxEffort.Rank() - r.Rank())
      && ((t, r) != (tier, reasoning) ==> t.Rank() != tier.Rank() || r.Rank() != reasoning.Rank())
  {}

  lemma RiseUsesClimb(tier: ModelTier, reasoning: ReasoningEffort, trigger: Trigger)
    requires Target(tier, reasoning, trigger) != (tier, reasoning)
    ensures var (t, r) := Target(tier, reasoning, trigger);
      && tier.Rank() <= t.Rank() && reasoning.Rank() <= r.Rank()
      && (tier.Rank() < t.Rank() || reasoning.Rank() < r.Rank())
      && Climb(t, r) < Climb(tier, reasoning)
  {
    var (t, r) := Target(tier, reasoning, trigger);
    TargetIsRise(tier, reasoning, trigger);
    RiseUsesHeadroom(Frontier.Rank() - tier.Rank(), MaxEffort.Rank() - reasoning.Rank(),
                     Frontier.Rank() - t.Rank(), MaxEffort.Rank() - r.Rank());
  }

  /** An approval names a trigger that is present, respects the limit, strictly raises (tier, reasoning)
      in the product order, uses up climb, and is always followed by a reservation that succeeds. */
  lemma ApprovalIsAffordableRise(
    tier: ModelTier, reasoning: ReasoningEffort, used: nat, s: EscalationSignals,
    p: WatchdogPolicy, contextTokens: int, ledger: Ledger)
    requires contextTokens > 0
    ensures var d := DecideEscalation(tier, reasoning, used, s, p, contextTokens, ledger);
      d.Approved? ==>
        && TriggeringReason(s) == Some(d.trigger)
        && used < p.maxModelEscalations
        && tier.Rank() <= d.tier.Rank() && reasoning.Rank() <= d.reasoning.Rank()
        && (tier.Rank() < d.tier.Rank() || reasoning.Rank() < d.reasoning.Rank())
        && Climb(d.tier, d.reasoning) < Climb(tier, reasoning)
        && AfterReserve(ledger, EscalationCharge, contextTokens, EstimateCost(d.tier, contextTokens)).Ok?
  {
    var d := DecideEscalation(tier, reasoning, used, s, p, contextTokens, ledger);
    if d.Approved? {
      CostMonotone(d.tier, d.tier, contextTokens, contextTokens);
      RiseUsesClimb(tier, reasoning, d.trigger);
    }
  }

  /** The highest position a trigger can lead to from here is this position itself. */
  predicate AtCeiling(tier: ModelTier, reasoning: ReasoningEffort, trigger: Trigger) {
    && tier.Frontier?
    && reasoning.Rank() >= (if trigger.SecurityRisk? || trigger.ArchitecturalRisk? then High.Rank() else MaxEffort.Rank())
  }

  /** Ordinary evidence never skips a rung; only security or architectural risk jumps to the top tier. */
  lemma OnlyCriticalSignalsSkip(tier: ModelTier, reasoning: ReasoningEffort, trigger: Trigger)
    ensures var (t, r) := Target(tier, reasoning, trigger);
      if trigger.SecurityRisk? || trigger.ArchitecturalRisk?
      then t == Frontier && r.Rank() == Max(reasoning.Rank(), High.Rank())
      else t.Rank() == Min(tier.Rank() + 1, Frontier.Rank()) && r.Rank() == Min(reasoning.Rank() + 1, MaxEffort.Rank())
  {}

  lemma CeilingExactly(tier: ModelTier, reasoning: ReasoningEffort, trigger: Trigger)
    ensures Target(tier, reasoning, trigger) == (tier, reasoning) <==> AtCeiling(tier, reasoning, trigger)
  {
    OnlyCriticalSignalsSkip(tier, reasoning, trigger);
  }

  /** The evidence a trigger stands for. */
  predicate Present(kind: Trigger, s: EscalationSignals) {
    match kind
    case SecurityRisk => s.securityRisk
    case ArchitecturalRisk => s.architecturalRisk
    case RepeatedFailure => s.repeatedFailures >= 2
    case Uncertainty => s.uncertainty >= 0.6
    case InsufficientContext => s.insufficientContext
    case FailedTests => s.failedTests
    case StalledExecution => s.stalled
  }

  function Precedence(kind: Trigger): nat {
    match kind
    case SecurityRisk => 0
    case ArchitecturalRisk => 1
    case RepeatedFailure => 2
    case Uncertainty => 3
    case InsufficientContext => 4
    case FailedTests => 5
    case StalledExecution => 6
  }

  /** The trigger named is the evidence of highest precedence, and there is none exactly without evidence. */
  lemma TriggerIsFirst(s: EscalationSignals)
    ensures TriggeringReason(s).None? <==> forall k: Trigger :: !Present(k, s)
    ensures TriggeringReason(s).Some? ==>
      && Present(TriggeringReason(s).value, s)
      && forall k: Trigger :: Present(k, s) ==> Precedence(TriggeringReason(s).value) <= Precedence(k)
  {
    if TriggeringReason(s).None? {
      forall k: Trigger ensures !Present(k, s) {}
    } else {
      assert Present(TriggeringReason(s).value, s);
    }
  }

  lemma NoEvidence(s: EscalationSignals)
    ensures (forall k: Trigger :: !Present(k, s)) <==>
      && !s.securityRisk && !s.architecturalRisk && s.repeatedFailures < 2 && s.uncertainty < 0.6
      && !s.insufficientContext && !s.failedTests && !s.stalled
  {
    if forall k: Trigger :: !Present(k, s) {
      assert !Present(SecurityRisk, s) && !Present(ArchitecturalRisk, s) && !Present(RepeatedFailure, s);
      assert !Present(Uncertainty, s) && !Present(InsufficientContext, s) && !Present(FailedTests, s);
      assert !Present(StalledExecution, s);
    }
  }

  /** Where the evidence leads: with a security or an architectural risk, whatever else there is, to the top tier with
      at least high effort; otherwise one rung up on both ladders. */
  lemma EvidenceLeads(tier: ModelTier, reasoning: ReasoningEffort, s: EscalationSignals)
    requires TriggeringReason(s).Some?
    ensures var (t, r) := Target(tier, reasoning, TriggeringReason(s).value);
      if s.securityRisk || s.architecturalRisk
      then t == Frontier && r.Rank() == Max(reasoning.Rank(), High.Rank())
      else t.Rank() == Min(tier.Rank() + 1, Frontier.Rank()) && r.Rank() == Min(reasoning.Rank() + 1, MaxEffort.Rank())
    ensures var trigger := TriggeringReason(s).value;
      trigger.SecurityRisk? || trigger.ArchitecturalRisk? <==> s.securityRisk || s.architecturalRisk
  {
    OnlyCriticalSignalsSkip(tier, reasoning, TriggeringReason(s).value);
  }

  /** The tier an escalation would lead to. */
  function NextTier(tier: ModelTier, critical: bool): ModelTier {
    if critical then Frontier else TIER_LADDER[Min(tier.Rank() + 1, Frontier.Rank())]
  }

  /** When each answer is given, over the signals alone: no trigger exactly without evidence; otherwise the limit, then
      the ceiling of both ladders, then the budget for one context at the new tier may refuse; and an approval names
      the evidence of highest precedence and leads where it must. */
  lemma DecisionExactly(
    tier: ModelTier, reasoning: ReasoningEffort, used: nat, s: EscalationSignals,
    p: WatchdogPolicy, contextTokens: int, ledger: Ledger)
    ensures var d := DecideEscalation(tier, reasoning, used, s, p, contextTokens, ledger);
      var evidence :=
        || s.securityRisk || s.architecturalRisk || s.repeatedFailures >= 2 || s.uncertainty >= 0.6
        || s.insufficientContext || s.failedTests || s.stalled;
      var critical := s.securityRisk || s.architecturalRisk;
      var top := tier.Frontier? && reasoning.Rank() >= (if critical then High.Rank() else MaxEffort.Rank());
      var affordable := Fits(ledger, contextTokens, EstimateCost(NextTier(tier, critical), contextTokens));
      && (d.NoTrigger? <==> !evidence)
      && (d.LimitReached? <==> evidence && used >= p.maxModelEscalations)
      && (d.CeilingReached? <==> evidence && used < p.maxModelEscalations && top)
      && (d.BudgetDenied? <==> evidence && used < p.maxModelEscalations && !top && !affordable)
      && (d.Approved? ==>
            && (if critical then d.tier == Frontier && d.reasoning.Rank() == Max(reasoning.Rank(), High.Rank())
                else && d.tier.Rank() == Min(tier.Rank() + 1, Frontier.Rank())
                     && d.reasoning.Rank() == Min(reasoning.Rank() + 1, MaxEffort.Rank()))
            && Present(d.trigger, s)
            && forall k: Trigger :: Present(k, s) ==> Precedence(d.trigger) <= Precedence(k))
  {
    TriggerIsFirst(s);
    NoEvidence(s);
    if TriggeringReason(s).Some? {
      EvidenceLeads(tier, reasoning, s);
      CeilingExactly(tier, reasoning, TriggeringReason(s).value);
    }
  }

  datatype Position = Position(tier: ModelTier, reasoning: ReasoningEffort, used: nat)

  function AfterTrigger(from: Position, trigger: Trigger): Position {
    var (t, r) := Target(from.tier, from.reasoning, trigger);
    if t == from.tier && r == from.reasoning then from else Position(t, r, from.used + 1)
  }

  /** Five rises are attainable, by a mix of steps and a jump. */
  lemma FiveRisesAreAttainable()
    ensures
      var a := AfterTrigger(Position(Fast, Low, 0), FailedTests);
      var b := AfterTrigger(AfterTrigger(a, Uncertainty), SecurityRisk);
      AfterTrigger(AfterTrigger(b, FailedTests), FailedTests) == Position(Frontier, MaxEffort, 5)
  {}
}
