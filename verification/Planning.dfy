/** Staffing, the hard budget ceilings and the whole plan (planning.py, api.py). */
module Planning {
  import opened Common
  import opened Policies
  import opened Analysis
  import opened Routing

  datatype AgentRole = Planner | Researcher | Builder | Reviewer | Judge

  datatype AgentAssignment = AgentAssignment(role: AgentRole, tier: ModelTier, reasoning: ReasoningEffort, count: nat)

  datatype ExecutionStrategy =
    ExecutionStrategy(agents: seq<AgentAssignment>, judgeRequired: bool, order: seq<AgentRole>)

  datatype ExecutionPlan = ExecutionPlan(
    primary: ModelProfile,
    strategy: ExecutionStrategy,
    contextTokens: nat,
    cost: real,
    maxAgents: int,
    reviewRequired: bool)

  const RESEARCHER_AMBIGUITY := 0.5
  const DUAL_RESEARCHER_AMBIGUITY := 0.75
  const PLANNER_ARCHITECTURE := 0.5
  const JUDGE_RISK := 0.75

  function OneStepDown(tier: ModelTier): ModelTier {
    match tier
    case Frontier => Advanced
    case Advanced => Standard
    case Standard => Fast
    case Fast => Fast
  }

  function OneStepUp(tier: ModelTier): ModelTier {
    match tier
    case Fast => Standard
    case Standard => Advanced
    case Advanced => Frontier
    case Frontier => Frontier
  }

  predicate NeedsTeam(c: Complexity, r: Risk, p: Policy) {
    || c.score >= p.multiAgentComplexity
    || r.score >= p.multiAgentRisk
    || c.ambiguity >= RESEARCHER_AMBIGUITY
    || c.architecturalImpact >= PLANNER_ARCHITECTURE
    || r.priorFailures >= 0.5
    || (CriticalSignal(r, p) && p.critical.requireReview)
  }

  function Researchers(c: Complexity): nat {
    if c.ambiguity >= DUAL_RESEARCHER_AMBIGUITY then 2
    else if c.ambiguity >= RESEARCHER_AMBIGUITY then 1
    else 0
  }

  /** Who fills a role, if anyone does. */
  function Staffing(role: AgentRole, c: Complexity, r: Risk, m: ModelProfile, p: Policy): seq<AgentAssignment> {
    if role.Builder? then [AgentAssignment(Builder, m.tier, m.reasoning, 1)]
    else if !NeedsTeam(c, r, p) then []
    else match role
      case Planner =>
        if c.architecturalImpact >= PLANNER_ARCHITECTURE then [AgentAssignment(Planner, m.tier, Low, 1)] else []
      case Researcher =>
        if Researchers(c) > 0
        then [AgentAssignment(Researcher, OneStepDown(m.tier), Medium, Researchers(c))] else []
      case Judge =>
        if r.score >= JUDGE_RISK then [AgentAssignment(Judge, OneStepUp(m.tier), High, 1)]
        else if Researchers(c) >= 2 then [AgentAssignment(Judge, m.tier, High, 1)]
        else []
      case Reviewer =>
        [AgentAssignment(Reviewer, if r.score >= p.multiAgentRisk then OneStepUp(m.tier) else m.tier, Medium, 1)]
  }

  function Team(c: Complexity, r: Risk, m: ModelProfile, p: Policy): seq<AgentAssignment> {
    Staffing(Planner, c, r, m, p) + Staffing(Researcher, c, r, m, p) + Staffing(Judge, c, r, m, p)
    + Staffing(Builder, c, r, m, p) + Staffing(Reviewer, c, r, m, p)
  }

  function Roles(agents: seq<AgentAssignment>): seq<AgentRole> {
    seq(|agents|, i requires 0 <= i < |agents| => agents[i].role)
  }

  function AgentCount(agents: seq<AgentAssignment>): nat {
    if agents == [] then 0 else AgentCount(agents[..|agents| - 1]) + agents[|agents| - 1].count
  }

  function TotalCost(agents: seq<AgentAssignment>, tokens: int): real {
    if agents == [] then 0.0
    else
      var last := agents[|agents| - 1];
      TotalCost(agents[..|agents| - 1], tokens) + EstimateCost(last.tier, tokens) * (last.count as real)
  }

  function DesiredContext(t: TaskProfile, c: Complexity): int {
    (t.expectedOutputTokens as real * (2.0 + 4.0 * c.score)).Floor
  }

  /** The plan, or the refusal when any of the four ceilings would be passed. */
  function Plan(t: TaskProfile, c: Complexity, r: Risk, p: Policy): Result<ExecutionPlan>
    requires p.Valid()
  {
    var m := Route(c, r, p);
    var agents := Team(c, r, m, p);
    var desired := DesiredContext(t, c);
    var tokens := Max(desired, 1);
    if AgentCount(agents) > p.budget.maxAgents then Err(BudgetExceeded)
    else if desired > p.budget.maxContextTokens then Err(BudgetExceeded)
    else if TotalCost(agents, tokens) > p.budget.maxCost then Err(BudgetExceeded)
    else if tokens * AgentCount(agents) > p.budget.maxTokens then Err(BudgetExceeded)
    else
      var strategy := ExecutionStrategy(agents, Staffing(Judge, c, r, m, p) != [], Roles(agents));
      Ok(ExecutionPlan(m, strategy, tokens, TotalCost(agents, tokens), p.budget.maxAgents, Reviewer in Roles(agents)))
  }

  /** api.plan: analyse, then plan. */
  function PlanFor(t: TaskProfile, p: Policy): Result<ExecutionPlan>
    requires p.Valid()
  {
    Plan(t, AssessComplexity(t), AssessRisk(t), p)
  }

  method BuildExecutionStrategy(c: Complexity, r: Risk, m: ModelProfile, p: Policy) returns (s: ExecutionStrategy)
    ensures s.agents == Team(c, r, m, p)
    ensures s.order == Roles(s.agents)
    ensures s.judgeRequired <==> Staffing(Judge, c, r, m, p) != []
  {
    if !NeedsTeam(c, r, p) {
      return ExecutionStrategy([AgentAssignment(Builder, m.tier, m.reasoning, 1)], false, [Builder]);
    }
    var agents: seq<AgentAssignment> := [];
    var order: seq<AgentRole> := [];
    if c.architecturalImpact >= PLANNER_ARCHITECTURE {
      agents, order := Join(agents, order, AgentAssignment(Planner, m.tier, Low, 1));
    }
    assert agents == Staffing(Planner, c, r, m, p);

    var researcherCount := 0;
    if c.ambiguity >= DUAL_RESEARCHER_AMBIGUITY {
      researcherCount := 2;
    } else if c.ambiguity >= RESEARCHER_AMBIGUITY {
      researcherCount := 1;
    }
    ghost var planned := agents;
    if researcherCount > 0 {
      agents, order := Join(agents, order, AgentAssignment(Researcher, OneStepDown(m.tier), Medium, researcherCount));
    }
    assert agents == planned + Staffing(Researcher, c, r, m, p);

    ghost var researched := agents;
    var judgeRequired := researcherCount >= 2 || r.score >= JUDGE_RISK;
    if judgeRequired {
      var judgeTier := if r.score >= JUDGE_RISK then OneStepUp(m.tier) else m.tier;
      agents, order := Join(agents, order, AgentAssignment(Judge, judgeTier, High, 1));
    }
    assert agents == researched + Staffing(Judge, c, r, m, p);

    agents, order := Join(agents, order, AgentAssignment(Builder, m.tier, m.reasoning, 1));
    var reviewerTier := if r.score >= p.multiAgentRisk then OneStepUp(m.tier) else m.tier;
    agents, order := Join(agents, order, AgentAssignment(Reviewer, reviewerTier, Medium, 1));
    s := ExecutionStrategy(agents, judgeRequired, order);
  }

  /** One more assignment, at the end of the team and of the execution order. */
  method Join(agents: seq<AgentAssignment>, order: seq<AgentRole>, a: AgentAssignment)
    returns (agents': seq<AgentAssignment>, order': seq<AgentRole>)
    requires order == Roles(agents)
    ensures agents' == agents + [a] && order' == Roles(agents')
  {
    agents', order' := agents + [a], order + [a.role];
  }

  method CountAgents(agents: seq<AgentAssignment>) returns (count: nat)
    ensures count == AgentCount(agents)
  {
    count := 0;
    for i := 0 to |agents|
      invariant count == AgentCount(agents[..i])
    {
      assert agents[..i + 1][..i] == agents[..i];
      count := count + agents[i].count;
    }
    assert agents[..|agents|] == agents;
  }

  method SumCosts(agents: seq<AgentAssignment>, tokens: int) returns (total: real)
    ensures total == TotalCost(agents, tokens)
  {
    total := 0.0;
    for i := 0 to |agents|
      invariant total == TotalCost(agents[..i], tokens)
    {
      assert agents[..i + 1][..i] == agents[..i];
      total := total + EstimateCost(agents[i].tier, tokens) * (agents[i].count as real);
    }
    assert agents[..|agents|] == agents;
  }

  method BuildExecutionPlan(t: TaskProfile, c: Complexity, r: Risk, p: Policy) returns (plan: Result<ExecutionPlan>)
    requires p.Valid()
    ensures plan == Plan(t, c, r, p)
  {
    var primary := Route(c, r, p);
    var strategy := BuildExecutionStrategy(c, r, primary, p);
    var count := CountAgents(strategy.agents);
    if count > p.budget.maxAgents {
      return Err(BudgetExceeded);
    }
    var desired := DesiredContext(t, c);
    if desired > p.budget.maxContextTokens {
      return Err(BudgetExceeded);
    }
    var contextTokens := Max(desired, 1);
    var totalCost := SumCosts(strategy.agents, contextTokens);
    if totalCost > p.budget.maxCost {
      return Err(BudgetExceeded);
    }
    if contextTokens * count > p.budget.maxTokens {
      return Err(BudgetExceeded);
    }
    plan := Ok(ExecutionPlan(primary, strategy, contextTokens, totalCost, p.budget.maxAgents, Reviewer in strategy.order));
  }

  // ---- monotonicity ----------------------------------------------------------

  /** One role is filled by nobody, or by no more, no higher and no deeper-reasoning agents. */
  predicate SlotLeq(a: seq<AgentAssignment>, b: seq<AgentAssignment>) {
    || a == []
    || (&& |a| == 1 && |b| == 1
        && a[0].role == b[0].role
        && a[0].tier.Rank() <= b[0].tier.Rank()
        && a[0].reasoning.Rank() <= b[0].reasoning.Rank()
        && a[0].count <= b[0].count)
  }

  lemma StaffingMonotone(role: AgentRole, c: Complexity, r: Risk, m: ModelProfile,
                         c': Complexity, r': Risk, m': ModelProfile, p: Policy)
    requires ComplexityLeq(c, c') && RiskLeq(r, r')
    requires m.tier.Rank() <= m'.tier.Rank() && m.reasoning.Rank() <= m'.reasoning.Rank()
    ensures SlotLeq(Staffing(role, c, r, m, p), Staffing(role, c', r', m', p))
    ensures |Staffing(role, c', r', m', p)| <= 1
  {}

  lemma {:induction false} SumsSplit(a: seq<AgentAssignment>, b: seq<AgentAssignment>, tokens: int)
    ensures AgentCount(a + b) == AgentCount(a) + AgentCount(b)
    ensures TotalCost(a + b, tokens) == TotalCost(a, tokens) + TotalCost(b, tokens)
  {
    if b == [] {
      assert a + b == a;
    } else {
      assert (a + b)[..|a + b| - 1] == a + b[..|b| - 1];
      SumsSplit(a, b[..|b| - 1], tokens);
    }
  }

  lemma OneSlot(a: AgentAssignment, tokens: int)
    ensures AgentCount([a]) == a.count
    ensures TotalCost([a], tokens) == EstimateCost(a.tier, tokens) * (a.count as real)
  {
    assert [a][..0] == [];
  }

  lemma SlotCosts(a: AgentAssignment, b: AgentAssignment, fewer: nat, more: nat)
    requires a.tier.Rank() <= b.tier.Rank() && a.count <= b.count && fewer <= more
    ensures 0.0 <= EstimateCost(a.tier, fewer) * (a.count as real) <= EstimateCost(b.tier, more) * (b.count as real)
  {
    CostMonotone(a.tier, b.tier, fewer, more);
    Product(EstimateCost(a.tier, fewer), EstimateCost(b.tier, more), a.count as real, b.count as real);
  }

  lemma OneSlotCosts(a: AgentAssignment, b: AgentAssignment, fewer: nat, more: nat)
    requires a.tier.Rank() <= b.tier.Rank() && a.count <= b.count && fewer <= more
    ensures 0.0 <= TotalCost([a], fewer) <= TotalCost([b], more)
    ensures AgentCount([a]) <= AgentCount([b])
  {
    OneSlot(a, fewer);
    OneSlot(b, more);
    SlotCosts(a, b, fewer, more);
  }

  lemma SlotSums(a: seq<AgentAssignment>, b: seq<AgentAssignment>, fewer: nat, more: nat)
    requires SlotLeq(a, b) && |b| <= 1 && fewer <= more
    ensures AgentCount(a) <= AgentCount(b)
    ensures TotalCost(a, fewer) <= TotalCost(b, more)
  {
    if a != [] {
      assert a == [a[0]] && b == [b[0]];
      OneSlotCosts(a[0], b[0], fewer, more);
    } else if b != [] {
      assert b == [b[0]];
      OneSlotCosts(b[0], b[0], more, more);
    }
  }

  lemma TeamSums(c: Complexity, r: Risk, m: ModelProfile, p: Policy, tokens: int)
    ensures var s := (role: AgentRole) => Staffing(role, c, r, m, p);
      && AgentCount(Team(c, r, m, p)) ==
           AgentCount(s(Planner)) + AgentCount(s(Researcher)) + AgentCount(s(Judge)) + AgentCount(s(Builder)) + AgentCount(s(Reviewer))
      && TotalCost(Team(c, r, m, p), tokens) ==
           TotalCost(s(Planner), tokens) + TotalCost(s(Researcher), tokens) + TotalCost(s(Judge), tokens)
           + TotalCost(s(Builder), tokens) + TotalCost(s(Reviewer), tokens)
  {
    var a, b := Staffing(Planner, c, r, m, p), Staffing(Researcher, c, r, m, p);
    var d, e, f := Staffing(Judge, c, r, m, p), Staffing(Builder, c, r, m, p), Staffing(Reviewer, c, r, m, p);
    SumsSplit(a, b, tokens);
    SumsSplit(a + b, d, tokens);
    SumsSplit(a + b + d, e, tokens);
    SumsSplit(a + b + d + e, f, tokens);
  }

  lemma TeamMonotone(c: Complexity, r: Risk, m: ModelProfile, c': Complexity, r': Risk, m': ModelProfile,
                     p: Policy, fewer: nat, more: nat)
    requires ComplexityLeq(c, c') && RiskLeq(r, r') && fewer <= more
    requires m.tier.Rank() <= m'.tier.Rank() && m.reasoning.Rank() <= m'.reasoning.Rank()
    ensures AgentCount(Team(c, r, m, p)) <= AgentCount(Team(c', r', m', p))
    ensures TotalCost(Team(c, r, m, p), fewer) <= TotalCost(Team(c', r', m', p), more)
  {
    TeamSums(c, r, m, p, fewer);
    TeamSums(c', r', m', p, more);
    forall role: AgentRole
      ensures AgentCount(Staffing(role, c, r, m, p)) <= AgentCount(Staffing(role, c', r', m', p))
      ensures TotalCost(Staffing(role, c, r, m, p), fewer) <= TotalCost(Staffing(role, c', r', m', p), more)
    {
      StaffingMonotone(role, c, r, m, c', r', m', p);
      SlotSums(Staffing(role, c, r, m, p), Staffing(role, c', r', m', p), fewer, more);
    }
  }

  lemma ContextMonotone(t: TaskProfile, c: Complexity, t': TaskProfile, c': Complexity)
    requires 0.0 <= c.score <= c'.score && t.expectedOutputTokens <= t'.expectedOutputTokens
    ensures 0 <= DesiredContext(t, c) <= DesiredContext(t', c')
  {
    Product(t.expectedOutputTokens as real, t'.expectedOutputTokens as real, 2.0 + 4.0 * c.score, 2.0 + 4.0 * c'.score);
  }

  /** Each easy agent has a hard counterpart in the same role that is at least as capable and as numerous. */
  ghost predicate CoveredBy(easy: seq<AgentAssignment>, hard: seq<AgentAssignment>) {
    forall a | a in easy :: exists b | b in hard ::
      && a.role == b.role && a.tier.Rank() <= b.tier.Rank()
      && a.reasoning.Rank() <= b.reasoning.Rank() && a.count <= b.count
  }

  lemma TeamsCover(c: Complexity, r: Risk, m: ModelProfile, c': Complexity, r': Risk, m': ModelProfile, p: Policy)
    requires ComplexityLeq(c, c') && RiskLeq(r, r')
    requires m.tier.Rank() <= m'.tier.Rank() && m.reasoning.Rank() <= m'.reasoning.Rank()
    ensures CoveredBy(Team(c, r, m, p), Team(c', r', m', p))
  {
    forall a | a in Team(c, r, m, p)
      ensures exists b | b in Team(c', r', m', p) ::
        && a.role == b.role && a.tier.Rank() <= b.tier.Rank()
        && a.reasoning.Rank() <= b.reasoning.Rank() && a.count <= b.count
    {
      assert a in Staffing(a.role, c, r, m, p);
      StaffingMonotone(a.role, c, r, m, c', r', m', p);
      var b := Staffing(a.role, c', r', m', p)[0];
      assert b in Staffing(a.role, c', r', m', p);
      assert b in Team(c', r', m', p);
    }
  }

  lemma TokensMonotone(t: nat, n: nat, t': nat, n': nat)
    requires t <= t' && n <= n'
    ensures t * n <= t' * n'
  {}

  /** End to end: an easier task never gets a higher tier, more reasoning, a larger team, more context
      or more cost, and acceptance is downward closed. */
  lemma PlanningIsMonotone(easy: TaskProfile, hard: TaskProfile, p: Policy)
    requires p.Valid() && Easier(easy, hard)
    requires PlanFor(hard, p).Ok?
    ensures PlanFor(easy, p).Ok?
    ensures var a, b := PlanFor(easy, p).value, PlanFor(hard, p).value;
      && a.primary.tier.Rank() <= b.primary.tier.Rank()
      && a.primary.reasoning.Rank() <= b.primary.reasoning.Rank()
      && CoveredBy(a.strategy.agents, b.strategy.agents)
      && AgentCount(a.strategy.agents) <= AgentCount(b.strategy.agents)
      && a.contextTokens <= b.contextTokens
      && a.contextTokens * AgentCount(a.strategy.agents) <= b.contextTokens * AgentCount(b.strategy.agents)
      && a.cost <= b.cost
  {
    var c, r := AssessComplexity(easy), AssessRisk(easy);
    var c', r' := AssessComplexity(hard), AssessRisk(hard);
    var m, m' := Route(c, r, p), Route(c', r', p);
    AssessmentMonotone(easy, hard);
    RouteMonotone(c, r, c', r', p);
    ContextMonotone(easy, c, hard, c');
    var tokens, tokens' := Max(DesiredContext(easy, c), 1), Max(DesiredContext(hard, c'), 1);
    TeamMonotone(c, r, m, c', r', m', p, tokens, tokens');
    TeamsCover(c, r, m, c', r', m', p);
    TokensMonotone(tokens, AgentCount(Team(c, r, m, p)), tokens', AgentCount(Team(c', r', m', p)));
  }

  lemma SlotIsNotFree(role: AgentRole, c: Complexity, r: Risk, m: ModelProfile, p: Policy, tokens: nat)
    ensures TotalCost(Staffing(role, c, r, m, p), tokens) >= 0.0
  {
    StaffingMonotone(role, c, r, m, c, r, m, p);
    SlotSums([], Staffing(role, c, r, m, p), tokens, tokens);
  }

  lemma TeamIsNotFree(c: Complexity, r: Risk, m: ModelProfile, p: Policy, tokens: nat)
    ensures TotalCost(Team(c, r, m, p), tokens) >= 0.0
    ensures AgentCount(Team(c, r, m, p)) >= 1
  {
    TeamSums(c, r, m, p, tokens);
    SlotIsNotFree(Planner, c, r, m, p, tokens);
    SlotIsNotFree(Researcher, c, r, m, p, tokens);
    SlotIsNotFree(Judge, c, r, m, p, tokens);
    SlotIsNotFree(Builder, c, r, m, p, tokens);
    SlotIsNotFree(Reviewer, c, r, m, p, tokens);
    OneSlot(AgentAssignment(Builder, m.tier, m.reasoning, 1), tokens);
  }

  lemma TeamsAreReviewed(c: Complexity, r: Risk, m: ModelProfile, p: Policy)
    ensures Reviewer in Roles(Team(c, r, m, p)) <==> NeedsTeam(c, r, p)
  {
    var agents := Team(c, r, m, p);
    if NeedsTeam(c, r, p) {
      assert agents[|agents| - 1].role == Reviewer;
      assert Roles(agents)[|agents| - 1] == Reviewer;
    } else {
      assert agents == [AgentAssignment(Builder, m.tier, m.reasoning, 1)];
    }
  }

  /** An accepted plan respects all four ceilings, is never empty of a Builder, and is reviewed exactly
      when it is staffed beyond one. */
  lemma AcceptedPlanFits(t: TaskProfile, c: Complexity, r: Risk, p: Policy)
    requires p.Valid() && Plan(t, c, r, p).Ok?
    ensures var plan := Plan(t, c, r, p).value;
      && 1 <= AgentCount(plan.strategy.agents) <= p.budget.maxAgents
      && 1 <= plan.contextTokens <= p.budget.maxContextTokens
      && 0.0 <= plan.cost <= p.budget.maxCost
      && plan.contextTokens * AgentCount(plan.strategy.agents) <= p.budget.maxTokens
      && (plan.reviewRequired <==> NeedsTeam(c, r, p))
  {
    var m := Route(c, r, p);
    TeamIsNotFree(c, r, m, p, Plan(t, c, r, p).value.contextTokens);
    TeamsAreReviewed(c, r, m, p);
  }

  // ---- the team and the plan, read off the task -----------------------------------

  /** Where a role stands in the order of execution. */
  function Turn(role: AgentRole): nat {
    match role
    case Planner => 0
    case Researcher => 1
    case Judge => 2
    case Builder => 3
    case Reviewer => 4
  }

  /** When a role is staffed at all. */
  predicate Called(role: AgentRole, c: Complexity, r: Risk, p: Policy) {
    var team :=
      || c.score >= p.multiAgentComplexity || r.score >= p.multiAgentRisk
      || c.ambiguity >= 0.5 || c.architecturalImpact >= 0.5 || r.priorFailures >= 0.5
      || (p.critical.requireReview
          && (|| r.securityImpact >= p.critical.securityAt || r.dataImpact >= p.critical.dataAt
              || r.irreversibility >= p.critical.irreversibilityAt));
    match role
    case Planner => c.architecturalImpact >= 0.5
    case Researcher => c.ambiguity >= 0.5
    case Judge => c.ambiguity >= 0.75 || (team && r.score >= 0.75)
    case Builder => true
    case Reviewer => team
  }

  /** What an agent in a role is given, measured on the ladders from the primary model. */
  predicate Equipped(a: AgentAssignment, c: Complexity, r: Risk, m: ModelProfile, p: Policy) {
    var up := Min(m.tier.Rank() + 1, Frontier.Rank());
    match a.role
    case Planner => a.tier == m.tier && a.reasoning == Low && a.count == 1
    case Researcher =>
      && a.tier.Rank() == Max(m.tier.Rank() - 1, 0) && a.reasoning == Medium
      && a.count == if c.ambiguity >= 0.75 then 2 else 1
    case Judge =>
      a.tier.Rank() == (if r.score >= 0.75 then up else m.tier.Rank()) && a.reasoning == High && a.count == 1
    case Builder => a.tier == m.tier && a.reasoning == m.reasoning && a.count == 1
    case Reviewer =>
      && a.tier.Rank() == (if r.score >= p.multiAgentRisk then up else m.tier.Rank())
      && a.reasoning == Medium && a.count == 1
  }

  /** A role is staffed by one assignment, exactly when it is called for, equipped as it must be. */
  lemma StaffingExactly(role: AgentRole, c: Complexity, r: Risk, m: ModelProfile, p: Policy)
    ensures var slot := Staffing(role, c, r, m, p);
      if Called(role, c, r, p) then |slot| == 1 && slot[0].role == role && Equipped(slot[0], c, r, m, p) else slot == []
  {}

  lemma TeamMembers(c: Complexity, r: Risk, m: ModelProfile, p: Policy, a: AgentAssignment)
    ensures a in Team(c, r, m, p) <==> a in Staffing(a.role, c, r, m, p)
  {
    StaffingExactly(Planner, c, r, m, p);
    StaffingExactly(Researcher, c, r, m, p);
    StaffingExactly(Judge, c, r, m, p);
    StaffingExactly(Builder, c, r, m, p);
    StaffingExactly(Reviewer, c, r, m, p);
  }

  /** The team of a task: exactly the roles called for, each once, in the order of execution, each equipped as it
      must be. */
  lemma TeamExactly(c: Complexity, r: Risk, m: ModelProfile, p: Policy)
    ensures var team := Team(c, r, m, p);
      && (forall a :: a in team ==> Called(a.role, c, r, p) && Equipped(a, c, r, m, p))
      && (forall role: AgentRole :: Called(role, c, r, p) ==> exists a :: a in team && a.role == role)
      && (forall i, j :: 0 <= i < j < |team| ==> Turn(team[i].role) < Turn(team[j].role))
  {
    var team := Team(c, r, m, p);
    forall a | a in team ensures Called(a.role, c, r, p) && Equipped(a, c, r, m, p) {
      TeamMembers(c, r, m, p, a);
      StaffingExactly(a.role, c, r, m, p);
    }
    forall role: AgentRole | Called(role, c, r, p) ensures exists a :: a in team && a.role == role {
      StaffingExactly(role, c, r, m, p);
      var a := Staffing(role, c, r, m, p)[0];
      TeamMembers(c, r, m, p, a);
    }
    TeamInTurn(c, r, m, p);
  }

  predicate InTurn(team: seq<AgentAssignment>, from: nat, upto: nat) {
    && (forall i :: 0 <= i < |team| ==> from <= Turn(team[i].role) < upto)
    && (forall i, j :: 0 <= i < j < |team| ==> Turn(team[i].role) < Turn(team[j].role))
  }

  lemma TurnsJoin(a: seq<AgentAssignment>, b: seq<AgentAssignment>, mid: nat)
    requires InTurn(a, 0, mid) && InTurn(b, mid, mid + 1)
    ensures InTurn(a + b, 0, mid + 1)
  {}

  lemma SlotInTurn(role: AgentRole, c: Complexity, r: Risk, m: ModelProfile, p: Policy)
    ensures InTurn(Staffing(role, c, r, m, p), Turn(role), Turn(role) + 1)
  {
    StaffingExactly(role, c, r, m, p);
  }

  lemma TeamInTurn(c: Complexity, r: Risk, m: ModelProfile, p: Policy)
    ensures InTurn(Team(c, r, m, p), 0, 5)
  {
    var a, b := Staffing(Planner, c, r, m, p), Staffing(Researcher, c, r, m, p);
    var d, e, f := Staffing(Judge, c, r, m, p), Staffing(Builder, c, r, m, p), Staffing(Reviewer, c, r, m, p);
    SlotInTurn(Planner, c, r, m, p);
    SlotInTurn(Researcher, c, r, m, p);
    SlotInTurn(Judge, c, r, m, p);
    SlotInTurn(Builder, c, r, m, p);
    SlotInTurn(Reviewer, c, r, m, p);
    TurnsJoin(a, b, 1);
    TurnsJoin(a + b, d, 2);
    TurnsJoin(a + b + d, e, 3);
    TurnsJoin(a + b + d + e, f, 4);
  }

  /** A plan is accepted exactly when all four ceilings hold; it is then the routed model with that team, a context of
      two to six times the expected output by complexity, rounded down but at least one token, and what the team costs
      for it. */
  lemma PlanExactly(t: TaskProfile, c: Complexity, r: Risk, p: Policy, context: nat)
    requires p.Valid() && context >= 1
    requires var wanted := t.expectedOutputTokens as real * (2.0 + 4.0 * c.score);
      context as real <= MaxReal(wanted, 1.0) < context as real + 1.0
    ensures var m := Route(c, r, p);
      var team := Team(c, r, m, p);
      var plan := Plan(t, c, r, p);
      && (plan.Ok? <==>
            && AgentCount(team) <= p.budget.maxAgents && context <= p.budget.maxContextTokens
            && TotalCost(team, context) <= p.budget.maxCost && context * AgentCount(team) <= p.budget.maxTokens)
      && (plan.Err? ==> plan.error == BudgetExceeded)
      && (plan.Ok? ==>
            && plan.value.primary == m && plan.value.strategy.agents == team
            && plan.value.contextTokens == context && plan.value.cost == TotalCost(team, context)
            && plan.value.maxAgents == p.budget.maxAgents
            && plan.value.strategy.order == Roles(team)
            && (plan.value.strategy.judgeRequired <==> Called(Judge, c, r, p))
            && (plan.value.reviewRequired <==> Called(Reviewer, c, r, p)))
  {
    ContextIs(t, c, context);
    StaffingExactly(Judge, c, r, Route(c, r, p), p);
    TeamsAreReviewed(c, r, Route(c, r, p), p);
  }

  lemma ContextIs(t: TaskProfile, c: Complexity, context: nat)
    requires context >= 1
    requires var wanted := t.expectedOutputTokens as real * (2.0 + 4.0 * c.score);
      context as real <= MaxReal(wanted, 1.0) < context as real + 1.0
    ensures Max(DesiredContext(t, c), 1) == context
  {
    var wanted := t.expectedOutputTokens as real * (2.0 + 4.0 * c.score);
    assert wanted.Floor as real <= wanted < wanted.Floor as real + 1.0;
  }
}
