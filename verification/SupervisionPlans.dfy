/** What an execution is charged when it starts, with a plan and without one. */
module SupervisionPlans {
  import opened Common
  import opened Policies
  import opened Budget
  import opened Supervision
  import opened SupervisionInvariants
  import opened SupervisionRuns
  import opened SupervisionTheorems
  import opened SupervisionRecords
  import opened SupervisionAnswers
  import opened SupervisionLifecycle
  import Analysis
  import Planning
  import Json

  lemma OpeningTokens(entries: seq<Reservation>, charge: Charge)
    requires Opening(entries, charge)
    ensures TokensIn(entries, {Committed}) == charge.tokens && TokensIn(entries, LIVE) == charge.tokens
    ensures CostIn(entries, {Committed}) == charge.cost && CostIn(entries, LIVE) == charge.cost
  {
    if entries != [] {
      AppendTotals([], entries[0], {Committed});
      AppendTotals([], entries[0], LIVE);
      assert [] + entries == entries;
    }
  }

  /** What a start that goes through leaves. */
  predicate StartedOn(c: Config, t: W, start: Call, tokens: int, cost: real)
    requires start.Start?
  {
    && t.sm.state.Running? && t.startedAt == Some(start.at) && t.facts.task == start.task
    && TokensIn(t.ledger.entries, {Committed}) == tokens && CostIn(t.ledger.entries, {Committed}) == cost
    && TokensIn(t.ledger.entries, LIVE) == tokens && CostIn(t.ledger.entries, LIVE) == cost
    && t.tier == c.initialTier && t.reasoning == c.initialReasoning
  }

  lemma StartRuns(c: Config, s: W, start: Action)
    requires start.call.Start? && Refused(c, s, start.call).None?
    ensures Step(c, s, start.call, start.disk).0.sm.state.Running?
    ensures s.startedAt.None?
  {}

  lemma UnstartedIsFresh(c: Config, s: W)
    requires Sound(c, s) && s.startedAt.None?
    ensures s.tier == c.initialTier && s.reasoning == c.initialReasoning
  {}

  lemma StartCommits(c: Config, actions: seq<Action>, start: Action, charge: Charge)
    requires c.Valid() && start.call.Start? && Refused(c, Reached(c, actions), start.call).None?
    requires charge == InitialCharge(c, start.call.tokens, start.call.cost)
    ensures StartedOn(c, Step(c, Reached(c, actions), start.call, start.disk).0, start.call, charge.tokens, charge.cost)
  {
    var s := Reached(c, actions);
    var t := Step(c, s, start.call, start.disk).0;
    ReachedIsInOrder(c, actions);
    StartRuns(c, s, start);
    UnstartedIsFresh(c, s);
    StartOpens(c, s, start);
    OpeningTokens(t.ledger.entries, charge);
    StepRecords(c, s, start.call, start.disk);
    CapabilityExactly(c, s, start.call, start.disk);
  }

  /** Without a plan, a start that goes through commits exactly the tokens and the cost its caller gives. */
  lemma CallersChargeIsCommitted(c: Config, actions: seq<Action>, start: Action)
    requires c.Valid() && c.planned.None? && start.call.Start? && Refused(c, Reached(c, actions), start.call).None?
    ensures StartedOn(c, Step(c, Reached(c, actions), start.call, start.disk).0, start.call, start.call.tokens, start.call.cost)
  {
    StartCommits(c, actions, start, Charge(start.call.tokens, start.call.cost));
  }

  /** Under a plan, a start that goes through commits the context of every agent of the plan and the plan's cost, on the
      plan's tier and reasoning; every later charge is one context of the plan. */
  lemma PlanIsCommitted(t: Analysis.TaskProfile, p: Policy, executionId: string, persistent: bool,
                        found: Option<Json.Json>, actions: seq<Action>, start: Action)
    requires p.Valid() && !Blank(executionId) && Planning.PlanFor(t, p).Ok? && start.call.Start?
    requires var c := FromPlan(executionId, Planning.PlanFor(t, p).value, p, persistent, found);
      Refused(c, Reached(c, actions), start.call).None?
    ensures var plan := Planning.PlanFor(t, p).value;
      var c := FromPlan(executionId, plan, p, persistent, found);
      && StartedOn(c, Step(c, Reached(c, actions), start.call, start.disk).0, start.call,
                plan.contextTokens * Planning.AgentCount(plan.strategy.agents), plan.cost)
      && c.contextTokens == plan.contextTokens
      && c.initialTier == plan.primary.tier && c.initialReasoning == plan.primary.reasoning
      && c.executionId == executionId && c.policy == p && c.persistent == persistent
  {
    var plan := Planning.PlanFor(t, p).value;
    AcceptedPlansStart(t, p, executionId, persistent, found, None, start.call.task, start.call.at);
    StartCommits(FromPlan(executionId, plan, p, persistent, found), actions, start,
                 Charge(plan.contextTokens * Planning.AgentCount(plan.strategy.agents), plan.cost));
  }
}
