/** What every run records, what the durable heartbeat shows of it, and how an accepted plan begins. */
module SupervisionLifecycle {
  import opened Common
  import opened Policies
  import opened StateMachine
  import opened Recovery
  import opened Budget
  import opened Supervision
  import opened SupervisionInvariants
  import opened SupervisionMoves
  import opened SupervisionSoundness
  import opened SupervisionMirror
  import opened SupervisionGrowth
  import opened SupervisionRuns
  import Analysis
  import Planning
  import Heartbeats
  import Json

  // ---- edges, evidence and time ------------------------------------------------------------------------

  /** Every transition ever recorded is allowed, and neither Planning to Stalled nor out of Blocked;
      Completed is entered only from Reviewing with non-blank evidence; the history is one walk in time
      order, never ahead of the clock. */
  lemma OnlyCoordinatorEdges(c: Config, actions: seq<Action>)
    requires c.Valid()
    ensures var h := Reached(c, actions).sm.history;
      && (forall i :: 0 <= i < |h| ==>
            && h[i].to in Allowed(h[i].from)
            && !(h[i].from.Planning? && h[i].to.Stalled?) && !h[i].from.Blocked?
            && (h[i].to.Completed? ==> h[i].from.Reviewing? && h[i].evidence != [] && AllPresent(h[i].evidence)))
      && (forall i :: 0 < i < |h| ==> h[i].from == h[i - 1].to && h[i - 1].at <= h[i].at)
      && (forall i :: 0 <= i < |h| ==> h[i].at <= Now(Reached(c, actions).clock))
  {
    ReachedIsSound(c, actions);
    SoundHistory(c, Reached(c, actions));
  }

  lemma SoundHistory(c: Config, s: W)
    requires Sound(c, s)
    ensures Edged(s.sm) && HistoryTimed(s.sm.history, Now(s.clock))
  {}

  /** Records only grow along a run, and everything recorded lies between zero and the clock, in order. */
  lemma RecordsAreChronicles(c: Config, first: seq<Action>, then': seq<Action>)
    requires c.Valid()
    ensures Grows(Reached(c, first), Reached(c, first + then'))
    ensures TimelineOk(Reached(c, first + then'))
  {
    RunsJoin(c, Init(c), first, then');
    RunGrows(c, Reached(c, first), then');
    ReachedIsSound(c, first + then');
  }

  // ---- the durable mirror -----------------------------------------------------------------------------------

  lemma ReachedMirrors(c: Config, actions: seq<Action>)
    requires c.Valid()
    ensures Mirroring(c, Reached(c, actions), Lies(c, Init(c), actions, false))
    ensures MirrorReady(c, Reached(c, actions).mirror)
    ensures Reached(c, actions).startedAt.None? ==> !Reached(c, actions).mirror.dirty
  {
    InitialState(c);
    RunMirrors(c, Init(c), actions, false);
    RunIsReady(c, Init(c), actions);
  }

  lemma ExactReadsBack(c: Config, s: W)
    requires c.Valid() && Sound(c, s) && MirrorOk(c, s) && c.persistent && s.startedAt.Some? && !s.mirror.dirty
    ensures s.mirror.file.Some? && Heartbeats.Construct(s.mirror.file.value) == Ok(Projection(c, s, 0.0))
  {
    ProjectionIsValid(c, s, 0.0);
    Heartbeats.HeartbeatRoundTrip(Projection(c, s, 0.0));
  }

  lemma ShownIsValid(c: Config, s: W, k: nat)
    requires c.Valid() && Sound(c, s) && s.startedAt.Some? && k <= |s.episode.tried|
    ensures Projection(c, s, 0.0).(currentStrategy := StrategyShown(s.episode.tried, k)).Valid()
  {
    ProjectionIsValid(c, s, 0.0);
    if k > 0 { NamesAreText(NoStrategyLeft, s.episode.tried[k - 1]); }
  }

  lemma LastIsNew(tried: seq<Strategy>, n: nat)
    requires 0 < |tried| <= |LADDER| && n == |tried| - 1 && tried == LADDER[..|tried|]
    ensures tried[n] !in tried[..n]
  {
    forall i | 0 <= i < n ensures tried[i] != tried[n] {
      LadderRungs(i);
      LadderRungs(n);
    }
  }

  /** A wrong mirror reads back as a heartbeat, but not as the one of the current state. */
  lemma OutdatedReadsBack(c: Config, s: W)
    requires c.Valid() && Sound(c, s) && Outdated(c, s) && s.startedAt.Some?
    requires |s.episode.tried| <= |LADDER| && s.episode.tried == LADDER[..|s.episode.tried|]
    ensures s.mirror.file.Some? && Heartbeats.Construct(s.mirror.file.value) != Ok(Projection(c, s, 0.0))
  {
    var k: nat :| k < |s.episode.tried| && ShowsFirst(c, s, k);
    var shown := Projection(c, s, 0.0).(currentStrategy := StrategyShown(s.episode.tried, k));
    ShownIsValid(c, s, k);
    Heartbeats.HeartbeatRoundTrip(shown);
    LastIsNew(s.episode.tried, |s.episode.tried| - 1);
    LaterStrategyDiffers(s.episode.tried, k);
  }

  /** Once started with persistence, a mirror that is not marked stale reads back as the current state if and
      only if it does not lie: and it lies exactly from a call refused too late, while the mirror is clean, to the
      next accepted call that begins a recovery with a reason or gives up. */
  lemma CleanMirrorIsExact(c: Config, actions: seq<Action>)
    requires c.Valid()
    requires var s := Reached(c, actions); c.persistent && s.startedAt.Some? && !s.mirror.dirty
    ensures var s := Reached(c, actions);
      && s.mirror.file.Some?
      && (Heartbeats.Construct(s.mirror.file.value) == Ok(Projection(c, s, 0.0)) <==> !Lies(c, Init(c), actions, false))
  {
    var s := Reached(c, actions);
    ReachedIsSound(c, actions);
    ReachedMirrors(c, actions);
    if Lies(c, Init(c), actions, false) {
      OpenEpisode(c, actions);
      OutdatedReadsBack(c, s);
    } else {
      ExactReadsBack(c, s);
    }
  }

  /** While no call has been refused too late, there is no reachable state where the durable heartbeat is stale yet
      not marked so. */
  lemma TimelyMirrorIsExact(c: Config, actions: seq<Action>)
    requires c.Valid() && TooLate(c, Init(c), actions) == 0
    ensures MirrorOk(c, Reached(c, actions))
  {
    ReachedMirrors(c, actions);
    TimelyRunsAreHonest(c, Init(c), actions);
  }

  /** Synchronising changes nothing but the mirror, and when the write succeeds it stores the current state,
      not the one that first failed to be written. */
  lemma SyncStoresTheCurrentState(c: Config, actions: seq<Action>, disk: Disk)
    requires c.Valid()
    ensures var s := Reached(c, actions);
      var (t, reply) := Step(c, s, SyncHeartbeat, disk);
      && t == s.(mirror := t.mirror)
      && (reply.Done? <==> !s.mirror.dirty || disk.final)
      && (s.mirror.dirty && disk.final ==>
            !t.mirror.dirty && t.mirror.file == Some(Heartbeats.ToJson(Projection(c, s, 0.0))))
      && (s.mirror.dirty && !disk.final ==> t.mirror.dirty && t.mirror.file == s.mirror.file)
      && (!s.mirror.dirty ==> t == s)
  {
    var s := Reached(c, actions);
    ReachedIsSound(c, actions);
    ReachedMirrors(c, actions);
    SyncStep(c, s, disk);
  }

  lemma SyncStep(c: Config, s: W, disk: Disk)
    requires c.Valid() && Sound(c, s) && MirrorReady(c, s.mirror) && (s.startedAt.None? ==> !s.mirror.dirty)
    ensures var (t, reply) := Step(c, s, SyncHeartbeat, disk);
      && t == s.(mirror := t.mirror)
      && (reply.Done? <==> !s.mirror.dirty || disk.final)
      && (s.mirror.dirty && disk.final ==>
            !t.mirror.dirty && t.mirror.file == Some(Heartbeats.ToJson(Projection(c, s, 0.0))))
      && (s.mirror.dirty && !disk.final ==> t.mirror.dirty && t.mirror.file == s.mirror.file)
      && (!s.mirror.dirty ==> t == s)
  {
    if s.mirror.dirty { ProjectionIsValid(c, s, s.mirror.lastAt.value); }
  }

  // ---- from plan to run ------------------------------------------------------------------------------------------

  /** Supervision for a concrete plan: its whole estimate is charged when the execution starts. */
  function FromPlan(executionId: string, plan: Planning.ExecutionPlan, p: Policy, persistent: bool,
                    found: Option<Json.Json>): Config
  {
    Config(executionId, p, plan.contextTokens, plan.primary.tier, plan.primary.reasoning,
           Some(Charge(plan.contextTokens * Planning.AgentCount(plan.strategy.agents), plan.cost)), persistent, found)
  }

  lemma FittingChargeIsMade(c: Config, charge: Charge)
    requires c.Valid()
    requires 0 <= charge.tokens <= c.policy.budget.maxTokens && 0.0 <= charge.cost <= c.policy.budget.maxCost
    ensures Charged(Init(c).ledger, charge).Ok?
  {
    ReservedIsCharged(Init(c).ledger, InitialPlan, charge.tokens, charge.cost);
  }

  /** A plan accepted under a policy always starts under that policy: the only reasons left to refuse are
      a blank task and an untimely clock. */
  lemma AcceptedPlansStart(t: Analysis.TaskProfile, p: Policy, executionId: string, persistent: bool,
                           found: Option<Json.Json>, clock: Option<real>, task: string, at: real)
    requires p.Valid() && !Blank(executionId) && Planning.PlanFor(t, p).Ok?
    ensures var c := FromPlan(executionId, Planning.PlanFor(t, p).value, p, persistent, found);
      var s := Init(c).(clock := clock);
      && c.Valid()
      && Refused(c, s, Start(task, at, 0, 0.0)) ==
           if Blank(task) || Untimely(s, at) then Some(InvalidObservation) else None
  {
    var c := FromPlan(executionId, Planning.PlanFor(t, p).value, p, persistent, found);
    Planning.AcceptedPlanFits(t, Analysis.AssessComplexity(t), Analysis.AssessRisk(t), p);
    FittingChargeIsMade(c, c.planned.value);
  }
}
