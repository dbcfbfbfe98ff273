/** What every reachable state of a supervised execution satisfies. */
module SupervisionInvariants {
  import opened Common
  import opened Policies
  import opened StateMachine
  import opened Stall
  import opened Recovery
  import opened Budget
  import opened Checkpoints
  import opened Escalation
  import opened Supervision
  import Heartbeats

  // ---- time -----------------------------------------------------------------------

  function Now(clock: Option<real>): real { if clock.Some? then clock.value else 0.0 }

  predicate HistoryTimed(history: seq<TransitionRecord>, now: real) {
    && (forall i :: 0 <= i < |history| ==> 0.0 <= history[i].at <= now)
    && (forall i, j :: 0 <= i < j < |history| ==> history[i].at <= history[j].at)
  }

  predicate ActivitiesTimed(acts: seq<Activity>, now: real) {
    && (forall i :: 0 <= i < |acts| ==> 0.0 <= acts[i].at <= now)
    && ActivitiesOrdered(acts)
  }

  predicate ProgressTimed(events: seq<ProgressEvent>, now: real) {
    && (forall i :: 0 <= i < |events| ==> 0.0 <= events[i].at <= now)
    && Chronological(events)
  }

  /** Everything recorded is in order and no later than the clock. */
  predicate TimelineOk(s: W) {
    && 0.0 <= Now(s.clock)
    && HistoryTimed(s.sm.history, Now(s.clock))
    && ActivitiesTimed(s.activities, Now(s.clock))
    && ProgressTimed(s.progress, Now(s.clock))
    && (s.startedAt.Some? ==> s.clock.Some? && 0.0 <= s.startedAt.value <= s.clock.value)
    && (s.episode.openedAt.Some? ==> 0.0 <= s.episode.openedAt.value <= Now(s.clock))
  }

  // ---- lifecycle ---------------------------------------------------------------------

  /** The edges the coordinator takes: all allowed ones except Planning to Stalled and Blocked to Recovering. */
  predicate CoordinatorEdge(from: ExecutionState, to: ExecutionState) {
    to in Allowed(from) && !(from.Planning? && to.Stalled?) && !from.Blocked?
  }

  predicate RecordOk(t: TransitionRecord) {
    && CoordinatorEdge(t.from, t.to)
    && AllPresent(t.evidence)
    && (t.to.Completed? ==> t.from.Reviewing? && t.evidence != [])
  }

  /** The history is one walk along coordinator edges that leaves Planning once. */
  predicate Edged(m: Machine) {
    && Walk(m)
    && (forall i :: 0 <= i < |m.history| ==> RecordOk(m.history[i]))
    && (forall i :: 0 < i < |m.history| ==> !m.history[i].from.Planning?)
  }

  /** Planning is left by start, and until then nothing but the clock and the mirror has moved. */
  predicate LifecycleOk(c: Config, s: W) {
    && Edged(s.sm)
    && (s.startedAt.None? ==> s == Init(c).(clock := s.clock, mirror := s.mirror))
    && (s.startedAt.Some? ==> s.sm.history != [] && !Blank(s.facts.task))
    && !BlankIfGiven(s.facts.progressEvidence) && !BlankIfGiven(s.facts.lastError)
  }

  /** Holds between calls and inside them. */
  predicate Sound(c: Config, s: W) {
    TimelineOk(s) && LifecycleOk(c, s)
  }

  // ---- bounds ----------------------------------------------------------------------------

  predicate Open(state: ExecutionState) { state.Stalled? || state.Recovering? }

  predicate InTrouble(state: ExecutionState) { Open(state) || state.Blocked? }

  /** The counters of the guard are exact, and an attempt is only in flight within the global bounds. */
  predicate GuardOk(p: WatchdogPolicy, state: ExecutionState, g: Guard, attempts: nat, used: nat) {
    && g.noProgressCycles == (if InTrouble(state) then 1 else 0)
    && g.totalAttempts == attempts
    && g.escalations == used <= p.maxModelEscalations
    && (state.Recovering? ==> Violations(p, g) == [])
  }

  /** Each stall used up an activity of its own. */
  predicate HealingOk(p: WatchdogPolicy, state: ExecutionState, number: nat, activities: nat, recent: nat) {
    && number <= activities
    && number <= p.maxTotalAttempts + 1
    && (!InTrouble(state) ==> number + recent <= activities && number <= p.maxTotalAttempts)
  }

  predicate ClimbOk(c: Config, tier: ModelTier, reasoning: ReasoningEffort, used: nat) {
    Climb(tier, reasoning) + used <= Climb(c.initialTier, c.initialReasoning)
  }

  function BoundaryOf(s: W): real
    requires s.startedAt.Some?
  {
    Boundary(s.startedAt.value, LatestProgress(s.progress))
  }

  function FreshWork(s: W): nat {
    if s.startedAt.None? then 0 else |Since(s.activities, BoundaryOf(s))|
  }

  /** Everything that limits the execution is counted right and within its limit. */
  ghost predicate Bounded(c: Config, s: W) {
    && GuardOk(c.policy.watchdog, s.sm.state, s.guard, |s.activities|, s.escalationsUsed)
    && StreakOf(s.activities, s.guard.streak)
    && HealingOk(c.policy.watchdog, s.sm.state, s.episode.number, |s.activities|, FreshWork(s))
    && ClimbOk(c, s.tier, s.reasoning, s.escalationsUsed)
  }

  // ---- recovery ------------------------------------------------------------------------

  predicate AllFailed(attempts: seq<RecoveryAttempt>) {
    forall i :: 0 <= i < |attempts| ==> attempts[i].result.Failure?
  }

  predicate AllFailedBut(attempts: seq<RecoveryAttempt>, last: RecoveryResult) {
    && attempts != [] && attempts[|attempts| - 1].result == last
    && AllFailed(attempts[..|attempts| - 1])
  }

  /** Attempts are numbered, have a reason, and use strictly later rungs of the ladder, all below top. */
  predicate Climbing(attempts: seq<RecoveryAttempt>, top: nat) {
    && (forall i :: 0 <= i < |attempts| ==>
          attempts[i].number == i + 1 && !Blank(attempts[i].reason) && Rung(attempts[i].strategy) < top)
    && (forall i, j :: 0 <= i < j < |attempts| ==> Rung(attempts[i].strategy) < Rung(attempts[j].strategy))
  }

  /** Attempt i uses rung i: no rung was skipped. */
  predicate OnLadder(attempts: seq<RecoveryAttempt>) {
    |attempts| <= |LADDER| && forall i :: 0 <= i < |attempts| ==> attempts[i].strategy == LADDER[i]
  }

  /** The current episode: its strategies are a ladder prefix within the bounds, its attempts use some of
      them in order, and all of them were begun within the global bounds. */
  predicate LadderOk(p: WatchdogPolicy, state: ExecutionState, g: Guard, e: Episode) {
    && g.recoveryAttempts == |e.tried| <= Min(|LADDER|, p.maxRecoveryAttempts)
    && e.tried == LADDER[..|e.tried|]
    && |e.attempts| <= |e.tried| && Climbing(e.attempts, |e.tried|)
    && (state.Stalled? ==> AllFailed(e.attempts) && (e.tried != [] ==> Violations(p, g) == []))
    && (state.Stalled? && e.attempts != [] ==> Rung(e.attempts[|e.attempts| - 1].strategy) < |LADDER| - 1)
    && (state.Recovering? ==>
          && AllFailedBut(e.attempts, Pending)
          && Rung(e.attempts[|e.attempts| - 1].strategy) == |e.tried| - 1)
  }

  predicate EpisodeOk(e: RecoveryEpisode, number: nat) {
    && e.number == number && e.openedAt <= e.closedAt
    && Climbing(e.attempts, |LADDER|)
    && (if e.outcome.Resolved? then AllFailedBut(e.attempts, Success) else AllFailed(e.attempts))
  }

  /** The audit trail: closed episodes 1..n in order, all resolved except possibly the last, which gave up
      exactly in Blocked; an episode is open exactly in Stalled and Recovering. */
  predicate AuditOk(state: ExecutionState, e: Episode, closed: seq<RecoveryEpisode>, now: real) {
    && |closed| + (if Open(state) then 1 else 0) == e.number
    && (forall i :: 0 <= i < |closed| ==> EpisodeOk(closed[i], i + 1) && 0.0 <= closed[i].openedAt && closed[i].closedAt <= now)
    && (forall i :: 0 < i < |closed| ==> closed[i - 1].closedAt <= closed[i].openedAt)
    && (forall i :: 0 <= i < |closed| ==>
          (closed[i].outcome.GaveUp? <==> state.Blocked? && i == |closed| - 1))
    && (state.Blocked? ==> closed != [] && closed[|closed| - 1].attempts == e.attempts)
    && (e.number > 0 <==> e.openedAt.Some?)
    && (Open(state) ==>
          && 0.0 <= e.openedAt.value <= now
          && (closed != [] ==> closed[|closed| - 1].closedAt <= e.openedAt.value))
  }

  /** The cause a Blocked state carries still holds in that state, and no cause that is looked at earlier does. */
  predicate Explained(c: Config, g: Guard, l: Ledger, e: Episode, cost: real, r: BlockedReport) {
    var p := c.policy.watchdog;
    && r.attempts == |e.attempts| && r.tried == e.tried
    && (!r.blocker.GuardExceeded? ==> Violations(p, g) == [])
    && match r.blocker
       case GuardExceeded(bounds) => e.tried == [] && bounds == Violations(p, g) && bounds != []
       case EpisodeBoundReached => |e.tried| == p.maxRecoveryAttempts
       case NoStrategyLeft =>
         && |e.tried| == |LADDER| < p.maxRecoveryAttempts
         && (e.attempts != [] ==> Rung(e.attempts[|e.attempts| - 1].strategy) < |LADDER| - 1)
       case RecoveryBudgetExhausted =>
         |e.tried| < Min(|LADDER|, p.maxRecoveryAttempts) && !Fits(l, c.contextTokens, cost)
       case AttemptsExhausted =>
         e.attempts != [] && e.attempts[|e.attempts| - 1].strategy == RequestHumanIntervention
  }

  function LastCheckpoint(checkpoints: seq<Checkpoint>): Option<Checkpoint> {
    if checkpoints == [] then None else Some(checkpoints[|checkpoints| - 1])
  }

  predicate BlockedOk(c: Config, s: W) {
    && (s.sm.state.Blocked? <==> s.report.Some?)
    && (s.report.Some? ==>
          && Explained(c, s.guard, s.ledger, s.episode, RecoveryCost(c, s), s.report.value)
          && s.report.value.lastCheckpoint == LastCheckpoint(s.checkpoints))
  }

  /** Episodes are recorded as they happened. */
  predicate Audited(c: Config, s: W) {
    && LadderOk(c.policy.watchdog, s.sm.state, s.guard, s.episode)
    && AuditOk(s.sm.state, s.episode, s.closed, Now(s.clock))
    && BlockedOk(c, s)
  }

  // ---- money -----------------------------------------------------------------------------

  function AttemptsIn(closed: seq<RecoveryEpisode>): nat {
    if closed == [] then 0 else AttemptsIn(closed[..|closed| - 1]) + |closed[|closed| - 1].attempts|
  }

  /** All recovery attempts ever made, in closed episodes and in the open one. */
  function AttemptsEver(s: W): nat {
    AttemptsIn(s.closed) + if Open(s.sm.state) then |s.episode.attempts| else 0
  }

  function CountKind(entries: seq<Reservation>, kind: ReservationKind): nat {
    if entries == [] then 0
    else CountKind(entries[..|entries| - 1], kind) + if entries[|entries| - 1].kind == kind then 1 else 0
  }

  /** Every entry is committed; only the first can be the initial charge, the rest cost one context each. */
  predicate EntriesOk(entries: seq<Reservation>, contextTokens: int) {
    forall i :: 0 <= i < |entries| ==>
      && entries[i].state.Committed?
      && (entries[i].kind.InitialPlan? ==> i == 0)
      && (!entries[i].kind.InitialPlan? ==>
            entries[i].tokens == contextTokens && (entries[i].kind.RecoveryCharge? || entries[i].kind.EscalationCharge?))
  }

  /** The ledger is in order and holds nothing but the charges of this execution. */
  predicate Paid(c: Config, l: Ledger, used: nat) {
    && LedgerOk(l)
    && l.maxTokens == c.policy.budget.maxTokens && l.maxCost == c.policy.budget.maxCost
    && EntriesOk(l.entries, c.contextTokens)
    && CountKind(l.entries, EscalationCharge) == used
  }

  /** Recovery charges without an attempt on record. */
  function Owed(s: W): int { CountKind(s.ledger.entries, RecoveryCharge) - AttemptsEver(s) }

  // ---- rest ------------------------------------------------------------------------------

  /** At rest in an active state no clock-independent stall signal is pending. */
  ghost predicate Watched(c: Config, s: W) {
    c.policy.watchdog.enabled && Active(s) && s.startedAt.Some? ==>
      Quiet(c.policy.watchdog, Since(s.activities, BoundaryOf(s)))
  }

  predicate MirrorReady(c: Config, m: Mirror) {
    m.dirty ==> c.persistent && m.lastAt.Some?
  }

  /** A clean mirror is exact: the file holds the projection of the current state. */
  predicate MirrorOk(c: Config, s: W) {
    && MirrorReady(c, s.mirror)
    && (c.persistent && s.startedAt.Some? && !s.mirror.dirty ==>
          s.mirror.file == Some(Heartbeats.ToJson(Projection(c, s, 0.0))))
  }
}
