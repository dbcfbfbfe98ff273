/** The audit trail: every call keeps the episodes as they happened, the strategies on the ladder, and the
    cause of a block true. */
module SupervisionAudit {
  import opened Common
  import opened Policies
  import opened StateMachine
  import opened Stall
  import opened Recovery
  import opened Budget
  import opened Checkpoints
  import opened Routing
  import opened Supervision
  import opened SupervisionInvariants
  import opened SupervisionMoves
  import opened SupervisionSoundness
  import opened SupervisionBounds

  // ---- the open episode ------------------------------------------------------------------

  /** The next strategy is the first rung not used up, exactly while the ladder and the bound have one left. */
  lemma NextIsNextRung(p: WatchdogPolicy, g: Guard, e: Episode)
    requires LadderOk(p, Stalled, g, e) && g.recoveryAttempts < p.maxRecoveryAttempts
    ensures NextStrategy(p, e.tried, |e.attempts| + 1) ==
            if |e.tried| < |LADDER| then Some(LADDER[|e.tried|]) else None
  {
    LadderIsClimbedInOrder(p, |e.tried|, |e.attempts| + 1);
  }

  lemma OneLonger<T>(all: seq<T>, k: nat)
    requires k < |all|
    ensures all[..k] + [all[k]] == all[..k + 1]
  {}

  lemma ClimbingStill(attempts: seq<RecoveryAttempt>, top: nat)
    requires Climbing(attempts, top)
    ensures Climbing(attempts, top + 1)
  {}

  lemma LadderSpent(p: WatchdogPolicy, g: Guard, e: Episode, strategy: Strategy)
    requires LadderOk(p, Stalled, g, e) && g.recoveryAttempts < p.maxRecoveryAttempts && Violations(p, g) == []
    requires NextStrategy(p, e.tried, |e.attempts| + 1) == Some(strategy)
    ensures Rung(strategy) == |e.tried|
    ensures LadderOk(p, Stalled, g.(recoveryAttempts := g.recoveryAttempts + 1), e.(tried := e.tried + [strategy]))
  {
    NextIsNextRung(p, g, e);
    LadderRungs(|e.tried|);
    LadderExtended(p, LADDER, g, e, strategy);
  }

  lemma LadderExtended(p: WatchdogPolicy, ladder: seq<Strategy>, g: Guard, e: Episode, strategy: Strategy)
    requires ladder == LADDER && |e.tried| < |ladder| && strategy == ladder[|e.tried|]
    requires LadderOk(p, Stalled, g, e) && g.recoveryAttempts < p.maxRecoveryAttempts && Violations(p, g) == []
    ensures LadderOk(p, Stalled, g.(recoveryAttempts := g.recoveryAttempts + 1), e.(tried := e.tried + [strategy]))
  {
    OneLonger(ladder, |e.tried|);
    ClimbingStill(e.attempts, |e.tried|);
  }

  lemma LadderAttempted(p: WatchdogPolicy, g: Guard, e: Episode, reason: string, strategy: Strategy, at: real)
    requires LadderOk(p, Stalled, g, e) && e.tried != [] && Rung(strategy) == |e.tried| - 1 && !Blank(reason)
    requires Climbing(e.attempts, |e.tried| - 1) && |e.attempts| < |e.tried|
    ensures var attempt := RecoveryAttempt(reason, strategy, |e.attempts| + 1, Pending, at);
      LadderOk(p, Recovering, g, e.(attempts := e.attempts + [attempt]))
  {
    var attempts := e.attempts + [RecoveryAttempt(reason, strategy, |e.attempts| + 1, Pending, at)];
    assert attempts[..|attempts| - 1] == e.attempts;
  }

  lemma JudgedAttempts(s: W, result: RecoveryResult, at: real, p: WatchdogPolicy)
    requires LadderOk(p, Recovering, s.guard, s.episode)
    ensures var e := Judged(s, result, at).episode;
      && e == s.episode.(attempts := e.attempts)
      && |e.attempts| == |s.episode.attempts| > 0
      && AllFailedBut(e.attempts, result) && Climbing(e.attempts, |e.tried|)
      && (result.Failure? ==> AllFailed(e.attempts))
      && e.attempts[|e.attempts| - 1].strategy == s.episode.attempts[|e.attempts| - 1].strategy
  {
    var n := |s.episode.attempts|;
    var e := Judged(s, result, at).episode;
    assert e.attempts[..n - 1] == s.episode.attempts[..n - 1];
    if result.Failure? {
      forall i | 0 <= i < n ensures e.attempts[i].result.Failure? {
        if i < n - 1 { assert e.attempts[i] == e.attempts[..n - 1][i]; }
      }
    }
  }

  lemma LadderFellBack(p: WatchdogPolicy, g: Guard, e: Episode)
    requires g.recoveryAttempts == |e.tried| <= Min(|LADDER|, p.maxRecoveryAttempts)
    requires e.tried == LADDER[..|e.tried|] && e.attempts != []
    requires |e.attempts| <= |e.tried| && Climbing(e.attempts, |e.tried|) && AllFailed(e.attempts)
    requires Violations(p, g) == [] && e.attempts[|e.attempts| - 1].strategy != RequestHumanIntervention
    ensures LadderOk(p, Stalled, g, e)
  {
    var last := e.attempts[|e.attempts| - 1].strategy;
    assert LADDER[Rung(last)] == last;
  }

  // ---- the audit trail --------------------------------------------------------------------

  /** The one place an episode closes: it joins the audit trail exactly as it stands. */
  lemma AuditCloses(from: ExecutionState, to: ExecutionState, e: Episode, attempts: seq<RecoveryAttempt>,
                    closed: seq<RecoveryEpisode>, now: real, outcome: EpisodeOutcome, at: real)
    requires AuditOk(from, e, closed, now) && Open(from) && !Open(to) && now <= at
    requires to.Blocked? <==> outcome.GaveUp?
    requires Climbing(attempts, |LADDER|)
    requires if outcome.Resolved? then AllFailedBut(attempts, Success) else AllFailed(attempts)
    ensures e.openedAt.Some?
    ensures AuditOk(to, e.(attempts := attempts),
      closed + [RecoveryEpisode(e.number, e.reason, attempts, outcome, e.openedAt.value, at)], at)
  {
    var last := RecoveryEpisode(e.number, e.reason, attempts, outcome, e.openedAt.value, at);
    var more := closed + [last];
    assert EpisodeOk(last, |closed| + 1);
    forall i | 0 <= i < |more| ensures EpisodeOk(more[i], i + 1) && 0.0 <= more[i].openedAt && more[i].closedAt <= at {
      if i < |closed| { assert more[i] == closed[i]; }
    }
    AuditExtends(from, to, e, attempts, closed, now, last, at);
  }

  lemma AuditExtends(from: ExecutionState, to: ExecutionState, e: Episode, attempts: seq<RecoveryAttempt>,
                     closed: seq<RecoveryEpisode>, now: real, last: RecoveryEpisode, at: real)
    requires AuditOk(from, e, closed, now) && Open(from) && !Open(to) && now <= at
    requires last == RecoveryEpisode(e.number, e.reason, attempts, last.outcome, e.openedAt.value, at)
    requires to.Blocked? <==> last.outcome.GaveUp?
    requires forall i :: 0 <= i < |closed + [last]| ==>
      && EpisodeOk((closed + [last])[i], i + 1)
      && 0.0 <= (closed + [last])[i].openedAt && (closed + [last])[i].closedAt <= at
    ensures AuditOk(to, e.(attempts := attempts), closed + [last], at)
  {
    var more := closed + [last];
    forall i | 0 < i < |more| ensures more[i - 1].closedAt <= more[i].openedAt {
      if i == |closed| { assert more[i - 1] == closed[|closed| - 1]; }
    }
    forall i | 0 <= i < |more| ensures more[i].outcome.GaveUp? <==> to.Blocked? && i == |more| - 1 {
      if i < |closed| { assert more[i] == closed[i]; }
    }
  }

  lemma AuditOpens(from: ExecutionState, e: Episode, closed: seq<RecoveryEpisode>, now: real, e': Episode, at: real)
    requires AuditOk(from, e, closed, now) && from in ACTIVE && now <= at && 0.0 <= at
    requires e'.number == e.number + 1 && e'.openedAt == Some(at)
    ensures AuditOk(Stalled, e', closed, at)
  {}

  /** Inside an episode the attempts may change, and the state may alternate. */
  lemma AuditContinues(from: ExecutionState, to: ExecutionState, e: Episode, e': Episode,
                       closed: seq<RecoveryEpisode>, now: real, at: real)
    requires AuditOk(from, e, closed, now) && now <= at
    requires Open(from) && Open(to)
    requires e'.number == e.number && e'.openedAt == e.openedAt
    ensures AuditOk(to, e', closed, at)
  {}

  /** Outside an episode nothing is recorded. */
  lemma AuditRests(from: ExecutionState, to: ExecutionState, e: Episode, closed: seq<RecoveryEpisode>, now: real, at: real)
    requires AuditOk(from, e, closed, now) && now <= at
    requires to == from || (!InTrouble(from) && !InTrouble(to))
    ensures AuditOk(to, e, closed, at)
  {}

  // ---- moves ---------------------------------------------------------------------------------

  /** Only some fields matter to the audit. */
  lemma SameAudit(c: Config, s: W, t: W)
    requires Audited(c, s) && Now(s.clock) <= Now(t.clock)
    requires t.sm.state == s.sm.state || (!InTrouble(s.sm.state) && !InTrouble(t.sm.state))
    requires t.episode == s.episode && t.closed == s.closed && t.report == s.report
    requires t.guard.recoveryAttempts == s.guard.recoveryAttempts
    requires InTrouble(s.sm.state) ==> t.guard == s.guard && t.ledger == s.ledger && t.tier == s.tier && t.checkpoints == s.checkpoints
    ensures Audited(c, t)
  {
    AuditRests(s.sm.state, t.sm.state, s.episode, s.closed, Now(s.clock), Now(t.clock));
  }

  lemma AuditBegun(c: Config, s: W, ledger: Ledger, task: string, at: real)
    requires s == Init(c).(clock := s.clock, mirror := s.mirror) && c.Valid()
    ensures Audited(c, Touch(Begun(s, ledger, task, at), at))
  {
    assert LADDER[..0] == [];
  }

  lemma AuditStalled(c: Config, s: W, at: real, reasons: seq<StallSignal>)
    requires c.Valid() && Audited(c, s) && Active(s) && Now(s.clock) <= at && 0.0 <= at
    ensures Audited(c, StallOpened(s, at, reasons))
  {
    assert LADDER[..0] == [];
    AuditOpens(s.sm.state, s.episode, s.closed, Now(s.clock), StallOpened(s, at, reasons).episode, at);
  }

  lemma AuditSpent(c: Config, s: W, strategy: Strategy, charged: Ledger)
    requires Audited(c, s) && s.sm.state.Stalled?
    requires s.guard.recoveryAttempts < c.policy.watchdog.maxRecoveryAttempts && Violations(c.policy.watchdog, s.guard) == []
    requires NextStrategy(c.policy.watchdog, s.episode.tried, |s.episode.attempts| + 1) == Some(strategy)
    ensures Audited(c, Committing(s, strategy, charged))
    ensures Rung(strategy) == |s.episode.tried|
  {
    LadderSpent(c.policy.watchdog, s.guard, s.episode, strategy);
    AuditContinues(Stalled, Stalled, s.episode, Committing(s, strategy, charged).episode, s.closed, Now(s.clock), Now(s.clock));
  }

  lemma AuditAttempted(c: Config, s: W, at: real, reason: string, strategy: Strategy)
    requires Audited(c, s) && s.sm.state.Stalled? && Now(s.clock) <= at && !Blank(reason)
    requires s.episode.tried != [] && Rung(strategy) == |s.episode.tried| - 1
    requires Climbing(s.episode.attempts, |s.episode.tried| - 1) && |s.episode.attempts| < |s.episode.tried|
    ensures Audited(c, Touch(Attempting(s, at, reason, strategy), at))
  {
    LadderAttempted(c.policy.watchdog, s.guard, s.episode, reason, strategy, at);
    AuditContinues(Stalled, Recovering, s.episode, Attempting(s, at, reason, strategy).episode, s.closed, Now(s.clock), at);
  }

  lemma AuditTried(c: Config, s: W, at: real, reason: string, strategy: Strategy, charged: Ledger)
    requires Audited(c, s) && s.sm.state.Stalled? && Now(s.clock) <= at && !Blank(reason)
    requires s.guard.recoveryAttempts < c.policy.watchdog.maxRecoveryAttempts && Violations(c.policy.watchdog, s.guard) == []
    requires NextStrategy(c.policy.watchdog, s.episode.tried, |s.episode.attempts| + 1) == Some(strategy)
    ensures Audited(c, Touch(Attempting(Committing(s, strategy, charged), at, reason, strategy), at))
  {
    AuditSpent(c, s, strategy, charged);
    AuditAttempted(c, Committing(s, strategy, charged), at, reason, strategy);
  }

  lemma ReserveRefused(l: Ledger, kind: ReservationKind, tokens: int, cost: real)
    requires tokens >= 0 && cost >= 0.0 && !kind.AgentDispatch?
    ensures ChargeLedger(l, kind, tokens, cost).Ok? <==> Fits(l, tokens, cost)
  {
    ReservedIsCharged(l, kind, tokens, cost);
  }

  /** Every obstacle is what the report will claim it is. */
  lemma DenialIsExplained(c: Config, s: W, blocker: Blocker)
    requires c.Valid() && LadderOk(c.policy.watchdog, Stalled, s.guard, s.episode) && Admit(c, s) == Denied(blocker)
    ensures Explained(c, s.guard, s.ledger, s.episode, RecoveryCost(c, s),
                      BlockedReport(blocker, None, |s.episode.attempts|, s.episode.tried))
  {
    CostMonotone(s.tier, s.tier, c.contextTokens, c.contextTokens);
    ReserveRefused(s.ledger, RecoveryCharge, c.contextTokens, RecoveryCost(c, s));
    if s.guard.recoveryAttempts < c.policy.watchdog.maxRecoveryAttempts { NextIsNextRung(c.policy.watchdog, s.guard, s.episode); }
  }

  /** Closing as given up keeps the cause true and records the episode. */
  lemma AuditBlocked(c: Config, s: W, from: ExecutionState, before: Episode, now: real, at: real, blocker: Blocker)
    requires Open(from) && now <= at && AuditOk(from, before, s.closed, now)
    requires s.episode == before.(attempts := s.episode.attempts)
    requires LadderOk(c.policy.watchdog, Blocked, s.guard, s.episode) && AllFailed(s.episode.attempts)
    requires Explained(c, s.guard, s.ledger, s.episode, RecoveryCost(c, s),
                       BlockedReport(blocker, None, |s.episode.attempts|, s.episode.tried))
    ensures Audited(c, BlockedBy(s, at, blocker))
  {
    AuditCloses(from, Blocked, before, s.episode.attempts, s.closed, now, GaveUp, at);
  }

  lemma AuditGivenUp(c: Config, s: W, at: real, blocker: Blocker)
    requires c.Valid() && Audited(c, s) && s.sm.state.Stalled? && Now(s.clock) <= at && Admit(c, s) == Denied(blocker)
    ensures Audited(c, GivenUp(s, at, blocker))
  {
    DenialIsExplained(c, s, blocker);
    AuditBlocked(c, Enter(s, Recovering, at, []), Stalled, s.episode, Now(s.clock), at, blocker);
  }

  lemma AuditRecovered(c: Config, s: W, at: real, resume: ExecutionState, note: string)
    requires Audited(c, s) && s.sm.state.Recovering? && Now(s.clock) <= at && resume in RESUMABLE
    ensures Audited(c, Touch(Recovered(Judged(s, Success, at), resume, at, note), at))
  {
    JudgedAttempts(s, Success, at, c.policy.watchdog);
    var e := Judged(s, Success, at).episode;
    AuditCloses(Recovering, resume, s.episode, e.attempts, s.closed, Now(s.clock), Resolved, at);
  }

  lemma AuditExhausted(c: Config, s: W, judged: W, at: real)
    requires Violations(c.policy.watchdog, s.guard) == []
    requires Audited(c, s) && s.sm.state.Recovering? && Now(s.clock) <= at
    requires judged == s.(episode := s.episode.(attempts := judged.episode.attempts)) && judged.episode.attempts != []
    requires |judged.episode.attempts| <= |s.episode.tried| && Climbing(judged.episode.attempts, |s.episode.tried|)
    requires AllFailed(judged.episode.attempts)
    requires judged.episode.attempts[|judged.episode.attempts| - 1].strategy == RequestHumanIntervention
    ensures Audited(c, BlockedBy(judged, at, AttemptsExhausted))
  {
    AuditBlocked(c, judged, Recovering, s.episode, Now(s.clock), at, AttemptsExhausted);
  }

  lemma AuditFellBack(c: Config, s: W, judged: W, at: real)
    requires Audited(c, s) && s.sm.state.Recovering? && Now(s.clock) <= at && Violations(c.policy.watchdog, s.guard) == []
    requires judged == s.(episode := s.episode.(attempts := judged.episode.attempts)) && judged.episode.attempts != []
    requires |judged.episode.attempts| <= |s.episode.tried| && Climbing(judged.episode.attempts, |s.episode.tried|)
    requires AllFailed(judged.episode.attempts)
    requires judged.episode.attempts[|judged.episode.attempts| - 1].strategy != RequestHumanIntervention
    ensures Audited(c, Touch(Enter(judged, Stalled, at, []), at))
  {
    LadderFellBack(c.policy.watchdog, judged.guard, judged.episode);
    AuditContinues(Recovering, Stalled, s.episode, judged.episode, s.closed, Now(s.clock), at);
  }

  lemma AuditFailed(c: Config, s: W, at: real, strategy: Strategy)
    requires Audited(c, s) && s.sm.state.Recovering? && Now(s.clock) <= at && Violations(c.policy.watchdog, s.guard) == []
    requires s.episode.attempts != [] && strategy == s.episode.attempts[|s.episode.attempts| - 1].strategy
    ensures Audited(c, Touch(FailedBack(c, Judged(s, Failure, at), at, strategy), at))
  {
    var judged := Judged(s, Failure, at);
    JudgedAttempts(s, Failure, at, c.policy.watchdog);
    if strategy.RequestHumanIntervention? {
      AuditExhausted(c, s, judged, at);
      assert Touch(BlockedBy(judged, at, AttemptsExhausted), at) == BlockedBy(judged, at, AttemptsExhausted);
    } else {
      AuditFellBack(c, s, judged, at);
    }
  }

  lemma AuditConcluded(c: Config, s: W, at: real, result: RecoveryResult, resume: ExecutionState, evidence: Option<string>)
    requires Audited(c, s) && s.sm.state.Recovering? && Now(s.clock) <= at && Violations(c.policy.watchdog, s.guard) == []
    requires s.episode.attempts != [] && (result.Success? ==> resume in RESUMABLE)
    ensures Audited(c, Touch(Concluded(c, s, at, result, resume, evidence), at))
  {
    var strategy := s.episode.attempts[|s.episode.attempts| - 1].strategy;
    if result.Success? {
      AuditRecovered(c, s, at, resume, NoteOf(evidence, strategy));
    } else {
      AuditFailed(c, s, at, strategy);
    }
  }

  lemma AuditEntered(c: Config, s: W, target: ExecutionState, at: real, evidence: seq<string>)
    requires Audited(c, s) && !InTrouble(s.sm.state) && !target.Stalled? && Refusal(s.sm, target, at, evidence).None?
    requires Now(s.clock) <= at
    ensures Audited(c, Touch(Enter(s, target, at, evidence), at))
  {
    SameAudit(c, s, Touch(Enter(s, target, at, evidence), at));
  }

  lemma AuditAdvanced(c: Config, s: W, call: Call)
    requires Audited(c, s) && call.Advance? && Refused(c, s, call).None?
    ensures Audited(c, Touch(Effect(c, s, call), call.at))
  {
    AdvanceEnters(c, s, call);
    AuditEntered(c, s, call.target, call.at, []);
  }

  lemma AdvanceEnters(c: Config, s: W, call: Call)
    requires call.Advance? && Refused(c, s, call).None?
    ensures !InTrouble(s.sm.state) && !call.target.Stalled? && Refusal(s.sm, call.target, call.at, []).None?
    ensures Now(s.clock) <= call.at && Effect(c, s, call) == Enter(s, call.target, call.at, [])
  {}

  lemma CompletionEnters(c: Config, s: W, call: Call)
    requires call.Complete? && Refused(c, s, call).None?
    ensures !InTrouble(s.sm.state) && Refusal(s.sm, ExecutionState.Completed, call.at, call.proof).None?
    ensures Now(s.clock) <= call.at && Effect(c, s, call) == Enter(s, ExecutionState.Completed, call.at, call.proof)
  {}

  lemma AuditCompleted(c: Config, s: W, call: Call)
    requires Audited(c, s) && call.Complete? && Refused(c, s, call).None?
    ensures Audited(c, Touch(Effect(c, s, call), call.at))
  {
    CompletionEnters(c, s, call);
    AuditEntered(c, s, ExecutionState.Completed, call.at, call.proof);
  }

  lemma AuditProgressed(c: Config, s: W, at: real, description: string)
    requires Audited(c, s) && Active(s) && Now(s.clock) <= at
    ensures Audited(c, Touch(Progressed(s, at, description), at))
  {
    SameAudit(c, s, Touch(Progressed(s, at, description), at));
  }

  lemma AuditSaved(c: Config, s: W, saved: seq<Checkpoint>, at: real)
    requires Audited(c, s) && Active(s) && Now(s.clock) <= at
    ensures Audited(c, Touch(s.(checkpoints := saved), at))
  {
    SameAudit(c, s, Touch(s.(checkpoints := saved), at));
  }

  lemma AuditEffect(c: Config, s: W, call: Call)
    requires c.Valid() && Sound(c, s) && Bounded(c, s) && Audited(c, s) && Plain(call) && Refused(c, s, call).None?
    ensures Audited(c, Touch(Effect(c, s, call), call.at))
  {
    if call.Start? {
      AuditBegun(c, s, Charged(s.ledger, InitialCharge(c, call.tokens, call.cost)).value, call.task, call.at);
    } else if call.Advance? {
      AuditAdvanced(c, s, call);
    } else if call.Complete? {
      AuditCompleted(c, s, call);
    } else if call.RecordRecoveryResult? {
      AuditConcluded(c, s, call.at, call.result, call.resume, call.evidence);
    } else if call.RecordProgress? {
      AuditProgressed(c, s, call.at, call.description);
    } else {
      AuditSaved(c, s, Effect(c, s, call).checkpoints, call.at);
    }
  }

  lemma AuditSigned(c: Config, s: W, at: real, ok: bool)
    requires Audited(c, s)
    ensures Audited(c, Mirrored(c, s, at, ok))
    ensures Audited(c, s.(mirror := s.mirror.(dirty := false)))
  {
    SameAudit(c, s, Mirrored(c, s, at, ok));
    SameAudit(c, s, s.(mirror := s.mirror.(dirty := false)));
  }

  lemma AuditTouched(c: Config, s: W, at: real)
    requires Audited(c, s) && Now(s.clock) <= at
    ensures Audited(c, Touch(s, at))
  {
    SameAudit(c, s, Touch(s, at));
  }

  lemma AuditNoted(c: Config, s: W, a: Activity)
    requires Audited(c, s) && Active(s) && Now(s.clock) <= a.at
    ensures Audited(c, Touch(Noted(s, a), a.at))
  {
    SameAudit(c, s, Touch(Noted(s, a), a.at));
  }

  lemma AuditRaised(c: Config, s: W, tier: ModelTier, reasoning: ReasoningEffort, charged: Ledger)
    requires Audited(c, s) && Active(s)
    ensures Audited(c, Raised(s, tier, reasoning, charged))
  {
    SameAudit(c, s, Raised(s, tier, reasoning, charged));
  }

  /** Moves that neither open, continue nor close an episode. */
  lemma AuditUntouched(c: Config, s: W, m: Move)
    requires Audited(c, s) && CanMove(c, s, m) && (m.Tick? || m.Sign? || m.Clear? || m.Note? || m.Raise?)
    ensures Audited(c, After(c, s, m))
  {
    match m
    case Tick(at) => AuditTouched(c, s, at);
    case Sign(at, ok) => AuditSigned(c, s, at, ok);
    case Clear => AuditSigned(c, s, 0.0, false);
    case Note(a) => AuditNoted(c, s, a);
    case Raise(tier, reasoning, _, charged) => AuditRaised(c, s, tier, reasoning, charged);
  }

  lemma AuditedMove(c: Config, s: W, m: Move)
    requires c.Valid() && Sound(c, s) && Bounded(c, s) && Audited(c, s) && CanMove(c, s, m)
    ensures Audited(c, After(c, s, m))
  {
    match m
    case Act(call) => AuditEffect(c, s, call);
    case Stall(at, reasons) => AuditStalled(c, s, at, reasons);
    case GiveUp(at, blocker) => AuditGivenUp(c, s, at, blocker);
    case Spend(strategy, _, charged) => AuditSpent(c, s, strategy, charged);
    case Try(at, reason, strategy, _, charged) => AuditTried(c, s, at, reason, strategy, charged);
    case _ => AuditUntouched(c, s, m);
  }

  lemma AuditedByMoves(c: Config, call: Call)
    requires c.Valid()
    ensures KeptBy(c, call, s => Sound(c, s) && Bounded(c, s) && Audited(c, s))
  {
    forall s, m | Sound(c, s) && Bounded(c, s) && Audited(c, s) && CanMove(c, s, m)
      ensures Sound(c, After(c, s, m)) && Bounded(c, After(c, s, m)) && Audited(c, After(c, s, m))
    {
      SoundMove(c, s, m);
      BoundedMove(c, s, m);
      AuditedMove(c, s, m);
    }
  }

  /** Every call, with any arguments and any write failures, keeps the audit trail. */
  lemma StepIsAudited(c: Config, s: W, call: Call, disk: Disk)
    requires c.Valid() && Sound(c, s) && Bounded(c, s) && Audited(c, s)
    ensures Audited(c, Step(c, s, call, disk).0)
  {
    AuditedByMoves(c, call);
    StepByMoves(c, s, call, disk, s => Sound(c, s) && Bounded(c, s) && Audited(c, s));
  }
}
