/** What supervision promises its callers, over every run from a fresh watchdog. */
module SupervisionTheorems {
  import opened Common
  import opened Policies
  import opened StateMachine
  import opened Stall
  import opened Recovery
  import opened Budget
  import opened Routing
  import opened Escalation
  import opened Supervision
  import opened SupervisionInvariants
  import opened SupervisionMoves
  import opened SupervisionSoundness
  import opened SupervisionBounds
  import opened SupervisionAudit
  import opened SupervisionMoney
  import opened SupervisionLadder
  import opened SupervisionGrowth
  import opened SupervisionRuns

  // ---- Blocked: exactly when, and why ---------------------------------------------------------

  /** Of the four loop bounds only two can ever be exceeded: the identical-failure streak and the total
      number of activities. */
  lemma OnlyTwoBoundsFire(c: Config, s: W)
    requires c.Valid() && Bounded(c, s)
    ensures Violations(c.policy.watchdog, s.guard) ==
      (if s.guard.streak > c.policy.watchdog.maxIdenticalFailures then [IdenticalFailureBound] else [])
      + (if |s.activities| > c.policy.watchdog.maxTotalAttempts then [TotalAttemptBound] else [])
  {}

  /** Bounds that hold across episodes. */
  predicate GlobalStop(c: Config, s: W, cost: real) {
    || s.guard.streak > c.policy.watchdog.maxIdenticalFailures
    || |s.activities| > c.policy.watchdog.maxTotalAttempts
    || !Fits(s.ledger, c.contextTokens, cost)
  }

  /** Nothing more may be tried from a stall. */
  predicate MustStop(c: Config, s: W, cost: real) {
    GlobalStop(c, s, cost) || |s.episode.tried| >= Min(|LADDER|, c.policy.watchdog.maxRecoveryAttempts)
  }

  lemma AdmissionAtCost(c: Config, s: W, cost: real)
    requires cost == RecoveryCost(c, s) && cost >= 0.0 && c.contextTokens >= 0
    requires Violations(c.policy.watchdog, s.guard) == []
    requires LadderOk(c.policy.watchdog, Stalled, s.guard, s.episode)
    ensures Admit(c, s).Denied? <==>
      |s.episode.tried| >= Min(|LADDER|, c.policy.watchdog.maxRecoveryAttempts) || !Fits(s.ledger, c.contextTokens, cost)
    ensures Admit(c, s).Admitted? ==> Admit(c, s).strategy == LADDER[|s.episode.tried|]
    ensures Admit(c, s) == Denied(NoStrategyLeft) <==> |LADDER| == |s.episode.tried| < c.policy.watchdog.maxRecoveryAttempts
  {
    if s.guard.recoveryAttempts < c.policy.watchdog.maxRecoveryAttempts { NextIsNextRung(c.policy.watchdog, s.guard, s.episode); }
    ReserveRefused(s.ledger, RecoveryCharge, c.contextTokens, cost);
  }

  /** What stands in the way of one more attempt, in measurable terms; and what it would try if nothing does. */
  lemma AdmissionExactly(c: Config, s: W)
    requires c.Valid() && Bounded(c, s) && Audited(c, s) && s.sm.state.Stalled?
    ensures Admit(c, s).Denied? <==> MustStop(c, s, RecoveryCost(c, s))
    ensures Admit(c, s).Admitted? ==> Admit(c, s).strategy == LADDER[|s.episode.tried|]
    ensures Admit(c, s) == Denied(NoStrategyLeft) <==>
      && Violations(c.policy.watchdog, s.guard) == []
      && |LADDER| == |s.episode.tried| < c.policy.watchdog.maxRecoveryAttempts
  {
    OnlyTwoBoundsFire(c, s);
    CostMonotone(s.tier, s.tier, c.contextTokens, c.contextTokens);
    if Violations(c.policy.watchdog, s.guard) == [] { AdmissionAtCost(c, s, RecoveryCost(c, s)); }
  }

  /** While no call has been refused too late the ladder itself never runs out: a stall always has a rung left. */
  lemma LadderNeverRunsOut(c: Config, actions: seq<Action>)
    requires c.Valid() && TooLate(c, Init(c), actions) == 0 && Reached(c, actions).sm.state.Stalled?
    ensures |Reached(c, actions).episode.tried| < |LADDER|
    ensures Admit(c, Reached(c, actions)) != Denied(NoStrategyLeft)
  {
    ReachedIsInOrder(c, actions);
    ReachedIsStraight(c, actions);
    StraightStallHasARung(c, Reached(c, actions));
    AdmissionExactly(c, Reached(c, actions));
  }

  lemma StraightStallHasARung(c: Config, s: W)
    requires Audited(c, s) && Straight(s) && s.sm.state.Stalled?
    ensures |s.episode.tried| < |LADDER|
  {
    if s.episode.attempts != [] { RungsFromBelow(s.episode.attempts, |s.episode.tried|, |s.episode.attempts| - 1); }
  }

  /** Where pursuing a stall leads. */
  lemma PursuitLeads(c: Config, s: W, at: real, reason: string, admission: Admission, ok: bool)
    ensures var t := Pursued(c, s, at, reason, admission, ok).0;
      if admission.Denied? then
        t.sm.state.Blocked? && t.clock == Some(at) && t.episode == s.episode
      else if Blank(reason) then
        t == Committing(s, admission.strategy, admission.ledger)
      else
        && t.sm.state.Recovering? && t.clock == Some(at)
        && t.episode.tried == s.episode.tried + [admission.strategy]
        && t.episode.attempts == s.episode.attempts +
             [RecoveryAttempt(reason, admission.strategy, |s.episode.attempts| + 1, Pending, at)]
  {}

  /** The state, the strategies used up and the attempts on record after an attempt to recover. */
  predicate Begins(s: W, t: W, at: real, reason: string, stop: bool) {
    if stop then
      t.sm.state.Blocked? && t.episode == s.episode
    else
      && |s.episode.tried| < |LADDER| && t.episode.tried == s.episode.tried + [LADDER[|s.episode.tried|]]
      && t.sm.state == (if Blank(reason) then Stalled else Recovering)
      && t.episode.attempts == s.episode.attempts +
           (if Blank(reason) then []
            else [RecoveryAttempt(reason, LADDER[|s.episode.tried|], |s.episode.attempts| + 1, Pending, at)])
  }

  lemma PursuitOutcome(c: Config, s: W, at: real, reason: string, ok: bool)
    requires c.Valid() && Bounded(c, s) && Audited(c, s) && s.sm.state.Stalled?
    ensures Begins(s, RecoveryFromStall(c, s, at, reason, ok).0, at, reason, MustStop(c, s, RecoveryCost(c, s)))
    ensures RecoveryFromStall(c, s, at, reason, ok).0.clock == if Blank(reason) && Admit(c, s).Admitted? then s.clock else Some(at)
  {
    AdmissionExactly(c, s);
    PursuitLeads(c, s, at, reason, Admit(c, s), ok);
  }

  lemma BeginningIsPursuit(c: Config, s: W, at: real, reason: string, disk: Disk)
    requires Refused(c, s, BeginRecovery(at, reason)).None?
    ensures Step(c, s, BeginRecovery(at, reason), disk) == RecoveryFromStall(c, s, at, reason, disk.recovery)
    ensures s.sm.state.Stalled?
  {}

  /** Beginning a recovery blocks exactly when a bound is passed or the charge does not fit; otherwise it
      makes one more attempt with the next rung, or, with a blank reason, uses that rung up for nothing. */
  lemma RecoveryBlocksExactly(c: Config, actions: seq<Action>, at: real, reason: string, disk: Disk)
    requires c.Valid() && Refused(c, Reached(c, actions), BeginRecovery(at, reason)).None?
    ensures var s := Reached(c, actions);
      Begins(s, Step(c, s, BeginRecovery(at, reason), disk).0, at, reason, MustStop(c, s, RecoveryCost(c, s)))
  {
    ReachedIsInOrder(c, actions);
    BeginningIsPursuit(c, Reached(c, actions), at, reason, disk);
    PursuitOutcome(c, Reached(c, actions), at, reason, disk.recovery);
  }

  lemma FailureLeads(c: Config, s: W, at: real, strategy: Strategy)
    requires Violations(c.policy.watchdog, s.guard) == []
    ensures var t := FailedBack(c, Judged(s, Failure, at), at, strategy);
      && t.sm.state == (if strategy.RequestHumanIntervention? then Blocked else Stalled)
      && t.episode.tried == s.episode.tried && |t.episode.attempts| == |s.episode.attempts|
  {}

  lemma FinishChanges(c: Config, s: W, at: real, ok: bool)
    ensures var t := Finish(c, s, at, ok).0; t == s.(clock := Some(at), mirror := t.mirror)
  {}

  lemma FailureIsConcluded(c: Config, s: W, at: real, resume: ExecutionState, evidence: Option<string>, disk: Disk)
    requires Refused(c, s, RecordRecoveryResult(at, Failure, resume, evidence)).None?
    ensures s.sm.state.Recovering? && s.episode.attempts != []
    ensures Step(c, s, RecordRecoveryResult(at, Failure, resume, evidence), disk).0 ==
      Finish(c, FailedBack(c, Judged(s, Failure, at), at, s.episode.attempts[|s.episode.attempts| - 1].strategy), at, disk.final).0
  {}

  lemma FailureStep(c: Config, s: W, at: real, resume: ExecutionState, evidence: Option<string>, disk: Disk)
    requires Bounded(c, s) && Refused(c, s, RecordRecoveryResult(at, Failure, resume, evidence)).None?
    ensures s.episode.attempts != []
    ensures var t := Step(c, s, RecordRecoveryResult(at, Failure, resume, evidence), disk).0;
      && t.sm.state == (if s.episode.attempts[|s.episode.attempts| - 1].strategy.RequestHumanIntervention? then Blocked else Stalled)
      && t.episode.tried == s.episode.tried && |t.episode.attempts| == |s.episode.attempts|
      && t.clock == Some(at)
  {
    FailureIsConcluded(c, s, at, resume, evidence, disk);
    var strategy := s.episode.attempts[|s.episode.attempts| - 1].strategy;
    FailureLeads(c, s, at, strategy);
    FinishChanges(c, FailedBack(c, Judged(s, Failure, at), at, strategy), at, disk.final);
  }

  lemma LastAttemptIsLastRung(c: Config, s: W)
    requires Audited(c, s) && s.sm.state.Recovering? && s.episode.attempts != []
    ensures s.episode.attempts[|s.episode.attempts| - 1].strategy.RequestHumanIntervention? <==> |s.episode.tried| == |LADDER|
  {
    assert LADDER[Rung(s.episode.attempts[|s.episode.attempts| - 1].strategy)] ==
           s.episode.attempts[|s.episode.attempts| - 1].strategy;
  }

  lemma FailureBlocks(c: Config, s: W, at: real, resume: ExecutionState, evidence: Option<string>, disk: Disk)
    requires Bounded(c, s) && Audited(c, s) && Refused(c, s, RecordRecoveryResult(at, Failure, resume, evidence)).None?
    ensures s.episode.attempts != []
    ensures s.episode.attempts[|s.episode.attempts| - 1].strategy.RequestHumanIntervention? <==> |s.episode.tried| == |LADDER|
    ensures var t := Step(c, s, RecordRecoveryResult(at, Failure, resume, evidence), disk).0;
      && t.sm.state == (if |s.episode.tried| == |LADDER| then Blocked else Stalled)
      && t.episode.tried == s.episode.tried && t.clock == Some(at)
  {
    FailureIsConcluded(c, s, at, resume, evidence, disk);
    FailureStep(c, s, at, resume, evidence, disk);
    LastAttemptIsLastRung(c, s);
  }

  /** A failed attempt blocks exactly when the ladder is used up, and then it was the last rung that failed. */
  lemma FailureBlocksExactly(c: Config, actions: seq<Action>, at: real, resume: ExecutionState, evidence: Option<string>, disk: Disk)
    requires c.Valid()
    requires Refused(c, Reached(c, actions), RecordRecoveryResult(at, Failure, resume, evidence)).None?
    ensures var s := Reached(c, actions);
      var t := Step(c, s, RecordRecoveryResult(at, Failure, resume, evidence), disk).0;
      && t.sm.state == (if |s.episode.tried| == |LADDER| then Blocked else Stalled)
      && s.episode.attempts != []
      && (t.sm.state.Blocked? <==> s.episode.attempts[|s.episode.attempts| - 1].strategy == RequestHumanIntervention)
  {
    ReachedIsInOrder(c, actions);
    FailureBlocks(c, Reached(c, actions), at, resume, evidence, disk);
  }

  /** The attempts and strategies of an episode that has just been opened, by where it has come to. */
  predicate FreshAttempts(t: W, at: real, reason: string) {
    if t.sm.state.Recovering? then
      t.episode.tried == [ReReadError] && t.episode.attempts == [RecoveryAttempt(reason, ReReadError, 1, Pending, at)]
    else t.episode.tried == [] && t.episode.attempts == []
  }

  lemma BeginsFresh(u: W, t: W, at: real, reason: string, stop: bool)
    requires Begins(u, t, at, reason, stop) && u.episode.tried == [] && u.episode.attempts == [] && !Blank(reason)
    ensures FreshAttempts(t, at, reason)
  {}

  /** Judging from an active state: silence changes nothing, a stall whose write fails rests in Stalled,
      and otherwise recovery begins, on the first rung, unless a bound that spans episodes forbids it. */
  lemma JudgementOutcome(c: Config, s: W, at: real, disk: Disk)
    requires c.Valid() && InOrder(c, s) && Active(s) && s.startedAt.Some? && !Untimely(s, at)
    ensures Evaluated(c, s, at, disk).0.sm.state ==
      if VerdictAt(c, s, at) == [] then s.sm.state
      else if c.persistent && !disk.stall then Stalled
      else if GlobalStop(c, s, RecoveryCost(c, s)) then Blocked else Recovering
    ensures VerdictAt(c, s, at) != [] ==> FreshAttempts(Evaluated(c, s, at, disk).0, at, STALL_DETECTED)
  {
    var reasons := VerdictAt(c, s, at);
    if reasons != [] {
      SoundStalled(c, s, at, reasons);
      BoundsStalled(c, s, at, reasons);
      AuditStalled(c, s, at, reasons);
      StallOutcome(c, StallOpened(s, at, reasons), at, disk);
      FreshStallStops(c, s, at, reasons, disk.stall);
    }
  }

  lemma StallOutcome(c: Config, stalled: W, at: real, disk: Disk)
    requires c.Valid() && InOrder(c, stalled) && stalled.startedAt.Some? && stalled.sm.state.Stalled?
    requires stalled.episode.tried == [] && stalled.episode.attempts == []
    ensures var mirrored := Mirrored(c, stalled, at, disk.stall);
      StallStep(c, stalled, at, disk).0.sm.state ==
        if c.persistent && !disk.stall then Stalled
        else if MustStop(c, mirrored, RecoveryCost(c, mirrored)) then Blocked else Recovering
    ensures FreshAttempts(StallStep(c, stalled, at, disk).0, at, STALL_DETECTED)
  {
    var mirrored := Mirrored(c, stalled, at, disk.stall);
    ProjectionIsValid(c, stalled, at);
    StallWrites(c, stalled, at, disk);
    SignedInOrder(c, stalled, at, disk.stall);
    DetectedIsText();
    PursuitOutcome(c, mirrored, at, STALL_DETECTED, disk.recovery);
    RestingOrPursued(c, stalled, at, disk, MustStop(c, mirrored, RecoveryCost(c, mirrored)));
    BeginsFresh(mirrored, RecoveryFromStall(c, mirrored, at, STALL_DETECTED, disk.recovery).0, at, STALL_DETECTED,
                MustStop(c, mirrored, RecoveryCost(c, mirrored)));
    UnwrittenIsFresh(c, stalled, at, disk);
  }

  lemma UnwrittenIsFresh(c: Config, stalled: W, at: real, disk: Disk)
    requires stalled.episode.tried == [] && stalled.episode.attempts == [] && stalled.sm.state.Stalled?
    ensures if MirrorReply(c, stalled, at, disk.stall).WriteFailed?
      then FreshAttempts(StallStep(c, stalled, at, disk).0, at, STALL_DETECTED)
      else StallStep(c, stalled, at, disk).0 ==
           RecoveryFromStall(c, Mirrored(c, stalled, at, disk.stall), at, STALL_DETECTED, disk.recovery).0
  {}

  lemma StallWrites(c: Config, stalled: W, at: real, disk: Disk)
    requires Projection(c, stalled, at).Valid()
    ensures MirrorReply(c, stalled, at, disk.stall).WriteFailed? <==> c.persistent && !disk.stall
  {}

  lemma SignedInOrder(c: Config, s: W, at: real, ok: bool)
    requires Bounded(c, s) && Audited(c, s)
    ensures Bounded(c, Mirrored(c, s, at, ok)) && Audited(c, Mirrored(c, s, at, ok))
    ensures Mirrored(c, s, at, ok).sm == s.sm
  {
    AuditSigned(c, s, at, ok);
    SameBounds(c, s, Mirrored(c, s, at, ok));
  }

  lemma RestingOrPursued(c: Config, stalled: W, at: real, disk: Disk, stop: bool)
    requires stalled.sm.state.Stalled? && !Blank(STALL_DETECTED)
    requires MirrorReply(c, stalled, at, disk.stall).WriteFailed? <==> c.persistent && !disk.stall
    requires var mirrored := Mirrored(c, stalled, at, disk.stall);
      Begins(mirrored, RecoveryFromStall(c, mirrored, at, STALL_DETECTED, disk.recovery).0, at, STALL_DETECTED, stop)
    ensures StallStep(c, stalled, at, disk).0.sm.state ==
      if c.persistent && !disk.stall then Stalled else if stop then Blocked else Recovering
  {}

  /** A fresh stall starts with no attempts, so only the bounds that span episodes can stop it. */
  lemma FreshStallStops(c: Config, s: W, at: real, reasons: seq<StallSignal>, ok: bool)
    requires c.Valid()
    ensures var mirrored := Mirrored(c, StallOpened(s, at, reasons), at, ok);
      && RecoveryCost(c, mirrored) == RecoveryCost(c, s)
      && (MustStop(c, mirrored, RecoveryCost(c, s)) <==> GlobalStop(c, s, RecoveryCost(c, s)))
  {
    StoppedAtCost(c, s, at, reasons, ok, RecoveryCost(c, s));
  }

  lemma StoppedAtCost(c: Config, s: W, at: real, reasons: seq<StallSignal>, ok: bool, cost: real)
    requires c.Valid()
    ensures var mirrored := Mirrored(c, StallOpened(s, at, reasons), at, ok);
      && mirrored.tier == s.tier
      && (MustStop(c, mirrored, cost) <==> GlobalStop(c, s, cost))
  {}

  /** Only these calls can block an execution. */
  lemma OnlyTheseCallsBlock(c: Config, s: W, call: Call, disk: Disk)
    requires !s.sm.state.Blocked? && Step(c, s, call, disk).0.sm.state.Blocked?
    ensures call.BeginRecovery? || call.Evaluate? || call.RecordActivity? || (call.RecordRecoveryResult? && call.result.Failure?)
  {}

  /** The cause a report names, in terms a reader of the state can check: where it is not a loop bound, no loop bound was
      passed. */
  predicate CauseHolds(c: Config, s: W, cost: real, blocker: Blocker) {
    var p := c.policy.watchdog;
    && (!blocker.GuardExceeded? ==> s.guard.streak <= p.maxIdenticalFailures && |s.activities| <= p.maxTotalAttempts)
    && match blocker
       case GuardExceeded(bounds) =>
         && s.episode.tried == [] && bounds != []
         && (IdenticalFailureBound in bounds <==> s.guard.streak > p.maxIdenticalFailures)
         && (TotalAttemptBound in bounds <==> |s.activities| > p.maxTotalAttempts)
         && NoProgressBound !in bounds && EscalationBound !in bounds
       case EpisodeBoundReached => |s.episode.tried| == p.maxRecoveryAttempts
       case NoStrategyLeft => |s.episode.tried| == |LADDER| < p.maxRecoveryAttempts
       case RecoveryBudgetExhausted =>
         |s.episode.tried| < Min(|LADDER|, p.maxRecoveryAttempts) && !Fits(s.ledger, c.contextTokens, cost)
       case AttemptsExhausted =>
         && |s.episode.tried| == |LADDER|
         && s.episode.attempts != [] && s.episode.attempts[|s.episode.attempts| - 1].strategy == RequestHumanIntervention
  }

  /** A Blocked execution carries a report, nothing else does, and the report names a cause that holds, with the
      attempts and strategies of the last episode and the last checkpoint taken: never the no-progress or the escalation
      bound, and an exhausted ladder search only after a call was refused too late. */
  lemma BlockedIsExplained(c: Config, actions: seq<Action>)
    requires c.Valid()
    ensures var s := Reached(c, actions);
      && (s.sm.state.Blocked? <==> s.report.Some?)
      && (s.report.Some? ==>
            && s.report.value.attempts == |s.episode.attempts|
            && |s.episode.tried| <= |LADDER|
            && s.report.value.tried == s.episode.tried == LADDER[..|s.episode.tried|]
            && s.report.value.lastCheckpoint ==
                 (if s.checkpoints == [] then None else Some(s.checkpoints[|s.checkpoints| - 1]))
            && CauseHolds(c, s, RecoveryCost(c, s), s.report.value.blocker)
            && (s.report.value.blocker.NoStrategyLeft? ==> TooLate(c, Init(c), actions) > 0))
  {
    var s := Reached(c, actions);
    ReachedIsInOrder(c, actions);
    BlockedIsReported(c, s);
    if s.report.Some? {
      OnlyTwoBoundsFire(c, s);
      ReportIsExplained(c, s, RecoveryCost(c, s), s.report.value);
      if s.report.value.blocker.NoStrategyLeft? && TooLate(c, Init(c), actions) == 0 {
        ReachedIsStraight(c, actions);
        StraightLadderIsNotSearched(c, s);
      }
    }
  }

  lemma BlockedIsReported(c: Config, s: W)
    requires Audited(c, s)
    ensures s.sm.state.Blocked? <==> s.report.Some?
    ensures s.report.Some? ==> Explained(c, s.guard, s.ledger, s.episode, RecoveryCost(c, s), s.report.value)
    ensures s.report.Some? ==>
      s.report.value.lastCheckpoint == if s.checkpoints == [] then None else Some(s.checkpoints[|s.checkpoints| - 1])
    ensures LadderOk(c.policy.watchdog, s.sm.state, s.guard, s.episode)
  {}

  lemma ReportIsExplained(c: Config, s: W, cost: real, r: BlockedReport)
    requires Explained(c, s.guard, s.ledger, s.episode, cost, r)
    requires LadderOk(c.policy.watchdog, s.sm.state, s.guard, s.episode)
    requires Violations(c.policy.watchdog, s.guard) ==
      (if s.guard.streak > c.policy.watchdog.maxIdenticalFailures then [IdenticalFailureBound] else [])
      + (if |s.activities| > c.policy.watchdog.maxTotalAttempts then [TotalAttemptBound] else [])
    ensures CauseHolds(c, s, cost, r.blocker)
    ensures r.attempts == |s.episode.attempts| && r.tried == s.episode.tried == LADDER[..|s.episode.tried|]
  {
    if r.blocker.AttemptsExhausted? { LastRungNeedsAll(s.episode.attempts, |s.episode.tried|); }
  }

  lemma LastRungNeedsAll(attempts: seq<RecoveryAttempt>, top: nat)
    requires Climbing(attempts, top) && top <= |LADDER|
    requires attempts != [] && attempts[|attempts| - 1].strategy == RequestHumanIntervention
    ensures top == |LADDER|
  {
    assert Rung(RequestHumanIntervention) == |LADDER| - 1;
  }

  lemma StraightLadderIsNotSearched(c: Config, s: W)
    requires Audited(c, s) && Straight(s) && s.report.Some?
    ensures !s.report.value.blocker.NoStrategyLeft?
  {
    if s.report.value.blocker.NoStrategyLeft? {
      RungsFromBelow(s.episode.attempts, |s.episode.tried|, |s.episode.attempts| - 1);
    }
  }

  // ---- conservation of the budget -----------------------------------------------------------------

  function InitialTokens(entries: seq<Reservation>): nat {
    if entries != [] && entries[0].kind.InitialPlan? then entries[0].tokens else 0
  }

  lemma OneMoreContext(context: int, n: nat)
    ensures context * (n + 1) == context * n + context
  {}

  lemma {:induction false} EntriesAddUp(entries: seq<Reservation>, context: int)
    requires EntriesOk(entries, context)
    ensures TokensIn(entries, {Committed}) ==
            InitialTokens(entries) + context * (CountKind(entries, EscalationCharge) + CountKind(entries, RecoveryCharge))
    ensures TokensIn(entries, {Reserved}) == 0 && TokensIn(entries, {Released}) == 0
  {
    if entries != [] {
      var n := |entries| - 1;
      EntriesAddUp(entries[..n], context);
      OneMoreContext(context, CountKind(entries[..n], EscalationCharge) + CountKind(entries[..n], RecoveryCharge));
    }
  }

  /** What a start leaves in the ledger: its charge in the first entry, or nothing at all. */
  predicate Opening(entries: seq<Reservation>, charge: Charge) {
    && charge.tokens >= 0
    && entries == if charge.tokens != 0 || charge.cost != 0.0
                  then [Reservation(1, InitialPlan, charge.tokens, charge.cost, Committed)] else []
  }

  lemma ChargedOpens(l: Ledger, charge: Charge)
    requires l.entries == [] && Charged(l, charge).Ok?
    ensures Opening(Charged(l, charge).value.entries, charge)
  {
    ReservedIsCharged(l, InitialPlan, charge.tokens, charge.cost);
  }

  lemma StartOpens(c: Config, s: W, start: Action)
    requires Sound(c, s) && start.call.Start? && Refused(c, s, start.call).None?
    ensures s.ledger == Init(c).ledger
    ensures Opening(Step(c, s, start.call, start.disk).0.ledger.entries, InitialCharge(c, start.call.tokens, start.call.cost))
  {
    StartStep(c, s, start.call, start.disk);
    ChargedOpens(s.ledger, InitialCharge(c, start.call.tokens, start.call.cost));
  }

  lemma TotalsBounded(l: Ledger)
    requires LedgerOk(l)
    ensures TokensIn(l.entries, {Committed}) <= l.maxTokens
    ensures CostIn(l.entries, {Committed}) <= l.maxCost
  {
    InUseSplits(l.entries);
    CostsNonNegative(l.entries, {Reserved});
  }

  /** Committed tokens are the initial charge plus one context per escalation, per attempt ever made and per
      call refused too late; nothing rests reserved or released. */
  predicate Conserved(c: Config, s: W, charge: Charge, late: nat) {
    var made := s.escalationsUsed + AttemptsEver(s);
    && TokensIn(s.ledger.entries, {Committed}) == charge.tokens + c.contextTokens * (made + late)
    && TokensIn(s.ledger.entries, {Reserved}) == 0
    && TokensIn(s.ledger.entries, {Released}) == 0
    && charge.tokens + c.contextTokens * (made + late) <= c.policy.budget.maxTokens
    && (TokensIn(s.ledger.entries, {Committed}) == charge.tokens + c.contextTokens * made <==> late == 0)
  }

  lemma MoreContexts(context: int, n: nat, more: nat)
    requires context > 0
    ensures context * (n + more) == context * n <==> more == 0
  {
    assert context * (n + more) == context * n + context * more;
  }

  lemma LedgerAddsUp(c: Config, s: W, opening: seq<Reservation>, charge: Charge, late: nat)
    requires c.Valid() && Paid(c, s.ledger, s.escalationsUsed) && Owed(s) == late
    requires Opening(opening, charge) && opening <= s.ledger.entries && NoSecondPlan(opening, s.ledger.entries)
    ensures Conserved(c, s, charge, late)
  {
    EntriesAddUp(s.ledger.entries, c.contextTokens);
    TotalsBounded(s.ledger);
    MoreContexts(c.contextTokens, s.escalationsUsed + AttemptsEver(s), late);
    assert InitialTokens(s.ledger.entries) == charge.tokens;
    assert CountKind(s.ledger.entries, RecoveryCharge) == AttemptsEver(s) + late;
  }

  lemma RunExtendsLedger(c: Config, s: W, actions: seq<Action>)
    requires s.startedAt.Some?
    ensures s.ledger.entries <= Run(c, s, actions).ledger.entries
    ensures NoSecondPlan(s.ledger.entries, Run(c, s, actions).ledger.entries)
  {
    RunGrows(c, s, actions);
  }

  lemma ConservedOver(c: Config, s: W, actions: seq<Action>, charge: Charge)
    requires c.Valid() && InOrder(c, s) && Paid(c, s.ledger, s.escalationsUsed) && Owed(s) == 0
    requires s.startedAt.Some? && Opening(s.ledger.entries, charge)
    ensures Conserved(c, Run(c, s, actions), charge, TooLate(c, s, actions))
  {
    RunIsPaid(c, s, actions);
    RunOwes(c, s, actions);
    RunExtendsLedger(c, s, actions);
    LedgerAddsUp(c, Run(c, s, actions), s.ledger.entries, charge, TooLate(c, s, actions));
  }

  lemma StartOwesNothing(c: Config, s: W, start: Action)
    requires c.Valid() && InOrder(c, s) && start.call.Start? && Refused(c, s, start.call).None?
    ensures Owed(Step(c, s, start.call, start.disk).0) == 0
  {
    InitialState(c);
    StartNeedsPlanning(c, s, start);
    UnstartedIsInitial(c, s);
    StepOwes(c, s, start.call, start.disk);
  }

  lemma StartNeedsPlanning(c: Config, s: W, start: Action)
    requires start.call.Start? && Refused(c, s, start.call).None?
    ensures s.startedAt.None? && !RefusedTooLate(c, s, start.call)
  {}

  lemma StartPays(c: Config, s: W, start: Action)
    requires c.Valid() && Sound(c, s) && start.call.Start? && Refused(c, s, start.call).None?
    ensures var t := Step(c, s, start.call, start.disk).0; Paid(c, t.ledger, t.escalationsUsed)
  {
    InitialState(c);
    StartNeedsPlanning(c, s, start);
    UnstartedIsInitial(c, s);
    StepIsPaid(c, s, start.call, start.disk);
  }

  /** A start that goes through finds nothing owed and leaves nothing owed. */
  lemma StartedClean(c: Config, s: W, start: Action)
    requires c.Valid() && InOrder(c, s) && start.call.Start? && Refused(c, s, start.call).None?
    ensures var t := Step(c, s, start.call, start.disk).0;
      && InOrder(c, t) && t.startedAt.Some? && Owed(t) == 0
      && Paid(c, t.ledger, t.escalationsUsed)
      && Opening(t.ledger.entries, InitialCharge(c, start.call.tokens, start.call.cost))
  {
    StepIsInOrder(c, s, start.call, start.disk);
    StartPays(c, s, start);
    StartOwesNothing(c, s, start);
    StartStep(c, s, start.call, start.disk);
    StartOpens(c, s, start);
  }

  lemma UnstartedIsInitial(c: Config, s: W)
    requires Sound(c, s) && s.startedAt.None?
    ensures s.ledger == Init(c).ledger && s.escalationsUsed == 0 && Owed(s) == Owed(Init(c))
  {}

  /** From the moment a start succeeds, the tokens committed are always its charge plus one context for
      each escalation approved, each recovery attempt ever made and each call refused too late; so the plain
      equation between what was spent and what was done holds if and only if no call was refused too late.
      Nothing rests reserved or released, and all of it together is bounded by what the policy allows. */
  lemma Conservation(c: Config, before: seq<Action>, start: Action, after: seq<Action>)
    requires c.Valid() && start.call.Start? && Refused(c, Reached(c, before), start.call).None?
    ensures var started := Step(c, Reached(c, before), start.call, start.disk).0;
      Conserved(c, Run(c, started, after), InitialCharge(c, start.call.tokens, start.call.cost), TooLate(c, started, after))
  {
    ReachedIsInOrder(c, before);
    StartedClean(c, Reached(c, before), start);
    ConservedOver(c, Step(c, Reached(c, before), start.call, start.disk).0, after,
                  InitialCharge(c, start.call.tokens, start.call.cost));
  }

  lemma StartedStaysStarted(c: Config, s: W, call: Call, disk: Disk)
    requires s.startedAt.Some?
    ensures Step(c, s, call, disk).0.startedAt.Some? && (call.Start? ==> Refused(c, s, call).Some?)
  {
    StepGrows(c, s, call, disk);
  }

  lemma {:induction false} BillsAddUp(c: Config, s: W, actions: seq<Action>)
    requires c.Valid() && s.startedAt.Some?
    ensures CostIn(Run(c, s, actions).ledger.entries, {Committed}) == CostIn(s.ledger.entries, {Committed}) + Billed(c, s, actions)
    decreases |actions|
  {
    if actions != [] {
      var a := actions[0];
      StartedStaysStarted(c, s, a.call, a.disk);
      StepIsBilled(c, s, a.call, a.disk);
      BillsAddUp(c, Step(c, s, a.call, a.disk).0, actions[1..]);
    }
  }

  lemma OpeningCosts(entries: seq<Reservation>, charge: Charge)
    requires Opening(entries, charge)
    ensures CostIn(entries, {Committed}) == charge.cost
  {
    if entries != [] {
      AppendTotals([], entries[0], {Committed});
      assert [] + entries == entries;
    }
  }

  /** From the moment a start succeeds, the cost committed is always its charge plus, for every call that
      charged anything, the estimated cost of one context at the tier that call left; never more than the
      policy allows. */
  lemma CostConservation(c: Config, before: seq<Action>, start: Action, after: seq<Action>)
    requires c.Valid() && start.call.Start? && Refused(c, Reached(c, before), start.call).None?
    ensures var started := Step(c, Reached(c, before), start.call, start.disk).0;
      var spent := CostIn(Run(c, started, after).ledger.entries, {Committed});
      && spent == InitialCharge(c, start.call.tokens, start.call.cost).cost + Billed(c, started, after)
      && spent <= c.policy.budget.maxCost
  {
    var started := Step(c, Reached(c, before), start.call, start.disk).0;
    ReachedIsInOrder(c, before);
    StartedClean(c, Reached(c, before), start);
    OpeningCosts(started.ledger.entries, InitialCharge(c, start.call.tokens, start.call.cost));
    BillsAddUp(c, started, after);
    RunIsPaid(c, started, after);
    TotalsBounded(Run(c, started, after).ledger);
  }

  // ---- no stall goes undetected ---------------------------------------------------------------------

  /** No fingerprint has recurred to the circular limit since the last progress, fewer than two slow
      trivial commands lie there, no failing tail of the limit's length is uniform, and so the work since
      then is bounded by its variety. */
  ghost predicate NothingPending(p: WatchdogPolicy, since: seq<Activity>) {
    && (forall f :: Count(since, f) < Max(3, p.maxIdenticalFailures + 1))
    && SlowTrivial(since, p.trivialTimeout) < 2
    && (TrailingFailures(since) < p.maxIdenticalFailures || !OneFingerprint(since[|since| - TrailingFailures(since)..]))
    && |since| <= (Max(3, p.maxIdenticalFailures + 1) - 1) * |Fingerprints(since)|
  }

  lemma QuietIsNothingPending(p: WatchdogPolicy, since: seq<Activity>)
    requires p.Valid() && Quiet(p, since)
    ensures NothingPending(p, since)
  {
    QuietWorkIsBounded(p, since);
  }

  lemma WatchedIsQuiet(c: Config, s: W)
    requires Watched(c, s) && c.policy.watchdog.enabled && Active(s) && s.startedAt.Some?
    ensures Quiet(c.policy.watchdog, Since(s.activities, BoundaryOf(s)))
  {}

  lemma WatchedIsSettled(c: Config, s: W)
    requires c.Valid() && Sound(c, s) && Watched(c, s) && c.policy.watchdog.enabled && Active(s)
    ensures s.startedAt.Some? && NothingPending(c.policy.watchdog, Since(s.activities, BoundaryOf(s)))
  {
    ActiveIsStarted(c, s);
    WatchedIsQuiet(c, s);
    QuietIsNothingPending(c.policy.watchdog, Since(s.activities, BoundaryOf(s)));
  }

  lemma ReachedIsWatched(c: Config, actions: seq<Action>)
    requires c.Valid()
    ensures Sound(c, Reached(c, actions)) && Watched(c, Reached(c, actions))
  {
    InitialState(c);
    RunIsSound(c, Init(c), actions);
    RunIsWatched(c, Init(c), actions);
  }

  /** At rest in an active state with the watchdog on, no stall is pending over the work recorded since
      the last progress: whatever was called before, with whatever reasons and write failures. */
  lemma NoStallUndetected(c: Config, actions: seq<Action>)
    requires c.Valid() && c.policy.watchdog.enabled && Active(Reached(c, actions))
    ensures var s := Reached(c, actions);
      s.startedAt.Some? && NothingPending(c.policy.watchdog, Since(s.activities, BoundaryOf(s)))
  {
    ReachedIsWatched(c, actions);
    WatchedIsSettled(c, Reached(c, actions));
  }

  /** The streak the guard keeps is what recounting the whole activity list would give: one less than the
      longest failing suffix with one fingerprint. */
  lemma StreakIsRecounted(c: Config, actions: seq<Action>)
    requires c.Valid()
    ensures var acts, streak := Reached(c, actions).activities, Reached(c, actions).guard.streak;
      if acts == [] || acts[|acts| - 1].succeeded then streak == 0
      else UniformFailingSuffix(acts, streak + 1) && forall k: nat :: k > streak + 1 ==> !UniformFailingSuffix(acts, k)
  {
    ReachedIsInOrder(c, actions);
    LimitsAre(c, Reached(c, actions));
  }

  // ---- healing is bounded ----------------------------------------------------------------------------

  lemma LimitsAre(c: Config, s: W)
    requires Bounded(c, s)
    ensures StreakOf(s.activities, s.guard.streak)
    ensures s.episode.number <= s.guard.totalAttempts == |s.activities|
    ensures s.episode.number <= c.policy.watchdog.maxTotalAttempts + 1
    ensures s.escalationsUsed == s.guard.escalations <= c.policy.watchdog.maxModelEscalations
    ensures s.escalationsUsed <= Climb(c.initialTier, c.initialReasoning)
  {}

  /** Every episode uses up an activity of its own; escalations stay within policy and within five. */
  lemma HealingIsBounded(c: Config, actions: seq<Action>)
    requires c.Valid()
    ensures var s := Reached(c, actions);
      && s.episode.number <= s.guard.totalAttempts == |s.activities|
      && s.episode.number <= c.policy.watchdog.maxTotalAttempts + 1
      && s.escalationsUsed == s.guard.escalations <= Min(5, c.policy.watchdog.maxModelEscalations)
  {
    ReachedIsInOrder(c, actions);
    LimitsAre(c, Reached(c, actions));
    ClimbIsShort(c.initialTier, c.initialReasoning);
  }
}
