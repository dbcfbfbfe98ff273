/** While no call is refused too late, every attempt uses the next rung of the ladder: none is skipped. */
module SupervisionLadder {
  import opened Common
  import opened Policies
  import opened StateMachine
  import opened Recovery
  import opened Budget
  import opened Supervision
  import opened SupervisionInvariants
  import opened SupervisionMoves
  import opened SupervisionAudit

  /** Every strategy used up has its attempt on record, and closed episodes climbed rung by rung. */
  predicate Straight(s: W) {
    && |s.episode.attempts| == |s.episode.tried|
    && forall i :: 0 <= i < |s.closed| ==> OnLadder(s.closed[i].attempts)
  }

  lemma {:induction false} RungsFromBelow(attempts: seq<RecoveryAttempt>, top: nat, i: nat)
    requires Climbing(attempts, top) && i < |attempts|
    ensures i <= Rung(attempts[i].strategy)
  {
    if i > 0 { RungsFromBelow(attempts, top, i - 1); }
  }

  lemma {:induction false} RungsFromAbove(attempts: seq<RecoveryAttempt>, top: nat, i: nat)
    requires Climbing(attempts, top) && i < |attempts|
    ensures Rung(attempts[i].strategy) + |attempts| - i <= top
    decreases |attempts| - i
  {
    if i < |attempts| - 1 { RungsFromAbove(attempts, top, i + 1); }
  }

  /** As many attempts as rungs below the top leave no room to skip one. */
  lemma FullClimbIsOnLadder(attempts: seq<RecoveryAttempt>)
    requires Climbing(attempts, |attempts|) && |attempts| <= |LADDER|
    ensures OnLadder(attempts)
  {
    forall i | 0 <= i < |attempts| ensures attempts[i].strategy == LADDER[i] {
      RungsFromBelow(attempts, |attempts|, i);
      RungsFromAbove(attempts, |attempts|, i);
      assert LADDER[Rung(attempts[i].strategy)] == attempts[i].strategy;
    }
  }

  lemma JudgedIsOnLadder(p: WatchdogPolicy, s: W, result: RecoveryResult, at: real)
    requires LadderOk(p, Recovering, s.guard, s.episode) && |s.episode.attempts| == |s.episode.tried|
    ensures OnLadder(Judged(s, result, at).episode.attempts)
    ensures |Judged(s, result, at).episode.attempts| == |s.episode.tried|
  {
    JudgedAttempts(s, result, at, p);
    FullClimbIsOnLadder(Judged(s, result, at).episode.attempts);
  }

  lemma StraightAttempt(s: W, at: real, reason: string, strategy: Strategy, charged: Ledger)
    requires Straight(s)
    ensures Straight(Touch(Attempting(Committing(s, strategy, charged), at, reason, strategy), at))
  {}

  lemma StraightGivingUp(s: W, at: real, blocker: Blocker)
    requires Straight(s) && OnLadder(s.episode.attempts)
    ensures Straight(GivenUp(s, at, blocker))
  {}

  lemma StraightRecovery(s: W, judged: W, resume: ExecutionState, at: real, note: string)
    requires Straight(s) && judged == s.(episode := s.episode.(attempts := judged.episode.attempts))
    requires OnLadder(judged.episode.attempts) && |judged.episode.attempts| == |s.episode.tried|
    ensures Straight(Touch(Recovered(judged, resume, at, note), at))
  {}

  lemma StraightFailure(c: Config, s: W, judged: W, at: real, strategy: Strategy)
    requires Straight(s) && judged == s.(episode := s.episode.(attempts := judged.episode.attempts))
    requires OnLadder(judged.episode.attempts) && |judged.episode.attempts| == |s.episode.tried|
    ensures Straight(Touch(FailedBack(c, judged, at, strategy), at))
  {}

  lemma StraightConclusion(c: Config, s: W, at: real, result: RecoveryResult, resume: ExecutionState, evidence: Option<string>)
    requires LadderOk(c.policy.watchdog, Recovering, s.guard, s.episode) && Straight(s) && s.episode.attempts != []
    ensures Straight(Touch(Concluded(c, s, at, result, resume, evidence), at))
  {
    var strategy := s.episode.attempts[|s.episode.attempts| - 1].strategy;
    if result.Success? {
      JudgedIsOnLadder(c.policy.watchdog, s, Success, at);
      StraightRecovery(s, Judged(s, Success, at), resume, at, NoteOf(evidence, strategy));
    } else {
      JudgedIsOnLadder(c.policy.watchdog, s, Failure, at);
      StraightFailure(c, s, Judged(s, Failure, at), at, strategy);
    }
  }

  lemma StraightEffect(c: Config, s: W, call: Call)
    requires LadderOk(c.policy.watchdog, s.sm.state, s.guard, s.episode) && Straight(s)
    requires Plain(call) && Refused(c, s, call).None?
    ensures Straight(Touch(Effect(c, s, call), call.at))
  {
    if call.RecordRecoveryResult? {
      StraightConclusion(c, s, call.at, call.result, call.resume, call.evidence);
    } else {
      assert Effect(c, s, call).episode == s.episode && Effect(c, s, call).closed == s.closed;
    }
  }

  lemma StraightMove(c: Config, s: W, m: Move)
    requires LadderOk(c.policy.watchdog, s.sm.state, s.guard, s.episode) && Straight(s)
    requires CanMove(c, s, m) && !m.Spend?
    ensures Straight(After(c, s, m))
  {
    if m.Act? {
      StraightEffect(c, s, m.call);
    } else if m.GiveUp? {
      FullClimbIsOnLadder(s.episode.attempts);
      StraightGivingUp(s, m.at, m.blocker);
    } else if m.Try? {
      StraightAttempt(s, m.at, m.reason, m.strategy, m.charged);
    }
  }

  lemma AuditedClimbs(c: Config, inv: W -> bool)
    requires forall s :: inv(s) ==> Audited(c, s)
    ensures forall s :: inv(s) ==> LadderOk(c.policy.watchdog, s.sm.state, s.guard, s.episode)
  {}

  lemma StraightByMoves(c: Config, call: Call, inv: W -> bool)
    requires KeptBy(c, call, inv) && (call.BeginRecovery? ==> !Blank(call.reason))
    requires forall s :: inv(s) ==> LadderOk(c.policy.watchdog, s.sm.state, s.guard, s.episode)
    ensures KeptBy(c, call, s => inv(s) && Straight(s))
  {
    forall s, m | inv(s) && Straight(s) && CanMove(c, s, m) && PartOf(m, call) ensures Straight(After(c, s, m)) {
      StraightMove(c, s, m);
    }
  }

  lemma BlankBeginIsStraight(c: Config, s: W, at: real, reason: string, disk: Disk)
    requires LadderOk(c.policy.watchdog, s.sm.state, s.guard, s.episode) && Straight(s) && Blank(reason)
    requires !RefusedTooLate(c, s, BeginRecovery(at, reason))
    ensures Straight(Step(c, s, BeginRecovery(at, reason), disk).0)
  {
    if Refused(c, s, BeginRecovery(at, reason)).None? {
      FullClimbIsOnLadder(s.episode.attempts);
      StraightGivingUp(s, at, Admit(c, s).blocker);
    }
  }

  lemma ReasonedIsStraight(c: Config, s: W, call: Call, disk: Disk)
    requires c.Valid() && Sound(c, s) && Bounded(c, s) && Audited(c, s) && Straight(s)
    requires call.BeginRecovery? ==> !Blank(call.reason)
    ensures Straight(Step(c, s, call, disk).0)
  {
    var inv := u => Sound(c, u) && Bounded(c, u) && Audited(c, u);
    AuditedByMoves(c, call);
    AuditedClimbs(c, inv);
    StraightByMoves(c, call, inv);
    StepByMoves(c, s, call, disk, u => inv(u) && Straight(u));
  }

  /** A call keeps the climb straight unless it is refused too late. */
  lemma StepIsStraight(c: Config, s: W, call: Call, disk: Disk)
    requires c.Valid() && Sound(c, s) && Bounded(c, s) && Audited(c, s) && Straight(s)
    requires !RefusedTooLate(c, s, call)
    ensures Straight(Step(c, s, call, disk).0)
  {
    if call.BeginRecovery? && Blank(call.reason) {
      BlankBeginIsStraight(c, s, call.at, call.reason, disk);
    } else {
      ReasonedIsStraight(c, s, call, disk);
    }
  }
}
