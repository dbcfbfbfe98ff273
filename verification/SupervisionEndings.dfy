/** Where an execution can go: final states, the ways out of the others, and why failing cannot go on forever. */
module SupervisionEndings {
  import opened Common
  import opened StateMachine
  import opened Recovery
  import opened Supervision
  import opened SupervisionInvariants
  import opened SupervisionMoves
  import opened SupervisionSoundness
  import opened SupervisionRuns
  import opened SupervisionTheorems

  // ---- final states ----------------------------------------------------------------------------------

  /** Completed, Blocked, and Planning once the execution has started. */
  predicate Final(s: W) {
    s.sm.state.Completed? || s.sm.state.Blocked? || (s.sm.state.Planning? && s.startedAt.Some?)
  }

  lemma FinalRefuses(c: Config, s: W, call: Call)
    requires Final(s) && !call.Evaluate? && !call.SyncHeartbeat?
    ensures Refused(c, s, call).Some?
  {}

  lemma FinalIsNotActive(s: W)
    requires Final(s)
    ensures !Active(s)
  {}

  lemma SyncTouchesMirror(c: Config, s: W, disk: Disk)
    ensures Synced(c, s, disk).0 == s.(mirror := Synced(c, s, disk).0.mirror)
  {}

  /** No call touches anything but the clock and the mirror of a final state. */
  lemma FinalIsKept(c: Config, s: W, call: Call, disk: Disk)
    requires Final(s)
    ensures var t := Step(c, s, call, disk).0; t == s.(clock := t.clock, mirror := t.mirror)
  {
    if call.Evaluate? {
      FinalIsNotActive(s);
      InactiveIsOnlyObserved(c, s, call.at, disk);
    } else if call.SyncHeartbeat? {
      SyncTouchesMirror(c, s, disk);
    } else {
      FinalRefuses(c, s, call);
    }
  }

  lemma {:induction false} FinalForever(c: Config, s: W, actions: seq<Action>)
    requires Final(s)
    ensures var t := Run(c, s, actions); t == s.(clock := t.clock, mirror := t.mirror)
    decreases |actions|
  {
    if actions != [] {
      FinalIsKept(c, s, actions[0].call, actions[0].disk);
      FinalForever(c, Step(c, s, actions[0].call, actions[0].disk).0, actions[1..]);
    }
  }

  lemma RecoveringHasAttempt(c: Config, s: W)
    requires Sound(c, s) && Audited(c, s) && s.sm.state.Recovering?
    ensures s.episode.attempts != [] && s.startedAt.Some?
  {}

  lemma ResolutionIs(c: Config, s: W, at: real, resume: ExecutionState, evidence: Option<string>, disk: Disk)
    requires s.sm.state.Recovering? && s.episode.attempts != [] && !Untimely(s, at) && !BlankIfGiven(evidence)
    requires resume in RESUMABLE
    ensures var t := Step(c, s, RecordRecoveryResult(at, Success, resume, evidence), disk).0;
      t.sm.state == resume && t.startedAt == s.startedAt && t.clock == Some(at)
  {}

  /** The trap in Planning is one legal call away from every recovery: resuming there is accepted. */
  lemma ResumingIntoPlanningIsFinal(c: Config, actions: seq<Action>, at: real, evidence: Option<string>, disk: Disk)
    requires c.Valid() && Reached(c, actions).sm.state.Recovering?
    requires !Untimely(Reached(c, actions), at) && !BlankIfGiven(evidence)
    ensures var t := Step(c, Reached(c, actions), RecordRecoveryResult(at, Success, Planning, evidence), disk).0;
      t.sm.state.Planning? && Final(t)
  {
    ReachedIsInOrder(c, actions);
    RecoveringHasAttempt(c, Reached(c, actions));
    ResolutionIs(c, Reached(c, actions), at, Planning, evidence, disk);
  }

  // ---- ways out --------------------------------------------------------------------------------------------

  function Finishing(at: real, disk: Disk): seq<Action> { [Action(Complete(at, ["done"]), disk)] }

  function Reviewed(call: Call, at: real, disk: Disk): seq<Action> { [Action(call, disk)] + Finishing(at, disk) }

  function Resolving(at: real): Call { RecordRecoveryResult(at, Success, Reviewing, None) }

  /** At most three calls that end a started execution. */
  function WayOut(s: W, at: real, disk: Disk): (way: seq<Action>)
    ensures |way| <= 3
  {
    match s.sm.state
    case Running => Reviewed(Advance(Reviewing, at), at, disk)
    case Testing => Reviewed(Advance(Reviewing, at), at, disk)
    case Reviewing => Finishing(at, disk)
    case Recovering => Reviewed(Resolving(at), at, disk)
    case Stalled => [Action(BeginRecovery(at, STALL_DETECTED), disk)] + Reviewed(Resolving(at), at, disk)
    case _ => []
  }

  lemma CompletionStep(c: Config, s: W, at: real, proof: seq<string>, disk: Disk)
    requires Sound(c, s) && s.sm.state.Reviewing? && !Untimely(s, at) && proof != [] && AllPresent(proof)
    ensures Step(c, s, Complete(at, proof), disk).0.sm.state.Completed?
  {}

  lemma CompletionIsPossible(c: Config, s: W, at: real, disk: Disk)
    requires Sound(c, s) && s.sm.state.Reviewing? && !Untimely(s, at)
    ensures Run(c, s, Finishing(at, disk)).sm.state.Completed?
  {
    NotBlankAt("done", 0);
    assert AllPresent(["done"]);
    CompletionStep(c, s, at, ["done"], disk);
    RunOne(c, s, Action(Complete(at, ["done"]), disk), []);
    assert [Action(Complete(at, ["done"]), disk)] + [] == Finishing(at, disk);
  }

  lemma ReviewIsPossible(c: Config, s: W, at: real, disk: Disk)
    requires Sound(c, s) && (s.sm.state.Running? || s.sm.state.Testing?) && !Untimely(s, at)
    ensures var t := Step(c, s, Advance(Reviewing, at), disk).0;
      t.sm.state.Reviewing? && t.clock == Some(at)
  {}

  lemma ReviewedEnds(c: Config, s: W, call: Call, at: real, disk: Disk)
    requires c.Valid() && Sound(c, s)
    requires var t := Step(c, s, call, disk).0; t.sm.state.Reviewing? && t.clock == Some(at) && at >= 0.0
    ensures Run(c, s, Reviewed(call, at, disk)).sm.state.Completed?
  {
    StepIsSound(c, s, call, disk);
    RunOne(c, s, Action(call, disk), Finishing(at, disk));
    CompletionIsPossible(c, Step(c, s, call, disk).0, at, disk);
  }

  lemma RecoveringEnds(c: Config, s: W, at: real, disk: Disk)
    requires c.Valid() && InOrder(c, s) && s.sm.state.Recovering? && !Untimely(s, at)
    ensures Run(c, s, Reviewed(Resolving(at), at, disk)).sm.state.Completed?
  {
    RecoveringHasAttempt(c, s);
    ResolutionIs(c, s, at, Reviewing, None, disk);
    ReviewedEnds(c, s, Resolving(at), at, disk);
  }

  lemma ResolvingEnds(c: Config, s: W, at: real, disk: Disk)
    requires c.Valid() && InOrder(c, s) && (s.sm.state.Recovering? || s.sm.state.Blocked?) && !Untimely(s, at)
    ensures var end := Run(c, s, Reviewed(Resolving(at), at, disk)).sm.state; end.Completed? || end.Blocked?
  {
    if s.sm.state.Blocked? {
      FinalForever(c, s, Reviewed(Resolving(at), at, disk));
    } else {
      RecoveringEnds(c, s, at, disk);
    }
  }

  lemma BeginningIsAccepted(c: Config, s: W, at: real, reason: string, disk: Disk)
    requires s.sm.state.Stalled? && !Untimely(s, at)
    ensures Refused(c, s, BeginRecovery(at, reason)).None?
  {}

  /** What beginning a recovery from a stall leads to, with the invariants that go on from there. */
  lemma BeginStep(c: Config, s: W, at: real, reason: string, disk: Disk)
    requires c.Valid() && InOrder(c, s) && s.sm.state.Stalled? && !Untimely(s, at)
    ensures var t := Step(c, s, BeginRecovery(at, reason), disk).0;
      && InOrder(c, t) && !Untimely(t, at) && (t.clock == Some(at) || t.clock == s.clock)
      && Begins(s, t, at, reason, MustStop(c, s, RecoveryCost(c, s)))
  {
    BeginningIsAccepted(c, s, at, reason, disk);
    BeginningIsPursuit(c, s, at, reason, disk);
    PursuitOutcome(c, s, at, reason, disk.recovery);
    StepIsInOrder(c, s, BeginRecovery(at, reason), disk);
  }

  lemma BegunWithReason(s: W, t: W, at: real, reason: string, stop: bool)
    requires Begins(s, t, at, reason, stop) && !Blank(reason)
    ensures t.sm.state == if stop then Blocked else Recovering
  {}

  lemma StalledEnds(c: Config, s: W, at: real, reason: string, disk: Disk)
    requires c.Valid() && InOrder(c, s) && s.sm.state.Stalled? && !Untimely(s, at) && !Blank(reason)
    ensures var end := Run(c, s, [Action(BeginRecovery(at, reason), disk)] + Reviewed(Resolving(at), at, disk)).sm.state;
      end.Completed? || end.Blocked?
  {
    var begin := Action(BeginRecovery(at, reason), disk);
    var t := Step(c, s, begin.call, disk).0;
    BeginStep(c, s, at, reason, disk);
    BegunWithReason(s, t, at, reason, MustStop(c, s, RecoveryCost(c, s)));
    ResolvingEnds(c, t, at, disk);
    RunOne(c, s, begin, Reviewed(Resolving(at), at, disk));
  }

  lemma ActiveEnds(c: Config, s: W, at: real, disk: Disk)
    requires c.Valid() && Sound(c, s) && Active(s) && !Untimely(s, at)
    ensures Run(c, s, WayOut(s, at, disk)).sm.state.Completed?
  {
    if s.sm.state.Reviewing? {
      CompletionIsPossible(c, s, at, disk);
    } else {
      ReviewIsPossible(c, s, at, disk);
      ReviewedEnds(c, s, Advance(Reviewing, at), at, disk);
    }
  }

  lemma StartedStateEnds(c: Config, s: W, at: real, disk: Disk)
    requires c.Valid() && InOrder(c, s) && !s.sm.state.Planning? && !Untimely(s, at)
    ensures var end := Run(c, s, WayOut(s, at, disk)).sm.state; end.Completed? || end.Blocked?
  {
    if Active(s) {
      ActiveEnds(c, s, at, disk);
    } else if s.sm.state.Recovering? {
      RecoveringEnds(c, s, at, disk);
    } else if s.sm.state.Stalled? {
      DetectedIsText();
      StalledEnds(c, s, at, STALL_DETECTED, disk);
    }
  }

  /** From every reachable started state but one, at most three calls complete or block the execution,
      whatever was called before and whatever the disk does; and from Planning, once started, no sequence of
      calls ever does. */
  lemma EveryStartedStateCanEnd(c: Config, actions: seq<Action>, at: real, disk: Disk)
    requires c.Valid() && Reached(c, actions).startedAt.Some? && !Untimely(Reached(c, actions), at)
    ensures var s := Reached(c, actions);
      if s.sm.state.Planning?
      then forall more: seq<Action> :: Run(c, s, more).sm.state.Planning?
      else var end := Run(c, s, WayOut(s, at, disk)).sm.state; end.Completed? || end.Blocked?
  {
    var s := Reached(c, actions);
    if s.sm.state.Planning? {
      forall more: seq<Action> ensures Run(c, s, more).sm.state.Planning? { FinalForever(c, s, more); }
    } else {
      ReachedIsInOrder(c, actions);
      StartedStateEnds(c, s, at, disk);
    }
  }

  // ---- failing forever is impossible ---------------------------------------------------------------------

  /** One recovery begun, for whatever reason, and then reported as failed. */
  datatype Round = Round(begun: real, reason: string, failed: real, disk: Disk, disk': Disk)

  function Failing(at: real): Call { RecordRecoveryResult(at, Failure, Running, None) }

  function Rounds(rounds: seq<Round>): seq<Action> {
    if rounds == [] then []
    else
      var r := rounds[0];
      [Action(BeginRecovery(r.begun, r.reason), r.disk)] + ([Action(Failing(r.failed), r.disk')] + Rounds(rounds[1..]))
  }

  predicate Orderly(rounds: seq<Round>, now: real) {
    rounds == [] || (0.0 <= now <= rounds[0].begun <= rounds[0].failed && Orderly(rounds[1..], rounds[0].failed))
  }

  function Begun(c: Config, s: W, r: Round): W { Step(c, s, BeginRecovery(r.begun, r.reason), r.disk).0 }

  function AfterRound(c: Config, s: W, r: Round): W { Step(c, Begun(c, s, r), Failing(r.failed), r.disk').0 }

  lemma OneRound(c: Config, s: W, rounds: seq<Round>)
    requires rounds != []
    ensures Run(c, s, Rounds(rounds)) == Run(c, AfterRound(c, s, rounds[0]), Rounds(rounds[1..]))
  {
    var r := rounds[0];
    var fail := Action(Failing(r.failed), r.disk');
    RunOne(c, s, Action(BeginRecovery(r.begun, r.reason), r.disk), [fail] + Rounds(rounds[1..]));
    RunOne(c, Begun(c, s, r), fail, Rounds(rounds[1..]));
  }

  /** A failure reported in a stall, where the attempt never was, changes nothing. */
  lemma FailureWithoutAttempt(c: Config, s: W, at: real, disk: Disk)
    requires s.sm.state.Stalled?
    ensures Step(c, s, Failing(at), disk).0 == s
  {}

  lemma FailureIsAccepted(c: Config, s: W, at: real)
    requires s.sm.state.Recovering? && s.episode.attempts != [] && !Untimely(s, at)
    ensures Refused(c, s, Failing(at)).None?
  {}

  /** What a failure makes of a begun recovery: Blocked, or a stall with the same strategies used up. */
  lemma FailureAfter(c: Config, t: W, at: real, disk: Disk)
    requires c.Valid() && InOrder(c, t) && InTrouble(t.sm.state) && !Untimely(t, at)
    ensures var u := Step(c, t, Failing(at), disk).0;
      && InOrder(c, u)
      && (u.sm.state.Blocked? || (u.sm.state.Stalled? && u.episode.tried == t.episode.tried && !t.sm.state.Blocked?))
      && (u.clock == Some(at) || u.clock == t.clock)
  {
    StepIsInOrder(c, t, Failing(at), disk);
    if t.sm.state.Blocked? {
      FinalRefuses(c, t, Failing(at));
    } else if t.sm.state.Stalled? {
      FailureWithoutAttempt(c, t, at, disk);
    } else {
      RecoveringHasAttempt(c, t);
      FailureIsAccepted(c, t, at);
      FailureBlocks(c, t, at, Running, None, disk);
    }
  }

  lemma BeginningUsesARung(c: Config, s: W, t: W, at: real, reason: string, cost: real)
    requires Begins(s, t, at, reason, MustStop(c, s, cost))
    ensures InTrouble(t.sm.state)
    ensures !t.sm.state.Blocked? ==>
      && |t.episode.tried| == |s.episode.tried| + 1
      && |s.episode.tried| < Min(|LADDER|, c.policy.watchdog.maxRecoveryAttempts)
  {}

  lemma BegunRound(c: Config, s: W, r: Round)
    requires c.Valid() && InOrder(c, s) && s.sm.state.Stalled? && !Untimely(s, r.begun)
    ensures var t := Begun(c, s, r);
      && InOrder(c, t) && !Untimely(t, r.begun) && (t.clock == Some(r.begun) || t.clock == s.clock)
      && InTrouble(t.sm.state)
      && (!t.sm.state.Blocked? ==>
            && |t.episode.tried| == |s.episode.tried| + 1
            && |s.episode.tried| < Min(|LADDER|, c.policy.watchdog.maxRecoveryAttempts))
  {
    BeginStep(c, s, r.begun, r.reason, r.disk);
    BeginningUsesARung(c, s, Begun(c, s, r), r.begun, r.reason, RecoveryCost(c, s));
  }

  /** One round blocks, or uses up one more rung. */
  lemma RoundUsesARung(c: Config, s: W, r: Round)
    requires c.Valid() && InOrder(c, s) && s.sm.state.Stalled? && Now(s.clock) <= r.begun <= r.failed && 0.0 <= r.begun
    ensures var u := AfterRound(c, s, r);
      && InOrder(c, u) && Now(u.clock) <= r.failed
      && (u.sm.state.Blocked? ||
          (&& u.sm.state.Stalled? && |u.episode.tried| == |s.episode.tried| + 1
           && |s.episode.tried| < Min(|LADDER|, c.policy.watchdog.maxRecoveryAttempts)))
  {
    BegunRound(c, s, r);
    FailureAfter(c, Begun(c, s, r), r.failed, r.disk');
  }

  lemma OrderlySince(rounds: seq<Round>, now: real, later: real)
    requires Orderly(rounds, later) && 0.0 <= now <= later
    ensures Orderly(rounds, now)
  {}

  lemma WithinLadder(c: Config, s: W)
    requires Audited(c, s)
    ensures |s.episode.tried| <= Min(|LADDER|, c.policy.watchdog.maxRecoveryAttempts)
  {}

  lemma ClockIsNotNegative(c: Config, s: W)
    requires Sound(c, s)
    ensures 0.0 <= Now(s.clock)
  {}

  /** From any reachable stall, recoveries that keep failing block the execution, whatever reasons they are
      begun for: after at most as many as the smaller of the ladder and the attempt bound leave, and one more
      to notice. */
  lemma {:induction false} FailuresExhaust(c: Config, s: W, rounds: seq<Round>)
    requires c.Valid() && InOrder(c, s) && s.sm.state.Stalled? && Orderly(rounds, Now(s.clock))
    requires |rounds| > Min(|LADDER|, c.policy.watchdog.maxRecoveryAttempts) - |s.episode.tried|
    ensures Run(c, s, Rounds(rounds)).sm.state.Blocked?
    decreases |rounds|
  {
    WithinLadder(c, s);
    var u := AfterRound(c, s, rounds[0]);
    OneRound(c, s, rounds);
    RoundUsesARung(c, s, rounds[0]);
    if u.sm.state.Blocked? {
      FinalForever(c, u, Rounds(rounds[1..]));
    } else {
      ClockIsNotNegative(c, u);
      OrderlySince(rounds[1..], Now(u.clock), rounds[0].failed);
      FailuresExhaust(c, u, rounds[1..]);
    }
  }
}
