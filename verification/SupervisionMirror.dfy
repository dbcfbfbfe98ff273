/** The durable heartbeat: exactly when a mirror that is not marked stale shows the current state. */
module SupervisionMirror {
  import opened Common
  import opened Stall
  import opened Recovery
  import opened Budget
  import opened Supervision
  import opened SupervisionInvariants
  import opened SupervisionMoves
  import opened SupervisionSoundness
  import Json
  import Heartbeats

  // ---- what writing does -------------------------------------------------------------------

  lemma MirrorIsNotShown(c: Config, s: W, m: Mirror, at: real)
    ensures Projection(c, s.(mirror := m), at) == Projection(c, s, at)
  {}

  lemma WrittenMirror(c: Config, s: W, at: real, ok: bool, shown: Json.Json)
    requires c.persistent && Projection(c, s, at).Valid() && shown == Heartbeats.ToJson(Projection(c, s, at))
    ensures Mirrored(c, s, at, ok) ==
      s.(mirror := if ok then Mirror(false, Some(at), Some(shown)) else Mirror(true, Some(at), s.mirror.file))
    ensures MirrorReply(c, s, at, ok).Done? <==> ok
  {}

  lemma ExactWhenShown(c: Config, s: W, m: Mirror, shown: Json.Json)
    requires c.persistent && m.lastAt.Some? && (!m.dirty ==> m.file == Some(shown))
    requires shown == Heartbeats.ToJson(Projection(c, s, 0.0))
    ensures MirrorOk(c, s.(mirror := m))
  {
    MirrorIsNotShown(c, s, m, 0.0);
  }

  /** Writing the mirror makes it exact, or marks it stale: never silently wrong. */
  lemma MirroringIsHonest(c: Config, s: W, at: real, ok: bool)
    requires c.Valid() && Sound(c, s) && s.startedAt.Some? && MirrorReady(c, s.mirror)
    ensures MirrorOk(c, Mirrored(c, s, at, ok))
    ensures MirrorReply(c, s, at, ok).Done? <==> !c.persistent || ok
  {
    if c.persistent {
      ProjectionIsValid(c, s, at);
      var shown := Heartbeats.ToJson(Projection(c, s, at));
      WrittenMirror(c, s, at, ok, shown);
      ExactWhenShown(c, s, Mirrored(c, s, at, ok).mirror, shown);
    }
  }

  lemma FinishIsHonest(c: Config, s: W, at: real, ok: bool)
    requires c.Valid() && Sound(c, Touch(s, at)) && s.startedAt.Some? && MirrorReady(c, s.mirror)
    ensures MirrorOk(c, Finish(c, s, at, ok).0)
  {
    MirroringIsHonest(c, Touch(s, at), at, ok);
  }

  /** What the mirror shows depends on neither the clock nor what has been spent. */
  lemma SpendingIsNotMirrored(c: Config, s: W, t: W)
    requires MirrorOk(c, s)
    requires t == s.(ledger := t.ledger, guard := t.guard, tier := t.tier, reasoning := t.reasoning,
                     escalationsUsed := t.escalationsUsed, clock := t.clock)
    ensures MirrorOk(c, t)
  {}

  // ---- every call mirrors what it changes, but one --------------------------------------------

  lemma DenialMirrors(c: Config, s: W, at: real, blocker: Blocker, ok: bool)
    requires c.Valid() && Sound(c, s) && s.startedAt.Some? && !Untimely(s, at) && s.sm.state.Stalled?
    requires MirrorReady(c, s.mirror)
    ensures MirrorOk(c, Finish(c, GivenUp(s, at, blocker), at, ok).0)
  {
    SoundGivingUp(c, s, at, blocker);
    FinishIsHonest(c, GivenUp(s, at, blocker), at, ok);
  }

  lemma AttemptMirrors(c: Config, s: W, at: real, reason: string, strategy: Strategy, charged: Ledger, ok: bool)
    requires c.Valid() && Sound(c, s) && s.startedAt.Some? && !Untimely(s, at) && s.sm.state.Stalled?
    requires MirrorReady(c, s.mirror)
    ensures MirrorOk(c, Finish(c, Attempting(Committing(s, strategy, charged), at, reason, strategy), at, ok).0)
  {
    SoundCommitting(c, s, strategy, charged);
    SoundAttempt(c, Committing(s, strategy, charged), at, reason, strategy);
    FinishIsHonest(c, Attempting(Committing(s, strategy, charged), at, reason, strategy), at, ok);
  }

  /** Pursuing a stall mirrors it, whatever the mirror showed before, unless a blank reason is refused late. */
  lemma PursuitMirrors(c: Config, s: W, at: real, reason: string, ok: bool)
    requires c.Valid() && Sound(c, s) && s.startedAt.Some? && !Untimely(s, at) && s.sm.state.Stalled?
    requires MirrorReady(c, s.mirror) && !(Blank(reason) && Admit(c, s).Admitted?)
    ensures MirrorOk(c, RecoveryFromStall(c, s, at, reason, ok).0)
  {
    match Admit(c, s)
    case Denied(blocker) => DenialMirrors(c, s, at, blocker, ok);
    case Admitted(strategy, charged) => AttemptMirrors(c, s, at, reason, strategy, charged, ok);
  }

  lemma StallMirrors(c: Config, s: W, at: real, disk: Disk)
    requires c.Valid() && Sound(c, s) && s.startedAt.Some? && !Untimely(s, at) && s.sm.state.Stalled?
    requires MirrorReady(c, s.mirror)
    ensures MirrorOk(c, StallStep(c, s, at, disk).0)
  {
    MirroringIsHonest(c, s, at, disk.stall);
    if !MirrorReply(c, s, at, disk.stall).WriteFailed? {
      SoundMirrored(c, s, at, disk.stall);
      DetectedIsText();
      PursuitMirrors(c, Mirrored(c, s, at, disk.stall), at, STALL_DETECTED, disk.recovery);
    }
  }

  /** Judging either leaves what the mirror shows alone, or mirrors. */
  lemma JudgingMirrors(c: Config, s: W, at: real, reasons: seq<StallSignal>, disk: Disk)
    requires c.Valid() && Sound(c, s) && s.startedAt.Some? && !Untimely(s, at) && Active(s) && MirrorReady(c, s.mirror)
    ensures MirrorReady(c, Responded(c, s, at, reasons, disk).0.mirror)
    ensures MirrorOk(c, s) || reasons != [] ==> MirrorOk(c, Responded(c, s, at, reasons, disk).0)
  {
    if reasons == [] {
      if MirrorOk(c, s) { SpendingIsNotMirrored(c, s, Touch(s, at)); }
    } else {
      SoundStalled(c, s, at, reasons);
      StallMirrors(c, StallOpened(s, at, reasons), at, disk);
    }
  }

  lemma EvaluationMirrors(c: Config, s: W, at: real, disk: Disk)
    requires c.Valid() && Sound(c, s) && !Untimely(s, at) && MirrorOk(c, s)
    ensures MirrorOk(c, Evaluated(c, s, at, disk).0)
  {
    if Active(s) && s.startedAt.Some? {
      JudgingMirrors(c, s, at, VerdictAt(c, s, at), disk);
    } else {
      SpendingIsNotMirrored(c, s, Touch(s, at));
    }
  }

  lemma EvaluationIsSound(c: Config, s: W, at: real, disk: Disk)
    requires c.Valid() && Sound(c, s) && !Untimely(s, at)
    ensures Sound(c, Evaluated(c, s, at, disk).0)
  {
    SoundByMoves(c, Evaluate(at));
    JudgingByMoves(c, s, at, disk, Evaluate(at), s => Sound(c, s));
  }

  lemma ReportMirrors(c: Config, s: W, at: real, disk: Disk)
    requires c.Valid() && Sound(c, s) && s.startedAt.Some? && !Untimely(s, at) && Active(s) && MirrorReady(c, s.mirror)
    ensures MirrorOk(c, Reported(c, s, at, disk).0)
  {
    JudgingMirrors(c, s, at, VerdictAt(c, s, at), disk);
    EvaluationIsSound(c, s, at, disk);
    ReportIsHonest(c, s, at, Evaluated(c, s, at, disk), disk);
  }

  lemma ReportIsHonest(c: Config, s: W, at: real, judged: (W, Reply), disk: Disk)
    requires c.Valid() && s.startedAt.Some? && Active(s) && judged == Responded(c, s, at, VerdictAt(c, s, at), disk)
    requires Sound(c, judged.0) && MirrorReady(c, judged.0.mirror)
    requires VerdictAt(c, s, at) != [] ==> MirrorOk(c, judged.0)
    ensures MirrorOk(c, Reported(c, s, at, disk).0)
  {
    assert judged == Evaluated(c, s, at, disk);
    if judged.1.Done? {
      StartIsKept(c, s, at, VerdictAt(c, s, at), disk);
      MirroringIsHonest(c, judged.0, at, disk.final);
    }
  }

  lemma PursuitKeepsStart(c: Config, s: W, at: real, reason: string, admission: Admission, ok: bool)
    ensures Pursued(c, s, at, reason, admission, ok).0.startedAt == s.startedAt
  {}

  lemma StartIsKept(c: Config, s: W, at: real, reasons: seq<StallSignal>, disk: Disk)
    ensures Responded(c, s, at, reasons, disk).0.startedAt == s.startedAt
    ensures reasons == [] ==> Responded(c, s, at, reasons, disk) == (Touch(s, at), Done)
  {
    var stalled := Mirrored(c, StallOpened(s, at, reasons), at, disk.stall);
    PursuitKeepsStart(c, stalled, at, STALL_DETECTED, Admit(c, stalled), disk.recovery);
  }

  lemma EffectLeavesMirror(c: Config, s: W, call: Call)
    requires Plain(call) && Refused(c, s, call).None?
    ensures Effect(c, s, call).mirror == s.mirror
  {}

  lemma PlainEndsSo(c: Config, s: W, call: Call, disk: Disk)
    requires Plain(call) && Refused(c, s, call).None?
    ensures var t := Carried(c, s, call, disk).0;
      t == s || t == Finish(c, Effect(c, s, call), call.at, disk.final).0
  {}

  lemma PlainMirrors(c: Config, s: W, call: Call, disk: Disk)
    requires c.Valid() && Sound(c, s) && MirrorOk(c, s) && Plain(call) && Refused(c, s, call).None?
    ensures MirrorOk(c, Carried(c, s, call, disk).0)
  {
    PlainEndsSo(c, s, call, disk);
    SoundEffect(c, s, call);
    EffectLeavesMirror(c, s, call);
    FinishIsHonest(c, Effect(c, s, call), call.at, disk.final);
  }

  lemma ActivityMirrors(c: Config, s: W, call: Call, disk: Disk)
    requires c.Valid() && Sound(c, s) && MirrorOk(c, s) && call.RecordActivity? && Refused(c, s, call).None?
    ensures MirrorOk(c, Carried(c, s, call, disk).0)
  {
    var a := Activity(call.at, call.fingerprint, call.succeeded, call.trivial, call.duration, call.error);
    ActiveIsStarted(c, s);
    SoundNoted(c, s, a);
    ReportMirrors(c, Touch(Noted(s, a), call.at), call.at, disk);
  }

  lemma SyncMirrors(c: Config, s: W, disk: Disk)
    requires c.Valid() && Sound(c, s) && MirrorOk(c, s)
    ensures MirrorOk(c, Synced(c, s, disk).0)
  {
    if s.mirror.dirty && s.startedAt.Some? { MirroringIsHonest(c, s, s.mirror.lastAt.value, disk.final); }
  }

  lemma SpecialMirrors(c: Config, s: W, call: Call, disk: Disk)
    requires c.Valid() && Sound(c, s) && MirrorOk(c, s) && !Plain(call) && Refused(c, s, call).None?
    requires !RefusedTooLate(c, s, call)
    ensures MirrorOk(c, Carried(c, s, call, disk).0)
  {
    if call.RecordActivity? {
      ActivityMirrors(c, s, call, disk);
    } else if call.Evaluate? {
      EvaluationMirrors(c, s, call.at, disk);
    } else if call.BeginRecovery? {
      ActiveIsStarted(c, s);
      PursuitMirrors(c, s, call.at, call.reason, disk.recovery);
    } else if call.RecordEscalation? {
      SpendingIsNotMirrored(c, s, Touch(Escalated(c, s, call.signals), call.at));
    } else {
      SyncMirrors(c, s, disk);
    }
  }

  lemma TimelyCallMirrors(c: Config, s: W, call: Call, disk: Disk)
    requires c.Valid() && Sound(c, s) && MirrorOk(c, s) && !RefusedTooLate(c, s, call)
    ensures MirrorOk(c, Step(c, s, call, disk).0)
  {
    if Refused(c, s, call).None? {
      if Plain(call) { PlainMirrors(c, s, call, disk); } else { SpecialMirrors(c, s, call, disk); }
    }
  }

  // ---- the one call that does not mirror what it changed ------------------------------------------

  /** Two records that differ in the strategy shown are stored differently. */
  lemma StrategyIsStored(a: Heartbeats.Heartbeat, b: Heartbeats.Heartbeat)
    requires a.currentStrategy != b.currentStrategy
    ensures Heartbeats.ToJson(a) != Heartbeats.ToJson(b)
  {
    assert Heartbeats.ToJson(a).fields[Json.CurrentStrategy] == Json.FromOptional(a.currentStrategy);
    assert Heartbeats.ToJson(b).fields[Json.CurrentStrategy] == Json.FromOptional(b.currentStrategy);
  }

  lemma NamesDiffer(a: Strategy, b: Strategy)
    requires a != b
    ensures StrategyName(a) != StrategyName(b)
  {
    NameShape(a);
    NameShape(b);
  }

  function Shape(s: Strategy): (nat, char) {
    match s
    case ReReadError => (13, 'r')
    case InspectAssumptions => (19, 'i')
    case SplitTask => (10, 's')
    case ChangeApproach => (15, 'c')
    case RestoreCheckpoint => (18, 'r')
    case RestartTool => (12, 'r')
    case UseAnotherAgent => (17, 'u')
    case IncreaseReasoning => (18, 'i')
    case ChangeModelTier => (17, 'c')
    case RequestHumanIntervention => (26, 'r')
  }

  lemma NameShape(s: Strategy)
    ensures |StrategyName(s)| == Shape(s).0 && StrategyName(s)[0] == Shape(s).1
  {}

  /** The strategy shown after the first k of those used up. */
  function StrategyShown(tried: seq<Strategy>, k: nat): Option<string>
    requires k <= |tried|
  {
    if k == 0 then None else Some(StrategyName(tried[k - 1]))
  }

  /** The mirror still shows the state as it was when only the first k strategies were used up. */
  predicate ShowsFirst(c: Config, s: W, k: nat) {
    k <= |s.episode.tried| &&
    s.mirror.file ==
      Some(Heartbeats.ToJson(Projection(c, s, 0.0).(currentStrategy := StrategyShown(s.episode.tried, k))))
  }

  /** In a stall, with strategies used up since the mirror was written, and no mark that it is stale. */
  ghost predicate Outdated(c: Config, s: W) {
    && c.persistent && s.sm.state.Stalled? && !s.mirror.dirty
    && exists k: nat :: k < |s.episode.tried| && ShowsFirst(c, s, k)
  }

  lemma LaterStrategyDiffers(tried: seq<Strategy>, k: nat)
    requires k < |tried| && tried[|tried| - 1] !in tried[..|tried| - 1]
    ensures StrategyShown(tried, k) != StrategyShown(tried, |tried|)
  {
    if k > 0 {
      assert tried[..|tried| - 1][k - 1] == tried[k - 1];
      NamesDiffer(tried[k - 1], tried[|tried| - 1]);
    }
  }

  lemma OutdatedLies(c: Config, s: W)
    requires Outdated(c, s) && s.startedAt.Some?
    requires s.episode.tried[|s.episode.tried| - 1] !in s.episode.tried[..|s.episode.tried| - 1]
    ensures !MirrorOk(c, s)
  {
    var k: nat :| k < |s.episode.tried| && ShowsFirst(c, s, k);
    LaterStrategyDiffers(s.episode.tried, k);
    StrategyIsStored(Projection(c, s, 0.0), Projection(c, s, 0.0).(currentStrategy := StrategyShown(s.episode.tried, k)));
  }

  lemma CommittingOutdates(c: Config, s: W, strategy: Strategy, charged: Ledger, k: nat)
    requires c.persistent && s.sm.state.Stalled? && !s.mirror.dirty && ShowsFirst(c, s, k)
    ensures Outdated(c, Committing(s, strategy, charged))
  {
    assert ShowsFirst(c, Committing(s, strategy, charged), k);
  }

  lemma ExactShowsAll(c: Config, s: W)
    requires MirrorOk(c, s) && c.persistent && s.startedAt.Some? && !s.mirror.dirty
    ensures ShowsFirst(c, s, |s.episode.tried|)
  {}

  lemma LateCallCommits(c: Config, s: W, call: Call, disk: Disk)
    requires RefusedTooLate(c, s, call)
    ensures var admission := Admit(c, s);
      && Step(c, s, call, disk).0 == Committing(s, admission.strategy, admission.ledger)
      && admission.strategy !in s.episode.tried
      && s.sm.state.Stalled?
  {
    NeverRepeated(c.policy.watchdog, s.episode.tried, |s.episode.attempts| + 1);
  }

  lemma LateCallOutdates(c: Config, s: W, call: Call, disk: Disk)
    requires c.Valid() && Sound(c, s) && MirrorOk(c, s) && RefusedTooLate(c, s, call)
    ensures MirrorOk(c, Step(c, s, call, disk).0) <==> !(c.persistent && !s.mirror.dirty)
    ensures c.persistent && !s.mirror.dirty ==> Outdated(c, Step(c, s, call, disk).0)
  {
    var admission := Admit(c, s);
    var t := Step(c, s, call, disk).0;
    LateCallCommits(c, s, call, disk);
    ActiveIsStarted(c, s);
    if c.persistent && !s.mirror.dirty {
      ExactShowsAll(c, s);
      CommittingOutdates(c, s, admission.strategy, admission.ledger, |s.episode.tried|);
      assert t.episode.tried[..|t.episode.tried| - 1] == s.episode.tried;
      OutdatedLies(c, t);
    }
  }

  /** From an exact mirror a call leads to a wrong one that is not marked stale in exactly one case: it is
      refused too late, with persistence, while the mirror is clean. */
  lemma StepKeepsMirror(c: Config, s: W, call: Call, disk: Disk)
    requires c.Valid() && Sound(c, s) && MirrorOk(c, s)
    ensures MirrorOk(c, Step(c, s, call, disk).0) <==> !(RefusedTooLate(c, s, call) && c.persistent && !s.mirror.dirty)
  {
    if RefusedTooLate(c, s, call) { LateCallOutdates(c, s, call, disk); } else { TimelyCallMirrors(c, s, call, disk); }
  }

  // ---- how long the mirror stays wrong ---------------------------------------------------------------

  lemma OnlyTheseReachAStall(c: Config, s: W, call: Call)
    requires s.sm.state.Stalled? && Refused(c, s, call).None?
    ensures call.BeginRecovery? || call.Evaluate? || call.SyncHeartbeat?
  {}

  lemma ClockKeepsOutdated(c: Config, s: W, at: real)
    requires Outdated(c, s)
    ensures Outdated(c, Touch(s, at))
  {
    var k: nat :| k < |s.episode.tried| && ShowsFirst(c, s, k);
    assert ShowsFirst(c, Touch(s, at), k);
  }

  lemma LateFromOutdated(c: Config, s: W, call: Call, disk: Disk)
    requires Outdated(c, s) && RefusedTooLate(c, s, call)
    ensures Outdated(c, Step(c, s, call, disk).0)
  {
    var k: nat :| k < |s.episode.tried| && ShowsFirst(c, s, k);
    LateCallCommits(c, s, call, disk);
    CommittingOutdates(c, s, Admit(c, s).strategy, Admit(c, s).ledger, k);
  }

  lemma BeginFromOutdated(c: Config, s: W, call: Call, disk: Disk)
    requires c.Valid() && Sound(c, s) && s.sm.state.Stalled? && MirrorReady(c, s.mirror)
    requires call.BeginRecovery? && Refused(c, s, call).None? && !RefusedTooLate(c, s, call)
    ensures MirrorOk(c, Step(c, s, call, disk).0)
  {
    ActiveIsStarted(c, s);
    PursuitMirrors(c, s, call.at, call.reason, disk.recovery);
  }

  /** In a stall with a clean mirror the other calls only commit the clock, if anything. */
  lemma StalledIsOnlyObserved(c: Config, s: W, call: Call, disk: Disk)
    requires s.sm.state.Stalled? && !s.mirror.dirty && !call.BeginRecovery?
    ensures var t := Step(c, s, call, disk).0; t == s || (call.Evaluate? && t == Touch(s, call.at))
  {
    if Refused(c, s, call).None? {
      OnlyTheseReachAStall(c, s, call);
      if call.Evaluate? { InactiveIsOnlyObserved(c, s, call.at, disk); }
    }
  }

  lemma OthersFromOutdated(c: Config, s: W, call: Call, disk: Disk)
    requires Outdated(c, s) && !call.BeginRecovery?
    ensures Outdated(c, Step(c, s, call, disk).0)
  {
    StalledIsOnlyObserved(c, s, call, disk);
    if call.Evaluate? { ClockKeepsOutdated(c, s, call.at); }
  }

  /** A wrong mirror stays wrong until recovery is begun with a reason, or given up. */
  lemma StepFromOutdated(c: Config, s: W, call: Call, disk: Disk)
    requires c.Valid() && Sound(c, s) && Outdated(c, s)
    ensures var t := Step(c, s, call, disk).0;
      if call.BeginRecovery? && Refused(c, s, call).None? && !RefusedTooLate(c, s, call) then MirrorOk(c, t) else Outdated(c, t)
  {
    if RefusedTooLate(c, s, call) {
      LateFromOutdated(c, s, call, disk);
    } else if !call.BeginRecovery? {
      OthersFromOutdated(c, s, call, disk);
    } else if Refused(c, s, call).None? {
      BeginFromOutdated(c, s, call, disk);
    }
  }

  /** Whether the mirror is wrong after a call, judged from the calls alone. */
  predicate LiesAfter(c: Config, s: W, call: Call, lying: bool) {
    if RefusedTooLate(c, s, call) then c.persistent && !s.mirror.dirty
    else lying && !(call.BeginRecovery? && Refused(c, s, call).None?)
  }

  predicate Lies(c: Config, s: W, actions: seq<Action>, lying: bool)
    decreases |actions|
  {
    if actions == [] then lying
    else
      var a := actions[0];
      Lies(c, Step(c, s, a.call, a.disk).0, actions[1..], LiesAfter(c, s, a.call, lying))
  }

  ghost predicate Mirroring(c: Config, s: W, lying: bool) {
    if lying then Outdated(c, s) else MirrorOk(c, s)
  }

  lemma StepMirrors(c: Config, s: W, call: Call, disk: Disk, lying: bool)
    requires c.Valid() && Sound(c, s) && Mirroring(c, s, lying)
    ensures Mirroring(c, Step(c, s, call, disk).0, LiesAfter(c, s, call, lying))
  {
    if lying {
      StepFromOutdated(c, s, call, disk);
    } else if RefusedTooLate(c, s, call) {
      LateCallOutdates(c, s, call, disk);
    } else {
      TimelyCallMirrors(c, s, call, disk);
    }
  }

  lemma {:induction false} RunMirrors(c: Config, s: W, actions: seq<Action>, lying: bool)
    requires c.Valid() && Sound(c, s) && Mirroring(c, s, lying)
    ensures Mirroring(c, Run(c, s, actions), Lies(c, s, actions, lying))
    decreases |actions|
  {
    if actions != [] {
      var a := actions[0];
      StepIsSound(c, s, a.call, a.disk);
      StepMirrors(c, s, a.call, a.disk, lying);
      RunMirrors(c, Step(c, s, a.call, a.disk).0, actions[1..], LiesAfter(c, s, a.call, lying));
    }
  }

  /** No call is refused too late, no lie. */
  lemma {:induction false} TimelyRunsAreHonest(c: Config, s: W, actions: seq<Action>)
    requires TooLate(c, s, actions) == 0
    ensures !Lies(c, s, actions, false)
    decreases |actions|
  {
    if actions != [] {
      var a := actions[0];
      TimelyRunsAreHonest(c, Step(c, s, a.call, a.disk).0, actions[1..]);
    }
  }

  // ---- the retry ---------------------------------------------------------------------------------------

  lemma ReadyMove(c: Config, s: W, m: Move)
    requires CanMove(c, s, m) && MirrorReady(c, s.mirror)
    ensures MirrorReady(c, After(c, s, m).mirror)
  {
    if m.Act? { EffectLeavesMirror(c, s, m.call); }
  }

  /** A stale mark always comes with the time of the attempt it belongs to. */
  lemma StepKeepsReady(c: Config, s: W, call: Call, disk: Disk)
    requires c.Valid() && MirrorReady(c, s.mirror)
    ensures MirrorReady(c, Step(c, s, call, disk).0.mirror)
  {
    forall u: W, m: Move | MirrorReady(c, u.mirror) && CanMove(c, u, m) ensures MirrorReady(c, After(c, u, m).mirror) {
      ReadyMove(c, u, m);
    }
    StepByMoves(c, s, call, disk, (u: W) => MirrorReady(c, u.mirror));
  }

  lemma UnstartedRefuses(c: Config, s: W, call: Call)
    requires Sound(c, s) && s.startedAt.None? && !call.Start? && !call.Evaluate? && !call.SyncHeartbeat?
    ensures Refused(c, s, call).Some?
  {}

  lemma StartStarts(c: Config, s: W, call: Call, disk: Disk)
    requires call.Start? && Refused(c, s, call).None?
    ensures Step(c, s, call, disk).0.startedAt.Some?
  {}

  /** Nothing is mirrored before the start, so nothing is marked stale. */
  lemma UnstartedStaysClean(c: Config, s: W, call: Call, disk: Disk)
    requires Sound(c, s) && (s.startedAt.None? ==> !s.mirror.dirty)
    requires s.startedAt.Some? ==> Step(c, s, call, disk).0.startedAt.Some?
    ensures var t := Step(c, s, call, disk).0; t.startedAt.None? ==> !t.mirror.dirty
  {
    if s.startedAt.None? {
      if call.Start? {
        if Refused(c, s, call).None? { StartStarts(c, s, call, disk); }
      } else if !call.Evaluate? && !call.SyncHeartbeat? {
        UnstartedRefuses(c, s, call);
      }
    }
  }
}
