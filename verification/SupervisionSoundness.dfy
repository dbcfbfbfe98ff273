/** Timeline and lifecycle facts that every call keeps, whatever its arguments. */
module SupervisionSoundness {
  import opened Common
  import opened Policies
  import opened StateMachine
  import opened Stall
  import opened Recovery
  import opened Budget
  import opened Supervision
  import opened SupervisionInvariants
  import opened SupervisionMoves

  lemma SignalTextsAreText(reasons: seq<StallSignal>)
    requires reasons != []
    ensures !Blank(StallText(reasons))
  {
    var t := StallText(reasons);
    assert t[0] == SignalText(reasons[0])[0];
    NotBlankAt(t, 0);
  }

  lemma NamesAreText(b: Blocker, s: Strategy)
    ensures !Blank(BlockerText(b))
    ensures !Blank(StrategyName(s))
    ensures !Blank("recovered via " + StrategyName(s))
  {
    var text := BlockerText(b);
    NotBlankAt(text, |text| - 1);
    NotBlankAt(StrategyName(s), 0);
    NotBlankAt("recovered via " + StrategyName(s), 0);
  }

  /** Once started, the mirror of a sound state can always be built. */
  lemma ProjectionIsValid(c: Config, s: W, at: real)
    requires c.Valid() && Sound(c, s) && s.startedAt.Some?
    ensures Projection(c, s, at).Valid()
    ensures Projection(c, s, at) == Projection(c, s, 0.0)
  {
    if s.progress != [] { LatestIsLast(s.progress); }
    if s.episode.tried != [] { NamesAreText(NoStrategyLeft, s.episode.tried[|s.episode.tried| - 1]); }
  }

  lemma StillChronological(events: seq<ProgressEvent>, e: ProgressEvent)
    requires Chronological(events) && (events != [] ==> events[|events| - 1].at <= e.at)
    ensures Chronological(events + [e])
  {
    var more := events + [e];
    forall i, j | 0 <= i < j < |more| ensures more[i].at <= more[j].at {
      if j == |events| && i < j - 1 { assert events[i].at <= events[j - 1].at; }
    }
  }

  lemma ProgressAppended(events: seq<ProgressEvent>, e: ProgressEvent)
    requires Chronological(events) && (events != [] ==> events[|events| - 1].at <= e.at)
    ensures Chronological(events + [e]) && LatestProgress(events + [e]) == Some(e.at)
  {
    StillChronological(events, e);
    LatestIsLast(events + [e]);
  }

  /** Nothing recorded is later than the clock, so a timely move along an allowed edge is never refused. */
  lemma TimelyMoveIsMade(c: Config, s: W, target: ExecutionState, at: real)
    requires Sound(c, s) && !Untimely(s, at) && target in Allowed(s.sm.state) && !target.Completed?
    ensures Refusal(s.sm, target, at, []).None?
  {}

  lemma ProgressIsTimely(c: Config, s: W, at: real)
    requires Sound(c, s) && !Untimely(s, at)
    ensures LatestProgress(s.progress).Some? ==> LatestProgress(s.progress).value <= at
  {
    if s.progress != [] { LatestIsLast(s.progress); }
  }

  lemma SoundTouch(c: Config, s: W, at: real)
    requires Sound(c, s) && !Untimely(s, at)
    ensures Sound(c, Touch(s, at))
  {}

  lemma SoundMirrored(c: Config, s: W, at: real, ok: bool)
    requires Sound(c, s)
    ensures Sound(c, Mirrored(c, s, at, ok))
  {}

  /** A transition the coordinator makes from a started, left-behind-Planning state. */
  lemma SoundEnter(c: Config, s: W, target: ExecutionState, at: real, evidence: seq<string>)
    requires Sound(c, s) && s.startedAt.Some? && !Untimely(s, at)
    requires !s.sm.state.Planning? && RecordOk(TransitionRecord(s.sm.state, target, at, evidence))
    ensures Refusal(s.sm, target, at, evidence).None?
    ensures Sound(c, Touch(Enter(s, target, at, evidence), at))
  {
    var h, h' := s.sm.history, Moved(s.sm, target, at, evidence).history;
    assert forall i :: 0 <= i < |h| ==> h'[i] == h[i];
  }

  lemma SoundStart(c: Config, s: W, ledger: Ledger, task: string, at: real)
    requires c.Valid() && Sound(c, s) && s.startedAt.None? && !Blank(task) && !Untimely(s, at)
    ensures Refusal(s.sm, Running, at, []).None?
    ensures Sound(c, Touch(Begun(s, ledger, task, at), at))
  {}

  lemma SoundProgress(c: Config, s: W, at: real, description: string)
    requires Sound(c, s) && s.startedAt.Some? && !Untimely(s, at) && !Blank(description)
    ensures Sound(c, Touch(Progressed(s, at, description), at))
    ensures s.progress != [] ==> LatestProgress(s.progress).value <= at
  {
    ProgressStaysTimed(s.progress, ProgressEvent(description, at), Now(s.clock));
    ProgressIsTimely(c, s, at);
  }

  lemma ProgressStaysTimed(events: seq<ProgressEvent>, e: ProgressEvent, now: real)
    requires ProgressTimed(events, now) && 0.0 <= now <= e.at
    ensures ProgressTimed(events + [e], e.at)
  {
    StillChronological(events, e);
  }

  lemma SoundNoted(c: Config, s: W, a: Activity)
    requires Sound(c, s) && s.startedAt.Some? && !Untimely(s, a.at) && !BlankIfGiven(a.error)
    ensures Sound(c, Touch(Noted(s, a), a.at))
  {}

  lemma SoundStalled(c: Config, s: W, at: real, reasons: seq<StallSignal>)
    requires Sound(c, s) && s.startedAt.Some? && !Untimely(s, at) && Active(s) && reasons != []
    ensures Sound(c, StallOpened(s, at, reasons))
  {
    SoundEnter(c, s, Stalled, at, []);
    SignalTextsAreText(reasons);
  }

  lemma SoundBlocked(c: Config, s: W, at: real, blocker: Blocker)
    requires Sound(c, s) && s.startedAt.Some? && !Untimely(s, at) && s.sm.state.Recovering?
    ensures Sound(c, BlockedBy(s, at, blocker))
  {
    SoundEnter(c, s, Blocked, at, []);
    NamesAreText(blocker, ReReadError);
  }

  lemma ActiveIsStarted(c: Config, s: W)
    requires Sound(c, s) && !s.sm.state.Planning?
    ensures s.startedAt.Some?
  {}

  lemma SoundCommitting(c: Config, s: W, strategy: Strategy, charged: Ledger)
    requires Sound(c, s) && s.startedAt.Some?
    ensures Sound(c, Committing(s, strategy, charged))
  {}

  lemma SoundGivingUp(c: Config, s: W, at: real, blocker: Blocker)
    requires Sound(c, s) && s.startedAt.Some? && !Untimely(s, at) && s.sm.state.Stalled?
    ensures Touch(GivenUp(s, at, blocker), at) == GivenUp(s, at, blocker)
    ensures Sound(c, GivenUp(s, at, blocker))
  {
    SoundEnter(c, s, Recovering, at, []);
    var recovering := Touch(Enter(s, Recovering, at, []), at);
    SoundBlocked(c, recovering, at, blocker);
    GivingUpInTwoMoves(s, at, blocker);
  }

  lemma GivingUpInTwoMoves(s: W, at: real, blocker: Blocker)
    ensures Touch(GivenUp(s, at, blocker), at) == GivenUp(s, at, blocker)
    ensures GivenUp(s, at, blocker) == BlockedBy(Touch(Enter(s, Recovering, at, []), at), at, blocker)
  {}

  lemma SoundAttempt(c: Config, s: W, at: real, reason: string, strategy: Strategy)
    requires Sound(c, s) && s.startedAt.Some? && !Untimely(s, at) && s.sm.state.Stalled?
    ensures Sound(c, Touch(Attempting(s, at, reason, strategy), at))
  {
    var attempt := RecoveryAttempt(reason, strategy, |s.episode.attempts| + 1, Pending, at);
    var noted := s.(episode := s.episode.(attempts := s.episode.attempts + [attempt]));
    SoundEnter(c, noted, Recovering, at, []);
  }

  lemma SoundFailure(c: Config, s: W, at: real, strategy: Strategy)
    requires Sound(c, s) && s.startedAt.Some? && !Untimely(s, at) && s.sm.state.Recovering?
    ensures Sound(c, Touch(FailedBack(c, s, at, strategy), at))
  {
    SoundBlocked(c, s, at, AttemptsExhausted);
    SoundEnter(c, s, Stalled, at, []);
  }

  lemma SoundRecovered(c: Config, s: W, resume: ExecutionState, at: real, note: string)
    requires Sound(c, s) && s.startedAt.Some? && !Untimely(s, at) && s.sm.state.Recovering?
    requires resume in RESUMABLE && !Blank(note)
    ensures Sound(c, Touch(Recovered(s, resume, at, note), at))
  {
    var closed := s.(closed := Closed(s, Resolved, at));
    assert Sound(c, closed);
    SoundEnter(c, closed, resume, at, []);
    var entered := Touch(Enter(closed, resume, at, []), at);
    SoundProgress(c, entered, at, note);
    assert Touch(Progressed(entered, at, note), at) == Touch(Recovered(s, resume, at, note), at);
  }

  lemma SoundStarting(c: Config, s: W, call: Call)
    requires c.Valid() && Sound(c, s) && call.Start? && Refused(c, s, call).None?
    ensures Effect(c, s, call).startedAt.Some? && Sound(c, Touch(Effect(c, s, call), call.at))
  {
    SoundStart(c, s, Charged(s.ledger, InitialCharge(c, call.tokens, call.cost)).value, call.task, call.at);
  }

  lemma SoundAdvancing(c: Config, s: W, call: Call)
    requires Sound(c, s) && call.Advance? && Refused(c, s, call).None?
    ensures Effect(c, s, call).startedAt.Some? && Sound(c, Touch(Effect(c, s, call), call.at))
  {
    ActiveIsStarted(c, s);
    SoundEnter(c, s, call.target, call.at, []);
  }

  lemma SoundCompleting(c: Config, s: W, call: Call)
    requires Sound(c, s) && call.Complete? && Refused(c, s, call).None?
    ensures Effect(c, s, call).startedAt.Some? && Sound(c, Touch(Effect(c, s, call), call.at))
  {
    ActiveIsStarted(c, s);
    SoundEnter(c, s, ExecutionState.Completed, call.at, call.proof);
  }

  lemma SoundSaving(c: Config, s: W, call: Call)
    requires Sound(c, s) && (call.RecordProgress? || call.TakeCheckpoint?) && Refused(c, s, call).None?
    ensures Effect(c, s, call).startedAt.Some? && Sound(c, Touch(Effect(c, s, call), call.at))
  {
    ActiveIsStarted(c, s);
    if call.RecordProgress? { SoundProgress(c, s, call.at, call.description); }
  }

  /** The change a plain call makes, once the clock is committed. */
  lemma SoundEffect(c: Config, s: W, call: Call)
    requires c.Valid() && Sound(c, s) && Plain(call) && Refused(c, s, call).None?
    ensures Effect(c, s, call).startedAt.Some?
    ensures Sound(c, Touch(Effect(c, s, call), call.at))
  {
    if call.Start? {
      SoundStarting(c, s, call);
    } else if call.Advance? {
      SoundAdvancing(c, s, call);
    } else if call.Complete? {
      SoundCompleting(c, s, call);
    } else if call.RecordRecoveryResult? {
      ActiveIsStarted(c, s);
      SoundConcluded(c, s, call.at, call.result, call.resume, call.evidence);
    } else {
      SoundSaving(c, s, call);
    }
  }

  lemma SoundConcluded(c: Config, s: W, at: real, result: RecoveryResult, resume: ExecutionState, evidence: Option<string>)
    requires Sound(c, s) && s.startedAt.Some? && !Untimely(s, at) && s.sm.state.Recovering? && s.episode.attempts != []
    requires (result.Success? ==> resume in RESUMABLE) && !BlankIfGiven(evidence)
    ensures Sound(c, Touch(Concluded(c, s, at, result, resume, evidence), at))
    ensures Concluded(c, s, at, result, resume, evidence).startedAt == s.startedAt
  {
    var strategy := s.episode.attempts[|s.episode.attempts| - 1].strategy;
    if result.Success? {
      NamesAreText(NoStrategyLeft, strategy);
      SoundRecovered(c, Judged(s, Success, at), resume, at, NoteOf(evidence, strategy));
    } else {
      SoundFailure(c, Judged(s, Failure, at), at, strategy);
    }
  }

  lemma SoundRaised(c: Config, s: W, tier: ModelTier, reasoning: ReasoningEffort, charged: Ledger)
    requires Sound(c, s) && s.startedAt.Some?
    ensures Sound(c, Raised(s, tier, reasoning, charged))
  {}

  lemma SoundCleared(c: Config, s: W)
    requires Sound(c, s)
    ensures Sound(c, s.(mirror := s.mirror.(dirty := false)))
  {}

  lemma SoundMove(c: Config, s: W, m: Move)
    requires c.Valid() && Sound(c, s) && CanMove(c, s, m)
    ensures Sound(c, After(c, s, m))
  {
    if !s.sm.state.Planning? { ActiveIsStarted(c, s); }
    match m
    case Tick(at) => SoundTouch(c, s, at);
    case Sign(at, ok) => SoundMirrored(c, s, at, ok);
    case Clear => SoundCleared(c, s);
    case Act(call) => SoundEffect(c, s, call);
    case Note(a) => SoundNoted(c, s, a);
    case Stall(at, reasons) => SoundStalled(c, s, at, reasons);
    case GiveUp(at, blocker) => SoundGivingUp(c, s, at, blocker);
    case Spend(strategy, _, charged) => SoundCommitting(c, s, strategy, charged);
    case Try(at, reason, strategy, _, charged) =>
      SoundCommitting(c, s, strategy, charged);
      SoundAttempt(c, Committing(s, strategy, charged), at, reason, strategy);
    case Raise(tier, reasoning, _, charged) => SoundRaised(c, s, tier, reasoning, charged);
  }

  lemma SoundByMoves(c: Config, call: Call)
    requires c.Valid()
    ensures KeptBy(c, call, s => Sound(c, s))
  {
    forall s, m | Sound(c, s) && CanMove(c, s, m) ensures Sound(c, After(c, s, m)) { SoundMove(c, s, m); }
  }

  /** Every call, with any arguments and any write failures, keeps the timeline and the lifecycle. */
  lemma StepIsSound(c: Config, s: W, call: Call, disk: Disk)
    requires c.Valid() && Sound(c, s)
    ensures Sound(c, Step(c, s, call, disk).0)
  {
    SoundByMoves(c, call);
    StepByMoves(c, s, call, disk, s => Sound(c, s));
  }
}
