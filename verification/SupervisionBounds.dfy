/** The limits: every call keeps the counters exact and each limited quantity within its limit. */
module SupervisionBounds {
  import opened Common
  import opened Policies
  import opened StateMachine
  import opened Stall
  import opened Recovery
  import opened Budget
  import opened Supervision
  import opened SupervisionInvariants
  import opened SupervisionMoves
  import opened SupervisionSoundness

  /** Only some fields matter to the bounds. */
  lemma SameBounds(c: Config, s: W, t: W)
    requires Bounded(c, s) && InTrouble(t.sm.state) == InTrouble(s.sm.state)
    requires t.sm.state.Recovering? ==> Violations(c.policy.watchdog, t.guard) == []
    requires t.activities == s.activities && t.progress == s.progress && t.startedAt == s.startedAt
    requires t.guard == s.guard.(recoveryAttempts := t.guard.recoveryAttempts)
    requires t.episode.number == s.episode.number
    requires t.tier == s.tier && t.reasoning == s.reasoning && t.escalationsUsed == s.escalationsUsed
    ensures Bounded(c, t)
  {}

  /** Progress moves the boundary past all recorded work. */
  lemma NoWorkAfterProgress(c: Config, s: W, at: real, note: string)
    requires Sound(c, s) && s.startedAt.Some? && Now(s.clock) <= at
    ensures FreshWork(Progressed(s, at, note)) == 0
    ensures BoundaryOf(Progressed(s, at, note)) == at && Since(s.activities, at) == []
  {
    ProgressAppended(s.progress, ProgressEvent(note, at));
    NothingSince(s.activities, at);
  }

  lemma BoundsProgressed(c: Config, s: W, t: W)
    requires Bounded(c, s) && !InTrouble(t.sm.state) && FreshWork(t) == 0
    requires s.sm.state.Recovering? || !InTrouble(s.sm.state)
    requires t.activities == s.activities && t.guard == s.guard.(noProgressCycles := 0)
    requires t.episode.number == s.episode.number
    requires t.tier == s.tier && t.reasoning == s.reasoning && t.escalationsUsed == s.escalationsUsed
    ensures Bounded(c, t)
  {}

  lemma RecoveredWork(c: Config, s: W, judged: W, resume: ExecutionState, at: real, note: string)
    requires Sound(c, s) && s.startedAt.Some? && Now(s.clock) <= at && judged == s.(episode := judged.episode)
    ensures var after := Recovered(judged, resume, at, note);
      FreshWork(after) == 0 && BoundaryOf(after) == at && Since(after.activities, at) == []
  {
    var after := Recovered(judged, resume, at, note);
    NoWorkAfterProgress(c, s, at, note);
    assert after.progress == Progressed(s, at, note).progress;
  }

  lemma BoundsRecovered(c: Config, s: W, at: real, resume: ExecutionState, note: string)
    requires Sound(c, s) && Bounded(c, s) && s.sm.state.Recovering? && Now(s.clock) <= at && resume in RESUMABLE
    ensures Bounded(c, Touch(Recovered(Judged(s, Success, at), resume, at, note), at))
  {
    ActiveIsStarted(c, s);
    RecoveredWork(c, s, Judged(s, Success, at), resume, at, note);
    BoundsProgressed(c, s, Touch(Recovered(Judged(s, Success, at), resume, at, note), at));
  }

  lemma BoundsFailed(c: Config, s: W, at: real, strategy: Strategy)
    requires Bounded(c, s) && s.sm.state.Recovering?
    ensures Bounded(c, Touch(FailedBack(c, Judged(s, Failure, at), at, strategy), at))
  {
    SameBounds(c, s, Touch(FailedBack(c, Judged(s, Failure, at), at, strategy), at));
  }

  lemma BoundsConcluded(c: Config, s: W, at: real, result: RecoveryResult, resume: ExecutionState, evidence: Option<string>)
    requires Sound(c, s) && Bounded(c, s) && s.sm.state.Recovering? && Now(s.clock) <= at && s.episode.attempts != []
    requires result.Success? ==> resume in RESUMABLE
    ensures Bounded(c, Touch(Concluded(c, s, at, result, resume, evidence), at))
  {
    var strategy := s.episode.attempts[|s.episode.attempts| - 1].strategy;
    if result.Success? {
      BoundsRecovered(c, s, at, resume, NoteOf(evidence, strategy));
    } else {
      BoundsFailed(c, s, at, strategy);
    }
  }

  lemma BoundsBegun(c: Config, s: W, ledger: Ledger, task: string, at: real)
    requires s == Init(c).(clock := s.clock, mirror := s.mirror) && c.Valid()
    ensures Bounded(c, Touch(Begun(s, ledger, task, at), at))
  {}

  lemma BoundsEntered(c: Config, s: W, target: ExecutionState, at: real, evidence: seq<string>)
    requires Bounded(c, s) && !InTrouble(s.sm.state) && !target.Stalled? && Refusal(s.sm, target, at, evidence).None?
    ensures Bounded(c, Touch(Enter(s, target, at, evidence), at))
  {}

  lemma BoundsNotedProgress(c: Config, s: W, at: real, description: string)
    requires Sound(c, s) && Bounded(c, s) && Active(s) && Now(s.clock) <= at
    ensures Bounded(c, Touch(Progressed(s, at, description), at))
  {
    ActiveIsStarted(c, s);
    NoWorkAfterProgress(c, s, at, description);
    BoundsProgressed(c, s, Touch(Progressed(s, at, description), at));
  }

  lemma BoundsStarted(c: Config, s: W, call: Call)
    requires c.Valid() && Sound(c, s) && call.Start? && Refused(c, s, call).None?
    ensures Bounded(c, Touch(Effect(c, s, call), call.at))
  {
    BoundsBegun(c, s, Charged(s.ledger, InitialCharge(c, call.tokens, call.cost)).value, call.task, call.at);
  }

  lemma BoundsMoved(c: Config, s: W, call: Call)
    requires Bounded(c, s) && (call.Advance? || call.Complete?) && Refused(c, s, call).None?
    ensures Bounded(c, Touch(Effect(c, s, call), call.at))
  {
    if call.Advance? {
      BoundsEntered(c, s, call.target, call.at, []);
    } else {
      BoundsEntered(c, s, ExecutionState.Completed, call.at, call.proof);
    }
  }

  lemma BoundsSaved(c: Config, s: W, call: Call)
    requires Sound(c, s) && Bounded(c, s) && (call.RecordProgress? || call.TakeCheckpoint?) && Refused(c, s, call).None?
    ensures Bounded(c, Touch(Effect(c, s, call), call.at))
  {
    if call.RecordProgress? {
      BoundsNotedProgress(c, s, call.at, call.description);
    } else {
      SameBounds(c, s, Touch(Effect(c, s, call), call.at));
    }
  }

  lemma BoundsEffect(c: Config, s: W, call: Call)
    requires c.Valid() && Sound(c, s) && Bounded(c, s) && Plain(call) && Refused(c, s, call).None?
    ensures Bounded(c, Touch(Effect(c, s, call), call.at))
  {
    if call.Start? {
      BoundsStarted(c, s, call);
    } else if call.Advance? || call.Complete? {
      BoundsMoved(c, s, call);
    } else if call.RecordRecoveryResult? {
      BoundsConcluded(c, s, call.at, call.result, call.resume, call.evidence);
    } else {
      BoundsSaved(c, s, call);
    }
  }

  lemma BoundsNoted(c: Config, s: W, a: Activity)
    requires Bounded(c, s) && Active(s) && s.startedAt.Some?
    ensures Bounded(c, Touch(Noted(s, a), a.at))
  {
    StreakStep(s.activities, s.guard.streak, a);
    SinceAppend(s.activities, a, BoundaryOf(s));
  }

  /** Every stall uses up an activity recorded after the boundary. */
  lemma BoundsStalled(c: Config, s: W, at: real, reasons: seq<StallSignal>)
    requires c.Valid() && Bounded(c, s) && CanMove(c, s, Stall(at, reasons))
    ensures FreshWork(s) > 0
    ensures Bounded(c, StallOpened(s, at, reasons))
  {
    StallNeedsNewActivity(c.policy.watchdog, at, s.startedAt.value, LatestProgress(s.progress), s.activities);
    BoundsOpened(c, s, at, reasons);
  }

  lemma BoundsOpened(c: Config, s: W, at: real, reasons: seq<StallSignal>)
    requires Bounded(c, s) && Active(s) && FreshWork(s) > 0
    ensures Bounded(c, StallOpened(s, at, reasons))
  {}

  lemma BoundsRaised(c: Config, s: W, tier: ModelTier, reasoning: ReasoningEffort, cost: real, charged: Ledger)
    requires Bounded(c, s) && CanMove(c, s, Raise(tier, reasoning, cost, charged))
    ensures Bounded(c, Raised(s, tier, reasoning, charged))
  {}

  /** Signing, giving up and beginning an attempt count nothing that is bounded here. */
  lemma BoundsUncounted(c: Config, s: W, m: Move)
    requires Bounded(c, s) && CanMove(c, s, m) && (m.Tick? || m.Sign? || m.Clear? || m.GiveUp? || m.Spend? || m.Try?)
    ensures Bounded(c, After(c, s, m))
  {
    SameBounds(c, s, After(c, s, m));
  }

  lemma BoundedMove(c: Config, s: W, m: Move)
    requires c.Valid() && Sound(c, s) && Bounded(c, s) && CanMove(c, s, m)
    ensures Bounded(c, After(c, s, m))
  {
    match m
    case Act(call) => BoundsEffect(c, s, call);
    case Note(a) =>
      ActiveIsStarted(c, s);
      BoundsNoted(c, s, a);
    case Stall(at, reasons) => BoundsStalled(c, s, at, reasons);
    case Raise(tier, reasoning, cost, charged) => BoundsRaised(c, s, tier, reasoning, cost, charged);
    case _ => BoundsUncounted(c, s, m);
  }

  lemma BoundedByMoves(c: Config, call: Call)
    requires c.Valid()
    ensures KeptBy(c, call, s => Sound(c, s) && Bounded(c, s))
  {
    forall s, m | Sound(c, s) && Bounded(c, s) && CanMove(c, s, m)
      ensures Sound(c, After(c, s, m)) && Bounded(c, After(c, s, m))
    {
      SoundMove(c, s, m);
      BoundedMove(c, s, m);
    }
  }

  /** Every call, with any arguments and any write failures, keeps the bounds. */
  lemma StepIsBounded(c: Config, s: W, call: Call, disk: Disk)
    requires c.Valid() && Sound(c, s) && Bounded(c, s)
    ensures Sound(c, Step(c, s, call, disk).0) && Bounded(c, Step(c, s, call, disk).0)
  {
    BoundedByMoves(c, call);
    StepByMoves(c, s, call, disk, s => Sound(c, s) && Bounded(c, s));
  }
}
