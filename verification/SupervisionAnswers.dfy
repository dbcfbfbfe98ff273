/** What callers are answered, and what they find afterwards: which calls are accepted, where a verdict leads, what the
    result of a recovery and an escalation leave, and what became of the writes. */
module SupervisionAnswers {
  import opened Common
  import opened StateMachine
  import opened Stall
  import opened Budget
  import opened Routing
  import opened Escalation
  import opened Supervision
  import opened SupervisionInvariants
  import opened SupervisionMoves
  import opened SupervisionSoundness
  import opened SupervisionAudit
  import opened SupervisionBounds
  import opened SupervisionMoney
  import opened SupervisionRuns
  import opened SupervisionTheorems
  import opened SupervisionEndings
  import opened SupervisionLifecycle
  import opened SupervisionRecords
  import opened SupervisionEffects

  // ---- which calls are accepted ----------------------------------------------------------------

  /** The states, and for some calls the targets, that admit a call. */
  predicate Admits(s: W, call: Call) {
    match call
    case Start(_, _, _, _) => s.sm.state.Planning? && s.startedAt.None?
    case Advance(target, _) =>
      || (s.sm.state.Running? && (target.Testing? || target.Reviewing?))
      || (s.sm.state.Testing? && (target.Running? || target.Reviewing?))
      || (s.sm.state.Reviewing? && target.Running?)
    case BeginRecovery(_, _) => s.sm.state.Stalled?
    case RecordRecoveryResult(_, result, resume, _) =>
      && s.sm.state.Recovering?
      && (result.Success? ==> resume.Planning? || resume.Running? || resume.Testing? || resume.Reviewing?)
    case Complete(_, _) => s.sm.state.Reviewing?
    case Evaluate(_) => true
    case SyncHeartbeat => true
    case _ => s.sm.state.Running? || s.sm.state.Testing? || s.sm.state.Reviewing?
  }

  /** The arguments that make sense whatever the state. */
  predicate WellFormed(c: Config, call: Call) {
    match call
    case Start(task, _, tokens, cost) => !Blank(task) && (c.planned.Some? ==> tokens == 0 && cost == 0.0)
    case RecordActivity(_, fingerprint, _, _, duration, error) =>
      !Blank(fingerprint) && duration >= 0.0 && (error.Some? ==> !Blank(error.value))
    case RecordProgress(_, description) => !Blank(description)
    case RecordRecoveryResult(_, result, _, evidence) => !result.Pending? && (evidence.Some? ==> !Blank(evidence.value))
    case TakeCheckpoint(_, phase, _, _, lastGood) => !Blank(phase) && (lastGood.Some? ==> !Blank(lastGood.value))
    case Complete(_, proof) => forall i :: 0 <= i < |proof| ==> !Blank(proof[i])
    case _ => true
  }

  /** A time that is not negative and not before the last one committed. */
  predicate InTime(s: W, call: Call) {
    call.SyncHeartbeat? || (0.0 <= call.at && (s.clock.Some? ==> s.clock.value <= call.at))
  }

  /** What else a start and a completion need: a charge the ledger bears, and proof. */
  predicate Backed(c: Config, s: W, call: Call) {
    match call
    case Start(_, _, tokens, cost) =>
      var (t, k) := if c.planned.Some? then (c.planned.value.tokens, c.planned.value.cost) else (tokens, cost);
      (t == 0 && k == 0.0) || (t >= 0 && k >= 0.0 && Fits(s.ledger, t, k))
    case Complete(_, proof) => proof != []
    case _ => true
  }

  /** The error that stands for what a call lacks. */
  function WhatIsMissing(c: Config, call: Call): Error {
    if call.Complete? then NotCompleted
    else if call.Start? && (if c.planned.Some? then c.planned.value.tokens < 0 || c.planned.value.cost < 0.0
                            else call.tokens < 0 || call.cost < 0.0)
    then Configuration
    else BudgetExceeded
  }

  lemma StartAccepted(c: Config, s: W, call: Call)
    requires call.Start? && Sound(c, s)
    ensures Refused(c, s, call).None? <==> Admits(s, call) && WellFormed(c, call) && InTime(s, call) && Backed(c, s, call)
    ensures Refused(c, s, call) == Some(InvalidStateTransition) ==> !Admits(s, call)
    ensures Refused(c, s, call) == Some(InvalidObservation) ==> !WellFormed(c, call) || !InTime(s, call)
    ensures Admits(s, call) && WellFormed(c, call) && InTime(s, call) && !Backed(c, s, call) ==>
      Refused(c, s, call) == Some(WhatIsMissing(c, call))
    ensures !Admits(s, call) && WellFormed(c, call) && InTime(s, call) ==> Refused(c, s, call) == Some(InvalidStateTransition)
    ensures Admits(s, call) && !(WellFormed(c, call) && InTime(s, call)) ==> Refused(c, s, call) == Some(InvalidObservation)
  {
    var charge := InitialCharge(c, call.tokens, call.cost);
    ReservedIsCharged(s.ledger, InitialPlan, charge.tokens, charge.cost);
  }

  lemma MoveAccepted(c: Config, s: W, call: Call)
    requires (call.Advance? || call.Complete?) && Sound(c, s)
    ensures Refused(c, s, call).None? <==> Admits(s, call) && WellFormed(c, call) && InTime(s, call) && Backed(c, s, call)
    ensures Refused(c, s, call) == Some(InvalidStateTransition) ==> !Admits(s, call)
    ensures Refused(c, s, call) == Some(InvalidObservation) ==> !WellFormed(c, call) || !InTime(s, call)
    ensures Admits(s, call) && WellFormed(c, call) && InTime(s, call) && !Backed(c, s, call) ==>
      Refused(c, s, call) == Some(WhatIsMissing(c, call))
    ensures !Admits(s, call) && WellFormed(c, call) && InTime(s, call) ==> Refused(c, s, call) == Some(InvalidStateTransition)
    ensures Admits(s, call) && !(WellFormed(c, call) && InTime(s, call)) ==> Refused(c, s, call) == Some(InvalidObservation)
  {}

  lemma OtherAccepted(c: Config, s: W, call: Call)
    requires !call.Start? && !call.Advance? && !call.Complete?
    requires s.sm.state.Recovering? ==> s.episode.attempts != []
    ensures Refused(c, s, call).None? <==> Admits(s, call) && WellFormed(c, call) && InTime(s, call) && Backed(c, s, call)
    ensures Refused(c, s, call) == Some(InvalidStateTransition) ==> !Admits(s, call)
    ensures Refused(c, s, call) == Some(InvalidObservation) ==> !WellFormed(c, call) || !InTime(s, call)
    ensures Admits(s, call) && WellFormed(c, call) && InTime(s, call) && !Backed(c, s, call) ==>
      Refused(c, s, call) == Some(WhatIsMissing(c, call))
    ensures !Admits(s, call) && WellFormed(c, call) && InTime(s, call) ==> Refused(c, s, call) == Some(InvalidStateTransition)
    ensures Admits(s, call) && !(WellFormed(c, call) && InTime(s, call)) ==> Refused(c, s, call) == Some(InvalidObservation)
  {}

  /** In every reachable state a call is accepted exactly when the state admits it, its arguments make sense, its time is
      not past and its charge or proof backs it; and when one of these is all that is wrong, the error answered is the
      one that stands for it. */
  lemma AcceptedExactly(c: Config, actions: seq<Action>, call: Call)
    requires c.Valid()
    ensures var s := Reached(c, actions);
      && (Refused(c, s, call).None? <==> Admits(s, call) && WellFormed(c, call) && InTime(s, call) && Backed(c, s, call))
      && (Admits(s, call) && WellFormed(c, call) && InTime(s, call) && !Backed(c, s, call) ==>
            Refused(c, s, call) == Some(WhatIsMissing(c, call)))
      && (!Admits(s, call) && WellFormed(c, call) && InTime(s, call) ==>
            Refused(c, s, call) == Some(InvalidStateTransition))
      && (Admits(s, call) && !(WellFormed(c, call) && InTime(s, call)) ==> Refused(c, s, call) == Some(InvalidObservation))
      && (Refused(c, s, call) == Some(InvalidStateTransition) ==> !Admits(s, call))
      && (Refused(c, s, call) == Some(InvalidObservation) ==> !WellFormed(c, call) || !InTime(s, call))
  {
    var s := Reached(c, actions);
    ReachedIsInOrder(c, actions);
    if call.Start? {
      StartAccepted(c, s, call);
    } else if call.Advance? || call.Complete? {
      MoveAccepted(c, s, call);
    } else {
      if s.sm.state.Recovering? { RecoveringHasAttempt(c, s); }
      OtherAccepted(c, s, call);
    }
  }

  // ---- what judging leaves ------------------------------------------------------------------------

  lemma JudgedVerdict(c: Config, s: W, call: Call, disk: Disk)
    requires c.Valid() && Judges(c, s, call) && s.startedAt.Some?
    ensures var t := Step(c, s, call, disk).0;
      t.startedAt == s.startedAt && VerdictAt(c, t, call.at) == VerdictOf(c, s, call)
  {
    StepRecords(c, s, call, disk);
    assert s.progress + [] == s.progress;
  }

  lemma StallIsNotActive(s: W, t: W, at: real, reasons: seq<StallSignal>)
    requires Stalls(s, t, at, reasons)
    ensures !Active(t)
  {}

  /** After a call that judges and leaves an active state, no stall is to be found at its time: neither has the time
      without progress run out nor is the work since then anything but quiet. */
  lemma JudgedIsSettled(c: Config, s: W, call: Call, disk: Disk)
    requires c.Valid() && Sound(c, s) && Judges(c, s, call) && Active(Step(c, s, call, disk).0)
    requires c.policy.watchdog.enabled
    ensures var t := Step(c, s, call, disk).0;
      && t.startedAt.Some?
      && Quiet(c.policy.watchdog, Since(t.activities, BoundaryOf(t)))
      && !(call.at - BoundaryOf(t) >= c.policy.watchdog.noProgressSeconds
           && |Where(t.activities, (a: Activity) => a.at > BoundaryOf(t))| >= c.policy.watchdog.noProgressCycles)
  {
    var t := Step(c, s, call, disk).0;
    JudgedStarted(c, s, call, disk);
    JudgedVerdict(c, s, call, disk);
    if VerdictOf(c, s, call) != [] { StallsWhenFound(c, s, call, disk); }
    SilentMeans(c, t, call.at);
  }

  lemma StallsWhenFound(c: Config, s: W, call: Call, disk: Disk)
    requires Judges(c, s, call) && s.startedAt.Some? && Active(s) && VerdictOf(c, s, call) != []
    ensures Stalls(s, Step(c, s, call, disk).0, call.at, VerdictOf(c, s, call))
    ensures !Active(Step(c, s, call, disk).0)
  {
    if call.RecordActivity? { ActivityLeads(c, s, call, disk); } else { EvaluateLeads(c, s, call, disk); }
    StallIsNotActive(s, Step(c, s, call, disk).0, call.at, VerdictOf(c, s, call));
  }

  lemma JudgedStarted(c: Config, s: W, call: Call, disk: Disk)
    requires c.Valid() && Sound(c, s) && Judges(c, s, call) && Active(Step(c, s, call, disk).0)
    ensures s.startedAt.Some? && Active(s)
  {
    if call.Evaluate? { EvaluatedFromActive(c, s, call, disk); }
    ActiveIsStarted(c, s);
  }

  lemma EvaluatedFromActive(c: Config, s: W, call: Call, disk: Disk)
    requires call.Evaluate? && Refused(c, s, call).None? && Active(Step(c, s, call, disk).0)
    ensures Active(s)
  {
    EvaluateLeads(c, s, call, disk);
  }

  lemma SilentMeans(c: Config, t: W, at: real)
    requires c.Valid() && c.policy.watchdog.enabled && t.startedAt.Some? && VerdictAt(c, t, at) == []
    ensures Quiet(c.policy.watchdog, Since(t.activities, BoundaryOf(t)))
    ensures !(at - BoundaryOf(t) >= c.policy.watchdog.noProgressSeconds
              && |Where(t.activities, (a: Activity) => a.at > BoundaryOf(t))| >= c.policy.watchdog.noProgressCycles)
  {
    VerdictExactly(c.policy.watchdog, at, t.startedAt.value, LatestProgress(t.progress), t.activities);
  }

  /** In every reachable state: an accepted call that judges and leaves an active state has found neither the time
      without progress run out nor work that is not quiet. */
  lemma NoTimeoutMissed(c: Config, actions: seq<Action>, call: Call, disk: Disk)
    requires c.Valid() && c.policy.watchdog.enabled
    requires Judges(c, Reached(c, actions), call) && Active(Step(c, Reached(c, actions), call, disk).0)
    ensures var t := Step(c, Reached(c, actions), call, disk).0;
      && t.startedAt.Some?
      && Quiet(c.policy.watchdog, Since(t.activities, BoundaryOf(t)))
      && !(call.at - BoundaryOf(t) >= c.policy.watchdog.noProgressSeconds
           && |Where(t.activities, (a: Activity) => a.at > BoundaryOf(t))| >= c.policy.watchdog.noProgressCycles)
  {
    ReachedIsSound(c, actions);
    JudgedIsSettled(c, Reached(c, actions), call, disk);
  }

  /** The boundary is the latest progress on record, or the start without any. */
  lemma BoundaryIs(c: Config, s: W)
    requires Sound(c, s) && s.startedAt.Some?
    ensures BoundaryOf(s) == if s.progress == [] then s.startedAt.value else s.progress[|s.progress| - 1].at
    ensures forall i :: 0 <= i < |s.progress| ==> s.progress[i].at <= BoundaryOf(s)
  {
    if s.progress != [] { LatestIsLast(s.progress); }
  }

  // ---- where a verdict leads ------------------------------------------------------------------------

  lemma MoveKeepsStreak(c: Config, s: W, m: Move)
    requires CanMove(c, s, m) && !m.Act? && !m.Note?
    ensures After(c, s, m).guard.streak == s.guard.streak
  {}

  lemma JudgingKeepsStreak(c: Config, s: W, at: real, disk: Disk)
    requires c.Valid() && !Untimely(s, at)
    ensures Evaluated(c, s, at, disk).0.guard.streak == s.guard.streak
  {
    var streak := s.guard.streak;
    forall u: W, m: Move | u.guard.streak == streak && PartOf(m, Evaluate(at)) && CanMove(c, u, m)
      ensures After(c, u, m).guard.streak == streak
    {
      MoveKeepsStreak(c, u, m);
    }
    JudgingByMoves(c, s, at, disk, Evaluate(at), (u: W) => u.guard.streak == streak);
  }

  /** Where a call that judges an active execution comes to. */
  predicate ComesTo(c: Config, s: W, t: W, reasons: seq<StallSignal>, written: bool, cost: real, at: real) {
    if reasons == [] then t.sm.state == s.sm.state
    else
      && t.sm.state ==
           (if c.persistent && !written then Stalled
            else if t.guard.streak > c.policy.watchdog.maxIdenticalFailures
                    || |t.activities| > c.policy.watchdog.maxTotalAttempts
                    || !Fits(s.ledger, c.contextTokens, cost)
            then Blocked else Recovering)
      && FreshAttempts(t, at, STALL_DETECTED)
  }

  lemma JudgingComesTo(c: Config, s: W, at: real, disk: Disk)
    requires c.Valid() && InOrder(c, s) && Active(s) && s.startedAt.Some? && !Untimely(s, at)
    ensures ComesTo(c, s, Evaluated(c, s, at, disk).0, VerdictAt(c, s, at), disk.stall, RecoveryCost(c, s), at)
  {
    JudgementOutcome(c, s, at, disk);
    JudgingKeepsStreak(c, s, at, disk);
    JudgingKeepsActivities(c, s, at, disk);
  }

  lemma JudgingKeepsActivities(c: Config, s: W, at: real, disk: Disk)
    requires c.Valid() && !Untimely(s, at)
    ensures Evaluated(c, s, at, disk).0.activities == s.activities
  {
    WorkByMoves(c, s, Evaluate(at));
    JudgingByMoves(c, s, at, disk, Evaluate(at), u => SameWork(s, u));
  }

  lemma NotedInOrder(c: Config, s: W, a: Activity)
    requires c.Valid() && InOrder(c, s) && Active(s) && s.startedAt.Some? && !Untimely(s, a.at) && !BlankIfGiven(a.error)
    ensures var u := Touch(Noted(s, a), a.at);
      && InOrder(c, u) && Active(u) && !Untimely(u, a.at)
      && u.sm == s.sm && u.ledger == s.ledger && u.tier == s.tier && u.startedAt == s.startedAt
  {
    SoundNoted(c, s, a);
    BoundsNoted(c, s, a);
    AuditNoted(c, s, a);
  }

  lemma MirroredComesTo(c: Config, s: W, t: W, reasons: seq<StallSignal>, written: bool, cost: real, at: real, ok: bool)
    requires ComesTo(c, s, t, reasons, written, cost, at)
    ensures ComesTo(c, s, Mirrored(c, t, at, ok), reasons, written, cost, at)
  {}

  lemma ReportComesTo(c: Config, s: W, at: real, disk: Disk)
    requires c.Valid() && InOrder(c, s) && Active(s) && s.startedAt.Some? && !Untimely(s, at)
    ensures ComesTo(c, s, Reported(c, s, at, disk).0, VerdictAt(c, s, at), disk.stall, RecoveryCost(c, s), at)
  {
    JudgingComesTo(c, s, at, disk);
    MirroredComesTo(c, s, Evaluated(c, s, at, disk).0, VerdictAt(c, s, at), disk.stall, RecoveryCost(c, s), at, disk.final);
  }

  /** Where a recorded activity or an evaluation leaves an active execution, in every reachable state: where it was when
      no stall is found; else in the stall when that cannot be written, blocked when a bound that spans episodes is
      passed or the charge does not fit, and otherwise in its first attempt, on the first rung. */
  lemma JudgedDestination(c: Config, actions: seq<Action>, call: Call, disk: Disk)
    requires c.Valid() && Judges(c, Reached(c, actions), call) && Active(Reached(c, actions))
    ensures var s := Reached(c, actions);
      s.startedAt.Some? &&
      ComesTo(c, s, Step(c, s, call, disk).0, VerdictOf(c, s, call), disk.stall, EstimateCost(s.tier, c.contextTokens), call.at)
  {
    ReachedIsInOrder(c, actions);
    ActiveIsStarted(c, Reached(c, actions));
    JudgedComesTo(c, Reached(c, actions), call, disk);
  }

  lemma JudgedComesTo(c: Config, s: W, call: Call, disk: Disk)
    requires c.Valid() && InOrder(c, s) && Judges(c, s, call) && Active(s) && s.startedAt.Some?
    ensures ComesTo(c, s, Step(c, s, call, disk).0, VerdictOf(c, s, call), disk.stall, RecoveryCost(c, s), call.at)
  {
    if call.RecordActivity? {
      var a := ActivityOf(c, s, call)[0];
      var u := Touch(Noted(s, a), call.at);
      NotedInOrder(c, s, a);
      NotedIs(s, a);
      ReportComesTo(c, u, call.at, disk);
    } else {
      assert s.activities + [] == s.activities;
      JudgingComesTo(c, s, call.at, disk);
    }
  }

  /** Every call, in every reachable state: its time, its path through the states and the episode it ends. */
  lemma ReachedLeads(c: Config, actions: seq<Action>, call: Call, disk: Disk)
    requires c.Valid()
    ensures Leads(c, Reached(c, actions), Step(c, Reached(c, actions), call, disk).0, call, disk)
  {
    ReachedIsInOrder(c, actions);
    if Open(Reached(c, actions).sm.state) { OpenIsOpened(c, Reached(c, actions)); }
    StepLeads(c, Reached(c, actions), call, disk);
  }

  /** A stall found opens an episode of its own, at the time of the call, for exactly what was found. */
  lemma StallIsRecorded(c: Config, actions: seq<Action>, call: Call, disk: Disk)
    requires c.Valid() && Judges(c, Reached(c, actions), call) && Active(Reached(c, actions))
    ensures var s := Reached(c, actions);
      var t := Step(c, s, call, disk).0;
      s.startedAt.Some? &&
      if VerdictOf(c, s, call) == [] then t.episode == s.episode
      else t.episode.number == s.episode.number + 1 && t.episode.openedAt == Some(call.at)
           && t.episode.reason == VerdictOf(c, s, call)
  {
    var s := Reached(c, actions);
    ReachedIsSound(c, actions);
    ActiveIsStarted(c, s);
    if call.RecordActivity? { ActivityLeads(c, s, call, disk); } else { EvaluateLeads(c, s, call, disk); }
  }

  // ---- what a result leaves ---------------------------------------------------------------------------

  lemma JudgedLast(s: W, result: RecoveryResult, at: real)
    requires s.episode.attempts != []
    ensures var n, last := |s.episode.attempts|, s.episode.attempts[|s.episode.attempts| - 1];
      Judged(s, result, at).episode ==
        s.episode.(attempts := s.episode.attempts[..n - 1] + [RecoveryAttempt(last.reason, last.strategy, last.number, result, at)])
  {}

  lemma ConcludedLeaves(c: Config, s: W, call: Call, disk: Disk)
    requires call.RecordRecoveryResult? && Refused(c, s, call).None?
    ensures var t := Step(c, s, call, disk).0;
      && t.episode == Judged(s, call.result, call.at).episode
      && (call.result.Success? ==> t.sm.state == call.resume && t.guard == s.guard.(noProgressCycles := 0))
      && (call.result.Failure? ==> t.guard == s.guard)
      && t.ledger == s.ledger
  {
    var strategy := s.episode.attempts[|s.episode.attempts| - 1].strategy;
    ResultIs(c, s, call, strategy);
    PlainFinishes(c, s, call, disk);
    FinishChanges(c, Effect(c, s, call), call.at, disk.final);
  }

  lemma AttemptsAreNumbered(c: Config, s: W)
    requires Audited(c, s) && s.episode.attempts != []
    ensures s.episode.attempts[|s.episode.attempts| - 1].number == |s.episode.attempts|
  {}

  /** A result, in every reachable state where it is accepted, fills in the last attempt and no other, with its outcome
      and its time; a success goes where it is told to, and neither charges anything. */
  lemma ResultIsRecorded(c: Config, actions: seq<Action>, call: Call, disk: Disk)
    requires c.Valid() && call.RecordRecoveryResult? && Refused(c, Reached(c, actions), call).None?
    ensures var s := Reached(c, actions);
      var t := Step(c, s, call, disk).0;
      var n := |s.episode.attempts|;
      && n > 0
      && t.episode == s.episode.(attempts := s.episode.attempts[..n - 1] +
           [RecoveryAttempt(s.episode.attempts[n - 1].reason, s.episode.attempts[n - 1].strategy, n, call.result, call.at)])
      && (call.result.Success? ==> t.sm.state == call.resume && t.guard == s.guard.(noProgressCycles := 0))
      && (call.result.Failure? ==> t.guard == s.guard)
      && t.ledger == s.ledger
  {
    var s := Reached(c, actions);
    ReachedIsInOrder(c, actions);
    AttemptsAreNumbered(c, s);
    JudgedLast(s, call.result, call.at);
    ConcludedLeaves(c, s, call, disk);
  }

  // ---- capability ----------------------------------------------------------------------------------------

  predicate SameCapability(s: W, u: W) {
    u.tier == s.tier && u.reasoning == s.reasoning && u.escalationsUsed == s.escalationsUsed
  }

  lemma MoveKeepsCapability(c: Config, s: W, m: Move)
    requires CanMove(c, s, m) && !m.Raise?
    ensures SameCapability(s, After(c, s, m))
  {
    if m.Act? { EffectKeepsCapability(c, s, m.call); }
  }

  lemma EffectKeepsCapability(c: Config, s: W, call: Call)
    requires Plain(call) && Refused(c, s, call).None?
    ensures SameCapability(s, Effect(c, s, call))
  {
    if call.RecordRecoveryResult? { ConclusionIsFree(c, s, call.at, call.result, call.resume, call.evidence); }
    if call.RecordRecoveryResult? { ConclusionKeepsReasoning(c, s, call.at, call.result, call.resume, call.evidence); }
  }

  lemma ConclusionKeepsReasoning(c: Config, s: W, at: real, result: RecoveryResult, resume: ExecutionState,
                                 evidence: Option<string>)
    requires s.episode.attempts != []
    ensures Concluded(c, s, at, result, resume, evidence).reasoning == s.reasoning
  {}

  lemma CapabilityByMoves(c: Config, s: W, call: Call)
    requires !call.RecordEscalation?
    ensures KeptBy(c, call, u => SameCapability(s, u))
  {
    forall u: W, m: Move | SameCapability(s, u) && PartOf(m, call) && CanMove(c, u, m)
      ensures SameCapability(s, After(c, u, m))
    {
      MoveKeepsCapability(c, u, m);
    }
  }

  /** Tier and reasoning change by escalation alone, to what the decision says, each approval counted once. */
  lemma CapabilityExactly(c: Config, s: W, call: Call, disk: Disk)
    requires c.Valid()
    ensures var t := Step(c, s, call, disk).0;
      if call.RecordEscalation? && Refused(c, s, call).None? then
        var d := DecideEscalation(s.tier, s.reasoning, s.escalationsUsed, call.signals, c.policy.watchdog,
                                  c.contextTokens, s.ledger);
        if d.Approved? then t.tier == d.tier && t.reasoning == d.reasoning && t.escalationsUsed == s.escalationsUsed + 1
        else SameCapability(s, t)
      else SameCapability(s, t)
  {
    if !call.RecordEscalation? {
      CapabilityByMoves(c, s, call);
      StepByMoves(c, s, call, disk, u => SameCapability(s, u));
    }
  }

  // ---- what the caller is told about the writes ------------------------------------------------------------

  /** The answer to a call that mirrors: done when nothing is to be written or all of it was, and the mirror is marked
      stale exactly when it was not. */
  predicate Wrote(c: Config, t: W, reply: Reply, ok: bool) {
    reply == (if c.persistent && !ok then WriteFailed else Done) && (c.persistent ==> (t.mirror.dirty <==> !ok))
  }

  lemma MirroringAnswers(c: Config, s: W, at: real, ok: bool)
    requires c.Valid() && Sound(c, s) && s.startedAt.Some?
    ensures Wrote(c, Mirrored(c, s, at, ok), MirrorReply(c, s, at, ok), ok)
  {
    ProjectionIsValid(c, s, at);
  }

  lemma FinishAnswers(c: Config, s: W, at: real, ok: bool)
    requires c.Valid() && Sound(c, Touch(s, at)) && s.startedAt.Some?
    ensures var (t, reply) := Finish(c, s, at, ok); Wrote(c, t, reply, ok)
  {
    MirroringAnswers(c, Touch(s, at), at, ok);
  }

  lemma PursuitAnswers(c: Config, s: W, at: real, reason: string, ok: bool)
    requires c.Valid() && Sound(c, s) && s.startedAt.Some? && !Untimely(s, at) && s.sm.state.Stalled?
    requires !(Blank(reason) && Admit(c, s).Admitted?)
    ensures var (t, reply) := RecoveryFromStall(c, s, at, reason, ok); Wrote(c, t, reply, ok)
  {
    match Admit(c, s)
    case Denied(blocker) =>
      SoundGivingUp(c, s, at, blocker);
      FinishAnswers(c, GivenUp(s, at, blocker), at, ok);
    case Admitted(strategy, charged) =>
      SoundCommitting(c, s, strategy, charged);
      SoundAttempt(c, Committing(s, strategy, charged), at, reason, strategy);
      FinishAnswers(c, Attempting(Committing(s, strategy, charged), at, reason, strategy), at, ok);
  }

  lemma StallAnswers(c: Config, s: W, at: real, disk: Disk)
    requires c.Valid() && Sound(c, s) && s.startedAt.Some? && !Untimely(s, at) && s.sm.state.Stalled?
    ensures var (t, reply) := StallStep(c, s, at, disk); Wrote(c, t, reply, disk.stall && disk.recovery)
  {
    MirroringAnswers(c, s, at, disk.stall);
    SoundMirrored(c, s, at, disk.stall);
    DetectedIsText();
    PursuitAnswers(c, Mirrored(c, s, at, disk.stall), at, STALL_DETECTED, disk.recovery);
  }

  predicate Found(c: Config, s: W, at: real) { Active(s) && s.startedAt.Some? && VerdictAt(c, s, at) != [] }

  lemma JudgingAnswers(c: Config, s: W, at: real, disk: Disk)
    requires c.Valid() && Sound(c, s) && !Untimely(s, at)
    ensures var (t, reply) := Evaluated(c, s, at, disk);
      if Found(c, s, at) then Wrote(c, t, reply, disk.stall && disk.recovery) else reply == Done && t == Touch(s, at)
  {
    if Found(c, s, at) {
      SoundStalled(c, s, at, VerdictAt(c, s, at));
      StallAnswers(c, StallOpened(s, at, VerdictAt(c, s, at)), at, disk);
    }
  }

  lemma ReportAnswers(c: Config, s: W, at: real, disk: Disk)
    requires c.Valid() && Sound(c, s) && Active(s) && s.startedAt.Some? && !Untimely(s, at)
    ensures var (t, reply) := Reported(c, s, at, disk);
      Wrote(c, t, reply, (Found(c, s, at) ==> disk.stall && disk.recovery) && disk.final)
  {
    JudgingAnswers(c, s, at, disk);
    JudgingIsSound(c, s, at, disk);
    JudgingIsStarted(c, s, at, disk);
    MirroringAnswers(c, Evaluated(c, s, at, disk).0, at, disk.final);
  }

  lemma JudgingIsSound(c: Config, s: W, at: real, disk: Disk)
    requires c.Valid() && Sound(c, s) && !Untimely(s, at)
    ensures Sound(c, Evaluated(c, s, at, disk).0)
  {
    SoundByMoves(c, Evaluate(at));
    JudgingByMoves(c, s, at, disk, Evaluate(at), u => Sound(c, u));
  }

  lemma JudgingIsStarted(c: Config, s: W, at: real, disk: Disk)
    requires c.Valid() && s.startedAt.Some? && !Untimely(s, at)
    ensures Evaluated(c, s, at, disk).0.startedAt.Some?
  {
    WorkByMoves(c, s, Evaluate(at));
    JudgingByMoves(c, s, at, disk, Evaluate(at), u => SameWork(s, u));
  }

  /** What an accepted call is answered and what it leaves of the mirror: the writes it makes, in order, must all have
      worked; a checkpoint that could not be appended is answered as failed and leaves nothing. */
  predicate Answers(c: Config, s: W, t: W, reply: Reply, call: Call, disk: Disk) {
    match call
    case Evaluate(at) =>
      if Found(c, s, at) then Wrote(c, t, reply, disk.stall && disk.recovery) else reply == Done && t.mirror == s.mirror
    case RecordActivity(at, _, _, _, _, _) =>
      Wrote(c, t, reply,
            (s.startedAt.Some? && VerdictOf(c, s, call) != [] ==> disk.stall && disk.recovery) && disk.final)
    case BeginRecovery(_, _) => Wrote(c, t, reply, disk.recovery)
    case RecordEscalation(_, _) => reply == Done && t.mirror == s.mirror
    case SyncHeartbeat =>
      if s.mirror.dirty then Wrote(c, t, reply, disk.final) else reply == Done && t.mirror == s.mirror
    case TakeCheckpoint(_, _, _, _, _) =>
      if c.persistent && !disk.checkpoint then reply == WriteFailed && t == s else Wrote(c, t, reply, disk.final)
    case _ => Wrote(c, t, reply, disk.final)
  }

  lemma PlainAnswers(c: Config, s: W, call: Call, disk: Disk)
    requires c.Valid() && Sound(c, s) && Plain(call) && Refused(c, s, call).None?
    ensures var (t, reply) := Step(c, s, call, disk); Answers(c, s, t, reply, call, disk)
  {
    if call.TakeCheckpoint? && c.persistent && !disk.checkpoint {
      LostAnswer(c, s, call, disk);
    } else {
      PlainFinishes(c, s, call, disk);
      SoundEffect(c, s, call);
      FinishAnswers(c, Effect(c, s, call), call.at, disk.final);
    }
  }

  lemma LostAnswer(c: Config, s: W, call: Call, disk: Disk)
    requires call.TakeCheckpoint? && Refused(c, s, call).None? && c.persistent && !disk.checkpoint
    ensures Step(c, s, call, disk) == (s, WriteFailed)
  {}

  lemma ActivityAnswers(c: Config, s: W, call: Call, disk: Disk)
    requires c.Valid() && Sound(c, s) && call.RecordActivity? && Refused(c, s, call).None?
    ensures var (t, reply) := Step(c, s, call, disk); Answers(c, s, t, reply, call, disk)
  {
    var a := ActivityOf(c, s, call)[0];
    ActiveIsStarted(c, s);
    SoundNoted(c, s, a);
    NotedIs(s, a);
    ReportAnswers(c, Touch(Noted(s, a), call.at), call.at, disk);
  }

  lemma SyncAnswers(c: Config, s: W, disk: Disk)
    requires c.Valid() && Sound(c, s) && MirrorReady(c, s.mirror) && (s.startedAt.None? ==> !s.mirror.dirty)
    ensures var (t, reply) := Step(c, s, SyncHeartbeat, disk); Answers(c, s, t, reply, SyncHeartbeat, disk)
  {
    if s.mirror.dirty { MirroringAnswers(c, s, s.mirror.lastAt.value, disk.final); }
  }

  lemma SpecialAnswers(c: Config, s: W, call: Call, disk: Disk)
    requires c.Valid() && Sound(c, s) && MirrorReady(c, s.mirror) && (s.startedAt.None? ==> !s.mirror.dirty)
    requires !Plain(call) && Refused(c, s, call).None? && !RefusedTooLate(c, s, call)
    ensures var (t, reply) := Step(c, s, call, disk); Answers(c, s, t, reply, call, disk)
  {
    if call.RecordActivity? {
      ActivityAnswers(c, s, call, disk);
    } else if call.Evaluate? {
      JudgingAnswers(c, s, call.at, disk);
    } else if call.BeginRecovery? {
      ActiveIsStarted(c, s);
      PursuitAnswers(c, s, call.at, call.reason, disk.recovery);
    } else if call.SyncHeartbeat? {
      SyncAnswers(c, s, disk);
    }
  }

  /** Every accepted call, in every reachable state, is answered by what became of its writes. */
  lemma AnswersExactly(c: Config, actions: seq<Action>, call: Call, disk: Disk)
    requires c.Valid() && Refused(c, Reached(c, actions), call).None? && !RefusedTooLate(c, Reached(c, actions), call)
    ensures var s := Reached(c, actions);
      var (t, reply) := Step(c, s, call, disk); Answers(c, s, t, reply, call, disk)
  {
    ReachedIsSound(c, actions);
    ReachedMirrors(c, actions);
    if Plain(call) {
      PlainAnswers(c, Reached(c, actions), call, disk);
    } else {
      SpecialAnswers(c, Reached(c, actions), call, disk);
    }
  }
}
