/** Every call as a sequence of small moves, so that what the moves keep, the calls keep. */
module SupervisionMoves {
  import opened Common
  import opened Policies
  import opened Stall
  import opened Recovery
  import opened Budget
  import opened Routing
  import opened Escalation
  import opened Supervision

  datatype Move =
    | Tick(at: real)
    | Sign(at: real, ok: bool)
    | Clear
    | Act(call: Call)
    | Note(activity: Activity)
    | Stall(at: real, reasons: seq<StallSignal>)
    | GiveUp(at: real, blocker: Blocker)
    | Spend(strategy: Strategy, cost: real, charged: Ledger)
    | Try(at: real, reason: string, strategy: Strategy, cost: real, charged: Ledger)
    | Raise(tier: ModelTier, reasoning: ReasoningEffort, cost: real, charged: Ledger)

  /** Nothing stands in the way of the given strategy, and the ledger bears its charge. */
  predicate Affordable(c: Config, s: W, strategy: Strategy, cost: real, charged: Ledger) {
    && s.sm.state.Stalled?
    && Violations(c.policy.watchdog, s.guard) == []
    && s.guard.recoveryAttempts < c.policy.watchdog.maxRecoveryAttempts
    && NextStrategy(c.policy.watchdog, s.episode.tried, |s.episode.attempts| + 1) == Some(strategy)
    && ChargeLedger(s.ledger, RecoveryCharge, c.contextTokens, cost) == Ok(charged)
  }

  predicate CanMove(c: Config, s: W, m: Move) {
    match m
    case Tick(at) => !Untimely(s, at)
    case Sign(_, _) => true
    case Clear => true
    case Act(call) => Plain(call) && Refused(c, s, call).None?
    case Note(a) => Active(s) && !Untimely(s, a.at) && !BlankIfGiven(a.error)
    case Stall(at, reasons) =>
      s.startedAt.Some? && Active(s) && !Untimely(s, at) && reasons != [] && reasons == VerdictAt(c, s, at)
    case GiveUp(at, blocker) => s.sm.state.Stalled? && !Untimely(s, at) && Admit(c, s) == Denied(blocker)
    case Spend(strategy, cost, charged) => Affordable(c, s, strategy, cost, charged)
    case Try(at, reason, strategy, cost, charged) =>
      Affordable(c, s, strategy, cost, charged) && !Untimely(s, at) && !Blank(reason)
    case Raise(tier, reasoning, cost, charged) =>
      && Active(s)
      && s.escalationsUsed < c.policy.watchdog.maxModelEscalations
      && s.tier.Rank() <= tier.Rank() && s.reasoning.Rank() <= reasoning.Rank()
      && Climb(tier, reasoning) < Climb(s.tier, s.reasoning)
      && ChargeLedger(s.ledger, EscalationCharge, c.contextTokens, cost) == Ok(charged)
  }

  function After(c: Config, s: W, m: Move): W
    requires CanMove(c, s, m)
  {
    match m
    case Tick(at) => Touch(s, at)
    case Sign(at, ok) => Mirrored(c, s, at, ok)
    case Clear => s.(mirror := s.mirror.(dirty := false))
    case Act(call) => Touch(Effect(c, s, call), call.at)
    case Note(a) => Touch(Noted(s, a), a.at)
    case Stall(at, reasons) => StallOpened(s, at, reasons)
    case GiveUp(at, blocker) => GivenUp(s, at, blocker)
    case Spend(strategy, _, charged) => Committing(s, strategy, charged)
    case Try(at, reason, strategy, _, charged) =>
      Touch(Attempting(Committing(s, strategy, charged), at, reason, strategy), at)
    case Raise(tier, reasoning, _, charged) => Raised(s, tier, reasoning, charged)
  }

  /** The calls a move can be part of. */
  predicate PartOf(m: Move, call: Call) {
    match m
    case Act(act) => act == call
    case Note(_) => call.RecordActivity?
    case Stall(_, _) => call.RecordActivity? || call.Evaluate?
    case Spend(_, _, _) => call.BeginRecovery? && Blank(call.reason)
    case Raise(_, _, _, _) => call.RecordEscalation?
    case _ => true
  }

  /** No move that can be part of the call leads out of inv. */
  ghost predicate KeptBy(c: Config, call: Call, inv: W -> bool) {
    forall s: W, m: Move :: inv(s) && PartOf(m, call) && CanMove(c, s, m) ==> inv(After(c, s, m))
  }

  lemma FinishByMoves(c: Config, s: W, at: real, ok: bool, call: Call, inv: W -> bool)
    requires KeptBy(c, call, inv) && inv(Touch(s, at))
    ensures inv(Finish(c, s, at, ok).0)
  {
    assert CanMove(c, Touch(s, at), Sign(at, ok));
    assert After(c, Touch(s, at), Sign(at, ok)) == Finish(c, s, at, ok).0;
  }

  lemma AdmissionIsAffordable(c: Config, s: W)
    requires s.sm.state.Stalled? && Admit(c, s).Admitted?
    ensures Affordable(c, s, Admit(c, s).strategy, RecoveryCost(c, s), Admit(c, s).ledger)
  {}

  lemma DenialByMoves(c: Config, s: W, at: real, blocker: Blocker, ok: bool, call: Call, inv: W -> bool)
    requires KeptBy(c, call, inv) && inv(s) && s.sm.state.Stalled? && !Untimely(s, at)
    requires Admit(c, s) == Denied(blocker)
    ensures inv(Finish(c, GivenUp(s, at, blocker), at, ok).0)
  {
    var given := After(c, s, GiveUp(at, blocker));
    assert Touch(given, at) == given;
    FinishByMoves(c, given, at, ok, call, inv);
  }

  lemma AttemptByMoves(c: Config, s: W, at: real, reason: string, strategy: Strategy, cost: real, charged: Ledger, ok: bool,
                       call: Call, inv: W -> bool)
    requires KeptBy(c, call, inv) && inv(s) && !Untimely(s, at) && Affordable(c, s, strategy, cost, charged)
    requires Blank(reason) ==> PartOf(Spend(strategy, cost, charged), call)
    ensures inv(Pursued(c, s, at, reason, Admitted(strategy, charged), ok).0)
  {
    if Blank(reason) {
      assert CanMove(c, s, Spend(strategy, cost, charged));
      assert After(c, s, Spend(strategy, cost, charged)) == Committing(s, strategy, charged);
    } else {
      var m := Try(at, reason, strategy, cost, charged);
      assert CanMove(c, s, m);
      assert After(c, s, m) == Touch(Attempting(Committing(s, strategy, charged), at, reason, strategy), at);
      FinishByMoves(c, Attempting(Committing(s, strategy, charged), at, reason, strategy), at, ok, call, inv);
    }
  }

  lemma PursuitByMoves(c: Config, s: W, at: real, reason: string, ok: bool, call: Call, inv: W -> bool)
    requires KeptBy(c, call, inv) && inv(s) && s.sm.state.Stalled? && !Untimely(s, at)
    requires Blank(reason) && Admit(c, s).Admitted? ==> call.BeginRecovery? && call.reason == reason
    ensures inv(RecoveryFromStall(c, s, at, reason, ok).0)
  {
    match Admit(c, s)
    case Denied(blocker) => DenialByMoves(c, s, at, blocker, ok, call, inv);
    case Admitted(strategy, charged) =>
      AdmissionIsAffordable(c, s);
      AttemptByMoves(c, s, at, reason, strategy, RecoveryCost(c, s), charged, ok, call, inv);
  }

  lemma DetectedIsText()
    ensures !Blank(STALL_DETECTED)
  {
    NotBlankAt(STALL_DETECTED, 0);
  }

  lemma StallByMoves(c: Config, s: W, at: real, disk: Disk, call: Call, inv: W -> bool)
    requires KeptBy(c, call, inv) && inv(s) && s.sm.state.Stalled? && !Untimely(s, at)
    ensures inv(StallStep(c, s, at, disk).0)
  {
    assert CanMove(c, s, Sign(at, disk.stall));
    assert After(c, s, Sign(at, disk.stall)) == Mirrored(c, s, at, disk.stall);
    if !MirrorReply(c, s, at, disk.stall).WriteFailed? {
      DetectedIsText();
      PursuitByMoves(c, Mirrored(c, s, at, disk.stall), at, STALL_DETECTED, disk.recovery, call, inv);
    }
  }

  lemma JudgingByMoves(c: Config, s: W, at: real, disk: Disk, call: Call, inv: W -> bool)
    requires KeptBy(c, call, inv) && inv(s) && !Untimely(s, at) && (call.RecordActivity? || call.Evaluate?)
    ensures inv(Evaluated(c, s, at, disk).0)
  {
    if Active(s) && s.startedAt.Some? && VerdictAt(c, s, at) != [] {
      var m := Stall(at, VerdictAt(c, s, at));
      assert CanMove(c, s, m);
      StallByMoves(c, After(c, s, m), at, disk, call, inv);
    } else {
      assert CanMove(c, s, Tick(at));
      assert After(c, s, Tick(at)) == Touch(s, at);
    }
  }

  lemma ReportByMoves(c: Config, s: W, at: real, disk: Disk, call: Call, inv: W -> bool)
    requires KeptBy(c, call, inv) && inv(s) && !Untimely(s, at) && call.RecordActivity?
    ensures inv(Reported(c, s, at, disk).0)
  {
    JudgingByMoves(c, s, at, disk, call, inv);
    var judged := Evaluated(c, s, at, disk).0;
    assert CanMove(c, judged, Sign(at, disk.final));
    assert After(c, judged, Sign(at, disk.final)) == Mirrored(c, judged, at, disk.final);
  }

  lemma EscalationByMoves(c: Config, s: W, at: real, signals: EscalationSignals, call: Call, inv: W -> bool)
    requires c.Valid() && KeptBy(c, call, inv) && inv(s) && Active(s) && !Untimely(s, at) && call.RecordEscalation?
    ensures inv(Touch(Escalated(c, s, signals), at))
  {
    RaiseByMoves(c, s, signals, call, inv);
    var raised := Escalated(c, s, signals);
    assert CanMove(c, raised, Tick(at));
    assert After(c, raised, Tick(at)) == Touch(raised, at);
  }

  lemma RaiseByMoves(c: Config, s: W, signals: EscalationSignals, call: Call, inv: W -> bool)
    requires c.Valid() && KeptBy(c, call, inv) && inv(s) && Active(s) && call.RecordEscalation?
    ensures inv(Escalated(c, s, signals))
  {
    var d := Decision(c, s, signals);
    ApprovalIsAffordableRise(s.tier, s.reasoning, s.escalationsUsed, signals, c.policy.watchdog, c.contextTokens, s.ledger);
    if d.Approved? {
      var cost := EstimateCost(d.tier, c.contextTokens);
      ReservedIsCharged(s.ledger, EscalationCharge, c.contextTokens, cost);
      var m := Raise(d.tier, d.reasoning, cost, ChargeLedger(s.ledger, EscalationCharge, c.contextTokens, cost).value);
      assert CanMove(c, s, m);
      assert After(c, s, m) == Escalated(c, s, signals);
    }
  }

  /** What can be reserved can be committed at once, as one new entry. */
  lemma ReservedIsCharged(l: Ledger, kind: ReservationKind, tokens: int, cost: real)
    ensures ChargeLedger(l, kind, tokens, cost).Ok? <==> AfterReserve(l, kind, tokens, cost).Ok?
    ensures ChargeLedger(l, kind, tokens, cost).Ok? ==>
      && tokens >= 0 && cost >= 0.0
      && ChargeLedger(l, kind, tokens, cost).value ==
           l.(entries := l.entries + [Reservation(|l.entries| + 1, kind, tokens, cost, Committed)],
              dispatches := l.dispatches + if kind.AgentDispatch? then 1 else 0)
  {
    if AfterReserve(l, kind, tokens, cost).Ok? {
      var entry := Reservation(|l.entries| + 1, kind, tokens, cost, Reserved);
      var entries := l.entries + [entry];
      assert entries[|entries| - 1 := entry.(state := Committed)] == l.entries + [entry.(state := Committed)];
    }
  }

  lemma SyncByMoves(c: Config, s: W, disk: Disk, call: Call, inv: W -> bool)
    requires KeptBy(c, call, inv) && inv(s)
    ensures inv(Synced(c, s, disk).0)
  {
    if s.mirror.dirty && c.persistent && s.mirror.lastAt.Some? {
      var m := Sign(s.mirror.lastAt.value, disk.final);
      assert CanMove(c, s, m);
      assert After(c, s, m) == Synced(c, s, disk).0;
    } else if s.mirror.dirty {
      assert CanMove(c, s, Clear);
      assert After(c, s, Clear) == Synced(c, s, disk).0;
    }
  }

  lemma PlainByMoves(c: Config, s: W, call: Call, disk: Disk, inv: W -> bool)
    requires KeptBy(c, call, inv) && inv(s) && Plain(call) && Refused(c, s, call).None?
    ensures inv(Carried(c, s, call, disk).0)
  {
    assert CanMove(c, s, Act(call));
    assert inv(After(c, s, Act(call)));
    FinishByMoves(c, Effect(c, s, call), call.at, disk.final, call, inv);
  }

  lemma ActivityByMoves(c: Config, s: W, call: Call, disk: Disk, inv: W -> bool)
    requires KeptBy(c, call, inv) && inv(s) && call.RecordActivity? && Refused(c, s, call).None?
    ensures inv(Carried(c, s, call, disk).0)
  {
    var a := Activity(call.at, call.fingerprint, call.succeeded, call.trivial, call.duration, call.error);
    assert CanMove(c, s, Note(a));
    ReportByMoves(c, After(c, s, Note(a)), call.at, disk, call, inv);
  }

  lemma SpecialByMoves(c: Config, s: W, call: Call, disk: Disk, inv: W -> bool)
    requires c.Valid() && KeptBy(c, call, inv) && inv(s) && !Plain(call) && Refused(c, s, call).None?
    ensures inv(Carried(c, s, call, disk).0)
  {
    if call.RecordActivity? {
      ActivityByMoves(c, s, call, disk, inv);
    } else if call.Evaluate? {
      JudgingByMoves(c, s, call.at, disk, call, inv);
    } else if call.BeginRecovery? {
      PursuitByMoves(c, s, call.at, call.reason, disk.recovery, call, inv);
    } else if call.RecordEscalation? {
      EscalationByMoves(c, s, call.at, call.signals, call, inv);
    } else {
      SyncByMoves(c, s, disk, call, inv);
    }
  }

  /** Whatever every move of a call keeps, the call keeps, with any arguments and any write failures. */
  lemma StepByMoves(c: Config, s: W, call: Call, disk: Disk, inv: W -> bool)
    requires c.Valid() && KeptBy(c, call, inv) && inv(s)
    ensures inv(Step(c, s, call, disk).0)
  {
    if Refused(c, s, call).None? {
      if Plain(call) { PlainByMoves(c, s, call, disk, inv); } else { SpecialByMoves(c, s, call, disk, inv); }
    }
  }

  /** Outside the active states judging only commits the clock. */
  lemma InactiveIsOnlyObserved(c: Config, s: W, at: real, disk: Disk)
    requires !Active(s)
    ensures Evaluated(c, s, at, disk) == (Touch(s, at), Done)
  {}
}
