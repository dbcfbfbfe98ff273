/** The money: every charge is one context, committed at once, for an escalation or a recovery attempt. */
module SupervisionMoney {
  import opened Common
  import opened Policies
  import opened StateMachine
  import opened Stall
  import opened Recovery
  import opened Budget
  import opened Routing
  import opened Escalation
  import opened Supervision
  import opened SupervisionInvariants
  import opened SupervisionMoves
  import opened SupervisionAudit

  // ---- what one call may charge -----------------------------------------------------------

  /** At most one charge was made, for a recovery attempt or for an escalation. */
  predicate Spends(c: Config, s: W, t: W, cost: real) {
    || (t.ledger == s.ledger && t.escalationsUsed == s.escalationsUsed)
    || (t.escalationsUsed == s.escalationsUsed && ChargeLedger(s.ledger, RecoveryCharge, c.contextTokens, cost) == Ok(t.ledger))
    || (t.escalationsUsed == s.escalationsUsed + 1 && ChargeLedger(s.ledger, EscalationCharge, c.contextTokens, cost) == Ok(t.ledger))
  }

  lemma PursuitKeepsTier(c: Config, s: W, at: real, reason: string, admission: Admission, ok: bool)
    ensures var t := Pursued(c, s, at, reason, admission, ok).0;
      && t.tier == s.tier && t.escalationsUsed == s.escalationsUsed
      && t.ledger == if admission.Admitted? then admission.ledger else s.ledger
  {}

  lemma AdmissionCharges(c: Config, s: W)
    ensures Admit(c, s).Admitted? ==>
      ChargeLedger(s.ledger, RecoveryCharge, c.contextTokens, RecoveryCost(c, s)) == Ok(Admit(c, s).ledger)
  {}

  lemma PursuitSpends(c: Config, s: W, at: real, reason: string, ok: bool)
    ensures var t := RecoveryFromStall(c, s, at, reason, ok).0; t.tier == s.tier && Spends(c, s, t, RecoveryCost(c, s))
  {
    PursuitKeepsTier(c, s, at, reason, Admit(c, s), ok);
    AdmissionCharges(c, s);
  }

  lemma StallSpends(c: Config, stalled: W, at: real, disk: Disk)
    ensures var t := StallStep(c, stalled, at, disk).0;
      t.tier == stalled.tier && Spends(c, stalled, t, RecoveryCost(c, stalled))
  {
    PursuitSpends(c, Mirrored(c, stalled, at, disk.stall), at, STALL_DETECTED, disk.recovery);
  }

  lemma ResponseSpends(c: Config, s: W, at: real, reasons: seq<StallSignal>, disk: Disk)
    ensures var t := Responded(c, s, at, reasons, disk).0; t.tier == s.tier && Spends(c, s, t, RecoveryCost(c, s))
  {
    StallSpends(c, StallOpened(s, at, reasons), at, disk);
  }

  lemma EvaluationSpends(c: Config, s: W, at: real, disk: Disk)
    ensures var t := Evaluated(c, s, at, disk).0; t.tier == s.tier && Spends(c, s, t, RecoveryCost(c, s))
  {
    if Active(s) && s.startedAt.Some? { ResponseSpends(c, s, at, VerdictAt(c, s, at), disk); }
  }

  lemma ReportSpends(c: Config, s: W, a: Activity, disk: Disk)
    ensures var t := Reported(c, Touch(Noted(s, a), a.at), a.at, disk).0;
      t.tier == s.tier && Spends(c, s, t, RecoveryCost(c, s))
  {
    EvaluationSpends(c, Touch(Noted(s, a), a.at), a.at, disk);
  }

  lemma EscalationSpends(c: Config, s: W, signals: EscalationSignals, at: real)
    requires c.Valid()
    ensures var t := Touch(Escalated(c, s, signals), at); Spends(c, s, t, RecoveryCost(c, t))
  {
    var d := Decision(c, s, signals);
    ApprovalIsAffordableRise(s.tier, s.reasoning, s.escalationsUsed, signals, c.policy.watchdog, c.contextTokens, s.ledger);
    if d.Approved? { ReservedIsCharged(s.ledger, EscalationCharge, c.contextTokens, EstimateCost(d.tier, c.contextTokens)); }
  }

  predicate SameMoney(s: W, t: W) {
    t.tier == s.tier && t.ledger == s.ledger && t.escalationsUsed == s.escalationsUsed
  }

  lemma ConclusionIsFree(c: Config, s: W, at: real, result: RecoveryResult, resume: ExecutionState, evidence: Option<string>)
    requires s.episode.attempts != []
    ensures SameMoney(s, Concluded(c, s, at, result, resume, evidence))
  {}

  lemma EffectIsFree(c: Config, s: W, call: Call)
    requires Plain(call) && !call.Start? && Refused(c, s, call).None?
    ensures SameMoney(s, Effect(c, s, call))
  {
    if call.RecordRecoveryResult? { ConclusionIsFree(c, s, call.at, call.result, call.resume, call.evidence); }
  }

  lemma PlainIsFree(c: Config, s: W, call: Call, disk: Disk)
    requires Plain(call) && !call.Start? && Refused(c, s, call).None?
    ensures SameMoney(s, Carried(c, s, call, disk).0)
  {
    EffectIsFree(c, s, call);
    assert SameMoney(Effect(c, s, call), Finish(c, Effect(c, s, call), call.at, disk.final).0);
  }

  /** Any call but a start that goes through charges at most once, and then the cost at the tier it leaves. */
  lemma StepSpends(c: Config, s: W, call: Call, disk: Disk)
    requires c.Valid() && (call.Start? ==> Refused(c, s, call).Some?)
    ensures var t := Step(c, s, call, disk).0; Spends(c, s, t, RecoveryCost(c, t))
  {
    if Refused(c, s, call).None? {
      if Plain(call) {
        PlainIsFree(c, s, call, disk);
      } else if call.RecordActivity? {
        var a := Activity(call.at, call.fingerprint, call.succeeded, call.trivial, call.duration, call.error);
        ReportSpends(c, s, a, disk);
      } else if call.Evaluate? {
        EvaluationSpends(c, s, call.at, disk);
      } else if call.BeginRecovery? {
        PursuitSpends(c, s, call.at, call.reason, disk.recovery);
      } else if call.RecordEscalation? {
        EscalationSpends(c, s, call.signals, call.at);
      }
    }
  }

  // ---- the ledger holds nothing else --------------------------------------------------------

  lemma CountAppend(entries: seq<Reservation>, r: Reservation, kind: ReservationKind)
    ensures CountKind(entries + [r], kind) == CountKind(entries, kind) + if r.kind == kind then 1 else 0
  {
    assert (entries + [r])[..|entries|] == entries;
  }

  lemma EntriesAppend(entries: seq<Reservation>, r: Reservation, contextTokens: int)
    requires EntriesOk(entries, contextTokens) && r.state.Committed?
    requires if r.kind.InitialPlan? then entries == []
             else r.tokens == contextTokens && (r.kind.RecoveryCharge? || r.kind.EscalationCharge?)
    ensures EntriesOk(entries + [r], contextTokens)
  {}

  lemma ChargeKeepsLedger(l: Ledger, kind: ReservationKind, tokens: int, cost: real)
    requires LedgerOk(l) && ChargeLedger(l, kind, tokens, cost).Ok?
    ensures LedgerOk(ChargeLedger(l, kind, tokens, cost).value)
  {
    AttemptKeeps(l, Reserve(kind, tokens, cost));
    var reserved := AfterReserve(l, kind, tokens, cost).value;
    AttemptKeeps(reserved, Commit(|reserved.entries|));
  }

  lemma ChargeIsPaid(c: Config, l: Ledger, used: nat, kind: ReservationKind, tokens: int, cost: real)
    requires Paid(c, l, used) && ChargeLedger(l, kind, tokens, cost).Ok?
    requires if kind.InitialPlan? then l.entries == []
             else tokens == c.contextTokens && (kind.RecoveryCharge? || kind.EscalationCharge?)
    ensures Paid(c, ChargeLedger(l, kind, tokens, cost).value, used + if kind.EscalationCharge? then 1 else 0)
  {
    ChargeKeepsLedger(l, kind, tokens, cost);
    ReservedIsCharged(l, kind, tokens, cost);
    var r := Reservation(|l.entries| + 1, kind, tokens, cost, Committed);
    EntriesAppend(l.entries, r, c.contextTokens);
    CountAppend(l.entries, r, EscalationCharge);
  }

  lemma SpendingIsPaid(c: Config, s: W, t: W, cost: real)
    requires Paid(c, s.ledger, s.escalationsUsed) && Spends(c, s, t, cost)
    ensures Paid(c, t.ledger, t.escalationsUsed)
  {
    if t.ledger != s.ledger || t.escalationsUsed != s.escalationsUsed {
      var kind := if t.escalationsUsed == s.escalationsUsed then RecoveryCharge else EscalationCharge;
      ChargeIsPaid(c, s.ledger, s.escalationsUsed, kind, c.contextTokens, cost);
    }
  }

  lemma StartIsPaid(c: Config, l: Ledger, charge: Charge)
    requires Paid(c, l, 0) && l.entries == [] && Charged(l, charge).Ok?
    ensures Paid(c, Charged(l, charge).value, 0)
  {
    if charge.tokens != 0 || charge.cost != 0.0 {
      ChargeIsPaid(c, l, 0, InitialPlan, charge.tokens, charge.cost);
    }
  }

  lemma StartStep(c: Config, s: W, call: Call, disk: Disk)
    requires call.Start? && Refused(c, s, call).None?
    ensures var t := Step(c, s, call, disk).0;
      && t.ledger == Charged(s.ledger, InitialCharge(c, call.tokens, call.cost)).value
      && t.escalationsUsed == s.escalationsUsed && t.startedAt.Some?
  {}

  /** Every call keeps the ledger in order. */
  lemma StepIsPaid(c: Config, s: W, call: Call, disk: Disk)
    requires c.Valid() && Sound(c, s) && Paid(c, s.ledger, s.escalationsUsed)
    ensures var t := Step(c, s, call, disk).0; Paid(c, t.ledger, t.escalationsUsed)
  {
    if call.Start? && Refused(c, s, call).None? {
      StartStep(c, s, call, disk);
      StartIsPaid(c, s.ledger, InitialCharge(c, call.tokens, call.cost));
    } else {
      StepSpends(c, s, call, disk);
      SpendingIsPaid(c, s, Step(c, s, call, disk).0, RecoveryCost(c, Step(c, s, call, disk).0));
    }
  }

  // ---- the cost of a run -----------------------------------------------------------------------

  /** The cost of what one call charged, read off the tier it leaves. */
  function Bill(c: Config, s: W, t: W): real {
    if t.ledger == s.ledger then 0.0 else EstimateCost(t.tier, c.contextTokens)
  }

  function Billed(c: Config, s: W, actions: seq<Action>): real
    decreases |actions|
  {
    if actions == [] then 0.0
    else
      var t := Step(c, s, actions[0].call, actions[0].disk).0;
      Bill(c, s, t) + Billed(c, t, actions[1..])
  }

  lemma ChargeCosts(l: Ledger, kind: ReservationKind, tokens: int, cost: real)
    requires ChargeLedger(l, kind, tokens, cost).Ok?
    ensures var after := ChargeLedger(l, kind, tokens, cost).value;
      after != l && CostIn(after.entries, {Committed}) == CostIn(l.entries, {Committed}) + cost
  {
    ReservedIsCharged(l, kind, tokens, cost);
    AppendTotals(l.entries, Reservation(|l.entries| + 1, kind, tokens, cost, Committed), {Committed});
  }

  lemma SpendingCosts(c: Config, s: W, t: W, cost: real)
    requires Spends(c, s, t, cost)
    ensures CostIn(t.ledger.entries, {Committed}) ==
            CostIn(s.ledger.entries, {Committed}) + if t.ledger == s.ledger then 0.0 else cost
  {
    if t.ledger != s.ledger {
      var kind := if t.escalationsUsed == s.escalationsUsed then RecoveryCharge else EscalationCharge;
      ChargeCosts(s.ledger, kind, c.contextTokens, cost);
    }
  }

  lemma StepIsBilled(c: Config, s: W, call: Call, disk: Disk)
    requires c.Valid() && (call.Start? ==> Refused(c, s, call).Some?)
    ensures var t := Step(c, s, call, disk).0;
      CostIn(t.ledger.entries, {Committed}) == CostIn(s.ledger.entries, {Committed}) + Bill(c, s, t)
  {
    StepSpends(c, s, call, disk);
    SpendingCosts(c, s, Step(c, s, call, disk).0, RecoveryCost(c, Step(c, s, call, disk).0));
  }

  // ---- recovery charges and recovery attempts -----------------------------------------------------

  /** Owing looks only at the ledger and at the episodes. */
  lemma SameOwed(s: W, t: W)
    requires CountKind(t.ledger.entries, RecoveryCharge) == CountKind(s.ledger.entries, RecoveryCharge)
    requires t.closed == s.closed && Open(t.sm.state) == Open(s.sm.state)
    requires Open(s.sm.state) ==> |t.episode.attempts| == |s.episode.attempts|
    ensures Owed(t) == Owed(s)
  {}

  lemma ClosingOwesNothing(s: W, t: W)
    requires t.ledger == s.ledger && Open(s.sm.state) && !Open(t.sm.state) && t.closed != []
    requires t.closed[..|t.closed| - 1] == s.closed
    requires |t.closed[|t.closed| - 1].attempts| == |s.episode.attempts|
    ensures Owed(t) == Owed(s)
  {}

  lemma ChargeCounts(l: Ledger, kind: ReservationKind, tokens: int, cost: real)
    requires ChargeLedger(l, kind, tokens, cost).Ok?
    ensures CountKind(ChargeLedger(l, kind, tokens, cost).value.entries, RecoveryCharge) ==
            CountKind(l.entries, RecoveryCharge) + if kind.RecoveryCharge? then 1 else 0
  {
    ReservedIsCharged(l, kind, tokens, cost);
    CountAppend(l.entries, Reservation(|l.entries| + 1, kind, tokens, cost, Committed), RecoveryCharge);
  }

  lemma OwedAfterStart(c: Config, s: W, charge: Charge, task: string, at: real)
    requires s.sm.state.Planning? && Charged(s.ledger, charge).Ok?
    ensures Owed(Touch(Begun(s, Charged(s.ledger, charge).value, task, at), at)) == Owed(s)
  {
    if charge.tokens != 0 || charge.cost != 0.0 { ChargeCounts(s.ledger, InitialPlan, charge.tokens, charge.cost); }
    SameOwed(s, Touch(Begun(s, Charged(s.ledger, charge).value, task, at), at));
  }

  lemma OwedAfterEntering(s: W, target: ExecutionState, at: real, evidence: seq<string>)
    requires !Open(s.sm.state) && !Open(target)
    ensures Owed(Touch(Enter(s, target, at, evidence), at)) == Owed(s)
  {}

  lemma OwedAfterStall(s: W, at: real, reasons: seq<StallSignal>)
    requires !Open(s.sm.state)
    ensures Owed(StallOpened(s, at, reasons)) == Owed(s)
  {}

  lemma OwedAfterGivingUp(s: W, at: real, blocker: Blocker)
    requires s.sm.state.Stalled? && s.episode.openedAt.Some?
    ensures Owed(GivenUp(s, at, blocker)) == Owed(s)
  {
    ClosingOwesNothing(s, GivenUp(s, at, blocker));
  }

  lemma OwedAfterRecovery(s: W, at: real, resume: ExecutionState, note: string)
    requires s.sm.state.Recovering? && s.episode.openedAt.Some? && s.episode.attempts != [] && resume in RESUMABLE
    ensures Owed(Touch(Recovered(Judged(s, Success, at), resume, at, note), at)) == Owed(s)
  {
    ClosingOwesNothing(s, Touch(Recovered(Judged(s, Success, at), resume, at, note), at));
  }

  lemma OwedAfterFailure(c: Config, s: W, at: real, strategy: Strategy)
    requires s.sm.state.Recovering? && s.episode.openedAt.Some? && s.episode.attempts != []
    ensures Owed(Touch(FailedBack(c, Judged(s, Failure, at), at, strategy), at)) == Owed(s)
  {
    var t := Touch(FailedBack(c, Judged(s, Failure, at), at, strategy), at);
    if t.sm.state.Blocked? { ClosingOwesNothing(s, t); } else { SameOwed(s, t); }
  }

  lemma OwedAfterResult(c: Config, s: W, at: real, result: RecoveryResult, resume: ExecutionState, evidence: Option<string>)
    requires s.sm.state.Recovering? && s.episode.openedAt.Some? && s.episode.attempts != []
    requires result.Success? ==> resume in RESUMABLE
    ensures Owed(Touch(Concluded(c, s, at, result, resume, evidence), at)) == Owed(s)
  {
    var strategy := s.episode.attempts[|s.episode.attempts| - 1].strategy;
    if result.Success? {
      OwedAfterRecovery(s, at, resume, NoteOf(evidence, strategy));
    } else {
      OwedAfterFailure(c, s, at, strategy);
    }
  }

  lemma OpenIsOpened(c: Config, s: W)
    requires Audited(c, s) && Open(s.sm.state)
    ensures s.episode.openedAt.Some?
  {}

  lemma OwedAfterEffect(c: Config, s: W, call: Call)
    requires Open(s.sm.state) ==> s.episode.openedAt.Some?
    requires Plain(call) && Refused(c, s, call).None?
    ensures Owed(Touch(Effect(c, s, call), call.at)) == Owed(s)
  {
    if call.Start? {
      OwedAfterStart(c, s, InitialCharge(c, call.tokens, call.cost), call.task, call.at);
    } else if call.RecordRecoveryResult? {
      OwedAfterResult(c, s, call.at, call.result, call.resume, call.evidence);
    } else if call.Advance? {
      OwedAfterEntering(s, call.target, call.at, []);
    } else if call.Complete? {
      OwedAfterEntering(s, ExecutionState.Completed, call.at, call.proof);
    }
  }

  lemma OwedAfterSpending(c: Config, s: W, strategy: Strategy, cost: real, charged: Ledger)
    requires Affordable(c, s, strategy, cost, charged)
    ensures Owed(Committing(s, strategy, charged)) == Owed(s) + 1
  {
    ChargeCounts(s.ledger, RecoveryCharge, c.contextTokens, cost);
  }

  lemma OwedAfterTrying(s: W, at: real, reason: string, strategy: Strategy)
    requires s.sm.state.Stalled?
    ensures Owed(Touch(Attempting(s, at, reason, strategy), at)) == Owed(s) - 1
  {}

  lemma OwedAfterRaise(c: Config, s: W, tier: ModelTier, reasoning: ReasoningEffort, cost: real, charged: Ledger)
    requires ChargeLedger(s.ledger, EscalationCharge, c.contextTokens, cost) == Ok(charged)
    ensures Owed(Raised(s, tier, reasoning, charged)) == Owed(s)
  {
    ChargeCounts(s.ledger, EscalationCharge, c.contextTokens, cost);
    SameOwed(s, Raised(s, tier, reasoning, charged));
  }

  /** Each move settles what it charges, except a spending one. */
  lemma OwedMove(c: Config, s: W, m: Move)
    requires Open(s.sm.state) ==> s.episode.openedAt.Some?
    requires CanMove(c, s, m) && !m.Spend?
    ensures Owed(After(c, s, m)) == Owed(s)
  {
    if m.Act? {
      OwedAfterEffect(c, s, m.call);
    } else if m.Stall? {
      OwedAfterStall(s, m.at, m.reasons);
    } else if m.GiveUp? {
      OwedAfterGivingUp(s, m.at, m.blocker);
    } else if m.Try? {
      OwedAfterSpending(c, s, m.strategy, m.cost, m.charged);
      OwedAfterTrying(Committing(s, m.strategy, m.charged), m.at, m.reason, m.strategy);
    } else if m.Raise? {
      OwedAfterRaise(c, s, m.tier, m.reasoning, m.cost, m.charged);
    } else {
      SameOwed(s, After(c, s, m));
    }
  }

  lemma OwedByMoves(c: Config, call: Call, owed: int, inv: W -> bool)
    requires KeptBy(c, call, inv) && (call.BeginRecovery? ==> !Blank(call.reason))
    requires forall s :: inv(s) && Open(s.sm.state) ==> s.episode.openedAt.Some?
    ensures KeptBy(c, call, s => inv(s) && Owed(s) == owed)
  {
    forall s, m | inv(s) && Owed(s) == owed && CanMove(c, s, m) && PartOf(m, call) ensures Owed(After(c, s, m)) == owed {
      OwedMove(c, s, m);
    }
  }

  lemma InOrderIsOpened(c: Config, inv: W -> bool)
    requires forall s :: inv(s) ==> Audited(c, s)
    ensures forall s :: inv(s) && Open(s.sm.state) ==> s.episode.openedAt.Some?
  {
    forall s | inv(s) && Open(s.sm.state) ensures s.episode.openedAt.Some? { OpenIsOpened(c, s); }
  }

  lemma BlankBegins(c: Config, s: W, at: real, reason: string, ok: bool)
    requires s.sm.state.Stalled? && Blank(reason) && s.episode.openedAt.Some?
    ensures Owed(RecoveryFromStall(c, s, at, reason, ok).0) == Owed(s) + if Admit(c, s).Admitted? then 1 else 0
  {
    match Admit(c, s)
    case Denied(blocker) =>
      OwedAfterGivingUp(s, at, blocker);
      SameOwed(GivenUp(s, at, blocker), Finish(c, GivenUp(s, at, blocker), at, ok).0);
    case Admitted(strategy, charged) =>
      AdmissionIsAffordable(c, s);
      OwedAfterSpending(c, s, strategy, RecoveryCost(c, s), charged);
  }

  /** Every call settles what it charges, except exactly a call refused too late, which leaves one charge
      without an attempt. */
  lemma StepOwes(c: Config, s: W, call: Call, disk: Disk)
    requires c.Valid() && Sound(c, s) && Bounded(c, s) && Audited(c, s)
    ensures Owed(Step(c, s, call, disk).0) == Owed(s) + if RefusedTooLate(c, s, call) then 1 else 0
  {
    if call.BeginRecovery? && Blank(call.reason) {
      if Refused(c, s, call).None? {
        OpenIsOpened(c, s);
        BlankBegins(c, s, call.at, call.reason, disk.recovery);
      }
    } else {
      var inv := u => Sound(c, u) && Bounded(c, u) && Audited(c, u);
      AuditedByMoves(c, call);
      InOrderIsOpened(c, inv);
      OwedByMoves(c, call, Owed(s), inv);
      StepByMoves(c, s, call, disk, u => inv(u) && Owed(u) == Owed(s));
    }
  }
}
