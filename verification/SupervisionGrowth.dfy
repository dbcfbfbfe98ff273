/** What only ever grows: the clock, the records and the money spent. */
module SupervisionGrowth {
  import opened Common
  import opened StateMachine
  import opened Stall
  import opened Recovery
  import opened Budget
  import opened Escalation
  import opened Supervision
  import opened SupervisionMoves
  import Routing

  predicate RecordsGrow(s: W, t: W) {
    && s.sm.history <= t.sm.history
    && s.activities <= t.activities
    && s.progress <= t.progress
    && s.checkpoints <= t.checkpoints
    && s.closed <= t.closed
    && s.ledger.entries <= t.ledger.entries
  }

  predicate NoSecondPlan(earlier: seq<Reservation>, later: seq<Reservation>) {
    forall i :: |earlier| <= i < |later| ==> !later[i].kind.InitialPlan?
  }

  /** Nothing recorded is ever dropped or rewritten, time never runs backwards, capability never drops. */
  predicate Grows(s: W, t: W) {
    && RecordsGrow(s, t)
    && (s.clock.Some? ==> t.clock.Some? && s.clock.value <= t.clock.value)
    && (s.startedAt.Some? ==> t.startedAt == s.startedAt)
    && s.ledger.maxTokens == t.ledger.maxTokens && s.ledger.maxCost == t.ledger.maxCost
    && s.escalationsUsed <= t.escalationsUsed
    && s.episode.number <= t.episode.number
    && s.tier.Rank() <= t.tier.Rank() && s.reasoning.Rank() <= t.reasoning.Rank()
    && (s.startedAt.Some? ==> NoSecondPlan(s.ledger.entries, t.ledger.entries))
  }

  lemma GrowsTransitively(s: W, t: W, u: W)
    requires Grows(s, t) && Grows(t, u)
    ensures Grows(s, u)
  {}

  lemma FinishGrows(c: Config, s: W, t: W, at: real, ok: bool)
    requires Grows(s, t) && t.clock == s.clock && !Untimely(s, at)
    ensures Grows(s, Finish(c, t, at, ok).0)
  {}

  lemma MirroringGrows(c: Config, s: W, t: W, at: real, ok: bool)
    requires Grows(s, t)
    ensures Grows(s, Mirrored(c, t, at, ok))
  {}

  predicate LedgerGrows(l: Ledger, l': Ledger) {
    l.entries <= l'.entries && NoSecondPlan(l.entries, l'.entries) && l'.maxTokens == l.maxTokens && l'.maxCost == l.maxCost
  }

  /** A charge that goes through leaves every earlier entry as it was. */
  lemma ChargeGrows(l: Ledger, kind: ReservationKind, tokens: int, cost: real)
    ensures var r := ChargeLedger(l, kind, tokens, cost);
      r.Ok? ==>
        && l.entries <= r.value.entries
        && (!kind.InitialPlan? ==> LedgerGrows(l, r.value))
        && r.value.maxTokens == l.maxTokens && r.value.maxCost == l.maxCost
  {
    ReservedIsCharged(l, kind, tokens, cost);
  }

  lemma BeginningGrows(s: W, charge: Charge, task: string, at: real)
    requires Charged(s.ledger, charge).Ok? && s.startedAt.None?
    ensures Grows(s, Begun(s, Charged(s.ledger, charge).value, task, at))
  {
    ChargeGrows(s.ledger, InitialPlan, charge.tokens, charge.cost);
  }

  lemma ConclusionGrows(c: Config, s: W, at: real, result: RecoveryResult, resume: ExecutionState, evidence: Option<string>)
    requires s.episode.attempts != [] && !Untimely(s, at)
    ensures Grows(s, Concluded(c, s, at, result, resume, evidence))
  {}

  lemma EffectGrows(c: Config, s: W, call: Call)
    requires Plain(call) && Refused(c, s, call).None?
    ensures Grows(s, Touch(Effect(c, s, call), call.at))
  {
    if call.Start? {
      BeginningGrows(s, InitialCharge(c, call.tokens, call.cost), call.task, call.at);
    } else if call.RecordRecoveryResult? {
      ConclusionGrows(c, s, call.at, call.result, call.resume, call.evidence);
    }
  }

  lemma AdmissionGrows(c: Config, s: W)
    ensures Admit(c, s).Admitted? ==> LedgerGrows(s.ledger, Admit(c, s).ledger)
  {
    ChargeGrows(s.ledger, RecoveryCharge, c.contextTokens, RecoveryCost(c, s));
  }

  lemma PursuitGrows(c: Config, s: W, at: real, reason: string, admission: Admission, ok: bool)
    requires !Untimely(s, at) && (admission.Admitted? ==> LedgerGrows(s.ledger, admission.ledger))
    ensures Grows(s, Pursued(c, s, at, reason, admission, ok).0)
  {
    if admission.Admitted? {
      var committed := Committing(s, admission.strategy, admission.ledger);
      AttemptGrows(s, committed, at, reason, admission.strategy);
      FinishGrows(c, s, Attempting(committed, at, reason, admission.strategy), at, ok);
    }
  }

  lemma FromStallGrows(c: Config, s: W, at: real, reason: string, ok: bool)
    requires !Untimely(s, at)
    ensures Grows(s, RecoveryFromStall(c, s, at, reason, ok).0)
  {
    AdmissionGrows(c, s);
    PursuitGrows(c, s, at, reason, Admit(c, s), ok);
  }

  lemma AttemptGrows(s: W, committed: W, at: real, reason: string, strategy: Strategy)
    requires Grows(s, committed)
    ensures Grows(s, Attempting(committed, at, reason, strategy))
    ensures Attempting(committed, at, reason, strategy).clock == committed.clock
  {}

  lemma StallingGrows(c: Config, s: W, at: real, reasons: seq<StallSignal>, disk: Disk)
    requires !Untimely(s, at)
    ensures Grows(s, StallStep(c, StallOpened(s, at, reasons), at, disk).0)
  {
    var stalled := StallOpened(s, at, reasons);
    var mirrored := Mirrored(c, stalled, at, disk.stall);
    assert Grows(s, stalled);
    MirroringGrows(c, s, stalled, at, disk.stall);
    FromStallGrows(c, mirrored, at, STALL_DETECTED, disk.recovery);
    if !MirrorReply(c, stalled, at, disk.stall).WriteFailed? {
      GrowsTransitively(s, mirrored, RecoveryFromStall(c, mirrored, at, STALL_DETECTED, disk.recovery).0);
    }
  }

  lemma ResponseGrows(c: Config, s: W, at: real, reasons: seq<StallSignal>, disk: Disk)
    requires !Untimely(s, at)
    ensures Grows(s, Responded(c, s, at, reasons, disk).0)
  {
    if reasons != [] { StallingGrows(c, s, at, reasons, disk); }
  }

  lemma EvaluationGrows(c: Config, s: W, at: real, disk: Disk)
    requires !Untimely(s, at)
    ensures Grows(s, Evaluated(c, s, at, disk).0)
  {
    if Active(s) && s.startedAt.Some? { ResponseGrows(c, s, at, VerdictAt(c, s, at), disk); }
  }

  lemma ReportGrows(c: Config, s: W, a: Activity, disk: Disk)
    requires !Untimely(s, a.at)
    ensures Grows(s, Reported(c, Touch(Noted(s, a), a.at), a.at, disk).0)
  {
    var noted := Touch(Noted(s, a), a.at);
    EvaluationGrows(c, noted, a.at, disk);
    MirroringGrows(c, noted, Evaluated(c, noted, a.at, disk).0, a.at, disk.final);
    assert Grows(s, noted);
    GrowsTransitively(s, noted, Reported(c, noted, a.at, disk).0);
  }

  lemma EscalationGrows(c: Config, s: W, at: real, signals: EscalationSignals)
    requires !Untimely(s, at)
    ensures Grows(s, Touch(Escalated(c, s, signals), at))
  {
    var d := Decision(c, s, signals);
    if d.Approved? {
      RiseUsesClimb(s.tier, s.reasoning, d.trigger);
      ChargeGrows(s.ledger, EscalationCharge, c.contextTokens, Routing.EstimateCost(d.tier, c.contextTokens));
    }
  }

  lemma SpecialGrows(c: Config, s: W, call: Call, disk: Disk)
    requires !Plain(call) && Refused(c, s, call).None?
    ensures Grows(s, Carried(c, s, call, disk).0)
  {
    match call
    case RecordActivity(at, fingerprint, succeeded, trivial, duration, error) =>
      ReportGrows(c, s, Activity(at, fingerprint, succeeded, trivial, duration, error), disk);
    case Evaluate(at) => EvaluationGrows(c, s, at, disk);
    case BeginRecovery(at, reason) =>
      FromStallGrows(c, s, at, reason, disk.recovery);
    case RecordEscalation(at, signals) => EscalationGrows(c, s, at, signals);
    case SyncHeartbeat =>
  }

  /** From any state at all, no call with any arguments drops a record or turns back the clock. */
  lemma StepGrows(c: Config, s: W, call: Call, disk: Disk)
    ensures Grows(s, Step(c, s, call, disk).0)
  {
    if Refused(c, s, call).None? {
      if Plain(call) {
        EffectGrows(c, s, call);
        MirroringGrows(c, s, Touch(Effect(c, s, call), call.at), call.at, disk.final);
      } else {
        SpecialGrows(c, s, call, disk);
      }
    }
  }

  lemma {:induction false} RunGrows(c: Config, s: W, actions: seq<Action>)
    ensures Grows(s, Run(c, s, actions))
    decreases |actions|
  {
    if actions != [] {
      var t := Step(c, s, actions[0].call, actions[0].disk).0;
      StepGrows(c, s, actions[0].call, actions[0].disk);
      RunGrows(c, t, actions[1..]);
      GrowsTransitively(s, t, Run(c, t, actions[1..]));
    }
  }

  // ---- checkpoints are appended by one call only ------------------------------------------------

  lemma PursuitSavesNothing(c: Config, s: W, at: real, reason: string, admission: Admission, ok: bool)
    ensures Pursued(c, s, at, reason, admission, ok).0.checkpoints == s.checkpoints
  {}

  lemma FromStallSavesNothing(c: Config, s: W, at: real, reason: string, ok: bool)
    ensures RecoveryFromStall(c, s, at, reason, ok).0.checkpoints == s.checkpoints
  {
    PursuitSavesNothing(c, s, at, reason, Admit(c, s), ok);
  }

  lemma JudgingSavesNothing(c: Config, s: W, at: real, reasons: seq<StallSignal>, disk: Disk)
    ensures Responded(c, s, at, reasons, disk).0.checkpoints == s.checkpoints
  {
    FromStallSavesNothing(c, Mirrored(c, StallOpened(s, at, reasons), at, disk.stall), at, STALL_DETECTED, disk.recovery);
  }

  lemma EvaluationSavesNothing(c: Config, s: W, at: real, disk: Disk)
    ensures Evaluated(c, s, at, disk).0.checkpoints == s.checkpoints
    ensures Reported(c, s, at, disk).0.checkpoints == s.checkpoints
  {
    if Active(s) && s.startedAt.Some? { JudgingSavesNothing(c, s, at, VerdictAt(c, s, at), disk); }
  }

  lemma PlainCallsSaveNothing(c: Config, s: W, call: Call, disk: Disk)
    requires Plain(call) && !call.TakeCheckpoint? && Refused(c, s, call).None?
    ensures Carried(c, s, call, disk).0.checkpoints == s.checkpoints
  {}

  lemma OnlyOneCallSaves(c: Config, s: W, call: Call, disk: Disk)
    requires !call.TakeCheckpoint?
    ensures Step(c, s, call, disk).0.checkpoints == s.checkpoints
  {
    if Refused(c, s, call).None? {
      if Plain(call) {
        PlainCallsSaveNothing(c, s, call, disk);
      } else if call.RecordActivity? {
        var a := Activity(call.at, call.fingerprint, call.succeeded, call.trivial, call.duration, call.error);
        EvaluationSavesNothing(c, Touch(Noted(s, a), call.at), call.at, disk);
      } else if call.Evaluate? {
        EvaluationSavesNothing(c, s, call.at, disk);
      } else if call.BeginRecovery? {
        FromStallSavesNothing(c, s, call.at, call.reason, disk.recovery);
      }
    }
  }
}
