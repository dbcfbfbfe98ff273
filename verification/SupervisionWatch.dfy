/** No stall is left undetected at rest: the watch over recorded work survives every call. */
module SupervisionWatch {
  import opened Common
  import opened Policies
  import opened StateMachine
  import opened Stall
  import opened Escalation
  import opened Supervision
  import opened SupervisionInvariants
  import opened SupervisionSoundness
  import opened SupervisionBounds

  lemma QuietWhenIdle(p: WatchdogPolicy)
    requires p.Valid()
    ensures Quiet(p, [])
  {
    NoActivityNoSignal(p, 0.0);
    SilenceMeansQuiet(p, []);
  }

  /** The watch looks only at the state, the recorded work and the boundary. */
  lemma SameWatch(c: Config, s: W, t: W)
    requires Watched(c, s) && (Active(t) && t.startedAt.Some? ==> Active(s))
    requires t.activities == s.activities && t.progress == s.progress && t.startedAt == s.startedAt
    ensures Watched(c, t)
  {}

  lemma FreshBaseline(c: Config, t: W)
    requires c.Valid() && (t.startedAt.Some? ==> Since(t.activities, BoundaryOf(t)) == [])
    ensures Watched(c, t)
  {
    QuietWhenIdle(c.policy.watchdog);
  }

  lemma FinishIsWatched(c: Config, t: W, at: real, ok: bool)
    requires Watched(c, t)
    ensures Watched(c, Finish(c, t, at, ok).0)
  {
    SameWatch(c, t, Finish(c, t, at, ok).0);
  }

  lemma ConclusionIsWatched(c: Config, s: W, at: real, result: RecoveryResult, resume: ExecutionState, evidence: Option<string>)
    requires c.Valid() && Sound(c, s) && s.startedAt.Some? && Now(s.clock) <= at && s.episode.attempts != []
    ensures Watched(c, Concluded(c, s, at, result, resume, evidence))
  {
    if result.Success? {
      var note := NoteOf(evidence, s.episode.attempts[|s.episode.attempts| - 1].strategy);
      RecoveredWork(c, s, Judged(s, Success, at), resume, at, note);
      FreshBaseline(c, Recovered(Judged(s, Success, at), resume, at, note));
    }
  }

  lemma EffectIsWatched(c: Config, s: W, call: Call)
    requires c.Valid() && Sound(c, s) && Watched(c, s) && Plain(call) && Refused(c, s, call).None?
    ensures Watched(c, Effect(c, s, call))
  {
    if call.Start? {
      FreshBaseline(c, Effect(c, s, call));
    } else if call.RecordProgress? {
      ActiveIsStarted(c, s);
      NoWorkAfterProgress(c, s, call.at, call.description);
      FreshBaseline(c, Effect(c, s, call));
    } else if call.RecordRecoveryResult? {
      ActiveIsStarted(c, s);
      ConclusionIsWatched(c, s, call.at, call.result, call.resume, call.evidence);
    } else {
      SameWatch(c, s, Effect(c, s, call));
    }
  }

  lemma PursuitIsNotActive(c: Config, s: W, at: real, reason: string, admission: Admission, ok: bool)
    requires s.sm.state.Stalled?
    ensures InTrouble(Pursued(c, s, at, reason, admission, ok).0.sm.state)
  {}

  lemma FromStallIsNotActive(c: Config, s: W, at: real, reason: string, ok: bool)
    requires s.sm.state.Stalled?
    ensures InTrouble(RecoveryFromStall(c, s, at, reason, ok).0.sm.state)
    ensures Watched(c, RecoveryFromStall(c, s, at, reason, ok).0)
  {
    PursuitIsNotActive(c, s, at, reason, Admit(c, s), ok);
    TroubleIsWatched(c, RecoveryFromStall(c, s, at, reason, ok).0);
  }

  lemma StallStepIsNotActive(c: Config, s: W, at: real, disk: Disk)
    requires s.sm.state.Stalled?
    ensures Watched(c, StallStep(c, s, at, disk).0)
  {
    FromStallIsNotActive(c, Mirrored(c, s, at, disk.stall), at, STALL_DETECTED, disk.recovery);
    TroubleIsWatched(c, StallStep(c, s, at, disk).0);
  }

  lemma TroubleIsWatched(c: Config, t: W)
    requires InTrouble(t.sm.state)
    ensures Watched(c, t)
  {}

  lemma SilenceIsWatched(c: Config, s: W, at: real)
    requires c.Valid() && s.startedAt.Some? && VerdictAt(c, s, at) == []
    ensures Watched(c, s)
  {
    SilenceMeansQuiet(c.policy.watchdog, Since(s.activities, BoundaryOf(s)));
  }

  lemma ResponseSettles(c: Config, s: W, at: real, reasons: seq<StallSignal>, disk: Disk)
    requires reasons == [] ==> Watched(c, s)
    ensures Watched(c, Responded(c, s, at, reasons, disk).0)
  {
    if reasons == [] {
      SameWatch(c, s, Touch(s, at));
    } else {
      StallStepIsNotActive(c, StallOpened(s, at, reasons), at, disk);
    }
  }

  /** Judging settles the watch: silence means quiet, and a signal ends the active state. */
  lemma JudgingSettles(c: Config, s: W, at: real, disk: Disk)
    requires c.Valid()
    ensures Watched(c, Evaluated(c, s, at, disk).0)
  {
    if Active(s) && s.startedAt.Some? {
      if VerdictAt(c, s, at) == [] { SilenceIsWatched(c, s, at); }
      ResponseSettles(c, s, at, VerdictAt(c, s, at), disk);
    }
  }

  lemma ReportIsWatched(c: Config, s: W, at: real, disk: Disk)
    requires c.Valid()
    ensures Watched(c, Reported(c, s, at, disk).0)
  {
    JudgingSettles(c, s, at, disk);
    SameWatch(c, Evaluated(c, s, at, disk).0, Reported(c, s, at, disk).0);
  }

  lemma EscalationIsWatched(c: Config, s: W, at: real, signals: EscalationSignals)
    requires Watched(c, s)
    ensures Watched(c, Touch(Escalated(c, s, signals), at))
  {
    SameWatch(c, s, Touch(Escalated(c, s, signals), at));
  }

  /** Whatever is called, with whatever arguments and write failures: no timeless stall signal is
      pending at rest in an active state. */
  lemma StepKeepsWatch(c: Config, s: W, call: Call, disk: Disk)
    requires c.Valid() && Sound(c, s) && Watched(c, s)
    ensures Watched(c, Step(c, s, call, disk).0)
  {
    if Refused(c, s, call).None? {
      if Plain(call) {
        EffectIsWatched(c, s, call);
        FinishIsWatched(c, Effect(c, s, call), call.at, disk.final);
      } else {
        SpecialIsWatched(c, s, call, disk);
      }
    }
  }

  lemma SpecialIsWatched(c: Config, s: W, call: Call, disk: Disk)
    requires c.Valid() && Watched(c, s) && !Plain(call) && Refused(c, s, call).None?
    ensures Watched(c, Carried(c, s, call, disk).0)
  {
    match call
    case RecordActivity(at, fingerprint, succeeded, trivial, duration, error) =>
      ReportIsWatched(c, Touch(Noted(s, Activity(at, fingerprint, succeeded, trivial, duration, error)), at), at, disk);
    case Evaluate(at) => JudgingSettles(c, s, at, disk);
    case BeginRecovery(at, reason) => FromStallIsNotActive(c, s, at, reason, disk.recovery);
    case RecordEscalation(at, signals) => EscalationIsWatched(c, s, at, signals);
    case SyncHeartbeat => SameWatch(c, s, Synced(c, s, disk).0);
  }
}
