/** Where each call leads: the clock, the path through the states, the episode it opens, goes on with or closes, and
    the capability it leaves. */
module SupervisionEffects {
  import opened Common
  import opened StateMachine
  import opened Stall
  import opened Recovery
  import opened Budget
  import opened Supervision
  import opened SupervisionInvariants
  import opened SupervisionRecords

  // ---- the path through the states --------------------------------------------------------------

  /** The states a call passes on its way, the last one included: a stall and recovery are always passed one by one. */
  function Path(from: ExecutionState, to: ExecutionState): seq<ExecutionState> {
    if from == to then []
    else if from in ACTIVE && to.Recovering? then [Stalled, Recovering]
    else if from in ACTIVE && to.Blocked? then [Stalled, Recovering, Blocked]
    else if from.Stalled? && to.Blocked? then [Recovering, Blocked]
    else [to]
  }

  /** The transitions along a path, all at one time with one evidence. */
  function Passing(from: ExecutionState, path: seq<ExecutionState>, at: real, evidence: seq<string>): seq<TransitionRecord>
    decreases |path|
  {
    if path == [] then []
    else [TransitionRecord(from, path[0], at, evidence)] + Passing(path[0], path[1..], at, evidence)
  }

  /** m' is what m becomes on the way to its state. */
  predicate Goes(m: Machine, m': Machine, at: real, evidence: seq<string>) {
    m'.history == m.history + Passing(m.state, Path(m.state, m'.state), at, evidence)
  }

  lemma GoesOneStep(m: Machine, to: ExecutionState, at: real, evidence: seq<string>)
    requires to in Allowed(m.state) && !(m.state in ACTIVE && (to.Recovering? || to.Blocked?))
    ensures Goes(m, Moved(m, to, at, evidence), at, evidence)
  {
    assert [to][1..] == [];
    assert [TransitionRecord(m.state, to, at, evidence)] + [] == [TransitionRecord(m.state, to, at, evidence)];
  }

  lemma GoesNowhere(m: Machine, at: real, evidence: seq<string>)
    ensures Goes(m, m, at, evidence)
  {
    assert m.history + [] == m.history;
  }

  lemma GoesToBlocked(m: Machine, at: real)
    requires m.state.Stalled?
    ensures Goes(m, Moved(Moved(m, Recovering, at, []), Blocked, at, []), at, [])
  {
    var a, b := TransitionRecord(Stalled, Recovering, at, []), TransitionRecord(Recovering, Blocked, at, []);
    assert [Recovering, Blocked][1..] == [Blocked] && [Blocked][1..] == [];
    assert [a] + ([b] + []) == [a, b];
    assert m.history + [a] + [b] == m.history + [a, b];
  }

  /** Through a fresh stall and on. */
  lemma GoesOn(m: Machine, u: Machine, t: Machine, at: real)
    requires m.state in ACTIVE && u == Moved(m, Stalled, at, []) && Goes(u, t, at, [])
    requires t.state.Stalled? || t.state.Recovering? || t.state.Blocked?
    ensures Goes(m, t, at, [])
  {
    var a := TransitionRecord(m.state, Stalled, at, []);
    assert Path(m.state, t.state) == [Stalled] + Path(Stalled, t.state);
    assert ([Stalled] + Path(Stalled, t.state))[1..] == Path(Stalled, t.state);
    var rest := Passing(Stalled, Path(Stalled, t.state), at, []);
    assert m.history + [a] + rest == m.history + ([a] + rest);
  }

  // ---- what pursuing a stall leaves -----------------------------------------------------------------

  /** The episode as it joins the audit trail. */
  function Ended(e: Episode, outcome: EpisodeOutcome, at: real): RecoveryEpisode
    requires e.openedAt.Some?
  {
    RecoveryEpisode(e.number, e.reason, e.attempts, outcome, e.openedAt.value, at)
  }

  /** What a call in a stall leaves: blocked with the episode closed as given up, or the episode open as it was opened. */
  predicate Pursues(s: W, t: W, at: real) {
    && Goes(s.sm, t.sm, at, [])
    && t.episode.number == s.episode.number && t.episode.openedAt == s.episode.openedAt && t.episode.reason == s.episode.reason
    && (t.sm.state.Stalled? || t.sm.state.Recovering? || t.sm.state.Blocked?)
    && (t.sm.state.Blocked? ==>
          && t.clock == Some(at) && t.episode == s.episode
          && (s.episode.openedAt.Some? ==> t.closed == s.closed + [Ended(s.episode, GaveUp, at)]))
    && (t.sm.state.Recovering? ==> t.clock == Some(at))
    && (t.sm.state.Stalled? ==> t.clock == s.clock)
    && (!t.sm.state.Blocked? ==> t.closed == s.closed && t.report == s.report)
  }

  lemma DeniedPursues(c: Config, s: W, at: real, reason: string, blocker: Blocker, ok: bool)
    requires s.sm.state.Stalled?
    ensures Pursues(s, Pursued(c, s, at, reason, Denied(blocker), ok).0, at)
  {
    GoesToBlocked(s.sm, at);
  }

  lemma AdmittedPursues(c: Config, s: W, at: real, reason: string, strategy: Strategy, charged: Ledger, ok: bool)
    requires s.sm.state.Stalled?
    ensures Pursues(s, Pursued(c, s, at, reason, Admitted(strategy, charged), ok).0, at)
  {
    GoesNowhere(s.sm, at, []);
    GoesOneStep(s.sm, Recovering, at, []);
  }

  lemma FromStallPursues(c: Config, s: W, at: real, reason: string, ok: bool)
    requires s.sm.state.Stalled?
    ensures Pursues(s, RecoveryFromStall(c, s, at, reason, ok).0, at)
  {
    match Admit(c, s)
    case Denied(blocker) => DeniedPursues(c, s, at, reason, blocker, ok);
    case Admitted(strategy, charged) => AdmittedPursues(c, s, at, reason, strategy, charged, ok);
  }

  lemma MirroredIsSame(c: Config, s: W, at: real, ok: bool)
    ensures Mirrored(c, s, at, ok) == s.(mirror := Mirrored(c, s, at, ok).mirror)
  {}

  lemma PursuesFromMirror(c: Config, s: W, m: Mirror, t: W, at: real)
    requires Pursues(s.(mirror := m), t, at)
    ensures Pursues(s, t, at)
  {}

  lemma StallPursues(c: Config, s: W, at: real, disk: Disk)
    requires s.sm.state.Stalled?
    ensures Pursues(s, StallStep(c, s, at, disk).0, at)
  {
    MirroredIsSame(c, s, at, disk.stall);
    var mirrored := Mirrored(c, s, at, disk.stall);
    if MirrorReply(c, s, at, disk.stall).WriteFailed? {
      GoesNowhere(s.sm, at, []);
    } else {
      FromStallPursues(c, mirrored, at, STALL_DETECTED, disk.recovery);
      PursuesFromMirror(c, s, mirrored.mirror, StallStep(c, s, at, disk).0, at);
    }
  }

  // ---- what judging leaves ---------------------------------------------------------------------------

  /** Silence: nothing but the clock and the mirror. */
  predicate Rests(s: W, t: W, at: real) { t == s.(clock := Some(at), mirror := t.mirror) }

  /** A stall: an episode of its own, opened now for exactly these reasons, whatever it has come to meanwhile. */
  predicate Stalls(s: W, t: W, at: real, reasons: seq<StallSignal>) {
    && Goes(s.sm, t.sm, at, []) && t.clock == Some(at)
    && t.episode.number == s.episode.number + 1 && t.episode.openedAt == Some(at) && t.episode.reason == reasons
    && (t.sm.state.Stalled? || t.sm.state.Recovering? || t.sm.state.Blocked?)
    && t.closed == (if t.sm.state.Blocked? then s.closed + [Ended(t.episode, GaveUp, at)] else s.closed)
  }

  lemma StallIsOpened(s: W, at: real, reasons: seq<StallSignal>)
    requires Active(s)
    ensures var u := StallOpened(s, at, reasons);
      && u.sm == Moved(s.sm, Stalled, at, []) && u.clock == Some(at) && u.closed == s.closed
      && u.episode == Episode(s.episode.number + 1, Some(at), reasons, [], [])
  {}

  lemma StallsThrough(s: W, u: W, t: W, at: real, reasons: seq<StallSignal>)
    requires Active(s) && Pursues(u, t, at)
    requires u.sm == Moved(s.sm, Stalled, at, []) && u.clock == Some(at) && u.closed == s.closed
    requires u.episode == Episode(s.episode.number + 1, Some(at), reasons, [], [])
    ensures Stalls(s, t, at, reasons)
  {
    GoesOn(s.sm, u.sm, t.sm, at);
  }

  lemma JudgingLeads(c: Config, s: W, at: real, disk: Disk)
    ensures var t := Evaluated(c, s, at, disk).0;
      if Active(s) && s.startedAt.Some? && VerdictAt(c, s, at) != [] then Stalls(s, t, at, VerdictAt(c, s, at))
      else Rests(s, t, at)
  {
    if Active(s) && s.startedAt.Some? && VerdictAt(c, s, at) != [] {
      var u := StallOpened(s, at, VerdictAt(c, s, at));
      StallIsOpened(s, at, VerdictAt(c, s, at));
      StallPursues(c, u, at, disk);
      StallsThrough(s, u, StallStep(c, u, at, disk).0, at, VerdictAt(c, s, at));
    }
  }

  lemma StallsIsMirrored(c: Config, s: W, t: W, at: real, reasons: seq<StallSignal>, ok: bool)
    requires Stalls(s, t, at, reasons)
    ensures Stalls(s, Mirrored(c, t, at, ok), at, reasons)
  {}

  lemma ReportLeads(c: Config, s: W, at: real, disk: Disk)
    ensures var t := Reported(c, s, at, disk).0;
      if Active(s) && s.startedAt.Some? && VerdictAt(c, s, at) != [] then Stalls(s, t, at, VerdictAt(c, s, at))
      else Rests(s, t, at)
  {
    JudgingLeads(c, s, at, disk);
    MirroredIsSame(c, Evaluated(c, s, at, disk).0, at, disk.final);
    if Active(s) && s.startedAt.Some? && VerdictAt(c, s, at) != [] {
      StallsIsMirrored(c, s, Evaluated(c, s, at, disk).0, at, VerdictAt(c, s, at), disk.final);
    }
  }

  lemma StallsFromNoted(s: W, u: W, t: W, at: real, reasons: seq<StallSignal>)
    requires Stalls(u, t, at, reasons) && u.sm == s.sm && u.episode == s.episode && u.closed == s.closed
    ensures Stalls(s, t, at, reasons)
  {}

  /** The activities a call judges: those on record, and the one it records. */
  function JudgedActivities(c: Config, s: W, call: Call): seq<Activity> { s.activities + ActivityOf(c, s, call) }

  /** The verdict at the time of a call over those activities. */
  function VerdictOf(c: Config, s: W, call: Call): seq<StallSignal>
    requires s.startedAt.Some? && !call.SyncHeartbeat?
  {
    Verdict(c.policy.watchdog, call.at, s.startedAt.value, LatestProgress(s.progress), JudgedActivities(c, s, call))
  }

  predicate Judges(c: Config, s: W, call: Call) {
    (call.RecordActivity? || call.Evaluate?) && Refused(c, s, call).None?
  }

  lemma EvaluateLeads(c: Config, s: W, call: Call, disk: Disk)
    requires call.Evaluate? && Refused(c, s, call).None?
    ensures var t := Step(c, s, call, disk).0;
      if Active(s) && s.startedAt.Some? && VerdictOf(c, s, call) != [] then Stalls(s, t, call.at, VerdictOf(c, s, call))
      else Rests(s, t, call.at)
  {
    assert s.activities + [] == s.activities;
    JudgingLeads(c, s, call.at, disk);
  }

  lemma NotedIs(s: W, a: Activity)
    ensures var u := Touch(Noted(s, a), a.at);
      && u.sm == s.sm && u.episode == s.episode && u.closed == s.closed && u.startedAt == s.startedAt
      && u.progress == s.progress && u.activities == s.activities + [a]
  {}

  lemma ActivityLeads(c: Config, s: W, call: Call, disk: Disk)
    requires call.RecordActivity? && Refused(c, s, call).None?
    ensures var t := Step(c, s, call, disk).0;
      if s.startedAt.Some? && VerdictOf(c, s, call) != [] then Stalls(s, t, call.at, VerdictOf(c, s, call))
      else t.sm == s.sm && t.episode == s.episode && t.closed == s.closed && t.clock == Some(call.at)
  {
    var a := ActivityOf(c, s, call)[0];
    var u := Touch(Noted(s, a), call.at);
    NotedIs(s, a);
    ReportLeads(c, u, call.at, disk);
    if s.startedAt.Some? && VerdictOf(c, s, call) != [] {
      StallsFromNoted(s, u, Step(c, s, call, disk).0, call.at, VerdictOf(c, s, call));
    }
  }

  // ---- every call -------------------------------------------------------------------------------------

  /** Whether the call changes anything but perhaps the mirror. */
  predicate Counts(c: Config, s: W, call: Call, disk: Disk) {
    && Refused(c, s, call).None? && !RefusedTooLate(c, s, call) && !call.SyncHeartbeat?
    && (call.TakeCheckpoint? && c.persistent ==> disk.checkpoint)
  }

  /** A call that counts commits its time; what it went through is on record at that time, with the proof of a
      completion as evidence; and the episode it ends joins the audit trail as it stands, closed at that time. */
  predicate Leads(c: Config, s: W, t: W, call: Call, disk: Disk) {
    if !Counts(c, s, call, disk) then t.clock == s.clock && t.sm == s.sm && t.closed == s.closed
    else
      && t.clock == Some(call.at)
      && Goes(s.sm, t.sm, call.at, if call.Complete? then call.proof else [])
      && t.closed == s.closed +
           if t.episode.openedAt.Some? && !Open(t.sm.state) && (Open(s.sm.state) || t.episode.number > s.episode.number)
           then [Ended(t.episode, if t.sm.state.Blocked? then GaveUp else Resolved, call.at)] else []
  }

  lemma StallsLeads(c: Config, s: W, t: W, call: Call, disk: Disk, reasons: seq<StallSignal>)
    requires Counts(c, s, call, disk) && Stalls(s, t, call.at, reasons) && !call.Complete?
    ensures Leads(c, s, t, call, disk)
  {
    assert s.closed + [] == s.closed;
  }

  lemma RestsLeads(c: Config, s: W, t: W, call: Call, disk: Disk)
    requires Counts(c, s, call, disk) && !call.Complete?
    requires t.sm == s.sm && t.episode == s.episode && t.closed == s.closed && t.clock == Some(call.at)
    ensures Leads(c, s, t, call, disk)
  {
    GoesNowhere(s.sm, call.at, []);
    assert s.closed + [] == s.closed;
  }

  lemma JudgingCallLeads(c: Config, s: W, call: Call, disk: Disk)
    requires Judges(c, s, call)
    ensures Leads(c, s, Step(c, s, call, disk).0, call, disk)
  {
    var t := Step(c, s, call, disk).0;
    if call.RecordActivity? {
      ActivityLeads(c, s, call, disk);
      if s.startedAt.Some? && VerdictOf(c, s, call) != [] {
        StallsLeads(c, s, t, call, disk, VerdictOf(c, s, call));
      } else {
        RestsLeads(c, s, t, call, disk);
      }
    } else {
      EvaluateLeads(c, s, call, disk);
      if Active(s) && s.startedAt.Some? && VerdictOf(c, s, call) != [] {
        StallsLeads(c, s, t, call, disk, VerdictOf(c, s, call));
      } else {
        RestsLeads(c, s, t, call, disk);
      }
    }
  }

  lemma LateIsCommitted(c: Config, s: W, call: Call, disk: Disk)
    requires RefusedTooLate(c, s, call)
    ensures var t := Step(c, s, call, disk).0; t.clock == s.clock && t.sm == s.sm && t.closed == s.closed
  {}

  lemma TimelyPursuitMoves(c: Config, s: W, at: real, reason: string, ok: bool)
    requires s.sm.state.Stalled? && !(Blank(reason) && Admit(c, s).Admitted?)
    ensures !RecoveryFromStall(c, s, at, reason, ok).0.sm.state.Stalled?
  {}

  lemma BeginLeads(c: Config, s: W, call: Call, disk: Disk)
    requires call.BeginRecovery? && Refused(c, s, call).None? && (Open(s.sm.state) ==> s.episode.openedAt.Some?)
    ensures Leads(c, s, Step(c, s, call, disk).0, call, disk)
  {
    if RefusedTooLate(c, s, call) {
      LateIsCommitted(c, s, call, disk);
    } else {
      FromStallPursues(c, s, call.at, call.reason, disk.recovery);
      TimelyPursuitMoves(c, s, call.at, call.reason, disk.recovery);
      assert s.closed + [] == s.closed;
    }
  }

  lemma RecoveredLeads(s: W, at: real, resume: ExecutionState, note: string)
    requires s.sm.state.Recovering? && s.episode.openedAt.Some? && s.episode.attempts != [] && resume in RESUMABLE
    ensures var t := Recovered(Judged(s, Success, at), resume, at, note);
      && Goes(s.sm, t.sm, at, []) && t.sm.state == resume
      && t.closed == s.closed + [Ended(t.episode, Resolved, at)] && t.episode == Judged(s, Success, at).episode
  {
    GoesOneStep(s.sm, resume, at, []);
  }

  lemma FailedLeads(c: Config, s: W, at: real, strategy: Strategy)
    requires s.sm.state.Recovering? && s.episode.openedAt.Some? && s.episode.attempts != []
    ensures var t := FailedBack(c, Judged(s, Failure, at), at, strategy);
      && Goes(s.sm, t.sm, at, []) && (t.sm.state.Stalled? || t.sm.state.Blocked?)
      && t.closed == (if t.sm.state.Blocked? then s.closed + [Ended(t.episode, GaveUp, at)] else s.closed)
      && t.episode == Judged(s, Failure, at).episode
  {
    GoesOneStep(s.sm, Stalled, at, []);
    GoesOneStep(s.sm, Blocked, at, []);
  }

  lemma JudgedKeepsOpening(s: W, result: RecoveryResult, at: real)
    ensures var e := Judged(s, result, at).episode;
      e.number == s.episode.number && e.openedAt == s.episode.openedAt && e.reason == s.episode.reason
  {}

  lemma FinishSame(c: Config, s: W, at: real, ok: bool)
    ensures var t := Finish(c, s, at, ok).0;
      t.clock == Some(at) && t.sm == s.sm && t.closed == s.closed && t.episode == s.episode && t.report == s.report
  {}

  lemma ResultLeads(c: Config, s: W, call: Call, disk: Disk)
    requires call.RecordRecoveryResult? && Refused(c, s, call).None? && s.episode.openedAt.Some?
    ensures Leads(c, s, Step(c, s, call, disk).0, call, disk)
  {
    var strategy := s.episode.attempts[|s.episode.attempts| - 1].strategy;
    ResultIs(c, s, call, strategy);
    PlainFinishes(c, s, call, disk);
    FinishSame(c, Effect(c, s, call), call.at, disk.final);
    assert s.closed + [] == s.closed;
    if call.result.Success? {
      RecoveredLeads(s, call.at, call.resume, NoteOf(call.evidence, strategy));
      JudgedKeepsOpening(s, Success, call.at);
    } else {
      FailedLeads(c, s, call.at, strategy);
      JudgedKeepsOpening(s, Failure, call.at);
    }
  }

  lemma EffectGoes(c: Config, s: W, call: Call)
    requires Plain(call) && !call.RecordRecoveryResult? && Refused(c, s, call).None?
    ensures var t := Effect(c, s, call);
      && Goes(s.sm, t.sm, call.at, if call.Complete? then call.proof else [])
      && t.closed == s.closed && t.episode == s.episode && !Open(s.sm.state) && !Open(t.sm.state)
  {
    GoesNowhere(s.sm, call.at, []);
    if call.Start? { GoesOneStep(s.sm, Running, call.at, []); }
    if call.Advance? { GoesOneStep(s.sm, call.target, call.at, []); }
    if call.Complete? { GoesOneStep(s.sm, ExecutionState.Completed, call.at, call.proof); }
  }

  lemma PlainLeads(c: Config, s: W, call: Call, disk: Disk)
    requires Plain(call) && !call.RecordRecoveryResult? && Refused(c, s, call).None?
    ensures Leads(c, s, Step(c, s, call, disk).0, call, disk)
  {
    assert s.closed + [] == s.closed;
    if call.TakeCheckpoint? && c.persistent && !disk.checkpoint {
      LostCheckpoint(c, s, call, disk);
    } else {
      PlainFinishes(c, s, call, disk);
      EffectGoes(c, s, call);
      FinishSame(c, Effect(c, s, call), call.at, disk.final);
    }
  }

  lemma EscalationLeads(c: Config, s: W, call: Call, disk: Disk)
    requires call.RecordEscalation? && Refused(c, s, call).None?
    ensures Leads(c, s, Step(c, s, call, disk).0, call, disk)
  {
    RestsLeads(c, s, Step(c, s, call, disk).0, call, disk);
  }

  lemma SyncLeads(c: Config, s: W, disk: Disk)
    ensures var t := Step(c, s, SyncHeartbeat, disk).0; t == s.(mirror := t.mirror)
  {}

  lemma RefusalLeads(c: Config, s: W, call: Call, disk: Disk)
    requires Refused(c, s, call).Some?
    ensures Step(c, s, call, disk).0 == s
  {}

  /** What every call does to clock, transition history and audit trail, while an open episode has its opening time. */
  lemma StepLeads(c: Config, s: W, call: Call, disk: Disk)
    requires Open(s.sm.state) ==> s.episode.openedAt.Some?
    ensures Leads(c, s, Step(c, s, call, disk).0, call, disk)
  {
    if Refused(c, s, call).Some? {
      RefusalLeads(c, s, call, disk);
    } else if Judges(c, s, call) {
      JudgingCallLeads(c, s, call, disk);
    } else if call.BeginRecovery? {
      BeginLeads(c, s, call, disk);
    } else if call.RecordRecoveryResult? {
      ResultLeads(c, s, call, disk);
    } else if call.RecordEscalation? {
      EscalationLeads(c, s, call, disk);
    } else if call.SyncHeartbeat? {
      SyncLeads(c, s, disk);
    } else {
      PlainLeads(c, s, call, disk);
    }
  }
}
