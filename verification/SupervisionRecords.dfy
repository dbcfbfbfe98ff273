/** What each call leaves on record: every list, fact and figure read off the arguments of the calls that were
    accepted, and nothing else. */
module SupervisionRecords {
  import opened Common
  import opened StateMachine
  import opened Stall
  import opened Recovery
  import opened Checkpoints
  import opened Supervision
  import opened SupervisionMoves

  // ---- what one call adds ---------------------------------------------------------------------

  /** The activity an accepted record_activity describes. */
  function ActivityOf(c: Config, s: W, call: Call): seq<Activity> {
    if call.RecordActivity? && Refused(c, s, call).None?
    then [Activity(call.at, call.fingerprint, call.succeeded, call.trivial, call.duration, call.error)] else []
  }

  /** The progress an accepted record_progress, or a recovery that succeeds, reports. */
  function ProgressOf(c: Config, s: W, call: Call): seq<ProgressEvent> {
    if Refused(c, s, call).Some? then []
    else if call.RecordProgress? then [ProgressEvent(call.description, call.at)]
    else if call.RecordRecoveryResult? && call.result.Success? then
      var strategy := s.episode.attempts[|s.episode.attempts| - 1].strategy;
      [ProgressEvent(if call.evidence.Some? then call.evidence.value else "recovered via " + StrategyName(strategy), call.at)]
    else []
  }

  /** The checkpoint an accepted checkpoint call describes, unless the durable append of it fails. */
  function CheckpointOf(c: Config, s: W, call: Call, disk: Disk): seq<Checkpoint> {
    if call.TakeCheckpoint? && Refused(c, s, call).None? && (c.persistent ==> disk.checkpoint)
    then [Checkpoint(c.executionId, call.phase, call.completed, call.pending, call.lastGood, call.at)] else []
  }

  predicate SameWork(s: W, t: W) {
    && t.activities == s.activities && t.progress == s.progress && t.checkpoints == s.checkpoints
    && t.startedAt == s.startedAt && t.facts.task == s.facts.task && t.facts.progressEvidence == s.facts.progressEvidence
  }

  lemma MoveKeepsWork(c: Config, s: W, m: Move)
    requires CanMove(c, s, m) && !m.Act? && !m.Note?
    ensures SameWork(s, After(c, s, m))
  {}

  lemma WorkByMoves(c: Config, s: W, call: Call)
    requires !Plain(call) && !call.RecordActivity?
    ensures KeptBy(c, call, u => SameWork(s, u))
  {
    forall u: W, m: Move | SameWork(s, u) && PartOf(m, call) && CanMove(c, u, m) ensures SameWork(s, After(c, u, m)) {
      MoveKeepsWork(c, u, m);
    }
  }

  lemma ReportKeepsWork(c: Config, noted: W, at: real, disk: Disk)
    requires c.Valid() && !Untimely(noted, at)
    ensures SameWork(noted, Reported(c, noted, at, disk).0)
  {
    WorkByMoves(c, noted, Evaluate(at));
    JudgingByMoves(c, noted, at, disk, Evaluate(at), u => SameWork(noted, u));
  }

  lemma NotedWork(s: W, a: Activity)
    ensures var t := Touch(Noted(s, a), a.at);
      t.activities == s.activities + [a] && SameWork(s, t.(activities := s.activities))
  {}

  lemma ActivityWork(c: Config, s: W, call: Call, disk: Disk)
    requires c.Valid() && call.RecordActivity? && Refused(c, s, call).None?
    ensures var t := Step(c, s, call, disk).0;
      t.activities == s.activities + ActivityOf(c, s, call) && SameWork(s, t.(activities := s.activities))
  {
    var a := Activity(call.at, call.fingerprint, call.succeeded, call.trivial, call.duration, call.error);
    NotedWork(s, a);
    ReportKeepsWork(c, Touch(Noted(s, a), call.at), call.at, disk);
  }

  lemma FinishKeepsWork(c: Config, s: W, at: real, ok: bool)
    ensures SameWork(s, Finish(c, s, at, ok).0)
  {}

  lemma RecoveredWork(s: W, resume: ExecutionState, at: real, note: string)
    ensures var t := Recovered(Judged(s, Success, at), resume, at, note);
      && t.progress == s.progress + [ProgressEvent(note, at)] && t.facts.progressEvidence == Some(note)
      && SameWork(s, t.(progress := s.progress, facts := t.facts.(progressEvidence := s.facts.progressEvidence)))
  {}

  lemma FailedWork(c: Config, s: W, at: real, strategy: Strategy)
    ensures SameWork(s, FailedBack(c, Judged(s, Failure, at), at, strategy))
  {}

  lemma NoteIs(evidence: Option<string>, strategy: Strategy)
    ensures NoteOf(evidence, strategy) == if evidence.Some? then evidence.value else "recovered via " + StrategyName(strategy)
  {}

  /** What the change of a plain call adds. */
  predicate Adds(c: Config, s: W, t: W, call: Call, disk: Disk) {
    && t.activities == s.activities + ActivityOf(c, s, call)
    && t.progress == s.progress + ProgressOf(c, s, call)
    && t.checkpoints == s.checkpoints + CheckpointOf(c, s, call, disk)
    && t.facts.progressEvidence ==
         (if ProgressOf(c, s, call) != [] then Some(ProgressOf(c, s, call)[0].description) else s.facts.progressEvidence)
    && (if call.Start? && Refused(c, s, call).None? then t.startedAt == Some(call.at) && t.facts.task == call.task
        else t.startedAt == s.startedAt && t.facts.task == s.facts.task)
  }

  lemma SameWorkAdds(c: Config, s: W, t: W, call: Call, disk: Disk)
    requires SameWork(s, t) && !call.Start?
    requires ActivityOf(c, s, call) == [] && ProgressOf(c, s, call) == [] && CheckpointOf(c, s, call, disk) == []
    ensures Adds(c, s, t, call, disk)
  {}

  lemma SucceededAdds(c: Config, s: W, t: W, call: Call, disk: Disk, note: string)
    requires call.RecordRecoveryResult? && Refused(c, s, call).None? && ProgressOf(c, s, call) == [ProgressEvent(note, call.at)]
    requires t.progress == s.progress + [ProgressEvent(note, call.at)] && t.facts.progressEvidence == Some(note)
    requires SameWork(s, t.(progress := s.progress, facts := t.facts.(progressEvidence := s.facts.progressEvidence)))
    ensures Adds(c, s, t, call, disk)
  {}

  lemma ResultIs(c: Config, s: W, call: Call, strategy: Strategy)
    requires call.RecordRecoveryResult? && Refused(c, s, call).None?
    requires s.episode.attempts != [] && strategy == s.episode.attempts[|s.episode.attempts| - 1].strategy
    ensures Effect(c, s, call) ==
      if call.result.Success? then Recovered(Judged(s, Success, call.at), call.resume, call.at, NoteOf(call.evidence, strategy))
      else FailedBack(c, Judged(s, Failure, call.at), call.at, strategy)
  {}

  lemma ResultAdds(c: Config, s: W, call: Call, disk: Disk)
    requires call.RecordRecoveryResult? && Refused(c, s, call).None?
    ensures Adds(c, s, Effect(c, s, call), call, disk)
  {
    var strategy := s.episode.attempts[|s.episode.attempts| - 1].strategy;
    ResultIs(c, s, call, strategy);
    if call.result.Success? {
      var note := NoteOf(call.evidence, strategy);
      NoteIs(call.evidence, strategy);
      RecoveredWork(s, call.resume, call.at, note);
      SucceededAdds(c, s, Effect(c, s, call), call, disk, note);
    } else {
      FailedWork(c, s, call.at, strategy);
      SameWorkAdds(c, s, Effect(c, s, call), call, disk);
    }
  }

  lemma EffectAdds(c: Config, s: W, call: Call, disk: Disk)
    requires Plain(call) && Refused(c, s, call).None? && (call.TakeCheckpoint? && c.persistent ==> disk.checkpoint)
    ensures Adds(c, s, Effect(c, s, call), call, disk)
  {
    if call.RecordRecoveryResult? { ResultAdds(c, s, call, disk); }
  }

  lemma LostCheckpoint(c: Config, s: W, call: Call, disk: Disk)
    requires call.TakeCheckpoint? && c.persistent && !disk.checkpoint
    ensures Step(c, s, call, disk).0 == s
  {}

  lemma PlainFinishes(c: Config, s: W, call: Call, disk: Disk)
    requires Plain(call) && Refused(c, s, call).None? && (call.TakeCheckpoint? && c.persistent ==> disk.checkpoint)
    ensures Step(c, s, call, disk) == Finish(c, Effect(c, s, call), call.at, disk.final)
  {}

  lemma AddsIsKept(c: Config, s: W, t: W, u: W, call: Call, disk: Disk)
    requires Adds(c, s, t, call, disk) && SameWork(t, u)
    ensures Adds(c, s, u, call, disk)
  {}

  lemma PlainAdds(c: Config, s: W, call: Call, disk: Disk)
    requires Plain(call) && Refused(c, s, call).None?
    ensures Adds(c, s, Step(c, s, call, disk).0, call, disk)
  {
    if call.TakeCheckpoint? && c.persistent && !disk.checkpoint {
      LostCheckpoint(c, s, call, disk);
      SameWorkAdds(c, s, s, call, disk);
    } else {
      PlainFinishes(c, s, call, disk);
      EffectAdds(c, s, call, disk);
      FinishKeepsWork(c, Effect(c, s, call), call.at, disk.final);
      AddsIsKept(c, s, Effect(c, s, call), Step(c, s, call, disk).0, call, disk);
    }
  }

  /** Every call adds to the records exactly what its arguments say, and only when it is accepted. */
  lemma StepRecords(c: Config, s: W, call: Call, disk: Disk)
    requires c.Valid()
    ensures Adds(c, s, Step(c, s, call, disk).0, call, disk)
  {
    if Refused(c, s, call).None? {
      if Plain(call) {
        PlainAdds(c, s, call, disk);
      } else if call.RecordActivity? {
        ActivityWork(c, s, call, disk);
      } else {
        WorkByMoves(c, s, call);
        StepByMoves(c, s, call, disk, u => SameWork(s, u));
        SameWorkAdds(c, s, Step(c, s, call, disk).0, call, disk);
      }
    }
  }

  // ---- whole runs --------------------------------------------------------------------------------

  function ActivitiesOf(c: Config, s: W, actions: seq<Action>): seq<Activity>
    decreases |actions|
  {
    if actions == [] then []
    else
      var a := actions[0];
      ActivityOf(c, s, a.call) + ActivitiesOf(c, Step(c, s, a.call, a.disk).0, actions[1..])
  }

  function ProgressesOf(c: Config, s: W, actions: seq<Action>): seq<ProgressEvent>
    decreases |actions|
  {
    if actions == [] then []
    else
      var a := actions[0];
      ProgressOf(c, s, a.call) + ProgressesOf(c, Step(c, s, a.call, a.disk).0, actions[1..])
  }

  function CheckpointsOf(c: Config, s: W, actions: seq<Action>): seq<Checkpoint>
    decreases |actions|
  {
    if actions == [] then []
    else
      var a := actions[0];
      CheckpointOf(c, s, a.call, a.disk) + CheckpointsOf(c, Step(c, s, a.call, a.disk).0, actions[1..])
  }

  lemma Associate<T>(a: seq<T>, b: seq<T>, d: seq<T>)
    ensures a + b + d == a + (b + d)
  {}

  lemma AddedLists(c: Config, s: W, t: W, call: Call, disk: Disk)
    requires Adds(c, s, t, call, disk)
    ensures t.activities == s.activities + ActivityOf(c, s, call)
    ensures t.progress == s.progress + ProgressOf(c, s, call)
    ensures t.checkpoints == s.checkpoints + CheckpointOf(c, s, call, disk)
  {}

  /** Over any run, the activities on record are those the accepted calls described, argument by argument and in
      order; and so are the progress events and the checkpoints. */
  lemma {:induction false} RunRecords(c: Config, s: W, actions: seq<Action>)
    requires c.Valid()
    ensures Run(c, s, actions).activities == s.activities + ActivitiesOf(c, s, actions)
    ensures Run(c, s, actions).progress == s.progress + ProgressesOf(c, s, actions)
    ensures Run(c, s, actions).checkpoints == s.checkpoints + CheckpointsOf(c, s, actions)
    decreases |actions|
  {
    if actions == [] {
      assert s.activities + [] == s.activities && s.progress + [] == s.progress && s.checkpoints + [] == s.checkpoints;
    } else {
      var a := actions[0];
      var t := Step(c, s, a.call, a.disk).0;
      StepRecords(c, s, a.call, a.disk);
      AddedLists(c, s, t, a.call, a.disk);
      RunRecords(c, t, actions[1..]);
      Associate(s.activities, ActivityOf(c, s, a.call), ActivitiesOf(c, t, actions[1..]));
      Associate(s.progress, ProgressOf(c, s, a.call), ProgressesOf(c, t, actions[1..]));
      Associate(s.checkpoints, CheckpointOf(c, s, a.call, a.disk), CheckpointsOf(c, t, actions[1..]));
    }
  }

  // ---- the last error --------------------------------------------------------------------------------

  /** The last error after a call, told being the one before: the cause if it blocked, else the stall it opened, else
      the error of an activity it recorded, else what it was. */
  function ErrorAfter(c: Config, s: W, t: W, call: Call, told: Option<string>): Option<string> {
    if t.sm.state.Blocked? && !s.sm.state.Blocked? && t.report.Some? then Some(BlockerText(t.report.value.blocker))
    else if t.episode.number > s.episode.number then Some(StallText(t.episode.reason))
    else if call.RecordActivity? && Refused(c, s, call).None? && call.error.Some? then call.error
    else told
  }

  /** The same inside a call, where error is what was last told before judging. */
  predicate ErrorIs(u: W, wasBlocked: bool, number: nat, error: Option<string>) {
    && (u.sm.state.Blocked? && !wasBlocked ==> u.report.Some?)
    && u.facts.lastError ==
      if u.sm.state.Blocked? && !wasBlocked && u.report.Some? then Some(BlockerText(u.report.value.blocker))
      else if u.episode.number > number then Some(StallText(u.episode.reason))
      else error
  }

  predicate ErrorKept(u: W, wasBlocked: bool, number: nat, error: Option<string>) {
    ErrorIs(u, wasBlocked, number, error) && u.episode.number >= number && (wasBlocked ==> u.sm.state.Blocked?)
  }

  lemma StallKeepsError(s: W, at: real, reasons: seq<StallSignal>, wasBlocked: bool, number: nat, error: Option<string>)
    requires ErrorKept(s, wasBlocked, number, error) && Active(s)
    ensures ErrorKept(StallOpened(s, at, reasons), wasBlocked, number, error)
  {}

  lemma GivingUpKeepsError(s: W, at: real, blocker: Blocker, wasBlocked: bool, number: nat, error: Option<string>)
    requires ErrorKept(s, wasBlocked, number, error) && s.sm.state.Stalled?
    ensures ErrorKept(GivenUp(s, at, blocker), wasBlocked, number, error)
  {}

  predicate TellsNothing(s: W, u: W) {
    && u.facts == s.facts && u.report == s.report && u.episode.number == s.episode.number
    && u.episode.reason == s.episode.reason && (u.sm.state.Blocked? <==> s.sm.state.Blocked?)
  }

  lemma OtherMovesTellNothing(c: Config, s: W, m: Move)
    requires CanMove(c, s, m) && !m.Act? && !m.Note? && !m.Stall? && !m.GiveUp?
    ensures TellsNothing(s, After(c, s, m))
  {}

  lemma NothingKeepsError(s: W, u: W, wasBlocked: bool, number: nat, error: Option<string>)
    requires ErrorKept(s, wasBlocked, number, error) && TellsNothing(s, u)
    ensures ErrorKept(u, wasBlocked, number, error)
  {}

  lemma MoveKeepsError(c: Config, s: W, m: Move, wasBlocked: bool, number: nat, error: Option<string>)
    requires CanMove(c, s, m) && !m.Act? && !m.Note? && ErrorKept(s, wasBlocked, number, error)
    ensures ErrorKept(After(c, s, m), wasBlocked, number, error)
  {
    if m.Stall? {
      StallKeepsError(s, m.at, m.reasons, wasBlocked, number, error);
    } else if m.GiveUp? {
      GivingUpKeepsError(s, m.at, m.blocker, wasBlocked, number, error);
    } else {
      OtherMovesTellNothing(c, s, m);
      NothingKeepsError(s, After(c, s, m), wasBlocked, number, error);
    }
  }

  lemma ErrorByMoves(c: Config, call: Call, wasBlocked: bool, number: nat, error: Option<string>)
    requires !Plain(call) && !call.RecordActivity?
    ensures KeptBy(c, call, u => ErrorKept(u, wasBlocked, number, error))
  {
    forall u: W, m: Move | ErrorKept(u, wasBlocked, number, error) && PartOf(m, call) && CanMove(c, u, m)
      ensures ErrorKept(After(c, u, m), wasBlocked, number, error)
    {
      MoveKeepsError(c, u, m, wasBlocked, number, error);
    }
  }

  lemma ReportKeepsError(c: Config, noted: W, at: real, disk: Disk)
    requires c.Valid() && !Untimely(noted, at) && !noted.sm.state.Blocked?
    ensures ErrorIs(Reported(c, noted, at, disk).0, false, noted.episode.number, noted.facts.lastError)
  {
    ErrorByMoves(c, Evaluate(at), false, noted.episode.number, noted.facts.lastError);
    JudgingByMoves(c, noted, at, disk, Evaluate(at),
                   u => ErrorKept(u, false, noted.episode.number, noted.facts.lastError));
  }

  lemma NotedError(s: W, a: Activity)
    ensures var t := Touch(Noted(s, a), a.at);
      && t.facts.lastError == (if a.error.Some? then a.error else s.facts.lastError)
      && t.episode == s.episode && t.sm == s.sm && t.report == s.report
  {}

  lemma ActivityError(c: Config, s: W, call: Call, disk: Disk)
    requires c.Valid() && call.RecordActivity? && Refused(c, s, call).None?
    ensures var t := Step(c, s, call, disk).0; t.facts.lastError == ErrorAfter(c, s, t, call, s.facts.lastError)
  {
    var a := Activity(call.at, call.fingerprint, call.succeeded, call.trivial, call.duration, call.error);
    NotedError(s, a);
    ReportKeepsError(c, Touch(Noted(s, a), call.at), call.at, disk);
  }

  lemma ConcludedError(c: Config, s: W, at: real, result: RecoveryResult, resume: ExecutionState, evidence: Option<string>)
    requires s.episode.attempts != [] && s.sm.state.Recovering? && (result.Success? ==> resume in RESUMABLE)
    ensures var t := Concluded(c, s, at, result, resume, evidence);
      && t.episode.number == s.episode.number
      && (t.sm.state.Blocked? ==> t.report.Some?)
      && t.facts.lastError == if t.sm.state.Blocked? then Some(BlockerText(t.report.value.blocker)) else s.facts.lastError
  {}

  lemma EffectError(c: Config, s: W, call: Call)
    requires Plain(call) && Refused(c, s, call).None?
    ensures var t := Effect(c, s, call); t.facts.lastError == ErrorAfter(c, s, t, call, s.facts.lastError)
  {
    if call.RecordRecoveryResult? { ConcludedError(c, s, call.at, call.result, call.resume, call.evidence); }
  }

  lemma FinishKeepsError(c: Config, s: W, t: W, call: Call, at: real, ok: bool)
    requires t.facts.lastError == ErrorAfter(c, s, t, call, s.facts.lastError)
    ensures var u := Finish(c, t, at, ok).0; u.facts.lastError == ErrorAfter(c, s, u, call, s.facts.lastError)
  {}

  /** Every call leaves as last error exactly what it last gave as one. */
  lemma StepTellsError(c: Config, s: W, call: Call, disk: Disk)
    requires c.Valid()
    ensures var t := Step(c, s, call, disk).0; t.facts.lastError == ErrorAfter(c, s, t, call, s.facts.lastError)
  {
    if Refused(c, s, call).None? {
      if Plain(call) {
        if call.TakeCheckpoint? && c.persistent && !disk.checkpoint {
          LostCheckpoint(c, s, call, disk);
        } else {
          PlainFinishes(c, s, call, disk);
          EffectError(c, s, call);
          FinishKeepsError(c, s, Effect(c, s, call), call, call.at, disk.final);
        }
      } else if call.RecordActivity? {
        ActivityError(c, s, call, disk);
      } else {
        SpecialError(c, s, call, disk);
      }
    }
  }

  lemma SpecialError(c: Config, s: W, call: Call, disk: Disk)
    requires c.Valid() && !Plain(call) && !call.RecordActivity?
    ensures var t := Step(c, s, call, disk).0; t.facts.lastError == ErrorAfter(c, s, t, call, s.facts.lastError)
  {
    var wasBlocked, number, error := s.sm.state.Blocked?, s.episode.number, s.facts.lastError;
    ErrorByMoves(c, call, wasBlocked, number, error);
    StepByMoves(c, s, call, disk, u => ErrorKept(u, wasBlocked, number, error));
  }

  /** The last error of a run, from what its calls told, told being the one before it. */
  function ErrorOf(c: Config, s: W, actions: seq<Action>, told: Option<string>): Option<string>
    decreases |actions|
  {
    if actions == [] then told
    else
      var t := Step(c, s, actions[0].call, actions[0].disk).0;
      ErrorOf(c, t, actions[1..], ErrorAfter(c, s, t, actions[0].call, told))
  }

  /** Over any run, the last error is the last of what the accepted activities, the stalls and the block told. */
  lemma {:induction false} RunTellsError(c: Config, s: W, actions: seq<Action>)
    requires c.Valid()
    ensures Run(c, s, actions).facts.lastError == ErrorOf(c, s, actions, s.facts.lastError)
    decreases |actions|
  {
    if actions != [] {
      StepTellsError(c, s, actions[0].call, actions[0].disk);
      RunTellsError(c, Step(c, s, actions[0].call, actions[0].disk).0, actions[1..]);
    }
  }
}
