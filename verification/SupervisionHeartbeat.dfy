/** What the durable heartbeat shows, field by field, to whoever reads it back. */
module SupervisionHeartbeat {
  import opened Common
  import opened Stall
  import opened Supervision
  import opened SupervisionInvariants
  import opened SupervisionSoundness
  import opened SupervisionMirror
  import opened SupervisionRuns
  import opened SupervisionRecords
  import opened SupervisionLifecycle
  import Heartbeats

  // ---- the evidence of progress is that of the latest -------------------------------------------

  predicate Evidenced(s: W) {
    s.facts.progressEvidence == if s.progress == [] then None else Some(s.progress[|s.progress| - 1].description)
  }

  lemma AddsEvidence(c: Config, s: W, t: W, call: Call, disk: Disk)
    requires Adds(c, s, t, call, disk) && Evidenced(s)
    ensures Evidenced(t)
  {
    ProgressIsOne(c, s, call);
  }

  lemma ProgressIsOne(c: Config, s: W, call: Call)
    ensures |ProgressOf(c, s, call)| <= 1
  {}

  lemma {:induction false} RunIsEvidenced(c: Config, s: W, actions: seq<Action>)
    requires c.Valid() && Evidenced(s)
    ensures Evidenced(Run(c, s, actions))
    decreases |actions|
  {
    if actions != [] {
      var a := actions[0];
      StepRecords(c, s, a.call, a.disk);
      AddsEvidence(c, s, Step(c, s, a.call, a.disk).0, a.call, a.disk);
      RunIsEvidenced(c, Step(c, s, a.call, a.disk).0, actions[1..]);
    }
  }

  lemma ReachedIsEvidenced(c: Config, actions: seq<Action>)
    requires c.Valid()
    ensures Evidenced(Reached(c, actions))
  {
    RunIsEvidenced(c, Init(c), actions);
  }

  // ---- field by field -----------------------------------------------------------------------------

  /** Every field of a heartbeat, read off the state. */
  predicate Shown(c: Config, s: W, hb: Heartbeats.Heartbeat)
    requires s.startedAt.Some?
  {
    && hb.executionId == c.executionId
    && hb.state == s.sm.state
    && hb.currentTask == s.facts.task
    && hb.currentSubtask == None
    && hb.lastRealProgressAt == (if s.progress == [] then s.startedAt.value else s.progress[|s.progress| - 1].at)
    && hb.lastProgressEvidence == (if s.progress == [] then None else Some(s.progress[|s.progress| - 1].description))
    && hb.attemptCount == |s.activities|
    && hb.currentStrategy ==
         (if s.episode.tried == [] then None else Some(StrategyName(s.episode.tried[|s.episode.tried| - 1])))
    && hb.lastError == s.facts.lastError
    && hb.pendingWork == (if s.checkpoints == [] then [] else s.checkpoints[|s.checkpoints| - 1].pending)
  }

  lemma ProjectionShows(c: Config, s: W)
    requires Sound(c, s) && Evidenced(s) && s.startedAt.Some?
    ensures Shown(c, s, Projection(c, s, 0.0))
  {
    if s.progress != [] { LatestIsLast(s.progress); }
  }

  lemma ExactShows(c: Config, s: W)
    requires c.Valid() && Sound(c, s) && Evidenced(s) && MirrorOk(c, s)
    requires c.persistent && s.startedAt.Some? && !s.mirror.dirty
    ensures s.mirror.file.Some? && Heartbeats.Construct(s.mirror.file.value).Ok?
    ensures Shown(c, s, Heartbeats.Construct(s.mirror.file.value).value)
  {
    ExactReadsBack(c, s);
    ProjectionShows(c, s);
  }

  /** In every reachable state, once started with persistence, the record on disk that is not marked stale and does not
      lie reads back as a heartbeat that shows, field by field, the state the execution is in. */
  lemma HeartbeatShowsTheState(c: Config, actions: seq<Action>)
    requires c.Valid() && !Lies(c, Init(c), actions, false)
    requires var s := Reached(c, actions); c.persistent && s.startedAt.Some? && !s.mirror.dirty
    ensures var s := Reached(c, actions);
      && s.mirror.file.Some? && Heartbeats.Construct(s.mirror.file.value).Ok?
      && Shown(c, s, Heartbeats.Construct(s.mirror.file.value).value)
  {
    ReachedIsSound(c, actions);
    ReachedMirrors(c, actions);
    ReachedIsEvidenced(c, actions);
    ExactShows(c, Reached(c, actions));
  }

  lemma WrittenIsClean(c: Config, s: W, at: real, ok: bool)
    requires c.persistent && ok && Projection(c, s, at).Valid()
    ensures !Mirrored(c, s, at, ok).mirror.dirty
  {}

  lemma EffectIsShown(c: Config, s: W, call: Call, disk: Disk)
    requires c.Valid() && Sound(c, s) && MirrorReady(c, s.mirror) && Plain(call) && Refused(c, s, call).None?
    requires c.persistent && disk.final && (call.TakeCheckpoint? ==> disk.checkpoint)
    ensures var t := Step(c, s, call, disk).0; MirrorOk(c, t) && !t.mirror.dirty && t.startedAt.Some? && Sound(c, t)
  {
    var u := Effect(c, s, call);
    SoundEffect(c, s, call);
    EffectLeavesMirror(c, s, call);
    PlainFinishes(c, s, call, disk);
    FinishIsHonest(c, u, call.at, disk.final);
    ProjectionIsValid(c, Touch(u, call.at), call.at);
    WrittenIsClean(c, Touch(u, call.at), call.at, disk.final);
    StepIsSound(c, s, call, disk);
    FinishKeepsWork(c, u, call.at, disk.final);
  }

  /** A checkpoint whose writes succeed leaves a heartbeat that shows its own pending work. */
  lemma CheckpointIsShown(c: Config, actions: seq<Action>, call: Call, disk: Disk)
    requires c.Valid() && c.persistent && disk.checkpoint && disk.final
    requires call.TakeCheckpoint? && Refused(c, Reached(c, actions), call).None?
    ensures var t := Step(c, Reached(c, actions), call, disk).0;
      && t.mirror.file.Some? && Heartbeats.Construct(t.mirror.file.value).Ok?
      && Heartbeats.Construct(t.mirror.file.value).value.pendingWork == call.pending
      && !t.mirror.dirty
  {
    var s := Reached(c, actions);
    var t := Step(c, s, call, disk).0;
    ReachedIsSound(c, actions);
    ReachedMirrors(c, actions);
    ReachedIsEvidenced(c, actions);
    EffectIsShown(c, s, call, disk);
    StepRecords(c, s, call, disk);
    AddsEvidence(c, s, t, call, disk);
    ExactShows(c, t);
  }
}
