/** The supervisor itself (watchdog/coordinator.py): one object whose calls update its fields and its parts
    in place, each proved to have exactly the effect of the corresponding step. */
module Coordinator {
  import opened Common
  import opened Policies
  import opened StateMachine
  import opened Stall
  import opened Recovery
  import opened Budget
  import opened Routing
  import opened Escalation
  import opened Checkpoints
  import opened Supervision
  import opened SupervisionInvariants
  import opened SupervisionSoundness
  import opened SupervisionRuns
  import opened SupervisionGrowth
  import opened SupervisionTheorems
  import opened SupervisionLifecycle
  import opened Planning
  import Heartbeats
  import Json

  /** What the checkpoint files hold after an append that was or was not made. */
  function Durable(files: Files, cp: Checkpoint, appended: bool): Files {
    if appended then Appended(files, cp) else files
  }

  /** The checkpoint files of an execution that found some files and has taken some checkpoints. */
  function Archive(c: Config, found: Files, checkpoints: seq<Checkpoint>): Files {
    if c.persistent then AppendedAll(found, checkpoints) else found
  }

  lemma ArchiveGrows(c: Config, found: Files, checkpoints: seq<Checkpoint>, cp: Checkpoint)
    ensures Durable(Archive(c, found, checkpoints), cp, c.persistent) == Archive(c, found, checkpoints + [cp])
  {
    assert (checkpoints + [cp])[..|checkpoints|] == checkpoints;
  }

  class ExecutionWatchdog {
    const config: Config
    // The checkpoint files that were there at construction.
    ghost const found: Files

    const sm: ExecutionStateMachine
    const progress: ProgressTracker
    const detector: StallDetector
    const engine: RecoveryEngine
    const guard: LoopGuard
    const budget: ExecutionBudgetLedger
    const writer: Heartbeats.HeartbeatWriter
    const store: CheckpointStore

    var tier: ModelTier
    var reasoning: ReasoningEffort
    var escalationsUsed: nat
    var activities: seq<Activity>
    var checkpoints: seq<Checkpoint>
    // Number, opening, reason, attempts and strategies of the current episode: reset whenever a fresh stall begins.
    var episode: Episode
    // The audit trail of every closed episode: never cleared.
    var recoveryHistory: seq<RecoveryEpisode>
    var blockedReport: Option<BlockedReport>
    var startedAt: Option<real>
    var lastObservedAt: Option<real>
    // What the heartbeat tells about the work: current task, last progress evidence, last error.
    var facts: Facts
    var heartbeatDirty: bool
    var lastHeartbeatAt: Option<real>
    ghost var trace: seq<Action>

    function Abs(): W
      reads this, sm, progress, guard, budget, writer
    {
      W(sm.Contents(), progress.events, guard.Contents(), budget.Contents(), activities, checkpoints,
        episode, recoveryHistory, blockedReport, startedAt, lastObservedAt, facts, tier, reasoning, escalationsUsed,
        Mirror(heartbeatDirty, lastHeartbeatAt, writer.file))
    }

    /** The parts agree on the policy, and the ledger is in order. */
    ghost predicate Wired()
      reads this, budget
    {
      && config.Valid()
      && detector.policy == engine.policy == guard.policy == config.policy.watchdog
      && budget.Valid()
    }

    /** The state is the one that the calls made so far lead to: everything proved of runs holds of it. With
        persistence, the checkpoint files are what appending the checkpoints in memory, one by one, makes of those
        found at construction. */
    ghost predicate Valid()
      reads this, sm, progress, guard, budget, writer, store
    {
      Wired() && Abs() == Reached(config, trace) && store.files == Archive(config, found, checkpoints)
    }

    constructor (config: Config, found: Files)
      requires config.Valid()
      ensures this.config == config && this.found == found
      ensures Valid() && trace == [] && Abs() == Init(config) && store.files == found
      ensures fresh(sm) && fresh(progress) && fresh(guard) && fresh(budget) && fresh(writer) && fresh(store)
    {
      this.config := config;
      this.found := found;
      sm := new ExecutionStateMachine();
      progress := new ProgressTracker();
      detector := new StallDetector(config.policy.watchdog);
      engine := new RecoveryEngine(config.policy.watchdog);
      guard := new LoopGuard(config.policy.watchdog);
      budget := new ExecutionBudgetLedger(config.policy.budget.maxTokens, config.policy.budget.maxCost);
      writer := new Heartbeats.HeartbeatWriter(config.found);
      store := new CheckpointStore(found);
      tier, reasoning, escalationsUsed := config.initialTier, config.initialReasoning, 0;
      activities, checkpoints, episode := [], [], Episode(0, None, [], [], []);
      recoveryHistory, blockedReport, startedAt, lastObservedAt := [], None, None, None;
      facts := Facts("", None, None);
      heartbeatDirty, lastHeartbeatAt := false, None;
      trace := [];
    }

    /** Supervision of a concrete plan: its whole estimate is charged by start. */
    static method ForPlan(executionId: string, plan: ExecutionPlan, policy: Policy, persistent: bool,
                          record: Option<Json.Json>, found: Files) returns (watchdog: ExecutionWatchdog)
      requires FromPlan(executionId, plan, policy, persistent, record).Valid()
      ensures fresh(watchdog) && watchdog.config == FromPlan(executionId, plan, policy, persistent, record)
      ensures watchdog.config.planned == Some(Charge(plan.contextTokens * AgentCount(plan.strategy.agents), plan.cost))
      ensures watchdog.config.contextTokens == plan.contextTokens
      ensures watchdog.config.initialTier == plan.primary.tier && watchdog.config.initialReasoning == plan.primary.reasoning
      ensures watchdog.Valid() && watchdog.trace == [] && watchdog.store.files == found
    {
      watchdog := new ExecutionWatchdog(FromPlan(executionId, plan, policy, persistent, record), found);
    }

    // ---- parts of several calls ---------------------------------------------------------------

    predicate IsUntimely(at: real)
      reads this
    {
      at < 0.0 || (lastObservedAt.Some? && at < lastObservedAt.value)
    }

    predicate IsActive()
      reads sm
    {
      sm.state in ACTIVE
    }

    method BuildHeartbeat(at: real) returns (heartbeat: Heartbeats.Heartbeat)
      ensures heartbeat == Projection(config, Abs(), at)
    {
      var latest := progress.LastProgressAt();
      heartbeat := Heartbeats.Heartbeat(
        config.executionId, sm.state, facts.task, None,
        if latest.Some? then latest.value else if startedAt.Some? then startedAt.value else at,
        facts.progressEvidence, |activities|,
        if episode.tried != [] then Some(StrategyName(episode.tried[|episode.tried| - 1])) else None,
        facts.lastError,
        if checkpoints != [] then checkpoints[|checkpoints| - 1].pending else []);
    }

    /** Mirrors the state after it has changed; a failure is reported and leaves the mirror marked stale. */
    method WriteHeartbeat(at: real, ok: bool) returns (reply: Reply)
      modifies this`heartbeatDirty, this`lastHeartbeatAt, writer
      ensures Abs() == Mirrored(config, old(Abs()), at, ok)
      ensures reply == MirrorReply(config, old(Abs()), at, ok)
    {
      if !config.persistent {
        return Done;
      }
      lastHeartbeatAt := Some(at);
      heartbeatDirty := true;
      var heartbeat := BuildHeartbeat(at);
      if !heartbeat.Valid() {
        return WriteFailed;
      }
      var written := writer.Write(heartbeat, ok);
      if !written {
        return WriteFailed;
      }
      heartbeatDirty := false;
      reply := Done;
    }

    /** Commits the clock and mirrors: how most calls end. */
    method Conclude(at: real, ok: bool) returns (reply: Reply)
      modifies this`lastObservedAt, this`heartbeatDirty, this`lastHeartbeatAt, writer
      ensures (Abs(), reply) == Finish(config, old(Abs()), at, ok)
    {
      lastObservedAt := Some(at);
      reply := WriteHeartbeat(at, ok);
    }

    method CloseRecoveryEpisode(outcome: EpisodeOutcome, at: real)
      modifies this`recoveryHistory
      ensures Abs() == old(Abs()).(closed := Closed(old(Abs()), outcome, at))
    {
      if episode.openedAt.None? {
        return;
      }
      recoveryHistory := recoveryHistory +
        [RecoveryEpisode(episode.number, episode.reason, episode.attempts, outcome, episode.openedAt.value, at)];
    }

    /** Notes why the execution is in trouble, and when. */
    method Note(text: string, at: real)
      modifies this`facts, this`lastObservedAt
      ensures Abs() == old(Abs()).(facts := old(Abs()).facts.(lastError := Some(text)), clock := Some(at))
    {
      facts := facts.(lastError := Some(text));
      lastObservedAt := Some(at);
    }

    /** The only way to Blocked. */
    method TransitionToBlocked(at: real, blocker: Blocker)
      requires Refusal(sm.Contents(), Blocked, at, []).None?
      modifies this`blockedReport, this`recoveryHistory, this`facts, this`lastObservedAt, sm
      ensures Abs() == BlockedBy(old(Abs()), at, blocker)
    {
      var last := if checkpoints == [] then None else Some(checkpoints[|checkpoints| - 1]);
      blockedReport := Some(BlockedReport(blocker, last, |episode.attempts|, episode.tried));
      CloseRecoveryEpisode(GaveUp, at);
      var refusal := sm.Transition(Blocked, at, []);
      Note(BlockerText(blocker), at);
    }

    /** Stalled to Blocked, through Recovering. */
    method GiveUp(at: real, blocker: Blocker, ok: bool) returns (reply: Reply)
      requires sm.state.Stalled? && Refusal(sm.Contents(), Recovering, at, []).None?
      modifies this, sm, writer
      ensures trace == old(trace)
      ensures (Abs(), reply) == Finish(config, GivenUp(old(Abs()), at, blocker), at, ok)
    {
      var refusal := sm.Transition(Recovering, at, []);
      TransitionToBlocked(at, blocker);
      reply := WriteHeartbeat(at, ok);
    }

    /** Reserves and commits in one go; a refusal charges nothing. */
    method ChargeBudget(kind: ReservationKind, tokens: int, cost: real) returns (refusal: Option<Error>)
      requires Wired()
      modifies budget
      ensures Wired()
      ensures match ChargeLedger(old(budget.Contents()), kind, tokens, cost)
        case Ok(charged) => refusal.None? && budget.Contents() == charged
        case Err(e) => refusal == Some(e) && budget.Contents() == old(budget.Contents())
    {
      var reservation := budget.ReserveFor(kind, tokens, cost);
      if reservation.Err? {
        return Some(reservation.error);
      }
      var committed := budget.CommitReservation(reservation.value);
      refusal := None;
    }

    /** Decides, before anything is counted, whether one more attempt may begin, and charges it if so. */
    method Admit() returns (admission: Admission)
      requires Wired()
      modifies budget
      ensures Wired()
      ensures admission == Supervision.Admit(config, old(Abs()))
      ensures Abs() == if admission.Admitted? then old(Abs()).(ledger := admission.ledger) else old(Abs())
    {
      var exceeded, bounds := guard.Exceeded();
      if exceeded {
        return Denied(GuardExceeded(bounds));
      }
      if !guard.CanStartRecoveryAttempt() {
        return Denied(EpisodeBoundReached);
      }
      var chosen := engine.ChooseStrategy(episode.tried, |episode.attempts| + 1);
      if chosen.Err? {
        return Denied(NoStrategyLeft);
      }
      var refusal := ChargeBudget(RecoveryCharge, config.contextTokens, EstimateCost(tier, config.contextTokens));
      admission := if refusal.Some? then Denied(RecoveryBudgetExhausted) else Admitted(chosen.value, budget.Contents());
    }

    /** Everything a stall leads to: one more attempt, or the end. A blank reason is noticed only once the
        attempt has been charged and counted and its strategy used up. */
    method Pursue(at: real, reason: string, ok: bool) returns (reply: Reply)
      requires Wired() && sm.state.Stalled? && Refusal(sm.Contents(), Recovering, at, []).None?
      modifies this, sm, guard, budget, writer
      ensures Wired() && trace == old(trace)
      ensures (Abs(), reply) == RecoveryFromStall(config, old(Abs()), at, reason, ok)
    {
      var admission := Admit();
      match admission {
        case Denied(blocker) => reply := GiveUp(at, blocker, ok);
        case Admitted(strategy, _) => reply := BeginAttempt(at, reason, strategy, ok);
      }
    }

    method BeginAttempt(at: real, reason: string, strategy: Strategy, ok: bool) returns (reply: Reply)
      requires sm.state.Stalled? && Refusal(sm.Contents(), Recovering, at, []).None?
      modifies this, sm, guard, writer
      ensures trace == old(trace)
      ensures var counted := old(Abs()).(
          guard := old(Abs()).guard.(recoveryAttempts := old(Abs()).guard.recoveryAttempts + 1),
          episode := old(Abs()).episode.(tried := old(Abs()).episode.tried + [strategy]));
        (Abs(), reply) == if Blank(reason) then (counted, Rejected(InvalidObservation))
                          else Finish(config, Attempting(counted, at, reason, strategy), at, ok)
    {
      guard.RecordRecoveryAttemptStarted();
      episode := episode.(tried := episode.tried + [strategy]);
      if Blank(reason) {
        return Rejected(InvalidObservation);
      }
      var attempt := RecoveryAttempt(reason, strategy, |episode.attempts| + 1, Pending, at);
      episode := episode.(attempts := episode.attempts + [attempt]);
      var refusal := sm.Transition(Recovering, at, []);
      reply := Conclude(at, ok);
    }

    method OpenNewRecoveryEpisode(at: real, reasons: seq<StallSignal>)
      modifies this`episode, guard
      ensures Abs() == old(Abs()).(guard := old(Abs()).guard.(recoveryAttempts := 0),
                                   episode := Episode(old(Abs()).episode.number + 1, Some(at), reasons, [], []))
    {
      episode := Episode(episode.number + 1, Some(at), reasons, [], []);
      guard.StartNewRecoveryEpisode();
    }

    /** A fresh stall always opens a new episode. */
    method OpenStall(at: real, reasons: seq<StallSignal>)
      requires Refusal(sm.Contents(), Stalled, at, []).None?
      modifies this, sm, guard
      ensures trace == old(trace)
      ensures Abs() == StallOpened(old(Abs()), at, reasons)
    {
      Note(StallText(reasons), at);
      guard.RecordNoProgressCycle();
      var refusal := sm.Transition(Stalled, at, []);
      OpenNewRecoveryEpisode(at, reasons);
    }

    method DetectStall(at: real) returns (reasons: seq<StallSignal>)
      requires Wired() && startedAt.Some?
      ensures reasons == VerdictAt(config, Abs(), at)
    {
      var latest := progress.LastProgressAt();
      reasons := detector.Evaluate(at, startedAt.value, latest, activities);
    }

    /** Looks for a stall; on finding one, drives the execution into recovery or to Blocked. */
    method Judge(at: real, disk: Disk) returns (reply: Reply)
      requires Wired() && (sm.state in ACTIVE ==> Refusal(sm.Contents(), Stalled, at, []).None?)
      modifies this, sm, guard, budget, writer
      ensures Wired() && trace == old(trace)
      ensures (Abs(), reply) == Evaluated(config, old(Abs()), at, disk)
    {
      if !IsActive() || startedAt.None? {
        lastObservedAt := Some(at);
        return Done;
      }
      var reasons := DetectStall(at);
      reply := Respond(at, reasons, disk);
    }

    method Respond(at: real, reasons: seq<StallSignal>, disk: Disk) returns (reply: Reply)
      requires Wired() && Refusal(sm.Contents(), Stalled, at, []).None?
      modifies this, sm, guard, budget, writer
      ensures Wired() && trace == old(trace)
      ensures (Abs(), reply) == Responded(config, old(Abs()), at, reasons, disk)
    {
      if reasons == [] {
        lastObservedAt := Some(at);
        return Done;
      }
      OpenStall(at, reasons);
      reply := MirrorThenPursue(at, disk);
    }

    /** A fresh stall is mirrored first; only when that write succeeds does recovery begin by itself. */
    method MirrorThenPursue(at: real, disk: Disk) returns (reply: Reply)
      requires Wired() && sm.state.Stalled? && Refusal(sm.Contents(), Recovering, at, []).None?
      modifies this, sm, guard, budget, writer
      ensures Wired() && trace == old(trace)
      ensures (Abs(), reply) == StallStep(config, old(Abs()), at, disk)
    {
      reply := WriteHeartbeat(at, disk.stall);
      if reply.WriteFailed? {
        return;
      }
      reply := Pursue(at, STALL_DETECTED, disk.recovery);
    }

    /** Adds a call to those made so far, once its effect is complete. */
    ghost method Extend(call: Call, disk: Disk)
      requires Wired() && Abs() == Step(config, Reached(config, trace), call, disk).0
      requires store.files == Archive(config, found, if call.TakeCheckpoint? then checkpoints else Reached(config, trace).checkpoints)
      modifies this`trace
      ensures Valid() && trace == old(trace) + [Action(call, disk)]
    {
      if !call.TakeCheckpoint? { OnlyOneCallSaves(config, Reached(config, trace), call, disk); }
      ReachedExtends(config, trace, Action(call, disk));
      trace := trace + [Action(call, disk)];
    }

    // ---- the calls ---------------------------------------------------------------------------------

    method Start(task: string, at: real, tokens: int, cost: real, disk: Disk) returns (reply: Reply)
      requires Valid()
      modifies this, sm, budget, writer
      ensures Valid() && trace == old(trace) + [Action(Call.Start(task, at, tokens, cost), disk)]
      ensures (Abs(), reply) == Step(config, old(Abs()), Call.Start(task, at, tokens, cost), disk)
    {
      if Blank(task) {
        reply := Rejected(InvalidObservation);
      } else if !sm.state.Planning? || startedAt.Some? {
        reply := Rejected(InvalidStateTransition);
      } else if config.planned.Some? && (tokens != 0 || cost != 0.0) {
        reply := Rejected(InvalidObservation);
      } else if IsUntimely(at) {
        reply := Rejected(InvalidObservation);
      } else {
        ReachedMoveIsMade(config, trace, Abs(), Running, at);
        reply := ChargeAndBegin(task, at, InitialCharge(config, tokens, cost), disk.final);
      }
      Extend(Call.Start(task, at, tokens, cost), disk);
    }

    method ChargeAndBegin(task: string, at: real, charge: Charge, ok: bool) returns (reply: Reply)
      requires Wired() && Refusal(sm.Contents(), Running, at, []).None?
      modifies this, sm, budget, writer
      ensures Wired() && trace == old(trace)
      ensures (Abs(), reply) == match Charged(old(budget.Contents()), charge)
        case Err(e) => (old(Abs()), Rejected(e))
        case Ok(charged) => Finish(config, Begun(old(Abs()), charged, task, at), at, ok)
    {
      if charge.tokens != 0 || charge.cost != 0.0 {
        var refusal := ChargeBudget(InitialPlan, charge.tokens, charge.cost);
        if refusal.Some? {
          return Rejected(refusal.value);
        }
      }
      reply := Begin(task, at, ok);
    }

    method Begin(task: string, at: real, ok: bool) returns (reply: Reply)
      requires Wired() && Refusal(sm.Contents(), Running, at, []).None?
      modifies this, sm, writer
      ensures Wired() && trace == old(trace)
      ensures (Abs(), reply) == Finish(config, Begun(old(Abs()), old(budget.Contents()), task, at), at, ok)
    {
      startedAt := Some(at);
      facts := facts.(task := task);
      var refusal := sm.Transition(Running, at, []);
      reply := Conclude(at, ok);
    }

    /** Ordinary moves among Running, Testing and Reviewing. */
    method Advance(target: ExecutionState, at: real, disk: Disk) returns (reply: Reply)
      requires Valid()
      modifies this, sm, writer
      ensures Valid() && trace == old(trace) + [Action(Call.Advance(target, at), disk)]
      ensures (Abs(), reply) == Step(config, old(Abs()), Call.Advance(target, at), disk)
    {
      if !IsActive() {
        reply := Rejected(InvalidStateTransition);
      } else if target in {Stalled, Recovering, Blocked, ExecutionState.Completed} {
        reply := Rejected(InvalidStateTransition);
      } else if IsUntimely(at) {
        reply := Rejected(InvalidObservation);
      } else {
        reply := Move(target, at, [], disk.final);
      }
      Extend(Call.Advance(target, at), disk);
    }

    method Move(target: ExecutionState, at: real, evidence: seq<string>, ok: bool) returns (reply: Reply)
      modifies this`lastObservedAt, this`heartbeatDirty, this`lastHeartbeatAt, sm, writer
      ensures (Abs(), reply) == match Refusal(old(sm.Contents()), target, at, evidence)
        case Some(e) => (old(Abs()), Rejected(e))
        case None => Finish(config, Enter(old(Abs()), target, at, evidence), at, ok)
    {
      var refusal := sm.Transition(target, at, evidence);
      if refusal.Some? {
        return Rejected(refusal.value);
      }
      reply := Conclude(at, ok);
    }

    method RecordActivity(at: real, fingerprint: string, succeeded: bool, trivial: bool, duration: real,
                          error: Option<string>, disk: Disk) returns (reply: Reply)
      requires Valid()
      modifies this, sm, guard, budget, writer
      ensures Valid() &&
              trace == old(trace) + [Action(Call.RecordActivity(at, fingerprint, succeeded, trivial, duration, error), disk)]
      ensures (Abs(), reply) ==
              Step(config, old(Abs()), Call.RecordActivity(at, fingerprint, succeeded, trivial, duration, error), disk)
    {
      if !IsActive() {
        reply := Rejected(InvalidStateTransition);
      } else if Blank(fingerprint) || IsUntimely(at) || duration < 0.0 || BlankIfGiven(error) {
        reply := Rejected(InvalidObservation);
      } else {
        ReachedMoveIsMade(config, trace, Abs(), Stalled, at);
        reply := Report(Activity(at, fingerprint, succeeded, trivial, duration, error), disk);
      }
      Extend(Call.RecordActivity(at, fingerprint, succeeded, trivial, duration, error), disk);
    }

    /** Notes the activity, judges it at once, and mirrors once more if judging went through. */
    method Report(a: Activity, disk: Disk) returns (reply: Reply)
      requires Wired() && Refusal(sm.Contents(), Stalled, a.at, []).None?
      modifies this, sm, guard, budget, writer
      ensures Wired() && trace == old(trace)
      ensures (Abs(), reply) == Reported(config, Touch(Noted(old(Abs()), a), a.at), a.at, disk)
    {
      NoteActivity(a);
      reply := Judge(a.at, disk);
      if reply.Done? {
        reply := WriteHeartbeat(a.at, disk.final);
      }
    }

    method NoteActivity(a: Activity)
      modifies this`activities, this`facts, this`lastObservedAt, guard
      ensures Abs() == Touch(Noted(old(Abs()), a), a.at)
    {
      var repeats := activities != [] && !a.succeeded && !activities[|activities| - 1].succeeded
                     && activities[|activities| - 1].fingerprint == a.fingerprint;
      activities := activities + [a];
      guard.RecordAttempt();
      guard.RecordIdenticalFailure(repeats);
      if a.error.Some? {
        facts := facts.(lastError := a.error);
      }
      lastObservedAt := Some(a.at);
    }

    method RecordProgress(at: real, description: string, disk: Disk) returns (reply: Reply)
      requires Valid()
      modifies this, progress, guard, writer
      ensures Valid() && trace == old(trace) + [Action(Call.RecordProgress(at, description), disk)]
      ensures (Abs(), reply) == Step(config, old(Abs()), Call.RecordProgress(at, description), disk)
    {
      if !IsUntimely(at) { ReachedProgressIsTimely(config, trace, Abs(), at); }
      reply := ProgressIfActive(at, description, disk);
      Extend(Call.RecordProgress(at, description), disk);
    }

    method ProgressIfActive(at: real, description: string, disk: Disk) returns (reply: Reply)
      requires !IsUntimely(at) && LatestProgress(progress.events).Some? ==> LatestProgress(progress.events).value <= at
      modifies this`facts, this`lastObservedAt, this`heartbeatDirty, this`lastHeartbeatAt, progress, guard, writer
      ensures (Abs(), reply) == Step(config, old(Abs()), Call.RecordProgress(at, description), disk)
    {
      if !IsActive() {
        return Rejected(InvalidStateTransition);
      }
      if Blank(description) || IsUntimely(at) {
        return Rejected(InvalidObservation);
      }
      NoteProgress(description, at);
      reply := Conclude(at, disk.final);
    }

    method NoteProgress(description: string, at: real)
      requires LatestProgress(progress.events).Some? ==> LatestProgress(progress.events).value <= at
      modifies this`facts, progress, guard
      ensures Abs() == Progressed(old(Abs()), at, description)
    {
      var refusal := progress.Record(ProgressEvent(description, at));
      guard.RecordProgress();
      facts := facts.(progressEvidence := Some(description));
    }

    method Evaluate(at: real, disk: Disk) returns (reply: Reply)
      requires Valid()
      modifies this, sm, guard, budget, writer
      ensures Valid() && trace == old(trace) + [Action(Call.Evaluate(at), disk)]
      ensures (Abs(), reply) == Step(config, old(Abs()), Call.Evaluate(at), disk)
    {
      if IsUntimely(at) {
        reply := Rejected(InvalidObservation);
      } else {
        if IsActive() { ReachedMoveIsMade(config, trace, Abs(), Stalled, at); }
        reply := Judge(at, disk);
      }
      Extend(Call.Evaluate(at), disk);
    }

    method BeginRecovery(at: real, reason: string, disk: Disk) returns (reply: Reply)
      requires Valid()
      modifies this, sm, guard, budget, writer
      ensures Valid() && trace == old(trace) + [Action(Call.BeginRecovery(at, reason), disk)]
      ensures (Abs(), reply) == Step(config, old(Abs()), Call.BeginRecovery(at, reason), disk)
    {
      if IsUntimely(at) {
        reply := Rejected(InvalidObservation);
      } else if !sm.state.Stalled? {
        reply := Rejected(InvalidStateTransition);
      } else {
        ReachedMoveIsMade(config, trace, Abs(), Recovering, at);
        reply := Pursue(at, reason, disk.recovery);
      }
      Extend(Call.BeginRecovery(at, reason), disk);
    }

    method RecordRecoveryResult(at: real, result: RecoveryResult, resume: ExecutionState, evidence: Option<string>,
                                disk: Disk) returns (reply: Reply)
      requires Valid()
      modifies this, sm, progress, guard, writer
      ensures Valid() && trace == old(trace) + [Action(Call.RecordRecoveryResult(at, result, resume, evidence), disk)]
      ensures (Abs(), reply) == Step(config, old(Abs()), Call.RecordRecoveryResult(at, result, resume, evidence), disk)
    {
      ResultStep(config, Abs(), at, result, resume, evidence, disk);
      var refusal := RefuseResult(at, result, resume, evidence);
      if refusal.Some? {
        reply := Rejected(refusal.value);
      } else {
        ReachedResolution(config, trace, Abs(), result, resume, at);
        reply := Resolve(at, result, resume, evidence, disk.final);
      }
      Extend(Call.RecordRecoveryResult(at, result, resume, evidence), disk);
    }

    /** All validation comes first: a refused result leaves nothing half recorded. */
    method RefuseResult(at: real, result: RecoveryResult, resume: ExecutionState, evidence: Option<string>)
      returns (refusal: Option<Error>)
      ensures refusal == Refused(config, Abs(), Call.RecordRecoveryResult(at, result, resume, evidence))
    {
      if IsUntimely(at) {
        return Some(InvalidObservation);
      }
      if !sm.state.Recovering? {
        return Some(InvalidStateTransition);
      }
      if episode.attempts == [] || result.Pending? {
        return Some(InvalidObservation);
      }
      if result.Success? && resume !in RESUMABLE {
        return Some(InvalidStateTransition);
      }
      if BlankIfGiven(evidence) {
        return Some(InvalidObservation);
      }
      refusal := None;
    }

    method Resolve(at: real, result: RecoveryResult, resume: ExecutionState, evidence: Option<string>, ok: bool)
      returns (reply: Reply)
      requires Wired() && episode.attempts != [] && !result.Pending?
      requires result.Success? ==> Refusal(sm.Contents(), resume, at, []).None?
      requires Refusal(sm.Contents(), Stalled, at, []).None? && Refusal(sm.Contents(), Blocked, at, []).None?
      requires LatestProgress(progress.events).Some? ==> LatestProgress(progress.events).value <= at
      modifies this, sm, progress, guard, writer
      ensures Wired() && trace == old(trace)
      ensures (Abs(), reply) == Finish(config, Concluded(config, old(Abs()), at, result, resume, evidence), at, ok)
    {
      ghost var concluded := Concluded(config, Abs(), at, result, resume, evidence);
      ApplyResult(at, result, resume, evidence);
      assert Abs() == concluded;
      reply := Conclude(at, ok);
    }

    method ApplyResult(at: real, result: RecoveryResult, resume: ExecutionState, evidence: Option<string>)
      requires Wired() && episode.attempts != [] && !result.Pending?
      requires result.Success? ==> Refusal(sm.Contents(), resume, at, []).None?
      requires Refusal(sm.Contents(), Stalled, at, []).None? && Refusal(sm.Contents(), Blocked, at, []).None?
      requires LatestProgress(progress.events).Some? ==> LatestProgress(progress.events).value <= at
      modifies this`episode, this`blockedReport, this`recoveryHistory, this`facts, this`lastObservedAt, sm, progress, guard
      ensures Wired()
      ensures Abs() == Concluded(config, old(Abs()), at, result, resume, evidence)
    {
      var strategy := episode.attempts[|episode.attempts| - 1].strategy;
      ConcludedIs(config, Abs(), at, result, resume, evidence, strategy);
      ResolveAttempt(result, at);
      if result.Success? {
        Resume(resume, at, NoteOf(evidence, strategy));
      } else {
        FallBack(strategy, at);
      }
    }

    method ResolveAttempt(result: RecoveryResult, at: real)
      requires episode.attempts != []
      modifies this`episode
      ensures Abs() == Judged(old(Abs()), result, at)
    {
      var last := episode.attempts[|episode.attempts| - 1];
      episode := episode.(attempts :=
        episode.attempts[|episode.attempts| - 1 := last.(result := result, at := at)]);
    }

    /** A success closes the episode, resumes, and counts as progress. */
    method Resume(resume: ExecutionState, at: real, note: string)
      requires Refusal(sm.Contents(), resume, at, []).None?
      requires LatestProgress(progress.events).Some? ==> LatestProgress(progress.events).value <= at
      modifies this`recoveryHistory, this`facts, sm, progress, guard
      ensures Abs() == Recovered(old(Abs()), resume, at, note)
    {
      CloseRecoveryEpisode(Resolved, at);
      var refusal := sm.Transition(resume, at, []);
      NoteProgress(note, at);
    }

    /** A failure goes back to Stalled, or to Blocked when nothing more can be tried. */
    method FallBack(strategy: Strategy, at: real)
      requires Wired()
      requires Refusal(sm.Contents(), Stalled, at, []).None? && Refusal(sm.Contents(), Blocked, at, []).None?
      modifies this`blockedReport, this`recoveryHistory, this`facts, this`lastObservedAt, sm
      ensures Abs() == FailedBack(config, old(Abs()), at, strategy)
    {
      var exceeded, bounds := guard.Exceeded();
      if exceeded || strategy.RequestHumanIntervention? {
        TransitionToBlocked(at, AttemptsExhausted);
      } else {
        var refusal := sm.Transition(Stalled, at, []);
      }
    }

    /** Consults the ledger and, on approval, charges it and raises tier and reasoning. */
    method RecordEscalation(at: real, signals: EscalationSignals, disk: Disk)
      returns (decision: Option<EscalationDecision>, reply: Reply)
      requires Valid()
      modifies this, guard, budget
      ensures Valid() && trace == old(trace) + [Action(Call.RecordEscalation(at, signals), disk)]
      ensures (Abs(), reply) == Step(config, old(Abs()), Call.RecordEscalation(at, signals), disk)
      ensures decision == if reply.Done? then Some(Decision(config, old(Abs()), signals)) else None
    {
      decision, reply := EscalateIfActive(at, signals, disk);
      Extend(Call.RecordEscalation(at, signals), disk);
    }

    method EscalateIfActive(at: real, signals: EscalationSignals, ghost disk: Disk)
      returns (decision: Option<EscalationDecision>, reply: Reply)
      requires Wired()
      modifies this`tier, this`reasoning, this`escalationsUsed, this`lastObservedAt, guard, budget
      ensures Wired()
      ensures (Abs(), reply) == Step(config, old(Abs()), Call.RecordEscalation(at, signals), disk)
      ensures decision == if reply.Done? then Some(Decision(config, old(Abs()), signals)) else None
    {
      if !IsActive() {
        return None, Rejected(InvalidStateTransition);
      }
      if IsUntimely(at) {
        return None, Rejected(InvalidObservation);
      }
      var d := Consult(signals);
      lastObservedAt := Some(at);
      return Some(d), Done;
    }

    method Consult(signals: EscalationSignals) returns (decision: EscalationDecision)
      requires Wired()
      modifies this`tier, this`reasoning, this`escalationsUsed, guard, budget
      ensures Wired()
      ensures decision == Decision(config, old(Abs()), signals)
      ensures Abs() == Escalated(config, old(Abs()), signals)
    {
      decision := DecideEscalation(tier, reasoning, escalationsUsed, signals, config.policy.watchdog,
                                   config.contextTokens, budget.Contents());
      if decision.Approved? {
        Raise(decision.tier, decision.reasoning);
      }
    }

    method Raise(nextTier: ModelTier, nextReasoning: ReasoningEffort)
      requires Wired()
      modifies this`tier, this`reasoning, this`escalationsUsed, guard, budget
      ensures Wired()
      ensures var s := old(Abs());
        var charged := ChargeLedger(s.ledger, EscalationCharge, config.contextTokens,
                                    EstimateCost(nextTier, config.contextTokens));
        Abs() == Raised(s, nextTier, nextReasoning, if charged.Ok? then charged.value else s.ledger)
    {
      var refusal := ChargeBudget(EscalationCharge, config.contextTokens, EstimateCost(nextTier, config.contextTokens));
      tier, reasoning, escalationsUsed := nextTier, nextReasoning, escalationsUsed + 1;
      guard.RecordEscalation();
    }

    /** Appends durably first, then to memory: a failed append leaves no claim that the checkpoint exists. */
    method TakeCheckpoint(at: real, phase: string, completed: seq<string>, pending: seq<string>,
                          lastGood: Option<string>, disk: Disk) returns (reply: Reply)
      requires Valid()
      modifies this`checkpoints, this`lastObservedAt, this`heartbeatDirty, this`lastHeartbeatAt, this`trace, writer, store
      ensures Valid() && trace == old(trace) + [Action(Call.TakeCheckpoint(at, phase, completed, pending, lastGood), disk)]
      ensures (Abs(), reply) == Step(config, old(Abs()), Call.TakeCheckpoint(at, phase, completed, pending, lastGood), disk)
      ensures var cp := Checkpoint(config.executionId, phase, completed, pending, lastGood, at);
        store.files == Durable(old(store.files), cp, config.persistent && disk.checkpoint && !reply.Rejected?)
    {
      reply := SaveIfActive(Checkpoint(config.executionId, phase, completed, pending, lastGood, at), disk);
      Extend(Call.TakeCheckpoint(at, phase, completed, pending, lastGood), disk);
    }

    method SaveIfActive(cp: Checkpoint, disk: Disk) returns (reply: Reply)
      requires Wired() && cp.executionId == config.executionId
      modifies this`checkpoints, this`lastObservedAt, this`heartbeatDirty, this`lastHeartbeatAt, writer, store
      ensures Wired()
      ensures (Abs(), reply) ==
        Step(config, old(Abs()), Call.TakeCheckpoint(cp.at, cp.phase, cp.completed, cp.pending, cp.lastGoodState), disk)
      ensures store.files == Durable(old(store.files), cp, config.persistent && disk.checkpoint && !reply.Rejected?)
      ensures old(store.files == Archive(config, found, checkpoints)) ==> store.files == Archive(config, found, checkpoints)
    {
      if !IsActive() {
        reply := Rejected(InvalidStateTransition);
      } else if Blank(cp.phase) || IsUntimely(cp.at) || BlankIfGiven(cp.lastGoodState) {
        reply := Rejected(InvalidObservation);
      } else {
        reply := Save(cp, disk);
      }
    }

    method Save(cp: Checkpoint, disk: Disk) returns (reply: Reply)
      requires Wired()
      modifies this`checkpoints, this`lastObservedAt, this`heartbeatDirty, this`lastHeartbeatAt, writer, store
      ensures Wired()
      ensures var lost := config.persistent && !disk.checkpoint;
        && (Abs(), reply) == (if lost then (old(Abs()), WriteFailed)
                              else Finish(config, old(Abs()).(checkpoints := old(Abs()).checkpoints + [cp]), cp.at, disk.final))
        && store.files == Durable(old(store.files), cp, config.persistent && disk.checkpoint)
      ensures old(store.files == Archive(config, found, checkpoints)) ==> store.files == Archive(config, found, checkpoints)
    {
      ArchiveGrows(config, found, checkpoints, cp);
      if config.persistent {
        var written := store.Append(cp, disk.checkpoint);
        if !written {
          return WriteFailed;
        }
      }
      checkpoints := checkpoints + [cp];
      reply := Conclude(cp.at, disk.final);
    }

    method Complete(at: real, evidence: seq<string>, disk: Disk) returns (reply: Reply)
      requires Valid()
      modifies this, sm, writer
      ensures Valid() && trace == old(trace) + [Action(Call.Complete(at, evidence), disk)]
      ensures (Abs(), reply) == Step(config, old(Abs()), Call.Complete(at, evidence), disk)
    {
      if IsUntimely(at) {
        reply := Rejected(InvalidObservation);
      } else {
        reply := Move(ExecutionState.Completed, at, evidence, disk.final);
      }
      Extend(Call.Complete(at, evidence), disk);
    }

    /** Retries the mirror alone; any number of times, with nothing else repeated. */
    method SyncHeartbeat(disk: Disk) returns (reply: Reply)
      requires Valid()
      modifies this, writer
      ensures Valid() && trace == old(trace) + [Action(Call.SyncHeartbeat, disk)]
      ensures (Abs(), reply) == Step(config, old(Abs()), Call.SyncHeartbeat, disk)
    {
      reply := Done;
      if heartbeatDirty {
        if !config.persistent || lastHeartbeatAt.None? {
          heartbeatDirty := false;
        } else {
          reply := WriteHeartbeat(lastHeartbeatAt.value, disk.final);
        }
      }
      Extend(Call.SyncHeartbeat, disk);
    }
  }

  // ---- what holds of every object --------------------------------------------------------------------

  /** Whatever has been called, with whatever arguments and write failures: time, lifecycle, bounds, audit trail and
      ledger are in order, no stall is pending, and the recovery charges without an attempt are the calls refused
      too late; while there is none, the mirror is exact. */
  lemma EveryWatchdogObeys(w: ExecutionWatchdog)
    requires w.Valid()
    ensures InOrder(w.config, w.Abs()) && Watched(w.config, w.Abs())
    ensures Paid(w.config, w.Abs().ledger, w.escalationsUsed)
    ensures Owed(w.Abs()) == TooLate(w.config, Init(w.config), w.trace)
    ensures Owed(w.Abs()) == 0 ==> MirrorOk(w.config, w.Abs())
  {
    ReachedObeys(w.config, w.trace, w.Abs());
  }

  /** Up to the limit of the segment numbers, the durable log of a persistent watchdog reads back as exactly what was
      found at construction followed by the checkpoints it holds in memory, whatever writes failed in between. */
  lemma DurableLogIsTheMemory(w: ExecutionWatchdog)
    requires w.Valid() && w.config.persistent
    ensures Log(w.store.files) == Log(w.found) + w.checkpoints <==> |w.checkpoints| <= Free(w.found)
  {
    AppendsReadBackExactly(w.found, w.checkpoints);
  }

  lemma ReachedObeys(c: Config, actions: seq<Action>, s: W)
    requires c.Valid() && s == Reached(c, actions)
    ensures InOrder(c, s) && Watched(c, s)
    ensures Paid(c, s.ledger, s.escalationsUsed)
    ensures Owed(s) == TooLate(c, Init(c), actions)
    ensures Owed(s) == 0 ==> MirrorOk(c, s)
  {
    ReachedIsInOrder(c, actions);
    ReachedIsWatched(c, actions);
    ReachedIsPaid(c, actions);
    if TooLate(c, Init(c), actions) == 0 { TimelyMirrorIsExact(c, actions); }
  }

  // ---- what the calls made so far guarantee inside the next one ------------------------------------

  lemma ResultStep(c: Config, s: W, at: real, result: RecoveryResult, resume: ExecutionState, evidence: Option<string>,
                   disk: Disk)
    ensures var call := Call.RecordRecoveryResult(at, result, resume, evidence);
      match Refused(c, s, call)
      case Some(e) => Step(c, s, call, disk) == (s, Rejected(e))
      case None =>
        && !Untimely(s, at) && s.sm.state.Recovering? && s.episode.attempts != [] && !result.Pending?
        && (result.Success? ==> resume in RESUMABLE)
        && Step(c, s, call, disk) == Finish(c, Concluded(c, s, at, result, resume, evidence), at, disk.final)
  {}

  lemma ConcludedIs(c: Config, s: W, at: real, result: RecoveryResult, resume: ExecutionState, evidence: Option<string>,
                    strategy: Strategy)
    requires s.episode.attempts != [] && strategy == s.episode.attempts[|s.episode.attempts| - 1].strategy
    requires !result.Pending?
    ensures Concluded(c, s, at, result, resume, evidence) ==
      if result.Success? then Recovered(Judged(s, result, at), resume, at, NoteOf(evidence, strategy))
      else FailedBack(c, Judged(s, result, at), at, strategy)
  {}

  lemma ReachedExtends(c: Config, actions: seq<Action>, a: Action)
    ensures Reached(c, actions + [a]) == Step(c, Reached(c, actions), a.call, a.disk).0
  {
    RunsJoin(c, Init(c), actions, [a]);
    RunOne(c, Reached(c, actions), a, []);
    assert [a] + [] == [a];
  }

  lemma ReachedMoveIsMade(c: Config, actions: seq<Action>, s: W, target: ExecutionState, at: real)
    requires c.Valid() && s == Reached(c, actions)
    requires !Untimely(s, at) && target in Allowed(s.sm.state) && !target.Completed?
    ensures Refusal(s.sm, target, at, []).None?
  {
    ReachedIsSound(c, actions);
    TimelyMoveIsMade(c, s, target, at);
  }

  lemma ReachedProgressIsTimely(c: Config, actions: seq<Action>, s: W, at: real)
    requires c.Valid() && s == Reached(c, actions) && !Untimely(s, at)
    ensures LatestProgress(s.progress).Some? ==> LatestProgress(s.progress).value <= at
  {
    ReachedIsSound(c, actions);
    ProgressIsTimely(c, s, at);
  }

  lemma ReachedResolution(c: Config, actions: seq<Action>, s: W, result: RecoveryResult, resume: ExecutionState, at: real)
    requires c.Valid() && s == Reached(c, actions) && !Untimely(s, at) && s.sm.state.Recovering?
    requires result.Success? ==> resume in RESUMABLE
    ensures LatestProgress(s.progress).Some? ==> LatestProgress(s.progress).value <= at
    ensures result.Success? ==> Refusal(s.sm, resume, at, []).None?
    ensures Refusal(s.sm, Stalled, at, []).None? && Refusal(s.sm, Blocked, at, []).None?
  {
    ReachedIsSound(c, actions);
    ProgressIsTimely(c, s, at);
    TimelyMoveIsMade(c, s, Stalled, at);
    TimelyMoveIsMade(c, s, Blocked, at);
    if result.Success? { TimelyMoveIsMade(c, s, resume, at); }
  }
}
