/** The watchdog coordinator as a state machine over values (watchdog/coordinator.py): one supervised
    execution, the calls that drive it, and the effect of each call on the whole state. */
module Supervision {
  import opened Common
  import opened Policies
  import opened StateMachine
  import opened Stall
  import opened Recovery
  import opened Budget
  import opened Routing
  import opened Escalation
  import opened Checkpoints
  import Heartbeats
  import Json

  datatype Charge = Charge(tokens: int, cost: real)

  /** What construction fixes for the life of one execution, and the heartbeat record it finds on disk. */
  datatype Config = Config(
    executionId: string,
    policy: Policy,
    contextTokens: int,
    initialTier: ModelTier,
    initialReasoning: ReasoningEffort,
    planned: Option<Charge>,
    persistent: bool,
    found: Option<Json.Json>)
  {
    predicate Valid() { !Blank(executionId) && policy.Valid() && contextTokens > 0 }
  }

  datatype RecoveryResult = Pending | Success | Failure

  datatype RecoveryAttempt =
    RecoveryAttempt(reason: string, strategy: Strategy, number: nat, result: RecoveryResult, at: real)

  datatype EpisodeOutcome = Resolved | GaveUp

  datatype RecoveryEpisode = RecoveryEpisode(
    number: nat,
    reason: seq<StallSignal>,
    attempts: seq<RecoveryAttempt>,
    outcome: EpisodeOutcome,
    openedAt: real,
    closedAt: real)

  /** The fields of the episode that is open, or of the last one that was. */
  datatype Episode = Episode(
    number: nat,
    openedAt: Option<real>,
    reason: seq<StallSignal>,
    attempts: seq<RecoveryAttempt>,
    tried: seq<Strategy>)

  datatype Blocker =
    | GuardExceeded(bounds: seq<GuardBound>)
    | EpisodeBoundReached
    | NoStrategyLeft
    | RecoveryBudgetExhausted
    | AttemptsExhausted

  datatype BlockedReport = BlockedReport(
    blocker: Blocker,
    lastCheckpoint: Option<Checkpoint>,
    attempts: nat,
    tried: seq<Strategy>)

  datatype Facts = Facts(task: string, progressEvidence: Option<string>, lastError: Option<string>)

  /** The durable heartbeat file and what is known in memory about it. */
  datatype Mirror = Mirror(dirty: bool, lastAt: Option<real>, file: Option<Json.Json>)

  datatype W = W(
    sm: Machine,
    progress: seq<ProgressEvent>,
    guard: Guard,
    ledger: Ledger,
    activities: seq<Activity>,
    checkpoints: seq<Checkpoint>,
    episode: Episode,
    closed: seq<RecoveryEpisode>,
    report: Option<BlockedReport>,
    startedAt: Option<real>,
    clock: Option<real>,
    facts: Facts,
    tier: ModelTier,
    reasoning: ReasoningEffort,
    escalationsUsed: nat,
    mirror: Mirror)

  function Init(c: Config): W {
    W(Machine(Planning, []), [], Guard(0, 0, 0, 0, 0),
      Ledger(c.policy.budget.maxTokens, c.policy.budget.maxCost, [], 0),
      [], [], Episode(0, None, [], [], []), [], None, None, None, Facts("", None, None),
      c.initialTier, c.initialReasoning, 0, Mirror(false, None, c.found))
  }

  // ---- calls and replies -------------------------------------------------------

  datatype Call =
    | Start(task: string, at: real, tokens: int, cost: real)
    | Advance(target: ExecutionState, at: real)
    | RecordActivity(at: real, fingerprint: string, succeeded: bool, trivial: bool, duration: real, error: Option<string>)
    | RecordProgress(at: real, description: string)
    | Evaluate(at: real)
    | BeginRecovery(at: real, reason: string)
    | RecordRecoveryResult(at: real, result: RecoveryResult, resume: ExecutionState, evidence: Option<string>)
    | RecordEscalation(at: real, signals: EscalationSignals)
    | TakeCheckpoint(at: real, phase: string, completed: seq<string>, pending: seq<string>, lastGood: Option<string>)
    | Complete(at: real, proof: seq<string>)
    | SyncHeartbeat

  /** The environment's answers to the writes one call may attempt, in the order they happen. */
  datatype Disk = Disk(checkpoint: bool, stall: bool, recovery: bool, final: bool)

  datatype Reply =
    | Done
    | Rejected(error: Error)
    | WriteFailed

  // ---- texts that are stored in the heartbeat -----------------------------------

  function SignalText(s: StallSignal): string {
    match s
    case NoProgress(_, _) => "no progress"
    case IdenticalFailures(_, _) => "consecutive identical failures"
    case CircularAttempts(_, _) => "circular attempts"
    case SlowTrivialCommands(_) => "slow trivial commands"
  }

  function StallText(reasons: seq<StallSignal>): string {
    if reasons == [] then ""
    else if |reasons| == 1 then SignalText(reasons[0])
    else SignalText(reasons[0]) + "; " + StallText(reasons[1..])
  }

  function BlockerText(b: Blocker): string {
    match b
    case GuardExceeded(_) => "loop protection bound reached during recovery"
    case EpisodeBoundReached => "loop protection bound reached during recovery"
    case NoStrategyLeft => "no recovery strategy available"
    case RecoveryBudgetExhausted => "recovery budget exhausted"
    case AttemptsExhausted => "recovery attempts exhausted"
  }

  function StrategyName(s: Strategy): string {
    match s
    case ReReadError => "re_read_error"
    case InspectAssumptions => "inspect_assumptions"
    case SplitTask => "split_task"
    case ChangeApproach => "change_approach"
    case RestoreCheckpoint => "restore_checkpoint"
    case RestartTool => "restart_tool"
    case UseAnotherAgent => "use_another_agent"
    case IncreaseReasoning => "increase_reasoning"
    case ChangeModelTier => "change_model_tier"
    case RequestHumanIntervention => "request_human_intervention"
  }

  // ---- shared pieces of every call ------------------------------------------------

  /** The reason a timestamp is refused: negative, or before the last committed observation. */
  predicate Untimely(s: W, at: real) {
    at < 0.0 || (s.clock.Some? && at < s.clock.value)
  }

  predicate Active(s: W) { s.sm.state in ACTIVE }

  function Touch(s: W, at: real): W { s.(clock := Some(at)) }

  function Enter(s: W, target: ExecutionState, at: real, evidence: seq<string>): W {
    s.(sm := Moved(s.sm, target, at, evidence))
  }

  function LastPending(s: W): seq<string> {
    if s.checkpoints == [] then [] else s.checkpoints[|s.checkpoints| - 1].pending
  }

  /** The heartbeat that mirrors the current state. */
  function Projection(c: Config, s: W, at: real): Heartbeats.Heartbeat {
    var latest := LatestProgress(s.progress);
    Heartbeats.Heartbeat(
      c.executionId, s.sm.state, s.facts.task, None,
      if latest.Some? then latest.value else if s.startedAt.Some? then s.startedAt.value else at,
      s.facts.progressEvidence,
      |s.activities|,
      if s.episode.tried == [] then None else Some(StrategyName(s.episode.tried[|s.episode.tried| - 1])),
      s.facts.lastError,
      LastPending(s))
  }

  /** Mirrors the state; a failed build or write leaves the old file and marks it stale. */
  function Mirrored(c: Config, s: W, at: real, ok: bool): W {
    if !c.persistent then s
    else if ok && Projection(c, s, at).Valid()
    then s.(mirror := Mirror(false, Some(at), Some(Heartbeats.ToJson(Projection(c, s, at)))))
    else s.(mirror := s.mirror.(dirty := true, lastAt := Some(at)))
  }

  function MirrorReply(c: Config, s: W, at: real, ok: bool): Reply {
    if !c.persistent || (ok && Projection(c, s, at).Valid()) then Done else WriteFailed
  }

  /** Most calls end like this: commit the clock, then mirror. */
  function Finish(c: Config, s: W, at: real, ok: bool): (W, Reply) {
    var t := Touch(s, at);
    (Mirrored(c, t, at, ok), MirrorReply(c, t, at, ok))
  }

  // ---- start, advance, progress, checkpoint, completion ----------------------------

  /** The initial charge, committed in the same step that reserves it. */
  function ChargeLedger(l: Ledger, kind: ReservationKind, tokens: int, cost: real): Result<Ledger> {
    match AfterReserve(l, kind, tokens, cost)
    case Err(e) => Err(e)
    case Ok(reserved) => AfterSettle(reserved, |reserved.entries|, Committed)
  }

  function InitialCharge(c: Config, tokens: int, cost: real): Charge {
    if c.planned.Some? then c.planned.value else Charge(tokens, cost)
  }

  /** A zero charge leaves no trace in the ledger. */
  function Charged(l: Ledger, charge: Charge): Result<Ledger> {
    if charge.tokens != 0 || charge.cost != 0.0 then ChargeLedger(l, InitialPlan, charge.tokens, charge.cost)
    else Ok(l)
  }

  function Begun(s: W, ledger: Ledger, task: string, at: real): W {
    Enter(s.(ledger := ledger, startedAt := Some(at), facts := s.facts.(task := task)), Running, at, [])
  }

  function Progressed(s: W, at: real, description: string): W {
    s.(progress := s.progress + [ProgressEvent(description, at)],
       guard := s.guard.(noProgressCycles := 0),
       facts := s.facts.(progressEvidence := Some(description)))
  }

  function Decision(c: Config, s: W, signals: EscalationSignals): EscalationDecision {
    DecideEscalation(s.tier, s.reasoning, s.escalationsUsed, signals, c.policy.watchdog, c.contextTokens, s.ledger)
  }

  /** The reservation that follows an approval never fails, so the other case is idle. */
  function Escalated(c: Config, s: W, signals: EscalationSignals): W {
    match Decision(c, s, signals)
    case Approved(tier, reasoning, _) =>
      var charged := ChargeLedger(s.ledger, EscalationCharge, c.contextTokens, EstimateCost(tier, c.contextTokens));
      Raised(s, tier, reasoning, if charged.Ok? then charged.value else s.ledger)
    case _ => s
  }

  function Raised(s: W, tier: ModelTier, reasoning: ReasoningEffort, ledger: Ledger): W {
    s.(ledger := ledger, tier := tier, reasoning := reasoning,
       escalationsUsed := s.escalationsUsed + 1,
       guard := s.guard.(escalations := s.guard.escalations + 1))
  }

  // ---- activity, stall detection and the recovery ladder ---------------------------

  function Noted(s: W, a: Activity): W {
    var streak := if Repeats(s.activities, a.fingerprint, a.succeeded) then s.guard.streak + 1 else 0;
    s.(activities := s.activities + [a],
       guard := s.guard.(totalAttempts := s.guard.totalAttempts + 1, streak := streak),
       facts := if a.error.Some? then s.facts.(lastError := a.error) else s.facts)
  }

  /** Replays a heartbeat that failed to write, if one did. */
  function Synced(c: Config, s: W, disk: Disk): (W, Reply) {
    if !s.mirror.dirty then (s, Done)
    else if !c.persistent || s.mirror.lastAt.None? then (s.(mirror := s.mirror.(dirty := false)), Done)
    else (Mirrored(c, s, s.mirror.lastAt.value, disk.final), MirrorReply(c, s, s.mirror.lastAt.value, disk.final))
  }

  function VerdictAt(c: Config, s: W, at: real): seq<StallSignal>
    requires s.startedAt.Some?
  {
    Verdict(c.policy.watchdog, at, s.startedAt.value, LatestProgress(s.progress), s.activities)
  }

  /** A fresh stall always opens a new episode. */
  function StallOpened(s: W, at: real, reasons: seq<StallSignal>): W {
    var stalled := Enter(s, Stalled, at, []);
    stalled.(
      facts := s.facts.(lastError := Some(StallText(reasons))),
      guard := s.guard.(noProgressCycles := s.guard.noProgressCycles + 1, recoveryAttempts := 0),
      episode := Episode(s.episode.number + 1, Some(at), reasons, [], []),
      clock := Some(at))
  }

  function Closed(s: W, outcome: EpisodeOutcome, at: real): seq<RecoveryEpisode> {
    if s.episode.openedAt.None? then s.closed
    else s.closed + [RecoveryEpisode(s.episode.number, s.episode.reason, s.episode.attempts, outcome,
                                     s.episode.openedAt.value, at)]
  }

  /** The only way to Blocked: report, closed episode, transition, clock. */
  function BlockedBy(s: W, at: real, blocker: Blocker): W {
    var last := if s.checkpoints == [] then None else Some(s.checkpoints[|s.checkpoints| - 1]);
    Enter(s, Blocked, at, []).(
      report := Some(BlockedReport(blocker, last, |s.episode.attempts|, s.episode.tried)),
      closed := Closed(s, GaveUp, at),
      facts := s.facts.(lastError := Some(BlockerText(blocker))),
      clock := Some(at))
  }

  function RecoveryCost(c: Config, s: W): real { EstimateCost(s.tier, c.contextTokens) }

  /** Whether one more attempt may begin from a stall: the first obstacle, or the next strategy and the
      ledger with its charge. */
  datatype Admission = Denied(blocker: Blocker) | Admitted(strategy: Strategy, ledger: Ledger)

  function Admit(c: Config, s: W): Admission {
    var p := c.policy.watchdog;
    if Violations(p, s.guard) != [] then Denied(GuardExceeded(Violations(p, s.guard)))
    else if s.guard.recoveryAttempts >= p.maxRecoveryAttempts then Denied(EpisodeBoundReached)
    else
      match NextStrategy(p, s.episode.tried, |s.episode.attempts| + 1)
      case None => Denied(NoStrategyLeft)
      case Some(strategy) => AdmitAtCost(c, s.ledger, strategy, RecoveryCost(c, s))
  }

  function AdmitAtCost(c: Config, l: Ledger, strategy: Strategy, cost: real): Admission {
    match ChargeLedger(l, RecoveryCharge, c.contextTokens, cost)
    case Err(_) => Denied(RecoveryBudgetExhausted)
    case Ok(charged) => Admitted(strategy, charged)
  }

  /** The commitment to one more attempt: charge, counter and strategy. */
  function Committing(s: W, strategy: Strategy, charged: Ledger): W {
    s.(ledger := charged,
       guard := s.guard.(recoveryAttempts := s.guard.recoveryAttempts + 1),
       episode := s.episode.(tried := s.episode.tried + [strategy]))
  }

  function Attempting(s: W, at: real, reason: string, strategy: Strategy): W {
    var attempt := RecoveryAttempt(reason, strategy, |s.episode.attempts| + 1, Pending, at);
    Enter(s.(episode := s.episode.(attempts := s.episode.attempts + [attempt])), Recovering, at, [])
  }

  /** From a stall to Blocked within one call, through Recovering as the edges demand. */
  function GivenUp(s: W, at: real, blocker: Blocker): W { BlockedBy(Enter(s, Recovering, at, []), at, blocker) }

  /** Stalled to Recovering, or all the way to Blocked. */
  function RecoveryFromStall(c: Config, s: W, at: real, reason: string, ok: bool): (W, Reply) {
    Pursued(c, s, at, reason, Admit(c, s), ok)
  }

  /** A blank reason is noticed only after the attempt has been charged, counted and its strategy used up. */
  function Pursued(c: Config, s: W, at: real, reason: string, admission: Admission, ok: bool): (W, Reply) {
    match admission
    case Denied(blocker) => Finish(c, GivenUp(s, at, blocker), at, ok)
    case Admitted(strategy, charged) =>
      var committed := Committing(s, strategy, charged);
      if Blank(reason) then (committed, Rejected(InvalidObservation))
      else Finish(c, Attempting(committed, at, reason, strategy), at, ok)
  }

  const STALL_DETECTED := "stall_detected"

  function Evaluated(c: Config, s: W, at: real, disk: Disk): (W, Reply) {
    if !Active(s) || s.startedAt.None? then (Touch(s, at), Done)
    else Responded(c, s, at, VerdictAt(c, s, at), disk)
  }

  function Responded(c: Config, s: W, at: real, reasons: seq<StallSignal>, disk: Disk): (W, Reply) {
    if reasons == [] then (Touch(s, at), Done) else StallStep(c, StallOpened(s, at, reasons), at, disk)
  }

  /** A fresh stall is mirrored first; only when that write succeeds does recovery begin by itself. */
  function StallStep(c: Config, stalled: W, at: real, disk: Disk): (W, Reply) {
    var mirrored := Mirrored(c, stalled, at, disk.stall);
    if MirrorReply(c, stalled, at, disk.stall).WriteFailed? then (mirrored, WriteFailed)
    else RecoveryFromStall(c, mirrored, at, STALL_DETECTED, disk.recovery)
  }

  /** Every recorded activity is judged at once, and mirrored once more if judging went through. */
  function Reported(c: Config, noted: W, at: real, disk: Disk): (W, Reply) {
    var (judged, reply) := Evaluated(c, noted, at, disk);
    if reply.Done? then (Mirrored(c, judged, at, disk.final), MirrorReply(c, judged, at, disk.final))
    else (judged, reply)
  }

  const RESUMABLE: set<ExecutionState> := {Planning, Running, Testing, Reviewing}

  /** The current attempt with its result filled in. */
  function Judged(s: W, result: RecoveryResult, at: real): W {
    var n := |s.episode.attempts|;
    if n == 0 then s
    else s.(episode := s.episode.(attempts :=
      s.episode.attempts[n - 1 := s.episode.attempts[n - 1].(result := result, at := at)]))
  }

  function Recovered(s: W, resume: ExecutionState, at: real, note: string): W {
    Progressed(Enter(s.(closed := Closed(s, Resolved, at)), resume, at, []), at, note)
  }

  /** The effect of a result: resume with the episode closed, or fall back. */
  function Concluded(c: Config, s: W, at: real, result: RecoveryResult, resume: ExecutionState,
                     evidence: Option<string>): W
    requires s.episode.attempts != []
  {
    var strategy := s.episode.attempts[|s.episode.attempts| - 1].strategy;
    if result.Success? then Recovered(Judged(s, Success, at), resume, at, NoteOf(evidence, strategy))
    else FailedBack(c, Judged(s, Failure, at), at, strategy)
  }

  function NoteOf(evidence: Option<string>, strategy: Strategy): string {
    if evidence.Some? then evidence.value else "recovered via " + StrategyName(strategy)
  }

  /** A failed attempt goes back to Stalled, or to Blocked when nothing more can be tried. */
  function FailedBack(c: Config, judged: W, at: real, strategy: Strategy): W {
    if Violations(c.policy.watchdog, judged.guard) != [] || strategy.RequestHumanIntervention?
    then BlockedBy(judged, at, AttemptsExhausted)
    else Enter(judged, Stalled, at, [])
  }

  // ---- one call, and runs of calls ---------------------------------------------------

  function If(bad: bool, e: Error, otherwise: Option<Error>): Option<Error> {
    if bad then Some(e) else otherwise
  }

  /** Why a call is refused before it does anything, checked in this order. */
  function Refused(c: Config, s: W, call: Call): Option<Error> {
    match call
    case Start(task, at, tokens, cost) =>
      If(Blank(task), InvalidObservation,
      If(!s.sm.state.Planning? || s.startedAt.Some?, InvalidStateTransition,
      If((c.planned.Some? && (tokens != 0 || cost != 0.0)) || Untimely(s, at), InvalidObservation,
      match Charged(s.ledger, InitialCharge(c, tokens, cost)) case Err(e) => Some(e) case Ok(_) => None)))
    case Advance(target, at) =>
      If(!Active(s), InvalidStateTransition,
      If(target in {Stalled, Recovering, Blocked, ExecutionState.Completed}, InvalidStateTransition,
      If(Untimely(s, at), InvalidObservation,
      Refusal(s.sm, target, at, []))))
    case RecordActivity(at, fingerprint, _, _, duration, error) =>
      If(!Active(s), InvalidStateTransition,
      If(Blank(fingerprint) || Untimely(s, at) || duration < 0.0 || BlankIfGiven(error), InvalidObservation, None))
    case RecordProgress(at, description) =>
      If(!Active(s), InvalidStateTransition,
      If(Blank(description) || Untimely(s, at), InvalidObservation, None))
    case Evaluate(at) => If(Untimely(s, at), InvalidObservation, None)
    case BeginRecovery(at, _) =>
      If(Untimely(s, at), InvalidObservation, If(!s.sm.state.Stalled?, InvalidStateTransition, None))
    case RecordRecoveryResult(at, result, resume, evidence) =>
      If(Untimely(s, at), InvalidObservation,
      If(!s.sm.state.Recovering?, InvalidStateTransition,
      If(s.episode.attempts == [] || result.Pending?, InvalidObservation,
      If(result.Success? && resume !in RESUMABLE, InvalidStateTransition,
      If(BlankIfGiven(evidence), InvalidObservation, None)))))
    case RecordEscalation(at, _) =>
      If(!Active(s), InvalidStateTransition, If(Untimely(s, at), InvalidObservation, None))
    case TakeCheckpoint(at, phase, _, _, lastGood) =>
      If(!Active(s), InvalidStateTransition,
      If(Blank(phase) || Untimely(s, at) || BlankIfGiven(lastGood), InvalidObservation, None))
    case Complete(at, proof) =>
      If(Untimely(s, at), InvalidObservation, Refusal(s.sm, ExecutionState.Completed, at, proof))
    case SyncHeartbeat => None
  }

  /** The calls that change the state once, then commit the clock and mirror. */
  predicate Plain(call: Call) {
    call.Start? || call.Advance? || call.RecordProgress? || call.TakeCheckpoint? || call.Complete? || call.RecordRecoveryResult?
  }

  /** That one change. */
  function Effect(c: Config, s: W, call: Call): W
    requires Plain(call) && Refused(c, s, call).None?
  {
    match call
    case Start(task, at, tokens, cost) => Begun(s, Charged(s.ledger, InitialCharge(c, tokens, cost)).value, task, at)
    case Advance(target, at) => Enter(s, target, at, [])
    case RecordProgress(at, description) => Progressed(s, at, description)
    case TakeCheckpoint(at, phase, completed, pending, lastGood) =>
      s.(checkpoints := s.checkpoints + [Checkpoint(c.executionId, phase, completed, pending, lastGood, at)])
    case Complete(at, proof) => Enter(s, ExecutionState.Completed, at, proof)
    case RecordRecoveryResult(at, result, resume, evidence) => Concluded(c, s, at, result, resume, evidence)
  }

  /** What a call does once it is not refused. A checkpoint is appended durably first: if that write
      fails, memory does not claim the checkpoint. */
  function Carried(c: Config, s: W, call: Call, disk: Disk): (W, Reply)
    requires Refused(c, s, call).None?
  {
    match call
    case RecordActivity(at, fingerprint, succeeded, trivial, duration, error) =>
      Reported(c, Touch(Noted(s, Activity(at, fingerprint, succeeded, trivial, duration, error)), at), at, disk)
    case Evaluate(at) => Evaluated(c, s, at, disk)
    case BeginRecovery(at, reason) => RecoveryFromStall(c, s, at, reason, disk.recovery)
    case RecordEscalation(at, signals) => (Touch(Escalated(c, s, signals), at), Done)
    case SyncHeartbeat => Synced(c, s, disk)
    case _ =>
      if call.TakeCheckpoint? && c.persistent && !disk.checkpoint then (s, WriteFailed)
      else Finish(c, Effect(c, s, call), call.at, disk.final)
  }

  function Step(c: Config, s: W, call: Call, disk: Disk): (W, Reply) {
    match Refused(c, s, call)
    case Some(e) => (s, Rejected(e))
    case None => Carried(c, s, call, disk)
  }

  /** The one call that fails after it has already acted: a blank reason where an attempt could begin. */
  predicate RefusedTooLate(c: Config, s: W, call: Call) {
    && call.BeginRecovery? && Blank(call.reason)
    && Refused(c, s, call).None? && Admit(c, s).Admitted?
  }

  datatype Action = Action(call: Call, disk: Disk)

  function Run(c: Config, s: W, actions: seq<Action>): W
    decreases |actions|
  {
    if actions == [] then s
    else Run(c, Step(c, s, actions[0].call, actions[0].disk).0, actions[1..])
  }

  /** How many calls of a run are refused too late. */
  function TooLate(c: Config, s: W, actions: seq<Action>): nat
    decreases |actions|
  {
    if actions == [] then 0
    else
      var a := actions[0];
      (if RefusedTooLate(c, s, a.call) then 1 else 0) + TooLate(c, Step(c, s, a.call, a.disk).0, actions[1..])
  }
}
