/** Refused calls: they change nothing, except the one call that is refused too late, and what that one costs. */
module SupervisionRefusals {
  import opened Common
  import opened Policies
  import opened StateMachine
  import opened Stall
  import opened Recovery
  import opened Budget
  import opened Routing
  import opened Supervision
  import opened SupervisionInvariants
  import opened SupervisionMoves
  import opened SupervisionSoundness
  import opened SupervisionAudit
  import opened SupervisionMirror
  import opened SupervisionRuns
  import Heartbeats

  // ---- exactly when a refused call changes something ------------------------------------------

  lemma DetectedPursuitIsNotRejected(c: Config, s: W, at: real, ok: bool)
    ensures !RecoveryFromStall(c, s, at, STALL_DETECTED, ok).1.Rejected?
  {
    DetectedIsText();
  }

  lemma JudgingIsNotRejected(c: Config, s: W, at: real, reasons: seq<StallSignal>, disk: Disk)
    ensures !Responded(c, s, at, reasons, disk).1.Rejected?
  {
    if reasons != [] {
      var stalled := StallOpened(s, at, reasons);
      DetectedPursuitIsNotRejected(c, Mirrored(c, stalled, at, disk.stall), at, disk.recovery);
    }
  }

  lemma EvaluationIsNotRejected(c: Config, s: W, at: real, disk: Disk)
    ensures !Evaluated(c, s, at, disk).1.Rejected?
    ensures !Reported(c, s, at, disk).1.Rejected?
  {
    if Active(s) && s.startedAt.Some? { JudgingIsNotRejected(c, s, at, VerdictAt(c, s, at), disk); }
  }

  lemma LateRefusal(c: Config, s: W, at: real, reason: string, ok: bool)
    ensures RecoveryFromStall(c, s, at, reason, ok).1.Rejected? <==> Blank(reason) && Admit(c, s).Admitted?
    ensures RecoveryFromStall(c, s, at, reason, ok).1.Rejected? ==> RecoveryFromStall(c, s, at, reason, ok).0 != s
    ensures RecoveryFromStall(c, s, at, reason, ok).1.Rejected? ==>
      RecoveryFromStall(c, s, at, reason, ok).1.error == InvalidObservation
  {
    var admission := Admit(c, s);
    if admission.Admitted? && Blank(reason) {
      assert Committing(s, admission.strategy, admission.ledger).guard.recoveryAttempts != s.guard.recoveryAttempts;
    }
  }

  lemma PlainIsNotRejected(c: Config, s: W, call: Call, disk: Disk)
    requires Plain(call) && Refused(c, s, call).None?
    ensures !Carried(c, s, call, disk).1.Rejected?
  {}

  /** In any state at all, a call is answered with an error, and which, exactly when it is refused or refused too late,
      and a refused call leaves every field as it was: it changes something exactly in the late case. */
  lemma RejectedCallsChangeNothing(c: Config, s: W, call: Call, disk: Disk)
    ensures Step(c, s, call, disk).1.Rejected? <==> Refused(c, s, call).Some? || RefusedTooLate(c, s, call)
    ensures Step(c, s, call, disk).1.Rejected? ==> (Step(c, s, call, disk).0 != s <==> RefusedTooLate(c, s, call))
    ensures Step(c, s, call, disk).1.Rejected? ==>
      Step(c, s, call, disk).1 == Rejected(if Refused(c, s, call).Some? then Refused(c, s, call).value else InvalidObservation)
  {
    if Refused(c, s, call).None? {
      if Plain(call) {
        PlainIsNotRejected(c, s, call, disk);
      } else if call.BeginRecovery? {
        LateRefusal(c, s, call.at, call.reason, disk.recovery);
      } else if call.Evaluate? {
        EvaluationIsNotRejected(c, s, call.at, disk);
      } else if call.RecordActivity? {
        var a := Activity(call.at, call.fingerprint, call.succeeded, call.trivial, call.duration, call.error);
        EvaluationIsNotRejected(c, Touch(Noted(s, a), call.at), call.at, disk);
      }
    }
  }

  // ---- two calls to a stall ----------------------------------------------------------------------

  const NO_DISK := Disk(false, false, false, false)
  const GOOD_DISK := Disk(true, true, true, true)

  const TO_A_STALL := [
    Action(Start("t", 0.0, 0, 0.0), NO_DISK),
    Action(RecordActivity(1.0, "f", false, false, 0.0, None), NO_DISK)]

  /** A watchdog that is on, keeps its state on disk, stalls on one failure, and can pay for one attempt. */
  predicate Hasty(c: Config) {
    && c.Valid() && c.persistent && c.planned.None? && c.policy.watchdog.enabled
    && c.policy.watchdog.maxIdenticalFailures == 1
    && Fits(Init(c).ledger, c.contextTokens, EstimateCost(c.initialTier, c.contextTokens))
  }

  /** Nothing has been spent or recorded yet. */
  predicate Untouched(c: Config, s: W) {
    && s.ledger == Init(c).ledger && s.guard == Guard(0, 0, 0, 0, 0) && s.tier == c.initialTier
    && s.activities == [] && s.progress == [] && s.episode == Episode(0, None, [], [], [])
  }

  /** In a stall, with one activity behind it and everything still to spend. */
  predicate Stuck(c: Config, s: W) {
    && s.sm.state.Stalled? && s.clock == Some(1.0) && s.ledger == Init(c).ledger && s.tier == c.initialTier
    && s.guard == Guard(0, 0, 1, 1, 0) && s.episode.attempts == [] && s.episode.tried == []
  }

  lemma StartLeavesUntouched(c: Config)
    requires Hasty(c)
    ensures var s := Step(c, Init(c), TO_A_STALL[0].call, NO_DISK).0;
      Untouched(c, s) && s.sm == Moved(Machine(Planning, []), Running, 0.0, []) && s.startedAt == Some(0.0) && s.clock == Some(0.0)
  {
    NotBlankAt("t", 0);
  }

  lemma OneFailureStalls(c: Config, s: W, a: Activity)
    requires c.Valid() && c.policy.watchdog.enabled && c.policy.watchdog.maxIdenticalFailures == 1
    requires s.startedAt == Some(0.0) && s.progress == [] && s.activities == [a] && !a.succeeded && a.at > 0.0
    ensures VerdictAt(c, s, a.at) != []
  {
    OneFailureSignals(c.policy.watchdog, a, 0.0);
    IdenticalSignalIsHeard(c.policy.watchdog, a.at, 0.0, None, [a]);
  }

  /** A fresh stall whose write fails is left for someone to recover by hand. */
  lemma UnwrittenStallRests(c: Config, s: W, at: real, disk: Disk)
    requires c.persistent && !disk.stall && Active(s) && s.startedAt.Some? && VerdictAt(c, s, at) != []
    ensures Reported(c, s, at, disk) == (Mirrored(c, StallOpened(s, at, VerdictAt(c, s, at)), at, false), WriteFailed)
  {
    assert Evaluated(c, s, at, disk) == StallStep(c, StallOpened(s, at, VerdictAt(c, s, at)), at, disk);
  }

  lemma OpenedIsStuck(c: Config, s: W, reasons: seq<StallSignal>)
    requires c.persistent && s.guard == Guard(0, 0, 0, 1, 0) && s.tier == c.initialTier && s.ledger == Init(c).ledger
    ensures var t := Mirrored(c, StallOpened(s, 1.0, reasons), 1.0, false); Stuck(c, t) && t.mirror.dirty
  {}

  lemma FailureLeavesStuck(c: Config, s: W, a: Activity)
    requires Hasty(c) && Untouched(c, s) && s.sm.state.Running? && s.startedAt == Some(0.0) && s.clock == Some(0.0)
    requires a == Activity(1.0, "f", false, false, 0.0, None)
    ensures var t := Reported(c, Touch(Noted(s, a), 1.0), 1.0, NO_DISK).0; Stuck(c, t) && t.mirror.dirty
  {
    var noted := Touch(Noted(s, a), 1.0);
    OneFailureStalls(c, noted, a);
    UnwrittenStallRests(c, noted, 1.0, NO_DISK);
    OpenedIsStuck(c, noted, VerdictAt(c, noted, 1.0));
  }

  lemma StallStepIs(c: Config, s: W)
    requires s.sm.state.Running? && s.clock == Some(0.0)
    ensures Step(c, s, TO_A_STALL[1].call, NO_DISK) ==
            Reported(c, Touch(Noted(s, Activity(1.0, "f", false, false, 0.0, None)), 1.0), 1.0, NO_DISK)
  {
    NotBlankAt("f", 0);
  }

  lemma TwoCallsToAStall(c: Config)
    requires Hasty(c)
    ensures Stuck(c, Reached(c, TO_A_STALL)) && Reached(c, TO_A_STALL).mirror.dirty
  {
    StartLeavesUntouched(c);
    var s := Step(c, Init(c), TO_A_STALL[0].call, NO_DISK).0;
    StallStepIs(c, s);
    FailureLeavesStuck(c, s, Activity(1.0, "f", false, false, 0.0, None));
    RunTwo(c, Init(c), TO_A_STALL[0], TO_A_STALL[1]);
    assert TO_A_STALL == [TO_A_STALL[0], TO_A_STALL[1]];
  }

  // ---- what the late refusal costs -----------------------------------------------------------------

  lemma EmptyLedgerCharges(l: Ledger, tokens: int, cost: real)
    requires l.entries == [] && 0 <= tokens && 0.0 <= cost && Fits(l, tokens, cost)
    ensures var charged := ChargeLedger(l, RecoveryCharge, tokens, cost); charged.Ok? && |charged.value.entries| == 1
  {
    ReservedIsCharged(l, RecoveryCharge, tokens, cost);
  }

  lemma StuckAtCost(c: Config, s: W, cost: real)
    requires Hasty(c) && Stuck(c, s) && cost == RecoveryCost(c, s) && 0.0 <= cost && Fits(s.ledger, c.contextTokens, cost)
    ensures Admit(c, s).Admitted? && Admit(c, s).strategy == ReReadError && |Admit(c, s).ledger.entries| == 1
  {
    LadderIsClimbedInOrder(c.policy.watchdog, 0, 1);
    assert LADDER[..0] == [];
    EmptyLedgerCharges(s.ledger, c.contextTokens, cost);
  }

  lemma StuckIsFree(c: Config, s: W)
    requires Hasty(c) && Stuck(c, s)
    ensures Admit(c, s).Admitted? && Admit(c, s).strategy == ReReadError && |Admit(c, s).ledger.entries| == 1
  {
    CostMonotone(s.tier, s.tier, c.contextTokens, c.contextTokens);
    StuckAtCost(c, s, RecoveryCost(c, s));
  }

  lemma StuckSlipsThrough(c: Config, s: W, blank: string, disk: Disk)
    requires Hasty(c) && Stuck(c, s) && Blank(blank)
    ensures RefusedTooLate(c, s, BeginRecovery(1.0, blank))
    ensures var (t, reply) := Step(c, s, BeginRecovery(1.0, blank), disk);
      && reply == Rejected(InvalidObservation)
      && t.guard.recoveryAttempts == 1 && t.episode.tried == [ReReadError] && t.episode.attempts == []
      && |t.ledger.entries| == 1
  {
    StuckIsFree(c, s);
  }

  /** The late refusal is real: under any such configuration, two calls later, a blank reason is rejected,
      yet one attempt has been charged and counted and its strategy used up, with no attempt on record. */
  lemma BlankReasonSlipsThrough(c: Config)
    requires Hasty(c)
    ensures var (t, reply) := Step(c, Reached(c, TO_A_STALL), BeginRecovery(1.0, ""), NO_DISK);
      && reply == Rejected(InvalidObservation)
      && t.guard.recoveryAttempts == 1 && t.episode.tried == [ReReadError] && t.episode.attempts == []
      && |t.ledger.entries| == 1
  {
    TwoCallsToAStall(c);
    StuckSlipsThrough(c, Reached(c, TO_A_STALL), "", NO_DISK);
  }

  lemma SyncedIsStuck(c: Config, s: W, disk: Disk)
    requires Stuck(c, s) && c.persistent && s.mirror.dirty && s.mirror.lastAt.Some? && disk.final
    requires Projection(c, s, s.mirror.lastAt.value).Valid()
    ensures var t := Step(c, s, SyncHeartbeat, disk).0; Stuck(c, t) && !t.mirror.dirty && t.startedAt == s.startedAt
  {}

  lemma CleanStuckState(c: Config, s: W)
    requires Hasty(c) && Sound(c, s) && MirrorOk(c, s) && Stuck(c, s) && s.mirror.dirty
    ensures var t := Step(c, s, SyncHeartbeat, GOOD_DISK).0;
      Stuck(c, t) && !t.mirror.dirty && t.startedAt.Some? && Sound(c, t) && MirrorOk(c, t)
  {
    ActiveIsStarted(c, s);
    ProjectionIsValid(c, s, s.mirror.lastAt.value);
    SyncedIsStuck(c, s, GOOD_DISK);
    StepIsSound(c, s, SyncHeartbeat, GOOD_DISK);
    TimelyCallMirrors(c, s, SyncHeartbeat, GOOD_DISK);
  }

  lemma LieIs(c: Config, t: W)
    requires !MirrorOk(c, t) && MirrorReady(c, t.mirror)
    ensures !t.mirror.dirty && t.mirror.file != Some(Heartbeats.ToJson(Projection(c, t, 0.0)))
  {}

  lemma StuckMirrorLies(c: Config, s: W, blank: string, disk: Disk)
    requires Hasty(c) && Sound(c, s) && MirrorOk(c, s) && Stuck(c, s) && !s.mirror.dirty && Blank(blank)
    ensures var (t, reply) := Step(c, s, BeginRecovery(1.0, blank), disk);
      && reply.Rejected? && !t.mirror.dirty
      && t.mirror.file != Some(Heartbeats.ToJson(Projection(c, t, 0.0)))
  {
    StuckSlipsThrough(c, s, blank, disk);
    StepKeepsMirror(c, s, BeginRecovery(1.0, blank), disk);
    StepKeepsReady(c, s, BeginRecovery(1.0, blank), disk);
    LieIs(c, Step(c, s, BeginRecovery(1.0, blank), disk).0);
  }

  lemma StalledMirrorIsOk(c: Config)
    requires Hasty(c)
    ensures var s := Reached(c, TO_A_STALL); Sound(c, s) && MirrorOk(c, s)
  {
    var s := Step(c, Init(c), TO_A_STALL[0].call, NO_DISK).0;
    InitialState(c);
    StepIsSound(c, Init(c), TO_A_STALL[0].call, NO_DISK);
    TimelyCallMirrors(c, Init(c), TO_A_STALL[0].call, NO_DISK);
    StepIsSound(c, s, TO_A_STALL[1].call, NO_DISK);
    TimelyCallMirrors(c, s, TO_A_STALL[1].call, NO_DISK);
    RunTwo(c, Init(c), TO_A_STALL[0], TO_A_STALL[1]);
    assert TO_A_STALL == [TO_A_STALL[0], TO_A_STALL[1]];
  }

  /** And with a disk that works the durable mirror lies: two calls later, once the heartbeat has been written,
      the blank reason is rejected and leaves a file that does not show the current state, not marked stale. */
  lemma CleanMirrorCanLie(c: Config)
    requires Hasty(c)
    ensures var s := Step(c, Reached(c, TO_A_STALL), SyncHeartbeat, GOOD_DISK).0;
      var (t, reply) := Step(c, s, BeginRecovery(1.0, ""), GOOD_DISK);
      && reply.Rejected? && !t.mirror.dirty
      && t.mirror.file != Some(Heartbeats.ToJson(Projection(c, t, 0.0)))
  {
    TwoCallsToAStall(c);
    StalledMirrorIsOk(c);
    CleanStuckState(c, Reached(c, TO_A_STALL));
    StuckMirrorLies(c, Step(c, Reached(c, TO_A_STALL), SyncHeartbeat, GOOD_DISK).0, "", GOOD_DISK);
  }

  /** Such a configuration. */
  const HASTY := Config("e",
    Policy(RoutingWeights(1.0, 1.0, 1.0), RoutingThresholds(0.2, 0.5, 0.8), ReasoningThresholds(0.1, 0.2, 0.4, 0.6, 0.8),
           WatchdogPolicy(true, 60.0, 3, 1, 3, 3, 50, 2, 30.0), BudgetPolicy(4, 1000, 5.0, 1000),
           CriticalRisk(0.8, 0.8, 0.8, Advanced, High, true), NoReasoning, 0.6, 0.6),
    10, Fast, Low, None, true, None)

  lemma HastyConfigurationsExist()
    ensures Hasty(HASTY)
  {
    NotBlankAt("e", 0);
  }

  // ---- a ladder used up without a single attempt -------------------------------------------------

  /** The ledger can take that many recovery charges in a row. */
  predicate Room(l: Ledger, tokens: int, cost: real, n: nat)
    decreases n
  {
    n == 0 ||
    match ChargeLedger(l, RecoveryCharge, tokens, cost)
    case Ok(charged) => Room(charged, tokens, cost, n - 1)
    case Err(_) => false
  }

  /** The episode bound lies beyond the ladder. */
  predicate Patient(c: Config, cost: real) {
    && Hasty(c) && c.policy.watchdog.maxRecoveryAttempts > |LADDER| && c.policy.watchdog.maxTotalAttempts >= 1
    && cost == EstimateCost(c.initialTier, c.contextTokens)
  }

  /** And the budget pays for all of it. */
  predicate Generous(c: Config, cost: real) {
    Patient(c, cost) && Room(Init(c).ledger, c.contextTokens, cost, |LADDER|)
  }

  /** A stall with the first k rungs used up and no attempt on record. */
  predicate UsedUp(c: Config, s: W, ladder: seq<Strategy>, k: nat) {
    && s.sm.state.Stalled? && s.clock == Some(1.0) && s.tier == c.initialTier
    && s.guard == Guard(0, k, 1, 1, 0) && s.episode.attempts == []
    && k <= |ladder| && s.episode.tried == ladder[..k]
  }

  function Blanks(n: nat, blank: string): seq<Action> {
    if n == 0 then [] else [Action(BeginRecovery(1.0, blank), NO_DISK)] + Blanks(n - 1, blank)
  }

  lemma UsedUpAdmits(c: Config, s: W, k: nat, cost: real, charged: Ledger)
    requires Patient(c, cost) && UsedUp(c, s, LADDER, k) && k < |LADDER| && cost == RecoveryCost(c, s)
    requires ChargeLedger(s.ledger, RecoveryCharge, c.contextTokens, cost) == Ok(charged)
    ensures Admit(c, s) == Admitted(LADDER[k], charged)
  {
    LadderIsClimbedInOrder(c.policy.watchdog, k, 1);
  }

  lemma BlankIsCommitted(c: Config, s: W, blank: string, strategy: Strategy, charged: Ledger)
    requires s.sm.state.Stalled? && s.clock == Some(1.0) && Blank(blank) && Admit(c, s) == Admitted(strategy, charged)
    ensures Step(c, s, BeginRecovery(1.0, blank), NO_DISK).0 == Committing(s, strategy, charged)
  {}

  /** n rungs are left, and there is room for them. */
  predicate OnTheWay(c: Config, s: W, ladder: seq<Strategy>, cost: real, n: nat) {
    n <= |ladder| && UsedUp(c, s, ladder, |ladder| - n) && Room(s.ledger, c.contextTokens, cost, n)
  }

  lemma UsesOneMore(c: Config, s: W, ladder: seq<Strategy>, cost: real, n: nat, charged: Ledger)
    requires OnTheWay(c, s, ladder, cost, n) && n > 0
    requires ChargeLedger(s.ledger, RecoveryCharge, c.contextTokens, cost) == Ok(charged)
    ensures OnTheWay(c, Committing(s, ladder[|ladder| - n], charged), ladder, cost, n - 1)
  {
    OneLonger(ladder, |ladder| - n);
  }

  lemma BlankStep(c: Config, s: W, ladder: seq<Strategy>, cost: real, n: nat, blank: string)
    requires Patient(c, cost) && ladder == LADDER && OnTheWay(c, s, ladder, cost, n) && n > 0 && Blank(blank)
    ensures OnTheWay(c, Step(c, s, BeginRecovery(1.0, blank), NO_DISK).0, ladder, cost, n - 1)
  {
    var charged := ChargeLedger(s.ledger, RecoveryCharge, c.contextTokens, cost).value;
    UsedUpAdmits(c, s, |ladder| - n, cost, charged);
    UsesOneMore(c, s, ladder, cost, n, charged);
    BlankIsCommitted(c, s, blank, ladder[|ladder| - n], charged);
  }

  lemma BlanksRun(c: Config, s: W, n: nat, blank: string)
    requires n > 0
    ensures Run(c, s, Blanks(n, blank)) == Run(c, Step(c, s, BeginRecovery(1.0, blank), NO_DISK).0, Blanks(n - 1, blank))
  {
    RunOne(c, s, Action(BeginRecovery(1.0, blank), NO_DISK), Blanks(n - 1, blank));
  }

  /** Every such call keeps inv and counts down by one. */
  ghost predicate CountsDown(c: Config, blank: string, inv: (W, nat) -> bool) {
    forall u: W, m: nat :: inv(u, m) && m > 0 ==> inv(Step(c, u, BeginRecovery(1.0, blank), NO_DISK).0, m - 1)
  }

  lemma {:induction false} BlanksCountDown(c: Config, s: W, n: nat, blank: string, inv: (W, nat) -> bool)
    requires CountsDown(c, blank, inv) && inv(s, n)
    ensures inv(Run(c, s, Blanks(n, blank)), 0)
    decreases n
  {
    if n > 0 {
      BlanksRun(c, s, n, blank);
      BlanksCountDown(c, Step(c, s, BeginRecovery(1.0, blank), NO_DISK).0, n - 1, blank, inv);
    }
  }

  lemma BlanksDescend(c: Config, ladder: seq<Strategy>, cost: real, blank: string)
    requires Patient(c, cost) && ladder == LADDER && Blank(blank)
    ensures CountsDown(c, blank, (u: W, m: nat) => OnTheWay(c, u, ladder, cost, m))
  {
    forall u: W, m: nat | OnTheWay(c, u, ladder, cost, m) && m > 0
      ensures OnTheWay(c, Step(c, u, BeginRecovery(1.0, blank), NO_DISK).0, ladder, cost, m - 1)
    {
      BlankStep(c, u, ladder, cost, m, blank);
    }
  }

  lemma BlanksUseUp(c: Config, s: W, ladder: seq<Strategy>, cost: real, n: nat, blank: string)
    requires Patient(c, cost) && ladder == LADDER && OnTheWay(c, s, ladder, cost, n) && Blank(blank)
    ensures OnTheWay(c, Run(c, s, Blanks(n, blank)), ladder, cost, 0)
  {
    BlanksDescend(c, ladder, cost, blank);
    BlanksCountDown(c, s, n, blank, (u: W, m: nat) => OnTheWay(c, u, ladder, cost, m));
  }

  lemma StuckIsOnTheWay(c: Config, s: W, ladder: seq<Strategy>, n: nat, cost: real)
    requires Generous(c, cost) && Stuck(c, s) && ladder == LADDER && n == |ladder|
    ensures OnTheWay(c, s, ladder, cost, n)
  {
    assert ladder[..0] == [];
  }

  lemma NothingLeft(c: Config, s: W, ladder: seq<Strategy>, cost: real)
    requires Patient(c, cost) && ladder == LADDER && UsedUp(c, s, ladder, |ladder|)
    ensures Admit(c, s) == Denied(NoStrategyLeft)
  {
    LadderIsClimbedInOrder(c.policy.watchdog, |LADDER|, 1);
  }

  lemma DenialReports(c: Config, s: W, reason: string, blocker: Blocker, disk: Disk)
    requires s.sm.state.Stalled? && s.clock == Some(1.0) && Admit(c, s) == Denied(blocker)
    ensures var t := Step(c, s, BeginRecovery(1.0, reason), disk).0;
      t.sm.state.Blocked? && t.report.Some? && t.report.value.blocker == blocker
      && t.report.value.attempts == |s.episode.attempts|
  {}

  lemma UsedUpLadderBlocks(c: Config, stuck: W, ladder: seq<Strategy>, n: nat, cost: real, blank: string, reason: string, disk: Disk)
    requires Generous(c, cost) && Stuck(c, stuck) && ladder == LADDER && n == |ladder| && Blank(blank)
    ensures var t := Step(c, Run(c, stuck, Blanks(n, blank)), BeginRecovery(1.0, reason), disk).0;
      && t.sm.state.Blocked? && t.report.Some?
      && t.report.value.blocker == NoStrategyLeft && t.report.value.attempts == 0
  {
    var s := Run(c, stuck, Blanks(n, blank));
    StuckIsOnTheWay(c, stuck, ladder, n, cost);
    BlanksUseUp(c, stuck, ladder, cost, n, blank);
    NothingLeft(c, s, ladder, cost);
    DenialReports(c, s, reason, NoStrategyLeft, disk);
  }

  /** Under such a configuration ten blank reasons use up the whole ladder, and the next recovery is blocked for
      want of a strategy although not one attempt was ever made. */
  lemma LadderCanRunOut(c: Config, cost: real, reason: string, disk: Disk)
    requires Generous(c, cost)
    ensures var s := Run(c, Reached(c, TO_A_STALL), Blanks(|LADDER|, ""));
      var t := Step(c, s, BeginRecovery(1.0, reason), disk).0;
      && t.sm.state.Blocked? && t.report.Some?
      && t.report.value.blocker == NoStrategyLeft && t.report.value.attempts == 0
  {
    TwoCallsToAStall(c);
    UsedUpLadderBlocks(c, Reached(c, TO_A_STALL), LADDER, |LADDER|, cost, "", reason, disk);
  }

  const GENEROUS := HASTY.(policy := HASTY.policy.(watchdog := HASTY.policy.watchdog.(maxRecoveryAttempts := 11)))

  lemma {:induction false} RoomEnough(l: Ledger, cost: real, n: nat)
    requires 0.0 <= cost <= 0.1
    requires TokensIn(l.entries, LIVE) + 10 * n <= l.maxTokens
    requires CostIn(l.entries, LIVE) + 0.1 * (n as real) <= l.maxCost
    ensures Room(l, 10, cost, n)
    decreases n
  {
    if n > 0 {
      ReservedIsCharged(l, RecoveryCharge, 10, cost);
      AppendTotals(l.entries, Reservation(|l.entries| + 1, RecoveryCharge, 10, cost, Committed), LIVE);
      RoomEnough(ChargeLedger(l, RecoveryCharge, 10, cost).value, cost, n - 1);
    }
  }

  lemma GenerousConfigurationsExist()
    ensures Generous(GENEROUS, EstimateCost(Fast, 10))
  {
    HastyConfigurationsExist();
    RoomEnough(Init(GENEROUS).ledger, EstimateCost(Fast, 10), |LADDER|);
  }
}
