/** The recovery ladder and the loop-protection counters (watchdog/recovery.py). */
module Recovery {
  import opened Common
  import opened Policies

  datatype Strategy =
    | ReReadError | InspectAssumptions | SplitTask | ChangeApproach | RestoreCheckpoint
    | RestartTool | UseAnotherAgent | IncreaseReasoning | ChangeModelTier | RequestHumanIntervention

  const LADDER: seq<Strategy> := [
    ReReadError, InspectAssumptions, SplitTask, ChangeApproach, RestoreCheckpoint,
    RestartTool, UseAnotherAgent, IncreaseReasoning, ChangeModelTier, RequestHumanIntervention]

  /** The position of a strategy on the ladder. */
  function Rung(s: Strategy): (i: nat)
    ensures i < |LADDER| && LADDER[i] == s
  {
    match s
    case ReReadError => 0
    case InspectAssumptions => 1
    case SplitTask => 2
    case ChangeApproach => 3
    case RestoreCheckpoint => 4
    case RestartTool => 5
    case UseAnotherAgent => 6
    case IncreaseReasoning => 7
    case ChangeModelTier => 8
    case RequestHumanIntervention => 9
  }

  /** The first rung from index i on that has not been tried. */
  function FirstUntried(tried: seq<Strategy>, i: nat): Option<Strategy>
    requires i <= |LADDER|
    decreases |LADDER| - i
  {
    if i == |LADDER| then None
    else if LADDER[i] !in tried then Some(LADDER[i])
    else FirstUntried(tried, i + 1)
  }

  function NextStrategy(p: WatchdogPolicy, tried: seq<Strategy>, attemptNumber: int): Option<Strategy> {
    if attemptNumber > p.maxRecoveryAttempts then None
    else if tried != [] && tried[|tried| - 1] == RequestHumanIntervention then None
    else FirstUntried(tried, 0)
  }

  lemma LadderRungs(i: nat)
    requires i < |LADDER|
    ensures Rung(LADDER[i]) == i
  {}

  lemma RungsDiffer(i: nat, j: nat)
    requires i < j < |LADDER|
    ensures LADDER[i] != LADDER[j]
  {}

  lemma {:induction false} FirstUntriedSkips(k: nat, i: nat)
    requires i <= k < |LADDER|
    ensures FirstUntried(LADDER[..k], i) == Some(LADDER[k])
    decreases k - i
  {
    if i < k {
      assert LADDER[..k][i] == LADDER[i];
      FirstUntriedSkips(k, i + 1);
    } else {
      forall j | 0 <= j < k ensures LADDER[..k][j] != LADDER[k] { RungsDiffer(j, k); }
    }
  }

  /** After a prefix of the ladder the next rung is the next strategy, exactly while one is left
      and the attempt bound is not passed. */
  lemma LadderIsClimbedInOrder(p: WatchdogPolicy, k: nat, attemptNumber: int)
    requires k <= |LADDER|
    ensures NextStrategy(p, LADDER[..k], attemptNumber) ==
            if attemptNumber <= p.maxRecoveryAttempts && k < |LADDER| then Some(LADDER[k]) else None
  {
    if k == |LADDER| {
      assert LADDER[..k][k - 1] == RequestHumanIntervention;
    } else {
      if k > 0 {
        RungsDiffer(k - 1, |LADDER| - 1);
      }
      FirstUntriedSkips(k, 0);
    }
  }

  lemma {:induction false} UntriedIsNew(tried: seq<Strategy>, i: nat)
    requires i <= |LADDER| && forall k :: 0 <= k < i ==> LADDER[k] in tried
    ensures FirstUntried(tried, i).Some? ==>
      && FirstUntried(tried, i).value !in tried
      && forall k :: 0 <= k < Rung(FirstUntried(tried, i).value) ==> LADDER[k] in tried
    decreases |LADDER| - i
  {
    if i < |LADDER| {
      if LADDER[i] in tried { UntriedIsNew(tried, i + 1); } else { LadderRungs(i); }
    }
  }

  /** Whatever has been tried, in whatever order, the next strategy is the lowest rung that is none of it, and there is
      none exactly past the attempt bound, after the last resort, or once every rung has been tried. */
  lemma NeverRepeated(p: WatchdogPolicy, tried: seq<Strategy>, attemptNumber: int)
    ensures NextStrategy(p, tried, attemptNumber).Some? ==>
      && NextStrategy(p, tried, attemptNumber).value !in tried
      && forall k :: 0 <= k < Rung(NextStrategy(p, tried, attemptNumber).value) ==> LADDER[k] in tried
    ensures NextStrategy(p, tried, attemptNumber).None? <==>
      || attemptNumber > p.maxRecoveryAttempts
      || (tried != [] && tried[|tried| - 1] == RequestHumanIntervention)
      || (forall s: Strategy :: s in tried)
  {
    UntriedIsNew(tried, 0);
    UntriedExists(tried, 0);
    if FirstUntried(tried, 0).None? {
      forall s: Strategy ensures s in tried { assert LADDER[Rung(s)] == s; }
    }
  }

  lemma {:induction false} UntriedExists(tried: seq<Strategy>, i: nat)
    requires i <= |LADDER|
    ensures FirstUntried(tried, i).None? <==> forall k :: i <= k < |LADDER| ==> LADDER[k] in tried
    decreases |LADDER| - i
  {
    if i < |LADDER| && LADDER[i] in tried { UntriedExists(tried, i + 1); }
  }

  class RecoveryEngine {
    const policy: WatchdogPolicy

    constructor (policy: WatchdogPolicy)
      ensures this.policy == policy
    {
      this.policy := policy;
    }

    method ChooseStrategy(tried: seq<Strategy>, attemptNumber: int) returns (r: Result<Strategy>)
      ensures r == match NextStrategy(policy, tried, attemptNumber)
        case Some(s) => Ok(s)
        case None => Err(RecoveryExhausted)
    {
      if attemptNumber > policy.maxRecoveryAttempts {
        return Err(RecoveryExhausted);
      }
      if tried != [] && tried[|tried| - 1] == LADDER[|LADDER| - 1] {
        return Err(RecoveryExhausted);
      }
      for i := 0 to |LADDER|
        invariant FirstUntried(tried, 0) == FirstUntried(tried, i)
      {
        if LADDER[i] !in tried {
          return Ok(LADDER[i]);
        }
      }
      r := Err(RecoveryExhausted);
    }
  }

  datatype GuardBound = IdenticalFailureBound | NoProgressBound | TotalAttemptBound | EscalationBound

  datatype Guard = Guard(
    streak: nat,
    recoveryAttempts: nat,
    noProgressCycles: nat,
    totalAttempts: nat,
    escalations: nat)

  /** The global bounds whose counter has gone strictly past its maximum. */
  function Violations(p: WatchdogPolicy, g: Guard): seq<GuardBound> {
    (if g.streak > p.maxIdenticalFailures then [IdenticalFailureBound] else [])
    + (if g.noProgressCycles > p.maxNoProgressCycles then [NoProgressBound] else [])
    + (if g.totalAttempts > p.maxTotalAttempts then [TotalAttemptBound] else [])
    + (if g.escalations > 0 && g.escalations > p.maxModelEscalations then [EscalationBound] else [])
  }

  /** Each bound is named exactly when its counter has gone past its maximum; no bound of escalations without one. */
  lemma ViolationsExactly(p: WatchdogPolicy, g: Guard)
    ensures IdenticalFailureBound in Violations(p, g) <==> g.streak > p.maxIdenticalFailures
    ensures NoProgressBound in Violations(p, g) <==> g.noProgressCycles > p.maxNoProgressCycles
    ensures TotalAttemptBound in Violations(p, g) <==> g.totalAttempts > p.maxTotalAttempts
    ensures EscalationBound in Violations(p, g) <==> g.escalations > Max(0, p.maxModelEscalations)
  {}

  class LoopGuard {
    const policy: WatchdogPolicy
    var identicalFailureStreak: nat
    var recoveryAttempts: nat
    var noProgressCycles: nat
    var totalAttempts: nat
    var modelEscalations: nat

    function Contents(): Guard
      reads this
    {
      Guard(identicalFailureStreak, recoveryAttempts, noProgressCycles, totalAttempts, modelEscalations)
    }

    constructor (policy: WatchdogPolicy)
      ensures this.policy == policy && Contents() == Guard(0, 0, 0, 0, 0)
    {
      this.policy := policy;
      identicalFailureStreak, recoveryAttempts, noProgressCycles := 0, 0, 0;
      totalAttempts, modelEscalations := 0, 0;
    }

    method RecordAttempt()
      modifies this
      ensures Contents() == old(Contents()).(totalAttempts := old(totalAttempts) + 1)
    {
      totalAttempts := totalAttempts + 1;
    }

    method RecordIdenticalFailure(isRepeat: bool)
      modifies this
      ensures Contents() == old(Contents()).(streak := if isRepeat then old(identicalFailureStreak) + 1 else 0)
    {
      identicalFailureStreak := if isRepeat then identicalFailureStreak + 1 else 0;
    }

    method RecordNoProgressCycle()
      modifies this
      ensures Contents() == old(Contents()).(noProgressCycles := old(noProgressCycles) + 1)
    {
      noProgressCycles := noProgressCycles + 1;
    }

    method RecordProgress()
      modifies this
      ensures Contents() == old(Contents()).(noProgressCycles := 0)
    {
      noProgressCycles := 0;
    }

    method RecordEscalation()
      modifies this
      ensures Contents() == old(Contents()).(escalations := old(modelEscalations) + 1)
    {
      modelEscalations := modelEscalations + 1;
    }

    predicate CanStartRecoveryAttempt()
      reads this
    {
      recoveryAttempts < policy.maxRecoveryAttempts
    }

    method RecordRecoveryAttemptStarted()
      modifies this
      ensures Contents() == old(Contents()).(recoveryAttempts := old(recoveryAttempts) + 1)
    {
      recoveryAttempts := recoveryAttempts + 1;
    }

    method StartNewRecoveryEpisode()
      modifies this
      ensures Contents() == old(Contents()).(recoveryAttempts := 0)
    {
      recoveryAttempts := 0;
    }

    method Exceeded() returns (exceeded: bool, reasons: seq<GuardBound>)
      ensures reasons == Violations(policy, Contents())
      ensures exceeded <==> reasons != []
    {
      reasons := [];
      if identicalFailureStreak > policy.maxIdenticalFailures {
        reasons := reasons + [IdenticalFailureBound];
      }
      if noProgressCycles > policy.maxNoProgressCycles {
        reasons := reasons + [NoProgressBound];
      }
      if totalAttempts > policy.maxTotalAttempts {
        reasons := reasons + [TotalAttemptBound];
      }
      if modelEscalations > 0 && modelEscalations > policy.maxModelEscalations {
        reasons := reasons + [EscalationBound];
      }
      exceeded := reasons != [];
    }
  }
}
