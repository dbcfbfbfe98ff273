/** Whole runs of a supervised execution: any calls, in any order, with any write failures. */
module SupervisionRuns {
  import opened Common
  import opened Recovery
  import opened Supervision
  import opened SupervisionInvariants
  import opened SupervisionSoundness
  import opened SupervisionBounds
  import opened SupervisionAudit
  import opened SupervisionMoney
  import opened SupervisionLadder
  import opened SupervisionMirror
  import opened SupervisionWatch
  import opened SupervisionGrowth

  /** What every reachable state satisfies, whatever was called before. */
  ghost predicate InOrder(c: Config, s: W) { Sound(c, s) && Bounded(c, s) && Audited(c, s) }

  lemma StepIsInOrder(c: Config, s: W, call: Call, disk: Disk)
    requires c.Valid() && InOrder(c, s)
    ensures InOrder(c, Step(c, s, call, disk).0)
  {
    StepIsBounded(c, s, call, disk);
    StepIsAudited(c, s, call, disk);
  }

  lemma {:induction false} RunIsSound(c: Config, s: W, actions: seq<Action>)
    requires c.Valid() && Sound(c, s)
    ensures Sound(c, Run(c, s, actions))
    decreases |actions|
  {
    if actions != [] {
      StepIsSound(c, s, actions[0].call, actions[0].disk);
      RunIsSound(c, Step(c, s, actions[0].call, actions[0].disk).0, actions[1..]);
    }
  }

  lemma {:induction false} RunIsInOrder(c: Config, s: W, actions: seq<Action>)
    requires c.Valid() && InOrder(c, s)
    ensures InOrder(c, Run(c, s, actions))
    decreases |actions|
  {
    if actions != [] {
      StepIsInOrder(c, s, actions[0].call, actions[0].disk);
      RunIsInOrder(c, Step(c, s, actions[0].call, actions[0].disk).0, actions[1..]);
    }
  }

  lemma {:induction false} RunIsWatched(c: Config, s: W, actions: seq<Action>)
    requires c.Valid() && Sound(c, s) && Watched(c, s)
    ensures Watched(c, Run(c, s, actions))
    decreases |actions|
  {
    if actions != [] {
      StepIsSound(c, s, actions[0].call, actions[0].disk);
      StepKeepsWatch(c, s, actions[0].call, actions[0].disk);
      RunIsWatched(c, Step(c, s, actions[0].call, actions[0].disk).0, actions[1..]);
    }
  }

  lemma {:induction false} RunIsReady(c: Config, s: W, actions: seq<Action>)
    requires c.Valid() && Sound(c, s) && MirrorReady(c, s.mirror) && (s.startedAt.None? ==> !s.mirror.dirty)
    ensures var t := Run(c, s, actions); MirrorReady(c, t.mirror) && (t.startedAt.None? ==> !t.mirror.dirty)
    decreases |actions|
  {
    if actions != [] {
      StepIsSound(c, s, actions[0].call, actions[0].disk);
      StepKeepsReady(c, s, actions[0].call, actions[0].disk);
      StepGrows(c, s, actions[0].call, actions[0].disk);
      UnstartedStaysClean(c, s, actions[0].call, actions[0].disk);
      RunIsReady(c, Step(c, s, actions[0].call, actions[0].disk).0, actions[1..]);
    }
  }

  lemma {:induction false} RunIsPaid(c: Config, s: W, actions: seq<Action>)
    requires c.Valid() && Sound(c, s) && Paid(c, s.ledger, s.escalationsUsed)
    ensures var t := Run(c, s, actions); Paid(c, t.ledger, t.escalationsUsed)
    decreases |actions|
  {
    if actions != [] {
      StepIsSound(c, s, actions[0].call, actions[0].disk);
      StepIsPaid(c, s, actions[0].call, actions[0].disk);
      RunIsPaid(c, Step(c, s, actions[0].call, actions[0].disk).0, actions[1..]);
    }
  }

  /** Charges without an attempt are exactly the calls refused too late. */
  lemma {:induction false} RunOwes(c: Config, s: W, actions: seq<Action>)
    requires c.Valid() && InOrder(c, s)
    ensures Owed(Run(c, s, actions)) == Owed(s) + TooLate(c, s, actions)
    decreases |actions|
  {
    if actions != [] {
      StepIsInOrder(c, s, actions[0].call, actions[0].disk);
      StepOwes(c, s, actions[0].call, actions[0].disk);
      RunOwes(c, Step(c, s, actions[0].call, actions[0].disk).0, actions[1..]);
    }
  }

  lemma {:induction false} RunIsStraight(c: Config, s: W, actions: seq<Action>)
    requires c.Valid() && InOrder(c, s) && Straight(s) && TooLate(c, s, actions) == 0
    ensures Straight(Run(c, s, actions))
    decreases |actions|
  {
    if actions != [] {
      StepIsInOrder(c, s, actions[0].call, actions[0].disk);
      StepIsStraight(c, s, actions[0].call, actions[0].disk);
      RunIsStraight(c, Step(c, s, actions[0].call, actions[0].disk).0, actions[1..]);
    }
  }

  lemma InitialState(c: Config)
    requires c.Valid()
    ensures Sound(c, Init(c)) && InOrder(c, Init(c)) && Watched(c, Init(c)) && MirrorOk(c, Init(c))
    ensures Paid(c, Init(c).ledger, 0) && Owed(Init(c)) == 0 && Straight(Init(c))
  {
    assert LADDER[..0] == [];
  }

  /** The state after the given actions, from a fresh watchdog. */
  function Reached(c: Config, actions: seq<Action>): W { Run(c, Init(c), actions) }

  lemma ReachedIsSound(c: Config, actions: seq<Action>)
    requires c.Valid()
    ensures Sound(c, Reached(c, actions))
  {
    InitialState(c);
    RunIsSound(c, Init(c), actions);
  }

  /** Time, lifecycle, bounds and audit trail hold in every state a caller can reach. */
  lemma ReachedIsInOrder(c: Config, actions: seq<Action>)
    requires c.Valid()
    ensures InOrder(c, Reached(c, actions))
  {
    InitialState(c);
    RunIsInOrder(c, Init(c), actions);
  }

  lemma ReachedIsPaid(c: Config, actions: seq<Action>)
    requires c.Valid()
    ensures Paid(c, Reached(c, actions).ledger, Reached(c, actions).escalationsUsed)
    ensures Owed(Reached(c, actions)) == TooLate(c, Init(c), actions)
  {
    InitialState(c);
    RunIsPaid(c, Init(c), actions);
    RunOwes(c, Init(c), actions);
  }

  lemma ReachedIsStraight(c: Config, actions: seq<Action>)
    requires c.Valid() && TooLate(c, Init(c), actions) == 0
    ensures Straight(Reached(c, actions))
  {
    InitialState(c);
    RunIsStraight(c, Init(c), actions);
  }

  lemma {:induction false} RunsJoin(c: Config, s: W, first: seq<Action>, then': seq<Action>)
    ensures Run(c, s, first + then') == Run(c, Run(c, s, first), then')
    decreases |first|
  {
    if first == [] {
      assert first + then' == then';
    } else {
      assert (first + then')[1..] == first[1..] + then';
      RunsJoin(c, Step(c, s, first[0].call, first[0].disk).0, first[1..], then');
    }
  }

  lemma RunOne(c: Config, s: W, a: Action, rest: seq<Action>)
    ensures Run(c, s, [a] + rest) == Run(c, Step(c, s, a.call, a.disk).0, rest)
  {
    assert ([a] + rest)[1..] == rest;
  }

  lemma RunTwo(c: Config, s: W, a: Action, b: Action)
    ensures Run(c, s, [a, b]) == Step(c, Step(c, s, a.call, a.disk).0, b.call, b.disk).0
  {
    RunOne(c, s, a, [b]);
    RunOne(c, Step(c, s, a.call, a.disk).0, b, []);
    assert [a] + [b] == [a, b] && [b] + [] == [b];
  }

  // ---- the recovery audit trail -------------------------------------------------------------

  lemma ClosedEpisodesAre(c: Config, s: W, i: nat)
    requires Audited(c, s) && i < |s.closed|
    ensures EpisodeOk(s.closed[i], i + 1)
    ensures s.closed[i].outcome.GaveUp? <==> s.sm.state.Blocked? && i == |s.closed| - 1
    ensures i > 0 ==> s.closed[i - 1].closedAt <= s.closed[i].openedAt
  {}

  lemma EpisodesAreCounted(c: Config, s: W)
    requires Audited(c, s)
    ensures |s.closed| + (if s.sm.state.Stalled? || s.sm.state.Recovering? then 1 else 0) == s.episode.number
    ensures s.sm.state.Blocked? ==> s.closed != []
  {}

  /** Closed episodes are numbered 1..n in order and never overlap; one is open exactly in Stalled and
      Recovering; attempts climb the ladder; a resolved episode is failures and then a success; only the
      last can have given up, exactly in Blocked, on failures alone. */
  lemma AuditTrail(c: Config, actions: seq<Action>)
    requires c.Valid()
    ensures var s := Reached(c, actions);
      && |s.closed| + (if s.sm.state.Stalled? || s.sm.state.Recovering? then 1 else 0) == s.episode.number
      && (forall i :: 0 <= i < |s.closed| ==>
            && s.closed[i].number == i + 1
            && s.closed[i].openedAt <= s.closed[i].closedAt
            && Climbing(s.closed[i].attempts, |LADDER|)
            && (if s.closed[i].outcome.Resolved? then AllFailedBut(s.closed[i].attempts, Success)
                else AllFailed(s.closed[i].attempts) && s.sm.state.Blocked? && i == |s.closed| - 1))
      && (forall i :: 0 < i < |s.closed| ==> s.closed[i - 1].closedAt <= s.closed[i].openedAt)
      && (s.sm.state.Blocked? ==> s.closed != [] && s.closed[|s.closed| - 1].outcome.GaveUp?)
  {
    var s := Reached(c, actions);
    ReachedIsInOrder(c, actions);
    EpisodesAreCounted(c, s);
    forall i | 0 <= i < |s.closed|
      ensures EpisodeOk(s.closed[i], i + 1)
      ensures s.closed[i].outcome.GaveUp? <==> s.sm.state.Blocked? && i == |s.closed| - 1
      ensures i > 0 ==> s.closed[i - 1].closedAt <= s.closed[i].openedAt
    {
      ClosedEpisodesAre(c, s, i);
    }
  }

  lemma OpenEpisodeIs(c: Config, s: W)
    requires Audited(c, s)
    ensures LadderOk(c.policy.watchdog, s.sm.state, s.guard, s.episode)
    ensures Open(s.sm.state) ==>
      && s.episode.openedAt.Some?
      && (s.closed != [] ==> s.closed[|s.closed| - 1].closedAt <= s.episode.openedAt.value)
  {}

  /** Within an episode the strategies used up are the ladder, rung by rung and within both bounds, each
      charged once; the attempts on record used some of them in order; and while the episode is open it
      began no earlier than the one before it closed. */
  lemma OpenEpisode(c: Config, actions: seq<Action>)
    requires c.Valid()
    ensures var s := Reached(c, actions);
      && |s.episode.attempts| <= |s.episode.tried| <= Min(|LADDER|, c.policy.watchdog.maxRecoveryAttempts)
      && s.episode.tried == LADDER[..|s.episode.tried|]
      && s.guard.recoveryAttempts == |s.episode.tried|
      && Climbing(s.episode.attempts, |s.episode.tried|)
      && (s.sm.state.Stalled? ==> AllFailed(s.episode.attempts))
      && (s.sm.state.Recovering? ==> AllFailedBut(s.episode.attempts, Pending))
      && (s.sm.state.Stalled? || s.sm.state.Recovering? ==>
            && s.episode.openedAt.Some?
            && (s.closed != [] ==> s.closed[|s.closed| - 1].closedAt <= s.episode.openedAt.value))
  {
    ReachedIsInOrder(c, actions);
    OpenEpisodeIs(c, Reached(c, actions));
  }

  /** As long as no call has been refused too late, every attempt ever made used the next rung: attempt i of
      an episode is rung i, and nothing is used up without an attempt on record. */
  lemma NoRungIsSkipped(c: Config, actions: seq<Action>)
    requires c.Valid() && TooLate(c, Init(c), actions) == 0
    ensures var s := Reached(c, actions);
      && |s.episode.attempts| == |s.episode.tried| && OnLadder(s.episode.attempts)
      && forall i :: 0 <= i < |s.closed| ==> OnLadder(s.closed[i].attempts)
  {
    var s := Reached(c, actions);
    ReachedIsInOrder(c, actions);
    ReachedIsStraight(c, actions);
    OpenEpisodeIs(c, s);
    FullClimbIsOnLadder(s.episode.attempts);
  }
}
