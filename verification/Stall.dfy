/** Progress log and stall detection (watchdog/progress.py, watchdog/stall_detection.py). */
module Stall {
  import opened Common
  import opened Policies

  datatype Activity = Activity(
    at: real,
    fingerprint: string,
    succeeded: bool,
    trivial: bool,
    duration: real,
    error: Option<string>)

  datatype ProgressEvent = ProgressEvent(description: string, at: real)

  datatype StallSignal =
    | NoProgress(elapsed: real, attempts: nat)
    | IdenticalFailures(failures: nat, fingerprint: string)
    | CircularAttempts(fingerprint: string, repeats: nat)
    | SlowTrivialCommands(commands: nat)

  // ---- the progress log ----------------------------------------------------

  function LatestProgress(events: seq<ProgressEvent>): Option<real> {
    if events == [] then None
    else
      var earlier := LatestProgress(events[..|events| - 1]);
      var last := events[|events| - 1].at;
      Some(if earlier.Some? then MaxReal(earlier.value, last) else last)
  }

  predicate Chronological(events: seq<ProgressEvent>) {
    forall i, j :: 0 <= i < j < |events| ==> events[i].at <= events[j].at
  }

  lemma {:induction false} LatestIsLast(events: seq<ProgressEvent>)
    requires Chronological(events) && events != []
    ensures LatestProgress(events) == Some(events[|events| - 1].at)
  {
    if |events| > 1 {
      LatestIsLast(events[..|events| - 1]);
    }
  }

  class ProgressTracker {
    var events: seq<ProgressEvent>

    constructor ()
      ensures events == []
    {
      events := [];
    }

    method LastProgressAt() returns (latest: Option<real>)
      ensures latest == LatestProgress(events)
    {
      latest := None;
      for i := 0 to |events|
        invariant latest == LatestProgress(events[..i])
      {
        assert events[..i + 1][..i] == events[..i];
        latest := Some(if latest.Some? then MaxReal(latest.value, events[i].at) else events[i].at);
      }
      assert events[..|events|] == events;
    }

    method Record(event: ProgressEvent) returns (refusal: Option<Error>)
      modifies this
      ensures refusal.Some? <==>
              old(LatestProgress(events)).Some? && event.at < old(LatestProgress(events)).value
      ensures refusal.Some? ==> refusal.value == InvalidObservation && events == old(events)
      ensures refusal.None? ==> events == old(events) + [event]
    {
      var latest := LastProgressAt();
      if events != [] && event.at < latest.value {
        return Some(InvalidObservation);
      }
      events := events + [event];
      refusal := None;
    }
  }

  // ---- what the detector looks at ------------------------------------------

  function Since(acts: seq<Activity>, boundary: real): seq<Activity> {
    if acts == [] then []
    else
      var last := acts[|acts| - 1];
      Since(acts[..|acts| - 1], boundary) + if last.at > boundary then [last] else []
  }

  function TrailingFailures(acts: seq<Activity>): (n: nat)
    ensures n <= |acts|
    ensures forall i :: |acts| - n <= i < |acts| ==> !acts[i].succeeded
    ensures n < |acts| ==> acts[|acts| - 1 - n].succeeded
  {
    if acts == [] || acts[|acts| - 1].succeeded then 0 else 1 + TrailingFailures(acts[..|acts| - 1])
  }

  predicate OneFingerprint(acts: seq<Activity>) {
    forall i :: 0 <= i < |acts| ==> acts[i].fingerprint == acts[|acts| - 1].fingerprint
  }

  function Count(acts: seq<Activity>, fingerprint: string): nat {
    if acts == [] then 0
    else
      Count(acts[..|acts| - 1], fingerprint)
      + if acts[|acts| - 1].fingerprint == fingerprint then 1 else 0
  }

  /** The first position from i on whose fingerprint occurs at least limit times overall. */
  function FirstRepeated(acts: seq<Activity>, limit: int, i: nat): Option<nat>
    requires i <= |acts|
    decreases |acts| - i
  {
    if i == |acts| then None
    else if Count(acts, acts[i].fingerprint) >= limit then Some(i)
    else FirstRepeated(acts, limit, i + 1)
  }

  function SlowTrivial(acts: seq<Activity>, timeout: real): nat {
    if acts == [] then 0
    else
      var last := acts[|acts| - 1];
      SlowTrivial(acts[..|acts| - 1], timeout) + if last.trivial && last.duration >= timeout then 1 else 0
  }

  function CircularLimit(p: WatchdogPolicy): int { Max(3, p.maxIdenticalFailures + 1) }

  function TimeSignal(p: WatchdogPolicy, elapsed: real, since: seq<Activity>): seq<StallSignal> {
    if elapsed >= p.noProgressSeconds && |since| >= p.noProgressCycles
    then [NoProgress(elapsed, |since|)] else []
  }

  function IdenticalSignal(p: WatchdogPolicy, since: seq<Activity>): seq<StallSignal> {
    var n := TrailingFailures(since);
    if 0 < n && n >= p.maxIdenticalFailures && OneFingerprint(since[|since| - n..])
    then [IdenticalFailures(n, since[|since| - 1].fingerprint)] else []
  }

  function CircularSignal(p: WatchdogPolicy, since: seq<Activity>): seq<StallSignal> {
    match FirstRepeated(since, CircularLimit(p), 0)
    case None => []
    case Some(i) =>
      if i < |since|
      then [CircularAttempts(since[i].fingerprint, Count(since, since[i].fingerprint))] else []
  }

  function SlowSignal(p: WatchdogPolicy, since: seq<Activity>): seq<StallSignal> {
    var n := SlowTrivial(since, p.trivialTimeout);
    if n >= 2 then [SlowTrivialCommands(n)] else []
  }

  /** The signals that do not depend on the clock. */
  function TimelessSignals(p: WatchdogPolicy, since: seq<Activity>): seq<StallSignal> {
    IdenticalSignal(p, since) + CircularSignal(p, since) + SlowSignal(p, since)
  }

  function Boundary(startedAt: real, lastProgress: Option<real>): real {
    if lastProgress.Some? then lastProgress.value else startedAt
  }

  function Verdict(p: WatchdogPolicy, now: real, startedAt: real, lastProgress: Option<real>, acts: seq<Activity>)
    : seq<StallSignal>
  {
    if !p.enabled then []
    else
      var boundary := Boundary(startedAt, lastProgress);
      var since := Since(acts, boundary);
      TimeSignal(p, MaxReal(0.0, now - boundary), since) + TimelessSignals(p, since)
  }

  class StallDetector {
    const policy: WatchdogPolicy

    constructor (policy: WatchdogPolicy)
      ensures this.policy == policy
    {
      this.policy := policy;
    }

    method Evaluate(now: real, startedAt: real, lastProgress: Option<real>, acts: seq<Activity>)
      returns (reasons: seq<StallSignal>)
      requires policy.Valid()
      ensures reasons == Verdict(policy, now, startedAt, lastProgress, acts)
      ensures reasons != [] <==>
        policy.enabled && Unsettled(policy, now, if lastProgress.Some? then lastProgress.value else startedAt, acts)
    {
      VerdictExactly(policy, now, startedAt, lastProgress, acts);
      if !policy.enabled {
        return [];
      }
      var boundary := if lastProgress.Some? then lastProgress.value else startedAt;
      reasons := Signals(MaxReal(0.0, now - boundary), Since(acts, boundary));
    }

    method Signals(elapsed: real, since: seq<Activity>) returns (reasons: seq<StallSignal>)
      requires policy.Valid()
      ensures reasons == TimeSignal(policy, elapsed, since) + TimelessSignals(policy, since)
    {
      var timed := FindTimeout(elapsed, since);
      var identical := FindIdentical(since);
      var circular := FindCircular(since);
      var slow := FindSlow(since);
      reasons := timed + (identical + circular + slow);
    }

    method FindTimeout(elapsed: real, since: seq<Activity>) returns (found: seq<StallSignal>)
      ensures found == TimeSignal(policy, elapsed, since)
    {
      found := [];
      if elapsed >= policy.noProgressSeconds && |since| >= policy.noProgressCycles {
        found := found + [NoProgress(elapsed, |since|)];
      }
    }

    method FindSlow(since: seq<Activity>) returns (found: seq<StallSignal>)
      ensures found == SlowSignal(policy, since)
    {
      found := [];
      var slow := 0;
      for i := 0 to |since|
        invariant slow == SlowTrivial(since[..i], policy.trivialTimeout)
      {
        assert since[..i + 1][..i] == since[..i];
        if since[i].trivial && since[i].duration >= policy.trivialTimeout {
          slow := slow + 1;
        }
      }
      assert since[..|since|] == since;
      if slow >= 2 {
        found := found + [SlowTrivialCommands(slow)];
      }
    }

    method FindIdentical(since: seq<Activity>) returns (found: seq<StallSignal>)
      requires policy.Valid()
      ensures found == IdenticalSignal(policy, since)
    {
      found := [];
      var failures := CountTrailing(since);
      if failures >= policy.maxIdenticalFailures {
        var trailing := since[|since| - failures..];
        var fingerprints := set a | a in trailing :: a.fingerprint;
        SingleMeansUniform(trailing, fingerprints);
        assert trailing[|trailing| - 1] == since[|since| - 1];
        if |fingerprints| == 1 {
          found := [IdenticalFailures(failures, trailing[0].fingerprint)];
        }
      }
    }

    method CountTrailing(since: seq<Activity>) returns (failures: nat)
      ensures failures == TrailingFailures(since)
    {
      failures := 0;
      var i := |since|;
      while i > 0 && !since[i - 1].succeeded
        invariant 0 <= i <= |since|
        invariant failures + TrailingFailures(since[..i]) == TrailingFailures(since)
        invariant i == |since| - failures
      {
        assert since[..i][..i - 1] == since[..i - 1];
        failures := failures + 1;
        i := i - 1;
      }
    }

    method FindCircular(since: seq<Activity>) returns (found: seq<StallSignal>)
      ensures found == CircularSignal(policy, since)
    {
      var counts: map<string, nat> := map[];
      for i := 0 to |since|
        invariant forall f :: (if f in counts then counts[f] else 0) == Count(since[..i], f)
        invariant forall j :: 0 <= j < i ==> since[j].fingerprint in counts
      {
        var f := since[i].fingerprint;
        assert since[..i + 1][..i] == since[..i];
        counts := counts[f := 1 + if f in counts then counts[f] else 0];
      }
      assert since[..|since|] == since;
      for i := 0 to |since|
        invariant FirstRepeated(since, CircularLimit(policy), 0) == FirstRepeated(since, CircularLimit(policy), i)
      {
        var f := since[i].fingerprint;
        if counts[f] >= CircularLimit(policy) {
          return [CircularAttempts(f, counts[f])];
        }
      }
      found := [];
    }
  }

  lemma OnlyMember(s: set<string>, x: string, y: string)
    requires |s| == 1 && x in s && y in s
    ensures x == y
  {
    assert |s - {x}| == 0;
  }

  lemma SingleMeansUniform(trailing: seq<Activity>, fingerprints: set<string>)
    requires fingerprints == set a | a in trailing :: a.fingerprint
    ensures trailing != [] ==> (|fingerprints| == 1 <==> OneFingerprint(trailing))
    ensures trailing == [] ==> |fingerprints| == 0
  {
    if trailing != [] {
      var last := trailing[|trailing| - 1];
      assert last in trailing;
      assert last.fingerprint in fingerprints;
      if |fingerprints| == 1 {
        forall i | 0 <= i < |trailing| ensures trailing[i].fingerprint == last.fingerprint {
          assert trailing[i] in trailing;
          OnlyMember(fingerprints, trailing[i].fingerprint, last.fingerprint);
        }
      }
      if OneFingerprint(trailing) {
        assert fingerprints == {last.fingerprint};
      }
    }
  }

  // ---- facts about the boundary filter -------------------------------------

  predicate ActivitiesOrdered(acts: seq<Activity>) {
    forall i, j :: 0 <= i < j < |acts| ==> acts[i].at <= acts[j].at
  }

  /** Activity at or before the boundary is never counted. */
  lemma {:induction false} NothingSince(acts: seq<Activity>, boundary: real)
    requires forall i :: 0 <= i < |acts| ==> acts[i].at <= boundary
    ensures Since(acts, boundary) == []
  {
    if acts != [] { NothingSince(acts[..|acts| - 1], boundary); }
  }

  lemma SinceAppend(acts: seq<Activity>, a: Activity, boundary: real)
    ensures Since(acts + [a], boundary) == Since(acts, boundary) + if a.at > boundary then [a] else []
  {
    assert (acts + [a])[..|acts|] == acts;
  }

  // ---- what silence of the detector guarantees -----------------------------

  function Fingerprints(acts: seq<Activity>): set<string> {
    set i | 0 <= i < |acts| :: acts[i].fingerprint
  }

  lemma FingerprintsAppend(acts: seq<Activity>, a: Activity)
    ensures Fingerprints(acts + [a]) == Fingerprints(acts) + {a.fingerprint}
  {
    var more := acts + [a];
    assert more[|acts|] == a;
    forall f | f in Fingerprints(acts) ensures f in Fingerprints(more) {
      var i :| 0 <= i < |acts| && acts[i].fingerprint == f;
      assert more[i] == acts[i];
    }
  }

  lemma {:induction false} CountedIsSeen(acts: seq<Activity>, f: string)
    ensures Count(acts, f) > 0 <==> f in Fingerprints(acts)
  {
    if acts != [] {
      CountedIsSeen(acts[..|acts| - 1], f);
      FingerprintsAppend(acts[..|acts| - 1], acts[|acts| - 1]);
      assert acts == acts[..|acts| - 1] + [acts[|acts| - 1]];
    }
  }

  lemma {:induction false} FirstRepeatedIsFirst(acts: seq<Activity>, limit: int, i: nat)
    requires i <= |acts|
    ensures var r := FirstRepeated(acts, limit, i);
      && (r.None? ==> forall j :: i <= j < |acts| ==> Count(acts, acts[j].fingerprint) < limit)
      && (r.Some? ==> i <= r.value < |acts| && Count(acts, acts[r.value].fingerprint) >= limit)
    decreases |acts| - i
  {
    if i < |acts| && Count(acts, acts[i].fingerprint) < limit {
      FirstRepeatedIsFirst(acts, limit, i + 1);
    }
  }

  /** Silence of the timeless signals, spelled out: no fingerprint repeats to the limit, at most one
      slow trivial command, and a maximal failing suffix that is short or mixed. */
  ghost predicate Quiet(p: WatchdogPolicy, since: seq<Activity>) {
    && (forall f :: Count(since, f) < CircularLimit(p))
    && SlowTrivial(since, p.trivialTimeout) < 2
    && (TrailingFailures(since) < p.maxIdenticalFailures
        || !OneFingerprint(since[|since| - TrailingFailures(since)..]))
  }

  lemma SilenceMeansQuiet(p: WatchdogPolicy, since: seq<Activity>)
    requires p.Valid()
    ensures TimelessSignals(p, since) == [] <==> Quiet(p, since)
  {
    FirstRepeatedIsFirst(since, CircularLimit(p), 0);
    if CircularSignal(p, since) == [] {
      forall f ensures Count(since, f) < CircularLimit(p) {
        CountedIsSeen(since, f);
      }
    } else {
      var i := FirstRepeated(since, CircularLimit(p), 0).value;
      assert Count(since, since[i].fingerprint) >= CircularLimit(p);
    }
  }

  lemma NoActivityNoSignal(p: WatchdogPolicy, elapsed: real)
    requires p.Valid()
    ensures TimeSignal(p, elapsed, []) + TimelessSignals(p, []) == []
  {
    assert FirstRepeated([], CircularLimit(p), 0) == None;
  }

  /** Every signal needs at least one activity strictly after the boundary. */
  lemma StallNeedsNewActivity(p: WatchdogPolicy, now: real, startedAt: real, lastProgress: Option<real>, acts: seq<Activity>)
    requires p.Valid()
    requires Verdict(p, now, startedAt, lastProgress, acts) != []
    ensures Since(acts, Boundary(startedAt, lastProgress)) != []
  {
    NoActivityNoSignal(p, MaxReal(0.0, now - Boundary(startedAt, lastProgress)));
  }

  /** The last m activities failed with one fingerprint. */
  predicate IdenticalTail(acts: seq<Activity>, m: nat) {
    m <= |acts| && forall i :: |acts| - m <= i < |acts| ==>
      !acts[i].succeeded && acts[i].fingerprint == acts[|acts| - 1].fingerprint
  }

  lemma FailingTailIsUniform(acts: seq<Activity>, n: nat)
    requires 0 < n <= |acts|
    ensures OneFingerprint(acts[|acts| - n..]) <==>
            forall i :: |acts| - n <= i < |acts| ==> acts[i].fingerprint == acts[|acts| - 1].fingerprint
  {
    var tail := acts[|acts| - n..];
    assert tail[n - 1] == acts[|acts| - 1];
    if OneFingerprint(tail) {
      forall i | |acts| - n <= i < |acts| ensures acts[i].fingerprint == acts[|acts| - 1].fingerprint {
        assert acts[i] == tail[i - (|acts| - n)];
      }
    }
  }

  /** m trailing failures with one fingerprint raise the identical-failure signal exactly when the
      failures before them, back to the last success, carry that fingerprint too. */
  lemma IdenticalSignalExactly(p: WatchdogPolicy, since: seq<Activity>)
    requires p.Valid() && IdenticalTail(since, p.maxIdenticalFailures)
    ensures IdenticalSignal(p, since) != [] <==>
            forall i :: |since| - TrailingFailures(since) <= i < |since| - p.maxIdenticalFailures ==>
              since[i].fingerprint == since[|since| - 1].fingerprint
  {
    var n := TrailingFailures(since);
    assert n >= p.maxIdenticalFailures;
    FailingTailIsUniform(since, n);
  }

  lemma IdenticalSignalIsHeard(p: WatchdogPolicy, now: real, startedAt: real, lastProgress: Option<real>, acts: seq<Activity>)
    requires p.enabled && IdenticalSignal(p, Since(acts, Boundary(startedAt, lastProgress))) != []
    ensures Verdict(p, now, startedAt, lastProgress, acts) != []
  {}

  /** With a limit of one, a single failure after the boundary is a stall. */
  lemma OneFailureSignals(p: WatchdogPolicy, a: Activity, startedAt: real)
    requires p.Valid() && p.maxIdenticalFailures == 1 && !a.succeeded && a.at > startedAt
    ensures IdenticalSignal(p, Since([a], startedAt)) != []
  {
    assert [] + [a] == [a];
    SinceAppend([], a, startedAt);
    assert Since([a], startedAt) == [a];
    OneMoreCounted([], a, a.fingerprint, 1.0);
    IdenticalSignalExactly(p, [a]);
  }

  /** The converse a reader might expect fails: two identical failures after a different one. */
  lemma IdenticalTailCanStaySilent(p: WatchdogPolicy)
    requires p.Valid() && p.maxIdenticalFailures == 2
    ensures var a := Activity(1.0, "a", false, false, 0.0, None);
      var b := Activity(1.0, "b", false, false, 0.0, None);
      TimelessSignals(p, [a, b, b]) == []
  {
    var a := Activity(1.0, "a", false, false, 0.0, None);
    var b := Activity(1.0, "b", false, false, 0.0, None);
    var one, two, since := [a], [a] + [b], [a] + [b] + [b];
    assert since == [a, b, b] && [] + [a] == one;
    assert "a"[0] != "b"[0];
    assert since[0].fingerprint != since[2].fingerprint && since[0..] == since;
    forall f ensures Count(since, f) < 3 && SlowTrivial(since, p.trivialTimeout) == 0 && TrailingFailures(since) == 3 {
      OneMoreCounted([], a, f, p.trivialTimeout);
      OneMoreCounted(one, b, f, p.trivialTimeout);
      OneMoreCounted(two, b, f, p.trivialTimeout);
    }
    assert Count(since, "a") < 3;
    SilenceMeansQuiet(p, since);
  }

  /** What one more activity adds to each tally. */
  lemma OneMoreCounted(acts: seq<Activity>, a: Activity, f: string, timeout: real)
    ensures Count(acts + [a], f) == Count(acts, f) + if a.fingerprint == f then 1 else 0
    ensures SlowTrivial(acts + [a], timeout) == SlowTrivial(acts, timeout) + if a.trivial && a.duration >= timeout then 1 else 0
    ensures TrailingFailures(acts + [a]) == if a.succeeded then 0 else TrailingFailures(acts) + 1
  {
    assert (acts + [a])[..|acts|] == acts;
  }

  // ---- pigeonhole: quiet work is bounded by its variety ---------------------

  function Without(acts: seq<Activity>, f: string): seq<Activity> {
    if acts == [] then []
    else
      Without(acts[..|acts| - 1], f) + if acts[|acts| - 1].fingerprint == f then [] else [acts[|acts| - 1]]
  }

  lemma WithoutStep(acts: seq<Activity>, a: Activity, f: string)
    ensures Without(acts + [a], f) == if a.fingerprint == f then Without(acts, f) else Without(acts, f) + [a]
  {
    assert (acts + [a])[..|acts|] == acts;
  }

  lemma OtherCounts(acts: seq<Activity>, a: Activity, f: string, g: string)
    requires g != f && Count(Without(acts, f), g) == Count(acts, g)
    ensures Count(Without(acts + [a], f), g) == Count(acts + [a], g)
  {
    WithoutStep(acts, a, f);
    OneMoreCounted(acts, a, g, 0.0);
    if a.fingerprint != f { OneMoreCounted(Without(acts, f), a, g, 0.0); }
  }

  lemma WithoutAppend(acts: seq<Activity>, a: Activity, f: string)
    requires |acts| == Count(acts, f) + |Without(acts, f)|
    requires Fingerprints(Without(acts, f)) == Fingerprints(acts) - {f}
    ensures |acts + [a]| == Count(acts + [a], f) + |Without(acts + [a], f)|
    ensures Fingerprints(Without(acts + [a], f)) == Fingerprints(acts + [a]) - {f}
  {
    OneMoreCounted(acts, a, f, 0.0);
    WithoutStep(acts, a, f);
    FingerprintsAppend(acts, a);
    FingerprintsAppend(Without(acts, f), a);
  }

  lemma {:induction false} WithoutRemoves(acts: seq<Activity>, f: string)
    ensures |acts| == Count(acts, f) + |Without(acts, f)|
    ensures Fingerprints(Without(acts, f)) == Fingerprints(acts) - {f}
    ensures forall g :: g != f ==> Count(Without(acts, f), g) == Count(acts, g)
  {
    if acts != [] {
      var n := |acts| - 1;
      assert acts[..n] + [acts[n]] == acts;
      WithoutRemoves(acts[..n], f);
      WithoutAppend(acts[..n], acts[n], f);
      forall g | g != f ensures Count(Without(acts, f), g) == Count(acts, g) { OtherCounts(acts[..n], acts[n], f, g); }
    }
  }

  lemma OneMoreHole(bound: nat, holes: nat)
    ensures bound * (holes + 1) == bound * holes + bound
  {}

  lemma {:induction false} Pigeonhole(acts: seq<Activity>, bound: nat)
    requires forall f :: Count(acts, f) <= bound
    ensures |acts| <= bound * |Fingerprints(acts)|
    decreases |Fingerprints(acts)|
  {
    if acts != [] {
      var f := acts[0].fingerprint;
      assert f in Fingerprints(acts);
      var rest := Without(acts, f);
      WithoutRemoves(acts, f);
      forall g ensures Count(rest, g) <= bound {
        if g == f { CountedIsSeen(rest, f); }
      }
      Pigeonhole(rest, bound);
      assert |Fingerprints(rest)| == |Fingerprints(acts)| - 1;
      OneMoreHole(bound, |Fingerprints(rest)|);
    }
  }

  /** While the detector stays silent, the work since the boundary is bounded by its variety. */
  lemma QuietWorkIsBounded(p: WatchdogPolicy, since: seq<Activity>)
    requires p.Valid() && Quiet(p, since)
    ensures |since| <= (CircularLimit(p) - 1) * |Fingerprints(since)|
  {
    Pigeonhole(since, CircularLimit(p) - 1);
  }

  // ---- the verdict, spelled out ----------------------------------------------

  /** The positions of an activity list with a given property. */
  ghost function Where(acts: seq<Activity>, holds: Activity -> bool): set<int> {
    set i | 0 <= i < |acts| && holds(acts[i])
  }

  lemma WhereAppend(acts: seq<Activity>, a: Activity, holds: Activity -> bool)
    ensures |Where(acts + [a], holds)| == |Where(acts, holds)| + if holds(a) then 1 else 0
  {
    var more := acts + [a];
    forall i | i in Where(acts, holds) ensures i in Where(more, holds) { assert more[i] == acts[i]; }
    assert more[|acts|] == a;
    if holds(a) {
      assert Where(more, holds) == Where(acts, holds) + {|acts|};
    } else {
      assert Where(more, holds) == Where(acts, holds);
    }
  }

  /** The tallies count what their names say. */
  lemma {:induction false} TalliesCount(acts: seq<Activity>, f: string, timeout: real, boundary: real)
    ensures Count(acts, f) == |Where(acts, (a: Activity) => a.fingerprint == f)|
    ensures SlowTrivial(acts, timeout) == |Where(acts, (a: Activity) => a.trivial && a.duration >= timeout)|
    ensures |Since(acts, boundary)| == |Where(acts, (a: Activity) => a.at > boundary)|
  {
    if acts != [] {
      var n := |acts| - 1;
      assert acts[..n] + [acts[n]] == acts;
      TalliesCount(acts[..n], f, timeout, boundary);
      WhereAppend(acts[..n], acts[n], (a: Activity) => a.fingerprint == f);
      WhereAppend(acts[..n], acts[n], (a: Activity) => a.trivial && a.duration >= timeout);
      WhereAppend(acts[..n], acts[n], (a: Activity) => a.at > boundary);
    }
  }

  /** In time order, what lies after the boundary is the end of the list: all after it, and everything before it not. */
  lemma {:induction false} SinceIsSuffix(acts: seq<Activity>, boundary: real) returns (n: nat)
    requires ActivitiesOrdered(acts)
    ensures n <= |acts| && Since(acts, boundary) == acts[n..]
    ensures (forall i :: n <= i < |acts| ==> acts[i].at > boundary) && (forall i :: 0 <= i < n ==> acts[i].at <= boundary)
  {
    if acts == [] || acts[|acts| - 1].at <= boundary {
      NothingSince(acts, boundary);
      n := |acts|;
    } else {
      var last := |acts| - 1;
      var before := acts[..last];
      n := SinceIsSuffix(before, boundary);
      forall i | n <= i < |acts| ensures acts[i].at > boundary {
        if i < last { assert before[i] == acts[i]; }
      }
      forall i | 0 <= i < n ensures acts[i].at <= boundary { assert before[i] == acts[i]; }
      assert acts[n..] == before[n..] + [acts[last]];
    }
  }

  /** The time since the boundary has reached the limit with enough activities strictly after it, or the work after it is
      not quiet. */
  ghost predicate Unsettled(p: WatchdogPolicy, now: real, boundary: real, acts: seq<Activity>) {
    || (now - boundary >= p.noProgressSeconds && |Where(acts, (a: Activity) => a.at > boundary)| >= p.noProgressCycles)
    || !Quiet(p, Since(acts, boundary))
  }

  /** A stall is found, with the detector on, if and only if something is unsettled since the last progress, or since the
      start without any. */
  lemma VerdictExactly(p: WatchdogPolicy, now: real, startedAt: real, lastProgress: Option<real>, acts: seq<Activity>)
    requires p.Valid()
    ensures Verdict(p, now, startedAt, lastProgress, acts) != [] <==>
      p.enabled && Unsettled(p, now, if lastProgress.Some? then lastProgress.value else startedAt, acts)
  {
    var boundary := Boundary(startedAt, lastProgress);
    TalliesCount(acts, "", 0.0, boundary);
    SilenceMeansQuiet(p, Since(acts, boundary));
  }

  function Kind(s: StallSignal): nat {
    match s
    case NoProgress(_, _) => 0
    case IdenticalFailures(_, _) => 1
    case CircularAttempts(_, _) => 2
    case SlowTrivialCommands(_) => 3
  }

  /** A signal says what is the case: time and activities since the boundary; the length of the maximal failing suffix
      and its one fingerprint; the first fingerprint that recurs to the limit and how often; the number of slow
      trivial commands. */
  predicate Tells(s: StallSignal, p: WatchdogPolicy, elapsed: real, since: seq<Activity>) {
    match s
    case NoProgress(time, attempts) =>
      time == elapsed >= p.noProgressSeconds && attempts == |since| >= p.noProgressCycles
    case IdenticalFailures(failures, f) =>
      && failures == TrailingFailures(since) >= p.maxIdenticalFailures && failures > 0
      && forall i :: |since| - failures <= i < |since| ==> since[i].fingerprint == f
    case CircularAttempts(f, repeats) =>
      && repeats == Count(since, f) >= Max(3, p.maxIdenticalFailures + 1)
      && exists i :: 0 <= i < |since| && since[i].fingerprint == f
           && forall j :: 0 <= j < i ==> Count(since, since[j].fingerprint) < Max(3, p.maxIdenticalFailures + 1)
    case SlowTrivialCommands(n) => n == SlowTrivial(since, p.trivialTimeout) >= 2
  }

  lemma {:induction false} RepeatedIsEarliest(acts: seq<Activity>, limit: int, i: nat)
    requires i <= |acts| && forall j :: 0 <= j < i ==> Count(acts, acts[j].fingerprint) < limit
    ensures var r := FirstRepeated(acts, limit, i);
      r.Some? ==> r.value < |acts| && forall j :: 0 <= j < r.value ==> Count(acts, acts[j].fingerprint) < limit
    decreases |acts| - i
  {
    if i < |acts| && Count(acts, acts[i].fingerprint) < limit { RepeatedIsEarliest(acts, limit, i + 1); }
  }

  lemma IdenticalTells(p: WatchdogPolicy, elapsed: real, since: seq<Activity>)
    requires p.Valid()
    ensures Slot(IdenticalSignal(p, since), 1, p, elapsed, since)
  {
    if IdenticalSignal(p, since) != [] { FailingTailIsUniform(since, TrailingFailures(since)); }
  }

  lemma CircularTells(p: WatchdogPolicy, elapsed: real, since: seq<Activity>)
    requires p.Valid()
    ensures Slot(CircularSignal(p, since), 2, p, elapsed, since)
  {
    FirstRepeatedIsFirst(since, CircularLimit(p), 0);
    RepeatedIsEarliest(since, CircularLimit(p), 0);
  }

  /** Every signal holds, and they are of strictly later kinds, from the given one on. */
  predicate InOrderOfKind(reasons: seq<StallSignal>, from: nat, p: WatchdogPolicy, elapsed: real, since: seq<Activity>) {
    reasons == [] ||
    (from <= Kind(reasons[0]) && Tells(reasons[0], p, elapsed, since)
     && InOrderOfKind(reasons[1..], Kind(reasons[0]) + 1, p, elapsed, since))
  }

  predicate Says(reasons: seq<StallSignal>, kind: nat) {
    exists i :: 0 <= i < |reasons| && Kind(reasons[i]) == kind
  }

  /** Nothing, or one signal of a kind that holds. */
  predicate Slot(reasons: seq<StallSignal>, kind: nat, p: WatchdogPolicy, elapsed: real, since: seq<Activity>) {
    reasons == [] || (|reasons| == 1 && Kind(reasons[0]) == kind && Tells(reasons[0], p, elapsed, since))
  }

  lemma SaysJoin(a: seq<StallSignal>, b: seq<StallSignal>, kind: nat)
    ensures Says(a + b, kind) <==> Says(a, kind) || Says(b, kind)
  {
    if Says(a, kind) {
      var i :| 0 <= i < |a| && Kind(a[i]) == kind;
      assert (a + b)[i] == a[i];
    }
    if Says(b, kind) {
      var i :| 0 <= i < |b| && Kind(b[i]) == kind;
      assert (a + b)[|a| + i] == b[i];
    }
  }

  lemma OrderWeakens(reasons: seq<StallSignal>, from: nat, later: nat,
                     p: WatchdogPolicy, elapsed: real, since: seq<Activity>)
    requires InOrderOfKind(reasons, later, p, elapsed, since) && from <= later
    ensures InOrderOfKind(reasons, from, p, elapsed, since)
  {}

  /** One slot more, of an earlier kind. */
  lemma SlotJoins(slot: seq<StallSignal>, rest: seq<StallSignal>, kind: nat,
                  p: WatchdogPolicy, elapsed: real, since: seq<Activity>)
    requires Slot(slot, kind, p, elapsed, since) && InOrderOfKind(rest, kind + 1, p, elapsed, since)
    ensures InOrderOfKind(slot + rest, kind, p, elapsed, since)
  {
    if slot == [] {
      assert slot + rest == rest;
      OrderWeakens(rest, kind, kind + 1, p, elapsed, since);
    } else {
      assert (slot + rest)[1..] == rest;
    }
  }

  /** One slot more answers for its own kind. */
  lemma SlotSays(a: seq<StallSignal>, b: seq<StallSignal>, own: nat, kind: nat)
    requires b == [] || (|b| == 1 && Kind(b[0]) == own)
    ensures Says(a + b, kind) <==> Says(a, kind) || (kind == own && b != [])
  {
    SaysJoin(a, b, kind);
    if b != [] { assert Says(b, own); }
  }

  lemma FourSay(a: seq<StallSignal>, b: seq<StallSignal>, c: seq<StallSignal>, d: seq<StallSignal>, kind: nat)
    requires a == [] || (|a| == 1 && Kind(a[0]) == 0)
    requires b == [] || (|b| == 1 && Kind(b[0]) == 1)
    requires c == [] || (|c| == 1 && Kind(c[0]) == 2)
    requires d == [] || (|d| == 1 && Kind(d[0]) == 3)
    ensures Says(a + b + c + d, kind) <==>
      (kind == 0 && a != []) || (kind == 1 && b != []) || (kind == 2 && c != []) || (kind == 3 && d != [])
  {
    assert [] + a == a;
    SlotSays([], a, 0, kind);
    SlotSays(a, b, 1, kind);
    SlotSays(a + b, c, 2, kind);
    SlotSays(a + b + c, d, 3, kind);
  }

  lemma FourSlots(a: seq<StallSignal>, b: seq<StallSignal>, c: seq<StallSignal>, d: seq<StallSignal>,
                  p: WatchdogPolicy, elapsed: real, since: seq<Activity>)
    requires Slot(a, 0, p, elapsed, since) && Slot(b, 1, p, elapsed, since)
    requires Slot(c, 2, p, elapsed, since) && Slot(d, 3, p, elapsed, since)
    ensures InOrderOfKind(a + (b + (c + d)), 0, p, elapsed, since)
  {
    assert d + [] == d;
    SlotJoins(d, [], 3, p, elapsed, since);
    SlotJoins(c, d, 2, p, elapsed, since);
    SlotJoins(b, c + d, 1, p, elapsed, since);
    SlotJoins(a, b + (c + d), 0, p, elapsed, since);
  }

  lemma CircularExactly(p: WatchdogPolicy, since: seq<Activity>)
    requires p.Valid()
    ensures CircularSignal(p, since) != [] <==> exists f :: Count(since, f) >= Max(3, p.maxIdenticalFailures + 1)
  {
    FirstRepeatedIsFirst(since, CircularLimit(p), 0);
    if f :| Count(since, f) >= CircularLimit(p) { CountedIsSeen(since, f); }
  }

  lemma SignalsHold(p: WatchdogPolicy, elapsed: real, since: seq<Activity>, a: seq<StallSignal>, b: seq<StallSignal>,
                    c: seq<StallSignal>, d: seq<StallSignal>)
    requires p.Valid() && a == TimeSignal(p, elapsed, since) && b == IdenticalSignal(p, since)
    requires c == CircularSignal(p, since) && d == SlowSignal(p, since)
    ensures Slot(a, 0, p, elapsed, since) && Slot(b, 1, p, elapsed, since)
    ensures Slot(c, 2, p, elapsed, since) && Slot(d, 3, p, elapsed, since)
  {
    IdenticalTells(p, elapsed, since);
    CircularTells(p, elapsed, since);
  }

  lemma SignalsAre(p: WatchdogPolicy, now: real, startedAt: real, lastProgress: Option<real>, acts: seq<Activity>,
                   a: seq<StallSignal>, b: seq<StallSignal>, c: seq<StallSignal>, d: seq<StallSignal>)
    requires var boundary := Boundary(startedAt, lastProgress);
      && p.enabled && a == TimeSignal(p, MaxReal(0.0, now - boundary), Since(acts, boundary))
      && b == IdenticalSignal(p, Since(acts, boundary)) && c == CircularSignal(p, Since(acts, boundary))
      && d == SlowSignal(p, Since(acts, boundary))
    ensures Verdict(p, now, startedAt, lastProgress, acts) == a + b + c + d == a + (b + (c + d))
  {
    assert a + (b + c + d) == a + b + c + d == a + (b + (c + d));
  }

  lemma SignalsTell(p: WatchdogPolicy, elapsed: real, since: seq<Activity>)
    requires p.Valid()
    ensures InOrderOfKind(TimeSignal(p, elapsed, since) + TimelessSignals(p, since), 0, p, elapsed, since)
  {
    var a, b, c, d := TimeSignal(p, elapsed, since), IdenticalSignal(p, since), CircularSignal(p, since), SlowSignal(p, since);
    SignalsHold(p, elapsed, since, a, b, c, d);
    FourSlots(a, b, c, d, p, elapsed, since);
    assert b + (c + d) == TimelessSignals(p, since);
  }

  /** What a verdict says: each signal is true of the work since the boundary, each kind once and in order. */
  lemma VerdictTells(p: WatchdogPolicy, now: real, startedAt: real, lastProgress: Option<real>, acts: seq<Activity>,
                     boundary: real)
    requires p.Valid() && p.enabled && boundary == if lastProgress.Some? then lastProgress.value else startedAt
    ensures InOrderOfKind(Verdict(p, now, startedAt, lastProgress, acts), 0,
                          p, MaxReal(0.0, now - boundary), Since(acts, boundary))
  {
    VerdictIs(p, now, startedAt, lastProgress, acts, boundary);
    SignalsTell(p, MaxReal(0.0, now - boundary), Since(acts, boundary));
  }

  lemma VerdictIs(p: WatchdogPolicy, now: real, startedAt: real, lastProgress: Option<real>, acts: seq<Activity>,
                  boundary: real)
    requires p.enabled && boundary == Boundary(startedAt, lastProgress)
    ensures Verdict(p, now, startedAt, lastProgress, acts) ==
      TimeSignal(p, MaxReal(0.0, now - boundary), Since(acts, boundary)) + TimelessSignals(p, Since(acts, boundary))
  {}

  lemma KindsSaid(p: WatchdogPolicy, now: real, startedAt: real, lastProgress: Option<real>, acts: seq<Activity>, kind: nat)
    requires p.Valid() && p.enabled
    ensures var boundary := Boundary(startedAt, lastProgress);
      var since := Since(acts, boundary);
      Says(Verdict(p, now, startedAt, lastProgress, acts), kind) <==>
        || (kind == 0 && TimeSignal(p, MaxReal(0.0, now - boundary), since) != [])
        || (kind == 1 && IdenticalSignal(p, since) != [])
        || (kind == 2 && CircularSignal(p, since) != [])
        || (kind == 3 && SlowSignal(p, since) != [])
  {
    var boundary := Boundary(startedAt, lastProgress);
    var elapsed, since := MaxReal(0.0, now - boundary), Since(acts, boundary);
    var a, b, c, d := TimeSignal(p, elapsed, since), IdenticalSignal(p, since), CircularSignal(p, since), SlowSignal(p, since);
    SignalsAre(p, now, startedAt, lastProgress, acts, a, b, c, d);
    FourSay(a, b, c, d, kind);
  }

  /** Each kind of signal is raised exactly when its condition holds. */
  lemma KindsExactly(p: WatchdogPolicy, now: real, startedAt: real, lastProgress: Option<real>, acts: seq<Activity>)
    requires p.Valid() && p.enabled
    ensures var boundary := if lastProgress.Some? then lastProgress.value else startedAt;
      var since := Since(acts, boundary);
      var reasons := Verdict(p, now, startedAt, lastProgress, acts);
      && (Says(reasons, 0) <==> now - boundary >= p.noProgressSeconds && |since| >= p.noProgressCycles)
      && (Says(reasons, 1) <==>
            TrailingFailures(since) >= p.maxIdenticalFailures && OneFingerprint(since[|since| - TrailingFailures(since)..]))
      && (Says(reasons, 2) <==> exists f :: Count(since, f) >= Max(3, p.maxIdenticalFailures + 1))
      && (Says(reasons, 3) <==> SlowTrivial(since, p.trivialTimeout) >= 2)
  {
    KindsSaid(p, now, startedAt, lastProgress, acts, 0);
    KindsSaid(p, now, startedAt, lastProgress, acts, 1);
    KindsSaid(p, now, startedAt, lastProgress, acts, 2);
    KindsSaid(p, now, startedAt, lastProgress, acts, 3);
    CircularExactly(p, Since(acts, Boundary(startedAt, lastProgress)));
  }

  // ---- the identical-failure streak -----------------------------------------

  /** The last k activities all failed with one fingerprint. */
  predicate UniformFailingSuffix(acts: seq<Activity>, k: nat) {
    && k <= |acts|
    && forall i :: |acts| - k <= i < |acts| ==>
         !acts[i].succeeded && acts[i].fingerprint == acts[|acts| - 1].fingerprint
  }

  predicate Repeats(acts: seq<Activity>, fingerprint: string, succeeded: bool) {
    && acts != [] && !succeeded
    && !acts[|acts| - 1].succeeded && acts[|acts| - 1].fingerprint == fingerprint
  }

  /** streak counts the repeats in the longest uniform failing suffix. */
  ghost predicate StreakOf(acts: seq<Activity>, streak: nat) {
    if acts == [] || acts[|acts| - 1].succeeded then streak == 0
    else forall k: nat :: UniformFailingSuffix(acts, k) <==> k <= streak + 1
  }

  lemma StreakStep(acts: seq<Activity>, streak: nat, a: Activity)
    requires StreakOf(acts, streak)
    ensures StreakOf(acts + [a], if Repeats(acts, a.fingerprint, a.succeeded) then streak + 1 else 0)
  {
    var more := acts + [a];
    var next := if Repeats(acts, a.fingerprint, a.succeeded) then streak + 1 else 0;
    if !a.succeeded {
      forall k: nat ensures UniformFailingSuffix(more, k) <==> k <= next + 1 {
        if k >= 2 && UniformFailingSuffix(more, k) {
          assert more[|acts| - 1] == acts[|acts| - 1];
          forall i | |acts| - (k - 1) <= i < |acts|
            ensures !acts[i].succeeded && acts[i].fingerprint == acts[|acts| - 1].fingerprint
          {
            assert more[i] == acts[i];
          }
          assert UniformFailingSuffix(acts, k - 1);
        }
        if 2 <= k <= next + 1 {
          assert UniformFailingSuffix(acts, k - 1);
        }
      }
    }
  }
}
