/** An unlocked all() that misses a whole segment: one reader, one appender, and one append more than a
    segment holds while the reader is still listing the directory. */
module CheckpointGap {
  import opened Common
  import opened Checkpoints
  import opened CheckpointProtocol

  // ---- one process appending alone -------------------------------------------------------------

  /** Nobody holds a lock and process p has nothing to do. */
  predicate Unhindered(w: World, p: nat) {
    p < |w.procs| && AtRest(w.procs[p]) && w.execLock == None && w.segLocks == map[]
  }

  /** Process p is at ph, everyone else where they were, with these locks and files. */
  predicate Stage(w0: World, w: World, p: nat, ph: Phase, exec: Option<nat>, segs: map<nat, nat>, files: Files) {
    p < |w0.procs| && w.procs == w0.procs[p := ph] && w.execLock == exec && w.segLocks == segs && w.files == files
  }

  lemma Before(w: World, m: Move, rest: seq<Move>)
    requires Enabled(w, m) && Possible(Next(w, m), rest)
    ensures Possible(w, [m] + rest) && Run(w, [m] + rest) == Run(Next(w, m), rest)
  {
    assert ([m] + rest)[1..] == rest;
  }

  lemma {:induction false} RunsJoinAs(w: World, first: seq<Move>, then': seq<Move>, all: seq<Move>)
    requires Possible(w, first) && Possible(Run(w, first), then') && all == first + then'
    ensures Possible(w, all) && Run(w, all) == Run(Run(w, first), then')
    decreases |first|
  {
    if first == [] {
      assert all == then';
    } else {
      TailOfBoth(first, then', all);
      RunsJoinAs(Next(w, first[0]), first[1..], then', all[1..]);
    }
  }

  lemma TailOfBoth<T>(first: seq<T>, then': seq<T>, all: seq<T>)
    requires first != [] && all == first + then'
    ensures all != [] && all[0] == first[0] && all[1..] == first[1..] + then'
  {}

  lemma RunsJoin(w: World, first: seq<Move>, then': seq<Move>)
    requires Possible(w, first) && Possible(Run(w, first), then')
    ensures Possible(w, first + then') && Run(w, first + then') == Run(Run(w, first), then')
  {
    RunsJoinAs(w, first, then', first + then');
  }

  lemma Selected(w0: World, p: nat, cp: Checkpoint) returns (w: World)
    requires Unhindered(w0, p)
    ensures Stage(w0, w, p, Selecting(cp, |w0.requests|), Some(p), map[], w0.files)
    ensures Possible(w0, [Call(p, cp), Acquire(p)]) && Run(w0, [Call(p, cp), Acquire(p)]) == w
  {
    var w1 := Next(w0, Call(p, cp));
    w := Next(w1, Acquire(p));
    Before(w1, Acquire(p), []);
    Before(w0, Call(p, cp), [Acquire(p)]);
    assert [Call(p, cp)] + [Acquire(p)] == [Call(p, cp), Acquire(p)] && [Acquire(p)] + [] == [Acquire(p)];
  }

  lemma TargetChosen(w0: World, w: World, p: nat, cp: Checkpoint, ticket: nat) returns (w': World)
    requires Stage(w0, w, p, Selecting(cp, ticket), Some(p), map[], w0.files)
    ensures Stage(w0, w', p, Chosen(cp, ticket, Target(w0.files)), Some(p), map[], w0.files)
    ensures Possible(w, [List(p), Peek(p)]) && Run(w, [List(p), Peek(p)]) == w'
  {
    var w1 := Next(w, List(p));
    TopBelowIs(w0.files, UNLISTED);
    w' := Next(w1, Peek(p));
    Before(w1, Peek(p), []);
    Before(w, List(p), [Peek(p)]);
    assert [List(p)] + [Peek(p)] == [List(p), Peek(p)] && [Peek(p)] + [] == [Peek(p)];
  }

  lemma SegmentRead(w0: World, w: World, p: nat, cp: Checkpoint, ticket: nat, target: nat) returns (w': World)
    requires Stage(w0, w, p, Chosen(cp, ticket, target), Some(p), map[], w0.files)
    ensures Stage(w0, w', p, Mutating(cp, ticket, target, SegmentOf(w0.files, target)), Some(p), map[target := p], w0.files)
    ensures Possible(w, [LockSegment(p), ReadSegment(p)]) && Run(w, [LockSegment(p), ReadSegment(p)]) == w'
  {
    var w1 := Next(w, LockSegment(p));
    w' := Next(w1, ReadSegment(p));
    Before(w1, ReadSegment(p), []);
    Before(w, LockSegment(p), [ReadSegment(p)]);
    assert [LockSegment(p)] + [ReadSegment(p)] == [LockSegment(p), ReadSegment(p)];
    assert [ReadSegment(p)] + [] == [ReadSegment(p)];
  }

  lemma SegmentWritten(w0: World, w: World, p: nat, cp: Checkpoint, ticket: nat, target: nat) returns (w': World)
    requires Stage(w0, w, p, Mutating(cp, ticket, target, SegmentOf(w0.files, target)), Some(p), map[target := p], w0.files)
    ensures Stage(w0, w', p, Unlocking(cp, ticket), Some(p), map[], Grow(w0.files, target, cp))
    ensures Possible(w, [Replace(p), UnlockSegment(p)]) && Run(w, [Replace(p), UnlockSegment(p)]) == w'
  {
    var w1 := Next(w, Replace(p));
    w' := Next(w1, UnlockSegment(p));
    assert map[target := p] - {target} == map[];
    Before(w1, UnlockSegment(p), []);
    Before(w, Replace(p), [UnlockSegment(p)]);
    assert [Replace(p)] + [UnlockSegment(p)] == [Replace(p), UnlockSegment(p)];
    assert [UnlockSegment(p)] + [] == [UnlockSegment(p)];
  }

  lemma Unlocked(w0: World, w: World, p: nat, cp: Checkpoint, ticket: nat, files: Files) returns (w': World)
    requires Stage(w0, w, p, Unlocking(cp, ticket), Some(p), map[], files)
    ensures Stage(w0, w', p, Idle, None, map[], files)
    ensures Possible(w, [Unlock(p)]) && Run(w, [Unlock(p)]) == w'
  {
    w' := Next(w, Unlock(p));
    Before(w, Unlock(p), []);
    assert [Unlock(p)] + [] == [Unlock(p)];
  }

  function OneAppend(p: nat, cp: Checkpoint): seq<Move> {
    [Call(p, cp), Acquire(p)] + ([List(p), Peek(p)] + ([LockSegment(p), ReadSegment(p)]
      + ([Replace(p), UnlockSegment(p)] + [Unlock(p)])))
  }

  /** A process that nobody hinders appends in nine moves. */
  lemma AppendsAlone(w: World, p: nat, cp: Checkpoint)
    requires Unhindered(w, p)
    ensures Possible(w, OneAppend(p, cp))
    ensures Stage(w, Run(w, OneAppend(p, cp)), p, Idle, None, map[], Appended(w.files, cp))
  {
    var t := Target(w.files);
    var w1 := Selected(w, p, cp);
    var w2 := TargetChosen(w, w1, p, cp, |w.requests|);
    var w3 := SegmentRead(w, w2, p, cp, |w.requests|, t);
    var w4 := SegmentWritten(w, w3, p, cp, |w.requests|, t);
    var w5 := Unlocked(w, w4, p, cp, |w.requests|, Grow(w.files, t, cp));
    RunsJoin(w3, [Replace(p), UnlockSegment(p)], [Unlock(p)]);
    RunsJoin(w2, [LockSegment(p), ReadSegment(p)], [Replace(p), UnlockSegment(p)] + [Unlock(p)]);
    RunsJoin(w1, [List(p), Peek(p)], [LockSegment(p), ReadSegment(p)] + ([Replace(p), UnlockSegment(p)] + [Unlock(p)]));
    RunsJoin(w, [Call(p, cp), Acquire(p)],
             [List(p), Peek(p)] + ([LockSegment(p), ReadSegment(p)] + ([Replace(p), UnlockSegment(p)] + [Unlock(p)])));
  }

  function Appends(p: nat, cps: seq<Checkpoint>): seq<Move> {
    if cps == [] then [] else Appends(p, cps[..|cps| - 1]) + OneAppend(p, cps[|cps| - 1])
  }

  lemma {:induction false} AppendsAllAlone(w: World, p: nat, cps: seq<Checkpoint>)
    requires Unhindered(w, p) && w.procs[p].Idle?
    ensures Possible(w, Appends(p, cps))
    ensures Stage(w, Run(w, Appends(p, cps)), p, Idle, None, map[], AppendedAll(w.files, cps))
  {
    if cps != [] {
      var before, cp := cps[..|cps| - 1], cps[|cps| - 1];
      AppendsAllAlone(w, p, before);
      AppendsAlone(Run(w, Appends(p, before)), p, cp);
      RunsJoin(w, Appends(p, before), OneAppend(p, cp));
    }
  }

  // ---- two segments filled after a third ------------------------------------------------------------

  lemma TopIs(files: Files, t: nat)
    requires t in files && t < UNLISTED && forall n: nat :: t < n < UNLISTED ==> n !in files
    ensures Top(files) == Some(t)
  {
    TopBelowIs(files, UNLISTED);
  }

  /** A full segment at the end, and nothing after it. */
  predicate EndsFull(files: Files, t: nat) {
    t in files && t + 1 < UNLISTED && t + 1 !in files && |files[t]| == CAPACITY
    && forall n: nat :: t < n < UNLISTED ==> n !in files
  }

  lemma SegmentBegins(files: Files, t: nat, cp: Checkpoint)
    requires EndsFull(files, t)
    ensures Appended(files, cp) == files[t + 1 := [cp]]
  {
    TopIs(files, t);
    assert [] + [cp] == [cp];
  }

  lemma SegmentGoesOn(files: Files, t: nat, before: seq<Checkpoint>, cp: Checkpoint)
    requires EndsFull(files, t) && |before| < CAPACITY
    ensures Appended(files[t + 1 := before], cp) == files[t + 1 := before + [cp]]
  {
    TopIs(files[t + 1 := before], t + 1);
  }

  lemma {:induction false} SegmentFills(files: Files, t: nat, cps: seq<Checkpoint>)
    requires EndsFull(files, t) && 0 < |cps| <= CAPACITY
    ensures AppendedAll(files, cps) == files[t + 1 := cps]
  {
    var before, cp := cps[..|cps| - 1], cps[|cps| - 1];
    assert before + [cp] == cps;
    if before == [] {
      SegmentBegins(files, t, cp);
    } else {
      SegmentFills(files, t, before);
      SegmentGoesOn(files, t, before, cp);
    }
  }

  /** A full first segment, and what a full second one and one checkpoint more make of it. */
  lemma ThreeSegments(a: seq<Checkpoint>, b: seq<Checkpoint>, last: Checkpoint)
    requires |a| == |b| == CAPACITY
    ensures AppendedAll(map[1 := a], b + [last]) == map[1 := a, 2 := b, 3 := [last]]
  {
    TwoMoreSegments(map[1 := a], 1, b, last);
  }

  lemma TwoMoreSegments(files: Files, t: nat, b: seq<Checkpoint>, last: Checkpoint)
    requires EndsFull(files, t) && |b| == CAPACITY && t + 2 < UNLISTED
    ensures AppendedAll(files, b + [last]) == files[t + 1 := b][t + 2 := [last]]
  {
    SegmentFills(files, t, b);
    LastAppended(files, b, last);
    SegmentBegins(files[t + 1 := b], t + 1, last);
  }

  lemma OneSegmentMore(files: Files, n: nat)
    ensures LogBelow(files, n + 1) == LogBelow(files, n) + SegmentOf(files, n)
  {}

  lemma JoinThree<T>(none: seq<T>, a: seq<T>, b: seq<T>, c: seq<T>)
    requires none == []
    ensures none + a + b + c == a + b + c
  {
    assert none + a == a;
  }

  lemma LogOfThree(files: Files, n: nat, end: nat)
    requires n + 3 < end
    requires forall k: nat :: k < n || n + 3 <= k < end ==> SegmentOf(files, k) == []
    ensures LogBelow(files, end) == SegmentOf(files, n) + SegmentOf(files, n + 1) + SegmentOf(files, n + 2)
  {
    LogBelowSkips(files, n + 3, end);
    LogBelowSkips(files, 0, n);
    OneSegmentMore(files, n);
    OneSegmentMore(files, n + 1);
    OneSegmentMore(files, n + 2);
    JoinThree(LogBelow(files, n), SegmentOf(files, n), SegmentOf(files, n + 1), SegmentOf(files, n + 2));
  }

  lemma ThreeSegmentLog(a: seq<Checkpoint>, b: seq<Checkpoint>, last: Checkpoint)
    ensures Log(map[1 := a, 2 := b, 3 := [last]]) == a + b + [last]
  {
    LogOfThree(map[1 := a, 2 := b, 3 := [last]], 1, UNLISTED);
  }

  lemma SeenAround(n: nat)
    requires n <= UNLISTED
    ensures SortedBelow({1, 3}, n) == (if n > 3 then [1, 3] else if n > 1 then [1] else [])
  {
    if n > 0 { SeenAround(n - 1); }
  }

  // ---- the reader --------------------------------------------------------------------------------------

  lemma ReaderBegins(a: seq<Checkpoint>) returns (w: World)
    ensures w == Next(Initial(map[1 := a], 2), BeginAll(0))
    ensures Unhindered(w, 1) && w.procs[1].Idle? && w.files == map[1 := a]
    ensures w.procs[0] == AllListing({1}, 1, {})
  {
    w := Next(Initial(map[1 := a], 2), BeginAll(0));
    assert Present(map[1 := a]) == {1};
  }

  lemma ReaderLists(w: World) returns (w': World)
    requires w.procs != [] && w.procs[0] == AllListing({1}, 1, {}) && {1, 3} <= Present(w.files)
    ensures Enabled(w, ListAll(0, {1, 3})) && w' == Next(w, ListAll(0, {1, 3})) && w'.files == w.files
    ensures w'.procs != [] && var ph := w'.procs[0]; ph.AllReading? && ph.numbers == [1, 3] && ph.pos == 0 && ph.acc == []
  {
    SeenAround(UNLISTED);
    w' := Next(w, ListAll(0, {1, 3}));
  }

  lemma ReaderReads(w: World) returns (w': World)
    requires w.procs != [] && w.procs[0].AllReading? && w.procs[0].pos < |w.procs[0].numbers|
    ensures Enabled(w, ReadAll(0)) && w' == Next(w, ReadAll(0)) && w'.files == w.files && w'.procs != []
    ensures var ph, ph' := w.procs[0], w'.procs[0];
      var acc := ph.acc + SegmentOf(w.files, ph.numbers[ph.pos]);
      if ph.pos + 1 == |ph.numbers| then ph'.AllDone? && ph'.history == acc
      else ph'.AllReading? && ph'.numbers == ph.numbers && ph'.pos == ph.pos + 1 && ph'.acc == acc
  {
    w' := Next(w, ReadAll(0));
  }

  const READING: seq<Move> := [ListAll(0, {1, 3}), ReadAll(0), ReadAll(0)]

  lemma ThreeMoves(w: World, m1: Move, m2: Move, m3: Move)
    requires Enabled(w, m1) && Enabled(Next(w, m1), m2) && Enabled(Next(Next(w, m1), m2), m3)
    ensures Possible(w, [m1, m2, m3]) && Run(w, [m1, m2, m3]) == Next(Next(Next(w, m1), m2), m3)
  {
    var w1 := Next(w, m1);
    Before(Next(w1, m2), m3, []);
    Before(w1, m2, [m3]);
    Before(w, m1, [m2, m3]);
    assert [m3] + [] == [m3] && [m2] + [m3] == [m2, m3] && [m1] + [m2, m3] == [m1, m2, m3];
  }

  /** The listing shows the first and the third segment, and the reader reads them. */
  lemma ReaderEnds(w: World, a: seq<Checkpoint>, b: seq<Checkpoint>, last: Checkpoint)
    requires w.procs != [] && w.procs[0] == AllListing({1}, 1, {}) && w.files == map[1 := a, 2 := b, 3 := [last]]
    ensures Possible(w, READING)
    ensures var w' := Run(w, READING);
      w'.files == w.files && w'.procs != [] && w'.procs[0].AllDone? && w'.procs[0].history == a + [last]
  {
    assert {1, 3} <= Present(w.files);
    var w1 := ReaderLists(w);
    var w2 := ReaderReads(w1);
    var w3 := ReaderReads(w2);
    assert [] + a == a;
    ThreeMoves(w, ListAll(0, {1, 3}), ReadAll(0), ReadAll(0));
  }

  function GapRun(b: seq<Checkpoint>, last: Checkpoint): seq<Move> {
    [BeginAll(0)] + (Appends(1, b + [last]) + READING)
  }

  lemma NotAPrefix(a: seq<Checkpoint>, b: seq<Checkpoint>, last: Checkpoint)
    requires b != [] && b[0] != last
    ensures !(a + [last] <= a + b + [last])
  {
    assert (a + b + [last])[|a|] == b[0] && (a + [last])[|a|] == last;
  }

  lemma GapRunEnds(w0: World, w1: World, w2: World, w: World, appends: seq<Move>, rest: seq<Move>)
    requires Enabled(w0, BeginAll(0)) && w1 == Next(w0, BeginAll(0))
    requires Possible(w1, appends) && w2 == Run(w1, appends)
    requires Possible(w2, rest) && w == Run(w2, rest)
    ensures Possible(w0, [BeginAll(0)] + (appends + rest)) && Run(w0, [BeginAll(0)] + (appends + rest)) == w
  {
    RunsJoin(w1, appends, rest);
    Before(w0, BeginAll(0), appends + rest);
  }

  lemma GapHistory(a: seq<Checkpoint>, b: seq<Checkpoint>, last: Checkpoint) returns (w: World)
    requires |a| == |b| == CAPACITY
    ensures Possible(Initial(map[1 := a], 2), GapRun(b, last)) && w == Run(Initial(map[1 := a], 2), GapRun(b, last))
    ensures w.files == map[1 := a, 2 := b, 3 := [last]]
    ensures w.procs != [] && w.procs[0].AllDone? && w.procs[0].history == a + [last]
  {
    var w1 := ReaderBegins(a);
    AppendsAllAlone(w1, 1, b + [last]);
    ThreeSegments(a, b, last);
    var w2 := Run(w1, Appends(1, b + [last]));
    ReaderEnds(w2, a, b, last);
    w := Run(w2, READING);
    GapRunEnds(Initial(map[1 := a], 2), w1, w2, w, Appends(1, b + [last]), READING);
  }

  /** One append more than a segment holds, while the directory is listed, is enough: over a full first segment,
      the second is filled and a third begun, the listing shows the first and the third, and all() returns a history
      that the log never was. */
  lemma AllCanMissASegment(a: seq<Checkpoint>, b: seq<Checkpoint>, last: Checkpoint)
    requires |a| == |b| == CAPACITY && b[0] != last
    ensures Possible(Initial(map[1 := a], 2), GapRun(b, last))
    ensures var w := Run(Initial(map[1 := a], 2), GapRun(b, last));
      && w.procs != [] && w.procs[0].AllDone? && w.procs[0].history == a + [last]
      && Log(w.files) == a + b + [last]
      && !(w.procs[0].history <= Log(w.files))
  {
    var w := GapHistory(a, b, last);
    ThreeSegmentLog(a, b, last);
    NotAPrefix(a, b, last);
  }
}
