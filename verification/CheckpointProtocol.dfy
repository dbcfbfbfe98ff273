/** Concurrent checkpoint appends and unlocked reads as a step protocol (checkpoints.py,
    safe_json_store.py). Any number of processes interleave; one move is one atomic file or lock step. */
module CheckpointProtocol {
  import opened Common
  import opened Checkpoints

  /** Where a process is. Appenders carry the ticket they drew when they got the execution lock;
      readers carry the move numbers at which they began, had listed the directory, and finished, and what
      the listing has to show and whether it missed a segment below one it shows. */
  datatype Phase =
    | Idle
    | Waiting(cp: Checkpoint)
    | Selecting(cp: Checkpoint, ticket: nat)
    | Listed(cp: Checkpoint, ticket: nat, top: Option<nat>)
    | Chosen(cp: Checkpoint, ticket: nat, target: nat)
    | Updating(cp: Checkpoint, ticket: nat, target: nat)
    | Mutating(cp: Checkpoint, ticket: nat, target: nat, current: seq<Checkpoint>)
    | Replaced(cp: Checkpoint, ticket: nat, target: nat)
    | Unlocking(cp: Checkpoint, ticket: nat)
    | AllListing(must: set<nat>, began: nat, known: set<nat>)
    | AllReading(numbers: seq<nat>, pos: nat, acc: seq<Checkpoint>, began: nat, listed: nat, known: set<nat>, whole: bool)
    | AllDone(history: seq<Checkpoint>, began: nat, listed: nat, ended: nat, known: set<nat>, whole: bool)
    | LatestListing(must: set<nat>, began: nat)
    | LatestReading(numbers: seq<nat>, pos: nat, began: nat)
    | LatestDone(latest: Option<Checkpoint>, began: nat, ended: nat)

  /** requests, written, lost, acked and moments record the run: what each ticket asked to store, the tickets
      in the order their file replacement happened, in a listed segment or past the last one, the tickets
      whose call returned, and the length of the log after each move. */
  datatype World = World(
    files: Files,
    execLock: Option<nat>,
    segLocks: map<nat, nat>,
    procs: seq<Phase>,
    requests: seq<Checkpoint>,
    written: seq<nat>,
    lost: seq<nat>,
    acked: set<nat>,
    moments: seq<nat>)

  datatype Move =
    | Call(p: nat, cp: Checkpoint)
    | Acquire(p: nat)
    | List(p: nat)
    | Peek(p: nat)
    | LockSegment(p: nat)
    | ReadSegment(p: nat)
    | Replace(p: nat)
    | UnlockSegment(p: nat)
    | Unlock(p: nat)
    | Abort(p: nat)
    | BeginAll(p: nat)
    | ListAll(p: nat, seen: set<nat>)
    | ReadAll(p: nat)
    | BeginLatest(p: nat)
    | ListLatest(p: nat, seen: set<nat>)
    | ReadLatest(p: nat)

  predicate HoldsExec(ph: Phase) {
    ph.Selecting? || ph.Listed? || ph.Chosen? || ph.Updating? || ph.Mutating? || ph.Replaced? || ph.Unlocking?
  }

  predicate HoldsSegment(ph: Phase) { ph.Updating? || ph.Mutating? || ph.Replaced? }

  predicate AtRest(ph: Phase) { ph.Idle? || ph.AllDone? || ph.LatestDone? }

  predicate Enabled(w: World, m: Move) {
    && m.p < |w.procs|
    && var ph := w.procs[m.p];
       match m
       case Call(_, _) => AtRest(ph)
       case Acquire(_) => ph.Waiting? && w.execLock.None?
       case List(_) => ph.Selecting?
       case Peek(_) => ph.Listed?
       case LockSegment(_) => ph.Chosen? && ph.target !in w.segLocks
       case ReadSegment(_) => ph.Updating?
       case Replace(_) => ph.Mutating?
       case UnlockSegment(_) => ph.Replaced?
       case Unlock(_) => ph.Unlocking?
       case Abort(_) => ph.Waiting? || HoldsExec(ph)
       case BeginAll(_) => AtRest(ph)
       case ListAll(_, seen) => ph.AllListing? && ph.must <= seen <= Present(w.files)
       case ReadAll(_) => ph.AllReading? && ph.pos < |ph.numbers|
       case BeginLatest(_) => AtRest(ph)
       case ListLatest(_, seen) => ph.LatestListing? && ph.must <= seen <= Present(w.files)
       case ReadLatest(_) => ph.LatestReading? && 0 < ph.pos <= |ph.numbers|
  }

  /** The segments a directory shows. */
  function Present(files: Files): set<nat> { set n | n in files && n < UNLISTED }

  /** The numbers below n that were seen, ascending. */
  function SortedBelow(seen: set<nat>, n: nat): seq<nat> {
    if n == 0 then [] else SortedBelow(seen, n - 1) + if n - 1 in seen then [n - 1] else []
  }

  function Sorted(seen: set<nat>): seq<nat> { SortedBelow(seen, UNLISTED) }

  /** No segment is missing below one that was seen. */
  predicate Whole(files: Files, seen: set<nat>) {
    forall n, m | n in files && m in seen :: n < m ==> n in seen
  }

  function At(w: World, p: nat, ph: Phase): World
    requires p < |w.procs|
  {
    w.(procs := w.procs[p := ph])
  }

  /** The effect of a move on everything but the clock. */
  function Effect(w: World, m: Move): World
    requires Enabled(w, m)
  {
    var p := m.p;
    var ph := w.procs[p];
    var now := |w.moments|;
    match m
    case Call(_, cp) => At(w, p, Waiting(cp))
    case Acquire(_) =>
      At(w, p, Selecting(ph.cp, |w.requests|)).(execLock := Some(p), requests := w.requests + [ph.cp])
    case List(_) => At(w, p, Listed(ph.cp, ph.ticket, Top(w.files)))
    case Peek(_) =>
      var last := if ph.top.Some? then ph.top.value else 1;
      var target := if |SegmentOf(w.files, last)| >= CAPACITY then last + 1 else last;
      At(w, p, Chosen(ph.cp, ph.ticket, target))
    case LockSegment(_) =>
      At(w, p, Updating(ph.cp, ph.ticket, ph.target)).(segLocks := w.segLocks[ph.target := p])
    case ReadSegment(_) => At(w, p, Mutating(ph.cp, ph.ticket, ph.target, SegmentOf(w.files, ph.target)))
    case Replace(_) =>
      At(w, p, Replaced(ph.cp, ph.ticket, ph.target)).(
        files := w.files[ph.target := ph.current + [ph.cp]],
        written := if ph.target < UNLISTED then w.written + [ph.ticket] else w.written,
        lost := if ph.target < UNLISTED then w.lost else w.lost + [ph.ticket])
    case UnlockSegment(_) =>
      At(w, p, Unlocking(ph.cp, ph.ticket)).(segLocks := w.segLocks - {ph.target})
    case Unlock(_) => At(w, p, Idle).(execLock := None, acked := w.acked + {ph.ticket})
    case Abort(_) =>
      At(w, p, Idle).(
        execLock := if HoldsExec(ph) then None else w.execLock,
        segLocks := if HoldsSegment(ph) then w.segLocks - {ph.target} else w.segLocks)
    case BeginAll(_) => At(w, p, AllListing(Present(w.files), now, w.acked))
    case ListAll(_, seen) =>
      var numbers, whole := Sorted(seen), Whole(w.files, seen);
      At(w, p, if numbers == [] then AllDone([], ph.began, now, now, ph.known, whole)
               else AllReading(numbers, 0, [], ph.began, now, ph.known, whole))
    case ReadAll(_) =>
      var acc := ph.acc + SegmentOf(w.files, ph.numbers[ph.pos]);
      At(w, p, if ph.pos + 1 == |ph.numbers| then AllDone(acc, ph.began, ph.listed, now, ph.known, ph.whole)
               else AllReading(ph.numbers, ph.pos + 1, acc, ph.began, ph.listed, ph.known, ph.whole))
    case BeginLatest(_) => At(w, p, LatestListing(Present(w.files), now))
    case ListLatest(_, seen) =>
      var numbers := Sorted(seen);
      At(w, p, if numbers == [] then LatestDone(None, ph.began, now) else LatestReading(numbers, |numbers|, ph.began))
    case ReadLatest(_) =>
      var data := SegmentOf(w.files, ph.numbers[ph.pos - 1]);
      At(w, p, if data != [] then LatestDone(Some(data[|data| - 1]), ph.began, now)
               else if ph.pos == 1 then LatestDone(None, ph.began, now)
               else LatestReading(ph.numbers, ph.pos - 1, ph.began))
  }

  function Next(w: World, m: Move): World
    requires Enabled(w, m)
  {
    var after := Effect(w, m);
    after.(moments := w.moments + [|Log(after.files)|])
  }

  /** A run: every move is enabled when it is made. */
  predicate Possible(w: World, moves: seq<Move>)
    decreases |moves|
  {
    moves == [] ||
    (Enabled(w, moves[0]) && Possible(Next(w, moves[0]), moves[1..]))
  }

  function Run(w: World, moves: seq<Move>): World
    requires Possible(w, moves)
    decreases |moves|
  {
    if moves == [] then w else Run(Next(w, moves[0]), moves[1..])
  }

  function Initial(files: Files, processes: nat): World {
    World(files, None, map[], seq(processes, i => Idle), [], [], [], {}, [|Log(files)|])
  }

  // ---- what every reachable world satisfies -----------------------------------

  function Stored(requests: seq<Checkpoint>, written: seq<nat>): seq<Checkpoint>
    requires forall i :: 0 <= i < |written| ==> written[i] < |requests|
  {
    seq(|written|, i requires 0 <= i < |written| => requests[written[i]])
  }

  ghost predicate LocksOk(w: World) {
    && (forall p :: 0 <= p < |w.procs| ==> (HoldsExec(w.procs[p]) <==> w.execLock == Some(p)))
    && (w.execLock.Some? ==> w.execLock.value < |w.procs|)
    && w.segLocks ==
         if w.execLock.Some? && HoldsSegment(w.procs[w.execLock.value])
         then map[w.procs[w.execLock.value].target := w.execLock.value] else map[]
  }

  /** Tickets in order, each drawn before. */
  predicate Drawn(tickets: seq<nat>, bound: nat) {
    && (forall i :: 0 <= i < |tickets| ==> tickets[i] < bound)
    && (forall i, j :: 0 <= i < j < |tickets| ==> tickets[i] < tickets[j])
  }

  /** The log is what was there first, then the written requests in the order of their tickets, which
      is the order in which the execution lock was acquired. Requests are lost only once the segment
      numbers have run out, and then all that follow are. */
  ghost predicate LogOk(w: World, base: seq<Checkpoint>) {
    && Drawn(w.written, |w.requests|) && Drawn(w.lost, |w.requests|)
    && Log(w.files) == base + Stored(w.requests, w.written)
    && (forall t :: t in w.acked ==> t in w.written || t in w.lost)
    && (w.lost != [] ==> !HasRoom(w.files))
    && (forall i, j :: 0 <= i < |w.written| && 0 <= j < |w.lost| ==> w.written[i] < w.lost[j])
  }

  ghost predicate MomentsOk(w: World) {
    && w.moments != []
    && w.moments[|w.moments| - 1] == |Log(w.files)|
    && (forall i :: 0 < i < |w.moments| ==> w.moments[i - 1] <= w.moments[i] <= w.moments[i - 1] + 1)
  }

  predicate LastIs(tickets: seq<nat>, t: nat) { tickets != [] && tickets[|tickets| - 1] == t }

  ghost predicate AppenderOk(w: World, ph: Phase) {
    HoldsExec(ph) ==>
      && ph.ticket + 1 == |w.requests| && w.requests[ph.ticket] == ph.cp
      && (if ph.Replaced? || ph.Unlocking?
          then LastIs(w.written, ph.ticket) || LastIs(w.lost, ph.ticket)
          else Drawn(w.written, ph.ticket) && Drawn(w.lost, ph.ticket))
      && (ph.Listed? ==> ph.top == Top(w.files))
      && (ph.Chosen? || ph.Updating? || ph.Mutating? ==> ph.target == Target(w.files))
      && (ph.Mutating? ==> ph.current == SegmentOf(w.files, ph.target))
  }

  /** What the log was after move i. */
  function LogAt(w: World, i: nat): seq<Checkpoint>
    requires i < |w.moments| && w.moments[i] <= |Log(w.files)|
  {
    Log(w.files)[..w.moments[i]]
  }

  function LastOf(log: seq<Checkpoint>): Option<Checkpoint> {
    if log == [] then None else Some(log[|log| - 1])
  }

  predicate MomentsBounded(w: World) {
    forall i :: 0 <= i < |w.moments| ==> w.moments[i] <= |Log(w.files)|
  }

  /** The segments a listing saw are still there, and those below its top are still what they were. */
  ghost predicate ListingOk(files: Files, numbers: seq<nat>) {
    && numbers != [] && Ascending(numbers)
    && var top := numbers[|numbers| - 1];
       && top < UNLISTED && top in files
       && forall n: nat :: n < top ==> (n in files <==> n in numbers)
  }

  ghost predicate KnownOk(w: World, base: seq<Checkpoint>, known: set<nat>, began: nat)
    requires began < |w.moments|
  {
    forall t :: t in known && t !in w.lost ==>
      exists i :: 0 <= i < |w.written| && w.written[i] == t && |base| + i < w.moments[began]
  }

  predicate New(files: Files, must: set<nat>, n: nat) { n in files && n < UNLISTED && n !in must }

  /** The log had that length when k was its last segment. */
  predicate LastReaches(files: Files, must: set<nat>, length: nat, k: nat) {
    (forall j | j in must :: j <= k) ==> length <= |LogBelow(files, k + 1)|
  }

  /** Segment n lies above all there were, and what it holds came later. */
  predicate CameLater(files: Files, must: set<nat>, length: nat, n: nat) {
    (forall k | k in must :: k < n) && SegmentOf(files, n) != [] && length <= |LogBelow(files, n)|
  }

  predicate FullBelow(files: Files, must: set<nat>, n: nat, m: nat) {
    New(files, must, n) && New(files, must, m) && n < m ==> |SegmentOf(files, n)| >= CAPACITY
  }

  /** What has become of the segments since there were only those that a listing must show and the log had the
      given length: new ones lie above, one after another is filled, and all they hold came later. */
  ghost predicate Scanning(files: Files, must: set<nat>, length: nat) {
    && must <= Present(files)
    && (must == {} ==> length == 0)
    && (forall k: nat {:trigger LastReaches(files, must, length, k)} :: k in must ==> LastReaches(files, must, length, k))
    && (forall n: nat {:trigger CameLater(files, must, length, n)} ::
          New(files, must, n) ==> CameLater(files, must, length, n))
    && (forall n: nat, m: nat {:trigger FullBelow(files, must, n, m)} :: FullBelow(files, must, n, m))
  }

  /** A listing misses a segment only while more than a whole segment is appended. */
  ghost predicate ListedOk(w: World, began: nat, listed: nat, whole: bool) {
    began <= listed < |w.moments| && (w.moments[listed] - w.moments[began] <= CAPACITY ==> whole)
  }

  /** all() in progress: what it has read is the part of the log below its next segment, and what is
      left of its listing still reaches the length the log had when it began. */
  ghost predicate AllReadingOk(w: World, base: seq<Checkpoint>, numbers: seq<nat>, pos: nat,
                               acc: seq<Checkpoint>, began: nat, known: set<nat>) {
    && ListingOk(w.files, numbers) && pos < |numbers| && began < |w.moments|
    && acc == LogBelow(w.files, if pos == 0 then 0 else numbers[pos - 1] + 1)
    && w.moments[began] <= |LogBelow(w.files, numbers[|numbers| - 1] + 1)|
    && KnownOk(w, base, known, began)
  }

  /** all() returned exactly what the log was at some moment during the call. */
  ghost predicate AllDoneOk(w: World, base: seq<Checkpoint>, history: seq<Checkpoint>, began: nat, ended: nat, known: set<nat>)
    requires MomentsBounded(w)
  {
    && began <= ended < |w.moments|
    && (exists i :: began <= i <= ended && history == LogAt(w, i))
    && KnownOk(w, base, known, began)
    && w.moments[began] <= |history|
  }

  /** latest() in progress: everything it skipped was empty, so the log it began with lies below. */
  ghost predicate SkippingOk(w: World, numbers: seq<nat>, pos: nat, began: nat) {
    && ListingOk(w.files, numbers) && 0 < pos <= |numbers| && began < |w.moments|
    && w.moments[began] <= |LogBelow(w.files, if pos == |numbers| then numbers[pos - 1] + 1 else numbers[pos])|
  }

  /** Whatever a listing missed below n, the log it began with lies below the end of n, and n is not empty. */
  ghost predicate EndsAt(w: World, n: nat, began: nat) {
    && n < UNLISTED && SegmentOf(w.files, n) != [] && began < |w.moments|
    && w.moments[began] <= |LogBelow(w.files, n + 1)|
  }

  ghost predicate LatestReadingOk(w: World, numbers: seq<nat>, pos: nat, began: nat) {
    && 0 < pos <= |numbers|
    && (SkippingOk(w, numbers, pos, began) || (pos == |numbers| && EndsAt(w, numbers[pos - 1], began)))
  }

  /** latest() returned what was the log's last entry at some moment during the call. */
  ghost predicate LatestDoneOk(w: World, latest: Option<Checkpoint>, began: nat, ended: nat)
    requires MomentsBounded(w)
  {
    && began <= ended < |w.moments|
    && exists i :: began <= i <= ended && latest == LastOf(LogAt(w, i))
  }

  ghost predicate ReaderOk(w: World, base: seq<Checkpoint>, ph: Phase)
    requires MomentsBounded(w)
  {
    && (ph.AllListing? ==>
          ph.began < |w.moments| && Scanning(w.files, ph.must, w.moments[ph.began]) && KnownOk(w, base, ph.known, ph.began))
    && (ph.AllReading? ==>
          && ListedOk(w, ph.began, ph.listed, ph.whole) && ph.pos < |ph.numbers|
          && (ph.whole ==> AllReadingOk(w, base, ph.numbers, ph.pos, ph.acc, ph.began, ph.known)))
    && (ph.AllDone? ==>
          && ListedOk(w, ph.began, ph.listed, ph.whole) && ph.listed <= ph.ended < |w.moments|
          && (ph.whole ==> AllDoneOk(w, base, ph.history, ph.began, ph.ended, ph.known)))
    && (ph.LatestListing? ==> ph.began < |w.moments| && Scanning(w.files, ph.must, w.moments[ph.began]))
    && (ph.LatestReading? ==> LatestReadingOk(w, ph.numbers, ph.pos, ph.began))
    && (ph.LatestDone? ==> LatestDoneOk(w, ph.latest, ph.began, ph.ended))
  }

  ghost predicate Inv(w: World, base: seq<Checkpoint>) {
    && LocksOk(w) && LogOk(w, base) && MomentsOk(w) && MomentsBounded(w)
    && forall p :: 0 <= p < |w.procs| ==> AppenderOk(w, w.procs[p]) && ReaderOk(w, base, w.procs[p])
  }

  // ---- file facts --------------------------------------------------------------

  lemma {:induction false} PrefixBelow(files: Files, m: nat, n: nat)
    requires m <= n
    ensures LogBelow(files, m) <= LogBelow(files, n)
    decreases n
  {
    if m < n { PrefixBelow(files, m, n - 1); }
  }

  lemma {:induction false} SortedBelowIs(seen: set<nat>, n: nat)
    ensures Ascending(SortedBelow(seen, n))
    ensures forall k: nat :: k in SortedBelow(seen, n) <==> k in seen && k < n
  {
    if n > 0 {
      SortedBelowIs(seen, n - 1);
      var numbers := SortedBelow(seen, n - 1);
      forall i | 0 <= i < |numbers| ensures numbers[i] < n - 1 { assert numbers[i] in numbers; }
    }
  }

  lemma SortedIs(files: Files, seen: set<nat>)
    requires seen <= Present(files)
    ensures var numbers := Sorted(seen);
      && Ascending(numbers)
      && (forall k: nat :: k in numbers <==> k in seen)
      && (numbers == [] <==> seen == {})
      && (numbers != [] ==> numbers[|numbers| - 1] in seen)
      && (forall k: nat | k in seen :: k <= numbers[|numbers| - 1])
  {
    SortedBelowIs(seen, UNLISTED);
    var numbers := Sorted(seen);
    if numbers != [] { assert numbers[|numbers| - 1] in numbers; }
    forall k: nat | k in seen ensures numbers != [] && k <= numbers[|numbers| - 1] {
      assert k in numbers;
      var i :| 0 <= i < |numbers| && numbers[i] == k;
    }
  }

  /** At the moment a listing begins there is nothing new. */
  lemma ScanBegins(files: Files)
    ensures Scanning(files, Present(files), |Log(files)|)
  {
    var must := Present(files);
    if must == {} {
      forall k: nat | k < UNLISTED ensures SegmentOf(files, k) == [] { assert k !in must; }
      LogBelowSkips(files, 0, UNLISTED);
    }
    forall k: nat | k in must ensures LastReaches(files, must, |Log(files)|, k) {
      if forall j | j in must :: j <= k {
        forall n: nat | k < n < UNLISTED ensures SegmentOf(files, n) == [] { assert n !in must; }
        LogBelowSkips(files, k + 1, UNLISTED);
      }
    }
  }

  lemma {:induction false} GrowLengthens(files: Files, n: nat, cp: Checkpoint, k: nat)
    ensures |LogBelow(files, k)| <= |LogBelow(Grow(files, n, cp), k)|
  {
    if k > 0 { GrowLengthens(files, n, cp, k - 1); }
  }

  /** A segment that an append creates lies above all others, which is where the log ends. */
  lemma CreatedAtEnd(files: Files, cp: Checkpoint)
    requires Target(files) !in files && HasRoom(files)
    ensures forall n: nat :: n in files && n < UNLISTED ==> n < Target(files)
    ensures |Log(files)| <= |LogBelow(Appended(files, cp), Target(files))|
    ensures forall n: nat :: n in files && n < UNLISTED && (forall m: nat :: n < m < UNLISTED ==> m !in files) ==>
      |SegmentOf(files, n)| >= CAPACITY
  {
    var t := Target(files);
    TopBelowIs(files, UNLISTED);
    LogBelowSkips(files, t, UNLISTED);
    LogBelowFrame(files, Appended(files, cp), t);
  }

  lemma SegmentsGrow(files: Files, cp: Checkpoint, n: nat)
    ensures |LogBelow(files, n)| <= |LogBelow(Appended(files, cp), n)|
    ensures |SegmentOf(files, n)| <= |SegmentOf(Appended(files, cp), n)|
    ensures n in files ==> n in Appended(files, cp)
  {
    GrowLengthens(files, Target(files), cp, n);
  }

  /** Whether new or not, an existing segment keeps what a scan knows of it. */
  lemma OldSegmentKept(files: Files, cp: Checkpoint, must: set<nat>, length: nat, n: nat)
    ensures LastReaches(files, must, length, n) ==> LastReaches(Appended(files, cp), must, length, n)
    ensures CameLater(files, must, length, n) ==> CameLater(Appended(files, cp), must, length, n)
  {
    SegmentsGrow(files, cp, n);
    SegmentsGrow(files, cp, n + 1);
  }

  lemma NewSegmentIsLast(files: Files, cp: Checkpoint, must: set<nat>, length: nat, n: nat)
    requires Scanning(files, must, length) && HasRoom(files) && Target(files) !in files
    requires New(files, must, n)
    ensures n < Target(files) && |SegmentOf(files, n)| >= CAPACITY
  {
    CreatedAtEnd(files, cp);
    if exists m: nat :: n < m < UNLISTED && m in files {
      var m: nat :| n < m < UNLISTED && m in files;
      assert m !in must by { assert CameLater(files, must, length, n); }
      assert FullBelow(files, must, n, m);
    }
  }

  lemma NewKept(files: Files, cp: Checkpoint, must: set<nat>, length: nat, n: nat)
    requires Scanning(files, must, length) && length <= |Log(files)| && New(Appended(files, cp), must, n)
    ensures CameLater(Appended(files, cp), must, length, n)
  {
    OldSegmentKept(files, cp, must, length, n);
    if n !in files {
      TargetIsBeyondTop(files);
      CreatedAtEnd(files, cp);
    } else {
      assert New(files, must, n);
    }
  }

  lemma FullBelowKept(files: Files, cp: Checkpoint, must: set<nat>, length: nat, n: nat, m: nat)
    requires Scanning(files, must, length)
    ensures FullBelow(Appended(files, cp), must, n, m)
  {
    var after := Appended(files, cp);
    if New(after, must, n) && New(after, must, m) && n < m {
      SegmentsGrow(files, cp, n);
      TargetIsBeyondTop(files);
      if m !in files {
        if n in files { NewSegmentIsLast(files, cp, must, length, n); }
      } else if n !in files {
        CreatedAtEnd(files, cp);
      } else {
        assert FullBelow(files, must, n, m);
      }
    }
  }

  lemma ScanKeptByAppend(files: Files, cp: Checkpoint, must: set<nat>, length: nat)
    requires Scanning(files, must, length) && length <= |Log(files)|
    ensures Scanning(Appended(files, cp), must, length)
  {
    var after := Appended(files, cp);
    forall k: nat | k in must ensures LastReaches(after, must, length, k) {
      OldSegmentKept(files, cp, must, length, k);
    }
    forall n: nat | New(after, must, n) ensures CameLater(after, must, length, n) { NewKept(files, cp, must, length, n); }
    forall n: nat, m: nat ensures FullBelow(after, must, n, m) { FullBelowKept(files, cp, must, length, n, m); }
  }

  lemma NewAboveMust(files: Files, must: set<nat>, length: nat, n: nat, m: nat)
    requires Scanning(files, must, length) && New(files, must, n) && m in Present(files) && n < m
    ensures New(files, must, m)
  {
    assert CameLater(files, must, length, n);
  }

  lemma LengthsBelow(files: Files, n: nat, m: nat)
    requires n < m < UNLISTED
    ensures |LogBelow(files, n)| + |SegmentOf(files, n)| <= |LogBelow(files, m)|
    ensures |LogBelow(files, m)| + |SegmentOf(files, m)| <= |Log(files)|
  {
    PrefixBelow(files, n + 1, m);
    PrefixBelow(files, m + 1, UNLISTED);
  }

  lemma GapLength(files: Files, must: set<nat>, length: nat, n: nat, m: nat)
    requires Scanning(files, must, length) && New(files, must, n) && New(files, must, m) && n < m
    ensures |Log(files)| > length + CAPACITY
  {
    var a, b := LogBelow(files, n), SegmentOf(files, n);
    assert length <= |a| by { assert CameLater(files, must, length, n); }
    assert |SegmentOf(files, m)| > 0 by { assert CameLater(files, must, length, m); }
    assert |b| >= CAPACITY by { assert FullBelow(files, must, n, m); }
    LengthsBelow(files, n, m);
  }

  /** Where a segment was missed below one that was seen, more than a whole segment has been appended. */
  lemma GapTakesASegment(files: Files, must: set<nat>, length: nat, seen: set<nat>)
    requires Scanning(files, must, length) && must <= seen <= Present(files)
    ensures |Log(files)| - length <= CAPACITY ==> Whole(files, seen)
  {
    forall n, m | n in files && m in seen && n < m && n !in seen ensures |Log(files)| - length > CAPACITY {
      assert New(files, must, n);
      NewAboveMust(files, must, length, n, m);
      GapLength(files, must, length, n, m);
    }
  }

  /** What a listing that misses nothing below its top shows: the log it began with, and no less. */
  lemma WholeListing(files: Files, must: set<nat>, length: nat, seen: set<nat>)
    requires Scanning(files, must, length) && must <= seen <= Present(files)
    ensures var numbers := Sorted(seen);
      && (numbers == [] ==> length == 0)
      && (numbers != [] ==> numbers[|numbers| - 1] < UNLISTED && length <= |LogBelow(files, numbers[|numbers| - 1] + 1)|)
      && (numbers != [] && Whole(files, seen) ==> ListingOk(files, numbers))
      && (numbers != [] && !Whole(files, seen) ==> SegmentOf(files, numbers[|numbers| - 1]) != [])
  {
    var numbers := Sorted(seen);
    SortedIs(files, seen);
    if numbers != [] {
      var top := numbers[|numbers| - 1];
      if top in must {
        assert LastReaches(files, must, length, top);
      } else {
        assert New(files, must, top);
        assert CameLater(files, must, length, top);
        PrefixBelow(files, top, top + 1);
      }
      if !Whole(files, seen) {
        var n, m :| n in files && m in seen && n < m && n !in seen;
        assert New(files, must, n);
        NewAboveMust(files, must, length, n, top);
        assert CameLater(files, must, length, top);
      }
    }
  }

  /** Between two neighbours of a listing there is nothing to read. */
  lemma ListingStep(files: Files, numbers: seq<nat>, pos: nat)
    requires ListingOk(files, numbers) && pos < |numbers|
    ensures LogBelow(files, numbers[pos]) == LogBelow(files, if pos == 0 then 0 else numbers[pos - 1] + 1)
    ensures LogBelow(files, numbers[pos] + 1) == LogBelow(files, numbers[pos]) + SegmentOf(files, numbers[pos])
  {
    var from := if pos == 0 then 0 else numbers[pos - 1] + 1;
    forall k: nat | from <= k < numbers[pos] ensures SegmentOf(files, k) == [] {
      NotListed(numbers, pos, k);
    }
    LogBelowSkips(files, from, numbers[pos]);
  }

  lemma NotListed(numbers: seq<nat>, pos: nat, k: nat)
    requires Ascending(numbers) && pos < |numbers| && k < numbers[pos]
    requires pos > 0 ==> numbers[pos - 1] < k
    ensures k !in numbers
  {
    forall i | 0 <= i < |numbers| ensures numbers[i] != k {
      if i < pos { assert numbers[i] <= numbers[pos - 1]; }
    }
  }

  /** An append leaves everything a listing relies on alone. */
  lemma ListingKept(files: Files, cp: Checkpoint, numbers: seq<nat>)
    requires ListingOk(files, numbers)
    ensures var after, top := Appended(files, cp), numbers[|numbers| - 1];
      && ListingOk(after, numbers)
      && (forall n: nat :: n <= top ==> LogBelow(after, n) == LogBelow(files, n))
      && |LogBelow(files, top + 1)| <= |LogBelow(after, top + 1)|
  {
    var after, top := Appended(files, cp), numbers[|numbers| - 1];
    TopBelowIs(files, UNLISTED);
    assert top <= Target(files);
    forall n: nat | n <= top ensures LogBelow(after, n) == LogBelow(files, n) {
      LogBelowFrame(files, after, n);
    }
    assert |SegmentOf(files, top)| <= |SegmentOf(after, top)|;
  }

  /** The log's length takes every value between two moments. */
  lemma {:induction false} LengthAttained(w: World, a: nat, b: nat, n: nat) returns (j: nat)
    requires MomentsOk(w) && a <= b < |w.moments| && w.moments[a] <= n <= w.moments[b]
    ensures a <= j <= b && w.moments[j] == n
    decreases b
  {
    if w.moments[b] == n {
      j := b;
    } else {
      j := LengthAttained(w, a, b - 1, n);
    }
  }

  // ---- one move keeps the invariant ----------------------------------------------

  /** Nothing was lost: the move either left the files alone or appended one checkpoint. */
  ghost predicate Onward(w: World, w': World) {
    && |w'.moments| == |w.moments| + 1 && w'.moments[..|w.moments|] == w.moments
    && w.written <= w'.written && w.lost <= w'.lost
    && Log(w.files) <= Log(w'.files)
    && (w'.files == w.files || exists cp :: w'.files == Appended(w.files, cp))
    && MomentsBounded(w) && MomentsBounded(w')
  }

  lemma LogAtKept(w: World, w': World, i: nat)
    requires Onward(w, w') && i < |w.moments|
    ensures LogAt(w, i) == LogAt(w', i)
  {
    assert w'.moments[i] == w.moments[i];
    assert Log(w'.files)[..|Log(w.files)|] == Log(w.files);
  }

  lemma KnownKept(w: World, w': World, base: seq<Checkpoint>, known: set<nat>, began: nat)
    requires Onward(w, w') && began < |w.moments| && KnownOk(w, base, known, began)
    ensures KnownOk(w', base, known, began)
  {
    assert w'.moments[began] == w.moments[began];
    forall t | t in known && t !in w'.lost
      ensures exists i :: 0 <= i < |w'.written| && w'.written[i] == t && |base| + i < w'.moments[began]
    {
      var i :| 0 <= i < |w.written| && w.written[i] == t && |base| + i < w.moments[began];
      assert w'.written[i] == t;
    }
  }

  /** The part of the log a listing still has to read, and its length when the reading began. */
  lemma ScanKept(w: World, w': World, numbers: seq<nat>, n: nat, began: nat)
    requires Onward(w, w') && ListingOk(w.files, numbers) && n <= numbers[|numbers| - 1] + 1
    requires began < |w.moments| && w.moments[began] <= |LogBelow(w.files, n)|
    ensures ListingOk(w'.files, numbers)
    ensures w'.moments[began] == w.moments[began] <= |LogBelow(w'.files, n)|
    ensures forall k: nat :: k <= numbers[|numbers| - 1] ==> LogBelow(w'.files, k) == LogBelow(w.files, k)
  {
    if w'.files != w.files {
      var cp :| w'.files == Appended(w.files, cp);
      ListingKept(w.files, cp, numbers);
    }
  }

  lemma AllReadingKept(w: World, w': World, base: seq<Checkpoint>, numbers: seq<nat>, pos: nat,
                       acc: seq<Checkpoint>, began: nat, known: set<nat>)
    requires Onward(w, w') && AllReadingOk(w, base, numbers, pos, acc, began, known)
    ensures AllReadingOk(w', base, numbers, pos, acc, began, known)
  {
    KnownKept(w, w', base, known, began);
    assert pos > 0 ==> numbers[pos - 1] < numbers[|numbers| - 1];
    ScanKept(w, w', numbers, numbers[|numbers| - 1] + 1, began);
  }

  lemma AllDoneKept(w: World, w': World, base: seq<Checkpoint>, history: seq<Checkpoint>, began: nat, ended: nat, known: set<nat>)
    requires Onward(w, w') && AllDoneOk(w, base, history, began, ended, known)
    ensures AllDoneOk(w', base, history, began, ended, known)
  {
    KnownKept(w, w', base, known, began);
    assert w'.moments[began] == w.moments[began];
    var i :| began <= i <= ended && history == LogAt(w, i);
    LogAtKept(w, w', i);
  }

  lemma SkippingKept(w: World, w': World, numbers: seq<nat>, pos: nat, began: nat)
    requires Onward(w, w') && SkippingOk(w, numbers, pos, began)
    ensures SkippingOk(w', numbers, pos, began)
  {
    assert pos < |numbers| ==> numbers[pos] <= numbers[|numbers| - 1];
    ScanKept(w, w', numbers, if pos == |numbers| then numbers[pos - 1] + 1 else numbers[pos], began);
  }

  lemma EndKept(w: World, w': World, n: nat, began: nat)
    requires Onward(w, w') && EndsAt(w, n, began)
    ensures EndsAt(w', n, began)
  {
    assert w'.moments[began] == w.moments[began];
    if w'.files != w.files {
      var cp :| w'.files == Appended(w.files, cp);
      GrowLengthens(w.files, Target(w.files), cp, n + 1);
    }
  }

  lemma ListingPhaseKept(w: World, w': World, must: set<nat>, began: nat)
    requires Onward(w, w') && began < |w.moments| && Scanning(w.files, must, w.moments[began])
    ensures w'.moments[began] == w.moments[began] && Scanning(w'.files, must, w'.moments[began])
  {
    assert w'.moments[began] == w.moments[began];
    if w'.files != w.files {
      var cp :| w'.files == Appended(w.files, cp);
      ScanKeptByAppend(w.files, cp, must, w.moments[began]);
    }
  }

  lemma ListedKept(w: World, w': World, began: nat, listed: nat, whole: bool)
    requires Onward(w, w') && ListedOk(w, began, listed, whole)
    ensures ListedOk(w', began, listed, whole)
  {
    assert w'.moments[began] == w.moments[began] && w'.moments[listed] == w.moments[listed];
  }

  lemma LatestReadingKept(w: World, w': World, numbers: seq<nat>, pos: nat, began: nat)
    requires Onward(w, w') && LatestReadingOk(w, numbers, pos, began)
    ensures LatestReadingOk(w', numbers, pos, began)
  {
    if SkippingOk(w, numbers, pos, began) {
      SkippingKept(w, w', numbers, pos, began);
    } else {
      EndKept(w, w', numbers[pos - 1], began);
    }
  }

  lemma LatestDoneKept(w: World, w': World, latest: Option<Checkpoint>, began: nat, ended: nat)
    requires Onward(w, w') && LatestDoneOk(w, latest, began, ended)
    ensures LatestDoneOk(w', latest, began, ended)
  {
    var i :| began <= i <= ended && latest == LastOf(LogAt(w, i));
    LogAtKept(w, w', i);
  }

  /** A reader that does not move stays consistent while others append. */
  lemma ReaderKept(w: World, w': World, base: seq<Checkpoint>, ph: Phase)
    requires Onward(w, w') && ReaderOk(w, base, ph)
    ensures ReaderOk(w', base, ph)
  {
    if ph.AllListing? {
      ListingPhaseKept(w, w', ph.must, ph.began);
      KnownKept(w, w', base, ph.known, ph.began);
    }
    if ph.AllReading? {
      ListedKept(w, w', ph.began, ph.listed, ph.whole);
      if ph.whole { AllReadingKept(w, w', base, ph.numbers, ph.pos, ph.acc, ph.began, ph.known); }
    }
    if ph.AllDone? {
      ListedKept(w, w', ph.began, ph.listed, ph.whole);
      if ph.whole { AllDoneKept(w, w', base, ph.history, ph.began, ph.ended, ph.known); }
    }
    if ph.LatestListing? { ListingPhaseKept(w, w', ph.must, ph.began); }
    if ph.LatestReading? { LatestReadingKept(w, w', ph.numbers, ph.pos, ph.began); }
    if ph.LatestDone? { LatestDoneKept(w, w', ph.latest, ph.began, ph.ended); }
  }

  /** The step a reader takes: time passes, the files stay. */
  ghost predicate Glance(w: World, w': World) {
    && Onward(w, w') && MomentsOk(w') && w'.files == w.files && w'.written == w.written && w'.lost == w.lost
  }

  lemma QuietMoveLeavesFiles(w: World, m: Move)
    requires Enabled(w, m) && !m.Replace?
    ensures var w' := Next(w, m);
      && w'.files == w.files && w'.written == w.written && w'.lost == w.lost
      && w'.moments == w.moments + [|Log(w.files)|]
  {}

  lemma TimePasses(w: World, w': World)
    requires MomentsOk(w) && MomentsBounded(w)
    requires w'.files == w.files && w'.written == w.written && w'.lost == w.lost
    requires w'.moments == w.moments + [|Log(w.files)|]
    ensures Onward(w, w') && MomentsOk(w')
  {}

  lemma QuietMoveIsOnward(w: World, m: Move)
    requires MomentsOk(w) && MomentsBounded(w) && Enabled(w, m) && !m.Replace?
    ensures Glance(w, Next(w, m))
  {
    QuietMoveLeavesFiles(w, m);
    TimePasses(w, Next(w, m));
  }

  lemma StoredMore(requests: seq<Checkpoint>, written: seq<nat>, t: nat)
    requires Drawn(written, |requests|) && t < |requests|
    ensures forall i :: 0 <= i < |written + [t]| ==> (written + [t])[i] < |requests|
    ensures Stored(requests, written + [t]) == Stored(requests, written) + [requests[t]]
  {}

  lemma DrawnMore(tickets: seq<nat>, t: nat, bound: nat)
    requires Drawn(tickets, t) && t < bound
    ensures Drawn(tickets + [t], bound)
  {}

  lemma LogWritten(w: World, w': World, base: seq<Checkpoint>, t: nat)
    requires LogOk(w, base) && t < |w.requests| && Drawn(w.written, t) && Drawn(w.lost, t) && HasRoom(w.files)
    requires w'.requests == w.requests && w'.acked == w.acked && w'.lost == w.lost && w'.written == w.written + [t]
    requires Log(w'.files) == Log(w.files) + [w.requests[t]]
    ensures LogOk(w', base)
  {
    DrawnMore(w.written, t, |w.requests|);
    StoredMore(w.requests, w.written, t);
    assert base + Stored(w.requests, w.written) + [w.requests[t]] == base + Stored(w'.requests, w'.written);
    forall k | k in w'.acked ensures k in w'.written || k in w'.lost { assert k in w.written || k in w.lost; }
  }

  lemma LogLost(w: World, w': World, base: seq<Checkpoint>, t: nat)
    requires LogOk(w, base) && t < |w.requests| && Drawn(w.written, t) && Drawn(w.lost, t) && !HasRoom(w'.files)
    requires w'.requests == w.requests && w'.acked == w.acked && w'.written == w.written && w'.lost == w.lost + [t]
    requires Log(w'.files) == Log(w.files)
    ensures LogOk(w', base)
  {
    DrawnMore(w.lost, t, |w.requests|);
    forall k | k in w'.acked ensures k in w'.written || k in w'.lost { assert k in w.written || k in w.lost; }
  }

  lemma LogReplaced(w: World, w': World, base: seq<Checkpoint>, t: nat)
    requires LogOk(w, base) && t < |w.requests| && Drawn(w.written, t) && Drawn(w.lost, t)
    requires w'.requests == w.requests && w'.acked == w.acked && w'.files == Appended(w.files, w.requests[t])
    requires w'.written == if HasRoom(w.files) then w.written + [t] else w.written
    requires w'.lost == if HasRoom(w.files) then w.lost else w.lost + [t]
    ensures LogOk(w', base) && Log(w.files) <= Log(w'.files)
    ensures |Log(w'.files)| == |Log(w.files)| + if HasRoom(w.files) then 1 else 0
  {
    AppendExtendsLog(w.files, w.requests[t]);
    AppendTakesOne(w.files, w.requests[t]);
    AppendTakesOne(w'.files, w.requests[t]);
    if HasRoom(w.files) { LogWritten(w, w', base, t); } else { LogLost(w, w', base, t); }
  }

  lemma TimePassesWithAppend(w: World, w': World, base: seq<Checkpoint>, cp: Checkpoint)
    requires MomentsOk(w) && MomentsBounded(w) && w'.files == Appended(w.files, cp) && Log(w.files) <= Log(w'.files)
    requires |Log(w'.files)| <= |Log(w.files)| + 1 && w.written <= w'.written && w.lost <= w'.lost
    requires w'.moments == w.moments + [|Log(w'.files)|]
    ensures Onward(w, w') && MomentsOk(w')
  {}

  lemma ReplaceStep(w: World, m: Move)
    requires Enabled(w, m) && m.Replace? && AppenderOk(w, w.procs[m.p])
    ensures var w', ph := Next(w, m), w.procs[m.p];
      && ph.ticket < |w.requests| && w.requests[ph.ticket] == ph.cp
      && w'.files == Appended(w.files, ph.cp) && w'.requests == w.requests && w'.acked == w.acked
      && w'.written == (if HasRoom(w.files) then w.written + [ph.ticket] else w.written)
      && w'.lost == (if HasRoom(w.files) then w.lost else w.lost + [ph.ticket])
      && w'.moments == w.moments + [|Log(w'.files)|]
      && Drawn(w.written, ph.ticket) && Drawn(w.lost, ph.ticket)
  {}

  /** Replacing the file is an append, by the one process that holds the execution lock. */
  lemma ReplaceIsAppend(w: World, base: seq<Checkpoint>, m: Move)
    requires LogOk(w, base) && MomentsOk(w) && MomentsBounded(w) && Enabled(w, m) && m.Replace?
    requires AppenderOk(w, w.procs[m.p])
    ensures var w', ph := Next(w, m), w.procs[m.p];
      && w'.files == Appended(w.files, ph.cp)
      && Onward(w, w') && MomentsOk(w') && LogOk(w', base)
  {
    ReplaceStep(w, m);
    LogReplaced(w, Next(w, m), base, w.procs[m.p].ticket);
    TimePassesWithAppend(w, Next(w, m), base, w.procs[m.p].cp);
  }

  lemma ExecLockKept(w: World, m: Move)
    requires LocksOk(w) && Enabled(w, m)
    ensures var w' := Next(w, m);
      && (forall p :: 0 <= p < |w'.procs| ==> (HoldsExec(w'.procs[p]) <==> w'.execLock == Some(p)))
      && (w'.execLock.Some? ==> w'.execLock.value < |w'.procs|)
  {
    var w' := Next(w, m);
    forall p | 0 <= p < |w'.procs| ensures HoldsExec(w'.procs[p]) <==> w'.execLock == Some(p) {
      assert HoldsExec(w.procs[p]) <==> w.execLock == Some(p);
      assert HoldsExec(w.procs[m.p]) <==> w.execLock == Some(m.p);
    }
  }

  /** A segment lock is only ever held by the process that holds the execution lock. */
  lemma SegmentLockKept(w: World, m: Move)
    requires LocksOk(w) && Enabled(w, m)
    ensures LocksOk(Next(w, m))
  {
    var w', ph := Next(w, m), w.procs[m.p];
    ExecLockKept(w, m);
    if HoldsExec(ph) {
      assert w.execLock == Some(m.p);
      if HoldsSegment(ph) {
        assert w.segLocks == map[ph.target := m.p];
        assert w.segLocks - {ph.target} == map[];
      }
    } else if w.execLock.Some? {
      assert w'.execLock == w.execLock && w'.procs[w.execLock.value] == w.procs[w.execLock.value];
    }
  }

  lemma LogKept(w: World, base: seq<Checkpoint>, m: Move)
    requires LogOk(w, base) && Enabled(w, m) && AppenderOk(w, w.procs[m.p]) && !m.Replace?
    ensures LogOk(Next(w, m), base)
  {
    var w', ph := Next(w, m), w.procs[m.p];
    assert Stored(w'.requests, w'.written) == Stored(w.requests, w.written);
    if m.Unlock? {
      assert ph.ticket in w.written || ph.ticket in w.lost;
    }
  }

  lemma MoverChooses(w: World, m: Move)
    requires Enabled(w, m) && AppenderOk(w, w.procs[m.p]) && (m.List? || m.Peek?)
    ensures AppenderOk(Next(w, m), Next(w, m).procs[m.p])
  {
    TopBelowIs(w.files, UNLISTED);
  }

  lemma MoverWrites(w: World, m: Move)
    requires Enabled(w, m) && AppenderOk(w, w.procs[m.p])
    requires m.LockSegment? || m.ReadSegment? || m.Replace? || m.UnlockSegment?
    ensures AppenderOk(Next(w, m), Next(w, m).procs[m.p])
  {}

  lemma MoverRests(w: World, m: Move)
    requires Enabled(w, m)
    requires !m.Acquire? && !m.List? && !m.Peek?
    requires !m.LockSegment? && !m.ReadSegment? && !m.Replace? && !m.UnlockSegment?
    ensures !HoldsExec(Next(w, m).procs[m.p])
  {}

  lemma MoverKept(w: World, m: Move)
    requires Enabled(w, m) && AppenderOk(w, w.procs[m.p])
    requires Drawn(w.written, |w.requests|) && Drawn(w.lost, |w.requests|)
    ensures AppenderOk(Next(w, m), Next(w, m).procs[m.p])
  {
    if m.List? || m.Peek? {
      MoverChooses(w, m);
    } else if m.LockSegment? || m.ReadSegment? || m.Replace? || m.UnlockSegment? {
      MoverWrites(w, m);
    } else if !m.Acquire? {
      MoverRests(w, m);
    }
  }

  lemma BystanderKept(w: World, m: Move, q: nat)
    requires Enabled(w, m) && q < |w.procs| && q != m.p && LocksOk(w) && AppenderOk(w, w.procs[q])
    ensures AppenderOk(Next(w, m), Next(w, m).procs[q])
  {
    if HoldsExec(w.procs[q]) {
      assert w.execLock == Some(q);
    }
  }

  lemma AppendersKept(w: World, base: seq<Checkpoint>, m: Move)
    requires Inv(w, base) && Enabled(w, m)
    ensures forall q :: 0 <= q < |Next(w, m).procs| ==> AppenderOk(Next(w, m), Next(w, m).procs[q])
  {
    var w' := Next(w, m);
    forall q | 0 <= q < |w.procs| ensures AppenderOk(w', w'.procs[q]) {
      if q == m.p { MoverKept(w, m); } else { BystanderKept(w, m, q); }
    }
  }

  lemma MomentNow(w: World, w': World)
    requires Glance(w, w')
    ensures |w'.moments| == |w.moments| + 1 && w'.moments[|w.moments|] == |Log(w.files)|
    ensures forall i :: 0 <= i < |w.moments| ==> w'.moments[i] == w.moments[i]
  {
    assert forall i :: 0 <= i < |w.moments| ==> w'.moments[..|w.moments|][i] == w'.moments[i];
  }

  lemma AckedIsKnown(w: World, w': World, base: seq<Checkpoint>)
    requires LogOk(w, base) && Glance(w, w')
    ensures |w.moments| < |w'.moments| && KnownOk(w', base, w.acked, |w.moments|)
  {
    MomentNow(w, w');
    forall t | t in w.acked && t !in w'.lost
      ensures exists i :: 0 <= i < |w'.written| && w'.written[i] == t && |base| + i < w'.moments[|w.moments|]
    {
      var i :| 0 <= i < |w.written| && w.written[i] == t;
      assert w'.written[i] == t;
    }
  }

  lemma BeginsScan(w: World, w': World)
    requires Glance(w, w')
    ensures |w.moments| < |w'.moments| && Scanning(w'.files, Present(w.files), w'.moments[|w.moments|])
  {
    MomentNow(w, w');
    ScanBegins(w.files);
  }

  lemma ListedNow(w: World, w': World, must: set<nat>, seen: set<nat>, began: nat)
    requires Glance(w, w') && began < |w.moments| && Scanning(w.files, must, w.moments[began])
    requires must <= seen <= Present(w.files)
    ensures ListedOk(w', began, |w.moments|, Whole(w.files, seen))
    ensures w'.moments[began] == w.moments[began]
  {
    MomentNow(w, w');
    GapTakesASegment(w.files, must, w.moments[began], seen);
  }

  lemma AllListsOn(w: World, w': World, base: seq<Checkpoint>, must: set<nat>, seen: set<nat>, began: nat, known: set<nat>)
    requires Glance(w, w') && began < |w.moments| && Scanning(w.files, must, w.moments[began])
    requires KnownOk(w, base, known, began) && must <= seen <= Present(w.files) && Whole(w.files, seen)
    ensures var now, numbers := |w.moments|, Sorted(seen);
      if numbers == [] then AllDoneOk(w', base, [], began, now, known)
      else AllReadingOk(w', base, numbers, 0, [], began, known)
  {
    KnownKept(w, w', base, known, began);
    WholeListing(w.files, must, w.moments[began], seen);
    assert w'.moments[began] == w.moments[began];
    if Sorted(seen) == [] { assert LogAt(w', began) == []; }
  }

  lemma LatestListsOn(w: World, w': World, must: set<nat>, seen: set<nat>, began: nat)
    requires Glance(w, w') && began < |w.moments| && Scanning(w.files, must, w.moments[began])
    requires must <= seen <= Present(w.files)
    ensures var now, numbers := |w.moments|, Sorted(seen);
      if numbers == [] then LatestDoneOk(w', None, began, now)
      else LatestReadingOk(w', numbers, |numbers|, began)
  {
    WholeListing(w.files, must, w.moments[began], seen);
    assert w'.moments[began] == w.moments[began];
    if Sorted(seen) == [] { assert LogAt(w', began) == []; }
  }

  lemma AllReadsOn(w: World, w': World, base: seq<Checkpoint>, numbers: seq<nat>, pos: nat,
                   acc: seq<Checkpoint>, began: nat, known: set<nat>)
    requires Glance(w, w') && AllReadingOk(w, base, numbers, pos, acc, began, known)
    ensures var acc' := acc + SegmentOf(w.files, numbers[pos]);
      if pos + 1 == |numbers| then AllDoneOk(w', base, acc', began, |w.moments|, known)
      else AllReadingOk(w', base, numbers, pos + 1, acc', began, known)
  {
    var acc', now := acc + SegmentOf(w.files, numbers[pos]), |w.moments|;
    ListingStep(w.files, numbers, pos);
    KnownKept(w, w', base, known, began);
    assert acc' == LogBelow(w.files, numbers[pos] + 1);
    assert w'.moments[began] == w.moments[began];
    if pos + 1 == |numbers| {
      PrefixBelow(w.files, numbers[pos] + 1, UNLISTED);
      var i := LengthAttained(w', began, now, |acc'|);
      assert acc' == LogAt(w', i);
    }
  }

  lemma LatestFinds(w: World, w': World, n: nat, began: nat)
    requires Glance(w, w') && n < UNLISTED && SegmentOf(w.files, n) != []
    requires began < |w.moments| && w.moments[began] <= |LogBelow(w.files, n + 1)|
    ensures var data := SegmentOf(w.files, n);
      LatestDoneOk(w', Some(data[|data| - 1]), began, |w.moments|)
  {
    var data, upto, now := SegmentOf(w.files, n), LogBelow(w.files, n + 1), |w.moments|;
    PrefixBelow(w.files, n + 1, UNLISTED);
    assert w'.moments[began] == w.moments[began];
    var i := LengthAttained(w', began, now, |upto|);
    assert LogAt(w', i) == upto == LogBelow(w.files, n) + data;
    assert upto[|upto| - 1] == data[|data| - 1];
  }

  lemma LatestSkips(w: World, w': World, numbers: seq<nat>, pos: nat, began: nat)
    requires Glance(w, w') && SkippingOk(w, numbers, pos, began)
    requires SegmentOf(w.files, numbers[pos - 1]) == []
    ensures if pos == 1 then LatestDoneOk(w', None, began, |w.moments|)
            else SkippingOk(w', numbers, pos - 1, began)
  {
    ListingStep(w.files, numbers, pos - 1);
    if pos < |numbers| { ListingStep(w.files, numbers, pos); }
    assert w'.moments[began] == w.moments[began];
    if pos == 1 {
      assert LogAt(w', began) == [];
    }
  }

  lemma SkippingEnds(w: World, numbers: seq<nat>, pos: nat, began: nat)
    requires SkippingOk(w, numbers, pos, began) && SegmentOf(w.files, numbers[pos - 1]) != []
    ensures EndsAt(w, numbers[pos - 1], began)
  {
    if pos < |numbers| { ListingStep(w.files, numbers, pos); }
  }

  lemma LatestReadsOn(w: World, w': World, numbers: seq<nat>, pos: nat, began: nat)
    requires Glance(w, w') && LatestReadingOk(w, numbers, pos, began)
    ensures var data, now := SegmentOf(w.files, numbers[pos - 1]), |w.moments|;
      if data != [] then LatestDoneOk(w', Some(data[|data| - 1]), began, now)
      else if pos == 1 then LatestDoneOk(w', None, began, now)
      else LatestReadingOk(w', numbers, pos - 1, began)
  {
    if SegmentOf(w.files, numbers[pos - 1]) == [] {
      LatestSkips(w, w', numbers, pos, began);
    } else {
      if SkippingOk(w, numbers, pos, began) { SkippingEnds(w, numbers, pos, began); }
      LatestFinds(w, w', numbers[pos - 1], began);
    }
  }

  lemma BeginPhase(w: World, m: Move)
    requires Enabled(w, m) && (m.BeginAll? || m.BeginLatest?)
    ensures |Next(w, m).procs| == |w.procs|
    ensures Next(w, m).procs[m.p] ==
      if m.BeginAll? then AllListing(Present(w.files), |w.moments|, w.acked) else LatestListing(Present(w.files), |w.moments|)
  {}

  lemma BegunIsOk(w: World, w': World, base: seq<Checkpoint>, ph: Phase)
    requires LogOk(w, base) && Glance(w, w')
    requires ph == AllListing(Present(w.files), |w.moments|, w.acked) || ph == LatestListing(Present(w.files), |w.moments|)
    ensures ReaderOk(w', base, ph)
  {
    AckedIsKnown(w, w', base);
    BeginsScan(w, w');
  }

  lemma BeginMoves(w: World, base: seq<Checkpoint>, m: Move)
    requires LogOk(w, base) && Enabled(w, m) && (m.BeginAll? || m.BeginLatest?)
    requires Glance(w, Next(w, m))
    ensures ReaderOk(Next(w, m), base, Next(w, m).procs[m.p])
  {
    BeginPhase(w, m);
    BegunIsOk(w, Next(w, m), base, Next(w, m).procs[m.p]);
  }

  lemma ListMoves(w: World, base: seq<Checkpoint>, m: Move)
    requires MomentsBounded(w) && Enabled(w, m) && ReaderOk(w, base, w.procs[m.p]) && (m.ListAll? || m.ListLatest?)
    requires Glance(w, Next(w, m))
    ensures ReaderOk(Next(w, m), base, Next(w, m).procs[m.p])
  {
    var ph := w.procs[m.p];
    ListedNow(w, Next(w, m), ph.must, m.seen, ph.began);
    if m.ListLatest? {
      LatestListsOn(w, Next(w, m), ph.must, m.seen, ph.began);
    } else if Whole(w.files, m.seen) {
      AllListsOn(w, Next(w, m), base, ph.must, m.seen, ph.began, ph.known);
    }
  }

  lemma AllMoves(w: World, base: seq<Checkpoint>, m: Move)
    requires MomentsBounded(w) && Enabled(w, m) && ReaderOk(w, base, w.procs[m.p]) && m.ReadAll?
    requires Glance(w, Next(w, m))
    ensures ReaderOk(Next(w, m), base, Next(w, m).procs[m.p])
  {
    var ph := w.procs[m.p];
    ListedKept(w, Next(w, m), ph.began, ph.listed, ph.whole);
    if ph.whole { AllReadsOn(w, Next(w, m), base, ph.numbers, ph.pos, ph.acc, ph.began, ph.known); }
  }

  lemma LatestMoves(w: World, base: seq<Checkpoint>, m: Move)
    requires MomentsBounded(w) && Enabled(w, m) && ReaderOk(w, base, w.procs[m.p]) && m.ReadLatest?
    requires Glance(w, Next(w, m))
    ensures ReaderOk(Next(w, m), base, Next(w, m).procs[m.p])
  {
    var ph := w.procs[m.p];
    LatestReadsOn(w, Next(w, m), ph.numbers, ph.pos, ph.began);
  }

  /** What a quiet move makes of the reader that makes it. */
  lemma ReaderMoves(w: World, base: seq<Checkpoint>, m: Move)
    requires LogOk(w, base) && MomentsBounded(w) && Enabled(w, m) && ReaderOk(w, base, w.procs[m.p]) && !m.Replace?
    requires Glance(w, Next(w, m))
    ensures ReaderOk(Next(w, m), base, Next(w, m).procs[m.p])
  {
    if m.BeginAll? || m.BeginLatest? {
      BeginMoves(w, base, m);
    } else if m.ListAll? || m.ListLatest? {
      ListMoves(w, base, m);
    } else if m.ReadAll? {
      AllMoves(w, base, m);
    } else if m.ReadLatest? {
      LatestMoves(w, base, m);
    }
  }

  lemma ReadersKept(w: World, base: seq<Checkpoint>, m: Move)
    requires Inv(w, base) && Enabled(w, m) && Onward(w, Next(w, m)) && (!m.Replace? ==> Glance(w, Next(w, m)))
    ensures forall q :: 0 <= q < |Next(w, m).procs| ==> ReaderOk(Next(w, m), base, Next(w, m).procs[q])
  {
    var w' := Next(w, m);
    forall q | 0 <= q < |w.procs| ensures ReaderOk(w', base, w'.procs[q]) {
      assert ReaderOk(w, base, w.procs[q]);
      if q != m.p { ReaderKept(w, w', base, w.procs[q]); } else if !m.Replace? { ReaderMoves(w, base, m); }
    }
  }

  lemma LogMoves(w: World, base: seq<Checkpoint>, m: Move)
    requires Inv(w, base) && Enabled(w, m)
    ensures Onward(w, Next(w, m)) && MomentsOk(Next(w, m)) && LogOk(Next(w, m), base)
    ensures !m.Replace? ==> Glance(w, Next(w, m))
  {
    assert AppenderOk(w, w.procs[m.p]);
    if m.Replace? {
      ReplaceIsAppend(w, base, m);
    } else {
      QuietMoveIsOnward(w, m);
      LogKept(w, base, m);
    }
  }

  lemma Assembled(w: World, base: seq<Checkpoint>)
    requires LocksOk(w) && LogOk(w, base) && MomentsOk(w) && MomentsBounded(w)
    requires forall p :: 0 <= p < |w.procs| ==> AppenderOk(w, w.procs[p])
    requires forall p :: 0 <= p < |w.procs| ==> ReaderOk(w, base, w.procs[p])
    ensures Inv(w, base)
  {}

  lemma MoveKeepsInv(w: World, base: seq<Checkpoint>, m: Move)
    requires Inv(w, base) && Enabled(w, m)
    ensures Inv(Next(w, m), base)
  {
    LogMoves(w, base, m);
    SegmentLockKept(w, m);
    AppendersKept(w, base, m);
    ReadersKept(w, base, m);
    Assembled(Next(w, m), base);
  }

  lemma InitialInv(files: Files, processes: nat)
    ensures Inv(Initial(files, processes), Log(files))
  {
    assert Log(files) + Stored([], []) == Log(files);
  }

  lemma {:induction false} RunKeepsInv(w: World, base: seq<Checkpoint>, moves: seq<Move>)
    requires Inv(w, base) && Possible(w, moves)
    ensures Inv(Run(w, moves), base)
    decreases |moves|
  {
    if moves != [] {
      MoveKeepsInv(w, base, moves[0]);
      RunKeepsInv(Next(w, moves[0]), base, moves[1..]);
    }
  }

  /** Every replacement takes one free place, while there is one, and keeps segments within capacity. */
  lemma PlacesTaken(w: World, base: seq<Checkpoint>, m: Move)
    requires Inv(w, base) && Enabled(w, m)
    ensures var w' := Next(w, m);
      && (SizesOk(w.files) ==> SizesOk(w'.files))
      && |w'.written| + Free(w'.files) == |w.written| + Free(w.files)
  {
    if m.Replace? {
      ReplaceIsAppend(w, base, m);
      assert AppenderOk(w, w.procs[m.p]);
      AppendExtendsLog(w.files, w.procs[m.p].cp);
      AppendTakesOne(w.files, w.procs[m.p].cp);
    }
  }

  lemma {:induction false} RunTakesPlaces(w: World, base: seq<Checkpoint>, moves: seq<Move>)
    requires Inv(w, base) && Possible(w, moves)
    ensures var w' := Run(w, moves);
      && (SizesOk(w.files) ==> SizesOk(w'.files))
      && |w'.written| + Free(w'.files) == |w.written| + Free(w.files)
    decreases |moves|
  {
    if moves != [] {
      PlacesTaken(w, base, moves[0]);
      MoveKeepsInv(w, base, moves[0]);
      RunTakesPlaces(Next(w, moves[0]), base, moves[1..]);
    }
  }

  // ---- the theorems ----------------------------------------------------------------

  predicate StoredOnce(written: seq<nat>, t: nat) {
    exists i | 0 <= i < |written| :: written[i] == t && OnlyThere(written, i)
  }

  predicate OnlyThere(written: seq<nat>, i: nat)
    requires i < |written|
  {
    forall j | 0 <= j < |written| :: written[j] == written[i] ==> j == i
  }

  lemma OnlyAt(written: seq<nat>, i: nat)
    requires i < |written| && forall j, k :: 0 <= j < k < |written| ==> written[j] < written[k]
    ensures OnlyThere(written, i)
  {}

  lemma StoredOrLost(w: World, base: seq<Checkpoint>, t: nat)
    requires LogOk(w, base) && t in w.acked
    ensures if t in w.lost then t !in w.written else StoredOnce(w.written, t)
  {
    if t !in w.lost {
      var i :| 0 <= i < |w.written| && w.written[i] == t;
      OnlyAt(w.written, i);
    }
  }

  /** Every interleaving of any number of appenders and readers, with failures anywhere: the log is what was
      there plus the written requests ordered by acquisition of the execution lock, each acknowledged
      request is stored exactly once, and segments stay within capacity. Requests are lost, all of them from
      some ticket on, exactly once the free places of the directory are used up. */
  lemma ConcurrentAppendsAreSerial(files: Files, processes: nat, moves: seq<Move>)
    requires Possible(Initial(files, processes), moves)
    ensures var w := Run(Initial(files, processes), moves);
      && LogOk(w, Log(files))
      && Log(w.files) == Log(files) + Stored(w.requests, w.written)
      && (forall i, j :: 0 <= i < j < |w.written| ==> w.written[i] < w.written[j])
      && (forall t :: t in w.acked ==> if t in w.lost then t !in w.written else StoredOnce(w.written, t))
      && |w.written| + Free(w.files) == Free(files)
      && (w.lost != [] ==> |w.written| == Free(files))
      && (SizesOk(files) ==> SizesOk(w.files))
  {
    var w0 := Initial(files, processes);
    var w := Run(w0, moves);
    InitialInv(files, processes);
    RunKeepsInv(w0, Log(files), moves);
    RunTakesPlaces(w0, Log(files), moves);
    forall t | t in w.acked ensures if t in w.lost then t !in w.written else StoredOnce(w.written, t) {
      StoredOrLost(w, Log(files), t);
    }
    if w.lost != [] && w.requests != [] { AppendTakesOne(w.files, w.requests[0]); }
  }

  /** Taking the locks in the fixed order never blocks the holder: with the execution lock in hand some
      move other than giving up is always possible, a waiting process can go on once it is free, and
      readers never wait at all. */
  lemma HolderIsNeverBlocked(w: World, base: seq<Checkpoint>, p: nat)
    requires Inv(w, base) && p < |w.procs|
    ensures HoldsExec(w.procs[p]) ==>
      || Enabled(w, List(p)) || Enabled(w, Peek(p)) || Enabled(w, LockSegment(p)) || Enabled(w, ReadSegment(p))
      || Enabled(w, Replace(p)) || Enabled(w, UnlockSegment(p)) || Enabled(w, Unlock(p))
    ensures w.procs[p].Waiting? && w.execLock.None? ==> Enabled(w, Acquire(p))
    ensures w.procs[p].AllListing? ==> Enabled(w, ListAll(p, w.procs[p].must))
    ensures w.procs[p].AllReading? ==> Enabled(w, ReadAll(p))
    ensures w.procs[p].LatestListing? ==> Enabled(w, ListLatest(p, w.procs[p].must))
    ensures w.procs[p].LatestReading? ==> Enabled(w, ReadLatest(p))
  {
    assert ReaderOk(w, base, w.procs[p]);
    if HoldsExec(w.procs[p]) { HolderCanMove(w, p); }
  }

  lemma HolderCanMove(w: World, p: nat)
    requires LocksOk(w) && p < |w.procs| && HoldsExec(w.procs[p])
    ensures
      || Enabled(w, List(p)) || Enabled(w, Peek(p)) || Enabled(w, LockSegment(p)) || Enabled(w, ReadSegment(p))
      || Enabled(w, Replace(p)) || Enabled(w, UnlockSegment(p)) || Enabled(w, Unlock(p))
  {
    assert w.execLock == Some(p);
    if w.procs[p].Chosen? { assert w.segLocks == map[]; }
  }

  /** The world after the first i moves. */
  function WorldAt(w: World, moves: seq<Move>, i: nat): World
    requires Possible(w, moves) && i <= |moves|
    decreases i
  {
    if i == 0 then w else WorldAt(Next(w, moves[0]), moves[1..], i - 1)
  }

  lemma {:induction false} LastWorld(w: World, moves: seq<Move>)
    requires Possible(w, moves)
    ensures WorldAt(w, moves, |moves|) == Run(w, moves)
    decreases |moves|
  {
    if moves != [] { LastWorld(Next(w, moves[0]), moves[1..]); }
  }

  /** w' goes on from w: the log has only grown, and its lengths so far are on record. */
  ghost predicate GoesOn(w: World, w': World) {
    && Log(w.files) <= Log(w'.files)
    && |w.moments| <= |w'.moments| && w'.moments[..|w.moments|] == w.moments
  }

  /** Every move keeps inv, which vouches for the moments on record, and the world goes on. */
  ghost predicate Lasting(inv: World -> bool) {
    && (forall w: World :: inv(w) ==> MomentsOk(w))
    && (forall w: World, m: Move {:trigger inv(w), Next(w, m)} ::
          inv(w) && Enabled(w, m) ==> inv(Next(w, m)) && GoesOn(w, Next(w, m)))
  }

  lemma GoesOnTransitively(u: World, v: World, w: World)
    requires GoesOn(u, v) && GoesOn(v, w)
    ensures GoesOn(u, w)
  {
    assert w.moments[..|u.moments|] == w.moments[..|v.moments|][..|u.moments|];
  }

  lemma {:induction false} LogOnlyGrows(w: World, moves: seq<Move>, inv: World -> bool)
    requires Lasting(inv) && inv(w) && Possible(w, moves)
    ensures GoesOn(w, Run(w, moves))
    decreases |moves|
  {
    if moves != [] {
      var m := moves[0];
      LogOnlyGrows(Next(w, m), moves[1..], inv);
      GoesOnTransitively(w, Next(w, m), Run(w, moves));
    }
  }

  /** Moment k of w' is that log. */
  ghost predicate Shows(w': World, k: nat, log: seq<Checkpoint>) {
    k < |w'.moments| && w'.moments[k] <= |Log(w'.files)| && LogAt(w', k) == log
  }

  lemma LastMoment(w: World, w': World)
    requires MomentsOk(w) && GoesOn(w, w')
    ensures |w.moments| > 0 && Shows(w', |w.moments| - 1, Log(w.files))
  {
    assert w'.moments[|w.moments| - 1] == w.moments[|w.moments| - 1];
  }

  lemma NextMoment(w: World, m: Move)
    requires Enabled(w, m)
    ensures |Next(w, m).moments| == |w.moments| + 1
  {}

  /** Moment i of a finished run is the log of the world after i moves. */
  lemma {:induction false} MomentIsWorld(w: World, moves: seq<Move>, i: nat, inv: World -> bool)
    requires Lasting(inv) && inv(w) && Possible(w, moves) && i <= |moves| && |w.moments| > 0
    ensures Shows(Run(w, moves), |w.moments| - 1 + i, Log(WorldAt(w, moves, i).files))
    decreases i
  {
    if i == 0 {
      LogOnlyGrows(w, moves, inv);
      LastMoment(w, Run(w, moves));
    } else {
      NextMoment(w, moves[0]);
      MomentIsWorld(Next(w, moves[0]), moves[1..], i - 1, inv);
    }
  }

  lemma MoveGoesOn(w: World, base: seq<Checkpoint>, m: Move)
    requires Inv(w, base) && Enabled(w, m)
    ensures MomentsOk(w) && GoesOn(w, Next(w, m))
  {
    assert AppenderOk(w, w.procs[m.p]);
    if m.Replace? { ReplaceIsAppend(w, base, m); } else { QuietMoveIsOnward(w, m); }
  }

  lemma InvLasts(base: seq<Checkpoint>)
    ensures Lasting(w => Inv(w, base))
  {
    forall w: World | Inv(w, base) ensures MomentsOk(w) {}
    forall w: World, m: Move | Inv(w, base) && Enabled(w, m) ensures Inv(Next(w, m), base) && GoesOn(w, Next(w, m)) {
      MoveKeepsInv(w, base, m);
      MoveGoesOn(w, base, m);
    }
  }

  lemma {:induction false} OneMomentPerMove(w: World, moves: seq<Move>)
    requires Possible(w, moves)
    ensures |Run(w, moves).moments| == |w.moments| + |moves|
    decreases |moves|
  {
    if moves != [] { OneMomentPerMove(Next(w, moves[0]), moves[1..]); }
  }

  /** A finished all(): its result is the log after one of the moves made while it ran. */
  ghost predicate AllIsAtomic(w0: World, moves: seq<Move>, ph: Phase)
    requires Possible(w0, moves) && ph.AllDone?
  {
    exists i :: ph.began <= i <= ph.ended && i <= |moves| && ph.history == Log(WorldAt(w0, moves, i).files)
  }

  /** A finished latest(): its result was the log's last entry after one of the moves made while it ran. */
  ghost predicate LatestIsAtomic(w0: World, moves: seq<Move>, ph: Phase)
    requires Possible(w0, moves) && ph.LatestDone?
  {
    exists i :: ph.began <= i <= ph.ended && i <= |moves| && ph.latest == LastOf(Log(WorldAt(w0, moves, i).files))
  }

  /** all() without any lock, against any concurrent appenders, returns exactly what the log was after
      some move of the call, and holds every request acknowledged before it began, unless its listing missed a
      segment below one it showed; and that takes more than a hundred appends while the directory is listed. */
  lemma UnlockedAllIsAtomic(files: Files, processes: nat, moves: seq<Move>, p: nat)
    requires Possible(Initial(files, processes), moves)
    ensures var w := Run(Initial(files, processes), moves);
      p < |w.procs| && w.procs[p].AllDone? ==>
        var ph := w.procs[p];
        && ph.began <= ph.listed < |w.moments|
        && (w.moments[ph.listed] - w.moments[ph.began] <= CAPACITY ==> ph.whole)
        && (ph.whole ==>
              && AllIsAtomic(Initial(files, processes), moves, ph)
              && (forall t :: t in ph.known && t !in w.lost ==>
                    exists i :: 0 <= i < |w.written| && w.written[i] == t && |Log(files)| + i < |ph.history|)
              && ph.history <= Log(w.files))
  {
    var w0 := Initial(files, processes);
    var w := Run(w0, moves);
    if p < |w.procs| && w.procs[p].AllDone? {
      FinishedRun(files, processes, moves, p);
      if w.procs[p].whole { DoneIsAtomic(w0, Log(files), moves, w, w.procs[p], u => Inv(u, Log(files))); }
    }
  }

  lemma FinishedRun(files: Files, processes: nat, moves: seq<Move>, p: nat)
    requires Possible(Initial(files, processes), moves) && p < |Run(Initial(files, processes), moves).procs|
    ensures var w0, w := Initial(files, processes), Run(Initial(files, processes), moves);
      && Lasting(u => Inv(u, Log(files))) && Inv(w0, Log(files))
      && |w0.moments| == 1 && |w.moments| == 1 + |moves|
      && MomentsBounded(w) && ReaderOk(w, Log(files), w.procs[p])
  {
    InvLasts(Log(files));
    InitialInv(files, processes);
    RunKeepsInv(Initial(files, processes), Log(files), moves);
    OneMomentPerMove(Initial(files, processes), moves);
  }

  lemma DoneIsAtomic(w0: World, base: seq<Checkpoint>, moves: seq<Move>, w: World, ph: Phase, inv: World -> bool)
    requires Lasting(inv) && inv(w0) && |w0.moments| == 1
    requires Possible(w0, moves) && w == Run(w0, moves) && |w.moments| == 1 + |moves|
    requires ph.AllDone? && MomentsBounded(w) && AllDoneOk(w, base, ph.history, ph.began, ph.ended, ph.known)
    ensures AllIsAtomic(w0, moves, ph)
    ensures forall t :: t in ph.known && t !in w.lost ==>
      exists i :: 0 <= i < |w.written| && w.written[i] == t && |base| + i < |ph.history|
    ensures ph.history <= Log(w.files)
  {
    var i :| ph.began <= i <= ph.ended && ph.history == LogAt(w, i);
    MomentIsWorld(w0, moves, i, inv);
    forall t | t in ph.known && t !in w.lost
      ensures exists i :: 0 <= i < |w.written| && w.written[i] == t && |base| + i < |ph.history|
    {
      var k :| 0 <= k < |w.written| && w.written[k] == t && |base| + k < w.moments[ph.began];
    }
  }

  /** latest() without any lock returns the entry that was the log's last, or nothing while the log was
      empty, after some move of the call, even when its listing missed segments. */
  lemma UnlockedLatestIsAtomic(files: Files, processes: nat, moves: seq<Move>, p: nat)
    requires Possible(Initial(files, processes), moves)
    ensures var w := Run(Initial(files, processes), moves);
      p < |w.procs| && w.procs[p].LatestDone? ==> LatestIsAtomic(Initial(files, processes), moves, w.procs[p])
  {
    var w0 := Initial(files, processes);
    var w := Run(w0, moves);
    if p < |w.procs| && w.procs[p].LatestDone? {
      FinishedRun(files, processes, moves, p);
      LatestDoneIsAtomic(w0, moves, w, w.procs[p], u => Inv(u, Log(files)));
    }
  }

  lemma LatestDoneIsAtomic(w0: World, moves: seq<Move>, w: World, ph: Phase, inv: World -> bool)
    requires Lasting(inv) && inv(w0) && |w0.moments| == 1
    requires Possible(w0, moves) && w == Run(w0, moves) && |w.moments| == 1 + |moves|
    requires ph.LatestDone? && MomentsBounded(w) && LatestDoneOk(w, ph.latest, ph.began, ph.ended)
    ensures LatestIsAtomic(w0, moves, ph)
  {
    var i :| ph.began <= i <= ph.ended && ph.latest == LastOf(LogAt(w, i));
    MomentIsWorld(w0, moves, i, inv);
  }
}
