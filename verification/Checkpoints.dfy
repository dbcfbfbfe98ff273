/** The segmented, append-only checkpoint log (checkpoints.py). */
module Checkpoints {
  import opened Common
  import opened Json

  datatype Checkpoint = Checkpoint(
    executionId: string,
    phase: string,
    completed: seq<string>,
    pending: seq<string>,
    lastGoodState: Option<string>,
    at: real)
  {
    predicate Valid() {
      !Blank(executionId) && !Blank(phase) && at >= 0.0 && !BlankIfGiven(lastGoodState)
    }
  }

  // ---- the stored form of one entry ------------------------------------------

  function ToJson(cp: Checkpoint): Json {
    JObj(map[
      ExecutionId := JStr(cp.executionId),
      Phase := JStr(cp.phase),
      CompletedItems := FromStrings(cp.completed),
      PendingItems := FromStrings(cp.pending),
      LastGoodState := FromOptional(cp.lastGoodState),
      AtSeconds := JReal(cp.at)])
  }

  function ConstructEntry(entry: Json): Result<Checkpoint> {
    if !entry.JObj? || ExecutionId !in entry.fields || Phase !in entry.fields then Err(CorruptStorage)
    else
      var f := entry.fields;
      var completed, pending := Get(f, CompletedItems, JList([])), Get(f, PendingItems, JList([]));
      if !completed.JList? || !pending.JList? then Err(CorruptStorage)
      else if !IsText(f[ExecutionId]) || !IsText(f[Phase]) || !IsTime(Get(f, AtSeconds, JReal(0.0))) then Err(CorruptStorage)
      else if !IsStrings(completed) || !IsStrings(pending) then Err(CorruptStorage)
      else if !IsOptionalText(Get(f, LastGoodState, JNull)) then Err(CorruptStorage)
      else
        Ok(Checkpoint(f[ExecutionId].s, f[Phase].s, Strings(completed), Strings(pending),
                      OptionalText(Get(f, LastGoodState, JNull)), Time(Get(f, AtSeconds, JReal(0.0)))))
  }

  /** Every accepted entry is a valid checkpoint; a checkpoint reads back equal exactly when it is valid. */
  lemma EntryRoundTrip(cp: Checkpoint, entry: Json)
    ensures ConstructEntry(entry).Ok? ==> ConstructEntry(entry).value.Valid()
    ensures cp.Valid() <==> ConstructEntry(ToJson(cp)) == Ok(cp)
  {
    StringsRoundTrip(cp.completed);
    StringsRoundTrip(cp.pending);
  }

  /** The entry says exactly what the checkpoint says: two fields must be there, the others count as empty, absent or
      zero when they are not. */
  predicate EntrySays(entry: Json, cp: Checkpoint) {
    entry.JObj? &&
    var f := entry.fields;
    && ExecutionId in f && f[ExecutionId] == JStr(cp.executionId)
    && Phase in f && f[Phase] == JStr(cp.phase)
    && Get(f, CompletedItems, JList([])) == FromStrings(cp.completed)
    && Get(f, PendingItems, JList([])) == FromStrings(cp.pending)
    && Get(f, LastGoodState, JNull) == FromOptional(cp.lastGoodState)
    && StandsFor(Get(f, AtSeconds, JReal(0.0)), cp.at)
  }

  /** The reader accepts an entry exactly when it says a valid checkpoint, and gives that checkpoint. */
  lemma EntryReaderExactly(entry: Json, cp: Checkpoint)
    ensures ConstructEntry(entry) == Ok(cp) <==> cp.Valid() && EntrySays(entry, cp)
  {
    if entry.JObj? {
      StringsExactly(Get(entry.fields, CompletedItems, JList([])), cp.completed);
      StringsExactly(Get(entry.fields, PendingItems, JList([])), cp.pending);
    }
  }

  function EncodeSegment(cps: seq<Checkpoint>): Json {
    JList(seq(|cps|, i requires 0 <= i < |cps| => ToJson(cps[i])))
  }

  predicate SegmentReadable(doc: Json) {
    doc.JList? && forall i :: 0 <= i < |doc.items| ==> ConstructEntry(doc.items[i]).Ok?
  }

  function DecodeSegment(doc: Json): seq<Checkpoint>
    requires SegmentReadable(doc)
  {
    seq(|doc.items|, i requires 0 <= i < |doc.items| => ConstructEntry(doc.items[i]).value)
  }

  /** A segment of valid checkpoints always passes the reader's schema and reads back equal. */
  lemma SegmentRoundTrip(cps: seq<Checkpoint>)
    requires forall i :: 0 <= i < |cps| ==> cps[i].Valid()
    ensures SegmentReadable(EncodeSegment(cps)) && DecodeSegment(EncodeSegment(cps)) == cps
  {
    forall i | 0 <= i < |cps| ensures ConstructEntry(EncodeSegment(cps).items[i]) == Ok(cps[i]) {
      EntryRoundTrip(cps[i], JNull);
    }
  }

  // ---- segments as files, the log as one sequence -----------------------------

  const CAPACITY := 100

  /** Segment file names are matched by exactly six digits, so numbers from here on are never listed. */
  const UNLISTED: nat := 1_000_000

  type Files = map<nat, seq<Checkpoint>>

  function SegmentOf(files: Files, n: nat): seq<Checkpoint> { if n in files then files[n] else [] }

  /** The entries of all segments numbered below n, in segment order. */
  function LogBelow(files: Files, n: nat): seq<Checkpoint> {
    if n == 0 then [] else LogBelow(files, n - 1) + SegmentOf(files, n - 1)
  }

  /** The history a reader sees. */
  function Log(files: Files): seq<Checkpoint> { LogBelow(files, UNLISTED) }

  function TopBelow(files: Files, n: nat): (top: Option<nat>)
    ensures top.Some? ==> top.value < n
  {
    if n == 0 then None
    else if n - 1 in files then Some(n - 1)
    else TopBelow(files, n - 1)
  }

  function Top(files: Files): Option<nat> { TopBelow(files, UNLISTED) }

  /** The segment the next append writes to. */
  function Target(files: Files): nat {
    match Top(files)
    case None => 1
    case Some(t) => if |SegmentOf(files, t)| >= CAPACITY then t + 1 else t
  }

  function Grow(files: Files, n: nat, cp: Checkpoint): Files { files[n := SegmentOf(files, n) + [cp]] }

  function Appended(files: Files, cp: Checkpoint): Files { Grow(files, Target(files), cp) }

  /** The last segment number that can be listed is not yet in use and full. */
  predicate HasRoom(files: Files) { Target(files) < UNLISTED }

  /** No listed segment is over capacity. */
  predicate SizesOk(files: Files) {
    forall n | n in files && n < UNLISTED :: |files[n]| <= CAPACITY
  }

  lemma {:induction false} TopBelowIs(files: Files, n: nat)
    ensures match TopBelow(files, n)
      case None => forall m: nat :: m < n ==> m !in files
      case Some(t) => t < n && t in files && forall m: nat :: t < m < n ==> m !in files
  {
    if n > 0 && n - 1 !in files {
      TopBelowIs(files, n - 1);
    }
  }

  lemma {:induction false} LogBelowFrame(files: Files, files': Files, n: nat)
    requires forall m: nat :: m < n ==> SegmentOf(files, m) == SegmentOf(files', m)
    ensures LogBelow(files, n) == LogBelow(files', n)
  {
    if n > 0 { LogBelowFrame(files, files', n - 1); }
  }

  lemma {:induction false} LogBelowSkips(files: Files, m: nat, n: nat)
    requires m <= n
    requires forall k: nat :: m <= k < n ==> SegmentOf(files, k) == []
    ensures LogBelow(files, n) == LogBelow(files, m)
    decreases n
  {
    if m < n { LogBelowSkips(files, m, n - 1); }
  }

  /** The log is everything below the top segment followed by the top segment. */
  lemma LogEndsAtTop(files: Files)
    ensures match Top(files)
      case None => Log(files) == []
      case Some(t) => t < UNLISTED && t in files && Log(files) == LogBelow(files, t) + files[t]
  {
    TopBelowIs(files, UNLISTED);
    match Top(files)
    case None => LogBelowSkips(files, 0, UNLISTED);
    case Some(t) => LogBelowSkips(files, t + 1, UNLISTED);
  }

  lemma GrowAtEnd(files: Files, n: nat, cp: Checkpoint)
    requires n < UNLISTED
    requires forall m: nat :: n < m < UNLISTED ==> m !in files
    ensures Log(Grow(files, n, cp)) == Log(files) + [cp]
    ensures Top(Grow(files, n, cp)) == Some(n)
  {
    var after := Grow(files, n, cp);
    LogBelowFrame(files, after, n);
    LogBelowSkips(files, n + 1, UNLISTED);
    LogBelowSkips(after, n + 1, UNLISTED);
    TopBelowIs(after, UNLISTED);
  }

  lemma TargetIsBeyondTop(files: Files)
    ensures forall m: nat :: Target(files) < m < UNLISTED ==> m !in files
    ensures Target(files) <= UNLISTED
  {
    TopBelowIs(files, UNLISTED);
  }

  /** From any segment map, gaps included: an append extends the one history by exactly the new
      checkpoint if and only if the segment numbers have not run out; otherwise readers see nothing
      of it. No other segment is touched. */
  lemma AppendExtendsLog(files: Files, cp: Checkpoint)
    ensures Log(Appended(files, cp)) == Log(files) + [cp] <==> HasRoom(files)
    ensures !HasRoom(files) ==> Log(Appended(files, cp)) == Log(files)
    ensures forall n: nat :: n != Target(files) ==> SegmentOf(Appended(files, cp), n) == SegmentOf(files, n)
    ensures SizesOk(files) ==> SizesOk(Appended(files, cp))
  {
    TargetIsBeyondTop(files);
    TopBelowIs(files, UNLISTED);
    if HasRoom(files) {
      GrowAtEnd(files, Target(files), cp);
    } else {
      LogBelowFrame(files, Appended(files, cp), UNLISTED);
    }
  }

  const LIMIT: nat := 99_999_900

  // ---- runs of appends ---------------------------------------------------------

  function AppendedAll(files: Files, cps: seq<Checkpoint>): Files {
    if cps == [] then files else Appended(AppendedAll(files, cps[..|cps| - 1]), cps[|cps| - 1])
  }

  lemma LastAppended(files: Files, cps: seq<Checkpoint>, last: Checkpoint)
    ensures AppendedAll(files, cps + [last]) == Appended(AppendedAll(files, cps), last)
  {
    assert (cps + [last])[..|cps|] == cps;
  }

  /** How many more checkpoints readers will see. */
  function Free(files: Files): nat {
    match Top(files)
    case None => LIMIT
    case Some(t) =>
      CAPACITY * (UNLISTED - 1 - t)
      + if |SegmentOf(files, t)| < CAPACITY then CAPACITY - |SegmentOf(files, t)| else 0
  }

  lemma {:induction false} TopFrame(files: Files, files': Files, n: nat)
    requires forall m: nat :: m < n ==> (m in files <==> m in files')
    ensures TopBelow(files, n) == TopBelow(files', n)
  {
    if n > 0 && n - 1 !in files { TopFrame(files, files', n - 1); }
  }

  /** An append takes one free place exactly when there is one. */
  lemma AppendTakesOne(files: Files, cp: Checkpoint)
    ensures HasRoom(files) <==> Free(files) > 0
    ensures Free(Appended(files, cp)) == if Free(files) > 0 then Free(files) - 1 else 0
  {
    TopBelowIs(files, UNLISTED);
    TargetIsBeyondTop(files);
    if HasRoom(files) {
      GrowAtEnd(files, Target(files), cp);
    } else {
      TopFrame(files, Appended(files, cp), UNLISTED);
    }
  }

  /** What n appends after an old log have made of it. */
  predicate Seen(earlier: seq<Checkpoint>, free: nat, cps: seq<Checkpoint>, log: seq<Checkpoint>, left: nat) {
    if |cps| <= free then log == earlier + cps && left == free - |cps|
    else |log| == |earlier| + free && left == 0
  }

  lemma SeenStep(earlier: seq<Checkpoint>, free: nat, cps: seq<Checkpoint>, log: seq<Checkpoint>, left: nat, cp: Checkpoint)
    requires Seen(earlier, free, cps, log, left)
    ensures Seen(earlier, free, cps + [cp], if left > 0 then log + [cp] else log, if left > 0 then left - 1 else 0)
  {
    if left > 0 { assert earlier + cps + [cp] == earlier + (cps + [cp]); }
  }

  lemma AppendIsSeen(files: Files, cp: Checkpoint)
    ensures Log(Appended(files, cp)) == if Free(files) > 0 then Log(files) + [cp] else Log(files)
    ensures Free(Appended(files, cp)) == if Free(files) > 0 then Free(files) - 1 else 0
  {
    AppendTakesOne(files, cp);
    AppendExtendsLog(files, cp);
  }

  lemma {:induction false} AppendsAreSeen(files: Files, cps: seq<Checkpoint>)
    ensures Seen(Log(files), Free(files), cps, Log(AppendedAll(files, cps)), Free(AppendedAll(files, cps)))
  {
    if cps == [] {
      assert Log(files) + cps == Log(files);
    } else {
      var before, cp := cps[..|cps| - 1], cps[|cps| - 1];
      var mid := AppendedAll(files, before);
      AppendsAreSeen(files, before);
      AppendIsSeen(mid, cp);
      SeenStep(Log(files), Free(files), before, Log(mid), Free(mid), cp);
      assert before + [cp] == cps;
    }
  }

  /** Whatever the directory held before, gaps and overfull segments included: appended one by one, checkpoints
      read back as the old history followed by all of them if and only if there are free places for them. */
  lemma AppendsReadBackExactly(files: Files, cps: seq<Checkpoint>)
    ensures Log(AppendedAll(files, cps)) == Log(files) + cps <==> |cps| <= Free(files)
  {
    AppendsAreSeen(files, cps);
  }

  // ---- logs built by appends alone ---------------------------------------------

  function Build(cps: seq<Checkpoint>): Files { AppendedAll(map[], cps) }

  /** Segments 1 to n, all full except possibly the last, which is not empty. */
  ghost predicate Dense(files: Files, n: nat) {
    && (forall k: nat :: k in files <==> 1 <= k <= n)
    && (forall k: nat :: 1 <= k < n ==> |SegmentOf(files, k)| == CAPACITY)
    && (n > 0 ==> 1 <= |SegmentOf(files, n)| <= CAPACITY)
  }

  lemma DenseTop(files: Files, n: nat)
    requires Dense(files, n) && n < UNLISTED
    ensures Top(files) == if n == 0 then None else Some(n)
  {
    TopBelowIs(files, UNLISTED);
    assert n > 0 ==> n in files;
  }

  lemma DenseGrows(files: Files, n: nat, cp: Checkpoint)
    requires Dense(files, n) && n < UNLISTED
    ensures Target(files) == if n > 0 && |SegmentOf(files, n)| < CAPACITY then n else n + 1
    ensures Dense(Appended(files, cp), Target(files))
  {
    DenseTop(files, n);
    var after, target := Appended(files, cp), Target(files);
    forall k: nat | 1 <= k < target ensures |SegmentOf(after, k)| == CAPACITY {
      assert SegmentOf(after, k) == SegmentOf(files, k);
    }
  }

  lemma {:induction false} DenseLength(files: Files, n: nat, k: nat)
    requires Dense(files, n) && 0 < k <= n
    ensures |LogBelow(files, k)| == CAPACITY * (k - 1)
  {
    if k > 1 {
      DenseLength(files, n, k - 1);
    } else {
      assert 0 !in files;
      assert LogBelow(files, 1) == LogBelow(files, 0) + SegmentOf(files, 0);
    }
  }

  /** One more append to a dense log: where it goes and what it does to the log. */
  lemma DenseStep(files: Files, top: nat, cp: Checkpoint) returns (n: nat)
    requires Dense(files, top) && top < UNLISTED && |Log(files)| < LIMIT
    ensures n < UNLISTED && n > 0 && Dense(Appended(files, cp), n)
    ensures Log(Appended(files, cp)) == Log(files) + [cp]
  {
    DenseGrows(files, top, cp);
    DenseTop(files, top);
    LogEndsAtTop(files);
    if top > 0 { DenseLength(files, top, top); }
    n := Target(files);
    AppendExtendsLog(files, cp);
  }

  /** Up to the limit a log built by appends is dense and reads back as exactly what was appended. */
  lemma {:induction false} BuiltLogIsDense(cps: seq<Checkpoint>) returns (n: nat)
    requires |cps| <= LIMIT
    ensures n < UNLISTED && Dense(Build(cps), n)
    ensures Log(Build(cps)) == cps
  {
    if cps == [] {
      n := 0;
      NothingIsWritten();
    } else {
      var before, cp := cps[..|cps| - 1], cps[|cps| - 1];
      assert before + [cp] == cps;
      var top := BuiltLogIsDense(before);
      LastAppended(map[], before, cp);
      n := DenseStep(Build(before), top, cp);
    }
  }

  lemma NothingIsWritten()
    ensures Log(map[]) == [] && Top(map[]) == None && Free(map[]) == LIMIT
  {
    TopBelowIs(map[], UNLISTED);
    LogBelowSkips(map[], 0, UNLISTED);
  }

  /** A log built by appends alone reads back as the appended sequence if and only if at most
      99,999,900 checkpoints were appended. */
  lemma BuiltLogReadsBackExactly(cps: seq<Checkpoint>)
    ensures Log(Build(cps)) == cps <==> |cps| <= LIMIT
  {
    NothingIsWritten();
    AppendsReadBackExactly(map[], cps);
    assert [] + cps == cps;
  }

  // ---- the store ----------------------------------------------------------------

  predicate Ascending(numbers: seq<nat>) {
    forall i, j :: 0 <= i < j < |numbers| ==> numbers[i] < numbers[j]
  }

  function Inserted(numbers: seq<nat>, n: nat): (r: seq<nat>)
    requires Ascending(numbers) && n !in numbers
    ensures Ascending(r)
    ensures forall m :: m in r <==> m in numbers || m == n
  {
    if numbers == [] then [n]
    else if n < numbers[0] then [n] + numbers
    else
      var rest := Inserted(numbers[1..], n);
      assert numbers == [numbers[0]] + numbers[1..];
      FirstIsLeast(numbers, n, rest);
      [numbers[0]] + rest
  }

  lemma FirstIsLeast(numbers: seq<nat>, n: nat, rest: seq<nat>)
    requires Ascending(numbers) && numbers != [] && numbers[0] < n && Ascending(rest)
    requires forall m :: m in rest <==> m in numbers[1..] || m == n
    ensures Ascending([numbers[0]] + rest)
  {
    forall j | 0 <= j < |rest| ensures numbers[0] < rest[j] {
      assert rest[j] in rest;
      if rest[j] in numbers[1..] {
        var k :| 0 <= k < |numbers[1..]| && numbers[1..][k] == rest[j];
        assert numbers[k + 1] == rest[j];
      }
    }
  }

  class CheckpointStore {
    var files: Files

    /** Opens the store over whatever the directory holds. */
    constructor (found: Files)
      ensures files == found
    {
      files := found;
    }

    method SegmentNumbers() returns (numbers: seq<nat>)
      ensures Ascending(numbers)
      ensures forall n: nat :: n in numbers <==> n in files && n < UNLISTED
    {
      numbers := [];
      var unseen := files.Keys;
      while unseen != {}
        invariant unseen <= files.Keys
        invariant Ascending(numbers)
        invariant forall n: nat :: n in numbers <==> n in files && n !in unseen && n < UNLISTED
        decreases |unseen|
      {
        var n :| n in unseen;
        unseen := unseen - {n};
        if n < UNLISTED {
          numbers := Inserted(numbers, n);
        }
      }
    }

    /** One whole append under the execution lock; the environment may make the write fail. */
    method Append(cp: Checkpoint, succeeds: bool) returns (written: bool)
      modifies this
      ensures written == succeeds
      ensures files == if succeeds then Appended(old(files), cp) else old(files)
    {
      var numbers := SegmentNumbers();
      TopBelowIs(files, UNLISTED);
      var target := 1;
      if numbers != [] {
        target := numbers[|numbers| - 1];
        assert target in numbers;
      }
      assert Top(files).Some? ==> Top(files).value in numbers;
      var count := |SegmentOf(files, target)|;
      if count >= CAPACITY {
        target := target + 1;
      }
      if succeeds {
        files := files[target := SegmentOf(files, target) + [cp]];
      }
      written := succeeds;
    }

    method All() returns (result: seq<Checkpoint>)
      ensures result == Log(files)
    {
      var numbers := SegmentNumbers();
      result := [];
      ghost var next: nat := 0;
      for i := 0 to |numbers|
        invariant next <= UNLISTED && result == LogBelow(files, next)
        invariant forall k :: 0 <= k < i ==> numbers[k] < next
        invariant forall k :: i <= k < |numbers| ==> next <= numbers[k]
      {
        var n := numbers[i];
        assert n in numbers;
        forall k: nat | next <= k < n ensures SegmentOf(files, k) == [] {
          assert k !in numbers;
        }
        LogBelowSkips(files, next, n);
        result := result + files[n];
        next := n + 1;
      }
      forall k: nat | next <= k < UNLISTED ensures SegmentOf(files, k) == [] {
        assert k !in numbers;
      }
      LogBelowSkips(files, next, UNLISTED);
    }

    method Latest() returns (latest: Option<Checkpoint>)
      ensures latest == if Log(files) == [] then None else Some(Log(files)[|Log(files)| - 1])
    {
      var numbers := SegmentNumbers();
      var i := |numbers|;
      ghost var upper: nat := UNLISTED;
      assert forall k :: 0 <= k < i ==> numbers[k] in numbers;
      while i > 0
        invariant 0 <= i <= |numbers| && upper <= UNLISTED
        invariant Log(files) == LogBelow(files, upper)
        invariant forall k :: 0 <= k < i ==> numbers[k] < upper
        invariant forall k :: i <= k < |numbers| ==> upper <= numbers[k]
      {
        i := i - 1;
        var n := numbers[i];
        assert n in numbers;
        forall k: nat | n < k < upper ensures SegmentOf(files, k) == [] {
          assert k !in numbers;
        }
        LogBelowSkips(files, n + 1, upper);
        var data := files[n];
        if data != [] {
          return Some(data[|data| - 1]);
        }
        upper := n;
        assert LogBelow(files, n + 1) == LogBelow(files, n) + data;
      }
      forall k: nat | k < upper ensures SegmentOf(files, k) == [] {
        assert k !in numbers;
      }
      LogBelowSkips(files, 0, upper);
      latest := None;
    }
  }
}
