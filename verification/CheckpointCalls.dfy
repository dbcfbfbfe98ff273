/** What the record of a protocol run stands for: whose request a ticket is, when a reader began, listed and
    finished, and what it had to show. */
module CheckpointCalls {
  import opened Checkpoints
  import opened CheckpointProtocol

  // ---- requests -----------------------------------------------------------------------------------

  /** A move concerns its own process only; a request is what its caller gave, noted under the next ticket when the lock
      is acquired and carried unchanged; the file is replaced once, and only a return acknowledges. */
  lemma MovesCarry(w: World, m: Move)
    requires Enabled(w, m)
    ensures var w' := Next(w, m);
      var ph, ph' := w.procs[m.p], w'.procs[m.p];
      && |w'.procs| == |w.procs| && (forall q :: 0 <= q < |w.procs| && q != m.p ==> w'.procs[q] == w.procs[q])
      && (m.Call? ==> ph' == Waiting(m.cp))
      && w'.requests == (if m.Acquire? then w.requests + [ph.cp] else w.requests)
      && (m.Acquire? ==> ph' == Selecting(ph.cp, |w.requests|))
      && (HoldsExec(ph) && HoldsExec(ph') ==> ph'.cp == ph.cp && ph'.ticket == ph.ticket)
      && w'.acked == (if m.Unlock? then w.acked + {ph.ticket} else w.acked)
      && (if m.Replace? then
            (w'.written == w.written + [ph.ticket] && w'.lost == w.lost)
            || (w'.written == w.written && w'.lost == w.lost + [ph.ticket])
          else w'.written == w.written && w'.lost == w.lost && w'.files == w.files)
  {}

  // ---- readers ---------------------------------------------------------------------------------------

  /** Between two points of a run a process only lists and reads. */
  predicate OnlyReads(moves: seq<Move>, from: nat, to: nat, p: nat)
    requires to <= |moves|
  {
    forall j :: from <= j < to && moves[j].p == p ==>
      moves[j].ListAll? || moves[j].ReadAll? || moves[j].ListLatest? || moves[j].ReadLatest?
  }

  /** A reader of the whole history began when it says it did, and knew then what had been acknowledged. worlds[i] is the
      world after the first i moves. */
  predicate BeganAll(worlds: seq<World>, moves: seq<Move>, i: nat, p: nat, began: nat, known: set<nat>)
    requires |worlds| == |moves| + 1 && i <= |moves|
  {
    && 1 <= began <= i && moves[began - 1] == BeginAll(p) && OnlyReads(moves, began, i, p)
    && known == worlds[began - 1].acked
  }

  /** It had listed the directory when it says it had, seeing all that was there when it began and nothing that was not
      there by then, and missing what it says it missed. */
  predicate ListedAll(worlds: seq<World>, moves: seq<Move>, i: nat, p: nat, began: nat, listed: nat, whole: bool)
    requires |worlds| == |moves| + 1 && i <= |moves|
  {
    && 1 <= began < listed <= i && moves[listed - 1].ListAll? && moves[listed - 1].p == p
    && Present(worlds[began - 1].files) <= moves[listed - 1].seen <= Present(worlds[listed - 1].files)
    && whole == Whole(worlds[listed - 1].files, moves[listed - 1].seen)
  }

  predicate BeganLatest(moves: seq<Move>, i: nat, p: nat, began: nat)
    requires i <= |moves|
  {
    1 <= began <= i && moves[began - 1] == BeginLatest(p) && OnlyReads(moves, began, i, p)
  }

  predicate Timed(worlds: seq<World>, moves: seq<Move>, i: nat, p: nat, ph: Phase)
    requires |worlds| == |moves| + 1 && i <= |moves|
  {
    match ph
    case AllListing(must, began, known) =>
      BeganAll(worlds, moves, i, p, began, known) && must == Present(worlds[began - 1].files)
    case AllReading(_, _, _, began, listed, known, whole) =>
      BeganAll(worlds, moves, i, p, began, known) && ListedAll(worlds, moves, i, p, began, listed, whole)
    case AllDone(_, began, listed, ended, known, whole) =>
      && 1 <= ended <= i && moves[ended - 1].p == p
      && BeganAll(worlds, moves, ended, p, began, known) && ListedAll(worlds, moves, ended, p, began, listed, whole)
    case LatestListing(must, began) =>
      BeganLatest(moves, i, p, began) && must == Present(worlds[began - 1].files)
    case LatestReading(_, _, began) => BeganLatest(moves, i, p, began)
    case LatestDone(_, began, ended) =>
      1 <= ended <= i && moves[ended - 1].p == p && began < ended && BeganLatest(moves, ended, p, began)
    case _ => true
  }

  function Worlds(w0: World, moves: seq<Move>): (worlds: seq<World>)
    requires Possible(w0, moves)
    ensures |worlds| == |moves| + 1
  {
    seq(|moves| + 1, i requires 0 <= i <= |moves| => WorldAt(w0, moves, i))
  }

  lemma {:induction false} NextWorld(w: World, moves: seq<Move>, i: nat)
    requires Possible(w, moves) && i < |moves|
    ensures Enabled(WorldAt(w, moves, i), moves[i])
    ensures WorldAt(w, moves, i + 1) == Next(WorldAt(w, moves, i), moves[i])
    decreases i
  {
    if i > 0 { NextWorld(Next(w, moves[0]), moves[1..], i - 1); }
  }

  lemma {:induction false} MomentsSoFar(w: World, moves: seq<Move>, i: nat)
    requires Possible(w, moves) && i <= |moves|
    ensures |WorldAt(w, moves, i).moments| == |w.moments| + i && |WorldAt(w, moves, i).procs| == |w.procs|
    decreases i
  {
    if i > 0 { MomentsSoFar(Next(w, moves[0]), moves[1..], i - 1); }
  }

  lemma OnlyReadsMore(moves: seq<Move>, from: nat, to: nat, p: nat)
    requires to < |moves| && OnlyReads(moves, from, to, p)
    requires moves[to].p == p ==>
      moves[to].ListAll? || moves[to].ReadAll? || moves[to].ListLatest? || moves[to].ReadLatest?
    ensures OnlyReads(moves, from, to + 1, p)
  {}

  /** Someone else's move leaves a reader's times as they were. */
  lemma TimedStill(worlds: seq<World>, moves: seq<Move>, i: nat, p: nat, ph: Phase)
    requires |worlds| == |moves| + 1 && i < |moves| && Timed(worlds, moves, i, p, ph) && moves[i].p != p
    ensures Timed(worlds, moves, i + 1, p, ph)
  {}

  /** The i-th move, and what it makes of its own process. */
  predicate Moves(worlds: seq<World>, moves: seq<Move>, i: nat, p: nat, ph: Phase, ph': Phase) {
    && |worlds| == |moves| + 1 && i < |moves| && moves[i].p == p && |worlds[i].moments| == 1 + i
    && Enabled(worlds[i], moves[i]) && ph == worlds[i].procs[p] && ph' == Next(worlds[i], moves[i]).procs[p]
  }

  lemma TimedBegins(worlds: seq<World>, moves: seq<Move>, i: nat, p: nat, ph: Phase, ph': Phase)
    requires Moves(worlds, moves, i, p, ph, ph') && (moves[i].BeginAll? || moves[i].BeginLatest?)
    ensures Timed(worlds, moves, i + 1, p, ph')
  {}

  lemma TimedListsAll(worlds: seq<World>, moves: seq<Move>, i: nat, p: nat, ph: Phase, ph': Phase)
    requires Moves(worlds, moves, i, p, ph, ph') && moves[i].ListAll? && Timed(worlds, moves, i, p, ph)
    ensures Timed(worlds, moves, i + 1, p, ph')
  {
    OnlyReadsMore(moves, ph.began, i, p);
  }

  lemma TimedReadsAll(worlds: seq<World>, moves: seq<Move>, i: nat, p: nat, ph: Phase, ph': Phase)
    requires Moves(worlds, moves, i, p, ph, ph') && moves[i].ReadAll? && Timed(worlds, moves, i, p, ph)
    ensures Timed(worlds, moves, i + 1, p, ph')
  {
    OnlyReadsMore(moves, ph.began, i, p);
  }

  lemma TimedGoesOnLatest(worlds: seq<World>, moves: seq<Move>, i: nat, p: nat, ph: Phase, ph': Phase)
    requires Moves(worlds, moves, i, p, ph, ph') && (moves[i].ListLatest? || moves[i].ReadLatest?)
    requires Timed(worlds, moves, i, p, ph)
    ensures Timed(worlds, moves, i + 1, p, ph')
  {
    OnlyReadsMore(moves, ph.began, i, p);
  }

  lemma TimedAppends(w: World, m: Move)
    requires Enabled(w, m) && !m.BeginAll? && !m.BeginLatest? && !m.ListAll? && !m.ListLatest? && !m.ReadAll? && !m.ReadLatest?
    ensures var ph := Next(w, m).procs[m.p];
      !ph.AllListing? && !ph.AllReading? && !ph.AllDone? && !ph.LatestListing? && !ph.LatestReading? && !ph.LatestDone?
  {}

  lemma TimedMove(worlds: seq<World>, moves: seq<Move>, i: nat, p: nat, ph: Phase, ph': Phase)
    requires Moves(worlds, moves, i, p, ph, ph') && Timed(worlds, moves, i, p, ph)
    ensures Timed(worlds, moves, i + 1, p, ph')
  {
    if moves[i].BeginAll? || moves[i].BeginLatest? {
      TimedBegins(worlds, moves, i, p, ph, ph');
    } else if moves[i].ListAll? {
      TimedListsAll(worlds, moves, i, p, ph, ph');
    } else if moves[i].ReadAll? {
      TimedReadsAll(worlds, moves, i, p, ph, ph');
    } else if moves[i].ListLatest? || moves[i].ReadLatest? {
      TimedGoesOnLatest(worlds, moves, i, p, ph, ph');
    } else {
      TimedAppends(worlds[i], moves[i]);
    }
  }

  lemma {:induction false} TimedAt(w0: World, moves: seq<Move>, worlds: seq<World>, i: nat, p: nat)
    requires Possible(w0, moves) && worlds == Worlds(w0, moves) && i <= |moves|
    requires p < |w0.procs| && w0.procs[p].Idle? && |w0.moments| == 1
    ensures p < |worlds[i].procs| && Timed(worlds, moves, i, p, worlds[i].procs[p])
    decreases i
  {
    MomentsSoFar(w0, moves, i);
    if i > 0 {
      TimedAt(w0, moves, worlds, i - 1, p);
      MomentsSoFar(w0, moves, i - 1);
      NextWorld(w0, moves, i - 1);
      TimedNext(worlds, moves, i - 1, p);
    }
  }

  lemma TimedNext(worlds: seq<World>, moves: seq<Move>, i: nat, p: nat)
    requires |worlds| == |moves| + 1 && i < |moves| && |worlds[i].moments| == 1 + i && p < |worlds[i].procs|
    requires Enabled(worlds[i], moves[i]) && worlds[i + 1] == Next(worlds[i], moves[i])
    requires Timed(worlds, moves, i, p, worlds[i].procs[p])
    ensures p < |worlds[i + 1].procs| && Timed(worlds, moves, i + 1, p, worlds[i + 1].procs[p])
  {
    MovesCarry(worlds[i], moves[i]);
    if moves[i].p == p {
      TimedMove(worlds, moves, i, p, worlds[i].procs[p], worlds[i + 1].procs[p]);
    } else {
      TimedStill(worlds, moves, i, p, worlds[i].procs[p]);
    }
  }

  /** In every run, what a reader notes of its own call is what happened: it began with the move it names, knowing what had
      been acknowledged then; listed the directory with another, seeing all that was there when it began and nothing that
      was not there when it had listed it; and finished with its last. */
  lemma ReadersKeepTime(files: Files, processes: nat, moves: seq<Move>, p: nat)
    requires Possible(Initial(files, processes), moves) && p < processes
    ensures var w0 := Initial(files, processes);
      && p < |Run(w0, moves).procs|
      && Timed(Worlds(w0, moves), moves, |moves|, p, Run(w0, moves).procs[p])
  {
    var w0 := Initial(files, processes);
    TimedAt(w0, moves, Worlds(w0, moves), |moves|, p);
    LastWorld(w0, moves);
  }
}
