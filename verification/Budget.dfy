/** Cumulative budget accounting for one execution (budget.py). */
module Budget {
  import opened Common

  datatype ReservationKind = InitialPlan | EscalationCharge | RecoveryCharge | AgentDispatch

  datatype ReservationState = Reserved | Committed | Released

  datatype Reservation = Reservation(
    id: nat,
    kind: ReservationKind,
    tokens: nat,
    cost: real,
    state: ReservationState)

  /** The ledger as a value: entry i carries the id i + 1, in the order the ids were handed out. */
  datatype Ledger = Ledger(maxTokens: int, maxCost: real, entries: seq<Reservation>, dispatches: nat)

  const LIVE: set<ReservationState> := {Reserved, Committed}

  function TokensIn(entries: seq<Reservation>, states: set<ReservationState>): nat {
    if entries == [] then 0
    else
      var last := entries[|entries| - 1];
      TokensIn(entries[..|entries| - 1], states) + if last.state in states then last.tokens else 0
  }

  function CostIn(entries: seq<Reservation>, states: set<ReservationState>): real {
    if entries == [] then 0.0
    else
      var last := entries[|entries| - 1];
      CostIn(entries[..|entries| - 1], states) + if last.state in states then last.cost else 0.0
  }

  function DispatchCount(entries: seq<Reservation>): nat {
    if entries == [] then 0
    else
      DispatchCount(entries[..|entries| - 1])
      + if entries[|entries| - 1].kind.AgentDispatch? then 1 else 0
  }

  predicate Fits(l: Ledger, tokens: int, cost: real) {
    && TokensIn(l.entries, LIVE) + tokens <= l.maxTokens
    && CostIn(l.entries, LIVE) + cost <= l.maxCost
  }

  function AfterReserve(l: Ledger, kind: ReservationKind, tokens: int, cost: real): Result<Ledger> {
    if tokens < 0 || cost < 0.0 then Err(Configuration)
    else if !Fits(l, tokens, cost) then Err(BudgetExceeded)
    else
      var entry := Reservation(|l.entries| + 1, kind, tokens, cost, Reserved);
      Ok(l.(entries := l.entries + [entry],
            dispatches := l.dispatches + if kind.AgentDispatch? then 1 else 0))
  }

  function AfterSettle(l: Ledger, id: int, target: ReservationState): Result<Ledger> {
    if !(1 <= id <= |l.entries|) || l.entries[id - 1].state != Reserved then Err(BudgetExceeded)
    else Ok(l.(entries := l.entries[id - 1 := l.entries[id - 1].(state := target)]))
  }

  predicate LedgerOk(l: Ledger) {
    && l.maxTokens >= 1 && l.maxCost > 0.0
    && (forall i :: 0 <= i < |l.entries| ==> l.entries[i].id == i + 1 && l.entries[i].cost >= 0.0)
    && TokensIn(l.entries, LIVE) <= l.maxTokens
    && CostIn(l.entries, LIVE) <= l.maxCost
    && l.dispatches == DispatchCount(l.entries)
  }

  /** later keeps every id and amount of earlier, and never touches an entry that left Reserved. */
  predicate Settles(earlier: seq<Reservation>, later: seq<Reservation>) {
    && |earlier| <= |later|
    && forall i :: 0 <= i < |earlier| ==>
         && later[i] == earlier[i].(state := later[i].state)
         && (earlier[i].state != Reserved ==> later[i].state == earlier[i].state)
  }

  /** What one reservation id adds when only it changes state. */
  lemma {:induction false} SettleTotals(entries: seq<Reservation>, i: nat, target: ReservationState, states: set<ReservationState>)
    requires i < |entries|
    ensures var after := entries[i := entries[i].(state := target)];
      var counted := entries[i].state in states;
      var counts := target in states;
      && TokensIn(after, states) == TokensIn(entries, states)
           + (if counts then entries[i].tokens else 0) - (if counted then entries[i].tokens else 0)
      && CostIn(after, states) == CostIn(entries, states)
           + (if counts then entries[i].cost else 0.0) - (if counted then entries[i].cost else 0.0)
      && DispatchCount(after) == DispatchCount(entries)
  {
    var n := |entries| - 1;
    var after := entries[i := entries[i].(state := target)];
    if i < n {
      assert after[..n] == entries[..n][i := entries[i].(state := target)];
      SettleTotals(entries[..n], i, target, states);
    } else {
      assert after[..n] == entries[..n];
    }
  }

  /** Appending one entry adds exactly its own amounts. */
  lemma AppendTotals(entries: seq<Reservation>, r: Reservation, states: set<ReservationState>)
    ensures TokensIn(entries + [r], states) == TokensIn(entries, states) + if r.state in states then r.tokens else 0
    ensures CostIn(entries + [r], states) == CostIn(entries, states) + if r.state in states then r.cost else 0.0
    ensures DispatchCount(entries + [r]) == DispatchCount(entries) + if r.kind.AgentDispatch? then 1 else 0
  {
    assert (entries + [r])[..|entries|] == entries;
  }

  /** The in-use total is the committed total plus the reserved total. */
  lemma {:induction false} InUseSplits(entries: seq<Reservation>)
    ensures TokensIn(entries, LIVE) == TokensIn(entries, {Committed}) + TokensIn(entries, {Reserved})
    ensures CostIn(entries, LIVE) == CostIn(entries, {Committed}) + CostIn(entries, {Reserved})
  {
    if entries != [] {
      InUseSplits(entries[..|entries| - 1]);
    }
  }

  lemma {:induction false} CostsNonNegative(entries: seq<Reservation>, states: set<ReservationState>)
    requires forall i :: 0 <= i < |entries| ==> entries[i].cost >= 0.0
    ensures CostIn(entries, states) >= 0.0
  {
    if entries != [] {
      CostsNonNegative(entries[..|entries| - 1], states);
    }
  }

  lemma {:induction false} CommittedNeverFalls(earlier: seq<Reservation>, later: seq<Reservation>)
    requires Settles(earlier, later)
    requires forall i :: 0 <= i < |later| ==> later[i].cost >= 0.0
    ensures TokensIn(earlier, {Committed}) <= TokensIn(later, {Committed})
    ensures CostIn(earlier, {Committed}) <= CostIn(later, {Committed})
    decreases |later|
  {
    var n := |later| - 1;
    if |earlier| < |later| {
      CommittedNeverFalls(earlier, later[..n]);
    } else if later != [] {
      CommittedNeverFalls(earlier[..n], later[..n]);
    }
  }

  datatype LedgerCall =
    | Reserve(kind: ReservationKind, tokens: int, cost: real)
    | Commit(id: int)
    | Release(id: int)

  function Attempt(l: Ledger, call: LedgerCall): Result<Ledger> {
    match call
    case Reserve(kind, tokens, cost) => AfterReserve(l, kind, tokens, cost)
    case Commit(id) => AfterSettle(l, id, Committed)
    case Release(id) => AfterSettle(l, id, Released)
  }

  function RunLedger(l: Ledger, calls: seq<LedgerCall>): Ledger
    decreases |calls|
  {
    if calls == [] then l
    else
      var r := Attempt(l, calls[0]);
      RunLedger(if r.Ok? then r.value else l, calls[1..])
  }

  /** later is what one accepted call may make of earlier. */
  predicate FollowedBy(earlier: Ledger, later: Ledger) {
    && LedgerOk(later)
    && later.maxTokens == earlier.maxTokens && later.maxCost == earlier.maxCost
    && Settles(earlier.entries, later.entries)
  }

  lemma ReserveKeeps(l: Ledger, kind: ReservationKind, tokens: int, cost: real)
    requires LedgerOk(l) && AfterReserve(l, kind, tokens, cost).Ok?
    ensures FollowedBy(l, AfterReserve(l, kind, tokens, cost).value)
  {
    AppendTotals(l.entries, Reservation(|l.entries| + 1, kind, tokens, cost, Reserved), LIVE);
  }

  lemma SettleKeeps(l: Ledger, id: int, target: ReservationState)
    requires LedgerOk(l) && AfterSettle(l, id, target).Ok? && target != Reserved
    ensures FollowedBy(l, AfterSettle(l, id, target).value)
  {
    SettleTotals(l.entries, id - 1, target, LIVE);
  }

  lemma AttemptKeeps(l: Ledger, call: LedgerCall)
    requires LedgerOk(l)
    ensures Attempt(l, call).Ok? ==> FollowedBy(l, Attempt(l, call).value)
  {
    if Attempt(l, call).Ok? {
      match call
      case Reserve(kind, tokens, cost) => ReserveKeeps(l, kind, tokens, cost);
      case Commit(id) => SettleKeeps(l, id, Committed);
      case Release(id) => SettleKeeps(l, id, Released);
    }
  }

  /** Every sequence of reserve, commit and release keeps the ceilings, hands out each id once,
      moves each reservation at most once out of Reserved and never lowers what was spent. */
  lemma {:induction false} LedgerOverRuns(l: Ledger, calls: seq<LedgerCall>)
    requires LedgerOk(l)
    ensures var after := RunLedger(l, calls);
      && LedgerOk(after)
      && after.maxTokens == l.maxTokens && after.maxCost == l.maxCost
      && Settles(l.entries, after.entries)
      && TokensIn(l.entries, {Committed}) <= TokensIn(after.entries, {Committed}) <= l.maxTokens
      && CostIn(l.entries, {Committed}) <= CostIn(after.entries, {Committed}) <= l.maxCost
      && (forall i, j :: 0 <= i < j < |after.entries| ==> after.entries[i].id != after.entries[j].id)
    decreases |calls|
  {
    var after := RunLedger(l, calls);
    if calls != [] {
      AttemptKeeps(l, calls[0]);
      var r := Attempt(l, calls[0]);
      LedgerOverRuns(if r.Ok? then r.value else l, calls[1..]);
    }
    CommittedNeverFalls(l.entries, after.entries);
    InUseSplits(after.entries);
    CostsNonNegative(after.entries, {Reserved});
  }

  /** What the ceilings leave to reserve. */
  function RemainingTokens(l: Ledger): int { l.maxTokens - TokensIn(l.entries, LIVE) }

  function RemainingCost(l: Ledger): real { l.maxCost - CostIn(l.entries, LIVE) }

  /** How amounts move: a reservation takes exactly its amounts from what remains, a commit leaves what remains and
      adds them to what is spent, a release gives them back; and a call settles an entry exactly when it is one that
      is still reserved. */
  lemma AmountsMove(l: Ledger, call: LedgerCall)
    ensures Attempt(l, call).Ok? <==>
      match call
      case Reserve(_, tokens, cost) =>
        0 <= tokens <= RemainingTokens(l) && 0.0 <= cost <= RemainingCost(l)
      case Commit(id) => 1 <= id <= |l.entries| && l.entries[id - 1].state == Reserved
      case Release(id) => 1 <= id <= |l.entries| && l.entries[id - 1].state == Reserved
    ensures Attempt(l, call).Err? ==>
      Attempt(l, call).error == if call.Reserve? && (call.tokens < 0 || call.cost < 0.0) then Configuration else BudgetExceeded
    ensures Attempt(l, call).Ok? ==>
      var after := Attempt(l, call).value;
      match call
      case Reserve(_, tokens, cost) =>
        && after.entries == l.entries + [Reservation(|l.entries| + 1, call.kind, tokens, cost, Reserved)]
        && after.dispatches == l.dispatches + (if call.kind == AgentDispatch then 1 else 0)
        && RemainingTokens(after) == RemainingTokens(l) - tokens
        && RemainingCost(after) == RemainingCost(l) - cost
        && TokensIn(after.entries, {Committed}) == TokensIn(l.entries, {Committed})
        && CostIn(after.entries, {Committed}) == CostIn(l.entries, {Committed})
      case Commit(id) =>
        && RemainingTokens(after) == RemainingTokens(l) && RemainingCost(after) == RemainingCost(l)
        && TokensIn(after.entries, {Committed}) == TokensIn(l.entries, {Committed}) + l.entries[id - 1].tokens
        && CostIn(after.entries, {Committed}) == CostIn(l.entries, {Committed}) + l.entries[id - 1].cost
      case Release(id) =>
        && RemainingTokens(after) == RemainingTokens(l) + l.entries[id - 1].tokens
        && RemainingCost(after) == RemainingCost(l) + l.entries[id - 1].cost
        && TokensIn(after.entries, {Committed}) == TokensIn(l.entries, {Committed})
        && CostIn(after.entries, {Committed}) == CostIn(l.entries, {Committed})
  {
    if Attempt(l, call).Ok? {
      match call
      case Reserve(kind, tokens, cost) => ReservationMoves(l.entries, Reservation(|l.entries| + 1, kind, tokens, cost, Reserved));
      case Commit(id) => CommitMoves(l.entries, id - 1);
      case Release(id) => ReleaseMoves(l.entries, id - 1);
    }
  }

  lemma ReservationMoves(entries: seq<Reservation>, r: Reservation)
    requires r.state == Reserved
    ensures TokensIn(entries + [r], LIVE) == TokensIn(entries, LIVE) + r.tokens
    ensures CostIn(entries + [r], LIVE) == CostIn(entries, LIVE) + r.cost
    ensures TokensIn(entries + [r], {Committed}) == TokensIn(entries, {Committed})
    ensures CostIn(entries + [r], {Committed}) == CostIn(entries, {Committed})
  {
    AppendTotals(entries, r, LIVE);
    AppendTotals(entries, r, {Committed});
  }

  lemma CommitMoves(entries: seq<Reservation>, i: nat)
    requires i < |entries| && entries[i].state == Reserved
    ensures var after := entries[i := entries[i].(state := Committed)];
      && TokensIn(after, LIVE) == TokensIn(entries, LIVE) && CostIn(after, LIVE) == CostIn(entries, LIVE)
      && TokensIn(after, {Committed}) == TokensIn(entries, {Committed}) + entries[i].tokens
      && CostIn(after, {Committed}) == CostIn(entries, {Committed}) + entries[i].cost
  {
    SettleTotals(entries, i, Committed, LIVE);
    SettleTotals(entries, i, Committed, {Committed});
  }

  lemma ReleaseMoves(entries: seq<Reservation>, i: nat)
    requires i < |entries| && entries[i].state == Reserved
    ensures var after := entries[i := entries[i].(state := Released)];
      && TokensIn(after, LIVE) == TokensIn(entries, LIVE) - entries[i].tokens
      && CostIn(after, LIVE) == CostIn(entries, LIVE) - entries[i].cost
      && TokensIn(after, {Committed}) == TokensIn(entries, {Committed})
      && CostIn(after, {Committed}) == CostIn(entries, {Committed})
  {
    SettleTotals(entries, i, Released, LIVE);
    SettleTotals(entries, i, Released, {Committed});
  }

  class ExecutionBudgetLedger {
    const maxTokens: int
    const maxCost: real
    var reservations: seq<Reservation>
    var nextId: nat
    var agentDispatches: nat

    ghost predicate Valid()
      reads this
    {
      nextId == |reservations| + 1 && LedgerOk(Contents())
    }

    function Contents(): Ledger
      reads this
    {
      Ledger(maxTokens, maxCost, reservations, agentDispatches)
    }

    constructor (maxTokens: int, maxCost: real)
      requires maxTokens >= 1 && maxCost > 0.0
      ensures Valid() && Contents() == Ledger(maxTokens, maxCost, [], 0)
    {
      this.maxTokens := maxTokens;
      this.maxCost := maxCost;
      reservations := [];
      nextId := 1;
      agentDispatches := 0;
    }

    /** Committed, reserved and remaining always add up to the ceiling. */
    method Totals() returns (committedTokens: nat, reservedTokens: nat, remainingTokens: int,
                             committedCost: real, reservedCost: real, remainingCost: real)
      requires Valid()
      ensures committedTokens + reservedTokens + remainingTokens == maxTokens
      ensures committedCost + reservedCost + remainingCost == maxCost
      ensures 0 <= remainingTokens && 0.0 <= remainingCost
      ensures committedTokens == TokensIn(reservations, {Committed})
      ensures reservedTokens == TokensIn(reservations, {Reserved})
      ensures committedCost == CostIn(reservations, {Committed})
      ensures reservedCost == CostIn(reservations, {Reserved})
    {
      committedTokens := TokensIn(reservations, {Committed});
      reservedTokens := TokensIn(reservations, {Reserved});
      remainingTokens := maxTokens - TokensIn(reservations, LIVE);
      committedCost := CostIn(reservations, {Committed});
      reservedCost := CostIn(reservations, {Reserved});
      remainingCost := maxCost - CostIn(reservations, LIVE);
      InUseSplits(reservations);
    }

    method CanAfford(tokens: int, cost: real) returns (r: Result<bool>)
      requires Valid()
      ensures r.Err? <==> tokens < 0 || cost < 0.0
      ensures r.Err? ==> r.error == Configuration
      ensures r.Ok? ==> (r.value <==> AfterReserve(Contents(), InitialPlan, tokens, cost).Ok?)
    {
      if tokens < 0 || cost < 0.0 {
        return Err(Configuration);
      }
      var inUseTokens, inUseCost := TokensIn(reservations, LIVE), CostIn(reservations, LIVE);
      r := Ok(inUseTokens + tokens <= maxTokens && inUseCost + cost <= maxCost);
    }

    method ReserveFor(kind: ReservationKind, tokens: int, cost: real) returns (r: Result<nat>)
      requires Valid()
      modifies this
      ensures Valid()
      ensures match AfterReserve(old(Contents()), kind, tokens, cost)
        case Ok(after) => Contents() == after && r == Ok(|reservations|)
        case Err(e) => Contents() == old(Contents()) && r == Err(e)
    {
      var affordable := CanAfford(tokens, cost);
      if affordable.Err? {
        return Err(affordable.error);
      }
      if !affordable.value {
        return Err(BudgetExceeded);
      }
      ReserveKeeps(Contents(), kind, tokens, cost);
      var id := nextId;
      nextId := nextId + 1;
      reservations := reservations + [Reservation(id, kind, tokens, cost, Reserved)];
      if kind == AgentDispatch {
        agentDispatches := agentDispatches + 1;
      }
      r := Ok(id);
    }

    method CommitReservation(id: nat) returns (r: Result<()>)
      requires Valid()
      modifies this
      ensures Valid()
      ensures match AfterSettle(old(Contents()), id, Committed)
        case Ok(after) => Contents() == after && r == Ok(())
        case Err(e) => Contents() == old(Contents()) && r == Err(e)
    {
      AttemptKeeps(Contents(), Commit(id));
      r := Settle(id, Committed);
    }

    method ReleaseReservation(id: nat) returns (r: Result<()>)
      requires Valid()
      modifies this
      ensures Valid()
      ensures match AfterSettle(old(Contents()), id, Released)
        case Ok(after) => Contents() == after && r == Ok(())
        case Err(e) => Contents() == old(Contents()) && r == Err(e)
    {
      AttemptKeeps(Contents(), Release(id));
      r := Settle(id, Released);
    }

    method Settle(id: nat, target: ReservationState) returns (r: Result<()>)
      modifies this`reservations
      ensures match AfterSettle(old(Contents()), id, target)
        case Ok(after) => Contents() == after && r == Ok(())
        case Err(e) => Contents() == old(Contents()) && r == Err(e)
    {
      if id < 1 || id > |reservations| {
        return Err(BudgetExceeded);
      }
      var reservation := reservations[id - 1];
      if reservation.state != Reserved {
        return Err(BudgetExceeded);
      }
      reservations := reservations[id - 1 := reservation.(state := target)];
      r := Ok(());
    }
  }
}
