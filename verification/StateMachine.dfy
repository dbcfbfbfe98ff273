/** The explicit execution state machine (watchdog/state_machine.py). */
module StateMachine {
  import opened Common

  datatype ExecutionState =
    | Planning | Running | Testing | Reviewing
    | Stalled | Recovering | Blocked | Completed

  datatype TransitionRecord =
    TransitionRecord(from: ExecutionState, to: ExecutionState, at: real, evidence: seq<string>)

  datatype Machine = Machine(state: ExecutionState, history: seq<TransitionRecord>)

  const ACTIVE: set<ExecutionState> := {Running, Testing, Reviewing}

  function Allowed(from: ExecutionState): set<ExecutionState> {
    match from
    case Planning => {Running, Stalled}
    case Running => {Testing, Reviewing, Stalled}
    case Testing => {Running, Reviewing, Stalled}
    case Reviewing => {Running, ExecutionState.Completed, Stalled}
    case Stalled => {Recovering}
    case Recovering => {Planning, Running, Testing, Reviewing, Stalled, Blocked}
    case Blocked => {Recovering}
    case Completed => {}
  }

  /** Seen from the other end: from where each state can be entered. */
  lemma EntriesExactly(from: ExecutionState)
    ensures Planning in Allowed(from) <==> from.Recovering?
    ensures Running in Allowed(from) <==> from.Planning? || from.Testing? || from.Reviewing? || from.Recovering?
    ensures Testing in Allowed(from) <==> from.Running? || from.Recovering?
    ensures Reviewing in Allowed(from) <==> from.Running? || from.Testing? || from.Recovering?
    ensures Stalled in Allowed(from) <==> from.Planning? || from in ACTIVE || from.Recovering?
    ensures Recovering in Allowed(from) <==> from.Stalled? || from.Blocked?
    ensures Blocked in Allowed(from) <==> from.Recovering?
    ensures ExecutionState.Completed in Allowed(from) <==> from.Reviewing?
  {}

  predicate AllPresent(evidence: seq<string>) {
    forall i :: 0 <= i < |evidence| ==> !Blank(evidence[i])
  }

  /** Why a transition is refused, in the order the checks are made. */
  function Refusal(m: Machine, target: ExecutionState, at: real, evidence: seq<string>): Option<Error> {
    if target !in Allowed(m.state) then Some(InvalidStateTransition)
    else if m.history != [] && at < m.history[|m.history| - 1].at then Some(InvalidStateTransition)
    else if !AllPresent(evidence) then Some(InvalidObservation)
    else if target.Completed? && evidence == [] then Some(NotCompleted)
    else None
  }

  function Moved(m: Machine, target: ExecutionState, at: real, evidence: seq<string>): Machine {
    Machine(target, m.history + [TransitionRecord(m.state, target, at, evidence)])
  }

  /** The history is one unbroken walk along allowed edges, from Planning to the current state. */
  predicate Walk(m: Machine) {
    && (m.history == [] ==> m.state.Planning?)
    && (m.history != [] ==> m.history[0].from.Planning? && m.history[|m.history| - 1].to == m.state)
    && (forall i :: 0 <= i < |m.history| ==> m.history[i].to in Allowed(m.history[i].from))
    && (forall i :: 0 < i < |m.history| ==> m.history[i].from == m.history[i - 1].to)
  }

  class ExecutionStateMachine {
    var state: ExecutionState
    var history: seq<TransitionRecord>

    function Contents(): Machine
      reads this
    {
      Machine(state, history)
    }

    constructor ()
      ensures Contents() == Machine(Planning, [])
    {
      state := Planning;
      history := [];
    }

    /** Either records exactly one transition or refuses and changes nothing. */
    method Transition(target: ExecutionState, at: real, evidence: seq<string>) returns (refusal: Option<Error>)
      modifies this
      ensures refusal == Refusal(old(Contents()), target, at, evidence)
      ensures Contents() == if refusal.None? then Moved(old(Contents()), target, at, evidence) else old(Contents())
    {
      if target !in Allowed(state) {
        return Some(InvalidStateTransition);
      }
      if history != [] && at < history[|history| - 1].at {
        return Some(InvalidStateTransition);
      }
      for index := 0 to |evidence|
        invariant AllPresent(evidence[..index])
      {
        if Blank(evidence[index]) {
          return Some(InvalidObservation);
        }
        assert evidence[..index + 1] == evidence[..index] + [evidence[index]];
      }
      assert evidence[..|evidence|] == evidence;
      if target == ExecutionState.Completed && evidence == [] {
        return Some(NotCompleted);
      }
      history := history + [TransitionRecord(state, target, at, evidence)];
      state := target;
      refusal := None;
    }
  }
}
