/** The heartbeat record, its JSON form and its durable copy (watchdog/heartbeat.py). */
module Heartbeats {
  import opened Common
  import opened Json
  import opened StateMachine

  datatype Heartbeat = Heartbeat(
    executionId: string,
    state: ExecutionState,
    currentTask: string,
    currentSubtask: Option<string>,
    lastRealProgressAt: real,
    lastProgressEvidence: Option<string>,
    attemptCount: int,
    currentStrategy: Option<string>,
    lastError: Option<string>,
    pendingWork: seq<string>)
  {
    /** What construction of a heartbeat enforces. */
    predicate Valid() {
      && !Blank(executionId) && !Blank(currentTask)
      && lastRealProgressAt >= 0.0 && attemptCount >= 0
      && !BlankIfGiven(currentSubtask) && !BlankIfGiven(lastProgressEvidence)
      && !BlankIfGiven(currentStrategy) && !BlankIfGiven(lastError)
    }
  }

  function StateName(state: ExecutionState): string {
    match state
    case Planning => "planning"
    case Running => "running"
    case Testing => "testing"
    case Reviewing => "reviewing"
    case Stalled => "stalled"
    case Recovering => "recovering"
    case Blocked => "blocked"
    case Completed => "completed"
  }

  function ParseState(name: string): Option<ExecutionState> {
    if name == "planning" then Some(Planning)
    else if name == "running" then Some(Running)
    else if name == "testing" then Some(Testing)
    else if name == "reviewing" then Some(Reviewing)
    else if name == "stalled" then Some(Stalled)
    else if name == "recovering" then Some(Recovering)
    else if name == "blocked" then Some(Blocked)
    else if name == "completed" then Some(ExecutionState.Completed)
    else None
  }

  lemma StateNamesParse(state: ExecutionState)
    ensures ParseState(StateName(state)) == Some(state)
  {
    var name := StateName(state);
    assert name[0] == (match state
      case Planning => 'p' case Running => 'r' case Testing => 't' case Reviewing => 'r'
      case Stalled => 's' case Recovering => 'r' case Blocked => 'b' case Completed => 'c');
  }

  function ToJson(hb: Heartbeat): Json {
    JObj(map[
      ExecutionId := JStr(hb.executionId),
      State := JStr(StateName(hb.state)),
      CurrentTask := JStr(hb.currentTask),
      CurrentSubtask := FromOptional(hb.currentSubtask),
      LastRealProgressAt := JReal(hb.lastRealProgressAt),
      LastProgressEvidence := FromOptional(hb.lastProgressEvidence),
      AttemptCount := JInt(hb.attemptCount),
      CurrentStrategy := FromOptional(hb.currentStrategy),
      LastError := FromOptional(hb.lastError),
      PendingWork := FromStrings(hb.pendingWork)])
  }

  const REQUIRED: set<Key> := {ExecutionId, CurrentTask, State, LastRealProgressAt, AttemptCount}

  /** The one path from a parsed document to a heartbeat; every failure is the same corruption error. */
  function Construct(doc: Json): Result<Heartbeat> {
    if !doc.JObj? || doc.fields == map[] then Err(CorruptStorage)
    else if !(REQUIRED <= doc.fields.Keys) then Err(CorruptStorage)
    else
      var f := doc.fields;
      var pending := Get(f, PendingWork, JList([]));
      if !f[State].JStr? || ParseState(f[State].s).None? then Err(CorruptStorage)
      else if !pending.JList? then Err(CorruptStorage)
      else if !(IsText(f[ExecutionId]) && IsText(f[CurrentTask]) && IsTime(f[LastRealProgressAt])) then Err(CorruptStorage)
      else if !(f[AttemptCount].JInt? && f[AttemptCount].i >= 0) then Err(CorruptStorage)
      else if !(IsOptionalText(Get(f, CurrentSubtask, JNull)) && IsOptionalText(Get(f, LastProgressEvidence, JNull))
                && IsOptionalText(Get(f, CurrentStrategy, JNull)) && IsOptionalText(Get(f, LastError, JNull)))
      then Err(CorruptStorage)
      else if !IsStrings(pending) then Err(CorruptStorage)
      else
        Ok(Heartbeat(
          f[ExecutionId].s, ParseState(f[State].s).value, f[CurrentTask].s,
          OptionalText(Get(f, CurrentSubtask, JNull)), Time(f[LastRealProgressAt]),
          OptionalText(Get(f, LastProgressEvidence, JNull)), f[AttemptCount].i,
          OptionalText(Get(f, CurrentStrategy, JNull)), OptionalText(Get(f, LastError, JNull)),
          Strings(pending)))
  }

  /** Whatever the reader accepts is a valid heartbeat. */
  lemma AcceptedIsValid(doc: Json)
    ensures Construct(doc).Ok? ==> Construct(doc).value.Valid()
  {}

  lemma FieldsOf(hb: Heartbeat, f: map<Key, Json>)
    requires ToJson(hb) == JObj(f)
    ensures REQUIRED <= f.Keys && f != map[]
    ensures f[ExecutionId] == JStr(hb.executionId) && f[State] == JStr(StateName(hb.state))
    ensures f[CurrentTask] == JStr(hb.currentTask) && Get(f, CurrentSubtask, JNull) == FromOptional(hb.currentSubtask)
    ensures f[LastRealProgressAt] == JReal(hb.lastRealProgressAt)
    ensures Get(f, LastProgressEvidence, JNull) == FromOptional(hb.lastProgressEvidence)
    ensures f[AttemptCount] == JInt(hb.attemptCount) && Get(f, CurrentStrategy, JNull) == FromOptional(hb.currentStrategy)
    ensures Get(f, LastError, JNull) == FromOptional(hb.lastError)
    ensures Get(f, PendingWork, JList([])) == FromStrings(hb.pendingWork)
  {
    assert ExecutionId in f;
  }

  /** A heartbeat reads back equal exactly when it is valid. */
  lemma HeartbeatRoundTrip(hb: Heartbeat)
    ensures hb.Valid() <==> Construct(ToJson(hb)) == Ok(hb)
    ensures !hb.Valid() ==> Construct(ToJson(hb)).Err?
  {
    var doc := ToJson(hb);
    FieldsOf(hb, doc.fields);
    StateNamesParse(hb.state);
    StringsRoundTrip(hb.pendingWork);
    FieldsReadBack(hb, doc, StateName(hb.state));
  }

  lemma FieldsReadBack(hb: Heartbeat, doc: Json, name: string)
    requires doc.JObj? && REQUIRED <= doc.fields.Keys && doc.fields != map[]
    requires ParseState(name) == Some(hb.state)
    requires IsStrings(FromStrings(hb.pendingWork)) && Strings(FromStrings(hb.pendingWork)) == hb.pendingWork
    requires var f := doc.fields;
      && f[ExecutionId] == JStr(hb.executionId) && f[State] == JStr(name)
      && f[CurrentTask] == JStr(hb.currentTask) && Get(f, CurrentSubtask, JNull) == FromOptional(hb.currentSubtask)
      && f[LastRealProgressAt] == JReal(hb.lastRealProgressAt)
      && Get(f, LastProgressEvidence, JNull) == FromOptional(hb.lastProgressEvidence)
      && f[AttemptCount] == JInt(hb.attemptCount) && Get(f, CurrentStrategy, JNull) == FromOptional(hb.currentStrategy)
      && Get(f, LastError, JNull) == FromOptional(hb.lastError)
      && Get(f, PendingWork, JList([])) == FromStrings(hb.pendingWork)
    ensures hb.Valid() <==> Construct(doc) == Ok(hb)
    ensures !hb.Valid() ==> Construct(doc).Err?
  {}

  /** The document says exactly what the heartbeat says: five fields must be there, the others count as absent or
      empty when they are not. */
  predicate Says(doc: Json, hb: Heartbeat) {
    doc.JObj? &&
    var f := doc.fields;
    && ExecutionId in f && f[ExecutionId] == JStr(hb.executionId)
    && State in f && f[State] == JStr(StateName(hb.state))
    && CurrentTask in f && f[CurrentTask] == JStr(hb.currentTask)
    && LastRealProgressAt in f && StandsFor(f[LastRealProgressAt], hb.lastRealProgressAt)
    && AttemptCount in f && f[AttemptCount] == JInt(hb.attemptCount)
    && Get(f, CurrentSubtask, JNull) == FromOptional(hb.currentSubtask)
    && Get(f, LastProgressEvidence, JNull) == FromOptional(hb.lastProgressEvidence)
    && Get(f, CurrentStrategy, JNull) == FromOptional(hb.currentStrategy)
    && Get(f, LastError, JNull) == FromOptional(hb.lastError)
    && Get(f, PendingWork, JList([])) == FromStrings(hb.pendingWork)
  }

  lemma NamesAreParsed(name: string, state: ExecutionState)
    ensures ParseState(name) == Some(state) <==> name == StateName(state)
  {
    StateNamesParse(state);
  }

  /** The reader accepts a document exactly when it says a valid heartbeat, and gives that heartbeat. */
  lemma ReaderExactly(doc: Json, hb: Heartbeat)
    ensures Construct(doc) == Ok(hb) <==> hb.Valid() && Says(doc, hb)
    ensures Construct(doc).Err? ==> Construct(doc).error == CorruptStorage
  {
    NamesAreParsed(if doc.JObj? && State in doc.fields && doc.fields[State].JStr? then doc.fields[State].s else "", hb.state);
    if doc.JObj? { StringsExactly(Get(doc.fields, PendingWork, JList([])), hb.pendingWork); }
  }

  class HeartbeatWriter {
    var file: Option<Json>

    /** The directory may hold the record of an earlier execution. */
    constructor (found: Option<Json>)
      ensures file == found
    {
      file := found;
    }

    /** Overwrites the single record, unless the environment makes the write fail. */
    method Write(hb: Heartbeat, succeeds: bool) returns (written: bool)
      modifies this
      ensures written == succeeds
      ensures file == if succeeds then Some(ToJson(hb)) else old(file)
    {
      if succeeds {
        file := Some(ToJson(hb));
      }
      written := succeeds;
    }

    method Read() returns (r: Result<Option<Heartbeat>>)
      ensures file.None? ==> r == Ok(None)
      ensures forall hb: Heartbeat :: hb.Valid() && file == Some(ToJson(hb)) ==> r == Ok(Some(hb))
      ensures r.Ok? && r.value.Some? ==> r.value.value.Valid()
    {
      if file.None? {
        return Ok(None);
      }
      var parsed := Construct(file.value);
      AcceptedIsValid(file.value);
      forall hb: Heartbeat ensures hb.Valid() && file == Some(ToJson(hb)) ==> parsed == Ok(hb) {
        HeartbeatRoundTrip(hb);
      }
      r := match parsed
        case Ok(hb) => Ok(Some(hb))
        case Err(e) => Err(e);
    }
  }
}
