/** Plain JSON values as the persistence layer sees them, with the field readers both codecs share. */
module Json {
  import opened Common

  /** The object keys the two record formats use; any other key is carried but never read. */
  datatype Key =
    | ExecutionId | Phase | CompletedItems | PendingItems | LastGoodState | AtSeconds
    | State | CurrentTask | CurrentSubtask | LastRealProgressAt | LastProgressEvidence
    | AttemptCount | CurrentStrategy | LastError | PendingWork
    | OtherKey(name: string)

  datatype Json =
    | JNull
    | JBool(b: bool)
    | JInt(i: int)
    | JReal(r: real)
    | JStr(s: string)
    | JList(items: seq<Json>)
    | JObj(fields: map<Key, Json>)

  function Get(fields: map<Key, Json>, key: Key, default: Json): Json {
    if key in fields then fields[key] else default
  }

  function FromStrings(texts: seq<string>): Json {
    JList(seq(|texts|, i requires 0 <= i < |texts| => JStr(texts[i])))
  }

  predicate IsStrings(j: Json) {
    j.JList? && forall i :: 0 <= i < |j.items| ==> j.items[i].JStr?
  }

  function Strings(j: Json): seq<string>
    requires IsStrings(j)
  {
    seq(|j.items|, i requires 0 <= i < |j.items| => j.items[i].s)
  }

  predicate IsText(j: Json) { j.JStr? && !Blank(j.s) }

  predicate IsOptionalText(j: Json) { j.JNull? || IsText(j) }

  function FromOptional(text: Option<string>): Json {
    if text.Some? then JStr(text.value) else JNull
  }

  function OptionalText(j: Json): Option<string>
    requires IsOptionalText(j)
  {
    if j.JStr? then Some(j.s) else None
  }

  /** A non-negative number of either numeric shape; a bool is not a number. */
  predicate IsTime(j: Json) { (j.JInt? && j.i >= 0) || (j.JReal? && j.r >= 0.0) }

  function Time(j: Json): real
    requires IsTime(j)
  {
    if j.JInt? then j.i as real else j.r
  }

  lemma StringsRoundTrip(texts: seq<string>)
    ensures IsStrings(FromStrings(texts)) && Strings(FromStrings(texts)) == texts
  {}

  lemma StringsExactly(j: Json, texts: seq<string>)
    ensures IsStrings(j) && Strings(j) == texts <==> j == FromStrings(texts)
  {
    if IsStrings(j) && Strings(j) == texts {
      assert j.items == FromStrings(texts).items;
    }
  }

  /** A number, in either shape, that stands for a time. */
  predicate StandsFor(j: Json, time: real) { j == JReal(time) || (j.JInt? && j.i as real == time) }
}
