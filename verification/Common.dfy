/** Vocabulary shared by every module: optional values, error kinds, blank text. */
module Common {
  datatype Option<+T> = None | Some(value: T)

  /** The exception families that callers of the library can observe. */
  datatype Error =
    | InvalidObservation
    | InvalidStateTransition
    | NotCompleted
    | RecoveryExhausted
    | BudgetExceeded
    | Configuration
    | CorruptStorage

  datatype Result<+T> = Ok(value: T) | Err(error: Error)

  const WHITESPACE: set<char> := {' ', '\t', '\n', '\r', '\U{0b}', '\U{0c}'}

  /** Text that a strip() would reduce to the empty string. */
  predicate Blank(text: string) {
    forall c | c in text :: c in WHITESPACE
  }

  predicate BlankIfGiven(text: Option<string>) {
    text.Some? && Blank(text.value)
  }

  lemma NotBlankAt(text: string, i: nat)
    requires i < |text| && text[i] !in WHITESPACE
    ensures !Blank(text)
  {
    assert text[i] in text;
  }

  function Max(a: int, b: int): int { if a < b then b else a }

  function Min(a: int, b: int): int { if a < b then a else b }

  function MaxReal(a: real, b: real): real { if a < b then b else a }

  function MinReal(a: real, b: real): real { if a < b then a else b }
}
