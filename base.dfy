/** Outcomes shared by every module: Python's None-able values become Option,
    and a raised exception becomes the Err / Fail branch carrying its message. */
module Base {

  datatype Option<T> = None | Some(value: T)

  /** The value of a Python expression that either evaluates or raises. */
  datatype Result<T> = Ok(value: T) | Err(msg: string) {
    predicate IsFailure() { Err? }

    function PropagateFailure<U>(): Result<U>
      requires Err?
    {
      Err(msg)
    }

    function Extract(): T
      requires Ok?
    {
      value
    }
  }

  /** The effect of a Python statement that returns nothing: it completes or raises. */
  datatype Outcome = Pass | Fail(msg: string) {
    predicate IsFailure() { Fail? }

    function PropagateFailure(): Outcome
      requires Fail?
    {
      this
    }
  }

  /** The message of the exception a float division by zero raises. */
  const DivisionByZero: string := "ZeroDivisionError: float division by zero"

  /** The message of the exception a lookup of a missing dict key raises. */
  function KeyError(k: string): string {
    "KeyError: '" + k + "'"
  }

  /** The message of the exception indexing past the end of a list raises. */
  const IndexOutOfRange: string := "IndexError: list index out of range"

  /** The message of the exception `next` raises on a CSV reader with no
      rows left, as when a file has no header row. */
  const NoHeader: string := "StopIteration"

  /** A value held in a Python dict of settings such as `system_vars`: None,
      a bool, a number, a string or a list of names. */
  datatype Value = NoneV | BoolV(b: bool) | NumV(x: real) | StrV(s: string) | NamesV(names: seq<string>)

  function Min(a: real, b: real): real { if a <= b then a else b }

  function Max(a: real, b: real): real { if a <= b then b else a }

  lemma MulNonNegative(a: real, b: real)
    requires a >= 0.0 && b >= 0.0
    ensures a * b >= 0.0
  {
  }
}
