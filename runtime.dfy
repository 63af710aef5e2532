/** The parts of Python's runtime that the modelled code leans on: `None`,
    truthiness, `or`, f-string rendering and the exceptions it can raise. */
module Runtime {

  datatype Option<+T> = None | Some(value: T)

  /** The exceptions raised along the modelled paths. `MissingColumn` stands
      for pandas' `KeyError` and polars' `ColumnNotFoundError` when a frame is
      indexed with a name it does not have. */
  datatype Exception =
    | ValueError(message: string)
    | TypeError(message: string)
    | AttributeError(message: string)
    | IndexError(message: string)
    | NotImplementedError(message: string)
    | MissingColumn(name: string)

  /** A value or the exception that replaced it. */
  datatype Result<+T> = Ok(value: T) | Raise(exception: Exception) {
    predicate IsFailure() { Raise? }

    function PropagateFailure<U>(): Result<U>
      requires Raise?
    {
      Raise(exception)
    }

    function Extract(): T
      requires Ok?
    {
      value
    }
  }

  /** A dynamically typed value as a database driver hands it over. */
  datatype Value = NoneValue | BoolValue(b: bool) | StrValue(s: string)

  /** Python truthiness of a driver value. */
  predicate Truthy(v: Value) {
    match v
    case NoneValue => false
    case BoolValue(b) => b
    case StrValue(s) => s != ""
  }

  /** Python truthiness of an optional string: neither `None` nor `''`. */
  predicate Present(s: Option<string>) {
    s.Some? && s.value != ""
  }

  /** Python's `a or b` on optional strings. */
  function Or(a: Option<string>, b: Option<string>): (r: Option<string>)
    ensures Present(a) ==> r == a
    ensures !Present(a) ==> r == b
  {
    if Present(a) then a else b
  }

  /** How an f-string renders an optional string: `None` becomes the text `None`. */
  function Show(s: Option<string>): (r: string)
    ensures s.Some? ==> r == s.value
    ensures s.None? ==> r == "None"
  {
    match s
    case Some(v) => v
    case None => "None"
  }
}
