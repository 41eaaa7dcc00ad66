/**
  Python-level building blocks shared by every module of the model:
  the exceptions the code raises, an Option/Result pair usable with `:-`,
  floating-point cells (a real number or NaN, with Python's comparison and
  truthiness rules), dictionary-like records standing for pandas rows,
  and a mutable `Series` object for a row that is updated in place.
*/
module PyBase {

  datatype Option<+T> = None | Some(value: T)

  /** The Python exceptions raised by the modelled code, with the offending name. */
  datatype Exception =
    | ValueError(message: string)
    | KeyError(key: string)
    /** KeyError on a dictionary keyed by integers */
    | IndexKeyError(index: int)
    | AttributeError(attribute: string)
    | NotImplementedError(message: string)
    | ZeroDivisionError
    /** raised by `Particle.from_pdgid` for an id the particle table does not know */
    | ParticleNotFound(pdgid: Value)

  datatype Result<+T> = Ok(value: T) | Err(error: Exception) {
    predicate IsFailure() { Err? }
    function PropagateFailure<U>(): Result<U>
      requires Err?
    {
      Err(error)
    }
    function Extract(): T
      requires Ok?
    {
      value
    }
  }

  /** A floating-point cell: a number (rounding is not modelled) or NaN. */
  datatype Value = Num(x: real) | NaN

  /** Arithmetic propagates NaN, as IEEE-754 does. */
  function Plus(a: Value, b: Value): (r: Value)
    ensures r.Num? <==> a.Num? && b.Num?
    ensures r.Num? ==> r.x == a.x + b.x
  {
    if a.Num? && b.Num? then Num(a.x + b.x) else NaN
  }

  function Minus(a: Value, b: Value): (r: Value)
    ensures r.Num? <==> a.Num? && b.Num?
    ensures r.Num? ==> r.x == a.x - b.x
  {
    if a.Num? && b.Num? then Num(a.x - b.x) else NaN
  }

  function Times(a: Value, b: Value): (r: Value)
    ensures r.Num? <==> a.Num? && b.Num?
    ensures r.Num? ==> r.x == a.x * b.x
  {
    if a.Num? && b.Num? then Num(a.x * b.x) else NaN
  }

  /** Division as Python floats do it: a zero divisor raises ZeroDivisionError,
      even for NaN / 0. (numpy float64 operands would give inf or NaN instead;
      the core divides only by a unit photon's energy, which is at least 1.) */
  function Divide(a: Value, b: Value): (r: Result<Value>)
    ensures r.Err? <==> b == Num(0.0)
    ensures r.Ok? && a.Num? && b.Num? ==> r.value == Num(a.x / b.x)
    ensures r.Ok? && (a.NaN? || b.NaN?) ==> r.value == NaN
  {
    if b == Num(0.0) then Err(ZeroDivisionError)
    else if a.Num? && b.Num? then Ok(Num(a.x / b.x))
    else Ok(NaN)
  }

  /** `a < b` on floats: every comparison involving NaN is false. */
  predicate Less(a: Value, b: Value) {
    a.Num? && b.Num? && a.x < b.x
  }

  /** Python truthiness of a float: NaN is truthy, only zero is falsy. */
  predicate Truthy(v: Value) {
    v.NaN? || v.x != 0.0
  }

  /** A pandas row: column name to cell. */
  type Record = map<string, Value>

  /** `hasattr(row, key)` / `getattr(row, key)` as the electron corrector uses them:
      a missing column is reported as ValueError. */
  function GetAttr(row: Record, key: string): (r: Result<Value>)
    ensures r.Ok? <==> key in row
    ensures r.Ok? ==> r.value == row[key]
    ensures r.Err? ==> r.error == ValueError("Cannot find attribute " + key + " among:")
  {
    if key in row then Ok(row[key]) else Err(ValueError("Cannot find attribute " + key + " among:"))
  }

  /** `row[key]`: a missing column raises KeyError. */
  function GetItem(row: Record, key: string): (r: Result<Value>)
    ensures r.Ok? <==> key in row
    ensures r.Ok? ==> r.value == row[key]
    ensures r.Err? ==> r.error == KeyError(key)
  {
    if key in row then Ok(row[key]) else Err(KeyError(key))
  }

  /** `row.key` (attribute access on a pandas row): a missing column raises AttributeError. */
  function GetField(row: Record, key: string): (r: Result<Value>)
    ensures r.Ok? <==> key in row
    ensures r.Ok? ==> r.value == row[key]
    ensures r.Err? ==> r.error == AttributeError(key)
  {
    if key in row then Ok(row[key]) else Err(AttributeError(key))
  }

  /** A pandas row object that several stages share and update in place. */
  class Series {
    var data: Record

    constructor (data: Record)
      ensures this.data == data
    {
      this.data := data;
    }
  }
}
