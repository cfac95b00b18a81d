/** The few Python (2) runtime notions the statsd client depends on: the
    dynamically typed values that reach its configuration fields, their
    truthiness, the `x or y` fallback, the ordering comparisons it makes
    against a sample rate, and the exceptions it can raise. */
module Python {

  /** A value held by a configuration global or a client field. Floats are
      reals: the client only compares them, never computes with them. */
  datatype PyValue = PyNone | PyStr(s: string) | PyInt(i: int) | PyFloat(f: real)

  datatype PyError = TypeError | AttributeError

  datatype Result<T> = Ok(value: T) | Err(error: PyError)

  datatype Option<T> = None | Some(value: T)

  /** How a call ended: it returned normally, or it raised. */
  datatype Outcome = Returned | Raised(error: PyError)

  /** Python truthiness: None, "", 0 and 0.0 are false. */
  predicate Truthy(v: PyValue) {
    match v
    case PyNone => false
    case PyStr(s) => s != ""
    case PyInt(i) => i != 0
    case PyFloat(f) => f != 0.0
  }

  /** `x or fallback`. */
  function Or(x: PyValue, fallback: PyValue): (r: PyValue)
    ensures Truthy(r) <==> Truthy(x) || Truthy(fallback)
  {
    if Truthy(x) then x else fallback
  }

  /** `v < 1.0` under Python 2 ordering: numbers compare by value, None sorts
      below every number and a string above every number. */
  predicate BelowOne(v: PyValue) {
    match v
    case PyNone => true
    case PyStr(_) => false
    case PyInt(i) => i < 1
    case PyFloat(f) => f < 1.0
  }

  /** `draw <= v` for the float `draw` under Python 2 ordering. */
  predicate AtMost(draw: real, v: PyValue) {
    match v
    case PyNone => false
    case PyStr(_) => true
    case PyInt(i) => draw <= i as real
    case PyFloat(f) => draw <= f
  }

  function OutcomeOf<T>(r: Result<T>): (o: Outcome)
    ensures o.Returned? <==> r.Ok?
    ensures r.Err? ==> o == Raised(r.error)
  {
    match r
    case Ok(_) => Returned
    case Err(e) => Raised(e)
  }
}
