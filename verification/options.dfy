/** The `Option` container: its two-variant representation, its private
    truthiness-testing constructor, the two factories and the eight
    combinators. Every operation is a pure function of its arguments; an
    Option is an immutable value, so no combinator can change its receiver.
 */
module Options {
  import opened JsValues

  /** The internal tagged value: `{kind: "some", value}` or `{kind: "none"}`. */
  datatype Option = Some(value: JsValue) | None

  /** The representation invariant that the private constructor establishes:
      a present value is always truthy. */
  predicate Valid(o: Option) {
    o.Some? ==> IsTruthy(o.value)
  }

  /** The single error `get` raises on an empty Option. */
  datatype Error = EmptyValueError

  datatype Result<A> = Ok(value: A) | Failure(error: Error)

  /** The argument of `getOrElse` and `orElse`: a plain value, or a supplier
      that is called only when the receiver is empty. */
  datatype Arg<A> = Value(value: A) | Supplier(supply: () -> A)

  /** What the runtime test `typeof x === "function"` selects: the supplier's
      result, or the plain value. */
  function Resolve<A>(x: Arg<A>): (r: A)
    ensures x.Value? ==> r == x.value
    ensures x.Supplier? ==> r == x.supply()
  {
    match x
    case Value(v) => v
    case Supplier(f) => f()
  }

  /** `Option.of`, which is the private constructor: a candidate is kept
      exactly when it is truthy, so every falsy candidate yields `none`. */
  function Of(v: JsValue): (r: Option)
    ensures Valid(r)
    ensures r.Some? <==> IsTruthy(v)
    ensures r.Some? ==> r.value == v
  {
    if IsTruthy(v) then Some(v) else None
  }

  /** `Option.empty`, the constructor applied to `null`. */
  function Empty(): (r: Option)
    ensures Valid(r) && IsEmpty(r)
  {
    Of(Null)
  }

  /** `map` feeds the callback's result back into `Option.of`, so a falsy
      result collapses to `none`. */
  function Map(o: Option, fn: JsValue -> JsValue): (r: Option)
    ensures Valid(r)
    ensures IsEmpty(o) ==> IsEmpty(r)
    ensures o.Some? ==> r == Of(fn(o.value))
    ensures r.Some? ==> o.Some? && r.value == fn(o.value)
  {
    match o
    case Some(v) => Of(fn(v))
    case None => Empty()
  }

  /** `flatMap` returns the callback's Option unchanged. */
  function FlatMap(o: Option, fn: JsValue -> Option): (r: Option)
    ensures IsEmpty(o) ==> IsEmpty(r)
    ensures o.Some? ==> r == fn(o.value)
    ensures o.Some? && Valid(fn(o.value)) ==> Valid(r)
  {
    match o
    case Some(_) => fn(Get(o).value)
    case None => Empty()
  }

  /** `getOrElse`: the wrapped value, else the default or the supplier's result. */
  function GetOrElse(o: Option, x: Arg<JsValue>): (r: JsValue)
    ensures o.Some? ==> r == o.value
    ensures Valid(o) && o.Some? ==> IsTruthy(r)
    ensures o.None? ==> r == Resolve(x)
  {
    match o
    case Some(_) => Get(o).value
    case None => Resolve(x)
  }

  /** `orElse`: the receiver itself, else the alternative or the supplier's result. */
  function OrElse(o: Option, x: Arg<Option>): (r: Option)
    ensures o.Some? ==> r == o
    ensures o.None? ==> r == Resolve(x)
    ensures Valid(o) && Valid(Resolve(x)) ==> Valid(r)
  {
    match o
    case Some(_) => o
    case None => Resolve(x)
  }

  /** `get`: the wrapped value, or the error that `throw new Error()` raises. */
  function Get(o: Option): (r: Result<JsValue>)
    ensures r.Ok? <==> o.Some?
    ensures r.Ok? ==> r.value == o.value
    ensures Valid(o) && r.Ok? ==> IsTruthy(r.value)
  {
    match o
    case Some(v) => Ok(v)
    case None => Failure(EmptyValueError)
  }

  /** `orNull`: the wrapped value, or `null`. */
  function OrNull(o: Option): (r: JsValue)
    ensures o.Some? ==> r == o.value
    ensures o.None? ==> r == Null
    ensures Valid(o) ==> (r == Null <==> IsEmpty(o))
  {
    match o
    case Some(_) => Get(o).value
    case None => Null
  }

  /** `forEach`, as the trace of arguments the consumer is called with. The
      `some` case falls through into the empty `none` case, which adds no call. */
  function ForEach(o: Option): (calls: seq<JsValue>)
    ensures |calls| <= 1
    ensures |calls| == 1 <==> o.Some?
    ensures forall i | 0 <= i < |calls| :: calls[i] == o.value
  {
    match o
    case Some(_) => [Get(o).value]
    case None => []
  }

  /** `isEmpty`: true exactly for `none`, that is, exactly when `get` fails. */
  predicate IsEmpty(o: Option)
    ensures IsEmpty(o) <==> o.None?
    ensures IsEmpty(o) <==> Get(o).Failure?
  {
    match o
    case Some(_) => false
    case None => true
  }
}
