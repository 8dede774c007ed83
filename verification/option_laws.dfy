/** Laws of the Option container, each relating an operation to a partner:
    the list of falsy values, the constructor, the representation invariant,
    or another combinator.
 */
module OptionLaws {
  import opened JsValues
  import opened Options

  // ---------------------------------------------------------------------
  // Construction and the representation invariant

  /** `of` yields `none` for exactly the seven falsy values, `null` and
      `undefined` among them, and wraps every other candidate unchanged. */
  lemma OfEmptyExactlyOnFalsy(v: JsValue)
    ensures IsEmpty(Of(v)) <==> v in Falsy()
    ensures v !in Falsy() ==> Of(v) == Some(v)
    ensures IsEmpty(Of(Null)) && IsEmpty(Of(Undefined))
  {
  }

  /** `empty()` is the same Option as `of(null)` and `of(undefined)`. */
  lemma EmptyIsOfAbsent()
    ensures Empty() == Of(Null) == Of(Undefined) == None
  {
  }

  /** The invariant describes exactly the Options the constructor can build:
      an Option is valid if and only if it is `of(v)` for some candidate `v`. */
  lemma ValidIffConstructed(o: Option)
    ensures Valid(o) <==> exists v :: Of(v) == o
  {
    if Valid(o) {
      var v := if o.Some? then o.value else Null;
      assert Of(v) == o;
    }
  }

  /** Without the invariant `orNull` could not tell a wrapped `null` from an
      empty Option: the invalid `some(null)` answers `null` yet is not empty. */
  lemma OrNullNeedsInvariant()
    ensures OrNull(Some(Null)) == Null && !IsEmpty(Some(Null)) && !Valid(Some(Null))
  {
  }

  // ---------------------------------------------------------------------
  // get

  /** `of(v).get()` returns `v` for a truthy `v` and fails for any falsy one;
      `empty().get()` always fails. */
  lemma GetOfRoundTrip(v: JsValue)
    ensures IsTruthy(v) ==> Get(Of(v)) == Ok(v)
    ensures !IsTruthy(v) ==> Get(Of(v)) == Failure(EmptyValueError)
    ensures Get(Empty()) == Failure(EmptyValueError)
  {
  }

  // ---------------------------------------------------------------------
  // map

  /** On an empty Option `map` ignores its callback: two different callbacks
      give the same empty result. */
  lemma MapOnEmptyIgnoresCallback(f: JsValue -> JsValue, g: JsValue -> JsValue)
    ensures Map(None, f) == Map(None, g) == None
  {
  }

  /** On `some(v)`, `map(fn)` is `of(fn(v))`; it is empty exactly when the
      receiver is empty or `fn(v)` is falsy. */
  lemma MapEmptyIff(o: Option, fn: JsValue -> JsValue)
    ensures o.Some? ==> Map(o, fn) == Of(fn(o.value))
    ensures IsEmpty(Map(o, fn)) <==> IsEmpty(o) || !IsTruthy(fn(o.value))
  {
  }

  /** Mapping the identity returns a valid receiver unchanged. */
  lemma MapIdentity(o: Option)
    requires Valid(o)
    ensures Map(o, x => x) == o
  {
  }

  /** `map(f)` is `flatMap` of `of` after `f`. */
  lemma MapIsFlatMapOf(o: Option, f: JsValue -> JsValue)
    ensures Map(o, f) == FlatMap(o, x => Of(f(x)))
  {
  }

  /** Two maps compose into one whenever the first does not collapse a
      present value to `none`. */
  lemma MapComposition(o: Option, f: JsValue -> JsValue, g: JsValue -> JsValue)
    requires o.Some? ==> IsTruthy(f(o.value))
    ensures Map(Map(o, f), g) == Map(o, x => g(f(x)))
  {
  }

  /** Because `map` re-enters the truthiness test, composition fails in
      general: `of("s").map(() => 0).map(x => !x)` is empty while
      `of("s").map(x => !0)` holds `true`. */
  lemma MapCompositionCounterexample()
    ensures var o, f, g := Of(Str("s")), (x: JsValue) => Zero, (x: JsValue) => Bool(!IsTruthy(x));
      Map(Map(o, f), g) == None && Map(o, x => g(f(x))) == Some(Bool(true))
  {
  }

  // ---------------------------------------------------------------------
  // flatMap

  /** On an empty Option `flatMap` ignores its callback. */
  lemma FlatMapOnEmptyIgnoresCallback(f: JsValue -> Option, g: JsValue -> Option)
    ensures FlatMap(None, f) == FlatMap(None, g) == None
  {
  }

  /** On `some(v)` `flatMap(fn)` is exactly `fn(v)`; so `of(v).flatMap(fn)`
      is `fn(v)` for truthy `v`. */
  lemma FlatMapLeftIdentity(v: JsValue, fn: JsValue -> Option)
    ensures FlatMap(Some(v), fn) == fn(v)
    ensures IsTruthy(v) ==> FlatMap(Of(v), fn) == fn(v)
  {
  }

  /** `flatMap(of)` returns a valid receiver unchanged. */
  lemma FlatMapRightIdentity(o: Option)
    requires Valid(o)
    ensures FlatMap(o, Of) == o
  {
  }

  /** `flatMap` is associative. */
  lemma FlatMapAssociative(o: Option, f: JsValue -> Option, g: JsValue -> Option)
    ensures FlatMap(FlatMap(o, f), g) == FlatMap(o, x => FlatMap(f(x), g))
  {
  }

  // ---------------------------------------------------------------------
  // getOrElse

  /** On `some(v)` `getOrElse` returns `v` whatever its argument, so a
      supplier given there has no bearing on the result. */
  lemma GetOrElsePresentIgnoresArg(v: JsValue, x: Arg<JsValue>, y: Arg<JsValue>)
    ensures GetOrElse(Some(v), x) == GetOrElse(Some(v), y) == v
  {
  }

  /** On an empty Option `getOrElse` returns the plain default, or the
      supplier's result; a supplier of `d` and the plain `d` agree. */
  lemma GetOrElseOnEmpty(d: JsValue, f: () -> JsValue)
    ensures GetOrElse(None, Value(d)) == d
    ensures GetOrElse(None, Supplier(f)) == f()
    ensures GetOrElse(None, Supplier(() => d)) == GetOrElse(None, Value(d))
  {
  }

  /** `getOrElse(d)` is `get()` with its failure replaced by `d`. */
  lemma GetOrElseAgreesWithGet(o: Option, d: JsValue)
    ensures GetOrElse(o, Value(d)) == (if Get(o).Ok? then Get(o).value else d)
  {
  }

  // ---------------------------------------------------------------------
  // orElse

  /** On `some` `orElse` returns the receiver itself, whatever its argument. */
  lemma OrElsePresentIsReceiver(v: JsValue, x: Arg<Option>, y: Arg<Option>)
    ensures OrElse(Some(v), x) == OrElse(Some(v), y) == Some(v)
  {
  }

  /** On an empty Option `orElse` returns the alternative, or the supplier's
      result; a supplier of `a` and the plain `a` agree. */
  lemma OrElseOnEmpty(a: Option, f: () -> Option)
    ensures OrElse(None, Value(a)) == a
    ensures OrElse(None, Supplier(f)) == f()
    ensures OrElse(None, Supplier(() => a)) == OrElse(None, Value(a))
  {
  }

  /** `orElse` with a plain alternative is empty exactly when both are, has
      `none` as its neutral element on either side, and is associative. */
  lemma OrElseLaws(o: Option, a: Option, b: Option)
    ensures IsEmpty(OrElse(o, Value(a))) <==> IsEmpty(o) && IsEmpty(a)
    ensures OrElse(o, Value(None)) == o && OrElse(None, Value(o)) == o
    ensures OrElse(OrElse(o, Value(a)), Value(b)) == OrElse(o, Value(OrElse(a, Value(b))))
  {
  }

  /** `getOrElse` on the result of `orElse` tries the receiver, then the
      alternative, then the default. */
  lemma GetOrElseAfterOrElse(o: Option, a: Option, d: JsValue)
    ensures GetOrElse(OrElse(o, Value(a)), Value(d))
         == GetOrElse(o, Value(GetOrElse(a, Value(d))))
  {
  }

  // ---------------------------------------------------------------------
  // Observers

  /** On a valid Option the observers agree: `isEmpty()` holds exactly when
      `get()` fails, when `orNull()` is `null`, and when `forEach` calls its
      consumer zero times; otherwise `get()`, `orNull()` and the single
      consumer argument are all the wrapped value. */
  lemma ObserversAgree(o: Option)
    requires Valid(o)
    ensures IsEmpty(o) <==> Get(o).Failure?
    ensures IsEmpty(o) <==> OrNull(o) == Null
    ensures IsEmpty(o) <==> ForEach(o) == []
    ensures !IsEmpty(o) ==> Get(o) == Ok(o.value) && OrNull(o) == o.value && ForEach(o) == [o.value]
  {
  }

  /** The expectations of the unit tests, stated on the model. */
  lemma UnitTestScenarios()
    ensures Get(Of(Str("s"))) == Ok(Str("s"))
    ensures Get(Of(Null)).Failure? && Get(Empty()).Failure? && Get(Of(Undefined)).Failure?
    ensures GetOrElse(Of(NonZeroNumber(1)), Supplier(() => NonZeroNumber(2))) == NonZeroNumber(1)
    ensures GetOrElse(Of(Null), Supplier(() => NonZeroNumber(2))) == NonZeroNumber(2)
    ensures GetOrElse(Of(NonZeroNumber(1)), Value(NonZeroNumber(2))) == NonZeroNumber(1)
    ensures GetOrElse(Of(Null), Value(NonZeroNumber(2))) == NonZeroNumber(2)
    ensures Get(OrElse(Of(NonZeroNumber(1)), Supplier(() => Of(NonZeroNumber(2))))) == Ok(NonZeroNumber(1))
    ensures Get(OrElse(Of(Null), Supplier(() => Of(NonZeroNumber(2))))) == Ok(NonZeroNumber(2))
    ensures Get(OrElse(Of(NonZeroNumber(1)), Value(Of(NonZeroNumber(2))))) == Ok(NonZeroNumber(1))
    ensures Get(OrElse(Of(Null), Value(Of(NonZeroNumber(2))))) == Ok(NonZeroNumber(2))
    ensures OrNull(Of(Str("s"))) == Str("s") && OrNull(Of(Null)) == Null
    ensures ForEach(Of(Str("s"))) == [Str("s")] && ForEach(Empty()) == []
    ensures !IsEmpty(Of(Str("a"))) && IsEmpty(Of(Null))
    ensures var o, f := Of(Str("s")), (t: JsValue) => if t.Str? then NonZeroNumber(1 + |t.s|) else Undefined;
      && Get(Map(o, f)) == Ok(NonZeroNumber(2))
      && Get(FlatMap(o, t => Of(f(t)))) == Ok(NonZeroNumber(2))
      && Get(o) == Ok(Str("s"))
  {
  }
}
