# ts-option in Dafny

A model of `Option<T>`, the single class of the `ts-option` TypeScript
library: an immutable container that either wraps one value (`some`) or
holds none (`none`), with the factories `of` and `empty` and the
combinators `map`, `flatMap`, `getOrElse`, `orElse`, `get`, `orNull`,
`forEach` and `isEmpty`.

The one subtle point of the library is its private constructor: it keeps a
candidate only if `if (val)` accepts it, so `Option.of` turns every
JavaScript-falsy value (`undefined`, `null`, `false`, `0`, `NaN`, `""`,
`0n`) into `none`, and `map`, which re-enters `Option.of`, collapses a falsy
callback result to `none` as well.

Files:

- `js_values.dfy` (module `JsValues`): the JavaScript values the container
  can observe, the truthiness test `IsTruthy` (ToBoolean, section 7.1.2 of
  ECMAScript), and the finite list of falsy values it is proved equal to.
- `options.dfy` (module `Options`): the representation `Some(value) | None`,
  the representation invariant `Valid` (a `some` wraps a truthy value), and
  one pure function per operation. `get` returns `Ok(v)` or
  `Failure(EmptyValueError)` instead of throwing. The argument of
  `getOrElse`/`orElse` is a tagged `Value(v) | Supplier(f)`. `forEach`
  returns the list of arguments its consumer is called with.
- `option_laws.dfy` (module `OptionLaws`): the laws relating each operation
  to a partner.

TypeScript generics are erased at run time and the constructor's test looks
at the runtime value, so the model wraps `JsValue` rather than a type
parameter; callbacks are total pure Dafny functions over `JsValue`.
"A callback is not invoked" is stated as independence: two different
callbacks (or arguments) give the same result.

Two observations the proofs make precise:

- `map` does not satisfy the functor composition law: `MapComposition` holds
  only when the first callback keeps the value truthy, and
  `MapCompositionCounterexample` exhibits `of("s").map(() => 0).map(x => !x)`
  being `none` while the fused map yields `some(true)`.
- `orNull` returns `null` exactly on `none` only because of the
  representation invariant; `OrNullNeedsInvariant` shows the invalid
  `some(null)` would break it, and `ValidIffConstructed` shows the invariant
  describes exactly what the constructor can build.

## Model

| member | source | states |
|---|---|---|
| JsValues.TruthyIffNotFalsy | option.ts:14 | the truthiness test accepts a value exactly when it is not one of the seven falsy values `undefined`, `null`, `false`, zero, `NaN`, `0n`, `""` |
| Options.Of | option.ts:13-23 | `of(v)` is `some(v)` exactly when `v` is truthy and `none` otherwise, and always satisfies the representation invariant |
| Options.Empty | option.ts:25-27 | `empty()` is an empty Option satisfying the invariant |
| Options.Map | option.ts:29-36 | the result of `map` always satisfies the invariant, is empty when the receiver is, and on `some(v)` is `of(fn(v))`, so when present it holds the callback's result |
| Options.FlatMap | option.ts:38-45 | `flatMap` on `none` is empty, on `some(v)` is exactly `fn(v)`, and preserves the invariant when the callback's Option does |
| Options.GetOrElse | option.ts:47-59 | on `some(v)` the result is `v`, truthy when the receiver is valid; on `none` it is the plain default or the supplier's result |
| Options.OrElse | option.ts:61-73 | on a present receiver the result is the receiver itself; on `none` it is the plain alternative or the supplier's result; the invariant is preserved when the alternative satisfies it |
| Options.Get | option.ts:75-82 | `get` succeeds exactly on `some`, returning the wrapped value, which is truthy on a valid Option |
| Options.OrNull | option.ts:84-91 | the wrapped value on `some`, `null` on `none`; on a valid Option the result is `null` exactly when the Option is empty |
| Options.IsEmpty | option.ts:101-108 | true exactly for `none`, which is exactly when `get` fails |
| Options.Resolve | option.ts:54-57 | the `typeof x === "function"` dispatch: a plain value is returned as is, a supplier is called and its result returned |
| Options.ForEach | option.ts:93-99 | the consumer is called at most once, exactly once when a value is present, and only with the wrapped value |
| OptionLaws.OfEmptyExactlyOnFalsy | option.ts:13-23 | `of(v)` is empty exactly for the falsy values, including `null` and `undefined`, and wraps every other value unchanged |
| OptionLaws.EmptyIsOfAbsent | option.ts:25-27 | `empty()` equals `of(null)` and `of(undefined)` |
| OptionLaws.ValidIffConstructed | option.ts:10-19 | an Option satisfies the invariant exactly when the constructor can build it from some candidate |
| OptionLaws.OrNullNeedsInvariant | option.ts:84-91 | without the invariant, `some(null)` would answer `null` from `orNull` while not being empty |
| OptionLaws.GetOfRoundTrip | option.ts:75-82 | `of(v).get()` returns `v` for truthy `v`, and fails for falsy `v` and for `empty()` |
| OptionLaws.MapOnEmptyIgnoresCallback | option.ts:33-34 | `map` on `none` yields `none` whatever the callback |
| OptionLaws.MapEmptyIff | option.ts:31-32 | on `some(v)`, `map(fn)` is `of(fn(v))`, so it is empty exactly when the receiver is empty or `fn(v)` is falsy |
| OptionLaws.MapIdentity | option.ts:29-36 | mapping the identity leaves a valid Option unchanged |
| OptionLaws.MapIsFlatMapOf | option.ts:29-45 | `map(f)` equals `flatMap(x => of(f(x)))` |
| OptionLaws.MapComposition | option.ts:29-36 | two maps fuse into one when the first callback keeps the present value truthy |
| OptionLaws.MapCompositionCounterexample | option.ts:32 | a falsy intermediate result makes two maps differ from their fusion |
| OptionLaws.FlatMapOnEmptyIgnoresCallback | option.ts:42-43 | `flatMap` on `none` yields `none` whatever the callback |
| OptionLaws.FlatMapLeftIdentity | option.ts:40-41 | on `some(v)`, `flatMap(fn)` is exactly `fn(v)`, so `of(v).flatMap(fn)` is `fn(v)` for truthy `v` |
| OptionLaws.FlatMapRightIdentity | option.ts:38-45 | `flatMap(of)` leaves a valid Option unchanged |
| OptionLaws.FlatMapAssociative | option.ts:38-45 | nested `flatMap`s reassociate |
| OptionLaws.GetOrElsePresentIgnoresArg | option.ts:51-52 | on `some(v)`, `getOrElse` returns `v` whatever its argument, plain or supplier |
| OptionLaws.GetOrElseOnEmpty | option.ts:53-57 | on `none`, `getOrElse` returns the plain default or the supplier's result, and a supplier of `d` agrees with the plain `d` |
| OptionLaws.GetOrElseAgreesWithGet | option.ts:47-82 | `getOrElse(d)` is `get()` with its failure replaced by `d` |
| OptionLaws.OrElsePresentIsReceiver | option.ts:65-66 | on `some`, `orElse` returns the receiver whatever its argument |
| OptionLaws.OrElseOnEmpty | option.ts:67-71 | on `none`, `orElse` returns the alternative or the supplier's result, and a supplier of `a` agrees with the plain `a` |
| OptionLaws.OrElseLaws | option.ts:61-73 | `orElse` is empty exactly when both sides are, has `none` as neutral element on both sides, and is associative |
| OptionLaws.GetOrElseAfterOrElse | option.ts:47-73 | `getOrElse` after `orElse` tries the receiver, then the alternative, then the default |
| OptionLaws.ObserversAgree | option.ts:75-108 | on a valid Option, `isEmpty` holds exactly when `get` fails, when `orNull` is `null` and when `forEach` makes no call; otherwise all three observe the wrapped value |
| OptionLaws.UnitTestScenarios | unit/__tests__/option.test.ts:5-139 | the concrete expectations of the unit tests hold of the model, including `of("s").map(t => 1 + t.length)` and its `flatMap` form yielding 2 while the receiver still yields `"s"` |

## Left out

- Exceptions: `throw new Error()` in `get` is the `Failure(EmptyValueError)` result; failures raised by user callbacks are not modelled, since callbacks are total pure functions.
- Side effects and call counts of callbacks and suppliers: a callback that is not invoked is stated as a result independent of the callback; only `forEach` returns an explicit trace of its calls.
- The runtime `typeof x === "function"` test of `getOrElse`/`orElse` is replaced by the tagged argument `Value(v) | Supplier(f)`, because reflecting on JavaScript function values cannot be modelled.
- The TypeScript overload signatures and generic type parameters are type-level only and erased at run time; the model wraps `JsValue`.
- Numbers are abstract: `Zero` (either sign), `NaN` and `NonZeroNumber`, which carries a nonzero integer; fractions, infinities and IEEE arithmetic are not modelled, since only truthiness is observed. `document.all`, the one falsy object of browsers, is not modelled.
- The unit tests that only check a jest spy was not called by the test itself add nothing to the model.
