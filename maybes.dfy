/** The Maybe type of maybe.py: an immutable value that is either `Just(value)`
    or `Nothing`, with `bind` (also spelled `>>`) and the accessor `get`.

    A transform handed to `bind` is an arbitrary Python callable that may return
    normally or raise. It is modelled as a total function whose result says which
    of the two happened: `Returned(u)` or `Raised`.
 */
module Maybes {

  /** `Just` and `Nothing`, the two frozen dataclasses deriving from `Maybe`. */
  datatype Maybe<T> = Just(value: T) | Nothing

  /** What calling a transform did: returned `u`, or raised some exception. */
  datatype Outcome<U> = Returned(value: U) | Raised

  /** Python's `T | None`: what `get` hands back. `None` is Python's `None`. */
  datatype Option<T> = Some(value: T) | None

  /** `Maybe.bind`: short-circuits on `Nothing` without calling `f`; otherwise calls
      `f` on the held value, wraps whatever it returns in a fresh `Just` (even a
      value that is itself a `Maybe`), and turns any exception into `Nothing`. */
  function Bind<T, U>(m: Maybe<T>, f: T -> Outcome<U>): (r: Maybe<U>)
    // short-circuit: nothing in, nothing out
    ensures m.Nothing? ==> r == Nothing
    // wrap-on-success: the returned value is wrapped, never flattened
    ensures m.Just? && f(m.value).Returned? ==> r == Just(f(m.value).value)
    // absorb-on-failure: no exception escapes
    ensures m.Just? && f(m.value).Raised? ==> r == Nothing
  {
    match m
    case Nothing => Nothing
    case Just(v) =>
      match f(v)
      case Returned(u) => Just(u)
      case Raised => Nothing
  }

  /** `Maybe.__rshift__`: `m >> f` is `m.bind(f)`. */
  function RShift<T, U>(m: Maybe<T>, f: T -> Outcome<U>): (r: Maybe<U>)
    ensures r == Bind(m, f)
    ensures r.Just? ==> m.Just? && f(m.value) == Returned(r.value)
  {
    Bind(m, f)
  }

  /** `Just.get` and `Nothing.get`: the held value, or `None`; never raises. */
  function Get<T>(m: Maybe<T>): (r: Option<T>)
    ensures r.Some? <==> m.Just?
    ensures m.Just? ==> r == Some(m.value)
  {
    match m
    case Just(v) => Some(v)
    case Nothing => None
  }

  /** Python's `lambda x: g(f(x))`: an exception raised by `f` propagates, so `g`
      is then never called. */
  function Compose<T, U, V>(f: T -> Outcome<U>, g: U -> Outcome<V>): T -> Outcome<V>
  {
    x => match f(x) case Returned(u) => g(u) case Raised => Raised
  }

  /** `bind` looks at `f` only through `f(m.value)`: on `Nothing` the transform is
      never consulted, so any two transforms, even one that always raises, give
      the same result. */
  lemma BindIgnoresTransformOnNothing<T, U>(f: T -> Outcome<U>, g: T -> Outcome<U>)
    ensures Bind(Nothing, f) == Bind(Nothing, g) == Nothing
  {
  }

  /** On `Just(v)` the result depends on the transform only through its outcome on `v`. */
  lemma BindDependsOnlyOnCall<T, U>(v: T, f: T -> Outcome<U>, g: T -> Outcome<U>)
    requires f(v) == g(v)
    ensures Bind(Just(v), f) == Bind(Just(v), g)
  {
  }

  /** `bind` is not a flat-map: a transform returning a `Maybe` yields a nested one. */
  lemma BindDoesNotFlatten<T, U>(v: T, f: T -> Outcome<Maybe<U>>)
    requires f(v) == Returned(Nothing)
    ensures Bind(Just(v), f) == Just(Nothing)
    ensures Bind(Just(v), f) != Nothing
  {
  }

  /** Two binds in a row are one bind of the composed transform, for every
      receiver and every pair of transforms, failing or not. */
  lemma BindBindIsBindCompose<T, U, V>(m: Maybe<T>, f: T -> Outcome<U>, g: U -> Outcome<V>)
    ensures Bind(Bind(m, f), g) == Bind(m, Compose(f, g))
  {
  }

  /** When neither step raises, `Just(v).bind(f).bind(g)` is `Just(v).bind(g . f)`
      and holds `g(f(v))`. */
  lemma TwoSuccessfulSteps<T, U, V>(v: T, f: T -> Outcome<U>, g: U -> Outcome<V>)
    requires f(v).Returned? && g(f(v).value).Returned?
    ensures Bind(Bind(Just(v), f), g) == Bind(Just(v), Compose(f, g))
    ensures Bind(Bind(Just(v), f), g) == Just(g(f(v).value).value)
  {
    BindBindIsBindCompose(Just(v), f, g);
  }
}
