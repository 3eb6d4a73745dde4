/** Pipelines `m >> f1 >> f2 >> ... >> fn` as in maybe.py:47-54. Python's `>>` is
    left-associative, so the pipeline is `(((m >> f1) >> f2) ...) >> fn`. The
    transforms of one pipeline share one type `T`, which matches Python, where
    every stage takes and returns a dynamically typed object.
 */
module Chains {
  import opened Maybes

  /** `m >> fs[0] >> ... >> fs[|fs|-1]`, grouped to the left. */
  function Chain<T>(m: Maybe<T>, fs: seq<T -> Outcome<T>>): (r: Maybe<T>)
    // once a pipeline holds Nothing, every later stage keeps it Nothing
    ensures m.Nothing? ==> r.Nothing?
    ensures fs == [] ==> r == m
    decreases |fs|
  {
    if fs == [] then m else RShift(Chain(m, fs[..|fs| - 1]), fs[|fs| - 1])
  }

  /** Calling the transforms one after another on a plain value, as the nested
      call `fn(...f2(f1(v)))` would: the first exception propagates and the
      later transforms are not called. */
  function Run<T>(v: T, fs: seq<T -> Outcome<T>>): (r: Outcome<T>)
    ensures fs == [] ==> r == Returned(v)
    decreases |fs|
  {
    if fs == [] then Returned(v)
    else match Run(v, fs[..|fs| - 1])
      case Returned(u) => fs[|fs| - 1](u)
      case Raised => Raised
  }

  /** The whole pipeline as one Python function `lambda x: fn(...f1(x))`. */
  function ComposeAll<T>(fs: seq<T -> Outcome<T>>): T -> Outcome<T>
  {
    x => Run(x, fs)
  }

  /** A pipeline is the same whether it is built in one piece or as a pipeline
      continued by more stages: `>>` chains group to the left. */
  lemma {:induction false} ChainAppend<T>(m: Maybe<T>, fs: seq<T -> Outcome<T>>, gs: seq<T -> Outcome<T>>)
    ensures Chain(m, fs + gs) == Chain(Chain(m, fs), gs)
    decreases |gs|
  {
    if gs == [] {
      assert fs + gs == fs;
    } else {
      var n := |gs| - 1;
      assert (fs + gs)[..|fs + gs| - 1] == fs + gs[..n];
      assert (fs + gs)[|fs + gs| - 1] == gs[n];
      ChainAppend(m, fs, gs[..n]);
    }
  }

  /** Once a pipeline holds `Nothing` it stays `Nothing`, however it continues. */
  lemma NothingAbsorbs<T>(m: Maybe<T>, fs: seq<T -> Outcome<T>>, gs: seq<T -> Outcome<T>>)
    requires Chain(m, fs) == Nothing
    ensures Chain(m, fs + gs) == Nothing
  {
    ChainAppend(m, fs, gs);
  }

  /** A pipeline started from `Just(v)` holds exactly what running the stages in
      turn on `v` gives: `Just` of the last value if no stage raised, `Nothing`
      if one did. */
  lemma {:induction false} ChainFromJust<T>(v: T, fs: seq<T -> Outcome<T>>)
    ensures Run(v, fs).Returned? ==> Chain(Just(v), fs) == Just(Run(v, fs).value)
    ensures Run(v, fs).Raised? ==> Chain(Just(v), fs) == Nothing
    decreases |fs|
  {
    if fs != [] {
      ChainFromJust(v, fs[..|fs| - 1]);
    }
  }

  /** A pipeline of binds is a single bind of the composed function, for every
      receiver and every list of transforms. */
  lemma {:induction false} ChainIsOneBind<T>(m: Maybe<T>, fs: seq<T -> Outcome<T>>)
    ensures Chain(m, fs) == Bind(m, ComposeAll(fs))
  {
    match m
    case Nothing =>
    case Just(v) =>
      ChainFromJust(v, fs);
      assert ComposeAll(fs)(v) == Run(v, fs);
  }

  /** `m >> f >> g` is `(m.bind(f)).bind(g)`, the two-stage pipeline. */
  lemma TwoStagePipeline<T>(m: Maybe<T>, f: T -> Outcome<T>, g: T -> Outcome<T>)
    ensures RShift(RShift(m, f), g) == Chain(m, [f, g])
  {
  }
}
