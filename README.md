# Maybe, with exception-absorbing bind

A Dafny model of `maybe.py`, a small optional-value type for Python. A `Maybe`
is either `Just(value)` or `Nothing()`, both immutable. It offers `bind`, also
written `m >> f`, an accessor `get`, and a text rendering `__repr__`. The file
ends with a demo that chains five transforms onto `Just("1")`.

`bind` is not the textbook monadic bind. Its transform `f` is an ordinary
function, not a `Maybe`-returning one. On success, `bind` wraps whatever `f`
returned in `Just`, even a `Maybe`. Any exception `f` raises becomes `Nothing`.
The model gives a transform the type `T -> Outcome<U>`, where
`Outcome<U> = Returned(u) | Raised` says whether the call returned or raised.
`Bind` folds `Raised` into `Nothing`.

Files, one module each:

- `maybes.dfy` (`Maybes`): the `Maybe`, `Outcome` and `Option` datatypes,
  `Bind`, `RShift` (`>>`), `Get`, and the laws of `bind`.
- `chains.dfy` (`Chains`): pipelines `m >> f1 >> ... >> fn`, grouped to the
  left. A pipeline equals one `bind` of the composed function.
- `pyvalues.dfy` (`PyValues`): the Python objects the demo handles. These are
  `str`, `int`, lists of `int`, and `None`. The module also gives Python's
  `str()` of them, a decimal `int()` parser, `list(range(n))`, and `get` as
  Python sees it.
- `render.dfy` (`Render`): `__repr__` and its quote-only-for-strings rule.
- `demo.dfy` (`Demo`): the five stages of the demo pipeline, what the pipeline
  does to each kind of input, and the concrete trace and output of the demo.

## Model

| member | source | states |
|---|---|---|
| `Maybes.Bind` | maybe.py:9-17 | Cases on the receiver and on the transform's outcome. `Nothing` gives `Nothing`. `Just(v)` with `f(v)` returning `u` gives `Just(u)`. `Just(v)` with `f(v)` raising gives `Nothing`. |
| `Maybes.RShift` | maybe.py:19-20 | `m >> f` is `m.bind(f)`. A `Just` result means the receiver was `Just` and `f` returned that value. |
| `Maybes.Get` | maybe.py:27-38 | `get` returns a value exactly when the receiver is `Just`, and that value is the stored one. `Nothing` gives `None`. It never fails. |
| `Maybes.BindIgnoresTransformOnNothing` | maybe.py:10-11 | On `Nothing`, any two transforms give the same `Nothing`, even one that always raises. The transform is never consulted. |
| `Maybes.BindDependsOnlyOnCall` | maybe.py:13-15 | On `Just(v)`, two transforms with the same outcome on `v` give the same result. |
| `Maybes.BindDoesNotFlatten` | maybe.py:14-15 | A transform that returns `Nothing` yields `Just(Nothing)`, which is not `Nothing`. So `bind` is not a flat-map. |
| `Maybes.BindBindIsBindCompose` | maybe.py:9-17 | For every receiver, `m.bind(f).bind(g)` equals `m.bind(lambda x: g(f(x)))`. An exception in `f` propagates through the composition. |
| `Maybes.TwoSuccessfulSteps` | maybe.py:13-15 | If `f(v)` and then `g` return normally, `Just(v).bind(f).bind(g)` equals `Just(v).bind(g . f)`, and both equal `Just(g(f(v)))`. |
| `Chains.Chain` | maybe.py:47-54 | A left-grouped `>>` pipeline. Once it holds `Nothing`, it keeps `Nothing`. An empty pipeline returns its receiver. |
| `Chains.ChainAppend` | maybe.py:47-54 | Running `fs + gs` equals running `gs` on the result of `fs`, so `>>` chains group to the left. |
| `Chains.NothingAbsorbs` | maybe.py:10-11 | Once a pipeline has become `Nothing`, no later stages change it. |
| `Chains.ChainFromJust` | maybe.py:13-17 | From `Just(v)`, a pipeline ends as `Just` of the stages' nested call on `v` when no stage raises. It ends as `Nothing` when one does. |
| `Chains.ChainIsOneBind` | maybe.py:47-54 | For every receiver, a pipeline of binds equals one bind of the composed function `lambda x: fn(...f1(x))`. |
| `Chains.TwoStagePipeline` | maybe.py:19-20 | `m >> f >> g` is `(m.bind(f)).bind(g)`. |
| `PyValues.Digits` | maybe.py:32 | The decimal digits of a natural number. The result is non-empty, all ASCII digits, with no leading zero except for 0 itself. |
| `PyValues.IntStr` | maybe.py:32 | `str()` of an int. The text starts with `-` exactly when the int is negative, and otherwise with a digit. |
| `PyValues.JoinInts` | maybe.py:32 | The `, `-separated elements inside `str()` of a list of ints. It is empty exactly for the empty list, and otherwise starts with a sign or digit. |
| `PyValues.JoinIntsSnoc` | maybe.py:32 | Appending an element to a list appends `, ` and that element's `str()` to the joined text (just the element's `str()` for an empty list). Together with the definition, this fixes the text as each element's `str()` joined by `, `. |
| `PyValues.PyStr` | maybe.py:32 | `str()` for each kind of object: a string is itself, an int is its decimal text, a list is `[...]`, and `None` is `None`. |
| `PyValues.ParseInt` | maybe.py:49 | `int(s)` returns exactly when `s` is an optionally signed run of ASCII digits. With `-` it returns a value of at most 0, and otherwise a value of at least 0. |
| `PyValues.DigitsRoundTrip` | maybe.py:49 | Reading back the digits of `n` gives `n`. |
| `PyValues.IntStrRoundTrip` | maybe.py:49 | `int(str(n)) == n` for every int. |
| `PyValues.IntStrInjective` | maybe.py:32 | Distinct ints have distinct `str()`. |
| `PyValues.Range` | maybe.py:53 | `list(range(n))` has length `max(n, 0)` and holds `i` at index `i`. |
| `PyValues.PyGet` | maybe.py:27-38 | `get` as Python returns it: the stored object for `Just`, and the object `None` for `Nothing`. |
| `PyValues.GetConflatesNothingWithJustNone` | maybe.py:37-38 | `Nothing().get()` and `Just(None).get()` are the same, though the two values differ. |
| `Render.Repr` | maybe.py:30-41 | `Nothing` renders as `Nothing`. A string is quoted as `Just "s"`. Any other object renders as `Just ` followed by `str(x)`. |
| `Render.PyStrNoLeadingQuote` | maybe.py:32 | `str()` of a non-string is non-empty and never starts with `"`. |
| `Render.QuoteOnlyForStrings` | maybe.py:32 | The character after `Just ` is `"` exactly when the stored object is a string. |
| `Render.StringAndIntRenderApart` | maybe.py:32 | `Just("1")` and `Just(1)` never render alike, nor does any other string and int pair. |
| `Render.JustNeverRendersAsNothing` | maybe.py:30-41 | No `Just` renders as `Nothing`. |
| `Render.StrRenderingReadsBack` | maybe.py:32 | Stripping `Just "` and the closing quote from a rendered string gives the string back. |
| `Render.IntRenderingReadsBack` | maybe.py:32 | `int()` of a rendered int, after `Just `, gives the int back. |
| `Render.InnerQuotesUnescaped` | maybe.py:32 | Inner quotes are not escaped: `a"b` renders as `Just "a"b"`. |
| `Demo.ToInt` | maybe.py:49 | `int` parses a literal string and raises on any other string. It keeps an int, and raises on a list or `None`. |
| `Demo.Negate` | maybe.py:50 | `-x` returns exactly on ints, and the result sums with `x` to 0. |
| `Demo.AddThree` | maybe.py:51 | `x + 3` returns exactly on ints, and the result exceeds `x` by 3. |
| `Demo.Square` | maybe.py:52 | `x ** 2` returns exactly on ints, with the non-negative result `x * x`. |
| `Demo.RangeList` | maybe.py:53 | `list(range(x))` returns exactly on ints up to `MaxListLength` (2^60 - 1), with `Range(x)`. On a non-int, `range()` raises `TypeError`. Above `sys.maxsize` (2^63 - 1), `len()` raises `OverflowError`. In between, the one-shot allocation raises `MemoryError`. |
| `Demo.PipelineIsChain` | maybe.py:47-54 | The written-out `>>` expression is the five-stage pipeline `[int, -x, x+3, x**2, list(range(x))]`. |
| `Demo.Pipeline` | maybe.py:47-54 | The written-out `>>` expression, for every receiver. Text that `int()` reads as `n`, or an int `n`, ends as `Just(list(range((3 - n) ** 2)))` when that length is at most `MaxListLength`, and as `Nothing` otherwise. Text `int()` rejects, a list, `None` and `Nothing` end as `Nothing`. |
| `Demo.PipelineOverflowBoundary` | maybe.py:47-54 | An int `n` ends as a `Just` exactly when `-1073741820 <= n <= 1073741826`. Further out, `(3 - n) ** 2` exceeds the longest list CPython will allocate, the last stage raises, and `bind` absorbs the error. |
| `Demo.LargeInputEndsAsNothing` | maybe.py:47-54 | The int 10^10 ends as `Nothing`, by `OverflowError`. The int -1073741821 ends as `Nothing`, by `MemoryError` for a length of 2^60. |
| `Demo.DemoTrace` | maybe.py:44-54 | Starting from `Just("1")`, the pipeline goes `1`, `-1`, `2`, `4`, and ends with `Just([0, 1, 2, 3])`. |
| `Demo.RenderDemoList` | maybe.py:32 | The list `[0, 1, 2, 3]` held in a `Just` renders as `Just [0, 1, 2, 3]`. |
| `Demo.DemoOutput` | maybe.py:44-55 | The two texts the demo prints: `x` renders as `Just "1"`, and `y` as `Just [0, 1, 2, 3]`. `x` is left unchanged by construction, since a Dafny datatype value cannot be updated in place. |

## Left out

- The `print` at maybe.py:55 is console output. `Demo.DemoOutput` keeps the two strings it would display.
- Python exceptions in general are not modelled. A transform's failure is the abstract outcome `Raised`. The bare `except:` also catches `BaseException`s such as `KeyboardInterrupt`, and the model does not tell those apart.
- `Maybes.BindIgnoresTransformOnNothing` states "`f` is never invoked" as "the result does not depend on `f`". Dafny functions are pure, so there is no call counter to observe.
- `PyValues.ParseInt` accepts only an optional `+`/`-` sign followed by ASCII digits. Python's `int()` also allows surrounding whitespace, `_` separators and non-ASCII digits. Those belong to the interpreter, which is not part of this model. The model also has no limit on the number of digits. CPython 3.11 and later, and the security releases 3.7.14, 3.8.14, 3.9.14 and 3.10.7, raise `ValueError` by default for a decimal literal longer than 4300 digits.
- `PyValues.IntStrRoundTrip` holds for every int in the model. In CPython it holds only for ints of at most 4300 decimal digits, unless `sys.set_int_max_str_digits(0)` lifts the limit. Beyond the limit, `str(n)` itself raises `ValueError`.
- `PyValues.IntStr` has no digit limit. In CPython, `str()` of an int longer than 4300 decimal digits raises `ValueError` by default.
- `Render.Repr` never raises. In CPython, `repr(Just(n))` at maybe.py:32 raises `ValueError` when `n` exceeds the 4300-digit limit, and `Render.IntRenderingReadsBack` then has nothing to read back.
- `Demo.RangeList` uses the limits of a 64-bit build: `sys.maxsize` is 2^63 - 1, and the allocator refuses more than 2^60 - 1 list slots, on every machine. A 32-bit build has smaller limits. A list within `MaxListLength` can still raise `MemoryError` when the machine lacks the memory for it, and `bind` would turn that into `Nothing` too. That depends on the machine and is not modelled, so `Demo.Pipeline` and `Demo.PipelineOverflowBoundary` promise a list wherever the length is at most `MaxListLength`.
- `str()` and `repr()` are modelled only for strings, ints, lists of ints and `None`. Other objects, such as floats, booleans and user classes with their own `__str__`, are not in the value domain.
- The check `type(x) is not str` at maybe.py:32 does not quote a subclass of `str`. The value domain has no such subclasses.
- `Maybe` is a closed two-variant type. A bare `Maybe()` instance, which Python allows and which `bind` would turn into `Nothing`, is not representable.
- The covariant type variable (maybe.py:4) and the frozen dataclass machinery are left out. Both are typing and runtime details. Dafny datatypes are immutable anyway.
- Generic `Maybes.Get` returns `Option<T>`, which keeps `Just(None)` and `Nothing` apart. Python's `get` does not: `PyValues.PyGet` is the Python-level version, and `PyValues.GetConflatesNothingWithJustNone` shows the two collide.
