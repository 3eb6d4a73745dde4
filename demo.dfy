/** The sample pipeline of maybe.py:44-54:
    `y = x >> int >> (-x) >> (x + 3) >> (x ** 2) >> list(range(x))` with
    `x = Just("1")`. Each stage is a Python callable applied to whatever object
    it is given; an operand of the wrong type makes it raise `TypeError` (or
    `ValueError`, for `int()` on text that is not a literal).
 */
module Demo {
  import opened Maybes
  import opened Chains
  import opened PyValues
  import opened Render

  /** `int`: parses text, keeps an int, raises on a list or `None`. */
  function ToInt(v: Value): (r: Outcome<Value>)
    ensures v.Str? ==> (r.Returned? <==> IsIntLiteral(v.s))
    ensures v.Str? && r.Returned? ==> r.value == Int(ParseInt(v.s).value)
    ensures v.Int? ==> r == Returned(v)
    ensures v.IntList? || v.NoneObj? ==> r == Raised
  {
    match v
    case Str(s) =>
      (match ParseInt(s)
       case Returned(n) => Returned(Int(n))
       case Raised => Raised)
    case Int(n) => Returned(Int(n))
    case IntList(_) => Raised
    case NoneObj => Raised
  }

  /** `lambda x: -x`: defined on ints only. */
  function Negate(v: Value): (r: Outcome<Value>)
    ensures r.Returned? <==> v.Int?
    ensures r.Returned? ==> r.value.Int? && r.value.n + v.n == 0
  {
    if v.Int? then Returned(Int(-v.n)) else Raised
  }

  /** `lambda x: x + 3`: a string or list plus an int raises. */
  function AddThree(v: Value): (r: Outcome<Value>)
    ensures r.Returned? <==> v.Int?
    ensures r.Returned? ==> r.value.Int? && r.value.n - v.n == 3
  {
    if v.Int? then Returned(Int(v.n + 3)) else Raised
  }

  /** `lambda x: x ** 2`: defined on ints only, never negative. */
  function Square(v: Value): (r: Outcome<Value>)
    ensures r.Returned? <==> v.Int?
    ensures r.Returned? ==> r.value.Int? && r.value.n >= 0 && r.value.n == v.n * v.n
  {
    if v.Int? then Returned(Int(v.n * v.n)) else Raised
  }

  /** `lambda x: list(range(x))`: `range` accepts only an int (`TypeError`);
      `list()` takes its size from `len()`, which raises `OverflowError` beyond
      `sys.maxsize`, and allocates it at once, which raises `MemoryError` beyond
      `MaxListLength`. A negative `x` gives the empty list. */
  function RangeList(v: Value): (r: Outcome<Value>)
    ensures r.Returned? <==> v.Int? && v.n <= MaxListLength
    ensures r.Returned? ==> r.value.IntList? && r.value.items == Range(v.n)
  {
    if !v.Int? then Raised
    else if v.n > MaxSize then Raised
    else if v.n > MaxListLength then Raised
    else Returned(IntList(Range(v.n)))
  }

  /** What the pipeline ends with once `int()` has produced `n`: the list
      `0, ..., (3 - n) ** 2 - 1`, or `Nothing` when CPython refuses to allocate
      a list that long. */
  function FromInt(n: int): Maybe<Value>
  {
    var k := (3 - n) * (3 - n);
    if k <= MaxListLength then Just(IntList(Range(k))) else Nothing
  }

  /** The expression of maybe.py:47-54, grouped to the left as Python does, and
      what it yields for every kind of receiver. */
  function Pipeline(x: Maybe<Value>): (r: Maybe<Value>)
    ensures x.Nothing? ==> r == Nothing
    ensures x.Just? && x.value.Str? && ParseInt(x.value.s).Returned? ==> r == FromInt(ParseInt(x.value.s).value)
    ensures x.Just? && x.value.Str? && ParseInt(x.value.s).Raised? ==> r == Nothing
    ensures x.Just? && x.value.Int? ==> r == FromInt(x.value.n)
    ensures x.Just? && (x.value.IntList? || x.value.NoneObj?) ==> r == Nothing
  {
    RShift(RShift(RShift(RShift(RShift(x, ToInt), Negate), AddThree), Square), RangeList)
  }

  /** The stages of the pipeline, in order. */
  function Stages(): seq<Value -> Outcome<Value>>
  {
    [ToInt, Negate, AddThree, Square, RangeList]
  }

  /** The demo's `x`. */
  const X: Maybe<Value> := Just(Str("1"))

  /** The written-out `>>` expression is the five-stage pipeline. */
  lemma PipelineIsChain(x: Maybe<Value>)
    ensures Pipeline(x) == Chain(x, Stages())
  {
    var s1: seq<Value -> Outcome<Value>> := [ToInt];
    var s2 := s1 + [Negate];
    var s3 := s2 + [AddThree];
    var s4 := s3 + [Square];
    var s5 := s4 + [RangeList];
    assert s1[..0] == [];
    assert s2[..1] == s1;
    assert s3[..2] == s2;
    assert s4[..3] == s3;
    assert s5[..4] == s4;
    assert Chain(x, s1) == RShift(x, ToInt);
    assert Chain(x, s2) == RShift(Chain(x, s1), Negate);
    assert Chain(x, s3) == RShift(Chain(x, s2), AddThree);
    assert Chain(x, s4) == RShift(Chain(x, s3), Square);
    assert Chain(x, s5) == RShift(Chain(x, s4), RangeList);
    assert s5 == Stages();
  }

  /** `(3 - n) ** 2` fits a list exactly when `n` is within 1073741823 of 3, the
      integer square root of `MaxListLength`; further out the last stage raises
      and the pipeline ends as `Nothing`. */
  lemma {:induction false} PipelineOverflowBoundary(n: int)
    ensures Pipeline(Just(Int(n))).Just? <==> -1073741820 <= n <= 1073741826
  {
    var d := if 3 - n >= 0 then 3 - n else n - 3;
    assert (3 - n) * (3 - n) == d * d;
    if d <= 1073741823 {
      SquareMonotone(d, 1073741823);
    } else {
      SquareMonotone(1073741824, d);
    }
  }

  lemma SquareMonotone(a: nat, b: nat)
    requires a <= b
    ensures a * a <= b * b
  {
  }

  /** 10^10 squares to beyond `sys.maxsize` (`OverflowError`), and -1073741821
      squares to 2^60, beyond `MaxListLength` (`MemoryError`): both pipelines end
      as `Nothing`. */
  lemma LargeInputEndsAsNothing()
    ensures Pipeline(Just(Int(10000000000))) == Nothing
    ensures Pipeline(Just(Int(-1073741821))) == Nothing
  {
    PipelineOverflowBoundary(10000000000);
    PipelineOverflowBoundary(-1073741821);
  }

  /** The trace of the demo: "1", 1, -1, 2, 4, then [0, 1, 2, 3]. */
  lemma DemoTrace()
    ensures RShift(X, ToInt) == Just(Int(1))
    ensures RShift(RShift(X, ToInt), Negate) == Just(Int(-1))
    ensures RShift(RShift(RShift(X, ToInt), Negate), AddThree) == Just(Int(2))
    ensures RShift(RShift(RShift(RShift(X, ToInt), Negate), AddThree), Square) == Just(Int(4))
    ensures Pipeline(X) == Just(IntList([0, 1, 2, 3]))
  {
    assert ParseInt("1") == Returned(1) by {
      assert Unsigned("1") == "1";
      assert DigitsValue("1") == 1 by { assert "1"[..0] == []; }
    }
    assert Range(4) == [0, 1, 2, 3];
  }

  /** `Just [0, 1, 2, 3]` is how the list the demo ends with renders. */
  lemma RenderDemoList()
    ensures Repr(Just(IntList([0, 1, 2, 3]))) == "Just [0, 1, 2, 3]"
  {
    assert IntStr(3) == "3" && IntStr(2) == "2" && IntStr(1) == "1" && IntStr(0) == "0";
    assert JoinInts([3]) == "3";
    assert JoinInts([2, 3]) == "2, 3";
    assert JoinInts([1, 2, 3]) == "1, 2, 3";
    assert JoinInts([0, 1, 2, 3]) == "0, 1, 2, 3";
  }

  /** What maybe.py:55 shows: `x` renders as `Just "1"` and `y` as
      `Just [0, 1, 2, 3]`. */
  lemma DemoOutput()
    ensures Repr(X) == "Just \"1\""
    ensures Repr(Pipeline(X)) == "Just [0, 1, 2, 3]"
  {
    DemoTrace();
    RenderDemoList();
  }
}
