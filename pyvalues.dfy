/** The Python objects that flow through the demo pipeline of maybe.py:44-54,
    as a closed domain: strings, integers, lists of integers and `None`. Also
    Python's `str()` on them and the part of `int()` the pipeline uses.
 */
module PyValues {
  import opened Maybes

  datatype Value = Str(s: string) | Int(n: int) | IntList(items: seq<int>) | NoneObj

  predicate IsDigit(c: char) {
    '0' <= c <= '9'
  }

  function DigitChar(d: nat): (c: char)
    requires d < 10
    ensures IsDigit(c)
  {
    "0123456789"[d]
  }

  /** Decimal digits of a natural number, most significant first, with no
      leading zero: the text Python's `str()` gives. */
  function Digits(n: nat): (r: string)
    ensures |r| >= 1
    ensures forall i :: 0 <= i < |r| ==> IsDigit(r[i])
    ensures r[0] == '0' ==> n == 0
    decreases n
  {
    if n < 10 then [DigitChar(n)] else Digits(n / 10) + [DigitChar(n % 10)]
  }

  /** Python's `str()` of an `int`: a minus sign for negatives, then the digits. */
  function IntStr(n: int): (r: string)
    ensures |r| >= 1
    ensures r[0] == '-' <==> n < 0
    ensures r[0] != '-' ==> IsDigit(r[0])
  {
    if n < 0 then "-" + Digits(-n) else Digits(n)
  }

  /** `str()` of the elements of a list of ints, separated by ", ". */
  function JoinInts(xs: seq<int>): (r: string)
    ensures xs == [] <==> r == []
    ensures xs != [] ==> r[0] == '-' || IsDigit(r[0])
    decreases |xs|
  {
    if xs == [] then ""
    else if |xs| == 1 then IntStr(xs[0])
    else IntStr(xs[0]) + ", " + JoinInts(xs[1..])
  }

  /** Python's `str()` of the objects of the domain. */
  function PyStr(v: Value): (r: string)
    ensures v.Str? ==> r == v.s
    ensures v.Int? ==> r == IntStr(v.n)
    ensures v.IntList? ==> r == "[" + JoinInts(v.items) + "]"
    ensures v.NoneObj? ==> r == "None"
  {
    match v
    case Str(s) => s
    case Int(n) => IntStr(n)
    case IntList(xs) => "[" + JoinInts(xs) + "]"
    case NoneObj => "None"
  }

  /** Numeric value of a non-empty string of decimal digits. */
  function DigitsValue(s: string): (n: nat)
    requires forall i :: 0 <= i < |s| ==> IsDigit(s[i])
    decreases |s|
  {
    if s == [] then 0
    else
      assert IsDigit(s[|s| - 1]);
      10 * DigitsValue(s[..|s| - 1]) + (s[|s| - 1] as int - '0' as int)
  }

  /** The literals `int()` accepts here: an optional sign, then one or more ASCII digits. */
  predicate IsIntLiteral(s: string) {
    var body := Unsigned(s);
    |body| >= 1 && forall i :: 0 <= i < |body| ==> IsDigit(body[i])
  }

  /** The text after an optional leading sign. */
  function Unsigned(s: string): string {
    if |s| > 0 && (s[0] == '-' || s[0] == '+') then s[1..] else s
  }

  /** Python's `int(s)` on a string: the value of a signed decimal literal, and a
      raised `ValueError` for any other text. */
  function ParseInt(s: string): (r: Outcome<int>)
    ensures r.Returned? <==> IsIntLiteral(s)
    ensures r.Returned? && s[0] == '-' ==> r.value <= 0
    ensures r.Returned? && s[0] != '-' ==> r.value >= 0
  {
    var negative := |s| > 0 && s[0] == '-';
    var body := Unsigned(s);
    if |body| >= 1 && forall i :: 0 <= i < |body| ==> IsDigit(body[i]) then
      var n: int := DigitsValue(body);
      Returned(if negative then -n else n)
    else
      Raised
  }

  /** Reading back the digits of `n` gives `n`. */
  lemma {:induction false} DigitsRoundTrip(n: nat)
    ensures DigitsValue(Digits(n)) == n
    decreases n
  {
    if n >= 10 {
      var d := Digits(n / 10) + [DigitChar(n % 10)];
      assert d[..|d| - 1] == Digits(n / 10);
      DigitsRoundTrip(n / 10);
    }
  }

  /** `int(str(n)) == n` for every Python int. */
  lemma IntStrRoundTrip(n: int)
    ensures ParseInt(IntStr(n)) == Returned(n)
  {
    var s := IntStr(n);
    var m: nat := if n < 0 then -n else n;
    DigitsRoundTrip(m);
    if n < 0 {
      assert s[1..] == Digits(m);
    }
    assert Unsigned(s) == Digits(m);
    assert (|s| > 0 && s[0] == '-') == (n < 0);
  }

  /** `str()` of an int tells the int apart from every other int. */
  lemma IntStrInjective(a: int, b: int)
    requires IntStr(a) == IntStr(b)
    ensures a == b
  {
    IntStrRoundTrip(a);
    IntStrRoundTrip(b);
  }

  /** `sys.maxsize` of a 64-bit CPython: the largest `len()` an object can report. */
  const MaxSize: int := 0x7fff_ffff_ffff_ffff

  /** The most element slots CPython's allocator will request for one list:
      `sys.maxsize` divided by the 8-byte size of an object pointer. A longer
      list raises `MemoryError` on every 64-bit build, whatever the machine. */
  const MaxListLength: int := MaxSize / 8

  /** `str()` of the elements of a list of ints grows at the end: appending an
      element appends `", "` and that element's `str()`. */
  lemma {:induction false} JoinIntsSnoc(xs: seq<int>, x: int)
    ensures JoinInts(xs + [x]) == if xs == [] then IntStr(x) else JoinInts(xs) + ", " + IntStr(x)
    decreases |xs|
  {
    if |xs| == 1 {
      assert xs + [x] == [xs[0], x];
      assert [xs[0], x][1..] == [x];
    } else if |xs| >= 2 {
      var ys := xs + [x];
      assert ys[0] == xs[0];
      assert ys[1..] == xs[1..] + [x];
      JoinIntsSnoc(xs[1..], x);
      calc {
        JoinInts(ys);
        IntStr(xs[0]) + ", " + JoinInts(xs[1..] + [x]);
        IntStr(xs[0]) + ", " + (JoinInts(xs[1..]) + ", " + IntStr(x));
        (IntStr(xs[0]) + ", " + JoinInts(xs[1..])) + ", " + IntStr(x);
      }
    }
  }

  /** Python's `list(range(n))`: `0, 1, ..., n - 1`, empty when `n <= 0`. */
  function Range(n: int): (r: seq<int>)
    ensures |r| == if n > 0 then n else 0
    ensures forall i :: 0 <= i < |r| ==> r[i] == i
    decreases if n > 0 then n else 0
  {
    if n <= 0 then [] else Range(n - 1) + [n - 1]
  }

  /** `get` as Python sees it: the held object, or the object `None`. */
  function PyGet(m: Maybe<Value>): (r: Value)
    ensures m.Just? ==> r == m.value
    ensures m.Nothing? ==> r == NoneObj
  {
    match Get(m)
    case Some(v) => v
    case None => NoneObj
  }

  /** Since `Nothing().get()` is `None`, `get` cannot tell `Nothing()` from `Just(None)`. */
  lemma GetConflatesNothingWithJustNone()
    ensures PyGet(Nothing) == PyGet(Just(NoneObj))
    ensures Nothing != Just(NoneObj)
  {
  }
}
