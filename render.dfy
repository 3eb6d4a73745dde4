/** `Just.__repr__` and `Nothing.__repr__` (maybe.py:30-32, 40-41) over the value
    domain of the demo.
 */
module Render {
  import opened Maybes
  import opened PyValues

  /** `repr()` of a `Maybe`: `Just "x"` when the held object is exactly a `str`,
      with no escaping of quotes inside it; `Just ` followed by `str(x)` for any
      other object; the literal `Nothing` for `Nothing()`. */
  function Repr(m: Maybe<Value>): (r: string)
    ensures m.Nothing? ==> r == "Nothing"
    ensures m.Just? && m.value.Str? ==> r == "Just \"" + m.value.s + "\""
    ensures m.Just? && !m.value.Str? ==> r == "Just " + PyStr(m.value)
  {
    match m
    case Nothing => "Nothing"
    case Just(x) =>
      "Just " + (if x.Str? then "\"" + x.s + "\"" else PyStr(x))
  }

  /** `str()` of anything but a string never begins with a double quote. */
  lemma PyStrNoLeadingQuote(v: Value)
    requires !v.Str?
    ensures |PyStr(v)| >= 1 && PyStr(v)[0] != '"'
  {
  }

  /** The quote rule: the character after `Just ` is a double quote exactly when
      the held object is a string. */
  lemma QuoteOnlyForStrings(v: Value)
    ensures |Repr(Just(v))| >= 6
    ensures Repr(Just(v))[5] == '"' <==> v.Str?
  {
    if !v.Str? {
      PyStrNoLeadingQuote(v);
    }
  }

  /** So the string "1" and the number 1 never render alike. */
  lemma StringAndIntRenderApart(s: string, n: int)
    ensures Repr(Just(Str(s))) != Repr(Just(Int(n)))
  {
    QuoteOnlyForStrings(Str(s));
    QuoteOnlyForStrings(Int(n));
  }

  /** No `Just` renders as `Nothing`. */
  lemma JustNeverRendersAsNothing(v: Value)
    ensures Repr(Just(v)) != Repr(Nothing)
  {
    assert Repr(Just(v))[0] == 'J';
  }

  /** The rendering of a held string can be read back: strip `Just "` and the closing quote. */
  lemma StrRenderingReadsBack(s: string)
    ensures var r := Repr(Just(Str(s))); |r| == |s| + 7 && r[6..|r| - 1] == s
  {
  }

  /** The rendering of a held int can be read back with `int()`. */
  lemma IntRenderingReadsBack(n: int)
    ensures var r := Repr(Just(Int(n))); |r| > 5 && ParseInt(r[5..]) == Returned(n)
  {
    var r := Repr(Just(Int(n)));
    assert r[5..] == IntStr(n);
    IntStrRoundTrip(n);
  }

  /** Inner quotes are not escaped: the string `a"b` renders as `Just "a"b"`. */
  lemma InnerQuotesUnescaped()
    ensures Repr(Just(Str("a\"b"))) == "Just \"a\"b\""
  {
  }
}
