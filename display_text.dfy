/** The display text: what `getDisplayValue` reads, how many decimal points
    it holds, and when it is a decimal numeral as digit entry builds them. */
module DisplayText {

  /** `getDisplayValue()`: the display text, or "0" when the display is empty. */
  function DisplayValue(text: string): (r: string)
    ensures r != []
    ensures text != [] ==> r == text
    ensures text == [] ==> r == "0"
  {
    if text == [] then "0" else text
  }

  predicate IsDigit(c: char) {
    '0' <= c <= '9'
  }

  /** What the digit keys and the keys '0' to '9' pass to `inputDigit`. */
  predicate IsDigitKey(d: string) {
    |d| == 1 && IsDigit(d[0])
  }

  predicate StartsWithMinus(s: string) {
    |s| > 0 && s[0] == '-'
  }

  /** The number of decimal points in `s`. */
  function Dots(s: string): nat {
    if s == [] then 0 else (if s[0] == '.' then 1 else 0) + Dots(s[1..])
  }

  lemma {:induction false} DotsAppend(a: string, b: string)
    ensures Dots(a + b) == Dots(a) + Dots(b)
  {
    if a == [] {
      assert a + b == b;
    } else {
      assert (a + b)[1..] == a[1..] + b;
      DotsAppend(a[1..], b);
    }
  }

  /** `s.includes('.')` holds exactly when `s` has at least one decimal point. */
  lemma {:induction false} DotsCountsIncludes(s: string)
    ensures '.' in s <==> Dots(s) > 0
  {
    if s != [] {
      DotsCountsIncludes(s[1..]);
      assert s == [s[0]] + s[1..];
      assert '.' in s <==> s[0] == '.' || '.' in s[1..];
    }
  }

  /** The display never holds a second decimal point. */
  predicate SingleDot(s: string) {
    Dots(s) <= 1
  }

  /** An unsigned decimal numeral as digit entry produces it: a leading digit,
      then digits with at most one decimal point (a trailing point allowed). */
  predicate IsUnsignedNumeral(t: string) {
    |t| > 0 && IsDigit(t[0]) &&
    (forall i :: 0 <= i < |t| ==> IsDigit(t[i]) || t[i] == '.') &&
    SingleDot(t)
  }

  /** A decimal numeral, with an optional leading minus sign. */
  predicate IsNumeral(s: string) {
    IsUnsignedNumeral(s) || (StartsWithMinus(s) && IsUnsignedNumeral(s[1..]))
  }

  /** Appending one digit or one point (when there is none yet) to a numeral
      gives a numeral. */
  lemma AppendToNumeral(s: string, x: string)
    requires IsNumeral(s)
    requires IsDigitKey(x) || (x == "." && '.' !in s)
    ensures IsNumeral(s + x)
  {
    DotsAppend(s, x);
    DotsCountsIncludes(s);
    var t := if IsUnsignedNumeral(s) then s else s[1..];
    assert t == s || (StartsWithMinus(s) && t == s[1..]);
    DotsAppend(t, x);
    if t == s {
      assert IsUnsignedNumeral(s + x);
    } else {
      assert (s + x)[1..] == t + x;
      assert s == [s[0]] + t;
      DotsAppend([s[0]], t);
      assert IsUnsignedNumeral(t + x);
    }
  }
}
