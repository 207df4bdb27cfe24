/**
 * The handful of Python string built-ins the application relies on, over ASCII:
 * whitespace as `str.isspace()` and the regular-expression class `\s` see it,
 * `str.strip()`, the `in` operator on strings, `str.lower()`, `str(n)` for a
 * non-negative integer and `int(s)`.
 */
module Text {
  import opened Wrappers

  /** `str.isspace()` on the ASCII range: space, \t \n \v \f \r and the four separators 0x1C-0x1F. */
  predicate IsSpace(c: char) {
    c == ' ' || c == '\t' || c == '\n' || c == '\r' || c == '\U{000B}' || c == '\U{000C}'
    || ('\U{001C}' <= c <= '\U{001F}')
  }

  /** The regular-expression class `\d`, on ASCII. */
  predicate IsDigit(c: char) {
    '0' <= c <= '9'
  }

  predicate AllSpace(s: string) {
    forall i :: 0 <= i < |s| ==> IsSpace(s[i])
  }

  predicate AllDigits(s: string) {
    forall i :: 0 <= i < |s| ==> IsDigit(s[i])
  }

  /** Neither end is whitespace: the shape of every string `str.strip()` returns. */
  predicate Unpadded(s: string) {
    s == [] || (!IsSpace(s[0]) && !IsSpace(s[|s| - 1]))
  }

  function TrimLeft(s: string): (r: string)
    ensures r == [] || !IsSpace(r[0])
    ensures |r| <= |s| && r == s[|s| - |r|..]
    ensures AllSpace(s[..|s| - |r|])
  {
    if |s| > 0 && IsSpace(s[0]) then TrimLeft(s[1..]) else s
  }

  function TrimRight(s: string): (r: string)
    ensures r == [] || !IsSpace(r[|r| - 1])
    ensures |r| <= |s| && r == s[..|r|]
    ensures AllSpace(s[|r|..])
  {
    if |s| > 0 && IsSpace(s[|s| - 1]) then TrimRight(s[..|s| - 1]) else s
  }

  /**
   * `str.strip()`: the result has no whitespace at either end, and it is empty
   * exactly when the input is all whitespace (Python's `not s.strip()`).
   */
  function Strip(s: string): (r: string)
    ensures Unpadded(r)
    ensures |r| <= |s|
    ensures r == [] <==> AllSpace(s)
  {
    var t := TrimLeft(s);
    var r := TrimRight(t);
    assert t == [] ==> AllSpace(s) by {
      if t == [] {
        assert s[..|s| - |t|] == s;
      }
    }
    assert AllSpace(s) ==> t == [] by {
      if t != [] {
        assert t[0] == s[|s| - |t|];
      }
    }
    assert t != [] ==> r != [] && r[0] == t[0];
    r
  }

  /**
   * What `str.strip()` keeps: a slice of the input with only whitespace cut
   * from either end. With `Unpadded` on the result, this fixes it exactly.
   */
  lemma StripTrims(s: string)
    ensures exists i, j :: 0 <= i <= j <= |s| && Strip(s) == s[i..j] && AllSpace(s[..i]) && AllSpace(s[j..])
  {
    var t := TrimLeft(s);
    var r := TrimRight(t);
    var i := |s| - |t|;
    var j := i + |r|;
    assert s[i..j] == t[..|r|];
    assert s[j..] == t[|r|..];
    assert Strip(s) == s[i..j];
  }

  /** Stripping a string that is already unpadded changes nothing, so `str.strip()` is idempotent. */
  lemma {:induction false} StripUnpadded(s: string)
    requires Unpadded(s)
    ensures Strip(s) == s
  {
    assert TrimLeft(s) == s;
    assert TrimRight(s) == s;
  }

  /** `needle` occurs in `hay` starting at index `i`. */
  predicate OccursAt(hay: string, needle: string, i: int) {
    0 <= i <= |hay| - |needle| && hay[i..i + |needle|] == needle
  }

  /** Python's `needle in hay` on strings: some window of `hay` equals `needle`. */
  function Contains(hay: string, needle: string): (b: bool)
    ensures b <==> exists i :: OccursAt(hay, needle, i)
  {
    if |needle| > |hay| then false
    else if hay[..|needle|] == needle then
      assert OccursAt(hay, needle, 0);
      true
    else
      var rest := Contains(hay[1..], needle);
      assert rest <==> exists i :: OccursAt(hay, needle, i) by {
        if rest {
          var j :| OccursAt(hay[1..], needle, j);
          assert hay[1..][j..j + |needle|] == hay[j + 1..j + 1 + |needle|];
          assert OccursAt(hay, needle, j + 1);
        }
        if exists i :: OccursAt(hay, needle, i) {
          var i :| OccursAt(hay, needle, i);
          assert i != 0;
          assert hay[1..][i - 1..i - 1 + |needle|] == hay[i..i + |needle|];
          assert OccursAt(hay[1..], needle, i - 1);
        }
      }
      rest
  }

  /** `s.index(c)` when `c` occurs in `s`, and `|s|` when it does not. */
  function IndexOf(s: string, c: char): (r: nat)
    ensures r <= |s|
    ensures r < |s| ==> s[r] == c
    ensures forall k :: 0 <= k < r ==> s[k] != c
  {
    if s == [] then 0
    else if s[0] == c then 0
    else 1 + IndexOf(s[1..], c)
  }

  /** The first occurrence is the one with no earlier occurrence. */
  lemma IndexOfFirst(s: string, c: char, i: nat)
    requires i < |s| && s[i] == c
    requires forall k :: 0 <= k < i ==> s[k] != c
    ensures IndexOf(s, c) == i
  {
  }

  function LowerChar(c: char): char {
    if 'A' <= c <= 'Z' then (c as int + 32) as char else c
  }

  /** `str.lower()` on ASCII letters. */
  function Lower(s: string): (r: string)
    ensures |r| == |s|
    ensures forall i :: 0 <= i < |s| ==> r[i] == LowerChar(s[i])
  {
    seq(|s|, i requires 0 <= i < |s| => LowerChar(s[i]))
  }

  function DigitChar(d: nat): char
    requires d < 10
  {
    ('0' as int + d) as char
  }

  function DigitValue(c: char): nat
    requires IsDigit(c)
  {
    c as int - '0' as int
  }

  /** `str(n)` for a non-negative integer: decimal digits, no leading zero. */
  function NatToString(n: nat): (s: string)
    ensures |s| > 0 && AllDigits(s)
    ensures |s| == 1 || s[0] != '0'
  {
    if n < 10 then [DigitChar(n)] else NatToString(n / 10) + [DigitChar(n % 10)]
  }

  /** The number a string of decimal digits denotes. */
  function DecimalValue(s: string): nat
    requires AllDigits(s)
  {
    if s == [] then 0 else 10 * DecimalValue(s[..|s| - 1]) + DigitValue(s[|s| - 1])
  }

  /** Reading back what `str(n)` wrote gives `n`. */
  lemma {:induction false} DecimalRoundTrip(n: nat)
    ensures DecimalValue(NatToString(n)) == n
  {
    if n >= 10 {
      var s := NatToString(n);
      assert s[..|s| - 1] == NatToString(n / 10);
      DecimalRoundTrip(n / 10);
    }
  }

  /** Distinct numbers render differently, so keys built from them never collide. */
  lemma NatToStringInjective(m: nat, n: nat)
    requires NatToString(m) == NatToString(n)
    ensures m == n
  {
    DecimalRoundTrip(m);
    DecimalRoundTrip(n);
  }

  /**
   * `int(s)` on a string: surrounding whitespace is ignored, then an optional
   * sign and at least one decimal digit; anything else raises ValueError (None).
   */
  function ParseInt(s: string): (r: Option<int>)
    ensures r.Some? ==> exists i :: 0 <= i < |s| && IsDigit(s[i])
  {
    var t := Strip(s);
    if t == [] then None
    else if (t[0] == '+' || t[0] == '-') && |t| > 1 && AllDigits(t[1..]) then
      assert IsDigit(s[|s| - |TrimLeft(s)| + 1]) by {
        assert TrimRight(TrimLeft(s)) == t;
        assert TrimLeft(s)[1] == t[1];
      }
      var v: int := DecimalValue(t[1..]);
      Some(if t[0] == '-' then -v else v)
    else if AllDigits(t) then
      assert IsDigit(s[|s| - |TrimLeft(s)|]) by {
        assert TrimLeft(s)[0] == t[0];
      }
      Some(DecimalValue(t))
    else None
  }

  /** `int(str(n)) == n`. */
  lemma ParseIntRoundTrip(n: nat)
    ensures ParseInt(NatToString(n)) == Some(n)
  {
    var s := NatToString(n);
    assert Unpadded(s);
    StripUnpadded(s);
    DecimalRoundTrip(n);
  }
}
