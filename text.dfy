/**
 * The few string operations the benchmark relies on: Python's `str.strip()`,
 * `startswith`, `endswith`, `str(int)` and `int(str)`.
 */
module Text {
  import opened Wrappers

  /** Python's `str.isspace()` for one character. */
  predicate IsSpace(c: char) {
    c == ' ' || ('\t' <= c <= '\r') || ('\U{1C}' <= c <= '\U{1F}') ||
    c == '\U{85}' || c == '\U{A0}' || c == '\U{1680}' ||
    ('\U{2000}' <= c <= '\U{200A}') || c == '\U{2028}' || c == '\U{2029}' ||
    c == '\U{202F}' || c == '\U{205F}' || c == '\U{3000}'
  }

  /** Drops leading white space. */
  function TrimLeft(s: string): (r: string)
    ensures |r| <= |s|
  {
    if |s| > 0 && IsSpace(s[0]) then TrimLeft(s[1..]) else s
  }

  /** Drops trailing white space. */
  function TrimRight(s: string): (r: string)
    ensures |r| <= |s|
  {
    if |s| > 0 && IsSpace(s[|s| - 1]) then TrimRight(s[..|s| - 1]) else s
  }

  /** `TrimLeft` leaves a suffix of `s` that does not start with a space, after removing only spaces. */
  lemma {:induction false} TrimLeftShape(s: string)
    ensures var r := TrimLeft(s);
            && r == s[|s| - |r|..]
            && (forall k :: 0 <= k < |s| - |r| ==> IsSpace(s[k]))
            && (r != [] ==> !IsSpace(r[0]))
  {
    if |s| > 0 && IsSpace(s[0]) {
      TrimLeftShape(s[1..]);
      var r := TrimLeft(s);
      forall k | 0 <= k < |s| - |r|
        ensures IsSpace(s[k])
      {
        if k > 0 {
          assert s[k] == s[1..][k - 1];
        }
      }
    }
  }

  /** `TrimRight` leaves a prefix of `s` that does not end with a space, after removing only spaces. */
  lemma {:induction false} TrimRightShape(s: string)
    ensures var r := TrimRight(s);
            && r == s[..|r|]
            && (forall k :: |r| <= k < |s| ==> IsSpace(s[k]))
            && (r != [] ==> !IsSpace(r[|r| - 1]))
  {
    if |s| > 0 && IsSpace(s[|s| - 1]) {
      var front := s[..|s| - 1];
      TrimRightShape(front);
      var r := TrimRight(s);
      forall k | |r| <= k < |s|
        ensures IsSpace(s[k])
      {
        if k < |s| - 1 {
          assert s[k] == front[k];
        }
      }
    }
  }

  /** Python's `s.strip()` with no argument. */
  function Strip(s: string): string {
    TrimRight(TrimLeft(s))
  }

  /** `s` holds neither a line feed nor a carriage return. */
  predicate NoBreak(s: string) {
    '\n' !in s && '\r' !in s
  }

  /** Every character of `pad` is white space. */
  ghost predicate AllSpace(pad: string) {
    forall k :: 0 <= k < |pad| ==> IsSpace(pad[k])
  }

  /** Leading white space is dropped whatever follows it. */
  lemma {:induction false} TrimLeftPadded(pad: string, s: string)
    requires AllSpace(pad)
    ensures TrimLeft(pad + s) == TrimLeft(s)
  {
    if pad != [] {
      assert (pad + s)[1..] == pad[1..] + s;
      assert AllSpace(pad[1..]) by {
        forall k | 0 <= k < |pad| - 1
          ensures IsSpace(pad[1..][k])
        {
          assert pad[1..][k] == pad[k + 1];
        }
      }
      TrimLeftPadded(pad[1..], s);
    } else {
      assert pad + s == s;
    }
  }

  /** Trailing white space is dropped whatever precedes it. */
  lemma {:induction false} TrimRightPadded(s: string, pad: string)
    requires AllSpace(pad)
    ensures TrimRight(s + pad) == TrimRight(s)
  {
    if pad != [] {
      var n := |pad| - 1;
      assert (s + pad)[..|s + pad| - 1] == s + pad[..n];
      assert (s + pad)[|s + pad| - 1] == pad[n];
      TrimRightPadded(s, pad[..n]);
    } else {
      assert s + pad == s;
    }
  }

  /** `TrimLeft` stops inside `s` unless `s` is all white space. */
  lemma {:induction false} TrimLeftAppend(s: string, t: string)
    ensures TrimLeft(s) != [] ==> TrimLeft(s + t) == TrimLeft(s) + t
    ensures TrimLeft(s) == [] ==> TrimLeft(s + t) == TrimLeft(t)
  {
    if s == [] {
      assert s + t == t;
    } else if IsSpace(s[0]) {
      assert (s + t)[1..] == s[1..] + t;
      TrimLeftAppend(s[1..], t);
    }
  }

  /** White space around a string does not change what `strip()` returns. */
  lemma StripPadded(pad: string, s: string, pad': string)
    requires AllSpace(pad) && AllSpace(pad')
    ensures Strip(pad + s + pad') == Strip(s)
  {
    assert pad + s + pad' == pad + (s + pad');
    TrimLeftPadded(pad, s + pad');
    TrimLeftAppend(s, pad');
    if TrimLeft(s) == [] {
      assert pad' + [] == pad';
      TrimLeftPadded(pad', []);
    } else {
      TrimRightPadded(TrimLeft(s), pad');
    }
  }

  /** Stripping leaves alone a string that neither starts nor ends with white space. */
  lemma StripUnchanged(s: string)
    requires s != [] && !IsSpace(s[0]) && !IsSpace(s[|s| - 1])
    ensures Strip(s) == s
  {
  }

  predicate StartsWith(s: string, prefix: string) {
    |prefix| <= |s| && s[..|prefix|] == prefix
  }

  predicate EndsWith(s: string, suffix: string) {
    |suffix| <= |s| && s[|s| - |suffix|..] == suffix
  }

  /** One differing position inside the prefix is enough to rule out `StartsWith`. */
  lemma NotStartsWithAt(s: string, prefix: string, k: nat)
    requires k < |s| && k < |prefix| && s[k] != prefix[k]
    ensures !StartsWith(s, prefix)
  {
  }

  predicate IsDigit(c: char) {
    '0' <= c <= '9'
  }

  function DigitChar(d: nat): (c: char)
    requires d < 10
    ensures IsDigit(c) && c as int - '0' as int == d
  {
    ('0' as int + d) as char
  }

  /** Decimal digits of a natural number, most significant first, without leading zeros. */
  function Digits(n: nat): (r: string)
    ensures r != [] && forall k :: 0 <= k < |r| ==> IsDigit(r[k])
    ensures |r| > 1 ==> r[0] != '0'
  {
    if n < 10 then [DigitChar(n)] else Digits(n / 10) + [DigitChar(n % 10)]
  }

  /** Python's `str(n)` for an integer. */
  function DecimalString(n: int): (r: string)
    ensures r != [] && !IsSpace(r[0]) && !IsSpace(r[|r| - 1])
    ensures (r[0] == '-') == (n < 0)
  {
    if n < 0 then "-" + Digits(-n) else Digits(n)
  }

  /** A run of digits, with or without a sign, holds no line break. */
  lemma DecimalNoBreak(n: int)
    ensures NoBreak(DecimalString(n))
  {
    var r := DecimalString(n);
    var d := Digits(if n < 0 then -n else n);
    assert r == d || r == "-" + d;
  }

  /**
   * The digit part accepted by Python's `int(str)` in base 10: ASCII digits,
   * where one underscore may stand between two digits.
   */
  predicate IsDigitRun(d: string) {
    && d != [] && IsDigit(d[0]) && IsDigit(d[|d| - 1])
    && forall k :: 0 <= k < |d| && !IsDigit(d[k]) ==>
         d[k] == '_' && 0 < k < |d| - 1 && IsDigit(d[k - 1]) && IsDigit(d[k + 1])
  }

  /** The value of the digits of `d`, underscores skipped. */
  function DigitValue(d: string): nat {
    if d == [] then 0
    else if IsDigit(d[|d| - 1]) then DigitValue(d[..|d| - 1]) * 10 + (d[|d| - 1] as int - '0' as int)
    else DigitValue(d[..|d| - 1])
  }

  /**
   * Python's `int(s)` on a string: surrounding white space is ignored, then an
   * optional sign, then a run of digits; anything else is a failure (`None`).
   */
  function ParseInteger(s: string): (r: Option<int>)
    ensures r.Some? ==> Strip(s) != []
  {
    var t := Strip(s);
    if |t| > 0 && (t[0] == '+' || t[0] == '-') then
      if IsDigitRun(t[1..]) then
        var v: int := DigitValue(t[1..]);
        Some(if t[0] == '-' then -v else v)
      else None
    else if IsDigitRun(t) then Some(DigitValue(t))
    else None
  }

  lemma {:induction false} DigitsValue(n: nat)
    ensures IsDigitRun(Digits(n)) && DigitValue(Digits(n)) == n
  {
    if n >= 10 {
      DigitsValue(n / 10);
      var d := Digits(n);
      assert d[..|d| - 1] == Digits(n / 10);
    }
  }

  /** A bare digit run with no surrounding space reads as its value. */
  lemma ParseUnsigned(d: string)
    requires IsDigitRun(d) && Strip(d) == d
    ensures ParseInteger(d) == Some(DigitValue(d))
  {
    assert d[0] != '+' && d[0] != '-';
  }

  /** A minus sign before a digit run reads as the negated value. */
  lemma ParseNegative(d: string)
    requires IsDigitRun(d) && Strip("-" + d) == "-" + d
    ensures ParseInteger("-" + d) == Some(-(DigitValue(d) as int))
  {
    assert ("-" + d)[1..] == d;
  }

  /** `int(str(n)) == n`: the decimal rendering of an integer reads back as that integer. */
  lemma ParseDecimal(n: int)
    ensures ParseInteger(DecimalString(n)) == Some(n)
  {
    var s := DecimalString(n);
    assert Strip(s) == s by {
      StripUnchanged(s);
    }
    if n < 0 {
      DigitsValue(-n);
      ParseNegative(Digits(-n));
    } else {
      DigitsValue(n);
      ParseUnsigned(Digits(n));
    }
  }
}
