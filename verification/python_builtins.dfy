/**
  The small part of Python's runtime that the dtype-name codec relies on:
  raised exceptions as a failure-compatible result, `str.isdigit` on one
  character, and the built-in `int()` applied to a string (base 10).
  Characters are restricted to ASCII: non-ASCII digits and white space are
  not modelled.
 */
module PyBuiltins {

  /** The exceptions the codec can raise. */
  datatype Exception = TypeError | ValueError | UnboundLocalError

  /** A Python call either returns a value or raises an exception. */
  datatype Result<+T> = Ok(value: T) | Raise(error: Exception) {

    predicate IsFailure() {
      Raise?
    }

    function PropagateFailure<U>(): Result<U>
      requires Raise?
    {
      Raise(error)
    }

    function Extract(): T
      requires Ok?
    {
      value
    }
  }

  /** Python's `None` next to a proper value. */
  datatype Option<+T> = None | Some(value: T)

  predicate IsDigit(c: char) {
    '0' <= c <= '9'
  }

  /**
    The characters `int()` strips from both ends of its argument: the ASCII
    space, tab, line feed, vertical tab, form feed and carriage return.
   */
  predicate IsSpace(c: char) {
    c == ' ' || 9 <= c as int <= 13
  }

  predicate NoDigit(s: string) {
    forall k :: 0 <= k < |s| ==> !IsDigit(s[k])
  }

  predicate AllDigits(s: string) {
    forall k :: 0 <= k < |s| ==> IsDigit(s[k])
  }

  function DigitValue(c: char): (d: nat)
    requires IsDigit(c)
    ensures d < 10
    ensures DigitChar(d) == c
  {
    c as int - '0' as int
  }

  function DigitChar(d: nat): (c: char)
    requires d < 10
    ensures IsDigit(c)
  {
    ('0' as int + d) as char
  }

  /** Value of a string of decimal digits, most significant first. */
  function DigitsValue(ds: string): nat
    requires AllDigits(ds)
  {
    if |ds| == 0 then 0
    else 10 * DigitsValue(ds[..|ds| - 1]) + DigitValue(ds[|ds| - 1])
  }

  /** The decimal spelling of a natural number, as `str(n)` writes it. */
  function Decimal(n: nat): (r: string)
    ensures |r| > 0 && AllDigits(r)
    ensures |r| > 1 ==> r[0] != '0'
  {
    if n < 10 then [DigitChar(n)] else Decimal(n / 10) + [DigitChar(n % 10)]
  }

  /** Removes leading white space. */
  function StripLeft(s: string): (r: string)
    ensures |r| <= |s| && r == s[|s| - |r|..]
  {
    if |s| > 0 && IsSpace(s[0]) then StripLeft(s[1..]) else s
  }

  /** Removes trailing white space. */
  function StripRight(s: string): (r: string)
    ensures |r| <= |s| && r == s[..|r|]
  {
    if |s| > 0 && IsSpace(s[|s| - 1]) then StripRight(s[..|s| - 1]) else s
  }

  /** Removes the white space at both ends, as `int()` does before parsing. */
  function Strip(s: string): string {
    StripRight(StripLeft(s))
  }

  /**
    The digit part `int()` accepts: decimal digits, where a single
    underscore may separate two digits.
   */
  predicate ValidDigitPart(d: string) {
    && |d| > 0
    && IsDigit(d[0])
    && IsDigit(d[|d| - 1])
    && (forall k :: 0 <= k < |d| ==> IsDigit(d[k]) || d[k] == '_')
    && (forall k :: 0 <= k < |d| ==> DigitFollowsUnderscore(d, k))
  }

  /** An underscore at `k` is followed by a digit. */
  predicate DigitFollowsUnderscore(d: string, k: nat)
    requires k < |d|
  {
    d[k] == '_' ==> k + 1 < |d| && IsDigit(d[k + 1])
  }

  function RemoveUnderscores(d: string): (r: string)
    ensures (forall k :: 0 <= k < |d| ==> IsDigit(d[k]) || d[k] == '_') ==> AllDigits(r)
    ensures |r| <= |d|
  {
    if |d| == 0 then []
    else if d[0] == '_' then RemoveUnderscores(d[1..])
    else [d[0]] + RemoveUnderscores(d[1..])
  }

  function DigitPartValue(d: string): nat
    requires ValidDigitPart(d)
  {
    DigitsValue(RemoveUnderscores(d))
  }

  /** Sign handling of `int()` on an already stripped string. */
  function ParseSigned(t: string): (r: Result<int>)
    ensures r.Raise? ==> r.error == ValueError
    ensures NoDigit(t) ==> r.Raise?
  {
    if |t| > 0 && (t[0] == '+' || t[0] == '-') then
      var body := t[1..];
      if ValidDigitPart(body) then
        var v: int := DigitPartValue(body);
        Ok(if t[0] == '-' then -v else v)
      else
        Raise(ValueError)
    else if ValidDigitPart(t) then
      Ok(DigitPartValue(t))
    else
      Raise(ValueError)
  }

  /**
    Python's `int(s)` for a string `s`: white space at both ends is ignored,
    an optional sign comes first, and the rest must be a digit part.
    Anything else raises `ValueError`.
   */
  function ParseInt(s: string): (r: Result<int>)
    ensures r.Raise? ==> r.error == ValueError
  {
    ParseSigned(Strip(s))
  }

  lemma ParseSignedUnsigned(u: string)
    requires |u| == 0 || IsDigit(u[0])
    ensures ParseSigned(u).Ok? ==> ParseSigned(u).value >= 0
  {
  }

  /** A number `int()` reads from text starting with a digit has no sign. */
  lemma ParseIntNonNegative(t: string)
    requires |t| > 0 && IsDigit(t[0])
    ensures ParseInt(t).Ok? ==> ParseInt(t).value >= 0
  {
    assert StripLeft(t) == t;
    var u := StripRight(t);
    assert u == t[..|u|];
    assert |u| == 0 || u[0] == t[0];
    ParseSignedUnsigned(u);
  }

  /** `int()` needs at least one digit. */
  lemma ParseIntNeedsDigit(s: string)
    ensures NoDigit(s) ==> ParseInt(s) == Raise(ValueError)
  {
    if NoDigit(s) {
      var l := StripLeft(s);
      var t := StripRight(l);
      forall k | 0 <= k < |t|
        ensures !IsDigit(t[k])
      {
        assert t[k] == l[k] == s[|s| - |l| + k];
      }
    }
  }

  lemma {:induction false} DigitsValueOfDecimal(n: nat)
    ensures DigitsValue(Decimal(n)) == n
  {
    var ds := Decimal(n);
    if n < 10 {
      assert ds[..0] == [];
    } else {
      assert ds[..|ds| - 1] == Decimal(n / 10);
      DigitsValueOfDecimal(n / 10);
    }
  }

  lemma {:induction false} RemoveUnderscoresOfDigits(ds: string)
    requires AllDigits(ds)
    ensures RemoveUnderscores(ds) == ds
  {
    if |ds| > 0 {
      RemoveUnderscoresOfDigits(ds[1..]);
      assert [ds[0]] + ds[1..] == ds;
    }
  }

  lemma StripOfDigits(ds: string)
    requires |ds| > 0 && AllDigits(ds)
    ensures Strip(ds) == ds
  {
    assert !IsSpace(ds[0]) && !IsSpace(ds[|ds| - 1]);
  }

  /** `int()` of a plain string of digits is its decimal value. */
  lemma DigitsAreDigitPart(ds: string)
    requires |ds| > 0 && AllDigits(ds)
    ensures ValidDigitPart(ds)
  {
    forall k | 0 <= k < |ds|
      ensures DigitFollowsUnderscore(ds, k)
    {
      assert IsDigit(ds[k]);
    }
  }

  lemma ParseSignedOfDigitPart(t: string)
    requires ValidDigitPart(t)
    ensures ParseSigned(t) == Ok(DigitPartValue(t))
  {
    assert IsDigit(t[0]);
  }

  lemma ParseIntOfDigits(ds: string)
    requires |ds| > 0 && AllDigits(ds)
    ensures ParseInt(ds) == Ok(DigitsValue(ds))
  {
    StripOfDigits(ds);
    DigitsAreDigitPart(ds);
    ParseSignedOfDigitPart(ds);
    RemoveUnderscoresOfDigits(ds);
  }

  /** `int(str(n)) == n`: the decimal spelling parses back to the number. */
  lemma ParseIntOfDecimal(n: nat)
    ensures ParseInt(Decimal(n)) == Ok(n)
  {
    ParseIntOfDigits(Decimal(n));
    DigitsValueOfDecimal(n);
  }

  lemma {:induction false} DigitsValueLeadingZero(ds: string)
    requires AllDigits(ds)
    ensures AllDigits("0" + ds)
    ensures DigitsValue("0" + ds) == DigitsValue(ds)
  {
    var z := "0" + ds;
    assert AllDigits(z) by {
      assert forall k :: 0 < k < |z| ==> z[k] == ds[k - 1];
    }
    if |ds| > 0 {
      assert z[..|z| - 1] == "0" + ds[..|ds| - 1];
      assert z[|z| - 1] == ds[|ds| - 1];
      DigitsValueLeadingZero(ds[..|ds| - 1]);
    } else {
      assert z[..0] == [];
    }
  }

  /** `int()` accepts leading zeros, so a number has more than one spelling. */
  lemma ParseIntLeadingZero(ds: string)
    requires |ds| > 0 && AllDigits(ds)
    ensures ParseInt("0" + ds) == ParseInt(ds)
  {
    DigitsValueLeadingZero(ds);
    ParseIntOfDigits("0" + ds);
    ParseIntOfDigits(ds);
  }

  lemma {:induction false} RemoveUnderscoresConcat(x: string, y: string)
    ensures RemoveUnderscores(x + y) == RemoveUnderscores(x) + RemoveUnderscores(y)
  {
    if |x| > 0 {
      assert (x + y)[1..] == x[1..] + y;
      RemoveUnderscoresConcat(x[1..], y);
    } else {
      assert x + y == y;
    }
  }

  lemma StripOfTrimmed(s: string)
    requires |s| > 0 && !IsSpace(s[0]) && !IsSpace(s[|s| - 1])
    ensures Strip(s) == s
  {
  }

  lemma SeparatedDigitPart(a: string, b: string)
    requires |a| > 0 && AllDigits(a)
    requires |b| > 0 && AllDigits(b)
    ensures ValidDigitPart(a + "_" + b)
  {
    var t := a + "_" + b;
    assert forall i :: 0 <= i < |a| ==> t[i] == a[i];
    assert t[|a|] == '_';
    assert forall i :: |a| < i < |t| ==> t[i] == b[i - |a| - 1];
  }

  lemma SeparatedDigits(a: string, b: string)
    requires AllDigits(a) && AllDigits(b)
    ensures RemoveUnderscores(a + "_" + b) == a + b
  {
    var u := "_";
    assert u[1..] == [];
    assert RemoveUnderscores(u) == [];
    RemoveUnderscoresConcat(a, u);
    RemoveUnderscoresOfDigits(a);
    assert RemoveUnderscores(a + u) == a;
    RemoveUnderscoresConcat(a + u, b);
    RemoveUnderscoresOfDigits(b);
  }

  /** `int()` accepts one underscore between two digits and ignores it. */
  lemma ParseIntUnderscore(a: string, b: string)
    requires |a| > 0 && AllDigits(a)
    requires |b| > 0 && AllDigits(b)
    ensures AllDigits(a + b)
    ensures ParseInt(a + "_" + b) == Ok(DigitsValue(a + b))
  {
    var t := a + "_" + b;
    assert t[0] == a[0] && t[|t| - 1] == b[|b| - 1];
    StripOfTrimmed(t);
    SeparatedDigitPart(a, b);
    SeparatedDigits(a, b);
    assert AllDigits(a + b);
    assert !(t[0] == '+' || t[0] == '-');
  }

  lemma {:induction false} StripRightOfTrailing(ds: string, ws: string)
    requires |ds| > 0 && !IsSpace(ds[|ds| - 1])
    requires forall k :: 0 <= k < |ws| ==> IsSpace(ws[k])
    ensures StripRight(ds + ws) == ds
  {
    if |ws| == 0 {
      assert ds + ws == ds;
    } else {
      var t := ds + ws;
      assert t[|t| - 1] == ws[|ws| - 1];
      assert t[..|t| - 1] == ds + ws[..|ws| - 1];
      StripRightOfTrailing(ds, ws[..|ws| - 1]);
    }
  }

  /** `int()` ignores white space after the digits. */
  lemma ParseIntTrailingSpace(ds: string, ws: string)
    requires |ds| > 0 && AllDigits(ds)
    requires forall k :: 0 <= k < |ws| ==> IsSpace(ws[k])
    ensures ParseInt(ds + ws) == Ok(DigitsValue(ds))
  {
    var t := ds + ws;
    assert t[0] == ds[0];
    assert StripLeft(t) == t;
    StripRightOfTrailing(ds, ws);
    ParseIntOfDigits(ds);
  }

  /** A trailing underscore makes `int()` raise `ValueError`. */
  lemma ParseIntTrailingUnderscore(ds: string)
    requires |ds| > 0 && AllDigits(ds)
    ensures ParseInt(ds + "_") == Raise(ValueError)
  {
    var t := ds + "_";
    assert t[0] == ds[0] && t[|t| - 1] == '_';
    ParseIntEndsInNonDigit(t);
  }

  /**
    Unsigned text whose last character is neither a digit nor white space,
    such as "8_", "8x" or "8\x1c", is not a number.
   */
  lemma ParseIntEndsInNonDigit(t: string)
    requires |t| > 0 && IsDigit(t[0])
    requires !IsDigit(t[|t| - 1]) && !IsSpace(t[|t| - 1])
    ensures ParseInt(t) == Raise(ValueError)
  {
    StripOfTrimmed(t);
    assert !ValidDigitPart(t);
  }

  /** Two underscores in a row make `int()` raise `ValueError`. */
  lemma ParseIntDoubleUnderscore(a: string, b: string)
    requires |a| > 0 && AllDigits(a)
    requires |b| > 0 && AllDigits(b)
    ensures ParseInt(a + "__" + b) == Raise(ValueError)
  {
    var t := a + "__" + b;
    assert t[0] == a[0] && t[|t| - 1] == b[|b| - 1];
    StripOfTrimmed(t);
    assert t[|a|] == '_' && t[|a| + 1] == '_';
    assert !DigitFollowsUnderscore(t, |a|);
  }
}
