/**
 * Python's `int(text)` on a string, base 10: surrounding whitespace is
 * stripped, an optional sign is read, and the rest must be decimal digits,
 * with single underscores allowed between two digits. Leading zeros are
 * accepted. Anything else raises ValueError, modelled as `None`.
 * `ShowInt` is the decimal rendering of an integer, the form in which a
 * coverage report writes its counts.
 */
module PyInt {
  import opened Wrappers

  /** The characters that `int()` strips around an ASCII numeral: tab,
      line feed, vertical tab, form feed, carriage return and space. */
  predicate IsSpace(c: char)
  {
    9 <= c as int <= 13 || c == ' '
  }

  predicate IsDigit(c: char)
  {
    '0' <= c <= '9'
  }

  predicate AllDigits(s: string)
  {
    forall i :: 0 <= i < |s| ==> IsDigit(s[i])
  }

  function TrimStart(s: string): (t: string)
    ensures |t| <= |s|
    ensures |t| > 0 ==> !IsSpace(t[0])
  {
    if |s| > 0 && IsSpace(s[0]) then TrimStart(s[1..]) else s
  }

  function TrimEnd(s: string): (t: string)
    ensures |t| <= |s|
    ensures |t| > 0 ==> !IsSpace(t[|t| - 1])
  {
    if |s| > 0 && IsSpace(s[|s| - 1]) then TrimEnd(s[..|s| - 1]) else s
  }

  /** `s.strip()` restricted to the characters of `IsSpace`. */
  function Strip(s: string): string
  {
    TrimEnd(TrimStart(s))
  }

  /** Digits, with an underscore allowed only between two digits. */
  predicate WellGrouped(s: string)
  {
    && |s| > 0
    && IsDigit(s[0])
    && IsDigit(s[|s| - 1])
    && (forall i :: 0 <= i < |s| ==> IsDigit(s[i]) || s[i] == '_')
    && (forall i :: 0 <= i < |s| - 1 && s[i] == '_' ==> IsDigit(s[i + 1]))
  }

  /** The digits of a grouped numeral, underscores dropped. */
  function Ungrouped(s: string): (d: string)
    requires forall i :: 0 <= i < |s| ==> IsDigit(s[i]) || s[i] == '_'
    ensures AllDigits(d)
  {
    if |s| == 0 then ""
    else if s[0] == '_' then Ungrouped(s[1..])
    else [s[0]] + Ungrouped(s[1..])
  }

  /** The value of a decimal numeral, most significant digit first. */
  function DigitsValue(d: string): nat
    requires AllDigits(d)
  {
    if |d| == 0 then 0
    else DigitsValue(d[..|d| - 1]) * 10 + (d[|d| - 1] as int - '0' as int)
  }

  function ParseUnsigned(s: string): Option<nat>
  {
    if WellGrouped(s) then Some(DigitsValue(Ungrouped(s))) else None
  }

  /** `int(s)`: `Some(n)` where Python returns n, `None` where it raises ValueError. */
  function ParseInt(s: string): Option<int>
  {
    var t := Strip(s);
    var signed := |t| > 0 && (t[0] == '-' || t[0] == '+');
    match ParseUnsigned(if signed then t[1..] else t)
    case None => None
    case Some(n) =>
      var v: int := if signed && t[0] == '-' then -(n as int) else n;
      Some(v)
  }

  /** `int()` accepts a text only if it contains a digit. */
  lemma ParseIntNeedsDigit(s: string)
    ensures ParseInt(s).Some? ==> exists i :: 0 <= i < |s| && IsDigit(s[i])
  {
    var t := Strip(s);
    var signed := |t| > 0 && (t[0] == '-' || t[0] == '+');
    var u := if signed then t[1..] else t;
    if ParseUnsigned(u).Some? {
      assert IsDigit(u[0]);
      ContainsDigit(s, u);
    }
  }

  /** A digit found in the stripped text (or past its sign) is a digit of the text. */
  lemma ContainsDigit(s: string, u: string)
    requires |u| > 0 && IsDigit(u[0])
    requires u == Strip(s) || (|Strip(s)| > 0 && u == Strip(s)[1..])
    ensures exists i :: 0 <= i < |s| && IsDigit(s[i])
  {
    var t := Strip(s);
    var j := if u == t then 0 else 1;
    assert t[j] == u[0];
    var k := Offset(s, j);
    assert IsDigit(s[k]);
  }

  /** Every character of `Strip(s)` is a character of `s`. */
  lemma Offset(s: string, j: nat) returns (k: nat)
    requires j < |Strip(s)|
    ensures k < |s| && s[k] == Strip(s)[j]
  {
    var a := TrimStart(s);
    assert Strip(s)[j] == a[j] by { TrimEndIsPrefix(a); }
    k := TrimStartOffset(s, j);
  }

  lemma {:induction false} TrimEndIsPrefix(s: string)
    ensures TrimEnd(s) <= s
  {
    if |s| > 0 && IsSpace(s[|s| - 1]) {
      TrimEndIsPrefix(s[..|s| - 1]);
    }
  }

  lemma {:induction false} TrimStartOffset(s: string, j: nat) returns (k: nat)
    requires j < |TrimStart(s)|
    ensures k < |s| && s[k] == TrimStart(s)[j]
  {
    if |s| > 0 && IsSpace(s[0]) {
      k := TrimStartOffset(s[1..], j);
      k := k + 1;
    } else {
      k := j;
    }
  }

  function DigitChar(n: nat): (c: char)
    requires n < 10
    ensures IsDigit(c) && c as int - '0' as int == n
  {
    ('0' as int + n) as char
  }

  /** The shortest decimal numeral of `n`. */
  function ShowNat(n: nat): (s: string)
    ensures |s| > 0 && AllDigits(s)
  {
    if n < 10 then [DigitChar(n)] else ShowNat(n / 10) + [DigitChar(n % 10)]
  }

  /** `str(n)`: a minus sign before the numeral of a negative number. */
  function ShowInt(n: int): string
  {
    if n < 0 then "-" + ShowNat(-n) else ShowNat(n)
  }

  lemma {:induction false} DigitsValueShowNat(n: nat)
    ensures DigitsValue(ShowNat(n)) == n
  {
    if n >= 10 {
      var s := ShowNat(n);
      assert s[..|s| - 1] == ShowNat(n / 10);
      DigitsValueShowNat(n / 10);
    }
  }

  lemma {:induction false} UngroupedDigits(s: string)
    requires AllDigits(s)
    ensures Ungrouped(s) == s
  {
    if |s| > 0 {
      UngroupedDigits(s[1..]);
      assert [s[0]] + s[1..] == s;
    }
  }

  lemma StripUnpadded(s: string)
    requires |s| > 0 && !IsSpace(s[0]) && !IsSpace(s[|s| - 1])
    ensures Strip(s) == s
  {
  }

  lemma ParseShowNat(m: nat)
    ensures ParseUnsigned(ShowNat(m)) == Some(m)
  {
    UngroupedDigits(ShowNat(m));
    DigitsValueShowNat(m);
  }

  /** Parsing the decimal rendering of any integer gives that integer back. */
  lemma ParseShowInt(n: int)
    ensures ParseInt(ShowInt(n)) == Some(n)
  {
    var s := ShowInt(n);
    StripUnpadded(s);
    if n < 0 {
      ParseShowNat(-n);
      assert s[0] == '-' && s[1..] == ShowNat(-n);
    } else {
      ParseShowNat(n);
      assert IsDigit(s[0]);
    }
  }
}
