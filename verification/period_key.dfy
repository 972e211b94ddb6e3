/** The period key built on save (app.py:76-78): `str(year) + "_" + month`,
    with `str` on an integer written out as Python prints it, and the parse
    that recovers the year and the month from a key. */
module PeriodKey {
  import opened Wrappers

  predicate IsDigit(c: char) {
    '0' <= c <= '9'
  }

  function DigitChar(d: nat): (c: char)
    requires d < 10
    ensures IsDigit(c)
  {
    "0123456789"[d]
  }

  function DigitValue(c: char): (d: nat)
    requires IsDigit(c)
    ensures d < 10
  {
    (c as int - '0' as int) as nat
  }

  /** Python's `str(n)` for a non-negative integer: decimal, no leading zeros. */
  function NatToString(n: nat): (s: string)
    ensures 0 < |s|
    ensures forall i :: 0 <= i < |s| ==> IsDigit(s[i])
    ensures |s| > 1 ==> s[0] != '0'
    decreases n
  {
    if n < 10 then [DigitChar(n)] else NatToString(n / 10) + [DigitChar(n % 10)]
  }

  /** Python's `str(y)` for any integer: a minus sign before negative values. */
  function IntToString(y: int): (s: string)
    ensures 0 < |s|
    ensures forall i :: 0 <= i < |s| ==> s[i] == '-' || IsDigit(s[i])
  {
    if y < 0 then "-" + NatToString(-y) else NatToString(y)
  }

  /** The key a saved period is stored under. */
  function Key(year: int, month: string): (k: string)
    ensures |k| > |IntToString(year)|
    ensures k[..|IntToString(year)|] == IntToString(year)
    ensures k[|IntToString(year)|] == '_'
    ensures k[|IntToString(year)| + 1..] == month
  {
    IntToString(year) + "_" + month
  }

  /** Reads a non-empty string of decimal digits back into its value. */
  function ParseNat(s: string): nat
    requires forall i :: 0 <= i < |s| ==> IsDigit(s[i])
  {
    if |s| == 0 then 0 else ParseNat(s[..|s| - 1]) * 10 + DigitValue(s[|s| - 1])
  }

  /** Reads Python's integer spelling back. */
  function ParseInt(s: string): Option<int>
  {
    if 0 < |s| && s[0] == '-' then
      if 1 < |s| && forall i :: 1 <= i < |s| ==> IsDigit(s[i])
      then Some(0 - ParseNat(s[1..]) as int) else None
    else if 0 < |s| && forall i :: 0 <= i < |s| ==> IsDigit(s[i])
    then Some(ParseNat(s)) else None
  }

  /** The position of the first underscore, if any. */
  function FirstUnderscore(k: string): (r: Option<nat>)
    ensures r.Some? ==> r.value < |k| && k[r.value] == '_'
    ensures r.Some? ==> forall i :: 0 <= i < r.value ==> k[i] != '_'
    ensures r.None? ==> forall i :: 0 <= i < |k| ==> k[i] != '_'
  {
    if |k| == 0 then None
    else if k[0] == '_' then Some(0)
    else match FirstUnderscore(k[1..])
      case None => None
      case Some(p) => Some(p + 1)
  }

  /** Splits a key at its first underscore into year and month; None when
      the key is not of that shape. */
  function ParseKey(k: string): Option<(int, string)>
  {
    match FirstUnderscore(k)
    case None => None
    case Some(p) =>
      match ParseInt(k[..p])
      case None => None
      case Some(y) => Some((y, k[p + 1..]))
  }

  lemma {:induction false} NatRoundTrip(n: nat)
    ensures ParseNat(NatToString(n)) == n
    decreases n
  {
    var s := NatToString(n);
    if n >= 10 {
      NatRoundTrip(n / 10);
      assert s[..|s| - 1] == NatToString(n / 10);
      assert DigitValue(DigitChar(n % 10)) == n % 10 by {
        assert "0123456789"[n % 10] as int == '0' as int + n % 10;
      }
    } else {
      assert DigitValue(DigitChar(n)) == n by {
        assert "0123456789"[n] as int == '0' as int + n;
      }
    }
  }

  lemma IntRoundTrip(y: int)
    ensures ParseInt(IntToString(y)) == Some(y)
  {
    if y < 0 {
      var ns := NatToString(-y);
      var s := "-" + ns;
      NatRoundTrip(-y);
      assert s[1..] == ns;
      assert forall i :: 1 <= i < |s| ==> IsDigit(s[i]);
      assert ParseInt(s) == Some(0 - ParseNat(ns) as int);
    } else {
      var s := NatToString(y);
      NatRoundTrip(y);
      assert s[0] != '-';
      assert ParseInt(s) == Some(ParseNat(s) as int);
    }
  }

  /** The year and month are recovered from the key they built: the month is
      everything after the first underscore, because the year's spelling
      holds none. */
  lemma KeyRoundTrip(year: int, month: string)
    ensures ParseKey(Key(year, month)) == Some((year, month))
  {
    var k := Key(year, month);
    var ys := IntToString(year);
    assert forall i :: 0 <= i < |ys| ==> k[i] == ys[i];
    assert FirstUnderscore(k) == Some(|ys|);
    IntRoundTrip(year);
  }

  /** Distinct periods never share a key. */
  lemma KeyInjective(y1: int, m1: string, y2: int, m2: string)
    requires Key(y1, m1) == Key(y2, m2)
    ensures y1 == y2 && m1 == m2
  {
    KeyRoundTrip(y1, m1);
    KeyRoundTrip(y2, m2);
  }
}
