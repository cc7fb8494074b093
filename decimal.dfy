/** Decimal rendering of whole numbers, as `String(n)`, `padStart` and the
    `en-US` digit grouping of `Intl.NumberFormat` produce it, and the value a
    rendered string denotes. */
module Decimal {

  predicate IsDigit(c: char) {
    '0' <= c <= '9'
  }

  function DigitChar(d: nat): (c: char)
    requires d < 10
    ensures IsDigit(c) && c as int - '0' as int == d
  {
    ('0' as int + d) as char
  }

  /** The number denoted by the digits of `s`, read left to right; every other
      character (a `$`, a grouping comma, a decimal point) is skipped. */
  function DigitValue(s: string): nat
  {
    if s == [] then 0
    else
      var last := s[|s| - 1];
      if IsDigit(last) then DigitValue(s[..|s| - 1]) * 10 + (last as int - '0' as int)
      else DigitValue(s[..|s| - 1])
  }

  lemma DigitValueAppendDigit(s: string, c: char)
    requires IsDigit(c)
    ensures DigitValue(s + [c]) == DigitValue(s) * 10 + (c as int - '0' as int)
  {
    assert (s + [c])[..|s|] == s;
  }

  lemma DigitValueAppendOther(s: string, c: char)
    requires !IsDigit(c)
    ensures DigitValue(s + [c]) == DigitValue(s)
  {
    assert (s + [c])[..|s|] == s;
  }

  /** `String(n)` for a whole number: no leading zeros, one digit for zero. */
  function NatToString(n: nat): (r: string)
    ensures 1 <= |r|
    ensures forall i :: 0 <= i < |r| ==> IsDigit(r[i])
    ensures n == 0 ==> r == "0"
    ensures n > 0 ==> r[0] != '0'
    ensures n < 10 ==> |r| == 1
    ensures n < 100 ==> |r| <= 2
    ensures n < 1000 ==> |r| <= 3
  {
    if n < 10 then [DigitChar(n)] else NatToString(n / 10) + [DigitChar(n % 10)]
  }

  /** The rendering of `n` denotes `n`. */
  lemma {:induction false} NatToStringValue(n: nat)
    ensures DigitValue(NatToString(n)) == n
  {
    if n < 10 {
      DigitValueAppendDigit([], DigitChar(n));
    } else {
      NatToStringValue(n / 10);
      DigitValueAppendDigit(NatToString(n / 10), DigitChar(n % 10));
    }
  }

  /** `String(n).padStart(2, '0')` for `n < 100`. */
  function Pad2(n: nat): (r: string)
    requires n < 100
    ensures |r| == 2 && IsDigit(r[0]) && IsDigit(r[1])
  {
    [DigitChar(n / 10), DigitChar(n % 10)]
  }

  lemma Pad2Value(n: nat)
    requires n < 100
    ensures DigitValue(Pad2(n)) == n
  {
    DigitValueAppendDigit([], DigitChar(n / 10));
    DigitValueAppendDigit([DigitChar(n / 10)], DigitChar(n % 10));
    assert Pad2(n) == [DigitChar(n / 10)] + [DigitChar(n % 10)];
  }

  /** The three digits of a group after a thousands separator. */
  function Pad3(n: nat): (r: string)
    requires n < 1000
    ensures |r| == 3 && IsDigit(r[0]) && IsDigit(r[1]) && IsDigit(r[2])
  {
    [DigitChar(n / 100)] + Pad2(n % 100)
  }

  /** `s + Pad3(m)` denotes `s` shifted three places plus `m`. */
  lemma AppendPad3Value(s: string, m: nat)
    requires m < 1000
    ensures DigitValue(s + Pad3(m)) == DigitValue(s) * 1000 + m
  {
    var a, b, c := DigitChar(m / 100), DigitChar(m % 100 / 10), DigitChar(m % 10);
    assert m % 100 % 10 == m % 10;
    assert s + Pad3(m) == ((s + [a]) + [b]) + [c];
    DigitValueAppendDigit(s, a);
    DigitValueAppendDigit(s + [a], b);
    DigitValueAppendDigit((s + [a]) + [b], c);
  }

  /** `n` rendered with a comma between each group of three digits, as
      `Intl.NumberFormat('en-US')` groups the integer part. */
  function Grouped(n: nat): (r: string)
    ensures 1 <= |r|
    ensures forall i :: 0 <= i < |r| ==> IsDigit(r[i]) || r[i] == ','
    ensures IsDigit(r[0]) && IsDigit(r[|r| - 1])
    ensures forall i :: 0 <= i < |r| ==> (r[i] == ',' <==> (|r| - i) % 4 == 0)
    ensures n == 0 ==> r == "0"
    ensures n > 0 ==> r[0] != '0'
  {
    if n < 1000 then NatToString(n)
    else
      var g := Grouped(n / 1000);
      CommaBeforeGroup(g, Pad3(n % 1000));
      g + "," + Pad3(n % 1000)
  }

  /** Appending a comma and a three-digit group keeps every comma at a
      multiple of four places from the end. */
  lemma CommaBeforeGroup(g: string, p: string)
    requires |p| == 3 && IsDigit(p[0]) && IsDigit(p[1]) && IsDigit(p[2])
    requires forall i :: 0 <= i < |g| ==> (g[i] == ',' <==> (|g| - i) % 4 == 0)
    ensures var r := g + "," + p;
      forall i :: 0 <= i < |r| ==> (r[i] == ',' <==> (|r| - i) % 4 == 0)
  {
    var r := g + "," + p;
    forall i | 0 <= i < |r|
      ensures r[i] == ',' <==> (|r| - i) % 4 == 0
    {
      if i < |g| {
        assert r[i] == g[i];
        assert |r| - i == (|g| - i) + 4;
      } else if i == |g| {
        assert |r| - i == 4;
      } else {
        assert r[i] == p[i - |g| - 1];
        assert 1 <= |r| - i <= 3;
      }
    }
  }

  /** Grouping loses nothing: the grouped rendering still denotes `n`. */
  lemma {:induction false} GroupedValue(n: nat)
    ensures DigitValue(Grouped(n)) == n
  {
    if n < 1000 {
      NatToStringValue(n);
    } else {
      var g := Grouped(n / 1000);
      GroupedValue(n / 1000);
      DigitValueAppendOther(g, ',');
      AppendPad3Value(g + ",", n % 1000);
    }
  }
}
