/** Currency helpers of the shell application (`src/shared/lib/money.ts`):
    `formatCents` for US dollars and `add`. */
module Money {
  import opened Decimal

  /** The text of a non-negative amount: a dollar sign, the whole dollars
      grouped by commas, a point and exactly two cent digits. */
  function Dollars(cents: nat): (r: string)
    ensures |r| >= 5 && r[0] == '$' && r[|r| - 3] == '.'
    ensures IsDigit(r[1]) && IsDigit(r[|r| - 4])
    ensures IsDigit(r[|r| - 2]) && IsDigit(r[|r| - 1])
    ensures forall i :: 1 <= i < |r| - 3 ==> IsDigit(r[i]) || r[i] == ','
    ensures forall i :: 1 <= i < |r| - 3 ==> (r[i] == ',' <==> (|r| - 3 - i) % 4 == 0)
    ensures r[1] == '0' <==> cents < 100
    ensures cents < 100 ==> |r| == 5
  {
    var g := Grouped(cents / 100);
    var r := "$" + g + "." + Pad2(cents % 100);
    assert forall i :: 1 <= i < |r| - 3 ==> r[i] == g[i - 1];
    r
  }

  /** `formatCents(cents)` with the default currency 'USD': `Intl.NumberFormat`
      in `en-US` renders `cents / 100` in dollars; a negative amount is the
      text of its magnitude preceded by a minus sign. */
  function FormatCents(cents: int): (r: string)
    ensures |r| >= 5
    ensures cents >= 0 ==> r[0] == '$'
    ensures cents < 0 ==> r[0] == '-' && r[1] == '$'
    ensures DigitValue(r) == if cents < 0 then -cents else cents
  {
    if cents < 0 then
      DollarsValue(-cents);
      DigitValueAppendOther([], '-');
      DigitValueConcat("-", Dollars(-cents));
      "-" + Dollars(-cents)
    else
      DollarsValue(cents);
      Dollars(cents)
  }

  /** The shape of the rendering after the sign: whole dollars with a comma
      before each group of three digits and no leading zero, a point, and
      two cent digits. */
  lemma FormatCentsShape(cents: int)
    ensures var r := FormatCents(cents); var d := if cents < 0 then 2 else 1;
      r[|r| - 3] == '.' && IsDigit(r[|r| - 2]) && IsDigit(r[|r| - 1]) &&
      IsDigit(r[d]) && IsDigit(r[|r| - 4]) &&
      (forall i :: d <= i < |r| - 3 ==> (IsDigit(r[i]) || r[i] == ',') && (r[i] == ',' <==> (|r| - 3 - i) % 4 == 0)) &&
      (r[d] == '0' <==> -100 < cents < 100) &&
      (-100 < cents < 100 ==> |r| == d + 4)
  {
    var r := FormatCents(cents);
    if cents < 0 {
      var t := Dollars(-cents);
      assert r == "-" + t;
      assert forall i :: 1 <= i < |r| ==> r[i] == t[i - 1];
    }
  }

  /** The rendered text denotes the amount exactly: reading its digits back
      (skipping `$`, the commas and the point) gives `cents`. */
  lemma DollarsValue(cents: nat)
    ensures DigitValue(Dollars(cents)) == cents
  {
    var g := Grouped(cents / 100);
    var p := Pad2(cents % 100);
    GroupedValue(cents / 100);
    DigitValueAppendOther([], '$');
    assert DigitValue("$") == 0;
    assert ("$" + g) == [] + ['$'] + g;
    DigitValueConcat("$", g);
    DigitValueAppendOther("$" + g, '.');
    DigitValueAppendDigit("$" + g + ".", p[0]);
    DigitValueAppendDigit("$" + g + "." + [p[0]], p[1]);
    assert Dollars(cents) == "$" + g + "." + [p[0]] + [p[1]];
    Pad2Value(cents % 100);
    DigitValueAppendDigit([], p[0]);
    DigitValueAppendDigit([p[0]], p[1]);
    assert p == [p[0]] + [p[1]];
  }

  /** A prefix that denotes zero contributes nothing. */
  lemma {:induction false} DigitValueConcat(z: string, s: string)
    requires DigitValue(z) == 0
    ensures DigitValue(z + s) == DigitValue(s)
    decreases |s|
  {
    if s != [] {
      var init, last := s[..|s| - 1], s[|s| - 1];
      assert z + s == (z + init) + [last];
      assert s == init + [last];
      DigitValueConcat(z, init);
      if IsDigit(last) {
        DigitValueAppendDigit(z + init, last);
        DigitValueAppendDigit(init, last);
      } else {
        DigitValueAppendOther(z + init, last);
        DigitValueAppendOther(init, last);
      }
    } else {
      assert z + s == z;
    }
  }

  /** The table of the money unit test. */
  lemma FormatCentsExamples()
    ensures FormatCents(0) == "$0.00"
    ensures FormatCents(1) == "$0.01"
    ensures FormatCents(199) == "$1.99"
    ensures FormatCents(12345) == "$123.45"
    ensures FormatCents(999999) == "$9,999.99"
  {
    GroupedExamples();
    PaddedExamples();
    assert Dollars(0) == "$0.00";
    assert Dollars(1) == "$0.01";
    assert Dollars(199) == "$1.99";
    assert Dollars(12345) == "$123.45";
    assert Dollars(999999) == "$9,999.99";
  }

  /** The grouped whole dollars of the table's amounts. */
  lemma GroupedExamples()
    ensures Grouped(0) == "0" && Grouped(1) == "1" && Grouped(123) == "123" && Grouped(9999) == "9,999"
  {
    assert NatToString(12) == "12";
    assert NatToString(123) == NatToString(12) + "3";
    assert Pad3(999) == "999";
    assert Grouped(9) == "9";
    assert Grouped(9999) == Grouped(9) + "," + Pad3(999);
  }

  /** The cent digits of the table's amounts. */
  lemma PaddedExamples()
    ensures Pad2(0) == "00" && Pad2(1) == "01" && Pad2(99) == "99" && Pad2(45) == "45"
  {
  }

  /** `add(a, b)`: integer addition with no rounding, the amounts being whole cents. */
  function Add(a: int, b: int): (r: int)
    ensures r - a == b && r - b == a
  {
    a + b
  }
}
