/**
 * Amount handling shared by the input and update windows: removing every
 * non-digit (`replace(/[^\d]/g, '')`), `parseInt`, `Number.prototype.toString`
 * and the comma grouping of `toLocaleString('ja-JP')`.
 */
module NumberFormat {
  import opened Wrappers
  import Text

  predicate IsDigit(c: char) {
    '0' <= c <= '9'
  }

  predicate AllDigits(s: string) {
    forall i :: 0 <= i < |s| ==> IsDigit(s[i])
  }

  /** `s.replace(/[^\d]/g, '')`: the digits of `s`, in their order. */
  function DigitsOf(s: string): (r: string)
    ensures AllDigits(r) && |r| <= |s|
  {
    if |s| == 0 then "" else (if IsDigit(s[0]) then [s[0]] else "") + DigitsOf(s[1..])
  }

  /** Removing the non-digits of a concatenation works part by part. */
  lemma {:induction false} DigitsOfAppend(a: string, b: string)
    ensures DigitsOf(a + b) == DigitsOf(a) + DigitsOf(b)
    decreases |a|
  {
    if |a| > 0 {
      assert (a + b)[1..] == a[1..] + b;
      DigitsOfAppend(a[1..], b);
    } else {
      assert a + b == b;
    }
  }

  /** A string of digits only is left as it is; so removing non-digits is idempotent. */
  lemma {:induction false} DigitsOfDigits(s: string)
    requires AllDigits(s)
    ensures DigitsOf(s) == s
    decreases |s|
  {
    if |s| > 0 {
      DigitsOfDigits(s[1..]);
    }
  }

  function DigitValue(c: char): nat
    requires IsDigit(c)
  {
    c as int - '0' as int
  }

  function DigitChar(d: nat): char
    requires d < 10
  {
    ('0' as int + d) as char
  }

  /** The value of a string of decimal digits (the empty string reads as 0). */
  function ParseDigits(s: string): nat
    requires AllDigits(s)
    decreases |s|
  {
    if |s| == 0 then 0 else ParseDigits(s[..|s| - 1]) * 10 + DigitValue(s[|s| - 1])
  }

  /** `n.toString()` for a non-negative integer. */
  function Decimal(n: nat): (r: string)
    ensures AllDigits(r) && |r| > 0
  {
    if n < 10 then [DigitChar(n)] else Decimal(n / 10) + [DigitChar(n % 10)]
  }

  /** `toString` then `parseInt` gives the number back. */
  lemma {:induction false} ParseDecimal(n: nat)
    ensures ParseDigits(Decimal(n)) == n
  {
    if n >= 10 {
      ParseDecimal(n / 10);
      var s := Decimal(n);
      assert s[..|s| - 1] == Decimal(n / 10);
    }
  }

  /** `toString` writes no leading zero. */
  lemma {:induction false} DecimalNoLeadingZero(n: nat)
    ensures Decimal(n)[0] == '0' ==> n == 0
  {
    if n >= 10 {
      DecimalNoLeadingZero(n / 10);
    }
  }

  /** The last three digits of a number, zero-padded. */
  function Pad3(m: nat): (r: string)
    requires m < 1000
    ensures |r| == 3 && AllDigits(r)
  {
    [DigitChar(m / 100), DigitChar(m / 10 % 10), DigitChar(m % 10)]
  }

  /** `toLocaleString('ja-JP')` of a non-negative integer: digits grouped by threes with commas. */
  function Grouped(n: nat): string
  {
    if n < 1000 then Decimal(n) else Grouped(n / 1000) + "," + Pad3(n % 1000)
  }

  /** `toLocaleString('ja-JP')` of any integer: a minus sign, then the grouped magnitude. */
  function Localized(i: int): string {
    if i < 0 then "-" + Grouped(-i) else Grouped(i)
  }

  /** `toString` of any integer. */
  function IntToString(i: int): string {
    if i < 0 then "-" + Decimal(-i) else Decimal(i)
  }

  lemma DecimalSplit3(n: nat)
    requires n >= 1000
    ensures Decimal(n) == Decimal(n / 1000) + Pad3(n % 1000)
  {
    var q, m := n / 1000, n % 1000;
    assert n == 1000 * q + m;
    assert n / 100 == 10 * q + m / 100;
    assert n / 10 == 100 * q + m / 10;
    assert n / 100 / 10 == q && n / 100 % 10 == m / 100;
    assert n / 10 / 10 == n / 100 && n / 10 % 10 == m / 10 % 10;
    assert n % 10 == m % 10;
    assert Decimal(n / 100) == Decimal(q) + [DigitChar(m / 100)];
    assert Decimal(n / 10) == Decimal(n / 100) + [DigitChar(m / 10 % 10)];
  }

  /** Removing the commas of a grouped number gives its plain decimal form. */
  lemma {:induction false} GroupedDigits(n: nat)
    ensures DigitsOf(Grouped(n)) == Decimal(n)
  {
    if n < 1000 {
      DigitsOfDigits(Decimal(n));
    } else {
      GroupedDigits(n / 1000);
      DigitsOfAppend(Grouped(n / 1000) + ",", Pad3(n % 1000));
      DigitsOfAppend(Grouped(n / 1000), ",");
      DigitsOfDigits(Pad3(n % 1000));
      DecimalSplit3(n);
    }
  }

  /** A number below a thousand has one to three decimal digits. */
  lemma SmallDecimalLength(n: nat)
    requires n < 1000
    ensures 1 <= |Decimal(n)| <= 3
  {
    if n >= 10 {
      assert n / 10 < 100;
      if n / 10 >= 10 {
        assert Decimal(n / 10) == Decimal(n / 10 / 10) + [DigitChar(n / 10 % 10)];
        assert n / 10 / 10 < 10;
      }
    }
  }

  /**
   * Commas sit exactly at the positions that leave a multiple of four
   * characters from there to the end, so each comma is followed by three
   * digits; the leading group has one to three digits; all else is digits.
   */
  predicate WellGrouped(r: string) {
    && |r| % 4 != 0
    && (forall i :: 0 <= i < |r| ==> (r[i] == ',' <==> (|r| - i) % 4 == 0))
    && (forall i :: 0 <= i < |r| && r[i] != ',' ==> IsDigit(r[i]))
  }

  /** A comma and three more digits after a well-grouped number keep it well grouped. */
  lemma WellGroupedExtend(g: string, p: string)
    requires WellGrouped(g) && |p| == 3 && AllDigits(p)
    ensures WellGrouped(g + "," + p)
  {
    var r := g + "," + p;
    forall i | 0 <= i < |r|
      ensures r[i] == ',' <==> (|r| - i) % 4 == 0
      ensures r[i] != ',' ==> IsDigit(r[i])
    {
      if i < |g| {
        assert r[i] == g[i];
        assert |r| - i == (|g| - i) + 4;
      } else if i > |g| {
        assert r[i] == p[i - |g| - 1];
        assert 1 <= |r| - i <= 3;
      }
    }
  }

  /** `toLocaleString('ja-JP')` puts a comma before every group of three digits, and nowhere else. */
  lemma {:induction false} GroupedShape(n: nat)
    ensures WellGrouped(Grouped(n))
  {
    if n < 1000 {
      SmallDecimalLength(n);
    } else {
      GroupedShape(n / 1000);
      WellGroupedExtend(Grouped(n / 1000), Pad3(n % 1000));
    }
  }

  /** `replace(/[^\d]/g, '')` then `formatAmount` of the input window: '' when no digit is left. */
  function FormatAmount(value: string): (r: string)
    ensures r == "" <==> DigitsOf(value) == ""
    ensures r != "" ==> DigitsOf(r) == Decimal(ParseDigits(DigitsOf(value)))
  {
    var digits := DigitsOf(value);
    if digits == "" then ""
    else
      var n := ParseDigits(digits);
      GroupedDigits(n);
      Grouped(n)
  }

  /**
   * The display of an amount is empty exactly when the input has no digit;
   * otherwise it denotes the same number as the digits typed, and re-formatting
   * the display changes nothing.
   */
  lemma AmountDisplay(value: string)
    ensures FormatAmount(value) == "" <==> DigitsOf(value) == ""
    ensures DigitsOf(value) != "" ==>
      ParseDigits(DigitsOf(FormatAmount(value))) == ParseDigits(DigitsOf(value))
    ensures FormatAmount(FormatAmount(value)) == FormatAmount(value)
  {
    var digits := DigitsOf(value);
    if digits != "" {
      ParseDecimal(ParseDigits(digits));
    }
  }

  /** The longest prefix of `s` made of digits. */
  function LeadingDigits(s: string): (r: string)
    ensures AllDigits(r) && Text.StartsWith(s, r)
    ensures |r| < |s| ==> !IsDigit(s[|r|])
  {
    if |s| > 0 && IsDigit(s[0]) then [s[0]] + LeadingDigits(s[1..]) else ""
  }

  /**
   * JavaScript's `parseInt(s)` in base ten: leading whitespace and one sign
   * skipped, then the longest run of digits; `None` stands for `NaN`.
   */
  function ParseInt(s: string): Option<int> {
    var t := Text.TrimStart(s);
    var negative := |t| > 0 && t[0] == '-';
    var body := if |t| > 0 && (t[0] == '-' || t[0] == '+') then t[1..] else t;
    var digits := LeadingDigits(body);
    if digits == "" then None
    else if negative then Some(-(ParseDigits(digits) as int))
    else Some(ParseDigits(digits))
  }

  lemma {:induction false} LeadingDigitsOfDigits(s: string)
    requires AllDigits(s)
    ensures LeadingDigits(s) == s
    decreases |s|
  {
    if |s| > 0 {
      LeadingDigitsOfDigits(s[1..]);
    }
  }

  /** `parseInt` of a non-empty string of digits is its decimal value. */
  lemma ParseIntOfDigits(s: string)
    requires AllDigits(s) && s != ""
    ensures ParseInt(s) == Some(ParseDigits(s) as int)
  {
    LeadingDigitsOfDigits(s);
    assert !Text.IsWhitespace(s[0]);
  }

  /** `parseInt(i.toString())` is `i`. */
  lemma ParseIntOfToString(i: int)
    ensures ParseInt(IntToString(i)) == Some(i)
  {
    var n: nat := if i < 0 then -i else i;
    ParseDecimal(n);
    LeadingDigitsOfDigits(Decimal(n));
    if i < 0 {
      var s := IntToString(i);
      assert s[1..] == Decimal(n);
      assert Text.TrimStart(s) == s;
    } else {
      ParseIntOfDigits(Decimal(n));
    }
  }
}
