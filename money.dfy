/**
 * Money as integer cents, and the two string forms the application carries it in:
 * a booking's total ("$450.00", written with two decimals) and a car's day rate
 * ("$150/day"). The source turns these strings back into numbers by deleting the
 * first "$" (and the first "/day") and parsing the rest as a decimal number;
 * the parser below accepts the decimal forms those strings take.
 */
module Money {
  import opened Wrappers

  predicate IsDigit(c: char) { '0' <= c <= '9' }

  predicate AllDigits(s: string) { forall i :: 0 <= i < |s| ==> IsDigit(s[i]) }

  function DigitChar(d: nat): (c: char)
    requires d < 10
    ensures IsDigit(c) && c as int - '0' as int == d
  {
    ('0' as int + d) as char
  }

  function DigitValue(c: char): (d: nat)
    requires IsDigit(c)
    ensures d < 10 && DigitChar(d) == c
  {
    c as int - '0' as int
  }

  /** Decimal digits of `n`, most significant first, without leading zeros. */
  function Digits(n: nat): (s: string)
    ensures 1 <= |s| && AllDigits(s)
    ensures |s| > 1 ==> s[0] != '0'
    ensures n < 10 <==> |s| == 1
  {
    if n < 10 then [DigitChar(n)] else Digits(n / 10) + [DigitChar(n % 10)]
  }

  /** The value of a non-empty string of decimal digits; `None` for anything else. */
  function ParseWhole(s: string): (r: Option<nat>)
    ensures r.Some? ==> |s| > 0 && IsDigit(s[0])
  {
    if s == [] || !IsDigit(s[|s| - 1]) then None
    else if |s| == 1 then Some(DigitValue(s[0]))
    else
      match ParseWhole(s[..|s| - 1])
      case None => None
      case Some(v) => Some(v * 10 + DigitValue(s[|s| - 1]))
  }

  lemma {:induction false} ParseWholeOfDigits(n: nat)
    ensures ParseWhole(Digits(n)) == Some(n)
  {
    if n >= 10 {
      var s := Digits(n);
      assert s[..|s| - 1] == Digits(n / 10);
      ParseWholeOfDigits(n / 10);
    }
  }

  /** The amount of `cents` in units, written with exactly two decimals, without the currency sign. */
  function Amount(cents: nat): (a: string)
    ensures |a| >= 4 && a[|a| - 3] == '.'
    ensures ParseWhole(a[..|a| - 3]) == Some(cents / 100)
    ensures IsDigit(a[|a| - 2]) && IsDigit(a[|a| - 1])
    ensures DigitValue(a[|a| - 2]) * 10 + DigitValue(a[|a| - 1]) == cents % 100
  {
    var w := Digits(cents / 100);
    var tens, ones := DigitChar(cents % 100 / 10), DigitChar(cents % 10);
    var a := w + "." + [tens, ones];
    assert |a| == |w| + 3 && a[..|w|] == w by {
      assert a == w + ['.', tens, ones];
    }
    assert a[|a| - 3] == '.' && a[|a| - 2] == tens && a[|a| - 1] == ones;
    ParseWholeOfDigits(cents / 100);
    a
  }

  /** A booking total: "$" followed by the amount with two decimals. */
  function FormatMoney(cents: nat): (r: string)
    ensures |r| >= 5 && r[0] == '$' && '$' !in r[1..]
    ensures r[|r| - 3] == '.' && IsDigit(r[|r| - 2]) && IsDigit(r[|r| - 1])
    ensures |r| > 5 ==> r[1] != '0'
    ensures ParseAmount(r[1..]) == Some(cents)
  {
    AmountIsDecimal(cents);
    ParseAmountOfAmount(cents);
    assert ("$" + Amount(cents))[1..] == Amount(cents);
    "$" + Amount(cents)
  }

  /** What a total reads as when the day rate could not be parsed (the currency sign followed by the text of NaN). */
  const NotANumberMoney: string := "$NaN"

  /** String replacement with nothing: the first occurrence of `pat` is deleted, if there is one. */
  function RemoveFirst(s: string, pat: string): (r: string)
    ensures r == s || |r| + |pat| == |s|
  {
    if |s| < |pat| then s
    else if s[..|pat|] == pat then s[|pat|..]
    else [s[0]] + RemoveFirst(s[1..], pat)
  }

  ghost predicate OccursAt(s: string, pat: string, k: nat)
  {
    k + |pat| <= |s| && s[k..k + |pat|] == pat
  }

  /** A slice of the tail is the slice of the whole string one place further on. */
  lemma SliceOfTail(s: string, i: nat, j: nat)
    requires 0 < |s| && i <= j <= |s| - 1
    ensures s[1..][i..j] == s[i + 1..j + 1]
  {
    assert forall m :: 0 <= m < j - i ==> s[1..][i..j][m] == s[i + 1..j + 1][m];
  }

  lemma {:induction false} RemoveFirstDeletesFirstOccurrence(s: string, pat: string, k: nat)
    requires OccursAt(s, pat, k)
    requires forall j :: 0 <= j < k ==> !OccursAt(s, pat, j)
    ensures RemoveFirst(s, pat) == s[..k] + s[k + |pat|..]
  {
    if k > 0 {
      assert !OccursAt(s, pat, 0);
      assert s[1..][k - 1..k - 1 + |pat|] == s[k..k + |pat|];
      forall j | 0 <= j < k - 1 ensures !OccursAt(s[1..], pat, j) {
        assert !OccursAt(s, pat, j + 1);
        SliceOfTail(s, j, j + |pat|);
      }
      RemoveFirstDeletesFirstOccurrence(s[1..], pat, k - 1);
      SliceOfTail(s, 0, k - 1);
      assert s[1..][k - 1 + |pat|..] == s[k + |pat|..];
      assert [s[0]] + s[1..k] == s[..k];
    }
  }

  lemma {:induction false} RemoveFirstWithoutOccurrence(s: string, pat: string)
    requires forall j :: 0 <= j <= |s| ==> !OccursAt(s, pat, j)
    ensures RemoveFirst(s, pat) == s
  {
    if |s| >= |pat| {
      assert !OccursAt(s, pat, 0);
      forall j | 0 <= j <= |s[1..]| ensures !OccursAt(s[1..], pat, j) {
        assert !OccursAt(s, pat, j + 1);
        if j + |pat| <= |s[1..]| {
          assert s[1..][j..j + |pat|] == s[j + 1..j + 1 + |pat|];
        }
      }
      RemoveFirstWithoutOccurrence(s[1..], pat);
    }
  }

  /** A pattern whose first character never appears in `a` is found only after `a`. */
  lemma {:induction false} RemoveFirstAfter(a: string, pat: string)
    requires |pat| > 0 && pat[0] !in a
    ensures RemoveFirst(a + pat, pat) == a
  {
    if a != [] {
      assert (a + pat)[0] == a[0] != pat[0];
      assert (a + pat)[1..] == a[1..] + pat;
      RemoveFirstAfter(a[1..], pat);
    } else {
      assert a + pat == pat;
    }
  }

  /** Deleting a one-character pattern that does not occur changes nothing. */
  lemma RemoveFirstOfAbsentChar(s: string, c: char)
    requires c !in s
    ensures RemoveFirst(s, [c]) == s
  {
    forall j | 0 <= j <= |s| ensures !OccursAt(s, [c], j) {
      if j < |s| {
        assert s[j] in s && s[j..j + 1] == [s[j]];
      }
    }
    RemoveFirstWithoutOccurrence(s, [c]);
  }

  /** Index of the first `c` in `s`, or `|s|` when there is none. */
  function FindChar(s: string, c: char): (k: nat)
    ensures k <= |s|
    ensures forall i :: 0 <= i < k ==> s[i] != c
    ensures k < |s| ==> s[k] == c
  {
    if s == [] then 0 else if s[0] == c then 0 else 1 + FindChar(s[1..], c)
  }

  /** The cents a fraction of at most two decimals stands for ("5" is 50, "05" is 5). */
  function ParseFraction(frac: string): (r: Option<nat>)
    ensures r.Some? ==> r.value < 100
  {
    if |frac| == 0 then Some(0)
    else if |frac| == 1 && IsDigit(frac[0]) then Some(DigitValue(frac[0]) * 10)
    else if |frac| == 2 && IsDigit(frac[0]) && IsDigit(frac[1]) then
      Some(DigitValue(frac[0]) * 10 + DigitValue(frac[1]))
    else None
  }

  /**
   * `parseFloat` on an amount, in cents: one or more digits, then optionally a
   * point and at most two more digits. Anything else is NaN, here `None`.
   */
  function ParseAmount(s: string): (r: Option<nat>)
    ensures r.Some? ==> |s| > 0 && IsDigit(s[0])
  {
    var k := FindChar(s, '.');
    var whole := ParseWhole(s[..k]);
    var frac := if k < |s| then ParseFraction(s[k + 1..]) else Some(0);
    if whole.Some? && frac.Some? then Some(whole.value * 100 + frac.value) else None
  }

  /** A total read back as a number of cents: the first "$" is removed and the rest parsed. */
  function ParseMoney(total: string): (r: Option<nat>)
    ensures |total| > 0 && total[0] == '$' ==> r == ParseAmount(total[1..])
  {
    assert |total| > 0 && total[0] == '$' ==> RemoveFirst(total, "$") == total[1..] by {
      if |total| > 0 && total[0] == '$' {
        assert total[..1] == "$";
      }
    }
    ParseAmount(RemoveFirst(total, "$"))
  }

  /** A total without a "$" is read as it stands. */
  lemma ParseMoneyWithoutDollar(total: string)
    requires '$' !in total
    ensures ParseMoney(total) == ParseAmount(total)
  {
    RemoveFirstOfAbsentChar(total, '$');
  }

  /** A day rate read back as cents: the first "$", then the first "/day", is removed and the rest parsed. */
  function ParseDayRate(price: string): (r: Option<nat>)
    ensures |price| > 0 && price[0] == '$' ==> r == ParseAmount(RemoveFirst(price[1..], "/day"))
  {
    assert |price| > 0 && price[0] == '$' ==> RemoveFirst(price, "$") == price[1..] by {
      if |price| > 0 && price[0] == '$' {
        assert price[..1] == "$";
      }
    }
    ParseAmount(RemoveFirst(RemoveFirst(price, "$"), "/day"))
  }

  /** The amount holds no "$" or "/", its point follows the whole part, and it has no leading zero. */
  lemma AmountIsDecimal(cents: nat)
    ensures '$' !in Amount(cents) && '/' !in Amount(cents)
    ensures FindChar(Amount(cents), '.') == |Digits(cents / 100)|
    ensures |Amount(cents)| > 4 ==> Amount(cents)[0] != '0'
  {
    var a := Amount(cents);
    var w := Digits(cents / 100);
    assert forall i :: 0 <= i < |w| ==> a[i] == w[i];
    assert a[|w|] == '.';
    assert forall i :: 0 <= i < |a| ==> IsDigit(a[i]) || a[i] == '.';
  }

  lemma {:induction false} ParseAmountOfAmount(cents: nat)
    ensures ParseAmount(Amount(cents)) == Some(cents)
  {
    var a := Amount(cents);
    var w := Digits(cents / 100);
    AmountIsDecimal(cents);
    assert a[..|w|] == w;
    var frac := a[|w| + 1..];
    assert frac == [DigitChar(cents % 100 / 10), DigitChar(cents % 10)];
    assert ParseFraction(frac) == Some(cents % 100) by {
      assert DigitValue(frac[0]) == cents % 100 / 10;
      assert DigitValue(frac[1]) == cents % 10;
    }
    ParseWholeOfDigits(cents / 100);
    assert cents / 100 * 100 + cents % 100 == cents;
  }

  /** Reading back a formatted total gives the cents it was formatted from. */
  lemma {:induction false} ParseMoneyOfFormatMoney(cents: nat)
    ensures ParseMoney(FormatMoney(cents)) == Some(cents)
  {
    assert FormatMoney(cents)[..1] == "$";
    ParseAmountOfAmount(cents);
  }

  lemma NotANumberMoneyIsNotParsed()
    ensures ParseMoney(NotANumberMoney).None?
  {
    assert RemoveFirst(NotANumberMoney, "$") == "NaN";
    assert !IsDigit("NaN"[0]);
  }

  /** A day-rate label "$<amount>/day" has the day rate `<amount>`. */
  lemma {:induction false} ParseDayRateOfLabel(amount: string)
    requires '$' !in amount && '/' !in amount
    ensures ParseDayRate("$" + amount + "/day") == ParseAmount(amount)
  {
    var text := "$" + amount + "/day";
    assert text[..1] == "$";
    assert text[1..] == amount + "/day";
    RemoveFirstAfter(amount, "/day");
  }

  /** "$150/day" is 15000 cents a day; "$150.50/day" is 15050. */
  lemma {:induction false} ParseDayRateOfWholeDollars(dollars: nat)
    ensures ParseDayRate("$" + Digits(dollars) + "/day") == Some(dollars * 100)
  {
    var d := Digits(dollars);
    assert forall i :: 0 <= i < |d| ==> IsDigit(d[i]);
    assert '$' !in d && '/' !in d;
    ParseDayRateOfLabel(d);
    assert FindChar(d, '.') == |d| && d[..|d|] == d;
    ParseWholeOfDigits(dollars);
    assert ParseAmount(d) == Some(dollars * 100);
  }

  lemma {:induction false} ParseDayRateOfAmount(cents: nat)
    ensures ParseDayRate("$" + Amount(cents) + "/day") == Some(cents)
  {
    AmountIsDecimal(cents);
    ParseDayRateOfLabel(Amount(cents));
    ParseAmountOfAmount(cents);
  }
}
