/** Calendar months: the projection's anchor month, month arithmetic with
    the year rolling over, the loan-month offset, and the `YYYY-MM` key that
    schedule entries are matched against. */
module Calendar {
  import opened Common
  import opened Text

  type MonthOfYear = m: nat | 1 <= m <= 12 witness 1

  /** A calendar month; `month` counts from 1 (January) to 12 (December). */
  datatype YearMonth = YearMonth(year: nat, month: MonthOfYear)

  /** Months elapsed since January of year 0. */
  function MonthIndex(ym: YearMonth): nat {
    12 * ym.year + ym.month - 1
  }

  function FromIndex(k: nat): (ym: YearMonth)
    ensures MonthIndex(ym) == k
  {
    YearMonth(k / 12, k % 12 + 1)
  }

  lemma IndexDetermines(a: YearMonth, b: YearMonth)
    requires MonthIndex(a) == MonthIndex(b)
    ensures a == b
  {
    assert a.year == MonthIndex(a) / 12 && b.year == MonthIndex(b) / 12;
  }

  /** The month `i` months after `ym` (what `setMonth(getMonth() + i)` yields
      for the first day of a month). */
  function AddMonths(ym: YearMonth, i: nat): (r: YearMonth)
    ensures MonthIndex(r) == MonthIndex(ym) + i
  {
    FromIndex(MonthIndex(ym) + i)
  }

  lemma NextMonthRollsOver(ym: YearMonth)
    ensures AddMonths(ym, 1) ==
      if ym.month == 12 then YearMonth(ym.year + 1, 1) else YearMonth(ym.year, ym.month + 1)
  {
    var expected := if ym.month == 12 then YearMonth(ym.year + 1, 1) else YearMonth(ym.year, ym.month + 1);
    IndexDetermines(AddMonths(ym, 1), expected);
  }

  /** Zero-based offset of `date` from a loan's start month, computed from the
      year and month differences. */
  function LoanMonth(start: YearMonth, date: YearMonth): (k: int)
    ensures k == MonthIndex(date) - MonthIndex(start)
  {
    12 * (date.year - start.year) + (date.month - start.month)
  }

  /** `${year}-${String(month).padStart(2, '0')}`. */
  function MonthKey(ym: YearMonth): (key: string)
    ensures |key| == |DecimalString(ym.year)| + 3
  {
    DecimalString(ym.year) + "-" + [DigitChar(ym.month / 10), DigitChar(ym.month % 10)]
  }

  /** Reads a `YYYY-MM` key back; None for anything that is not one. */
  function ParseMonthKey(s: string): Option<YearMonth> {
    var k := DigitRun(s);
    if 1 <= k && |s| == k + 3 && s[k] == '-' && IsDigit(s[k + 1]) && IsDigit(s[k + 2]) then
      var m := 10 * DigitValue(s[k + 1]) + DigitValue(s[k + 2]);
      if 1 <= m <= 12 then Some(YearMonth(DecimalValue(s[..k]), m)) else None
    else None
  }

  lemma MonthKeyRoundTrip(ym: YearMonth)
    ensures ParseMonthKey(MonthKey(ym)) == Some(ym)
  {
    var d := DecimalString(ym.year);
    var rest := "-" + [DigitChar(ym.month / 10), DigitChar(ym.month % 10)];
    assert MonthKey(ym) == d + rest;
    DigitRunOfPrefix(d, rest);
    assert (d + rest)[..|d|] == d;
    DecimalRoundTrip(ym.year);
  }

  /** Different months never share a key, so a schedule entry's date matches
      at most one month. */
  lemma MonthKeyInjective(a: YearMonth, b: YearMonth)
    requires MonthKey(a) == MonthKey(b)
    ensures a == b
  {
    MonthKeyRoundTrip(a);
    MonthKeyRoundTrip(b);
  }

  lemma MonthKeysDistinct(anchor: YearMonth, i: nat, j: nat)
    requires i != j
    ensures MonthKey(AddMonths(anchor, i)) != MonthKey(AddMonths(anchor, j))
  {
    if MonthKey(AddMonths(anchor, i)) == MonthKey(AddMonths(anchor, j)) {
      MonthKeyInjective(AddMonths(anchor, i), AddMonths(anchor, j));
    }
  }

}
