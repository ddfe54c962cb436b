/** Dates and accounting periods: the months that entries are posted to. */
module Calendar {
  import opened Results
  import opened Text

  /** An instant: its UTC month, counted from January of year 0, and its getTime(). */
  datatype Date = Date(month: nat, time: int)

  function Year(date: Date): nat
  {
    date.month / 12
  }

  function CurrentPeriod(date: Date): string
  {
    Dec(Year(date)) + "-" + PadStart(Dec(date.month % 12 + 1), 2)
  }

  /** A period is four digits, a dash and the two digits of a month. */
  function ParsePeriod(period: string): Result<(nat, nat)>
  {
    if |period| != 7 || period[4] != '-' || !Digits(period[..4]) || !Digits(period[5..]) then Err(BadRequest)
    else
      var year, month := NatOf(period[..4]), NatOf(period[5..]);
      if month < 1 || month > 12 then Err(BadRequest) else Ok((year, month))
  }

  /** The month in which periodToDateRange ends: Date.UTC reads the years 0 to 99 as 1900 to 1999. */
  function EndMonth(year: nat, month: nat): nat
    requires month >= 1
  {
    (if year < 100 then 1900 + year else year) * 12 + (month - 1)
  }

  /** Years 00yy and 19yy fall together; no other two months do. */
  predicate SameYear(a: nat, b: nat)
  {
    a == b || (a < 100 && b == 1900 + a) || (b < 100 && a == 1900 + b)
  }

  lemma EndMonthsCoincide(a: nat, m: nat, b: nat, n: nat)
    requires 1 <= m <= 12 && 1 <= n <= 12
    ensures EndMonth(a, m) == EndMonth(b, n) <==> m == n && SameYear(a, b)
  {
  }

  lemma {:induction false} DigitsDecide(s: string, t: string)
    requires |s| == |t| && Digits(s) && Digits(t)
    ensures NatOf(s) == NatOf(t) <==> s == t
  {
    if s != [] {
      var n := |s| - 1;
      DigitsDecide(s[..n], t[..n]);
      assert s == s[..n] + [s[n]] && t == t[..n] + [t[n]];
    }
  }

  /** A month is named by one period for each year it can be read as. */
  lemma ParsedPeriods(p: string, q: string)
    requires ParsePeriod(p).Ok? && ParsePeriod(q).Ok?
    ensures ParsePeriod(p) == ParsePeriod(q) <==> p == q
    ensures 1 <= ParsePeriod(p).value.1 <= 12
  {
    hide NatOf;
    DigitsDecide(p[..4], q[..4]);
    DigitsDecide(p[5..], q[5..]);
    assert p == p[..4] + [p[4]] + p[5..] && q == q[..4] + [q[4]] + q[5..];
  }

  lemma SmallPowers()
    ensures Pow10(1) == 10 && Pow10(2) == 100 && Pow10(3) == 1000 && Pow10(4) == 10_000
  {
  }

  lemma MonthDigits(date: Date)
    ensures var m := PadStart(Dec(date.month % 12 + 1), 2);
      |m| == 2 && Digits(m) && NatOf(m) == date.month % 12 + 1
  {
    SmallPowers();
    PaddedParses(date.month % 12 + 1, 2);
    PaddedLength(date.month % 12 + 1, 2);
  }

  /** currentPeriod writes what parsePeriod reads for the four-digit years, and only for those. */
  lemma PeriodRoundTrip(date: Date)
    ensures ParsePeriod(CurrentPeriod(date)) == Ok((Year(date), date.month % 12 + 1)) <==> 1000 <= Year(date) <= 9999
    ensures ParsePeriod(CurrentPeriod(date)).Ok? <==> 1000 <= Year(date) <= 9999
    ensures 1000 <= Year(date) <= 9999 ==> EndMonth(Year(date), date.month % 12 + 1) == date.month
  {
    hide Dec, PadStart, NatOf;
    var y, m := Dec(Year(date)), PadStart(Dec(date.month % 12 + 1), 2);
    var period := CurrentPeriod(date);
    assert period == y + "-" + m;
    MonthDigits(date);
    SmallPowers();
    DecLength(Year(date), 3);
    DecLength(Year(date), 4);
    DecParses(Year(date));
    if |y| == 4 {
      assert period[..4] == y && period[5..] == m;
    }
  }

  /** Different months have different periods. */
  lemma PeriodsDistinct(a: Date, b: Date)
    ensures CurrentPeriod(a) == CurrentPeriod(b) <==> a.month == b.month
  {
    hide Dec, PadStart, NatOf;
    if CurrentPeriod(a) == CurrentPeriod(b) {
      MonthDigits(a);
      MonthDigits(b);
      var p := CurrentPeriod(a);
      var k := |p| - 3;
      assert p[..k] == Dec(Year(a)) == Dec(Year(b)) && p[k + 1..][..2] == p[k + 1..];
      assert p[k + 1..] == PadStart(Dec(a.month % 12 + 1), 2) == PadStart(Dec(b.month % 12 + 1), 2);
      DecParses(Year(a));
      DecParses(Year(b));
      assert a.month == 12 * Year(a) + a.month % 12 && b.month == 12 * Year(b) + b.month % 12;
    }
  }
}
