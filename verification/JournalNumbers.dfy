/** Journal entry numbers: NC-year-sequence, the next one read off the greatest string issued so far. */
module JournalNumbers {
  import opened Results
  import opened Text

  const LAST := 1_000_000

  function Prefix(year: nat): string
  {
    "NC-" + Dec(year) + "-"
  }

  function Format(year: nat, sequence: nat): string
  {
    Prefix(year) + PadStart(Dec(sequence), 6)
  }

  /** findFirst with startsWith, ordered by number descending. */
  function Greatest(numbers: seq<string>, prefix: string): Option<string>
  {
    if numbers == [] then None
    else
      var best, last := Greatest(numbers[..|numbers| - 1], prefix), numbers[|numbers| - 1];
      if StartsWith(last, prefix) && (best.None? || Less(best.value, last)) then Some(last) else best
  }

  function LastSequence(number: Option<string>): nat
  {
    if number.None? then 0
    else
      var parts := Split(number.value, '-');
      if |parts| != 3 then 0 else NatOf(LeadingDigits(parts[2]))
  }

  function NextNumber(numbers: seq<string>, year: nat): string
  {
    Format(year, LastSequence(Greatest(numbers, Prefix(year))) + 1)
  }

  /** An entry is inserted with its number; numbers are unique in a company. */
  function Issue(numbers: seq<string>, year: nat): Result<seq<string>>
  {
    var next := NextNumber(numbers, year);
    if next in numbers then Err(Conflict) else Ok(numbers + [next])
  }

  // ---------------------------------------------------------------- what was issued

  /** The numbers of a year, in the order they were issued. */
  function Issued(numbers: seq<string>, year: nat): seq<string>
  {
    if numbers == [] then []
    else
      var last := numbers[|numbers| - 1];
      Issued(numbers[..|numbers| - 1], year) + if StartsWith(last, Prefix(year)) then [last] else []
  }

  function Formats(year: nat, n: nat): (r: seq<string>)
    ensures |r| == n && forall i :: 0 <= i < n ==> r[i] == Format(year, i + 1)
  {
    seq(n, i requires 0 <= i < n => Format(year, i + 1))
  }

  /** Every year's numbers are the formats of 1, 2, 3, ... without gap or repeat. */
  ghost predicate WellNumbered(numbers: seq<string>)
  {
    forall year: nat :: NumberedTo(numbers, year, |Issued(numbers, year)|)
  }

  predicate NumberedTo(numbers: seq<string>, year: nat, n: nat)
  {
    n <= LAST && Issued(numbers, year) == Formats(year, n)
  }

  // ---------------------------------------------------------------- parsing undoes formatting

  lemma SplitAfterPrefix(year: nat, tail: string)
    ensures Split(Prefix(year) + tail, '-') == ["NC", Dec(year)] + Split(tail, '-')
  {
    hide Split, Dec;
    assert '-' !in Dec(year);
    SplitAt(Dec(year), '-', tail);
    SplitAt("NC", '-', Dec(year) + ['-'] + tail);
    assert Prefix(year) + tail == "NC" + ['-'] + (Dec(year) + ['-'] + tail);
  }

  lemma FormatParses(year: nat, sequence: nat)
    ensures LastSequence(Some(Format(year, sequence))) == sequence
    ensures StartsWith(Format(year, sequence), Prefix(year))
  {
    hide Split, Dec, PadStart, NatOf, Prefix;
    var tail := PadStart(Dec(sequence), 6);
    PaddedParses(sequence, 6);
    LeadingDigitsThen(tail, []);
    assert tail + [] == tail;
    assert '-' !in tail;
    SplitAt(tail, '-', []);
    SplitAfterPrefix(year, tail);
  }

  /** The seventh number of 2024. */
  lemma NumberLooksSo()
    ensures Format(2024, 7) == "NC-2024-000007"
  {
    assert Dec(2) == "2" && Dec(20) == "20";
    assert Dec(202) == "202";
    assert Dec(2024) == "2024" && Dec(7) == "7";
    assert Zeros(5) == "00000";
  }

  /** A number belongs to one year only. */
  lemma FormatYear(year: nat, sequence: nat, other: nat)
    ensures StartsWith(Format(year, sequence), Prefix(other)) <==> year == other
  {
    hide Split, Dec, PadStart, NatOf, Prefix, LastSequence;
    FormatParses(year, sequence);
    if StartsWith(Format(year, sequence), Prefix(other)) {
      var tail := Format(year, sequence)[|Prefix(other)|..];
      assert Format(year, sequence) == Prefix(other) + tail;
      SplitAfterPrefix(other, tail);
      SplitAfterPrefix(year, PadStart(Dec(sequence), 6));
      assert Split(Format(year, sequence), '-')[1] == Dec(other) == Dec(year);
      DecParses(year);
      DecParses(other);
    }
  }

  /** Up to 999999 the order of the strings is the order of the sequences. */
  lemma FormatOrder(year: nat, a: nat, b: nat)
    requires a < LAST && b < LAST
    ensures Less(Format(year, a), Format(year, b)) <==> a < b
  {
    LessAfter(Prefix(year), PadStart(Dec(a), 6), PadStart(Dec(b), 6));
    Million();
    PaddedParses(a, 6);
    PaddedParses(b, 6);
    PaddedLength(a, 6);
    PaddedLength(b, 6);
    LessIsNumeric(PadStart(Dec(a), 6), PadStart(Dec(b), 6));
  }

  lemma Million()
    ensures Pow10(6) == LAST
    ensures Dec(LAST) == "1000000" && Dec(LAST - 1) == "999999"
  {
    assert Pow10(3) == 1000 && Pow10(6) == 10 * (10 * (10 * Pow10(3)));
    assert Dec(1) == "1" && Dec(10) == "10" && Dec(100) == "100" && Dec(1000) == "1000";
    assert Dec(10_000) == "10000" && Dec(100_000) == "100000";
    assert Dec(9) == "9" && Dec(99) == "99" && Dec(999) == "999" && Dec(9999) == "9999";
    assert Dec(99_999) == "99999";
  }

  /** The seventh digit sorts before the sixth: 1000000 is not greater than 999999. */
  lemma MillionSortsFirst(year: nat)
    ensures !Less(Format(year, LAST - 1), Format(year, LAST))
  {
    Million();
    LessAfter(Prefix(year), "999999", "1000000");
  }

  // ---------------------------------------------------------------- the greatest number issued

  lemma {:induction false} GreatestIssued(numbers: seq<string>, year: nat)
    ensures Greatest(numbers, Prefix(year)) == Greatest(Issued(numbers, year), Prefix(year))
    ensures forall x :: x in numbers && StartsWith(x, Prefix(year)) <==> x in Issued(numbers, year)
  {
    if numbers != [] {
      var front, last := numbers[..|numbers| - 1], numbers[|numbers| - 1];
      GreatestIssued(front, year);
      if StartsWith(last, Prefix(year)) {
        assert Issued(numbers, year)[..|Issued(front, year)|] == Issued(front, year);
      } else {
        assert Issued(numbers, year) == Issued(front, year);
      }
    }
  }

  lemma {:induction false} GreatestFormat(year: nat, n: nat)
    requires n <= LAST
    ensures Greatest(Formats(year, n), Prefix(year)) ==
      if n == 0 then None else Some(Format(year, if n == LAST then LAST - 1 else n))
  {
    if n > 0 {
      GreatestFormat(year, n - 1);
      assert Formats(year, n)[..n - 1] == Formats(year, n - 1);
      FormatParses(year, n);
      if n == LAST {
        MillionSortsFirst(year);
      } else if n > 1 {
        FormatOrder(year, n - 1, n);
      }
    }
  }

  /** The next number continues its year, until 1000000; after that it is 1000000 again and again. */
  lemma NextContinues(numbers: seq<string>, year: nat)
    requires WellNumbered(numbers)
    ensures var n := |Issued(numbers, year)|;
      NextNumber(numbers, year) == Format(year, if n == LAST then LAST else n + 1)
  {
    var n := |Issued(numbers, year)|;
    assert NumberedTo(numbers, year, n);
    GreatestIssued(numbers, year);
    GreatestFormat(year, n);
    FormatParses(year, if n == LAST then LAST - 1 else n);
  }

  lemma FormatsDistinct(year: nat, n: nat, k: nat)
    requires Format(year, k) in Formats(year, n)
    ensures 1 <= k <= n
  {
    var i :| 0 <= i < n && Format(year, i + 1) == Format(year, k);
    FormatParses(year, i + 1);
    FormatParses(year, k);
  }

  /**
    Issuing succeeds exactly while the year holds fewer than 1000000 numbers; it then appends the format
    of the next sequence and leaves every other year alone.
  */
  lemma IssueContinues(numbers: seq<string>, year: nat)
    requires WellNumbered(numbers)
    ensures Issue(numbers, year).Ok? <==> |Issued(numbers, year)| < LAST
    ensures Issue(numbers, year).Ok? ==>
      && WellNumbered(Issue(numbers, year).value)
      && Issued(Issue(numbers, year).value, year) == Formats(year, |Issued(numbers, year)| + 1)
      && forall other: nat :: other != year ==>
           Issued(Issue(numbers, year).value, other) == Issued(numbers, other)
  {
    hide NextNumber, Format, Prefix, Greatest, StartsWith;
    var n, next := |Issued(numbers, year)|, NextNumber(numbers, year);
    NextContinues(numbers, year);
    GreatestIssued(numbers, year);
    assert NumberedTo(numbers, year, n);
    if n == LAST {
      FormatParses(year, LAST);
      assert Formats(year, LAST)[LAST - 1] == next;
      assert next in Issued(numbers, year);
    } else {
      FormatParses(year, n + 1);
      if next in numbers {
        FormatsDistinct(year, n, n + 1);
      }
      var after := numbers + [next];
      assert after[..|numbers|] == numbers;
      assert Formats(year, n + 1) == Formats(year, n) + [next];
      forall other: nat
        ensures other != year ==> Issued(after, other) == Issued(numbers, other)
        ensures NumberedTo(after, other, |Issued(after, other)|)
      {
        FormatYear(year, n + 1, other);
        assert NumberedTo(numbers, other, |Issued(numbers, other)|);
      }
    }
  }

  /** Issues numbers for the years of a run of postings; a posting that fails inserts nothing. */
  function IssueAll(years: seq<nat>): seq<string>
  {
    if years == [] then []
    else
      var numbers := IssueAll(years[..|years| - 1]);
      var issued := Issue(numbers, years[|years| - 1]);
      if issued.Ok? then issued.value else numbers
  }

  function Occurrences(years: seq<nat>, year: nat): nat
  {
    if years == [] then 0
    else Occurrences(years[..|years| - 1], year) + if years[|years| - 1] == year then 1 else 0
  }

  /** Over every run, the numbers of a year are the formats of 1..n, n being the postings of that year up to 1000000. */
  lemma {:induction false} EveryRunIsGapless(years: seq<nat>, year: nat)
    ensures WellNumbered(IssueAll(years))
    ensures var n := Occurrences(years, year);
      Issued(IssueAll(years), year) == Formats(year, if n <= LAST then n else LAST)
  {
    NoNumbers(year);
    hide WellNumbered, Issue, Issued;
    if years != [] {
      EveryRunIsGapless(years[..|years| - 1], year);
      IssueContinues(IssueAll(years[..|years| - 1]), years[|years| - 1]);
    }
  }

  lemma NoNumbers(year: nat)
    ensures WellNumbered([]) && Issued([], year) == Formats(year, 0)
  {
    forall y: nat ensures NumberedTo([], y, |Issued([], y)|) {
      assert Formats(y, 0) == [];
    }
  }
}
