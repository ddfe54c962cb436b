/** Lines of journal entries: what they add up to, in all and on one account. */
module Postings {
  import opened Rounding

  /** A journal line; amounts in cents, an account named by its code. */
  datatype Line = Line(account: string, debit: int, credit: int)

  function Debits(lines: seq<Line>): int
  {
    if lines == [] then 0 else Debits(lines[..|lines| - 1]) + lines[|lines| - 1].debit
  }

  function Credits(lines: seq<Line>): int
  {
    if lines == [] then 0 else Credits(lines[..|lines| - 1]) + lines[|lines| - 1].credit
  }

  /** Debit minus credit on one account. */
  function OnAccount(lines: seq<Line>, account: string): int
  {
    if lines == [] then 0
    else
      var last := lines[|lines| - 1];
      OnAccount(lines[..|lines| - 1], account) + if last.account == account then last.debit - last.credit else 0
  }

  /** An amount on one account, seen from another: there it is nothing. */
  function At(account: string, code: string, amount: int): int
  {
    if account == code then amount else 0
  }

  predicate Balanced(lines: seq<Line>)
  {
    Debits(lines) == Credits(lines)
  }

  /** What validateDoubleEntry lets through, of amounts in parts of a cent: it compares rounded totals. */
  predicate ValidDoubleEntry(lines: seq<Line>, parts: Grid)
  {
    && |lines| >= 2
    && (forall l :: l in lines ==> l.debit >= 0 && l.credit >= 0 && !(l.debit == 0 && l.credit == 0))
    && RoundDiv(Debits(lines), parts) > 0 && RoundDiv(Credits(lines), parts) > 0
    && RoundDiv(Debits(lines), parts) == RoundDiv(Credits(lines), parts)
  }

  /** What the columns keep: every amount rounded to cents on its own. */
  function Stored(lines: seq<Line>, parts: Grid): (r: seq<Line>)
    ensures |r| == |lines|
    ensures forall i :: 0 <= i < |lines| ==>
              r[i] == Line(lines[i].account, RoundDiv(lines[i].debit, parts), RoundDiv(lines[i].credit, parts))
  {
    if lines == [] then []
    else
      var last := lines[|lines| - 1];
      Stored(lines[..|lines| - 1], parts)
      + [Line(last.account, RoundDiv(last.debit, parts), RoundDiv(last.credit, parts))]
  }

  /** On whole cents the columns keep the lines as they are, and what is let through balances. */
  lemma WholeCentLines(lines: seq<Line>)
    ensures Stored(lines, 1) == lines
    ensures ValidDoubleEntry(lines, 1) ==> Balanced(lines)
  {
    forall i | 0 <= i < |lines| ensures Stored(lines, 1)[i] == lines[i] {
      WholeCentsAgree(lines[i].debit, lines[i].credit);
    }
    WholeCentsAgree(Debits(lines), Credits(lines));
  }

  lemma {:induction false} LinesAddUp(lines: seq<Line>)
    requires forall l :: l in lines ==> l.debit >= 0 && l.credit >= 0 && l.debit + l.credit > 0
    ensures Debits(lines) + Credits(lines) >= |lines| && Debits(lines) >= 0 && Credits(lines) >= 0
  {
    if lines != [] {
      var front := lines[..|lines| - 1];
      assert lines[|lines| - 1] in lines && forall l :: l in front ==> l in lines;
      LinesAddUp(front);
    }
  }

  /** In whole cents two lines or more pass that balance, none negative and none empty: positive totals follow. */
  lemma WholeCentsPass(lines: seq<Line>)
    ensures ValidDoubleEntry(lines, 1) <==>
              && |lines| >= 2 && Balanced(lines)
              && forall l :: l in lines ==> l.debit >= 0 && l.credit >= 0 && l.debit + l.credit > 0
  {
    WholeCentsAgree(Debits(lines), Credits(lines));
    if forall l :: l in lines ==> l.debit >= 0 && l.credit >= 0 && l.debit + l.credit > 0 {
      LinesAddUp(lines);
    }
    hide Debits, Credits, RoundDiv;
  }

  /** In parts of a cent the rounded totals have to be equal and at least a cent. */
  lemma PartsPass(lines: seq<Line>, parts: Grid)
    ensures ValidDoubleEntry(lines, parts) <==>
              && |lines| >= 2 && RoundDiv(Debits(lines), parts) == RoundDiv(Credits(lines), parts)
              && 2 * Debits(lines) >= parts
              && forall l :: l in lines ==> l.debit >= 0 && l.credit >= 0 && l.debit + l.credit > 0
  {
    if forall l :: l in lines ==> l.debit >= 0 && l.credit >= 0 && l.debit + l.credit > 0 {
      LinesAddUp(lines);
      RoundsToNothing(Debits(lines), parts);
    }
    hide Debits, Credits, RoundDiv;
  }

  // ---------------------------------------------------------------- what rounding line by line does to an entry

  /** One of the two columns of a line, and of all lines. */
  function Cell(line: Line, debit: bool): int
  {
    if debit then line.debit else line.credit
  }

  function Column(lines: seq<Line>, debit: bool): int
  {
    if debit then Debits(lines) else Credits(lines)
  }

  /** The whole cents of the column. */
  function Wholes(lines: seq<Line>, parts: Grid, debit: bool): int
  {
    if lines == [] then 0
    else Wholes(lines[..|lines| - 1], parts, debit) + Cell(lines[|lines| - 1], debit) / parts
  }

  /** What the amounts of the column have over whole cents, together. */
  function Remainders(lines: seq<Line>, parts: Grid, debit: bool): int
  {
    if lines == [] then 0
    else Remainders(lines[..|lines| - 1], parts, debit) + Cell(lines[|lines| - 1], debit) % parts
  }

  /** How many amounts of the column are rounded up: those with half a cent or more over whole cents. */
  function Ups(lines: seq<Line>, parts: Grid, debit: bool): int
  {
    if lines == [] then 0
    else
      Ups(lines[..|lines| - 1], parts, debit)
      + if 2 * (Cell(lines[|lines| - 1], debit) % parts) >= parts then 1 else 0
  }

  /** The cents by which the column adds up to more than its rounded total. */
  function Drift(lines: seq<Line>, parts: Grid, debit: bool): int
  {
    Ups(lines, parts, debit) - RoundDiv(Remainders(lines, parts, debit), parts)
  }

  lemma {:induction false} ColumnInParts(lines: seq<Line>, parts: Grid, debit: bool)
    ensures Column(lines, debit) == parts * Wholes(lines, parts, debit) + Remainders(lines, parts, debit)
  {
    if lines != [] {
      var front, last := lines[..|lines| - 1], Cell(lines[|lines| - 1], debit);
      ColumnInParts(front, parts, debit);
      var before, whole, over := Wholes(front, parts, debit), last / parts, last % parts;
      assert last == parts * whole + over;
      assert parts * (before + whole) == parts * before + parts * whole;
    }
  }

  lemma {:induction false} StoredInCents(lines: seq<Line>, parts: Grid, debit: bool)
    ensures Column(Stored(lines, parts), debit) == Wholes(lines, parts, debit) + Ups(lines, parts, debit)
  {
    hide RoundDiv;
    if lines != [] {
      var front, last := lines[..|lines| - 1], Cell(lines[|lines| - 1], debit);
      StoredInCents(front, parts, debit);
      RoundByRemainder(last, parts);
      assert Stored(lines, parts)[..|front|] == Stored(front, parts);
    }
  }

  /** The stored column adds up to the rounded total and the drift. */
  lemma StoredColumn(lines: seq<Line>, parts: Grid, debit: bool)
    ensures Column(Stored(lines, parts), debit) == RoundDiv(Column(lines, debit), parts) + Drift(lines, parts, debit)
  {
    hide RoundDiv, Column, Stored, Wholes, Ups, Remainders;
    ColumnInParts(lines, parts, debit);
    StoredInCents(lines, parts, debit);
    RoundDivShift(Wholes(lines, parts, debit), Remainders(lines, parts, debit), parts);
  }

  /** An accepted entry is stored in balance if and only if both columns drift alike. */
  lemma StoredBalance(lines: seq<Line>, parts: Grid)
    requires ValidDoubleEntry(lines, parts)
    ensures Balanced(Stored(lines, parts)) <==> Drift(lines, parts, true) == Drift(lines, parts, false)
  {
    hide RoundDiv, Stored, Drift, Debits, Credits;
    StoredColumn(lines, parts, true);
    StoredColumn(lines, parts, false);
  }

  /** The columns drift alike and every line has at least half a cent. */
  predicate KeepsValid(lines: seq<Line>, parts: Grid)
  {
    && Drift(lines, parts, true) == Drift(lines, parts, false)
    && forall l :: l in lines ==> 2 * l.debit >= parts || 2 * l.credit >= parts
  }

  /** An accepted entry passes validateDoubleEntry again, as it is stored, if and only if it keeps valid. */
  lemma StoredPasses(lines: seq<Line>, parts: Grid)
    requires ValidDoubleEntry(lines, parts)
    ensures ValidDoubleEntry(Stored(lines, parts), 1) <==> KeepsValid(lines, parts)
  {
    var stored := Stored(lines, parts);
    StoredBalance(lines, parts);
    forall i | 0 <= i < |lines|
      ensures lines[i] in lines && stored[i].debit >= 0 && stored[i].credit >= 0
      ensures stored[i].debit + stored[i].credit > 0 <==> 2 * lines[i].debit >= parts || 2 * lines[i].credit >= parts
    {
      RoundsToNothing(lines[i].debit, parts);
      RoundsToNothing(lines[i].credit, parts);
    }
    WholeCentsAgree(Debits(stored), Credits(stored));
    hide RoundDiv, Stored, Drift, Debits, Credits;
    if KeepsValid(lines, parts) {
      LinesAddUp(stored);
    } else if ValidDoubleEntry(stored, 1) {
      forall l | l in lines ensures 2 * l.debit >= parts || 2 * l.credit >= parts {
        var i :| 0 <= i < |lines| && lines[i] == l;
        assert stored[i] in stored;
      }
    }
  }

  /** Half cents, one line of them to a cent of the total: accepted, but stored out of balance. */
  lemma RoundedTotalsHideALine(a: string, b: string)
    ensures var lines := [Line(a, 1, 0), Line(a, 1, 0), Line(b, 0, 2)];
      ValidDoubleEntry(lines, 2) && !Balanced(Stored(lines, 2)) && !ValidDoubleEntry(Stored(lines, 2), 1)
  {
    var lines := [Line(a, 1, 0), Line(a, 1, 0), Line(b, 0, 2)];
    SumsOfThree(lines);
    SumsOfThree(Stored(lines, 2));
    hide Debits, Credits, OnAccount, Stored;
    assert Stored(lines, 2)[0] == Line(a, 1, 0) && Stored(lines, 2)[2] == Line(b, 0, 1);
  }

  /** A line below half a cent beside two that balance: accepted and stored in balance, but with a 0/0 line. */
  lemma SmallLineVanishes(a: string, b: string)
    ensures var lines := [Line(a, 10_000, 0), Line(a, 4, 0), Line(b, 0, 10_000)];
      ValidDoubleEntry(lines, 10) && Balanced(Stored(lines, 10)) && !ValidDoubleEntry(Stored(lines, 10), 1)
  {
    var lines := [Line(a, 10_000, 0), Line(a, 4, 0), Line(b, 0, 10_000)];
    SumsOfThree(lines);
    SumsOfThree(Stored(lines, 10));
    hide Debits, Credits, OnAccount, Stored;
    assert Stored(lines, 10)[1] == Line(a, 0, 0) && Stored(lines, 10)[2] == Line(b, 0, 1000);
    assert Stored(lines, 10)[1] in Stored(lines, 10);
  }

  /** Debits and credits exchanged, line by line. */
  function Mirrored(lines: seq<Line>): (r: seq<Line>)
    ensures |r| == |lines|
    ensures forall i :: 0 <= i < |lines| ==> r[i] == Line(lines[i].account, lines[i].credit, lines[i].debit)
  {
    if lines == [] then []
    else
      var last := lines[|lines| - 1];
      Mirrored(lines[..|lines| - 1]) + [Line(last.account, last.credit, last.debit)]
  }

  /** An entry and its mirror image cancel on every account, and one balances if the other does. */
  lemma {:induction false} MirrorCancels(lines: seq<Line>, account: string)
    ensures OnAccount(lines, account) + OnAccount(Mirrored(lines), account) == 0
    ensures Debits(Mirrored(lines)) == Credits(lines) && Credits(Mirrored(lines)) == Debits(lines)
  {
    if lines != [] {
      var front := lines[..|lines| - 1];
      MirrorCancels(front, account);
      assert Mirrored(lines)[..|front|] == Mirrored(front);
    }
  }

  lemma SumsAppend(lines: seq<Line>, last: Line)
    ensures Debits(lines + [last]) == Debits(lines) + last.debit
    ensures Credits(lines + [last]) == Credits(lines) + last.credit
    ensures forall a :: OnAccount(lines + [last], a) ==
              OnAccount(lines, a) + if last.account == a then last.debit - last.credit else 0
  {
    assert (lines + [last])[..|lines|] == lines;
  }

  lemma SumsOfTwo(l: seq<Line>)
    requires |l| == 2
    ensures Debits(l) == l[0].debit + l[1].debit && Credits(l) == l[0].credit + l[1].credit
    ensures forall a :: OnAccount(l, a) == (if l[0].account == a then l[0].debit - l[0].credit else 0)
              + (if l[1].account == a then l[1].debit - l[1].credit else 0)
  {
    hide Debits, Credits, OnAccount;
    SumsAppend(NoLines(), l[0]);
    SumsAppend([l[0]], l[1]);
    assert NoLines() + [l[0]] == [l[0]] && [l[0]] + [l[1]] == l;
    SumsOfNone();
  }

  function NoLines(): seq<Line> { [] }

  lemma SumsOfNone()
    ensures Debits(NoLines()) == 0 && Credits(NoLines()) == 0 && forall a :: OnAccount(NoLines(), a) == 0
  {
  }

  lemma SumsOfThree(l: seq<Line>)
    requires |l| == 3
    ensures Debits(l) == l[0].debit + l[1].debit + l[2].debit
    ensures Credits(l) == l[0].credit + l[1].credit + l[2].credit
    ensures forall a :: OnAccount(l, a) == (if l[0].account == a then l[0].debit - l[0].credit else 0)
              + (if l[1].account == a then l[1].debit - l[1].credit else 0)
              + (if l[2].account == a then l[2].debit - l[2].credit else 0)
  {
    hide Debits, Credits, OnAccount;
    SumsOfTwo(l[..2]);
    SumsAppend(l[..2], l[2]);
    assert l[..2] + [l[2]] == l;
  }

  lemma SumsOfSix(l: seq<Line>)
    requires |l| == 6
    ensures Debits(l) == l[0].debit + l[1].debit + l[2].debit + l[3].debit + l[4].debit + l[5].debit
    ensures Credits(l) == l[0].credit + l[1].credit + l[2].credit + l[3].credit + l[4].credit + l[5].credit
  {
    hide Debits, Credits, OnAccount;
    SumsOfThree(l[..3]);
    SumsAppend(l[..3], l[3]);
    SumsAppend(l[..4], l[4]);
    SumsAppend(l[..5], l[5]);
    assert l[..3] + [l[3]] == l[..4] && l[..4] + [l[4]] == l[..5] && l[..5] + [l[5]] == l;
  }

  /** Lines that do not name an account leave it alone. */
  lemma {:induction false} OtherAccounts(lines: seq<Line>, account: string)
    requires forall l :: l in lines ==> l.account != account
    ensures OnAccount(lines, account) == 0
  {
    if lines != [] {
      var front, last := lines[..|lines| - 1], lines[|lines| - 1];
      assert last in lines && forall l :: l in front ==> l in lines;
      OtherAccounts(front, account);
    }
  }
}
