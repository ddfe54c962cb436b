/** The journal: entries, their numbers and statuses, reversals, and the periods that lock them. */
module Ledger {
  import opened Results
  import opened Rounding
  import opened Calendar
  import opened JournalNumbers
  import opened Postings

  datatype EntryStatus = DRAFT | VALIDATED | CLOSED

  /** An entry is identified by its position; reversalOf names the entry it is the storno of. */
  datatype Entry = Entry(number: string, date: Date, period: string, status: EntryStatus, posted: bool,
                         reversalOf: Option<nat>, lines: seq<Line>)

  /** The entries in the order of creation, the closed periods, and which accounts exist and are active. */
  datatype Journal = Journal(entries: seq<Entry>, closed: set<string>, accounts: map<string, bool>)

  function Numbers(entries: seq<Entry>): seq<string>
  {
    if entries == [] then [] else Numbers(entries[..|entries| - 1]) + [entries[|entries| - 1].number]
  }

  predicate PeriodOpen(j: Journal, period: string)
  {
    period !in j.closed
  }

  predicate Reversed(entries: seq<Entry>, id: nat)
  {
    exists i :: 0 <= i < |entries| && entries[i].reversalOf == Some(id)
  }

  function Insert(j: Journal, date: Date, period: string, status: EntryStatus, posted: bool,
                  reversalOf: Option<nat>, lines: seq<Line>): Result<Journal>
  {
    if Issue(Numbers(j.entries), Year(date)).Err? then Err(Conflict)
    else
      var number := NextNumber(Numbers(j.entries), Year(date));
      Ok(j.(entries := j.entries + [Entry(number, date, period, status, posted, reversalOf, lines)]))
  }

  /** The entry a route creates of itself: the schema's defaults make it VALIDATED and posted. */
  function Post(j: Journal, date: Date, period: string, lines: seq<Line>): Result<Journal>
  {
    Insert(j, date, period, VALIDATED, true, None, lines)
  }

  // ---------------------------------------------------------------- the journal and period routes

  function PeriodFor(period: Option<string>, date: Date): string
  {
    if period.Some? then period.value else CurrentPeriod(date)
  }

  predicate ActiveAccounts(j: Journal, lines: seq<Line>)
  {
    forall l :: l in lines ==> l.account in j.accounts && j.accounts[l.account]
  }

  /** The lines come in parts of a cent and are stored in cents. */
  function CreateEntry(j: Journal, date: Date, period: Option<string>, lines: seq<Line>, parts: Grid): Result<Journal>
  {
    if !ValidDoubleEntry(lines, parts) || !ActiveAccounts(j, lines) then Err(BadRequest)
    else if !PeriodOpen(j, PeriodFor(period, date)) then Err(Conflict)
    else Insert(j, date, PeriodFor(period, date), DRAFT, false, None, Stored(lines, parts))
  }

  function ValidateEntry(j: Journal, id: nat): Result<Journal>
  {
    if id >= |j.entries| then Err(NotFound)
    else if j.entries[id].status != DRAFT then Err(Conflict)
    else if !ValidDoubleEntry(j.entries[id].lines, 1) then Err(BadRequest)
    else if !PeriodOpen(j, j.entries[id].period) then Err(Conflict)
    else Ok(j.(entries := j.entries[id := j.entries[id].(status := VALIDATED, posted := true)]))
  }

  function StornoEntry(j: Journal, id: nat, date: Date, period: Option<string>): Result<Journal>
  {
    if id >= |j.entries| then Err(NotFound)
    else if j.entries[id].status == DRAFT || j.entries[id].reversalOf.Some? then Err(Conflict)
    else if Reversed(j.entries, id) then Err(Conflict)
    else if !PeriodOpen(j, PeriodFor(period, date)) then Err(Conflict)
    else Insert(j, date, PeriodFor(period, date), VALIDATED, true, Some(id), Mirrored(j.entries[id].lines))
  }

  /** updateMany: the entries of the period in one status get another. */
  function Restatus(entries: seq<Entry>, period: string, from: EntryStatus, to: EntryStatus): (r: seq<Entry>)
    ensures |r| == |entries|
    ensures forall i :: 0 <= i < |entries| ==>
              r[i] == if entries[i].period == period && entries[i].status == from
                      then entries[i].(status := to) else entries[i]
  {
    if entries == [] then []
    else
      var last := entries[|entries| - 1];
      Restatus(entries[..|entries| - 1], period, from, to)
      + [if last.period == period && last.status == from then last.(status := to) else last]
  }

  predicate HasDraft(entries: seq<Entry>, period: string)
  {
    exists e :: e in entries && e.period == period && e.status == DRAFT
  }

  function ClosePeriod(j: Journal, period: string): Result<Journal>
  {
    if ParsePeriod(period).Err? then Err(BadRequest)
    else if HasDraft(j.entries, period) then Err(Conflict)
    else Ok(j.(entries := Restatus(j.entries, period, VALIDATED, CLOSED), closed := j.closed + {period}))
  }

  function ReopenPeriod(j: Journal, period: string): Result<Journal>
  {
    if ParsePeriod(period).Err? then Err(BadRequest)
    else Ok(j.(entries := Restatus(j.entries, period, CLOSED, VALIDATED), closed := j.closed - {period}))
  }

  // ---------------------------------------------------------------- what every route keeps

  /** Closed exactly with its period, and posted unless a draft. */
  predicate EntryInvariant(j: Journal, e: Entry)
  {
    && (e.status == CLOSED <==> !PeriodOpen(j, e.period))
    && (e.posted <==> e.status != DRAFT)
  }

  /** A storno mirrors an earlier entry that is neither a draft nor a storno. */
  predicate StornoOf(entries: seq<Entry>, i: nat, id: nat)
    requires i < |entries|
  {
    && id < i && entries[id].status != DRAFT && entries[id].reversalOf.None?
    && entries[i].lines == Mirrored(entries[id].lines)
  }

  /** Reversal links form a matching: no entry has two stornos. */
  predicate StornoMatching(entries: seq<Entry>)
  {
    && (forall i :: 0 <= i < |entries| && entries[i].reversalOf.Some? ==>
          StornoOf(entries, i, entries[i].reversalOf.value))
    && (forall i, k :: 0 <= i < k < |entries| && entries[i].reversalOf.Some? ==>
          entries[i].reversalOf != entries[k].reversalOf)
  }

  ghost predicate JournalInvariant(j: Journal)
  {
    && (forall i :: 0 <= i < |j.entries| ==> EntryInvariant(j, j.entries[i]))
    && StornoMatching(j.entries)
    && WellNumbered(Numbers(j.entries))
  }

  /** What an entry says stays; it ceases to be a draft only by passing validateDoubleEntry, and never is one again. */
  predicate SameContent(e: Entry, f: Entry)
  {
    && e.number == f.number && e.date == f.date && e.period == f.period && e.reversalOf == f.reversalOf
    && e.lines == f.lines && (e.status != DRAFT ==> f.status != DRAFT)
    && (e.status == DRAFT && f.status != DRAFT ==> ValidDoubleEntry(e.lines, 1))
  }

  /** Entries are never removed, renumbered, moved or rewritten. */
  predicate Grows(before: seq<Entry>, after: seq<Entry>)
  {
    |before| <= |after| && forall i :: 0 <= i < |before| ==> SameContent(before[i], after[i])
  }

  /** No entry enters a closed period, none in it changes, and it stays closed: unless that period is reopened. */
  predicate RespectsLocks(j: Journal, after: Journal, reopened: Option<string>)
  {
    && |j.entries| <= |after.entries|
    && (forall i :: |j.entries| <= i < |after.entries| ==> PeriodOpen(j, after.entries[i].period))
    && (forall i :: 0 <= i < |j.entries| && !PeriodOpen(j, j.entries[i].period) ==>
          reopened != Some(j.entries[i].period) ==> after.entries[i] == j.entries[i])
    && (forall p :: p in j.closed && reopened != Some(p) ==> p in after.closed)
  }

  /** One entry more, the others and the periods as they were. */
  predicate Appended(j: Journal, after: Journal, date: Date, period: string, status: EntryStatus, posted: bool,
                     reversalOf: Option<nat>, lines: seq<Line>)
  {
    && after.closed == j.closed && after.accounts == j.accounts
    && |after.entries| == |j.entries| + 1 && after.entries[..|j.entries|] == j.entries
    && var e := after.entries[|j.entries|];
       && e.date == date && e.period == period && e.status == status && e.posted == posted
       && e.reversalOf == reversalOf && e.lines == lines
  }

  lemma InsertAppends(j: Journal, date: Date, period: string, status: EntryStatus, posted: bool,
                      reversalOf: Option<nat>, lines: seq<Line>)
    requires Insert(j, date, period, status, posted, reversalOf, lines).Ok?
    ensures Appended(j, Insert(j, date, period, status, posted, reversalOf, lines).value,
                     date, period, status, posted, reversalOf, lines)
    ensures Grows(j.entries, Insert(j, date, period, status, posted, reversalOf, lines).value.entries)
  {
    hide Issue, NextNumber, WellNumbered, Numbers, SameContent, ValidDoubleEntry;
    var after := Insert(j, date, period, status, posted, reversalOf, lines).value;
    assert after.entries[..|j.entries|] == j.entries;
    forall i | 0 <= i < |j.entries| ensures SameContent(j.entries[i], after.entries[i]) {
      NothingChanges(j.entries[i]);
    }
  }

  lemma NothingChanges(e: Entry)
    ensures SameContent(e, e)
  {
  }

  lemma InsertKeepsNumbers(j: Journal, date: Date, period: string, status: EntryStatus, posted: bool,
                           reversalOf: Option<nat>, lines: seq<Line>)
    requires Insert(j, date, period, status, posted, reversalOf, lines).Ok? && WellNumbered(Numbers(j.entries))
    ensures WellNumbered(Numbers(Insert(j, date, period, status, posted, reversalOf, lines).value.entries))
  {
    hide Issue, NextNumber, WellNumbered;
    var after := Insert(j, date, period, status, posted, reversalOf, lines).value;
    assert after.entries[..|j.entries|] == j.entries;
    IssueContinues(Numbers(j.entries), Year(date));
    IssueAppends(Numbers(j.entries), Year(date));
  }

  lemma IssueAppends(numbers: seq<string>, year: nat)
    requires Issue(numbers, year).Ok?
    ensures Issue(numbers, year).value == numbers + [NextNumber(numbers, year)]
  {
    hide NextNumber;
  }

  lemma InsertKeepsInvariant(j: Journal, date: Date, period: string, status: EntryStatus, posted: bool,
                             reversalOf: Option<nat>, lines: seq<Line>)
    requires JournalInvariant(j) && PeriodOpen(j, period)
    requires status != CLOSED && (posted <==> status != DRAFT)
    requires reversalOf.Some? ==>
      && reversalOf.value < |j.entries| && !Reversed(j.entries, reversalOf.value)
      && j.entries[reversalOf.value].status != DRAFT && j.entries[reversalOf.value].reversalOf.None?
      && lines == Mirrored(j.entries[reversalOf.value].lines)
    requires Insert(j, date, period, status, posted, reversalOf, lines).Ok?
    ensures JournalInvariant(Insert(j, date, period, status, posted, reversalOf, lines).value)
  {
    hide Insert, WellNumbered, Numbers, Mirrored, Grows;
    InsertAppends(j, date, period, status, posted, reversalOf, lines);
    InsertKeepsNumbers(j, date, period, status, posted, reversalOf, lines);
    var after := Insert(j, date, period, status, posted, reversalOf, lines).value;
    forall i | 0 <= i < |j.entries| ensures after.entries[i] == j.entries[i] {
      assert after.entries[..|j.entries|][i] == j.entries[i];
    }
  }

  lemma InsertRespectsLocks(j: Journal, date: Date, period: string, status: EntryStatus, posted: bool,
                            reversalOf: Option<nat>, lines: seq<Line>)
    requires PeriodOpen(j, period) && Insert(j, date, period, status, posted, reversalOf, lines).Ok?
    ensures RespectsLocks(j, Insert(j, date, period, status, posted, reversalOf, lines).value, None)
  {
    hide Insert, Grows, WellNumbered;
    InsertAppends(j, date, period, status, posted, reversalOf, lines);
    var after := Insert(j, date, period, status, posted, reversalOf, lines).value;
    forall i | 0 <= i < |j.entries| ensures after.entries[i] == j.entries[i] {
      assert after.entries[..|j.entries|][i] == j.entries[i];
    }
  }

  /** What a route posts keeps the journal in order if its period is open. */
  lemma PostKeepsInvariant(j: Journal, date: Date, period: string, lines: seq<Line>)
    requires JournalInvariant(j) && PeriodOpen(j, period)
    requires Post(j, date, period, lines).Ok?
    ensures JournalInvariant(Post(j, date, period, lines).value)
    ensures Grows(j.entries, Post(j, date, period, lines).value.entries)
    ensures RespectsLocks(j, Post(j, date, period, lines).value, None)
  {
    hide Insert, JournalInvariant, Grows, RespectsLocks, Appended;
    InsertKeepsInvariant(j, date, period, VALIDATED, true, None, lines);
    InsertAppends(j, date, period, VALIDATED, true, None, lines);
    InsertRespectsLocks(j, date, period, VALIDATED, true, None, lines);
  }

  lemma CreateKeepsInvariant(j: Journal, date: Date, period: Option<string>, lines: seq<Line>, parts: Grid)
    requires JournalInvariant(j) && CreateEntry(j, date, period, lines, parts).Ok?
    ensures JournalInvariant(CreateEntry(j, date, period, lines, parts).value)
    ensures Grows(j.entries, CreateEntry(j, date, period, lines, parts).value.entries)
    ensures RespectsLocks(j, CreateEntry(j, date, period, lines, parts).value, None)
    ensures ValidDoubleEntry(lines, parts) && PeriodOpen(j, PeriodFor(period, date))
    ensures Appended(j, CreateEntry(j, date, period, lines, parts).value,
                     date, PeriodFor(period, date), DRAFT, false, None, Stored(lines, parts))
  {
    hide Insert, JournalInvariant, Grows, RespectsLocks, Stored, Appended, ValidDoubleEntry;
    InsertKeepsInvariant(j, date, PeriodFor(period, date), DRAFT, false, None, Stored(lines, parts));
    InsertAppends(j, date, PeriodFor(period, date), DRAFT, false, None, Stored(lines, parts));
    InsertRespectsLocks(j, date, PeriodFor(period, date), DRAFT, false, None, Stored(lines, parts));
  }

  lemma StornoKeepsInvariant(j: Journal, id: nat, date: Date, period: Option<string>)
    requires JournalInvariant(j) && StornoEntry(j, id, date, period).Ok?
    ensures JournalInvariant(StornoEntry(j, id, date, period).value)
    ensures Grows(j.entries, StornoEntry(j, id, date, period).value.entries)
    ensures RespectsLocks(j, StornoEntry(j, id, date, period).value, None)
    ensures id < |j.entries| && j.entries[id].status != DRAFT && j.entries[id].reversalOf.None?
    ensures !Reversed(j.entries, id) && PeriodOpen(j, PeriodFor(period, date))
    ensures Appended(j, StornoEntry(j, id, date, period).value,
                     date, PeriodFor(period, date), VALIDATED, true, Some(id), Mirrored(j.entries[id].lines))
  {
    hide Insert, WellNumbered, Grows, Debits, Credits, Mirrored, RespectsLocks, Appended;
    var lines := j.entries[id].lines;
    InsertKeepsInvariant(j, date, PeriodFor(period, date), VALIDATED, true, Some(id), Mirrored(lines));
    InsertAppends(j, date, PeriodFor(period, date), VALIDATED, true, Some(id), Mirrored(lines));
    InsertRespectsLocks(j, date, PeriodFor(period, date), VALIDATED, true, Some(id), Mirrored(lines));
  }

  lemma {:induction false} SameNumbers(before: seq<Entry>, after: seq<Entry>)
    requires |before| == |after| && forall i :: 0 <= i < |before| ==> before[i].number == after[i].number
    ensures Numbers(before) == Numbers(after)
  {
    if before != [] {
      SameNumbers(before[..|before| - 1], after[..|after| - 1]);
    }
  }

  /** Statuses changed, nothing else. */
  lemma StatusesChange(before: seq<Entry>, after: seq<Entry>)
    requires |before| == |after| && Grows(before, after)
    requires forall i :: 0 <= i < |before| && after[i].status == DRAFT ==> before[i].status == DRAFT
    ensures StornoMatching(before) ==> StornoMatching(after)
    ensures Numbers(before) == Numbers(after)
  {
    hide Numbers, Mirrored;
    forall i | 0 <= i < |before| ensures before[i].number == after[i].number {
      assert SameContent(before[i], after[i]);
    }
    SameNumbers(before, after);
    if StornoMatching(before) {
      forall i | 0 <= i < |after| && after[i].reversalOf.Some? ensures StornoOf(after, i, after[i].reversalOf.value) {
        assert SameContent(before[i], after[i]);
        assert StornoOf(before, i, before[i].reversalOf.value);
        assert SameContent(before[before[i].reversalOf.value], after[after[i].reversalOf.value]);
      }
      forall i, k | 0 <= i < k < |after| && after[i].reversalOf.Some?
        ensures after[i].reversalOf != after[k].reversalOf {
        assert SameContent(before[i], after[i]) && SameContent(before[k], after[k]);
      }
    }
  }

  lemma ValidateKeepsInvariant(j: Journal, id: nat)
    requires JournalInvariant(j) && ValidateEntry(j, id).Ok?
    ensures JournalInvariant(ValidateEntry(j, id).value)
    ensures Grows(j.entries, ValidateEntry(j, id).value.entries)
    ensures RespectsLocks(j, ValidateEntry(j, id).value, None)
    ensures id < |j.entries| && j.entries[id].status == DRAFT && ValidDoubleEntry(j.entries[id].lines, 1)
    ensures var after := ValidateEntry(j, id).value;
      && after.closed == j.closed && |after.entries| == |j.entries|
      && after.entries[id].status == VALIDATED && after.entries[id].posted
      && forall i :: 0 <= i < |j.entries| && i != id ==> after.entries[i] == j.entries[i]
  {
    hide StornoMatching, Numbers, WellNumbered, ValidDoubleEntry;
    var after := ValidateEntry(j, id).value;
    assert RespectsLocks(j, after, None);
    StatusesChange(j.entries, after.entries);
    assert EntryInvariant(j, j.entries[id]);
  }

  lemma CloseKeepsInvariant(j: Journal, period: string)
    requires JournalInvariant(j) && ClosePeriod(j, period).Ok?
    ensures JournalInvariant(ClosePeriod(j, period).value)
    ensures Grows(j.entries, ClosePeriod(j, period).value.entries)
    ensures RespectsLocks(j, ClosePeriod(j, period).value, None)
    ensures var after := ClosePeriod(j, period).value;
      && (forall p :: !PeriodOpen(after, p) <==> !PeriodOpen(j, p) || p == period)
      && |after.entries| == |j.entries|
      && forall i :: 0 <= i < |j.entries| ==>
           if j.entries[i].period == period
           then j.entries[i].status != DRAFT && after.entries[i] == j.entries[i].(status := CLOSED)
           else after.entries[i] == j.entries[i]
  {
    hide StornoMatching, Numbers, WellNumbered, ParsePeriod, ValidDoubleEntry;
    var after := ClosePeriod(j, period).value;
    StatusesChange(j.entries, after.entries);
    forall i | 0 <= i < |after.entries| ensures EntryInvariant(after, after.entries[i]) {
      assert EntryInvariant(j, j.entries[i]);
      assert j.entries[i] in j.entries;
    }
  }

  lemma ReopenKeepsInvariant(j: Journal, period: string)
    requires JournalInvariant(j) && ReopenPeriod(j, period).Ok?
    ensures JournalInvariant(ReopenPeriod(j, period).value)
    ensures Grows(j.entries, ReopenPeriod(j, period).value.entries)
    ensures RespectsLocks(j, ReopenPeriod(j, period).value, Some(period))
    ensures var after := ReopenPeriod(j, period).value;
      && (forall p :: !PeriodOpen(after, p) <==> !PeriodOpen(j, p) && p != period)
      && |after.entries| == |j.entries|
      && forall i :: 0 <= i < |j.entries| ==>
           if j.entries[i].period == period && !PeriodOpen(j, period)
           then after.entries[i] == j.entries[i].(status := VALIDATED)
           else after.entries[i] == j.entries[i]
  {
    hide StornoMatching, Numbers, WellNumbered, ParsePeriod, ValidDoubleEntry;
    var after := ReopenPeriod(j, period).value;
    StatusesChange(j.entries, after.entries);
    forall i | 0 <= i < |after.entries| ensures EntryInvariant(after, after.entries[i]) {
      assert EntryInvariant(j, j.entries[i]);
    }
  }

  // ---------------------------------------------------------------- what the entries add up to

  function TotalDebit(entries: seq<Entry>): int
  {
    if entries == [] then 0 else TotalDebit(entries[..|entries| - 1]) + Debits(entries[|entries| - 1].lines)
  }

  function TotalCredit(entries: seq<Entry>): int
  {
    if entries == [] then 0 else TotalCredit(entries[..|entries| - 1]) + Credits(entries[|entries| - 1].lines)
  }

  /** Debit minus credit on one account, over all entries. */
  function AccountBalance(entries: seq<Entry>, account: string): int
  {
    if entries == [] then 0
    else AccountBalance(entries[..|entries| - 1], account) + OnAccount(entries[|entries| - 1].lines, account)
  }

  lemma {:induction false} TrialBalance(entries: seq<Entry>)
    requires forall e :: e in entries ==> Balanced(e.lines)
    ensures TotalDebit(entries) == TotalCredit(entries)
  {
    if entries != [] {
      var front, last := entries[..|entries| - 1], entries[|entries| - 1];
      assert last in entries && forall e :: e in front ==> e in entries;
      TrialBalance(front);
    }
  }

  /** The entries that count: all but the drafts. */
  function PostedEntries(entries: seq<Entry>): (r: seq<Entry>)
    ensures forall e :: e in r <==> e in entries && e.status != DRAFT
  {
    if entries == [] then []
    else
      var last := entries[|entries| - 1];
      PostedEntries(entries[..|entries| - 1]) + if last.status != DRAFT then [last] else []
  }

  /** Every posted entry balances. */
  ghost predicate PostedBalanced(entries: seq<Entry>)
  {
    forall i :: 0 <= i < |entries| && entries[i].status != DRAFT ==> Balanced(entries[i].lines)
  }

  lemma PostedTrialBalance(entries: seq<Entry>)
    requires PostedBalanced(entries)
    ensures TotalDebit(PostedEntries(entries)) == TotalCredit(PostedEntries(entries))
  {
    hide Balanced;
    forall e | e in PostedEntries(entries) ensures Balanced(e.lines) {
      assert e in entries;
    }
    TrialBalance(PostedEntries(entries));
  }

  /** An inserted entry leaves the posted ones balanced if it is a draft or balances itself, and only then. */
  lemma InsertBalance(j: Journal, date: Date, period: string, status: EntryStatus, posted: bool,
                      reversalOf: Option<nat>, lines: seq<Line>)
    requires Insert(j, date, period, status, posted, reversalOf, lines).Ok?
    ensures PostedBalanced(Insert(j, date, period, status, posted, reversalOf, lines).value.entries)
       <==> PostedBalanced(j.entries) && (status == DRAFT || Balanced(lines))
  {
    hide Insert, Balanced, Grows, WellNumbered;
    InsertAppends(j, date, period, status, posted, reversalOf, lines);
    var after := Insert(j, date, period, status, posted, reversalOf, lines).value.entries;
    forall i | 0 <= i < |j.entries| ensures after[i] == j.entries[i] {
      assert after[..|j.entries|][i] == j.entries[i];
    }
    if PostedBalanced(after) {
      assert after[|j.entries|].status != DRAFT ==> Balanced(after[|j.entries|].lines);
      forall i | 0 <= i < |j.entries| && j.entries[i].status != DRAFT ensures Balanced(j.entries[i].lines) {
        assert after[i] == j.entries[i];
      }
    }
  }

  lemma StornoBalance(j: Journal, id: nat, date: Date, period: Option<string>)
    requires StornoEntry(j, id, date, period).Ok?
    ensures PostedBalanced(StornoEntry(j, id, date, period).value.entries) <==> PostedBalanced(j.entries)
  {
    var lines := j.entries[id].lines;
    MirrorCancels(lines, "");
    assert Balanced(Mirrored(lines)) <==> Balanced(lines);
    hide Insert, Balanced, Mirrored;
    InsertBalance(j, date, PeriodFor(period, date), VALIDATED, true, Some(id), Mirrored(lines));
  }

  /** Validation looks at the stored lines: a draft they do not balance never gets past it. */
  lemma ValidateBalance(j: Journal, id: nat)
    requires ValidateEntry(j, id).Ok?
    ensures PostedBalanced(ValidateEntry(j, id).value.entries) <==> PostedBalanced(j.entries)
  {
    WholeCentLines(j.entries[id].lines);
    hide Balanced, ValidDoubleEntry;
    var before, after := j.entries, ValidateEntry(j, id).value.entries;
    forall i | 0 <= i < |before| ensures after[i].lines == before[i].lines && (i != id ==> after[i] == before[i]) {
    }
  }

  lemma RestatusBalance(entries: seq<Entry>, period: string, from: EntryStatus, to: EntryStatus)
    requires from != DRAFT && to != DRAFT
    ensures PostedBalanced(Restatus(entries, period, from, to)) <==> PostedBalanced(entries)
  {
    hide Balanced;
    var after := Restatus(entries, period, from, to);
    if PostedBalanced(after) {
      forall i | 0 <= i < |entries| && entries[i].status != DRAFT ensures Balanced(entries[i].lines) {
        assert after[i].lines == entries[i].lines && after[i].status != DRAFT;
      }
    }
  }

  lemma BalanceAppend(entries: seq<Entry>, entry: Entry, account: string)
    ensures AccountBalance(entries + [entry], account)
              == AccountBalance(entries, account) + OnAccount(entry.lines, account)
  {
    assert (entries + [entry])[..|entries|] == entries;
  }

  lemma PostOnAccount(j: Journal, date: Date, period: string, lines: seq<Line>, account: string)
    requires Post(j, date, period, lines).Ok?
    ensures AccountBalance(Post(j, date, period, lines).value.entries, account)
         == AccountBalance(j.entries, account) + OnAccount(lines, account)
  {
    hide Issue, NextNumber, OnAccount, AccountBalance;
    var after := Post(j, date, period, lines).value;
    BalanceAppend(j.entries, after.entries[|j.entries|], account);
  }

  lemma {:induction false} SameBalance(before: seq<Entry>, after: seq<Entry>, account: string)
    requires |before| == |after| && Grows(before, after)
    ensures AccountBalance(before, account) == AccountBalance(after, account)
  {
    if before != [] {
      var n := |before| - 1;
      assert SameContent(before[n], after[n]);
      forall i | 0 <= i < n ensures SameContent(before[..n][i], after[..n][i]) {
        assert SameContent(before[i], after[i]);
      }
      SameBalance(before[..n], after[..n], account);
    }
  }

  /** An entry and its storno together leave every account as it was. */
  lemma StornoCancels(j: Journal, i: nat, account: string)
    requires JournalInvariant(j) && i < |j.entries| && j.entries[i].reversalOf.Some?
    ensures j.entries[i].reversalOf.value < i
    ensures var reversed := j.entries[j.entries[i].reversalOf.value];
      OnAccount(reversed.lines, account) + OnAccount(j.entries[i].lines, account) == 0
  {
    hide Mirrored, OnAccount, WellNumbered;
    assert StornoOf(j.entries, i, j.entries[i].reversalOf.value);
    MirrorCancels(j.entries[j.entries[i].reversalOf.value].lines, account);
  }

  /** Reversing an entry takes it off every balance; it can then neither be reversed again nor its storno be. */
  lemma StornoUndoes(j: Journal, id: nat, date: Date, period: Option<string>, account: string)
    requires StornoEntry(j, id, date, period).Ok?
    ensures var after := StornoEntry(j, id, date, period).value;
      && AccountBalance(after.entries, account)
          == AccountBalance(j.entries, account) - OnAccount(j.entries[id].lines, account)
      && StornoEntry(after, id, date, period) == Err(Conflict)
      && StornoEntry(after, |j.entries|, date, period) == Err(Conflict)
  {
    hide Issue, NextNumber, OnAccount, AccountBalance, Mirrored;
    var after := StornoEntry(j, id, date, period).value;
    BalanceAppend(j.entries, after.entries[|j.entries|], account);
    MirrorCancels(j.entries[id].lines, account);
    assert after.entries[|j.entries|].reversalOf == Some(id);
  }

  /** Closing and reopening a period is the identity when the period was open. */
  lemma ReopenUndoesClose(j: Journal, period: string)
    requires JournalInvariant(j) && PeriodOpen(j, period) && ClosePeriod(j, period).Ok?
    ensures ReopenPeriod(ClosePeriod(j, period).value, period) == Ok(j)
  {
    hide ParsePeriod, StornoMatching, WellNumbered;
    var closed := ClosePeriod(j, period).value;
    var again := ReopenPeriod(closed, period).value;
    forall i | 0 <= i < |j.entries| ensures again.entries[i] == j.entries[i] {
      assert EntryInvariant(j, j.entries[i]);
    }
    assert again.entries == j.entries && again.closed == j.closed;
  }
}
