/** All that holds in every reachable state of the books, in one place. */
module BooksSound {
  import opened Ledger
  import opened Books
  import opened BooksJournal
  import opened BooksDocuments
  import opened BooksBank
  import opened BooksPeriodic
  import Depreciation

  /** All that every request keeps. */
  ghost predicate Sound(c: Company)
  {
    && JournalInvariant(c.journal) && InvoicesSound(c.invoices) && BillsSound(c.bills) && BankSound(c)
    && CreditNotesSound(c.invoices) && DelegationsSound(c.team.delegations) && PayrollsSound(c.payrolls)
    && forall i :: 0 <= i < |c.assets| ==> Depreciation.AssetInvariant(c.assets[i])
  }

  lemma RequestKeepsSound(c: Company, r: Request)
    requires Sound(c)
    ensures Sound(After(c, r))
  {
    EveryStep(c, r);
    InvoicesStep(c, r);
    BillsStep(c, r);
    EveryStepKeepsLines(c, r);
    AssetsStep(c, r);
    CreditNotesStep(c, r);
    DelegationsStep(c, r);
    PayrollsStep(c, r);
    hide After, Execute, JournalInvariant, InvoicesSound, BillsSound, BankSound, InvoicesChange, BillsChange,
         CreditNotesSound, DelegationsSound, PayrollsSound, CreditNote, JournalContinues,
         Depreciation.AssetInvariant, Depreciation.RunPeriod;
    InvoicesStaySound(c.invoices, After(c, r).invoices);
    BillsStaySound(c.bills, After(c, r).bills);
    forall i | 0 <= i < |After(c, r).assets| ensures Depreciation.AssetInvariant(After(c, r).assets[i]) {
      if i < |c.assets| {
        Depreciation.RunKeepsInvariant(c.assets[i], if r.RunDepreciation? then r.name else "");
      } else {
        Depreciation.FreshAsset(r.plan);
      }
    }
  }

  /** Every run of requests leads to such a state. */
  lemma {:induction false} EveryRunIsSound(requests: seq<Request>)
    ensures Sound(Run(requests))
  {
    if requests == [] {
      StartIsSound();
    } else {
      hide After, Sound;
      EveryRunIsSound(requests[..|requests| - 1]);
      RequestKeepsSound(Run(requests[..|requests| - 1]), requests[|requests| - 1]);
    }
  }

  lemma SoundParts(c: Company)
    requires Sound(c)
    ensures JournalInvariant(c.journal) && InvoicesSound(c.invoices) && BillsSound(c.bills)
    ensures CreditNotesSound(c.invoices) && DelegationsSound(c.team.delegations) && PayrollsSound(c.payrolls)
  {
    hide JournalInvariant, InvoicesSound, BillsSound, BankSound, CreditNotesSound, DelegationsSound, PayrollsSound;
  }

  lemma StartIsSound()
    ensures Sound(START)
  {
    EmptyJournal();
    EveryRunMatchesLines([]);
  }
}
