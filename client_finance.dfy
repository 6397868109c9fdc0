/** The client finance dashboard: a client's washes (charges) and payments merged into
    one journal ordered by date, with a running balance, the balance at the start of
    the chosen period, the period's journal newest first with its totals, and the
    local state a payment added or deleted updates. Dates are the instants the
    records' date strings parse to, given as a function. */
module ClientFinance {
  import opened Wrappers
  import opened Models
  import opened Text
  import opened Sorting
  import opened Totals

  datatype EntryKind = WashCharge | Payment

  /** One line of the combined journal: a wash charges its total amount, a payment
      credits its amount. */
  datatype Entry = Entry(
    id: string,
    date: int,
    kind: EntryKind,
    description: string,
    vehicleNumber: Option<string>,
    debit: real,
    credit: real)

  /** A journal line with the balance right after it. */
  datatype JournalEntry = JournalEntry(entry: Entry, balanceAfter: real)

  /** The main service's name, with the count of additional services when there are
      any: "Мойка (+2)". */
  function WashDescription(e: WashEvent): string {
    var extra := |e.services.additional.Seq()|;
    e.services.main.serviceName + (if extra > 0 then " (+" + Decimal(extra) + ")" else "")
  }

  function WashLine(e: WashEvent, time: string -> int): Entry {
    Entry(e.id, time(e.timestamp), WashCharge, WashDescription(e), Some(e.vehicleNumber), e.totalAmount, 0.0)
  }

  function PaymentLine(t: ClientTransaction, time: string -> int): Entry {
    Entry(t.id, time(t.date), Payment, t.description, None, 0.0, t.amount)
  }

  /** washEvents.map: one charge per wash, in order. */
  function WashLines(events: seq<WashEvent>, time: string -> int): (r: seq<Entry>)
    ensures |r| == |events|
    ensures forall i :: 0 <= i < |r| ==> r[i] == WashLine(events[i], time)
  {
    seq(|events|, i requires 0 <= i < |events| => WashLine(events[i], time))
  }

  /** transactions.map: one credit per payment, in order. */
  function PaymentLines(payments: seq<ClientTransaction>, time: string -> int): (r: seq<Entry>)
    ensures |r| == |payments|
    ensures forall i :: 0 <= i < |r| ==> r[i] == PaymentLine(payments[i], time)
  {
    seq(|payments|, i requires 0 <= i < |payments| => PaymentLine(payments[i], time))
  }

  function Debit(e: Entry): real { e.debit }
  function Credit(e: Entry): real { e.credit }
  function EntryDate(e: Entry): real { e.date as real }

  /** Dated at or after the instant. */
  function OnOrAfter(start: int): Entry -> bool {
    (e: Entry) => e.date >= start
  }

  /** Dated before the instant. */
  function Before(start: int): Entry -> bool {
    (e: Entry) => e.date < start
  }

  /** All charges and payments, ascending by date; equal dates keep washes before
      payments and each list's own order. */
  function Merged(events: seq<WashEvent>, payments: seq<ClientTransaction>, time: string -> int): seq<Entry> {
    SortAsc(WashLines(events, time) + PaymentLines(payments, time), EntryDate)
  }

  /** The balance at the start of the period, as the dashboard computes it: the
      client's balance, less the charges and plus the payments dated at or after the
      period's start. */
  function OpeningBalance(balance: real, events: seq<WashEvent>, payments: seq<ClientTransaction>,
                          start: int, time: string -> int): real
  {
    balance
      - Total(Filter(WashLines(events, time), OnOrAfter(start)), Debit)
      + Total(Filter(PaymentLines(payments, time), OnOrAfter(start)), Credit)
  }

  /** The journal with balances: the k-th line's balance is the opening balance less
      the charges and plus the payments of the lines up to and including it. */
  function Journal(entries: seq<Entry>, opening: real): (r: seq<JournalEntry>)
    ensures |r| == |entries|
  {
    seq(|entries|, k requires 0 <= k < |entries| =>
      JournalEntry(entries[k], opening - Total(entries[..k + 1], Debit) + Total(entries[..k + 1], Credit)))
  }

  /** The loop over all entries: the running balance is pushed with each line and
      ends as the opening balance less every charge and plus every payment. */
  method RunningBalances(entries: seq<Entry>, opening: real) returns (journal: seq<JournalEntry>, running: real)
    ensures journal == Journal(entries, opening)
    ensures running == opening - Total(entries, Debit) + Total(entries, Credit)
  {
    running := opening;
    journal := [];
    for i := 0 to |entries|
      invariant running == opening - Total(entries[..i], Debit) + Total(entries[..i], Credit)
      invariant journal == Journal(entries[..i], opening)
    {
      TotalPrefix(entries, i, Debit);
      TotalPrefix(entries, i, Credit);
      running := running - entries[i].debit + entries[i].credit;
      JournalExtends(entries, i, opening);
      journal := journal + [JournalEntry(entries[i], running)];
    }
    assert entries[..|entries|] == entries;
  }

  /** The journal of a prefix one line longer. */
  lemma JournalExtends(entries: seq<Entry>, i: nat, opening: real)
    requires i < |entries|
    ensures Journal(entries[..i + 1], opening)
      == Journal(entries[..i], opening)
         + [JournalEntry(entries[i], opening - Total(entries[..i + 1], Debit) + Total(entries[..i + 1], Credit))]
  {
    var a, b := Journal(entries[..i + 1], opening), Journal(entries[..i], opening);
    forall k | 0 <= k < i
      ensures a[k] == b[k]
    {
      assert entries[..i + 1][..k + 1] == entries[..i][..k + 1];
    }
    assert entries[..i + 1][..i + 1] == entries[..i + 1];
  }

  function JournalDate(j: JournalEntry): real { j.entry.date as real }
  function JournalDebit(j: JournalEntry): real { j.entry.debit }
  function JournalCredit(j: JournalEntry): real { j.entry.credit }

  /** isWithinInterval with both ends included. */
  function Within(start: int, end: int): JournalEntry -> bool {
    (j: JournalEntry) => start <= j.entry.date <= end
  }

  /** The period's journal: the lines dated within the period, newest first. */
  function PeriodJournal(journal: seq<JournalEntry>, start: int, end: int): seq<JournalEntry> {
    SortDesc(Filter(journal, Within(start, end)), JournalDate)
  }

  /** The useMemo: nothing when no start date is chosen; otherwise the period starts
      at the start of the chosen day and ends at the chosen end, or at the chosen start
      when no end is chosen. */
  method Statement(balance: real, events: seq<WashEvent>, payments: seq<ClientTransaction>,
                   from: Option<int>, to: Option<int>, time: string -> int, startOfDay: int -> int)
    returns (journalForPeriod: seq<JournalEntry>, balanceAtStart: real, balanceAtEnd: real)
    ensures from.None? ==> journalForPeriod == [] && balanceAtStart == 0.0 && balanceAtEnd == 0.0
    ensures from.Some? ==>
      var start := startOfDay(from.value);
      var entries := Merged(events, payments, time);
      var opening := OpeningBalance(balance, events, payments, start, time);
      && balanceAtStart == opening
      && journalForPeriod == PeriodJournal(Journal(entries, opening), start, to.GetOr(from.value))
      && balanceAtEnd == opening - Total(entries, Debit) + Total(entries, Credit)
  {
    if from.None? {
      return [], 0.0, 0.0;
    }
    var periodStart := startOfDay(from.value);
    var allWashEntries := WashLines(events, time);
    var allPaymentEntries := PaymentLines(payments, time);
    var allEntries := SortAsc(allWashEntries + allPaymentEntries, EntryDate);
    var chargesWithinOrAfterPeriod := Total(Filter(allWashEntries, OnOrAfter(periodStart)), Debit);
    var paymentsWithinOrAfterPeriod := Total(Filter(allPaymentEntries, OnOrAfter(periodStart)), Credit);
    balanceAtStart := balance - chargesWithinOrAfterPeriod + paymentsWithinOrAfterPeriod;
    var journalWithBalance, runningBalance := RunningBalances(allEntries, balanceAtStart);
    var end := if to.Some? then to.value else from.value;
    journalForPeriod := SortDesc(Filter(journalWithBalance, Within(periodStart, end)), JournalDate);
    balanceAtEnd := runningBalance;
  }

  /** periodSummary: the period's charges and payments, added up line by line. */
  method PeriodSummary(journal: seq<JournalEntry>) returns (periodCharges: real, periodPayments: real)
    ensures periodCharges == Total(journal, JournalDebit)
    ensures periodPayments == Total(journal, JournalCredit)
  {
    periodCharges, periodPayments := 0.0, 0.0;
    for i := 0 to |journal|
      invariant periodCharges == Total(journal[..i], JournalDebit)
      invariant periodPayments == Total(journal[..i], JournalCredit)
    {
      TotalPrefix(journal, i, JournalDebit);
      TotalPrefix(journal, i, JournalCredit);
      periodCharges := periodCharges + journal[i].entry.debit;
      periodPayments := periodPayments + journal[i].entry.credit;
    }
    assert journal[..|journal|] == journal;
  }

  // ------------------------------------------------------------ journal properties

  /** The merged journal is ordered by date and holds exactly the washes and the
      payments. */
  lemma MergedOrdered(events: seq<WashEvent>, payments: seq<ClientTransaction>, time: string -> int)
    ensures SortedBy(Merged(events, payments, time), EntryDate)
    ensures multiset(Merged(events, payments, time))
      == multiset(WashLines(events, time)) + multiset(PaymentLines(payments, time))
  {
    var all := WashLines(events, time) + PaymentLines(payments, time);
    SortAscSorted(all, EntryDate);
    SortAscPermutes(all, EntryDate);
  }

  /** The last line's balance is the balance the loop ends with. */
  lemma JournalEnds(entries: seq<Entry>, opening: real)
    requires entries != []
    ensures Journal(entries, opening)[|entries| - 1].balanceAfter
      == opening - Total(entries, Debit) + Total(entries, Credit)
  {
    assert entries[..|entries|] == entries;
  }

  /** The period's journal: newest first, and made of exactly the journal's lines
      dated within the period. */
  lemma PeriodJournalSpec(journal: seq<JournalEntry>, start: int, end: int)
    ensures SortedDescBy(PeriodJournal(journal, start, end), JournalDate)
    ensures multiset(PeriodJournal(journal, start, end)) == multiset(Filter(journal, Within(start, end)))
    ensures forall j :: j in PeriodJournal(journal, start, end) <==> j in journal && start <= j.entry.date <= end
  {
    var kept := Filter(journal, Within(start, end));
    SortDescSpec(kept, JournalDate);
    var r := PeriodJournal(journal, start, end);
    forall j
      ensures j in r <==> j in journal && start <= j.entry.date <= end
    {
      assert j in r <==> j in multiset(r);
      assert j in kept <==> j in multiset(kept);
      if j in kept {
        FilterKeeps(journal, Within(start, end), j);
      }
      if j in journal && start <= j.entry.date <= end {
        FilterFinds(journal, Within(start, end), j);
      }
    }
  }

  /** The period's totals do not depend on the order of its lines. */
  lemma SummaryOfPeriod(journal: seq<JournalEntry>, start: int, end: int)
    ensures Total(PeriodJournal(journal, start, end), JournalDebit)
      == Total(Filter(journal, Within(start, end)), JournalDebit)
    ensures Total(PeriodJournal(journal, start, end), JournalCredit)
      == Total(Filter(journal, Within(start, end)), JournalCredit)
  {
    var kept := Filter(journal, Within(start, end));
    SortDescSpec(kept, JournalDate);
    TotalPermutation(PeriodJournal(journal, start, end), kept, JournalDebit);
    TotalPermutation(PeriodJournal(journal, start, end), kept, JournalCredit);
  }

  // -------------------------------------------------------------- the end balance

  /** Washes credit nothing; payments charge nothing. */
  lemma LinesOneSided(events: seq<WashEvent>, payments: seq<ClientTransaction>, time: string -> int)
    ensures Total(WashLines(events, time), Credit) == 0.0
    ensures Total(PaymentLines(payments, time), Debit) == 0.0
  {
    TotalZero(WashLines(events, time), Credit);
    TotalZero(PaymentLines(payments, time), Debit);
  }

  /** The merged journal's charges are the washes' and its payments the payments'. */
  lemma MergedTotals(events: seq<WashEvent>, payments: seq<ClientTransaction>, time: string -> int)
    ensures Total(Merged(events, payments, time), Debit) == Total(WashLines(events, time), Debit)
    ensures Total(Merged(events, payments, time), Credit) == Total(PaymentLines(payments, time), Credit)
  {
    var w, p := WashLines(events, time), PaymentLines(payments, time);
    MergedOrdered(events, payments, time);
    TotalPermutation(Merged(events, payments, time), w + p, Debit);
    TotalPermutation(Merged(events, payments, time), w + p, Credit);
    TotalAppend(w, p, Debit);
    TotalAppend(w, p, Credit);
    LinesOneSided(events, payments, time);
  }

  /** The charges split at the period's start. */
  lemma SplitAtStart(lines: seq<Entry>, start: int, f: Entry -> real)
    ensures Total(lines, f) == Total(Filter(lines, OnOrAfter(start)), f) + Total(Filter(lines, Before(start)), f)
  {
    TotalSplit(lines, OnOrAfter(start), Before(start), f);
  }

  /** The dashboard's end balance as written: the period's and later payments less
      charges count twice, and the earlier ones once, on top of the client's
      balance. */
  lemma EndAsWritten(balance: real, events: seq<WashEvent>, payments: seq<ClientTransaction>,
                     start: int, time: string -> int)
    ensures var entries := Merged(events, payments, time);
      var w, p := WashLines(events, time), PaymentLines(payments, time);
      OpeningBalance(balance, events, payments, start, time) - Total(entries, Debit) + Total(entries, Credit)
      == balance
         + 2.0 * (Total(Filter(p, OnOrAfter(start)), Credit) - Total(Filter(w, OnOrAfter(start)), Debit))
         + (Total(Filter(p, Before(start)), Credit) - Total(Filter(w, Before(start)), Debit))
  {
    MergedTotals(events, payments, time);
    SplitAtStart(WashLines(events, time), start, Debit);
    SplitAtStart(PaymentLines(payments, time), start, Credit);
  }

  /** A client with a zero balance and a single wash of 100 within the period: the
      dashboard opens the period at -100 and ends it at -200, not at the balance. */
  lemma EndDriftsExample(e: WashEvent, start: int, time: string -> int)
    requires e.totalAmount == 100.0 && time(e.timestamp) >= start
    ensures OpeningBalance(0.0, [e], [], start, time) == -100.0
    ensures var entries := Merged([e], [], time);
      OpeningBalance(0.0, [e], [], start, time) - Total(entries, Debit) + Total(entries, Credit) == -200.0
  {
    var line := WashLine(e, time);
    assert WashLines([e], time) == [line];
    assert PaymentLines([], time) == [];
    assert Filter([line], OnOrAfter(start)) == [line] by {
      FilterAll([line], OnOrAfter(start));
    }
    assert Filter([], OnOrAfter(start)) == [];
    assert Total([line], Debit) == 100.0 by {
      assert [line][..0] == [];
    }
    assert Total([line], Credit) == 0.0 by {
      assert [line][..0] == [];
    }
    MergedTotals([e], [], time);
  }

  /** The opening balance as evidently intended: the client's balance with the
      period's and later lines undone in the journal's own direction, where a charge
      lowers and a payment raises the balance. */
  function CorrectedOpening(balance: real, events: seq<WashEvent>, payments: seq<ClientTransaction>,
                            start: int, time: string -> int): real
  {
    balance
      + Total(Filter(WashLines(events, time), OnOrAfter(start)), Debit)
      - Total(Filter(PaymentLines(payments, time), OnOrAfter(start)), Credit)
  }

  /** The journal as evidently intended: the running balance starts at the corrected
      opening balance and runs over the lines from the period's start on. */
  function CorrectedJournal(events: seq<WashEvent>, payments: seq<ClientTransaction>, start: int,
                            opening: real, time: string -> int): seq<JournalEntry>
  {
    Journal(Filter(Merged(events, payments, time), OnOrAfter(start)), opening)
  }

  /** The lines from the period's start on hold the same charges and payments, in
      whatever order, as the washes and payments dated from then on. */
  lemma MergedFromStart(events: seq<WashEvent>, payments: seq<ClientTransaction>, start: int, time: string -> int)
    ensures var later := Filter(Merged(events, payments, time), OnOrAfter(start));
      && Total(later, Debit) == Total(Filter(WashLines(events, time), OnOrAfter(start)), Debit)
      && Total(later, Credit) == Total(Filter(PaymentLines(payments, time), OnOrAfter(start)), Credit)
  {
    var w, p := WashLines(events, time), PaymentLines(payments, time);
    var m := Merged(events, payments, time);
    var from := OnOrAfter(start);
    MergedOrdered(events, payments, time);
    FilterPermutation(m, w + p, from);
    FilterAppend(w, p, from);
    TotalPermutation(Filter(m, from), Filter(w, from) + Filter(p, from), Debit);
    TotalPermutation(Filter(m, from), Filter(w, from) + Filter(p, from), Credit);
    TotalAppend(Filter(w, from), Filter(p, from), Debit);
    TotalAppend(Filter(w, from), Filter(p, from), Credit);
    TotalZero(Filter(w, from), Credit) by {
      forall i | 0 <= i < |Filter(w, from)| ensures Credit(Filter(w, from)[i]) == 0.0 {
        FilterKeeps(w, from, Filter(w, from)[i]);
      }
    }
    TotalZero(Filter(p, from), Debit) by {
      forall i | 0 <= i < |Filter(p, from)| ensures Debit(Filter(p, from)[i]) == 0.0 {
        FilterKeeps(p, from, Filter(p, from)[i]);
      }
    }
  }

  /** With the corrections the last line of the journal carries the client's
      balance, as the dashboard means its end balance to. */
  lemma CorrectedEndIsBalance(balance: real, events: seq<WashEvent>, payments: seq<ClientTransaction>,
                              start: int, time: string -> int)
    ensures var opening := CorrectedOpening(balance, events, payments, start, time);
      var later := Filter(Merged(events, payments, time), OnOrAfter(start));
      opening - Total(later, Debit) + Total(later, Credit) == balance
    ensures var opening := CorrectedOpening(balance, events, payments, start, time);
      var journal := CorrectedJournal(events, payments, start, opening, time);
      journal != [] ==> journal[|journal| - 1].balanceAfter == balance
  {
    var opening := CorrectedOpening(balance, events, payments, start, time);
    var later := Filter(Merged(events, payments, time), OnOrAfter(start));
    MergedFromStart(events, payments, start, time);
    if later != [] {
      JournalEnds(later, opening);
    }
  }

  // ------------------------------------------------------------- payment handlers

  /** How an attempt to add a payment ends. */
  datatype PaymentResult = Rejected | Failed | Recorded

  function TransactionDate(time: string -> int): ClientTransaction -> real {
    (t: ClientTransaction) => time(t.date) as real
  }

  function OtherId(id: string): ClientTransaction -> bool {
    (t: ClientTransaction) => t.id != id
  }

  /** The transactions after a new one: newest first. */
  function WithPayment(transactions: seq<ClientTransaction>, t: ClientTransaction, time: string -> int): seq<ClientTransaction> {
    SortDesc([t] + transactions, TransactionDate(time))
  }

  /** The dashboard's local state: the client's transactions and its balance. */
  class FinanceView {
    var transactions: seq<ClientTransaction>
    var balance: real

    constructor (initialTransactions: seq<ClientTransaction>, clientBalance: real)
      ensures transactions == initialTransactions && balance == clientBalance
    {
      transactions := initialTransactions;
      balance := clientBalance;
    }

    /** handleAddPayment: the amount (None when it does not parse) must be positive;
        the payment is posted, then the client saved with its balance raised by the
        amount; only when both succeed does the local state take the new payment and
        the new balance. posted and saved are the two requests' outcomes. */
    method AddPayment(amount: Option<real>, posted: Option<ClientTransaction>, saved: bool, time: string -> int)
      returns (r: PaymentResult)
      modifies this
      ensures amount.None? || amount.value <= 0.0 ==> r == Rejected && unchanged(this)
      ensures amount.Some? && amount.value > 0.0 && (posted.None? || !saved) ==> r == Failed && unchanged(this)
      ensures amount.Some? && amount.value > 0.0 && posted.Some? && saved ==>
        && r == Recorded
        && balance == old(balance) + amount.value
        && transactions == WithPayment(old(transactions), posted.value, time)
    {
      if amount.None? || amount.value <= 0.0 {
        return Rejected;
      }
      if posted.None? {
        return Failed;
      }
      var newBalance := balance + amount.value;
      if !saved {
        return Failed;
      }
      balance := newBalance;
      transactions := SortDesc([posted.value] + transactions, TransactionDate(time));
      return Recorded;
    }

    /** onTransactionDeleted: the transactions with that id dropped and the amount
        taken off the balance. */
    method DeletePayment(id: string, amount: real)
      modifies this
      ensures transactions == Filter(old(transactions), OtherId(id))
      ensures balance == old(balance) - amount
    {
      transactions := Filter(transactions, OtherId(id));
      balance := balance - amount;
    }
  }

  /** Deleting a payment just added, under an id no other transaction has, gives back
      the same transactions, newest first. */
  lemma AddThenDelete(transactions: seq<ClientTransaction>, t: ClientTransaction, time: string -> int)
    requires forall i :: 0 <= i < |transactions| ==> transactions[i].id != t.id
    ensures multiset(Filter(WithPayment(transactions, t, time), OtherId(t.id))) == multiset(transactions)
  {
    var added := [t] + transactions;
    SortDescSpec(added, TransactionDate(time));
    FilterPermutation(WithPayment(transactions, t, time), added, OtherId(t.id));
    FilterAppend([t], transactions, OtherId(t.id));
    assert Filter([t], OtherId(t.id)) == [] by {
      assert [t][..0] == [];
    }
    FilterAll(transactions, OtherId(t.id));
    assert [] + transactions == transactions;
  }
}
