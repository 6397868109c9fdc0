/** The inventory dashboard: the chemical stock's movements (purchases from expenses,
    consumption by washes, canisters issued to employees) in date order with a running
    balance, the balance at the start of the period, the period's movements newest
    first, and the canisters each employee holds. Dates are the instants the records'
    date strings parse to, given as a function, as is the start of a date's month. */
module StockJournal {
  import opened Wrappers
  import opened Models
  import opened Text
  import opened Sorting
  import opened Totals
  import opened Grouping
  import opened PropertyKeys
  import WashEvents
  import Expenses

  datatype MovementKind = PurchaseMovement | ConsumptionMovement | IssueMovement

  /** One change of the stock, in grams: positive for a purchase, negative otherwise. */
  datatype Movement = Movement(id: string, date: int, kind: MovementKind, description: string, amountGrams: real)

  /** A movement of the period with the stock right after it. */
  datatype StockLine = StockLine(movement: Movement, balanceAfterGrams: real)

  /** The grams one canister holds. */
  const CanisterGrams: real := 20000.0

  // ------------------------------------------------------------------- purchases

  /** An expense that brought chemicals in: its category, its unit exactly "кг" and a
      quantity other than zero. */
  predicate IsChemicalPurchase(e: Expense) {
    e.category == "Закупка химии" && e.unit == "кг" && e.quantity != 0.0
  }

  function Purchase(e: Expense, time: string -> int): Movement {
    Movement("exp-" + e.id, time(e.date), PurchaseMovement,
             if e.description == "" then "Закупка химии" else e.description, e.quantity * 1000.0)
  }

  /** The movements of the chemical purchases among the expenses, in order. */
  function Purchases(expenses: seq<Expense>, time: string -> int): seq<Movement> {
    if expenses == [] then []
    else
      var e := expenses[|expenses| - 1];
      Purchases(expenses[..|expenses| - 1], time) + (if IsChemicalPurchase(e) then [Purchase(e, time)] else [])
  }

  /** The backend takes every purchase the dashboard shows, when its quantity is
      positive, into the stock. */
  lemma PurchaseCounted(e: Expense)
    requires IsChemicalPurchase(e) && e.quantity > 0.0
    ensures Expenses.IsChemicalPurchase(e)
  {
    assert Lower("кг") == "кг";
  }

  /** The expense form's unit "кг." is taken into the stock by the backend but never
      shown by the dashboard, which wants "кг" exactly. */
  lemma FormUnitNotShown(e: Expense)
    requires e.category == "Закупка химии" && e.unit == "кг." && e.quantity > 0.0
    ensures Expenses.IsChemicalPurchase(e) && !IsChemicalPurchase(e)
  {
    assert Lower("кг.")[..2] == "кг";
  }

  // ----------------------------------------------------------------- consumption

  function Amount(c: EmployeeConsumption): real { c.amount }

  /** A service's consumption as the dashboard reads it: the employees' amounts when
      the service has a list of them, even an empty one, and the service's norm
      otherwise. */
  function DashboardServiceConsumption(s: PriceListItem): real {
    if s.employeeConsumptions.Items? then Total(s.employeeConsumptions.items, Amount)
    else s.chemicalConsumption
  }

  /** A wash's services: the main one, then the additional ones. */
  function ServicesOf(e: WashEvent): seq<PriceListItem> {
    [e.services.main] + e.services.additional.Seq()
  }

  /** The inner forEach: each service's consumption added in turn. */
  method EventConsumption(event: WashEvent) returns (totalConsumptionForEvent: real)
    ensures totalConsumptionForEvent == Total(ServicesOf(event), DashboardServiceConsumption)
  {
    totalConsumptionForEvent := 0.0;
    var allServices := [event.services.main] + event.services.additional.Seq();
    for i := 0 to |allServices|
      invariant totalConsumptionForEvent == Total(allServices[..i], DashboardServiceConsumption)
    {
      TotalPrefix(allServices, i, DashboardServiceConsumption);
      var service := allServices[i];
      if service.employeeConsumptions.Items? {
        totalConsumptionForEvent := totalConsumptionForEvent + Total(service.employeeConsumptions.items, Amount);
      } else if service.chemicalConsumption != 0.0 {
        totalConsumptionForEvent := totalConsumptionForEvent + service.chemicalConsumption;
      }
    }
    assert allServices[..|allServices|] == allServices;
  }

  function Consumed(e: WashEvent): real {
    Total(ServicesOf(e), DashboardServiceConsumption)
  }

  function Consumption(e: WashEvent, time: string -> int): Movement {
    Movement("wash-" + e.id, time(e.timestamp), ConsumptionMovement, "Мойка: " + e.vehicleNumber, -Consumed(e))
  }

  /** The movements of the washes that consumed something, in order. */
  function Consumptions(events: seq<WashEvent>, time: string -> int): seq<Movement> {
    if events == [] then []
    else
      var e := events[|events| - 1];
      Consumptions(events[..|events| - 1], time) + (if Consumed(e) > 0.0 then [Consumption(e, time)] else [])
  }

  /** The dashboard's reading of a service agrees with the consumption the backend
      takes off the stock when the service has no employee list and a non-negative
      norm, or an employee list and no norm. */
  lemma ServiceReadingsAgree(s: PriceListItem)
    requires s.chemicalConsumption >= 0.0
    requires s.employeeConsumptions.Nil? || s.chemicalConsumption == 0.0
    ensures DashboardServiceConsumption(s) == WashEvents.ServiceConsumption(s)
  {
    SumAmountsIsTotal(s.employeeConsumptions.Seq());
  }

  /** With both a norm and employee amounts the backend takes the two together and
      the dashboard shows only the amounts. */
  lemma ServiceReadingsDiffer(s: PriceListItem)
    requires s.chemicalConsumption > 0.0 && s.employeeConsumptions.Items?
    ensures WashEvents.ServiceConsumption(s) == DashboardServiceConsumption(s) + s.chemicalConsumption
  {
    SumAmountsIsTotal(s.employeeConsumptions.Seq());
  }

  lemma {:induction false} SumAmountsIsTotal(ecs: seq<EmployeeConsumption>)
    ensures WashEvents.SumAmounts(ecs) == Total(ecs, Amount)
  {
    if ecs != [] {
      SumAmountsIsTotal(ecs[..|ecs| - 1]);
    }
  }

  // ---------------------------------------------------------------------- issues

  /** An employee transaction that handed out a canister. */
  predicate IsCanisterIssue(t: EmployeeTransaction) {
    t.txType == "purchase" && Contains(t.description, "Выдача канистры химии")
  }

  function CanisterIssue(): EmployeeTransaction -> bool {
    (t: EmployeeTransaction) => IsCanisterIssue(t)
  }

  /** new Map(employees.map(e => [e.id, e.fullName])).get(id): a later employee with
      the same id wins. */
  function FullName(employees: seq<Employee>, id: string): Option<string> {
    if employees == [] then None
    else if employees[|employees| - 1].id == id then Some(employees[|employees| - 1].fullName)
    else FullName(employees[..|employees| - 1], id)
  }

  /** split(' ')[0]: the text up to the first space. */
  function FirstWord(s: string): (r: string)
    ensures |r| <= |s| && r == s[..|r|] && ' ' !in r
    ensures |r| < |s| ==> s[|r|] == ' '
  {
    if s == [] || s[0] == ' ' then "" else [s[0]] + FirstWord(s[1..])
  }

  function Recipient(employees: seq<Employee>, id: string): string {
    var name := FullName(employees, id);
    if name.Some? && FirstWord(name.value) != "" then FirstWord(name.value) else "Неизвестно"
  }

  function Issue(t: EmployeeTransaction, employees: seq<Employee>, time: string -> int): Movement {
    Movement("issue-" + t.id, time(t.date), IssueMovement, "Выдача сотруднику: " + Recipient(employees, t.employeeId), -CanisterGrams)
  }

  /** The movements of the canister issues, in order. */
  function Issues(transactions: seq<EmployeeTransaction>, employees: seq<Employee>, time: string -> int): seq<Movement> {
    if transactions == [] then []
    else
      var t := transactions[|transactions| - 1];
      Issues(transactions[..|transactions| - 1], employees, time) + (if IsCanisterIssue(t) then [Issue(t, employees, time)] else [])
  }

  // ------------------------------------------------------------- all movements

  /** Purchases, then consumptions, then issues, each in its list's order. */
  function Unsorted(expenses: seq<Expense>, events: seq<WashEvent>, transactions: seq<EmployeeTransaction>,
                    employees: seq<Employee>, time: string -> int): seq<Movement>
  {
    Purchases(expenses, time) + Consumptions(events, time) + Issues(transactions, employees, time)
  }

  lemma PurchasesStep(expenses: seq<Expense>, i: nat, time: string -> int)
    requires i < |expenses|
    ensures Purchases(expenses[..i + 1], time)
      == Purchases(expenses[..i], time) + (if IsChemicalPurchase(expenses[i]) then [Purchase(expenses[i], time)] else [])
  {
    assert expenses[..i + 1][..i] == expenses[..i];
  }

  lemma ConsumptionsStep(events: seq<WashEvent>, i: nat, time: string -> int)
    requires i < |events|
    ensures Consumptions(events[..i + 1], time)
      == Consumptions(events[..i], time) + (if Consumed(events[i]) > 0.0 then [Consumption(events[i], time)] else [])
  {
    assert events[..i + 1][..i] == events[..i];
  }

  lemma IssuesStep(transactions: seq<EmployeeTransaction>, i: nat, employees: seq<Employee>, time: string -> int)
    requires i < |transactions|
    ensures Issues(transactions[..i + 1], employees, time)
      == Issues(transactions[..i], employees, time)
         + (if IsCanisterIssue(transactions[i]) then [Issue(transactions[i], employees, time)] else [])
  {
    assert transactions[..i + 1][..i] == transactions[..i];
  }

  /** The forEach pushing the chemical purchases. */
  method PushPurchases(allMovements: seq<Movement>, expenses: seq<Expense>, time: string -> int)
    returns (pushed: seq<Movement>)
    ensures pushed == allMovements + Purchases(expenses, time)
  {
    pushed := allMovements;
    for i := 0 to |expenses|
      invariant pushed == allMovements + Purchases(expenses[..i], time)
    {
      PurchasesStep(expenses, i, time);
      if IsChemicalPurchase(expenses[i]) {
        pushed := pushed + [Purchase(expenses[i], time)];
      }
    }
    assert expenses[..|expenses|] == expenses;
  }

  /** The forEach pushing the washes that consumed something. */
  method PushConsumptions(allMovements: seq<Movement>, events: seq<WashEvent>, time: string -> int)
    returns (pushed: seq<Movement>)
    ensures pushed == allMovements + Consumptions(events, time)
  {
    pushed := allMovements;
    for i := 0 to |events|
      invariant pushed == allMovements + Consumptions(events[..i], time)
    {
      ConsumptionsStep(events, i, time);
      var totalConsumptionForEvent := EventConsumption(events[i]);
      assert totalConsumptionForEvent == Consumed(events[i]);
      if totalConsumptionForEvent > 0.0 {
        var movement := Movement("wash-" + events[i].id, time(events[i].timestamp), ConsumptionMovement,
                                 "Мойка: " + events[i].vehicleNumber, -totalConsumptionForEvent);
        assert movement == Consumption(events[i], time);
        pushed := pushed + [movement];
      }
    }
    assert events[..|events|] == events;
  }

  /** The forEach pushing the canister issues. */
  method PushIssues(allMovements: seq<Movement>, transactions: seq<EmployeeTransaction>, employees: seq<Employee>,
                    time: string -> int)
    returns (pushed: seq<Movement>)
    ensures pushed == allMovements + Issues(transactions, employees, time)
  {
    pushed := allMovements;
    for i := 0 to |transactions|
      invariant pushed == allMovements + Issues(transactions[..i], employees, time)
    {
      IssuesStep(transactions, i, employees, time);
      if IsCanisterIssue(transactions[i]) {
        pushed := pushed + [Issue(transactions[i], employees, time)];
      }
    }
    assert transactions[..|transactions|] == transactions;
  }

  /** The three forEach loops pushing onto allMovements, in turn. */
  method CollectMovements(expenses: seq<Expense>, events: seq<WashEvent>, transactions: seq<EmployeeTransaction>,
                          employees: seq<Employee>, time: string -> int)
    returns (allMovements: seq<Movement>)
    ensures allMovements == Unsorted(expenses, events, transactions, employees, time)
  {
    allMovements := PushPurchases([], expenses, time);
    allMovements := PushConsumptions(allMovements, events, time);
    allMovements := PushIssues(allMovements, transactions, employees, time);
  }

  /** Purchases add the quantity in grams; consumptions and issues take stock away. */
  lemma {:induction false} PurchasesSpec(expenses: seq<Expense>, time: string -> int, m: Movement)
    ensures m in Purchases(expenses, time) <==> exists e :: e in expenses && IsChemicalPurchase(e) && m == Purchase(e, time)
  {
    if expenses != [] {
      var n := |expenses| - 1;
      PurchasesSpec(expenses[..n], time, m);
      assert expenses == expenses[..n] + [expenses[n]];
    }
  }

  lemma {:induction false} ConsumptionsSpec(events: seq<WashEvent>, time: string -> int, m: Movement)
    ensures m in Consumptions(events, time) <==> exists e :: e in events && Consumed(e) > 0.0 && m == Consumption(e, time)
    ensures m in Consumptions(events, time) ==> m.amountGrams < 0.0
  {
    if events != [] {
      var n := |events| - 1;
      ConsumptionsSpec(events[..n], time, m);
      assert events == events[..n] + [events[n]];
    }
  }

  lemma {:induction false} IssuesSpec(transactions: seq<EmployeeTransaction>, employees: seq<Employee>, time: string -> int, m: Movement)
    ensures m in Issues(transactions, employees, time)
      <==> exists t :: t in transactions && IsCanisterIssue(t) && m == Issue(t, employees, time)
    ensures m in Issues(transactions, employees, time) ==> m.amountGrams == -20000.0
  {
    if transactions != [] {
      var n := |transactions| - 1;
      IssuesSpec(transactions[..n], employees, time, m);
      assert transactions == transactions[..n] + [transactions[n]];
    }
  }

  /** Every canister issue is counted: one movement per issue. */
  lemma {:induction false} IssuesCount(transactions: seq<EmployeeTransaction>, employees: seq<Employee>, time: string -> int)
    ensures |Issues(transactions, employees, time)| == |Filter(transactions, CanisterIssue())|
  {
    if transactions != [] {
      IssuesCount(transactions[..|transactions| - 1], employees, time);
    }
  }

  // ------------------------------------------------------------------- balances

  function Grams(m: Movement): real { m.amountGrams }
  function MovementDate(m: Movement): real { m.date as real }

  function OnOrAfter(start: int): Movement -> bool {
    (m: Movement) => m.date >= start
  }

  function Before(start: int): Movement -> bool {
    (m: Movement) => m.date < start
  }

  /** With no start date chosen the period starts at the epoch; otherwise at the start
      of the chosen date's month. */
  function PeriodStart(from: Option<int>, startOfMonth: int -> int): int {
    if from.Some? then startOfMonth(from.value) else 0
  }

  /** The stock at the start of the period: the current stock with every movement of
      the period and after undone. */
  function StartBalance(stock: real, movements: seq<Movement>, start: int): real {
    stock - Total(Filter(movements, OnOrAfter(start)), Grams)
  }

  /** A movement the journal shows: within the chosen dates, both ends included. */
  function Shown(from: int, end: int): Movement -> bool {
    (m: Movement) => from <= m.date <= end
  }

  /** The k-th movement with the running balance after it: the opening balance plus
      the movements up to and including it. */
  function LineAt(movements: seq<Movement>, opening: real, k: nat): StockLine
    requires k < |movements|
  {
    StockLine(movements[k], opening + Total(movements[..k + 1], Grams))
  }

  /** The lines the loop records: with no start date chosen none; otherwise those of
      the shown movements, in order. */
  function Recorded(movements: seq<Movement>, opening: real, from: Option<int>, to: Option<int>, n: nat): (r: seq<StockLine>)
    requires n <= |movements|
  {
    if n == 0 then []
    else
      Recorded(movements, opening, from, to, n - 1)
      + (if from.Some? && Shown(from.value, to.GetOr(from.value))(movements[n - 1]) then [LineAt(movements, opening, n - 1)] else [])
  }

  /** The for-of loop: the running balance moves with every movement, and a movement
      within the chosen dates is recorded with the balance after it. */
  method RunningBalances(movements: seq<Movement>, opening: real, from: Option<int>, to: Option<int>)
    returns (journalWithBalance: seq<StockLine>, runningBalance: real)
    ensures journalWithBalance == Recorded(movements, opening, from, to, |movements|)
    ensures runningBalance == opening + Total(movements, Grams)
  {
    runningBalance := opening;
    journalWithBalance := [];
    for i := 0 to |movements|
      invariant runningBalance == opening + Total(movements[..i], Grams)
      invariant journalWithBalance == Recorded(movements, opening, from, to, i)
    {
      TotalPrefix(movements, i, Grams);
      var movement := movements[i];
      runningBalance := runningBalance + movement.amountGrams;
      if from.Some? && from.value <= movement.date <= (if to.Some? then to.value else from.value) {
        journalWithBalance := journalWithBalance + [StockLine(movement, runningBalance)];
      }
    }
    assert movements[..|movements|] == movements;
  }

  /** What the loop records: exactly the shown movements, in date order, each with
      the opening balance plus every movement up to it. */
  lemma {:induction false} RecordedSpec(movements: seq<Movement>, opening: real, from: Option<int>, to: Option<int>, n: nat, l: StockLine)
    requires n <= |movements|
    ensures l in Recorded(movements, opening, from, to, n) <==>
      exists k :: 0 <= k < n && from.Some? && from.value <= movements[k].date <= to.GetOr(from.value)
                  && l == LineAt(movements, opening, k)
  {
    if n > 0 {
      RecordedSpec(movements, opening, from, to, n - 1, l);
    }
  }

  function LineDate(l: StockLine): real { l.movement.date as real }

  /** The dashboard's result. */
  datatype StockReport = StockReport(journalForPeriod: seq<StockLine>, balanceAtStartOfPeriod: real)

  /** The useMemo: the movements collected and put in date order, the start balance
      taken back from the current stock, the loop folded over every movement from it,
      and the recorded lines put newest first. */
  method Report(stock: real, expenses: seq<Expense>, events: seq<WashEvent>, transactions: seq<EmployeeTransaction>,
                employees: seq<Employee>, from: Option<int>, to: Option<int>, time: string -> int, startOfMonth: int -> int)
    returns (r: StockReport)
    ensures var all := SortAsc(Unsorted(expenses, events, transactions, employees, time), MovementDate);
      var opening := StartBalance(stock, all, PeriodStart(from, startOfMonth));
      && r.balanceAtStartOfPeriod == opening
      && r.journalForPeriod == SortDesc(Recorded(all, opening, from, to, |all|), LineDate)
  {
    var allMovements := CollectMovements(expenses, events, transactions, employees, time);
    allMovements := SortAsc(allMovements, MovementDate);
    var periodStart := if from.Some? then startOfMonth(from.value) else 0;
    var movementsAfterStart := Filter(allMovements, OnOrAfter(periodStart));
    var balanceAtStartOfPeriod := stock - Total(movementsAfterStart, Grams);
    var journalWithBalance, _ := RunningBalances(allMovements, balanceAtStartOfPeriod, from, to);
    journalWithBalance := SortDesc(journalWithBalance, LineDate);
    r := StockReport(journalWithBalance, balanceAtStartOfPeriod);
  }

  /** The movements are in date order, and are exactly the purchases, consumptions and
      issues. */
  lemma AllMovementsOrdered(expenses: seq<Expense>, events: seq<WashEvent>, transactions: seq<EmployeeTransaction>,
                            employees: seq<Employee>, time: string -> int)
    ensures var all := SortAsc(Unsorted(expenses, events, transactions, employees, time), MovementDate);
      && SortedBy(all, MovementDate)
      && multiset(all) == multiset(Purchases(expenses, time)) + multiset(Consumptions(events, time))
                          + multiset(Issues(transactions, employees, time))
  {
    var u := Unsorted(expenses, events, transactions, employees, time);
    SortAscSorted(u, MovementDate);
    SortAscPermutes(u, MovementDate);
  }

  /** The period's journal is newest first and holds just what the loop recorded. */
  lemma JournalForPeriodSpec(all: seq<Movement>, opening: real, from: Option<int>, to: Option<int>)
    ensures var recorded := Recorded(all, opening, from, to, |all|);
      && SortedDescBy(SortDesc(recorded, LineDate), LineDate)
      && multiset(SortDesc(recorded, LineDate)) == multiset(recorded)
  {
    SortDescSpec(Recorded(all, opening, from, to, |all|), LineDate);
  }

  // ---------------------------------------------------------- the running balance

  /** As written, the stock after the k-th movement is the current stock plus every
      movement before the period's start up to it, less those from the start on that
      come after it: the movements before the start are counted on top of a start
      balance that already holds them. */
  lemma LineAsWritten(stock: real, all: seq<Movement>, start: int, k: nat)
    requires k < |all|
    ensures LineAt(all, StartBalance(stock, all, start), k).balanceAfterGrams
      == stock + Total(Filter(all[..k + 1], Before(start)), Grams) - Total(Filter(all[k + 1..], OnOrAfter(start)), Grams)
  {
    assert all == all[..k + 1] + all[k + 1..];
    FilterAppend(all[..k + 1], all[k + 1..], OnOrAfter(start));
    TotalAppend(Filter(all[..k + 1], OnOrAfter(start)), Filter(all[k + 1..], OnOrAfter(start)), Grams);
    TotalSplit(all[..k + 1], OnOrAfter(start), Before(start), Grams);
  }

  /** A kilogram bought before the period and 100 grams used within it, leaving 900
      grams: the dashboard starts the period at 1000 grams, correctly, and then shows
      1900 grams after the wash. */
  lemma LineDriftsExample(bought: Movement, used: Movement, start: int)
    requires bought.date < start <= used.date
    requires bought.amountGrams == 1000.0 && used.amountGrams == -100.0
    ensures StartBalance(900.0, [bought, used], start) == 1000.0
    ensures LineAt([bought, used], StartBalance(900.0, [bought, used], start), 1).balanceAfterGrams == 1900.0
  {
    PairFilter(bought, used, start);
    PairTotal(bought, used);
    assert Total([used], Grams) == -100.0 by {
      assert [used][..0] == [];
    }
    assert [bought, used][..2] == [bought, used];
  }

  lemma PairFilter(bought: Movement, used: Movement, start: int)
    requires bought.date < start <= used.date
    ensures Filter([bought, used], OnOrAfter(start)) == [used]
  {
    assert [bought, used][..1] == [bought];
    assert [bought][..0] == [];
  }

  lemma PairTotal(bought: Movement, used: Movement)
    ensures Total([bought, used], Grams) == bought.amountGrams + used.amountGrams
  {
    TotalAppend([bought], [used], Grams);
    assert [bought] + [used] == [bought, used];
    assert [bought][..0] == [];
    assert [used][..0] == [];
  }

  /** The journal as evidently intended: the running balance starts at the start
      balance and moves only with the movements from the period's start on, so that
      after each of them it is the stock at that moment. */
  function CorrectedLineAt(all: seq<Movement>, stock: real, start: int, k: nat): StockLine
    requires k < |Filter(all, OnOrAfter(start))|
  {
    LineAt(Filter(all, OnOrAfter(start)), StartBalance(stock, all, start), k)
  }

  /** Corrected, the stock after each movement of the period is the current stock
      less the movements that follow it, and after the last one it is the current
      stock. */
  lemma CorrectedLineIsStock(all: seq<Movement>, stock: real, start: int, k: nat)
    requires k < |Filter(all, OnOrAfter(start))|
    ensures var later := Filter(all, OnOrAfter(start));
      CorrectedLineAt(all, stock, start, k).balanceAfterGrams == stock - Total(later[k + 1..], Grams)
    ensures k == |Filter(all, OnOrAfter(start))| - 1 ==> CorrectedLineAt(all, stock, start, k).balanceAfterGrams == stock
  {
    var later := Filter(all, OnOrAfter(start));
    assert later == later[..k + 1] + later[k + 1..];
    TotalAppend(later[..k + 1], later[k + 1..], Grams);
  }

  // -------------------------------------------------------- canisters per employee

  function EmployeeOf(t: EmployeeTransaction): string { t.employeeId }

  /** One employee's canisters. */
  datatype Holding = Holding(name: string, count: nat)

  function HoldingCount(h: Holding): real { h.count as real }

  function HolderName(employees: seq<Employee>, id: string): string {
    var name := FullName(employees, id);
    if name.Some? && name.value != "" then name.value else "Неизвестный сотрудник"
  }

  /** The employees named by ids, in that order, each with the number of canisters
      issued to them. */
  function HoldingsOf(issues: seq<EmployeeTransaction>, employees: seq<Employee>, ids: seq<string>): (r: seq<Holding>)
    ensures |r| == |ids|
  {
    if ids == [] then []
    else
      var n := |ids| - 1;
      HoldingsOf(issues, employees, ids[..n]) + [Holding(HolderName(employees, ids[n]), |Members(issues, EmployeeOf, ids[n])|)]
  }

  /** What issuesByEmployee holds. */
  ghost predicate Counted(issues: seq<EmployeeTransaction>, employees: seq<Employee>, order: seq<string>, counts: map<string, Holding>) {
    && order == Keys(issues, EmployeeOf)
    && (forall id :: id in counts <==> id in order)
    && (forall id :: id in counts ==> counts[id] == Holding(HolderName(employees, id), |Members(issues, EmployeeOf, id)|))
  }

  /** One issue more: a new employee enters with no canister, then the employee's
      count goes up by one. */
  lemma CountedStep(issues: seq<EmployeeTransaction>, employees: seq<Employee>, order: seq<string>,
                    counts: map<string, Holding>, t: EmployeeTransaction)
    requires Counted(issues, employees, order, counts)
    ensures var id := t.employeeId;
      var order' := if id in counts then order else order + [id];
      var before := if id in counts then counts[id] else Holding(HolderName(employees, id), 0);
      Counted(issues + [t], employees, order', counts[id := before.(count := before.count + 1)])
  {
    var id := t.employeeId;
    KeysStep(issues, t, EmployeeOf);
    var before := if id in counts then counts[id] else Holding(HolderName(employees, id), 0);
    var counts' := counts[id := before.(count := before.count + 1)];
    forall j | j in counts'
      ensures counts'[j] == Holding(HolderName(employees, j), |Members(issues + [t], EmployeeOf, j)|)
    {
      MembersStep(issues, t, EmployeeOf, j);
      if j == id && id !in counts {
        MembersOfAbsent(issues, EmployeeOf, id);
      }
    }
  }

  /** chemicalsWithEmployees: the canister issues counted per employee in a record
      filled in order, its values (listed in the record's key order) then sorted by
      count, largest first. */
  method CanistersByEmployee(transactions: seq<EmployeeTransaction>, employees: seq<Employee>)
    returns (holdings: seq<Holding>)
    ensures var issues := Filter(transactions, CanisterIssue());
      holdings == SortDesc(HoldingsOf(issues, employees, PropertyOrder(Keys(issues, EmployeeOf))), HoldingCount)
  {
    var issues := Filter(transactions, CanisterIssue());
    var order: seq<string> := [];
    var issuesByEmployee: map<string, Holding> := map[];
    for i := 0 to |issues|
      invariant Counted(issues[..i], employees, order, issuesByEmployee)
    {
      order, issuesByEmployee := CountIssue(issues[i], employees, order, issuesByEmployee, issues[..i]);
      assert issues[..i + 1] == issues[..i] + [issues[i]];
    }
    assert issues[..|issues|] == issues;
    PropertyOrderMembers(order);
    var values := ValuesInOrder(PropertyOrder(order), issuesByEmployee);
    HoldingsFromCounts(issues, employees, PropertyOrder(order), issuesByEmployee);
    holdings := SortDesc(values, HoldingCount);
  }

  /** The forEach's body for one issue: an employee met for the first time enters
      with their name and no canister, then the employee's count goes up by one. */
  method CountIssue(t: EmployeeTransaction, employees: seq<Employee>, order: seq<string>, issuesByEmployee: map<string, Holding>,
                    ghost seen: seq<EmployeeTransaction>)
    returns (order': seq<string>, issuesByEmployee': map<string, Holding>)
    requires Counted(seen, employees, order, issuesByEmployee)
    ensures Counted(seen + [t], employees, order', issuesByEmployee')
  {
    CountedStep(seen, employees, order, issuesByEmployee, t);
    order', issuesByEmployee' := order, issuesByEmployee;
    if t.employeeId !in issuesByEmployee' {
      issuesByEmployee' := issuesByEmployee'[t.employeeId := Holding(HolderName(employees, t.employeeId), 0)];
      order' := order' + [t.employeeId];
    }
    var h := issuesByEmployee'[t.employeeId];
    issuesByEmployee' := issuesByEmployee'[t.employeeId := h.(count := h.count + 1)];
  }

  /** Object.values: the record's values in the order of the listed keys. */
  function ValuesInOrder(order: seq<string>, counts: map<string, Holding>): seq<Holding>
    requires forall id :: id in order ==> id in counts
  {
    if order == [] then [] else ValuesInOrder(order[..|order| - 1], counts) + [counts[order[|order| - 1]]]
  }

  lemma {:induction false} HoldingsFromCounts(issues: seq<EmployeeTransaction>, employees: seq<Employee>,
                                              order: seq<string>, counts: map<string, Holding>)
    requires forall id :: id in order ==>
      id in counts && counts[id] == Holding(HolderName(employees, id), |Members(issues, EmployeeOf, id)|)
    ensures ValuesInOrder(order, counts) == HoldingsOf(issues, employees, order)
  {
    if order != [] {
      HoldingsFromCounts(issues, employees, order[..|order| - 1], counts);
    }
  }

  /** The holding at position k is that id's name and number of issues. */
  lemma {:induction false} HoldingsAt(issues: seq<EmployeeTransaction>, employees: seq<Employee>, ids: seq<string>, k: nat)
    requires k < |ids|
    ensures HoldingsOf(issues, employees, ids)[k]
      == Holding(HolderName(employees, ids[k]), |Members(issues, EmployeeOf, ids[k])|)
  {
    if k < |ids| - 1 {
      HoldingsAt(issues, employees, ids[..|ids| - 1], k);
    }
  }

  /** Each employee shown holds at least one canister, no one is shown twice, and
      everyone who received a canister is shown, with the number received. */
  lemma HoldingsSpec(issues: seq<EmployeeTransaction>, employees: seq<Employee>, k: nat)
    requires k < |Keys(issues, EmployeeOf)|
    ensures var ids := PropertyOrder(Keys(issues, EmployeeOf));
      && |ids| == |Keys(issues, EmployeeOf)|
      && Distinct(ids)
      && HoldingsOf(issues, employees, ids)[k].count == |Members(issues, EmployeeOf, ids[k])| > 0
    ensures forall id ::
              id in PropertyOrder(Keys(issues, EmployeeOf)) <==> exists i :: 0 <= i < |issues| && issues[i].employeeId == id
  {
    var keys := Keys(issues, EmployeeOf);
    var ids := PropertyOrder(keys);
    KeysDistinct(issues, EmployeeOf);
    PropertyOrderPermutes(keys);
    PropertyOrderMembers(keys);
    HoldingsAt(issues, employees, ids, k);
    MembersOfListed(issues, EmployeeOf, ids[k]);
    forall id
      ensures id in ids <==> exists i :: 0 <= i < |issues| && issues[i].employeeId == id
    {
      KeysCover(issues, EmployeeOf, id);
    }
  }

  /** The counts shown add up to the number of canisters issued. */
  lemma {:induction false} HoldingsTotal(issues: seq<EmployeeTransaction>, employees: seq<Employee>, ids: seq<string>)
    ensures Total(HoldingsOf(issues, employees, ids), HoldingCount) == GroupTotal(issues, EmployeeOf, ids, One)
  {
    if ids != [] {
      var n := |ids| - 1;
      HoldingsTotal(issues, employees, ids[..n]);
      var h := Holding(HolderName(employees, ids[n]), |Members(issues, EmployeeOf, ids[n])|);
      TotalAppend(HoldingsOf(issues, employees, ids[..n]), [h], HoldingCount);
      assert [h][..0] == [];
      TotalOnes(Members(issues, EmployeeOf, ids[n]), One);
    }
  }

  function One(t: EmployeeTransaction): real { 1.0 }

  /** The counts shown are in descending order and add up to the number of canisters
      issued. */
  lemma CanistersAddUp(transactions: seq<EmployeeTransaction>, employees: seq<Employee>)
    ensures var issues := Filter(transactions, CanisterIssue());
      var shown := SortDesc(HoldingsOf(issues, employees, PropertyOrder(Keys(issues, EmployeeOf))), HoldingCount);
      && SortedDescBy(shown, HoldingCount)
      && Total(shown, HoldingCount) == |issues| as real
  {
    var issues := Filter(transactions, CanisterIssue());
    var keys := Keys(issues, EmployeeOf);
    var h := HoldingsOf(issues, employees, PropertyOrder(keys));
    SortDescSpec(h, HoldingCount);
    TotalPermutation(SortDesc(h, HoldingCount), h, HoldingCount);
    HoldingsTotal(issues, employees, PropertyOrder(keys));
    PropertyOrderPermutes(keys);
    GroupTotalPermutation(issues, EmployeeOf, PropertyOrder(keys), keys, One);
    GroupsPartition(issues, EmployeeOf, One);
    TotalOnes(issues, One);
  }
}
