/** The parts of the payroll engine that the Go backend and its TypeScript twin share:
    the per-service rate algorithm, the unpaid-services detector and the fold that
    turns wash events into one report row per employee. The dialect-specific parts
    (source kind, base amount, rounding, employee lookup) are passed in. */
module Payroll {
  import opened Wrappers
  import opened Models

  /** The entries of xs indexed by key, a later entry replacing an earlier one with the
      same key: the map a loop `m[key(x)] = x` over xs leaves behind. */
  function IndexBy<T>(xs: seq<T>, key: T -> string): (m: map<string, T>)
    ensures forall k :: k in m ==> m[k] in xs && key(m[k]) == k
  {
    if xs == [] then map[]
    else IndexBy(xs[..|xs| - 1], key)[key(xs[|xs| - 1]) := xs[|xs| - 1]]
  }

  /** Every key of an entry is indexed. */
  lemma {:induction false} IndexByDomain<T>(xs: seq<T>, key: T -> string, i: int)
    requires 0 <= i < |xs|
    ensures key(xs[i]) in IndexBy(xs, key)
  {
    if i < |xs| - 1 {
      IndexByDomain(xs[..|xs| - 1], key, i);
    }
  }

  /** The entry indexed under a key is the last entry with that key. */
  lemma {:induction false} IndexByLastWins<T>(xs: seq<T>, key: T -> string, i: int)
    requires 0 <= i < |xs|
    requires forall j :: i < j < |xs| ==> key(xs[j]) != key(xs[i])
    ensures key(xs[i]) in IndexBy(xs, key) && IndexBy(xs, key)[key(xs[i])] == xs[i]
  {
    if i < |xs| - 1 {
      IndexByLastWins(xs[..|xs| - 1], key, i);
    }
  }

  /** The loop `for _, x := range xs { m[key(x)] = x }`. */
  method BuildIndex<T>(xs: seq<T>, key: T -> string) returns (m: map<string, T>)
    ensures m == IndexBy(xs, key)
  {
    m := map[];
    var k := 0;
    while k < |xs|
      invariant 0 <= k <= |xs|
      invariant m == IndexBy(xs[..k], key)
    {
      assert xs[..k + 1][..k] == xs[..k];
      m := m[key(xs[k]) := xs[k]];
      k := k + 1;
    }
    assert xs[..k] == xs;
  }

  /** The loop that gives every employee a fresh row. */
  method BuildInitialRows(employees: seq<Employee>) returns (rows: Rows)
    ensures rows == InitialRows(employees)
  {
    rows := map[];
    var i := 0;
    while i < |employees|
      invariant 0 <= i <= |employees|
      invariant rows == InitialRows(employees[..i])
    {
      assert employees[..i + 1][..i] == employees[..i];
      rows := rows[employees[i].id := EmptyRow(employees[i])];
      i := i + 1;
    }
    assert employees[..i] == employees;
  }

  function RateName(r: SalaryRate): string { r.serviceName }

  /** The scheme's rates by service name; a later duplicate wins. */
  function RateMap(rates: seq<SalaryRate>): map<string, SalaryRate> {
    IndexBy(rates, RateName)
  }

  /** A service is paid when the scheme has a positive rate for its name. */
  predicate IsPaid(s: PriceListItem, rm: map<string, SalaryRate>) {
    s.serviceName in rm && rm[s.serviceName].rate > 0.0
  }

  /** A named service the scheme has no positive rate for. */
  predicate IsUnpaid(s: PriceListItem, rm: map<string, SalaryRate>) {
    s.serviceName != "" && !IsPaid(s, rm)
  }

  /** What one performed service adds to the wash's rate pool: the rate less its
      deduction for a paid named service, never negative; nothing otherwise. */
  function ServiceEarning(s: PriceListItem, rm: map<string, SalaryRate>): (r: real)
    ensures r >= 0.0
    ensures r > 0.0 <==> (s.serviceName != "" && IsPaid(s, rm)
                          && rm[s.serviceName].rate > rm[s.serviceName].deduction)
    ensures r > 0.0 ==> r == rm[s.serviceName].rate - rm[s.serviceName].deduction
  {
    if s.serviceName != "" && IsPaid(s, rm)
       && rm[s.serviceName].rate - rm[s.serviceName].deduction > 0.0
    then rm[s.serviceName].rate - rm[s.serviceName].deduction
    else 0.0
  }

  /** The rate pool of a sequence of performed services. */
  function RateTotal(services: seq<PriceListItem>, rm: map<string, SalaryRate>): (r: real)
    ensures r >= 0.0
  {
    if services == [] then 0.0
    else RateTotal(services[..|services| - 1], rm) + ServiceEarning(services[|services| - 1], rm)
  }

  /** The names of the unpaid services, each once, in the order first met. */
  function Unpaid(services: seq<PriceListItem>, rm: map<string, SalaryRate>): seq<string> {
    if services == [] then []
    else
      var u := Unpaid(services[..|services| - 1], rm);
      var s := services[|services| - 1];
      if IsUnpaid(s, rm) && s.serviceName !in u then u + [s.serviceName] else u
  }

  /** A name is reported unpaid exactly when some named service of the wash lacks a
      positive rate. */
  lemma {:induction false} UnpaidMembers(services: seq<PriceListItem>, rm: map<string, SalaryRate>, x: string)
    ensures x in Unpaid(services, rm)
        <==> exists k :: 0 <= k < |services| && IsUnpaid(services[k], rm) && services[k].serviceName == x
  {
    if services != [] {
      var init := services[..|services| - 1];
      UnpaidMembers(init, rm, x);
      if x in Unpaid(init, rm) {
        var k :| 0 <= k < |init| && IsUnpaid(init[k], rm) && init[k].serviceName == x;
        assert services[k] == init[k];
      }
      if exists k :: 0 <= k < |services| && IsUnpaid(services[k], rm) && services[k].serviceName == x {
        var k :| 0 <= k < |services| && IsUnpaid(services[k], rm) && services[k].serviceName == x;
        if k < |init| {
          assert init[k] == services[k];
        }
      }
    }
  }

  /** No service name is reported twice. */
  lemma {:induction false} UnpaidDistinct(services: seq<PriceListItem>, rm: map<string, SalaryRate>)
    ensures forall i, j :: 0 <= i < j < |Unpaid(services, rm)| ==> Unpaid(services, rm)[i] != Unpaid(services, rm)[j]
  {
    if services != [] {
      UnpaidDistinct(services[..|services| - 1], rm);
    }
  }

  /** First-seen order: the names found in a prefix of the services come first, in the
      same order, whatever services follow. */
  lemma {:induction false} UnpaidPrefix(a: seq<PriceListItem>, b: seq<PriceListItem>, rm: map<string, SalaryRate>)
    ensures Unpaid(a, rm) <= Unpaid(a + b, rm)
    decreases |b|
  {
    if b == [] {
      assert a + b == a;
    } else {
      var b' := b[..|b| - 1];
      UnpaidPrefix(a, b', rm);
      assert (a + b)[..|a + b| - 1] == a + b';
    }
  }

  /** One employee's result for one wash: earnings and the services nobody pays for. */
  datatype Share = Share(earnings: real, unpaid: seq<string>)

  /** The report rows under construction, by employee id. */
  type Rows = map<string, SalaryReportData>

  /** How the employees named on a wash are found: the Go backend looks each id up in a
      map indexed by id (a later duplicate record wins), the TypeScript twin takes the
      first record with that id. Unknown ids are dropped. */
  datatype Resolver = LastById(byId: map<string, Employee>) | FirstMatch(employees: seq<Employee>)

  /** The first employee record with the given id. */
  function FindFirst(employees: seq<Employee>, id: string): (r: Option<Employee>)
    ensures r.Some? ==> r.value in employees && r.value.id == id
    ensures r.None? <==> forall k :: 0 <= k < |employees| ==> employees[k].id != id
  {
    if employees == [] then None
    else if employees[0].id == id then Some(employees[0])
    else FindFirst(employees[1..], id)
  }

  function Lookup(r: Resolver, id: string): (e: Option<Employee>)
    ensures e.Some? ==> e.value.id == id
  {
    match r
    case LastById(byId) => if id in byId && byId[id].id == id then Some(byId[id]) else None
    case FirstMatch(employees) => FindFirst(employees, id)
  }

  /** The employees on a wash, in the order of its ids, duplicates kept. */
  function ResolveIds(r: Resolver, ids: seq<string>): (es: seq<Employee>)
    ensures |es| <= |ids|
  {
    if ids == [] then []
    else
      var rest := ResolveIds(r, ids[..|ids| - 1]);
      match Lookup(r, ids[|ids| - 1])
      case Some(e) => rest + [e]
      case None => rest
  }

  /** The row an employee starts with. */
  function EmptyRow(e: Employee): SalaryReportData {
    SalaryReportData(e.id, e.fullName, 0.0, [])
  }

  /** One row per employee id; a later duplicate record replaces the earlier row. */
  function InitialRows(employees: seq<Employee>): (rows: Rows)
    ensures forall k :: k in rows ==> rows[k].totalEarnings == 0.0 && rows[k].breakdown == []
  {
    if employees == [] then map[]
    else
      var e := employees[|employees| - 1];
      InitialRows(employees[..|employees| - 1])[e.id := EmptyRow(e)]
  }

  /** The row with one more breakdown item recording the share earned on the wash. */
  function AddItem(row: SalaryReportData, e: WashEvent, sh: Share): SalaryReportData {
    row.(totalEarnings := row.totalEarnings + sh.earnings,
         breakdown := row.breakdown + [SalaryBreakdownItem(e.id, e.timestamp, e.vehicleNumber, sh.earnings, sh.unpaid)])
  }

  /** The rows after crediting one employee on a wash shared by n employees: nothing
      happens for an employee without a known scheme, or when the share has neither
      earnings nor unpaid services. */
  function Credit(rows: Rows, emp: Employee, e: WashEvent, n: int, schemes: map<string, SalaryScheme>,
                  share: (SalaryScheme, WashEvent, int) -> Share): Rows
  {
    if emp.salarySchemeId == "" || emp.salarySchemeId !in schemes || emp.id !in rows then rows
    else
      var sh := share(schemes[emp.salarySchemeId], e, n);
      if sh.earnings > 0.0 || |sh.unpaid| > 0 then rows[emp.id := AddItem(rows[emp.id], e, sh)]
      else rows
  }

  /** Crediting every employee on the wash, in order. */
  function CreditAll(rows: Rows, emps: seq<Employee>, e: WashEvent, n: int, schemes: map<string, SalaryScheme>,
                     share: (SalaryScheme, WashEvent, int) -> Share): Rows
  {
    if emps == [] then rows
    else Credit(CreditAll(rows, emps[..|emps| - 1], e, n, schemes, share), emps[|emps| - 1], e, n, schemes, share)
  }

  /** One wash: skipped when none of its employees resolves, otherwise every resolved
      employee is credited with the divisor counting resolved ids (duplicates too). */
  function ApplyEvent(rows: Rows, e: WashEvent, r: Resolver, schemes: map<string, SalaryScheme>,
                      share: (SalaryScheme, WashEvent, int) -> Share): Rows
  {
    var onWash := ResolveIds(r, e.employeeIds.Seq());
    if onWash == [] then rows else CreditAll(rows, onWash, e, |onWash|, schemes, share)
  }

  /** Every wash, in order. */
  function ApplyEvents(rows: Rows, events: seq<WashEvent>, r: Resolver, schemes: map<string, SalaryScheme>,
                       share: (SalaryScheme, WashEvent, int) -> Share): Rows
  {
    if events == [] then rows
    else ApplyEvent(ApplyEvents(rows, events[..|events| - 1], r, schemes, share), events[|events| - 1], r, schemes, share)
  }

  /** The sum of the earnings of breakdown items. */
  function SumEarnings(items: seq<SalaryBreakdownItem>): real {
    if items == [] then 0.0 else SumEarnings(items[..|items| - 1]) + items[|items| - 1].earnings
  }

  /** The invariant every report row keeps: it belongs to its key, its total is the sum
      of its breakdown, and each item has earnings or unpaid services to show. */
  ghost predicate Consistent(rows: Rows) {
    forall k :: k in rows ==> RowConsistent(k, rows[k])
  }

  ghost predicate RowConsistent(k: string, row: SalaryReportData) {
    && row.employeeId == k
    && row.totalEarnings == SumEarnings(row.breakdown)
    && forall i :: 0 <= i < |row.breakdown| ==>
         row.breakdown[i].earnings > 0.0 || |row.breakdown[i].unpaidServices| > 0
  }

  /** An item with earnings or unpaid services keeps a row consistent. */
  lemma AddItemConsistent(k: string, row: SalaryReportData, e: WashEvent, sh: Share)
    requires RowConsistent(k, row) && (sh.earnings > 0.0 || |sh.unpaid| > 0)
    ensures RowConsistent(k, AddItem(row, e, sh))
  {
    var row' := AddItem(row, e, sh);
    assert row'.breakdown[..|row'.breakdown| - 1] == row.breakdown;
    forall i | 0 <= i < |row'.breakdown|
      ensures row'.breakdown[i].earnings > 0.0 || |row'.breakdown[i].unpaidServices| > 0
    {
      if i < |row.breakdown| {
        assert row'.breakdown[i] == row.breakdown[i];
      }
    }
  }

  lemma {:induction false} InitialRowsConsistent(employees: seq<Employee>)
    ensures Consistent(InitialRows(employees))
    ensures InitialRows(employees).Keys == set k | 0 <= k < |employees| :: employees[k].id
  {
    if employees != [] {
      var init := employees[..|employees| - 1];
      InitialRowsConsistent(init);
      var ids := set k | 0 <= k < |employees| :: employees[k].id;
      var initIds := set k | 0 <= k < |init| :: init[k].id;
      assert ids == initIds + {employees[|employees| - 1].id} by {
        forall x | x in ids ensures x in initIds + {employees[|employees| - 1].id} {
          var k :| 0 <= k < |employees| && employees[k].id == x;
          if k < |init| { assert init[k] == employees[k]; }
        }
        forall x | x in initIds ensures x in ids {
          var k :| 0 <= k < |init| && init[k].id == x;
          assert employees[k] == init[k];
        }
      }
    }
  }

  lemma {:induction false} CreditAllKeys(rows: Rows, emps: seq<Employee>, e: WashEvent, n: int,
                                         schemes: map<string, SalaryScheme>, share: (SalaryScheme, WashEvent, int) -> Share)
    ensures CreditAll(rows, emps, e, n, schemes, share).Keys == rows.Keys
  {
    if emps != [] {
      CreditAllKeys(rows, emps[..|emps| - 1], e, n, schemes, share);
    }
  }

  lemma {:induction false} CreditAllConsistent(rows: Rows, emps: seq<Employee>, e: WashEvent, n: int,
                                               schemes: map<string, SalaryScheme>, share: (SalaryScheme, WashEvent, int) -> Share)
    requires Consistent(rows)
    ensures Consistent(CreditAll(rows, emps, e, n, schemes, share))
    ensures CreditAll(rows, emps, e, n, schemes, share).Keys == rows.Keys
  {
    if emps != [] {
      CreditAllConsistent(rows, emps[..|emps| - 1], e, n, schemes, share);
      CreditConsistent(CreditAll(rows, emps[..|emps| - 1], e, n, schemes, share), emps[|emps| - 1], e, n, schemes, share);
    }
  }

  /** One credit keeps the row invariant and the set of rows. */
  lemma CreditConsistent(rows: Rows, emp: Employee, e: WashEvent, n: int,
                         schemes: map<string, SalaryScheme>, share: (SalaryScheme, WashEvent, int) -> Share)
    requires Consistent(rows)
    ensures Consistent(Credit(rows, emp, e, n, schemes, share))
    ensures Credit(rows, emp, e, n, schemes, share).Keys == rows.Keys
  {
    if emp.salarySchemeId != "" && emp.salarySchemeId in schemes && emp.id in rows {
      var sh := share(schemes[emp.salarySchemeId], e, n);
      if sh.earnings > 0.0 || |sh.unpaid| > 0 {
        AddItemConsistent(emp.id, rows[emp.id], e, sh);
        ReplaceConsistent(rows, emp.id, AddItem(rows[emp.id], e, sh));
      }
    }
  }

  /** Replacing an existing row by a consistent one keeps the invariant and the keys. */
  lemma ReplaceConsistent(rows: Rows, k: string, row: SalaryReportData)
    requires Consistent(rows) && k in rows && RowConsistent(k, row)
    ensures Consistent(rows[k := row]) && rows[k := row].Keys == rows.Keys
  {
    var rows' := rows[k := row];
    forall j | j in rows' ensures RowConsistent(j, rows'[j]) {
      if j != k {
        assert rows'[j] == rows[j];
      }
    }
  }

  /** The fold keeps the row invariant and the set of rows. */
  lemma {:induction false} ApplyEventsConsistent(rows: Rows, events: seq<WashEvent>, r: Resolver,
                                                 schemes: map<string, SalaryScheme>, share: (SalaryScheme, WashEvent, int) -> Share)
    requires Consistent(rows)
    ensures Consistent(ApplyEvents(rows, events, r, schemes, share))
    ensures ApplyEvents(rows, events, r, schemes, share).Keys == rows.Keys
  {
    if events != [] {
      ApplyEventsConsistent(rows, events[..|events| - 1], r, schemes, share);
      var before := ApplyEvents(rows, events[..|events| - 1], r, schemes, share);
      var e := events[|events| - 1];
      var onWash := ResolveIds(r, e.employeeIds.Seq());
      if onWash != [] {
        CreditAllConsistent(before, onWash, e, |onWash|, schemes, share);
      }
    }
  }

  /** The report rows of a set of washes: one per distinct employee id, each consistent. */
  function ReportRows(events: seq<WashEvent>, employees: seq<Employee>, r: Resolver,
                      schemes: map<string, SalaryScheme>, share: (SalaryScheme, WashEvent, int) -> Share): (rows: Rows)
    ensures rows.Keys == set k | 0 <= k < |employees| :: employees[k].id
    ensures Consistent(rows)
  {
    InitialRowsConsistent(employees);
    ApplyEventsConsistent(InitialRows(employees), events, r, schemes, share);
    ApplyEvents(InitialRows(employees), events, r, schemes, share)
  }

  /** The resolver only ever yields records from the employee list. */
  ghost predicate ResolvesWithin(r: Resolver, employees: seq<Employee>) {
    match r
    case LastById(byId) => forall k :: k in byId ==> byId[k] in employees
    case FirstMatch(es) => es == employees
  }

  lemma {:induction false} ResolvedAreEmployees(r: Resolver, employees: seq<Employee>, ids: seq<string>)
    requires ResolvesWithin(r, employees)
    ensures forall j :: 0 <= j < |ResolveIds(r, ids)| ==> ResolveIds(r, ids)[j] in employees
  {
    if ids != [] {
      ResolvedAreEmployees(r, employees, ids[..|ids| - 1]);
    }
  }

  /** Crediting touches no row of an employee none of whose credited records has a
      known scheme. */
  lemma {:induction false} CreditAllLeaves(rows: Rows, emps: seq<Employee>, e: WashEvent, n: int,
                                           schemes: map<string, SalaryScheme>, share: (SalaryScheme, WashEvent, int) -> Share, k: string)
    requires k in rows
    requires forall j :: 0 <= j < |emps| && emps[j].id == k ==>
               emps[j].salarySchemeId == "" || emps[j].salarySchemeId !in schemes
    ensures k in CreditAll(rows, emps, e, n, schemes, share)
    ensures CreditAll(rows, emps, e, n, schemes, share)[k] == rows[k]
  {
    if emps != [] {
      CreditAllLeaves(rows, emps[..|emps| - 1], e, n, schemes, share, k);
    }
  }

  /** An employee whose every record lacks a known scheme earns nothing and has an
      empty breakdown, whatever the washes. */
  lemma {:induction false} NoSchemeNoEarnings(events: seq<WashEvent>, employees: seq<Employee>, r: Resolver,
                                              schemes: map<string, SalaryScheme>, share: (SalaryScheme, WashEvent, int) -> Share, k: string)
    requires ResolvesWithin(r, employees)
    requires exists j :: 0 <= j < |employees| && employees[j].id == k
    requires forall j :: 0 <= j < |employees| && employees[j].id == k ==>
               employees[j].salarySchemeId == "" || employees[j].salarySchemeId !in schemes
    ensures k in ReportRows(events, employees, r, schemes, share)
    ensures ReportRows(events, employees, r, schemes, share)[k].totalEarnings == 0.0
    ensures ReportRows(events, employees, r, schemes, share)[k].breakdown == []
  {
    InitialRowsConsistent(employees);
    ApplyEventsLeave(InitialRows(employees), events, employees, r, schemes, share, k);
  }

  lemma {:induction false} ApplyEventsLeave(rows: Rows, events: seq<WashEvent>, employees: seq<Employee>, r: Resolver,
                                            schemes: map<string, SalaryScheme>, share: (SalaryScheme, WashEvent, int) -> Share, k: string)
    requires ResolvesWithin(r, employees)
    requires k in rows
    requires forall j :: 0 <= j < |employees| && employees[j].id == k ==>
               employees[j].salarySchemeId == "" || employees[j].salarySchemeId !in schemes
    ensures k in ApplyEvents(rows, events, r, schemes, share)
    ensures ApplyEvents(rows, events, r, schemes, share)[k] == rows[k]
  {
    if events != [] {
      ApplyEventsLeave(rows, events[..|events| - 1], employees, r, schemes, share, k);
      var before := ApplyEvents(rows, events[..|events| - 1], r, schemes, share);
      var e := events[|events| - 1];
      var onWash := ResolveIds(r, e.employeeIds.Seq());
      if onWash != [] {
        ResolvedAreEmployees(r, employees, e.employeeIds.Seq());
        forall j | 0 <= j < |onWash| && onWash[j].id == k
          ensures onWash[j].salarySchemeId == "" || onWash[j].salarySchemeId !in schemes
        {
          var m :| 0 <= m < |employees| && employees[m] == onWash[j];
        }
        CreditAllLeaves(before, onWash, e, |onWash|, schemes, share, k);
      }
    }
  }
}
