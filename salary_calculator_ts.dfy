/** The TypeScript twin of the payroll engine. It shares the rate algorithm and the
    report fold with the Go backend and differs in the source kind of an unknown
    payment method, the base amount, the rounding, the employee lookup and the order
    of the final report. */
module SalaryCalculatorTs {
  import opened Wrappers
  import opened Models
  import opened Payroll
  import Sorting
  import Go = SalaryCalculator
  import opened Grouping
  import opened PropertyKeys

  /** The kind of client a payment method belongs to; None (null) for an unknown method. */
  function WashSourceType(paymentMethod: string): (kind: Option<string>)
    ensures kind == Some("retail") <==> paymentMethod in {Cash, Card, Transfer}
    ensures kind == Some("aggregator") <==> paymentMethod == AggregatorMethod
    ensures kind == Some("counterAgent") <==> paymentMethod == CounterAgentContract
    ensures kind.None? <==> paymentMethod !in {Cash, Card, Transfer, AggregatorMethod, CounterAgentContract}
  {
    if paymentMethod == Cash || paymentMethod == Card || paymentMethod == Transfer then Some("retail")
    else if paymentMethod == AggregatorMethod then Some("aggregator")
    else if paymentMethod == CounterAgentContract then Some("counterAgent")
    else None
  }

  /** parseFloat(x.toFixed(2)) on a positive x, in exact arithmetic: x rounded to the
      nearest cent, halves upward. */
  function RoundCents(x: real): (r: real)
    requires x > 0.0
    ensures (r * 100.0).Floor as real == r * 100.0
    ensures r >= 0.0 && r - 0.005 <= x < r + 0.005
  {
    var cents := (x * 100.0 + 0.5).Floor;
    assert cents as real <= x * 100.0 + 0.5 < cents as real + 1.0;
    assert cents >= 0;
    var r := cents as real / 100.0;
    assert r * 100.0 == cents as real;
    r
  }

  /** The identity a wash is matched by: "retail" for retail washes, else its source id,
      which may be absent. */
  function WashSourceId(e: WashEvent): Option<string> {
    if WashSourceType(e.paymentMethod) == Some("retail") then Some("retail") else e.sourceId
  }

  /** The rate-source filter: kind and identity agree (an absent kind or id never does),
      and an aggregator source naming a price list requires the wash to have used it. */
  predicate SourceAccepts(src: RateSource, e: WashEvent) {
    WashSourceType(e.paymentMethod) == Some(src.sourceType)
    && WashSourceId(e) == Some(src.id)
    && !(WashSourceType(e.paymentMethod) == Some("aggregator") && src.priceListName != ""
         && e.priceListName != src.priceListName)
  }

  /** The percentage base: the net amount whenever it is present, even when it is 0. */
  function BaseAmount(e: WashEvent): (r: real)
    ensures e.netAmount.Some? ==> r == e.netAmount.value
    ensures e.netAmount.None? ==> r == e.totalAmount
  {
    if e.netAmount.Some? then e.netAmount.value else e.totalAmount
  }

  function PercentageRaw(scheme: SalaryScheme, e: WashEvent, n: int): real
    requires n > 0
  {
    (BaseAmount(e) - scheme.fixedDeduction) * (scheme.percentage / 100.0) / (n as real)
  }

  /** The rate share before rounding: the rates of the wash's services over the crew. */
  function RateRaw(scheme: SalaryScheme, e: WashEvent, n: int): real
    requires n > 0
  {
    RateTotal(AllServices(e), RateMap(scheme.rates.Seq())) / (n as real)
  }

  /** The specification of the TypeScript calculateIndividualShare. */
  function ShareOf(scheme: SalaryScheme, e: WashEvent, n: int): (sh: Share)
    ensures sh.earnings >= 0.0 && (sh.earnings * 100.0).Floor as real == sh.earnings * 100.0
    ensures n <= 0 ==> sh == Share(0.0, [])
    ensures scheme.schemeType != "percentage" && scheme.schemeType != "rate" ==> sh == Share(0.0, [])
    ensures scheme.schemeType == "percentage" ==> sh.unpaid == []
    ensures (n > 0 && scheme.schemeType == "percentage") ==>
              if PercentageRaw(scheme, e, n) > 0.0
              then sh.earnings - 0.005 <= PercentageRaw(scheme, e, n) < sh.earnings + 0.005
              else sh.earnings == 0.0
    ensures (n > 0 && scheme.schemeType == "rate" && scheme.rateSource.Some?
             && !SourceAccepts(scheme.rateSource.value, e)) ==> sh == Share(0.0, [])
    ensures (n > 0 && scheme.schemeType == "rate"
             && (scheme.rateSource.None? || SourceAccepts(scheme.rateSource.value, e))) ==>
              && sh.unpaid == Unpaid(AllServices(e), RateMap(scheme.rates.Seq()))
              && if RateRaw(scheme, e, n) > 0.0
                 then sh.earnings - 0.005 <= RateRaw(scheme, e, n) < sh.earnings + 0.005
                 else sh.earnings == 0.0
  {
    if n <= 0 then Share(0.0, [])
    else if scheme.schemeType == "percentage" then
      var earning := PercentageRaw(scheme, e, n);
      Share(if earning > 0.0 then RoundCents(earning) else 0.0, [])
    else if scheme.schemeType == "rate" then
      if scheme.rateSource.Some? && !SourceAccepts(scheme.rateSource.value, e) then Share(0.0, [])
      else
        var earning := RateRaw(scheme, e, n);
        Share(if earning > 0.0 then RoundCents(earning) else 0.0, Unpaid(AllServices(e), RateMap(scheme.rates.Seq())))
    else Share(0.0, [])
  }

  /** calculateIndividualShare: the result object starts at {0, []} and is filled in. */
  method CalculateIndividualShare(scheme: SalaryScheme, e: WashEvent, numEmployeesOnWash: int)
    returns (earnings: real, unpaidServices: seq<string>)
    ensures Share(earnings, unpaidServices) == ShareOf(scheme, e, numEmployeesOnWash)
  {
    earnings, unpaidServices := 0.0, [];
    if numEmployeesOnWash <= 0 {
      return;
    }
    if scheme.schemeType == "percentage" {
      var totalBaseAmount := if e.netAmount.Some? then e.netAmount.value else e.totalAmount;
      var afterDeduction := totalBaseAmount - scheme.fixedDeduction;
      var pool := afterDeduction * (scheme.percentage / 100.0);
      var earning := pool / (numEmployeesOnWash as real);
      assert earning == PercentageRaw(scheme, e, numEmployeesOnWash);
      earnings := if earning > 0.0 then RoundCents(earning) else 0.0;
      return;
    }
    if scheme.schemeType == "rate" {
      if scheme.rateSource.Some? {
        var src := scheme.rateSource.value;
        var washSourceType := WashSourceType(e.paymentMethod);
        if Some(src.sourceType) != washSourceType {
          return;
        }
        var washSourceId := if washSourceType == Some("retail") then Some("retail") else e.sourceId;
        if Some(src.id) != washSourceId {
          return;
        }
        if washSourceType == Some("aggregator") && src.priceListName != "" && e.priceListName != src.priceListName {
          return;
        }
      }
      var allServices := [e.services.main] + e.services.additional.Seq();
      var rateMap := RateMap(scheme.rates.Seq());
      var totalRateForWash;
      totalRateForWash, unpaidServices := RatePool(allServices, rateMap);
      var earning := totalRateForWash / (numEmployeesOnWash as real);
      earnings := if earning > 0.0 then RoundCents(earning) else 0.0;
      return;
    }
  }

  /** The for-of loop over the services, with `includes` as the duplicate check. */
  method RatePool(allServices: seq<PriceListItem>, rateMap: map<string, SalaryRate>)
    returns (totalRateForWash: real, unpaidServices: seq<string>)
    ensures totalRateForWash == RateTotal(allServices, rateMap)
    ensures unpaidServices == Unpaid(allServices, rateMap)
  {
    totalRateForWash := 0.0;
    unpaidServices := [];
    for i := 0 to |allServices|
      invariant totalRateForWash == RateTotal(allServices[..i], rateMap)
      invariant unpaidServices == Unpaid(allServices[..i], rateMap)
    {
      assert allServices[..i + 1][..i] == allServices[..i];
      var service := allServices[i];
      if service.serviceName == "" {
        continue;
      }
      if service.serviceName in rateMap && rateMap[service.serviceName].rate > 0.0 {
        var rateItem := rateMap[service.serviceName];
        var earningForService := rateItem.rate - rateItem.deduction;
        totalRateForWash := totalRateForWash + if earningForService > 0.0 then earningForService else 0.0;
      } else if service.serviceName !in unpaidServices {
        unpaidServices := unpaidServices + [service.serviceName];
      }
    }
    assert allServices[..|allServices|] == allServices;
  }

  /** The order in which the keys of the salaryData record are first set: employee ids,
      first seen first. Object.values lists them in PropertyOrder of this. */
  function KeyOrder(employees: seq<Employee>): (keys: seq<string>)
    ensures forall i, j :: 0 <= i < j < |keys| ==> keys[i] != keys[j]
  {
    if employees == [] then []
    else
      var keys := KeyOrder(employees[..|employees| - 1]);
      var id := employees[|employees| - 1].id;
      if id in keys then keys else keys + [id]
  }

  lemma {:induction false} KeyOrderMembers(employees: seq<Employee>)
    ensures forall k :: k in KeyOrder(employees) <==> exists j :: 0 <= j < |employees| && employees[j].id == k
  {
    if employees != [] {
      var init := employees[..|employees| - 1];
      KeyOrderMembers(init);
      forall k ensures k in KeyOrder(employees) <==> exists j :: 0 <= j < |employees| && employees[j].id == k {
        if k in KeyOrder(init) {
          var j :| 0 <= j < |init| && init[j].id == k;
          assert employees[j] == init[j];
        }
        if exists j :: 0 <= j < |employees| && employees[j].id == k {
          var j :| 0 <= j < |employees| && employees[j].id == k;
          if j < |init| { assert init[j] == employees[j]; }
        }
      }
    }
  }

  /** The record's rows in the order of the listed keys. */
  function RowsInOrder(rows: Rows, keys: seq<string>): (r: seq<SalaryReportData>)
    ensures |r| <= |keys|
    ensures forall i :: 0 <= i < |r| ==> r[i] in rows.Values
  {
    if keys == [] then []
    else
      var k := keys[|keys| - 1];
      RowsInOrder(rows, keys[..|keys| - 1]) + (if k in rows then [rows[k]] else [])
  }

  lemma {:induction false} RowsInOrderComplete(rows: Rows, keys: seq<string>)
    requires forall k :: k in keys ==> k in rows
    ensures |RowsInOrder(rows, keys)| == |keys|
    ensures forall i :: 0 <= i < |keys| ==> RowsInOrder(rows, keys)[i] == rows[keys[i]]
  {
    if keys != [] {
      RowsInOrderComplete(rows, keys[..|keys| - 1]);
    }
  }

  /** The report rows: employees found by first id match, schemes by id (a later
      duplicate wins, as the Map constructor keeps the last entry). */
  function TsReportRows(events: seq<WashEvent>, employees: seq<Employee>, schemes: seq<SalaryScheme>): Rows {
    ReportRows(events, employees, FirstMatch(employees), IndexBy(schemes, SchemeId), ShareOf)
  }

  /** The specification of generateSalaryReport. */
  function TsReport(events: seq<WashEvent>, employees: seq<Employee>, schemes: seq<SalaryScheme>): seq<SalaryReportData> {
    Sorting.SortDesc(RowsInOrder(TsReportRows(events, employees, schemes), PropertyOrder(KeyOrder(employees))), Go.TotalOf)
  }

  /** generateSalaryReport. */
  method GenerateSalaryReport(washEvents: seq<WashEvent>, employees: seq<Employee>, salarySchemes: seq<SalaryScheme>)
    returns (result: seq<SalaryReportData>)
    ensures result == TsReport(washEvents, employees, salarySchemes)
  {
    var schemeMap := IndexBy(salarySchemes, SchemeId);
    var salaryData, keyOrder := CollectEmployees(employees);
    InitialRowsConsistent(employees);
    var start := salaryData;
    for i := 0 to |washEvents|
      invariant salaryData == ApplyEvents(start, washEvents[..i], FirstMatch(employees), schemeMap, ShareOf)
      invariant salaryData.Keys == start.Keys
    {
      assert washEvents[..i + 1][..i] == washEvents[..i];
      salaryData := CreditWash(salaryData, washEvents[i], employees, schemeMap);
    }
    assert washEvents[..|washEvents|] == washEvents;
    result := Sorting.SortDesc(RowsInOrder(salaryData, PropertyOrder(keyOrder)), Go.TotalOf);
  }

  /** The forEach over the employees seeding salaryData, with the order its keys are
      first set in. */
  method CollectEmployees(employees: seq<Employee>) returns (salaryData: Rows, keyOrder: seq<string>)
    ensures salaryData == InitialRows(employees)
    ensures keyOrder == KeyOrder(employees)
    ensures forall k :: k in salaryData <==> k in keyOrder
  {
    salaryData, keyOrder := map[], [];
    for i := 0 to |employees|
      invariant salaryData == InitialRows(employees[..i])
      invariant keyOrder == KeyOrder(employees[..i])
      invariant forall k :: k in salaryData <==> k in keyOrder
    {
      assert employees[..i + 1][..i] == employees[..i];
      var emp := employees[i];
      if emp.id !in salaryData {
        keyOrder := keyOrder + [emp.id];
      }
      salaryData := salaryData[emp.id := EmptyRow(emp)];
    }
    assert employees[..|employees|] == employees;
  }

  /** One pass of the forEach over the washes: a wash without employee ids, or none
      that resolve, is skipped. */
  method CreditWash(salaryData: Rows, event: WashEvent, employees: seq<Employee>,
                    schemeMap: map<string, SalaryScheme>) returns (rows: Rows)
    requires forall k :: 0 <= k < |employees| ==> employees[k].id in salaryData
    ensures rows == ApplyEvent(salaryData, event, FirstMatch(employees), schemeMap, ShareOf)
    ensures rows.Keys == salaryData.Keys
  {
    rows := salaryData;
    if event.employeeIds.Nil? || |event.employeeIds.items| == 0 {
      return;
    }
    var employeesOnWash := ResolveIds(FirstMatch(employees), event.employeeIds.Seq());
    if |employeesOnWash| == 0 {
      return;
    }
    ResolvedAreEmployees(FirstMatch(employees), employees, event.employeeIds.Seq());
    CreditAllKeys(salaryData, employeesOnWash, event, |employeesOnWash|, schemeMap, ShareOf);
    rows := CreditEmployees(salaryData, employeesOnWash, event, schemeMap);
  }

  /** The inner for-of loop over the employees on one wash. */
  method CreditEmployees(salaryData: Rows, employeesOnWash: seq<Employee>, event: WashEvent,
                         schemeMap: map<string, SalaryScheme>) returns (rows: Rows)
    requires forall j :: 0 <= j < |employeesOnWash| ==> employeesOnWash[j].id in salaryData
    ensures rows == CreditAll(salaryData, employeesOnWash, event, |employeesOnWash|, schemeMap, ShareOf)
  {
    rows := salaryData;
    var n := |employeesOnWash|;
    for j := 0 to n
      invariant rows == CreditAll(salaryData, employeesOnWash[..j], event, n, schemeMap, ShareOf)
      invariant rows.Keys == salaryData.Keys
    {
      assert employeesOnWash[..j + 1][..j] == employeesOnWash[..j];
      var employee := employeesOnWash[j];
      if employee.salarySchemeId == "" || employee.salarySchemeId !in schemeMap {
        continue;
      }
      var earnings, unpaidServices := CalculateIndividualShare(schemeMap[employee.salarySchemeId], event, n);
      if earnings > 0.0 || |unpaidServices| > 0 {
        rows := rows[employee.id := AddItem(rows[employee.id], event, Share(earnings, unpaidServices))];
      }
    }
    assert employeesOnWash[..n] == employeesOnWash;
  }

  /** The TypeScript report holds every row exactly once, by total earnings descending. */
  lemma TsReportSpec(events: seq<WashEvent>, employees: seq<Employee>, schemes: seq<SalaryScheme>)
    ensures var rows := TsReportRows(events, employees, schemes);
      var r := TsReport(events, employees, schemes);
      |r| == |rows|
      && (forall i :: 0 <= i < |r| ==> r[i].employeeId in rows && rows[r[i].employeeId] == r[i])
      && (forall k :: k in rows ==> rows[k] in r)
      && Sorting.SortedDescBy(r, Go.TotalOf)
  {
    var rows := TsReportRows(events, employees, schemes);
    var keys := PropertyOrder(KeyOrder(employees));
    KeyOrderMembers(employees);
    PropertyOrderMembers(KeyOrder(employees));
    assert forall k :: k in keys <==> k in rows;
    var values := RowsInOrder(rows, keys);
    RowsInOrderExact(rows, keys);
    Sorting.SortDescSpec(values, Go.TotalOf);
    ExactAfterPermutation(rows, values, Sorting.SortDesc(values, Go.TotalOf));
  }

  /** Reordering a list that holds every row exactly once keeps that so. */
  lemma ExactAfterPermutation(rows: Rows, values: seq<SalaryReportData>, r: seq<SalaryReportData>)
    requires multiset(r) == multiset(values) && |r| == |values|
    requires |values| == |rows|
    requires forall i :: 0 <= i < |values| ==> values[i].employeeId in rows && rows[values[i].employeeId] == values[i]
    requires forall k :: k in rows ==> rows[k] in values
    ensures |r| == |rows|
    ensures forall i :: 0 <= i < |r| ==> r[i].employeeId in rows && rows[r[i].employeeId] == r[i]
    ensures forall k :: k in rows ==> rows[k] in r
  {
    forall i | 0 <= i < |r| ensures r[i].employeeId in rows && rows[r[i].employeeId] == r[i] {
      assert r[i] in multiset(values);
      var j :| 0 <= j < |values| && values[j] == r[i];
    }
    forall k | k in rows ensures rows[k] in r {
      assert rows[k] in multiset(values);
    }
  }

  /** With every row's key listed once, Object.values yields each row exactly once. */
  lemma RowsInOrderExact(rows: Rows, keys: seq<string>)
    requires Consistent(rows)
    requires forall k :: k in keys <==> k in rows
    requires forall i, j :: 0 <= i < j < |keys| ==> keys[i] != keys[j]
    ensures var values := RowsInOrder(rows, keys);
      |values| == |rows|
      && (forall i :: 0 <= i < |values| ==> values[i].employeeId in rows && rows[values[i].employeeId] == values[i])
      && (forall k :: k in rows ==> rows[k] in values)
  {
    RowsInOrderComplete(rows, keys);
    var values := RowsInOrder(rows, keys);
    assert |values| == |rows| by {
      assert rows.Keys == set i | 0 <= i < |keys| :: keys[i];
      DistinctCard(keys);
    }
    forall k | k in rows ensures rows[k] in values {
      var j :| 0 <= j < |keys| && keys[j] == k;
      assert values[j] == rows[k];
    }
  }

  lemma {:induction false} DistinctCard(keys: seq<string>)
    requires forall i, j :: 0 <= i < j < |keys| ==> keys[i] != keys[j]
    ensures |set i | 0 <= i < |keys| :: keys[i]| == |keys|
  {
    if keys != [] {
      var init := keys[..|keys| - 1];
      DistinctCard(init);
      var s := set i | 0 <= i < |keys| :: keys[i];
      var t := set i | 0 <= i < |init| :: init[i];
      assert s == t + {keys[|keys| - 1]} by {
        forall x | x in s ensures x in t + {keys[|keys| - 1]} {
          var i :| 0 <= i < |keys| && keys[i] == x;
          if i < |init| { assert init[i] == keys[i]; }
        }
      }
      assert keys[|keys| - 1] !in t;
    }
  }

  /** Rows with equal totals keep the order Object.values lists them in: the ids that
      are array indices first, ascending, then the others in first-seen order. */
  lemma TsReportStable(events: seq<WashEvent>, employees: seq<Employee>, schemes: seq<SalaryScheme>, v: real)
    ensures Sorting.WithKey(TsReport(events, employees, schemes), Go.TotalOf, v)
         == Sorting.WithKey(RowsInOrder(TsReportRows(events, employees, schemes), PropertyOrder(KeyOrder(employees))), Go.TotalOf, v)
  {
    Sorting.SortDescStable(RowsInOrder(TsReportRows(events, employees, schemes), PropertyOrder(KeyOrder(employees))), Go.TotalOf, v);
  }

  /** When no employee id is a decimal number, rows with equal totals keep the
      first-seen order of their employees. */
  lemma TsReportStableFirstSeen(events: seq<WashEvent>, employees: seq<Employee>, schemes: seq<SalaryScheme>, v: real)
    requires forall j :: 0 <= j < |employees| ==> NotArrayIndex(employees[j].id)
    ensures Sorting.WithKey(TsReport(events, employees, schemes), Go.TotalOf, v)
         == Sorting.WithKey(RowsInOrder(TsReportRows(events, employees, schemes), KeyOrder(employees)), Go.TotalOf, v)
  {
    var keys := KeyOrder(employees);
    KeyOrderMembers(employees);
    forall i | 0 <= i < |keys| ensures NotArrayIndex(keys[i]) {
      assert keys[i] in keys;
    }
    PropertyOrderInsertion(keys);
    TsReportStable(events, employees, schemes, v);
  }

  /** The backends disagree on a net amount of 0: Go falls back to the total and pays
      225, TypeScript takes the 0 and pays nothing. */
  lemma NetAmountZeroDiffers()
    ensures var scheme := SalaryScheme("s", "half", "percentage", 50.0, 100.0, None, Nil);
      var e := Go.SimpleWash(Cash, WashServices(Go.Service("Wash"), Nil), 1000.0, Some(0.0), ["a", "b"]);
      Go.ShareOf(scheme, e, 2) == Share(225.0, []) && ShareOf(scheme, e, 2) == Share(0.0, [])
  {
    Go.PercentageExample();
  }

  /** The backends disagree on a share of 2.999: Go truncates to 2.99, TypeScript rounds
      to 3.00. */
  lemma RoundingDiffers()
    ensures var scheme := SalaryScheme("s", "all", "percentage", 100.0, 0.0, None, Nil);
      var e := Go.SimpleWash(Cash, WashServices(Go.Service("Wash"), Nil), 2.999, None, ["a"]);
      Go.ShareOf(scheme, e, 1) == Share(2.99, []) && ShareOf(scheme, e, 1) == Share(3.0, [])
  {
    assert Go.TruncateCents(2.999) == 2.99;
    assert RoundCents(2.999) == 3.0;
  }

  /** The backends disagree on an unknown payment method under a rate source whose kind
      and id are empty: Go's "" kind and "" source id match it, TypeScript's null kind
      never matches. */
  lemma UnknownMethodDiffers()
    ensures var scheme := SalaryScheme("s", "any", "rate", 0.0, 0.0, Some(RateSource("", "", "")),
                                       Items([SalaryRate("Wash", 100.0, 0.0)]));
      var e := Go.SimpleWash("crypto", WashServices(Go.Service("Wash"), Nil), 500.0, None, ["a"]);
      Go.ShareOf(scheme, e, 1) == Share(100.0, []) && ShareOf(scheme, e, 1) == Share(0.0, [])
  {
    var rates := [SalaryRate("Wash", 100.0, 0.0)];
    assert rates[..0] == [];
    var rm := RateMap(rates);
    assert rm == map["Wash" := rates[0]];
    var services := [Go.Service("Wash")];
    assert services[..0] == [];
    assert RateTotal(services, rm) == 100.0;
    assert Unpaid(services, rm) == [];
    assert Go.TruncateCents(100.0) == 100.0;
  }

  /** With two records sharing an id, Go credits the last one (its scheme decides) and
      TypeScript the first. */
  lemma DuplicateRecordsDiffer(first: Employee, last: Employee)
    requires first.id == last.id && first != last
    ensures Lookup(LastById(IndexBy([first, last], EmployeeId)), first.id) == Some(last)
    ensures Lookup(FirstMatch([first, last]), first.id) == Some(first)
  {
    assert [first, last][..1] == [first];
    assert [first][..0] == [];
  }
}
