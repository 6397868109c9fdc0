/** The Go backend's payroll engine: one employee's share of one wash, and the salary
    report over a set of washes. */
module SalaryCalculator {
  import opened Wrappers
  import opened Models
  import opened Payroll
  import Sorting

  /** The kind of client a payment method belongs to; "" for a method the backend
      does not know. */
  function WashSourceType(paymentMethod: string): (kind: string)
    ensures kind == "retail" <==> paymentMethod in {Cash, Card, Transfer}
    ensures kind == "aggregator" <==> paymentMethod == AggregatorMethod
    ensures kind == "counterAgent" <==> paymentMethod == CounterAgentContract
    ensures kind in {"retail", "aggregator", "counterAgent", ""}
  {
    if paymentMethod == Cash || paymentMethod == Card || paymentMethod == Transfer then "retail"
    else if paymentMethod == AggregatorMethod then "aggregator"
    else if paymentMethod == CounterAgentContract then "counterAgent"
    else ""
  }

  /** Go's float64(int(x*100))/100 on a positive x: x cut down to whole cents. */
  function TruncateCents(x: real): (r: real)
    requires x > 0.0
    ensures (r * 100.0).Floor as real == r * 100.0
    ensures 0.0 <= r <= x < r + 0.01
  {
    var cents := (x * 100.0).Floor;
    assert cents as real <= x * 100.0 < cents as real + 1.0;
    assert cents >= 0;
    var r := cents as real / 100.0;
    assert r * 100.0 == cents as real;
    r
  }

  /** The identity a wash is matched against a rate source by: "retail" for retail
      washes, the event's source id (absent read as "") otherwise. */
  function WashSourceId(e: WashEvent): string {
    if WashSourceType(e.paymentMethod) == "retail" then "retail" else e.sourceId.GetOr("")
  }

  /** A rate source applies to a wash when kind and identity agree and, for an
      aggregator source that names a price list, the wash used that list. */
  predicate SourceAccepts(src: RateSource, e: WashEvent) {
    src.sourceType == WashSourceType(e.paymentMethod)
    && src.id == WashSourceId(e)
    && !(WashSourceType(e.paymentMethod) == "aggregator" && src.priceListName != ""
         && e.priceListName != src.priceListName)
  }

  /** The amount a percentage scheme takes its share of: the net amount when it is
      positive, otherwise the total. */
  function BaseAmount(e: WashEvent): (r: real)
    ensures e.netAmount.GetOr(0.0) > 0.0 ==> r == e.netAmount.value
    ensures e.netAmount.GetOr(0.0) <= 0.0 ==> r == e.totalAmount
  {
    if e.netAmount.GetOr(0.0) > 0.0 then e.netAmount.value else e.totalAmount
  }

  /** One employee's untruncated percentage share of a wash shared by n employees. */
  function PercentageRaw(scheme: SalaryScheme, e: WashEvent, n: int): real
    requires n > 0
  {
    (BaseAmount(e) - scheme.fixedDeduction) * (scheme.percentage / 100.0) / (n as real)
  }

  /** The specification of calculateIndividualShare. */
  function ShareOf(scheme: SalaryScheme, e: WashEvent, n: int): (sh: Share)
    ensures sh.earnings >= 0.0 && (sh.earnings * 100.0).Floor as real == sh.earnings * 100.0
    ensures n <= 0 ==> sh == Share(0.0, [])
    ensures scheme.schemeType != "percentage" && scheme.schemeType != "rate" ==> sh == Share(0.0, [])
    ensures scheme.schemeType == "percentage" ==> sh.unpaid == []
    ensures n > 0 && scheme.schemeType == "percentage" ==>
              sh.earnings <= PercentageRaw(scheme, e, n) < sh.earnings + 0.01
              || (PercentageRaw(scheme, e, n) <= 0.0 && sh.earnings == 0.0)
    ensures (n > 0 && scheme.schemeType == "rate" && scheme.rateSource.Some?
             && !SourceAccepts(scheme.rateSource.value, e)) ==> sh == Share(0.0, [])
    ensures (n > 0 && scheme.schemeType == "rate"
             && (scheme.rateSource.None? || SourceAccepts(scheme.rateSource.value, e))) ==>
              sh.unpaid == Unpaid(AllServices(e), RateMap(scheme.rates.Seq()))
              && sh.earnings <= RateTotal(AllServices(e), RateMap(scheme.rates.Seq())) / (n as real)
                 < sh.earnings + 0.01
  {
    if n <= 0 then Share(0.0, [])
    else if scheme.schemeType == "percentage" then
      var earning := PercentageRaw(scheme, e, n);
      if earning > 0.0 then Share(TruncateCents(earning), []) else Share(0.0, [])
    else if scheme.schemeType == "rate" then
      if scheme.rateSource.Some? && !SourceAccepts(scheme.rateSource.value, e) then Share(0.0, [])
      else
        var rm := RateMap(scheme.rates.Seq());
        var services := AllServices(e);
        var earning := RateTotal(services, rm) / (n as real);
        Share(if earning > 0.0 then TruncateCents(earning) else 0.0, Unpaid(services, rm))
    else Share(0.0, [])
  }

  /** calculateIndividualShare: the earnings and unpaid services of one employee on a
      wash shared by numEmployeesOnWash employees. */
  method CalculateIndividualShare(scheme: SalaryScheme, e: WashEvent, numEmployeesOnWash: int)
    returns (earnings: real, unpaid: seq<string>)
    ensures Share(earnings, unpaid) == ShareOf(scheme, e, numEmployeesOnWash)
  {
    if numEmployeesOnWash <= 0 {
      return 0.0, [];
    }
    if scheme.schemeType == "percentage" {
      var totalBaseAmount := e.totalAmount;
      if e.netAmount.GetOr(0.0) > 0.0 {
        totalBaseAmount := e.netAmount.value;
      }
      var afterDeduction := totalBaseAmount - scheme.fixedDeduction;
      var pool := afterDeduction * (scheme.percentage / 100.0);
      var earning := pool / (numEmployeesOnWash as real);
      assert earning == PercentageRaw(scheme, e, numEmployeesOnWash);
      if earning > 0.0 {
        return TruncateCents(earning), [];
      }
      return 0.0, [];
    }
    if scheme.schemeType == "rate" {
      if scheme.rateSource.Some? {
        var src := scheme.rateSource.value;
        var washSourceType := WashSourceType(e.paymentMethod);
        if src.sourceType != washSourceType {
          return 0.0, [];
        }
        var washSourceId := "retail";
        if washSourceType != "retail" {
          washSourceId := e.sourceId.GetOr("");
        }
        if src.id != washSourceId {
          return 0.0, [];
        }
        if washSourceType == "aggregator" && src.priceListName != "" && e.priceListName != src.priceListName {
          return 0.0, [];
        }
      }
      var rateMap := BuildIndex(scheme.rates.Seq(), RateName);
      var allServices := [e.services.main] + e.services.additional.Seq();
      var totalRateForWash;
      totalRateForWash, unpaid := RatePool(allServices, rateMap);
      var earning := totalRateForWash / (numEmployeesOnWash as real);
      if earning > 0.0 {
        return TruncateCents(earning), unpaid;
      }
      return 0.0, unpaid;
    }
    return 0.0, [];
  }

  /** The services loop: sums the paid services' earnings and records the unpaid ones. */
  method RatePool(allServices: seq<PriceListItem>, rateMap: map<string, SalaryRate>)
    returns (totalRateForWash: real, unpaid: seq<string>)
    ensures totalRateForWash == RateTotal(allServices, rateMap)
    ensures unpaid == Unpaid(allServices, rateMap)
  {
    totalRateForWash := 0.0;
    unpaid := [];
    var i := 0;
    while i < |allServices|
      invariant 0 <= i <= |allServices|
      invariant totalRateForWash == RateTotal(allServices[..i], rateMap)
      invariant unpaid == Unpaid(allServices[..i], rateMap)
    {
      assert allServices[..i + 1][..i] == allServices[..i];
      var service := allServices[i];
      if service.serviceName != "" {
        if service.serviceName in rateMap && rateMap[service.serviceName].rate > 0.0 {
          var rateItem := rateMap[service.serviceName];
          var earningForService := rateItem.rate - rateItem.deduction;
          if earningForService > 0.0 {
            totalRateForWash := totalRateForWash + earningForService;
          }
        } else {
          var isDuplicate := Occurs(unpaid, service.serviceName);
          if !isDuplicate {
            unpaid := unpaid + [service.serviceName];
          }
        }
      }
      i := i + 1;
    }
    assert allServices[..i] == allServices;
  }

  /** The duplicate check: a scan of the names recorded so far, stopping at a match. */
  method Occurs(names: seq<string>, name: string) returns (found: bool)
    ensures found <==> name in names
  {
    found := false;
    var j := 0;
    while j < |names|
      invariant 0 <= j <= |names|
      invariant name !in names[..j]
    {
      if names[j] == name {
        found := true;
        return;
      }
      assert names[..j + 1] == names[..j] + [names[j]];
      j := j + 1;
    }
    assert names[..j] == names;
  }

  /** The report's rows: employees looked up by id with a later duplicate winning,
      schemes likewise, shares as calculateIndividualShare computes them. */
  function GoReportRows(events: seq<WashEvent>, employees: seq<Employee>, schemes: seq<SalaryScheme>): Rows {
    ReportRows(events, employees, LastById(IndexBy(employees, EmployeeId)), IndexBy(schemes, SchemeId), ShareOf)
  }

  function TotalOf(r: SalaryReportData): real { r.totalEarnings }

  /** GenerateSalaryReport: every row exactly once, by total earnings descending. The
      order of rows with equal totals is left open, as map iteration and sort.Slice
      leave it. */
  method GenerateSalaryReport(washEvents: seq<WashEvent>, employees: seq<Employee>, salarySchemes: seq<SalaryScheme>)
    returns (result: seq<SalaryReportData>)
    ensures var rows := GoReportRows(washEvents, employees, salarySchemes);
      |result| == |rows|
      && (forall i :: 0 <= i < |result| ==> result[i].employeeId in rows && rows[result[i].employeeId] == result[i])
      && (forall k :: k in rows ==> rows[k] in result)
      && Sorting.SortedDescBy(result, TotalOf)
  {
    var schemeMap := BuildIndex(salarySchemes, SchemeId);
    var employeeMap := BuildIndex(employees, EmployeeId);
    var salaryData := BuildInitialRows(employees);
    InitialRowsConsistent(employees);
    forall k | k in employeeMap ensures k in salaryData {
      var j :| 0 <= j < |employees| && employees[j] == employeeMap[k];
    }
    salaryData := ProcessEvents(salaryData, washEvents, schemeMap, employeeMap);
    ghost var rows := GoReportRows(washEvents, employees, salarySchemes);
    assert salaryData == rows;
    var unsorted := RowValues(salaryData);
    result := Sorting.SortDesc(unsorted, TotalOf);
    Sorting.SortDescSpec(unsorted, TotalOf);
    forall j | 0 <= j < |result|
      ensures result[j].employeeId in salaryData && salaryData[result[j].employeeId] == result[j]
    {
      assert result[j] in multiset(unsorted);
    }
    forall k | k in salaryData ensures salaryData[k] in result {
      assert salaryData[k] in multiset(result);
    }
  }

  /** The loop over the washes. */
  method ProcessEvents(start: Rows, washEvents: seq<WashEvent>, schemeMap: map<string, SalaryScheme>,
                       employeeMap: map<string, Employee>) returns (salaryData: Rows)
    requires forall k :: k in employeeMap ==> employeeMap[k].id == k && k in start
    ensures salaryData == ApplyEvents(start, washEvents, LastById(employeeMap), schemeMap, ShareOf)
  {
    salaryData := start;
    for i := 0 to |washEvents|
      invariant salaryData == ApplyEvents(start, washEvents[..i], LastById(employeeMap), schemeMap, ShareOf)
      invariant salaryData.Keys == start.Keys
    {
      assert washEvents[..i + 1][..i] == washEvents[..i];
      assert washEvents[..i + 1][i] == washEvents[i];
      salaryData := ProcessEvent(salaryData, washEvents[i], schemeMap, employeeMap);
    }
    assert washEvents[..|washEvents|] == washEvents;
  }

  /** One wash: skipped when it names no employee, or none that is known; otherwise
      each known employee on it is credited. */
  method ProcessEvent(salaryData: Rows, event: WashEvent, schemeMap: map<string, SalaryScheme>,
                      employeeMap: map<string, Employee>) returns (rows: Rows)
    requires forall k :: k in employeeMap ==> employeeMap[k].id == k && k in salaryData
    ensures rows == ApplyEvent(salaryData, event, LastById(employeeMap), schemeMap, ShareOf)
    ensures rows.Keys == salaryData.Keys
  {
    if |event.employeeIds.Seq()| == 0 {
      return salaryData;
    }
    var employeesOnWash := EmployeesOnWash(event.employeeIds.Seq(), employeeMap);
    if |employeesOnWash| == 0 {
      return salaryData;
    }
    CreditAllKeys(salaryData, employeesOnWash, event, |employeesOnWash|, schemeMap, ShareOf);
    rows := CreditEmployees(salaryData, employeesOnWash, event, schemeMap, employeeMap);
  }

  /** The loop that turns the row map into a slice, in whatever order the keys come. */
  method RowValues(rows: Rows) returns (result: seq<SalaryReportData>)
    requires Consistent(rows)
    ensures |result| == |rows|
    ensures forall j :: 0 <= j < |result| ==> result[j].employeeId in rows && rows[result[j].employeeId] == result[j]
    ensures forall k :: k in rows ==> rows[k] in result
  {
    result := [];
    var keys := rows.Keys;
    while keys != {}
      invariant keys <= rows.Keys
      invariant |result| + |keys| == |rows.Keys|
      invariant forall j :: 0 <= j < |result| ==> result[j].employeeId in rows && rows[result[j].employeeId] == result[j]
      invariant forall k :: k in rows && k !in keys ==> rows[k] in result
      decreases |keys|
    {
      var k :| k in keys;
      result := result + [rows[k]];
      keys := keys - {k};
    }
  }

  /** The loop that looks up the employees named on a wash. */
  method EmployeesOnWash(ids: seq<string>, employeeMap: map<string, Employee>) returns (onWash: seq<Employee>)
    requires forall k :: k in employeeMap ==> employeeMap[k].id == k
    ensures onWash == ResolveIds(LastById(employeeMap), ids)
    ensures forall j :: 0 <= j < |onWash| ==> onWash[j].id in employeeMap && employeeMap[onWash[j].id] == onWash[j]
  {
    onWash := [];
    var j := 0;
    while j < |ids|
      invariant 0 <= j <= |ids|
      invariant onWash == ResolveIds(LastById(employeeMap), ids[..j])
      invariant forall i :: 0 <= i < |onWash| ==> onWash[i].id in employeeMap && employeeMap[onWash[i].id] == onWash[i]
    {
      assert ids[..j + 1][..j] == ids[..j];
      if ids[j] in employeeMap {
        onWash := onWash + [employeeMap[ids[j]]];
      }
      j := j + 1;
    }
    assert ids[..j] == ids;
  }

  /** The loop that credits each employee on a wash with a share. */
  method CreditEmployees(salaryData: Rows, employeesOnWash: seq<Employee>, event: WashEvent,
                         schemeMap: map<string, SalaryScheme>, employeeMap: map<string, Employee>)
    returns (rows: Rows)
    requires forall k :: k in employeeMap ==> employeeMap[k].id == k && k in salaryData
    requires forall j :: 0 <= j < |employeesOnWash| ==> employeesOnWash[j].id in employeeMap
    ensures rows == CreditAll(salaryData, employeesOnWash, event, |employeesOnWash|, schemeMap, ShareOf)
  {
    rows := salaryData;
    var n := |employeesOnWash|;
    var j := 0;
    while j < n
      invariant 0 <= j <= n
      invariant rows == CreditAll(salaryData, employeesOnWash[..j], event, n, schemeMap, ShareOf)
      invariant rows.Keys == salaryData.Keys
    {
      assert employeesOnWash[..j + 1][..j] == employeesOnWash[..j];
      var emp := employeesOnWash[j];
      if emp.salarySchemeId != "" && emp.salarySchemeId in schemeMap {
        var scheme := schemeMap[emp.salarySchemeId];
        var earnings, unpaidServices := CalculateIndividualShare(scheme, event, n);
        if earnings > 0.0 || |unpaidServices| > 0 {
          rows := rows[emp.id := AddItem(rows[emp.id], event, Share(earnings, unpaidServices))];
        }
      }
      j := j + 1;
    }
    assert employeesOnWash[..j] == employeesOnWash;
  }

  /** A wash with only a main service. */
  function SimpleWash(paymentMethod: string, services: WashServices, total: real, net: Option<real>, ids: seq<string>): WashEvent {
    WashEvent("we_1", "2024-05-01T10:00:00Z", "A001AA", Items(ids), paymentMethod, None, "", "", total, net, 0.0, services)
  }

  function Service(name: string): PriceListItem {
    PriceListItem(name, 0.0, false, 0.0, Nil, "")
  }

  /** Worked example: total 1000 with a net amount of 0, deduction 100, 50 %, two
      employees: the base is the total, and each earns 225. */
  lemma PercentageExample()
    ensures ShareOf(SalaryScheme("s", "half", "percentage", 50.0, 100.0, None, Nil),
                    SimpleWash(Cash, WashServices(Service("Wash"), Nil), 1000.0, Some(0.0), ["a", "b"]), 2)
            == Share(225.0, [])
  {
    assert TruncateCents(225.0) == 225.0;
  }

  /** Worked example: rate 100 less 20 for "Wash", no rate for "Wax", one employee:
      80 earned and "Wax" reported unpaid. */
  lemma RateExample()
    ensures ShareOf(SalaryScheme("s", "rates", "rate", 0.0, 0.0, None, Items([SalaryRate("Wash", 100.0, 20.0)])),
                    SimpleWash(Cash, WashServices(Service("Wash"), Items([Service("Wax")])), 0.0, None, ["a"]), 1)
            == Share(80.0, ["Wax"])
  {
    var rates := [SalaryRate("Wash", 100.0, 20.0)];
    var rm := RateMap(rates);
    assert rates[..0] == [];
    assert rm == map["Wash" := rates[0]];
    var services := [Service("Wash"), Service("Wax")];
    assert services[..1][..0] == [];
    assert RateTotal(services[..1], rm) == 80.0;
    assert RateTotal(services, rm) == 80.0;
    assert Unpaid(services[..1], rm) == [];
    assert Unpaid(services, rm) == ["Wax"];
    assert TruncateCents(80.0) == 80.0;
  }

  /** A rate scheme tied to aggregator agg_1 pays nothing for a cash wash, and reports
      no unpaid services either. */
  lemma FilterExample()
    ensures ShareOf(SalaryScheme("s", "agg", "rate", 0.0, 0.0, Some(RateSource("aggregator", "agg_1", "")),
                                 Items([SalaryRate("Wash", 100.0, 0.0)])),
                    SimpleWash(Cash, WashServices(Service("Wash"), Nil), 500.0, None, ["a"]), 1)
            == Share(0.0, [])
  {
  }
}
