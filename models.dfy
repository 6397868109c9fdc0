/** The record types of the vehicle-wash backend. Money and chemical amounts (grams)
    are exact reals; timestamps and dates are the strings the records carry. */
module Models {
  import opened Wrappers

  /** A list that may be nil (JSON null, or absent) or hold items. */
  datatype Slice<T> = Nil | Items(items: seq<T>) {
    /** The items, with nil read as no items. */
    function Seq(): seq<T> {
      if Nil? then [] else items
    }

    /** The handlers' normalisation: a nil list becomes an empty one before saving. */
    function OrEmpty(): (r: Slice<T>)
      ensures r.Items? && r.Seq() == Seq()
    {
      if Nil? then Items([]) else this
    }
  }

  /** Grams of chemical a named employee actually used on one service. */
  datatype EmployeeConsumption = EmployeeConsumption(employeeId: string, amount: real)

  /** A service on a price list or in a wash event. An absent chemical norm is 0. */
  datatype PriceListItem = PriceListItem(
    serviceName: string,
    price: real,
    isCustom: bool,
    chemicalConsumption: real,
    employeeConsumptions: Slice<EmployeeConsumption>,
    id: string)

  datatype CounterAgentCompany = CounterAgentCompany(companyName: string, ownerName: string)

  datatype Car = Car(id: string, licensePlate: string)

  datatype NamedPriceList = NamedPriceList(name: string, services: Slice<PriceListItem>)

  /** A contract client billed per wash. */
  datatype CounterAgent = CounterAgent(
    id: string,
    name: string,
    balance: real,
    companies: Slice<CounterAgentCompany>,
    cars: Slice<Car>,
    priceList: Slice<PriceListItem>,
    additionalPriceList: Slice<PriceListItem>,
    allowCustomServices: bool)

  /** A fleet or booking platform with one or more named price lists. */
  datatype Aggregator = Aggregator(
    id: string,
    name: string,
    balance: real,
    companies: Slice<CounterAgentCompany>,
    cars: Slice<Car>,
    priceLists: Slice<NamedPriceList>,
    activePriceListName: string)

  /** An absent username, password or salary scheme id is "". */
  datatype Employee = Employee(
    id: string,
    fullName: string,
    phone: string,
    paymentDetails: string,
    hasCar: bool,
    username: string,
    password: string,
    salarySchemeId: string)

  /** The employee as returned by the API: every field except the password. */
  datatype EmployeeWithoutPassword = EmployeeWithoutPassword(
    id: string,
    fullName: string,
    phone: string,
    paymentDetails: string,
    hasCar: bool,
    username: string,
    salarySchemeId: string)

  datatype SalaryRate = SalaryRate(serviceName: string, rate: real, deduction: real)

  /** The kind and identity of the client whose washes a rate scheme pays for. */
  datatype RateSource = RateSource(sourceType: string, id: string, priceListName: string)

  datatype SalaryScheme = SalaryScheme(
    id: string,
    name: string,
    schemeType: string,
    percentage: real,
    fixedDeduction: real,
    rateSource: Option<RateSource>,
    rates: Slice<SalaryRate>)

  datatype WashServices = WashServices(main: PriceListItem, additional: Slice<PriceListItem>)

  /** One wash. The source id and the net amount are optional on the wire; the Go
      backend reads an absent one as "" and 0. */
  datatype WashEvent = WashEvent(
    id: string,
    timestamp: string,
    vehicleNumber: string,
    employeeIds: Slice<string>,
    paymentMethod: string,
    sourceId: Option<string>,
    sourceName: string,
    priceListName: string,
    totalAmount: real,
    netAmount: Option<real>,
    acquiringFee: real,
    services: WashServices)

  datatype EmployeeTransaction = EmployeeTransaction(
    id: string,
    employeeId: string,
    date: string,
    txType: string,
    amount: real,
    description: string)

  datatype ClientTransaction = ClientTransaction(
    id: string,
    clientId: string,
    date: string,
    txType: string,
    amount: real,
    description: string)

  datatype Expense = Expense(
    id: string,
    date: string,
    category: string,
    description: string,
    amount: real,
    quantity: real,
    unit: string,
    pricePerUnit: real)

  /** The single chemical stock counter, in grams. */
  datatype Inventory = Inventory(chemicalStockGrams: real)

  datatype RetailPriceConfig = RetailPriceConfig(
    mainPriceList: Slice<PriceListItem>,
    additionalPriceList: Slice<PriceListItem>,
    allowCustomRetailServices: Option<bool>,
    cardAcquiringPercentage: Option<real>,
    dismissedCustomServices: Slice<string>)

  datatype SalaryBreakdownItem = SalaryBreakdownItem(
    washEventId: string,
    timestamp: string,
    vehicleNumber: string,
    earnings: real,
    unpaidServices: seq<string>)

  datatype SalaryReportData = SalaryReportData(
    employeeId: string,
    employeeName: string,
    totalEarnings: real,
    breakdown: seq<SalaryBreakdownItem>)

  /** The payment methods a wash event can carry. */
  const Cash := "cash"
  const Card := "card"
  const Transfer := "transfer"
  const AggregatorMethod := "aggregator"
  const CounterAgentContract := "counterAgentContract"

  /** The employee record with its password removed. */
  function WithoutPassword(e: Employee): (r: EmployeeWithoutPassword)
    ensures r.id == e.id && r.fullName == e.fullName && r.phone == e.phone
    ensures r.paymentDetails == e.paymentDetails && r.hasCar == e.hasCar
    ensures r.username == e.username && r.salarySchemeId == e.salarySchemeId
  {
    EmployeeWithoutPassword(e.id, e.fullName, e.phone, e.paymentDetails, e.hasCar,
                            e.username, e.salarySchemeId)
  }

  /** The services of a wash in the order the backend walks them: main, then additional. */
  function AllServices(e: WashEvent): (r: seq<PriceListItem>)
    ensures |r| == 1 + |e.services.additional.Seq()|
    ensures r[0] == e.services.main && r[1..] == e.services.additional.Seq()
  {
    [e.services.main] + e.services.additional.Seq()
  }

  /** The id of each stored record, as the lookups by id compare it. */
  function EmployeeId(e: Employee): string { e.id }
  function SchemeId(s: SalaryScheme): string { s.id }
  function CounterAgentId(c: CounterAgent): string { c.id }
  function AggregatorId(a: Aggregator): string { a.id }
  function WashEventId(e: WashEvent): string { e.id }
  function ExpenseId(e: Expense): string { e.id }
  function EmployeeTransactionId(t: EmployeeTransaction): string { t.id }
  function ClientTransactionId(t: ClientTransaction): string { t.id }
}
