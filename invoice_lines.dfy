/** The invoice generator: which clients can be invoiced, which washes an invoice
    covers, the invoice lines aggregated from their services, and the editing of those
    lines before printing; the invoice's total is the sum of the line totals. Dates are
    the instants the events' timestamps parse to, given as a function. */
module InvoiceLines {
  import opened Wrappers
  import opened Models
  import opened Text
  import opened Totals
  import opened Grouping

  datatype ClientKind = CounterAgentKind | AggregatorKind

  /** The payment method of the washes a client of that kind is invoiced for. */
  function PaymentMethodFor(kind: ClientKind): string {
    match kind
    case CounterAgentKind => "counterAgentContract"
    case AggregatorKind => "aggregator"
  }

  /** A wash paid under the client's contract. */
  predicate Billable(e: WashEvent, clientId: string, paymentMethod: string) {
    e.sourceId == Some(clientId) && e.paymentMethod == paymentMethod
  }

  predicate HasBillableWash(events: seq<WashEvent>, clientId: string, paymentMethod: string) {
    exists i :: 0 <= i < |events| && Billable(events[i], clientId, paymentMethod)
  }

  function AgentHasWashes(events: seq<WashEvent>): CounterAgent -> bool {
    (a: CounterAgent) => HasBillableWash(events, a.id, PaymentMethodFor(CounterAgentKind))
  }

  function AggregatorHasWashes(events: seq<WashEvent>): Aggregator -> bool {
    (a: Aggregator) => HasBillableWash(events, a.id, PaymentMethodFor(AggregatorKind))
  }

  /** clientOptions for counter-agents. */
  function AgentOptions(agents: seq<CounterAgent>, events: seq<WashEvent>): seq<CounterAgent> {
    Filter(agents, AgentHasWashes(events))
  }

  /** clientOptions for aggregators. */
  function AggregatorOptions(aggregators: seq<Aggregator>, events: seq<WashEvent>): seq<Aggregator> {
    Filter(aggregators, AggregatorHasWashes(events))
  }

  /** The counter-agents offered are exactly those with a wash under contract. */
  lemma AgentOptionsSpec(agents: seq<CounterAgent>, events: seq<WashEvent>, a: CounterAgent)
    ensures a in AgentOptions(agents, events)
      <==> a in agents && HasBillableWash(events, a.id, "counterAgentContract")
  {
    if a in AgentOptions(agents, events) {
      FilterKeeps(agents, AgentHasWashes(events), a);
    }
    if a in agents && HasBillableWash(events, a.id, "counterAgentContract") {
      FilterFinds(agents, AgentHasWashes(events), a);
    }
  }

  /** The aggregators offered are exactly those with a wash paid through them. */
  lemma AggregatorOptionsSpec(aggregators: seq<Aggregator>, events: seq<WashEvent>, a: Aggregator)
    ensures a in AggregatorOptions(aggregators, events)
      <==> a in aggregators && HasBillableWash(events, a.id, "aggregator")
  {
    if a in AggregatorOptions(aggregators, events) {
      FilterKeeps(aggregators, AggregatorHasWashes(events), a);
    }
    if a in aggregators && HasBillableWash(events, a.id, "aggregator") {
      FilterFinds(aggregators, AggregatorHasWashes(events), a);
    }
  }

  /** A wash the invoice covers: the client's, under its payment method, within the
      period, both ends included. */
  function InPeriod(clientId: string, paymentMethod: string, start: int, end: int, time: string -> int): WashEvent -> bool {
    (e: WashEvent) => Billable(e, clientId, paymentMethod) && start <= time(e.timestamp) <= end
  }

  /** No client or no start date selects nothing; otherwise the period ends at the
      chosen end, or at the start when no end is chosen. */
  function SelectedEvents(events: seq<WashEvent>, clientId: Option<string>, kind: ClientKind,
                          from: Option<int>, to: Option<int>, time: string -> int): seq<WashEvent>
  {
    if clientId.None? || clientId.value == "" || from.None? then []
    else Filter(events, InPeriod(clientId.value, PaymentMethodFor(kind), from.value, to.GetOr(from.value), time))
  }

  lemma SelectedEventsSpec(events: seq<WashEvent>, clientId: Option<string>, kind: ClientKind,
                           from: Option<int>, to: Option<int>, time: string -> int, e: WashEvent)
    ensures clientId.None? || clientId == Some("") || from.None? ==> SelectedEvents(events, clientId, kind, from, to, time) == []
    ensures clientId.Some? && clientId.value != "" && from.Some? ==>
      (e in SelectedEvents(events, clientId, kind, from, to, time)
       <==> e in events && Billable(e, clientId.value, PaymentMethodFor(kind))
            && from.value <= time(e.timestamp) <= to.GetOr(from.value))
  {
    if clientId.Some? && clientId.value != "" && from.Some? {
      var p := InPeriod(clientId.value, PaymentMethodFor(kind), from.value, to.GetOr(from.value), time);
      if e in Filter(events, p) {
        FilterKeeps(events, p, e);
      }
      if e in events && p(e) {
        FilterFinds(events, p, e);
      }
    }
  }

  // ---------------------------------------------------------------- aggregation

  /** A wash's services: the main one, then the additional ones. */
  function ServicesOf(e: WashEvent): seq<PriceListItem> {
    [e.services.main] + e.services.additional.Seq()
  }

  /** Every service of every wash, wash by wash. */
  function Flatten(events: seq<WashEvent>): seq<PriceListItem> {
    if events == [] then [] else Flatten(events[..|events| - 1]) + ServicesOf(events[|events| - 1])
  }

  function Named(): PriceListItem -> bool {
    (s: PriceListItem) => s.serviceName != ""
  }

  function Name(s: PriceListItem): string { s.serviceName }
  function Price(s: PriceListItem): real { s.price }

  /** The services an invoice bills: those with a name. */
  function BilledServices(events: seq<WashEvent>): seq<PriceListItem> {
    Filter(Flatten(events), Named())
  }

  /** What the service map holds for one name. */
  datatype Tally = Tally(count: nat, price: real, total: real, chemicalConsumption: real)

  /** The tally of a name's services: how many, the first one's price and
      consumption, and the sum of their prices. */
  function TallyOf(ms: seq<PriceListItem>): Tally {
    if ms == [] then Tally(0, 0.0, 0.0, 0.0)
    else Tally(|ms|, ms[0].price, Total(ms, Price), ms[0].chemicalConsumption)
  }

  /** The service map holds, in its insertion order, the tally of every name met in
      the items. */
  ghost predicate Tallied(items: seq<PriceListItem>, order: seq<string>, tallies: map<string, Tally>) {
    && order == Keys(items, Name)
    && (forall k :: k in tallies <==> k in order)
    && (forall k :: k in tallies ==> tallies[k] == TallyOf(Members(items, Name, k)))
  }

  /** A name met once more: its count raised by one and the service's price added to
      its total. */
  function Bump(t: Tally, x: PriceListItem): Tally {
    t.(count := t.count + 1, total := t.total + x.price)
  }

  /** A name met for the first time. */
  function FirstTally(x: PriceListItem): Tally {
    Tally(1, x.price, x.price, x.chemicalConsumption)
  }

  /** The tally of a name's services, one service more. */
  lemma TallyOfStep(ms: seq<PriceListItem>, x: PriceListItem)
    ensures ms == [] ==> TallyOf(ms + [x]) == FirstTally(x)
    ensures ms != [] ==> TallyOf(ms + [x]) == Bump(TallyOf(ms), x)
  {
    var ms' := ms + [x];
    assert Total([x], Price) == x.price by {
      assert [x][..0] == [];
    }
    if ms == [] {
      assert ms' == [x];
    } else {
      TotalAppend(ms, [x], Price);
      assert ms'[0] == ms[0];
      assert |ms'| == |ms| + 1;
      assert TallyOf(ms') == Tally(|ms| + 1, ms[0].price, Total(ms, Price) + x.price, ms[0].chemicalConsumption);
    }
  }

  /** A name met before: its tally bumped, the others and the order kept. */
  lemma TallyKnown(items: seq<PriceListItem>, order: seq<string>, tallies: map<string, Tally>, x: PriceListItem)
    requires Tallied(items, order, tallies) && x.serviceName in tallies
    ensures Tallied(items + [x], order, tallies[x.serviceName := Bump(tallies[x.serviceName], x)])
  {
    var k := x.serviceName;
    var t' := tallies[k := Bump(tallies[k], x)];
    KeysStep(items, x, Name);
    forall j | j in t'
      ensures t'[j] == TallyOf(Members(items + [x], Name, j))
    {
      MembersStep(items, x, Name, j);
      if j == k {
        MembersOfListed(items, Name, k);
        TallyOfStep(Members(items, Name, k), x);
      } else {
        assert Members(items + [x], Name, j) == Members(items, Name, j) + [];
        assert Members(items, Name, j) + [] == Members(items, Name, j);
      }
    }
  }

  /** A name met for the first time: added at the end of the order with its first
      tally, the others kept. */
  lemma TallyNew(items: seq<PriceListItem>, order: seq<string>, tallies: map<string, Tally>, x: PriceListItem)
    requires Tallied(items, order, tallies) && x.serviceName !in tallies
    ensures Tallied(items + [x], order + [x.serviceName], tallies[x.serviceName := FirstTally(x)])
  {
    var k := x.serviceName;
    var t' := tallies[k := FirstTally(x)];
    KeysStep(items, x, Name);
    forall j | j in t'
      ensures t'[j] == TallyOf(Members(items + [x], Name, j))
    {
      MembersStep(items, x, Name, j);
      if j == k {
        MembersOfAbsent(items, Name, k);
        TallyOfStep(Members(items, Name, k), x);
      } else {
        assert Members(items + [x], Name, j) == Members(items, Name, j) + [];
        assert Members(items, Name, j) + [] == Members(items, Name, j);
      }
    }
  }

  /** One service more, named or not: the map as the forEach's body leaves it. */
  lemma TallyStep(seen: seq<PriceListItem>, order: seq<string>, tallies: map<string, Tally>, x: PriceListItem)
    requires Tallied(Filter(seen, Named()), order, tallies)
    ensures x.serviceName == "" ==> Tallied(Filter(seen + [x], Named()), order, tallies)
    ensures x.serviceName != "" && x.serviceName in tallies ==>
      Tallied(Filter(seen + [x], Named()), order, tallies[x.serviceName := Bump(tallies[x.serviceName], x)])
    ensures x.serviceName != "" && x.serviceName !in tallies ==>
      Tallied(Filter(seen + [x], Named()), order + [x.serviceName], tallies[x.serviceName := FirstTally(x)])
  {
    FilterStep(seen, x, Named());
    if x.serviceName == "" {
      assert Filter(seen + [x], Named()) == Filter(seen, Named()) + [];
      assert Filter(seen, Named()) + [] == Filter(seen, Named());
    } else if x.serviceName in tallies {
      TallyKnown(Filter(seen, Named()), order, tallies, x);
    } else {
      TallyNew(Filter(seen, Named()), order, tallies, x);
    }
  }

  /** Flattening one wash more. */
  lemma FlattenStep(events: seq<WashEvent>, i: nat)
    requires i < |events|
    ensures Flatten(events[..i + 1]) == Flatten(events[..i]) + ServicesOf(events[i])
  {
    assert events[..i + 1][..i] == events[..i];
  }

  /** The inner forEach's body for one service: a named service raises its name's
      count and total, and a name met for the first time is added with that
      service's price and consumption; a service without a name is skipped. */
  method CountService(service: PriceListItem, order: seq<string>, tallies: map<string, Tally>, ghost seen: seq<PriceListItem>)
    returns (order': seq<string>, tallies': map<string, Tally>)
    requires Tallied(Filter(seen, Named()), order, tallies)
    ensures Tallied(Filter(seen + [service], Named()), order', tallies')
  {
    TallyStep(seen, order, tallies, service);
    order', tallies' := order, tallies;
    if service.serviceName != "" {
      if service.serviceName in tallies {
        var existing := tallies[service.serviceName];
        tallies' := tallies[service.serviceName := existing.(count := existing.count + 1, total := existing.total + service.price)];
      } else {
        tallies' := tallies[service.serviceName := Tally(1, service.price, service.price, service.chemicalConsumption)];
        order' := order + [service.serviceName];
      }
    }
  }

  /** The forEach over the selected washes and their services that fills the service
      map. */
  method Aggregate(events: seq<WashEvent>) returns (order: seq<string>, tallies: map<string, Tally>)
    ensures Tallied(BilledServices(events), order, tallies)
  {
    order, tallies := [], map[];
    ghost var seen: seq<PriceListItem> := [];
    for i := 0 to |events|
      invariant seen == Flatten(events[..i])
      invariant Tallied(Filter(seen, Named()), order, tallies)
    {
      var services := [events[i].services.main] + events[i].services.additional.Seq();
      for j := 0 to |services|
        invariant seen == Flatten(events[..i]) + services[..j]
        invariant Tallied(Filter(seen, Named()), order, tallies)
      {
        order, tallies := CountService(services[j], order, tallies, seen);
        Extend(Flatten(events[..i]), services, j);
        seen := seen + [services[j]];
      }
      assert services[..|services|] == services;
      FlattenStep(events, i);
    }
    assert events[..|events|] == events;
  }

  /** A prefix of b, one element longer, after a. */
  lemma Extend<T>(a: seq<T>, b: seq<T>, j: nat)
    requires j < |b|
    ensures a + b[..j] + [b[j]] == a + b[..j + 1]
  {
    assert b[..j + 1] == b[..j] + [b[j]];
  }

  /** An invoice line as the editor holds it. */
  datatype EditableService = EditableService(
    id: string,
    serviceName: string,
    price: real,
    count: real,
    total: real,
    chemicalConsumption: real)

  function LineTotal(s: EditableService): real { s.total }
  function LineCount(s: EditableService): real { s.count }

  /** The line for the name at that position of the map; now is the clock's reading in
      milliseconds, which the line's id carries. */
  function LineFor(index: nat, name: string, t: Tally, now: nat): EditableService {
    EditableService("service-" + Decimal(index) + "-" + Decimal(now), name, t.price, t.count as real, t.total, t.chemicalConsumption)
  }

  /** Array.from(serviceMap.entries()).map(...): one line per name, in the map's
      order. */
  function Lines(order: seq<string>, tallies: map<string, Tally>, now: nat): (r: seq<EditableService>)
    requires forall k :: k in order ==> k in tallies
    ensures |r| == |order|
  {
    if order == [] then []
    else
      var n := |order| - 1;
      Lines(order[..n], tallies, now) + [LineFor(n, order[n], tallies[order[n]], now)]
  }

  /** The lines the editor is given for a set of services: the tallies in the order
      the names were met. */
  function Aggregated(items: seq<PriceListItem>, now: nat): seq<EditableService> {
    var ks := Keys(items, Name);
    LinesOf(items, ks, now)
  }

  function LinesOf(items: seq<PriceListItem>, ks: seq<string>, now: nat): (r: seq<EditableService>)
    ensures |r| == |ks|
  {
    if ks == [] then []
    else
      var n := |ks| - 1;
      LinesOf(items, ks[..n], now) + [LineFor(n, ks[n], TallyOf(Members(items, Name, ks[n])), now)]
  }

  /** The lines built from a filled service map are the aggregated lines. */
  lemma {:induction false} LinesFromTallies(items: seq<PriceListItem>, ks: seq<string>, tallies: map<string, Tally>, now: nat)
    requires forall k :: k in ks ==> k in tallies && tallies[k] == TallyOf(Members(items, Name, k))
    ensures Lines(ks, tallies, now) == LinesOf(items, ks, now)
  {
    if ks != [] {
      LinesFromTallies(items, ks[..|ks| - 1], tallies, now);
    }
  }

  /** The k-th line of the aggregation: its name is the k-th name met, and its count,
      price and total are that name's number of services, its first service's price
      and the sum of its services' prices. */
  lemma {:induction false} LinesOfAt(items: seq<PriceListItem>, ks: seq<string>, now: nat, k: nat)
    requires k < |ks|
    ensures var line := LinesOf(items, ks, now)[k];
      var ms := Members(items, Name, ks[k]);
      && line.serviceName == ks[k]
      && line.count == |ms| as real
      && line.total == Total(ms, Price)
      && (ms != [] ==> line.price == ms[0].price)
  {
    var n := |ks| - 1;
    if k < n {
      LinesOfAt(items, ks[..n], now, k);
    }
  }

  /** One line per billed name, met in order, none of them twice; each name has at
      least one service, and the line carries how many it has and the sum of their
      prices. */
  lemma AggregatedSpec(items: seq<PriceListItem>, now: nat, k: nat)
    requires k < |Aggregated(items, now)|
    ensures Distinct(Keys(items, Name))
    ensures var line := Aggregated(items, now)[k];
      var ms := Members(items, Name, line.serviceName);
      && ms != []
      && line.serviceName == Keys(items, Name)[k]
      && line.count == |ms| as real
      && line.price == ms[0].price
      && line.total == Total(ms, Price)
  {
    var ks := Keys(items, Name);
    KeysDistinct(items, Name);
    LinesOfAt(items, ks, now, k);
    MembersOfListed(items, Name, ks[k]);
  }

  /** Every service name billed has a line, and every line's name is billed. */
  lemma AggregatedNames(items: seq<PriceListItem>, now: nat, name: string)
    ensures (exists k :: 0 <= k < |Aggregated(items, now)| && Aggregated(items, now)[k].serviceName == name)
      <==> exists i :: 0 <= i < |items| && items[i].serviceName == name
  {
    var ks := Keys(items, Name);
    KeysCover(items, Name, name);
    forall k | 0 <= k < |ks|
      ensures Aggregated(items, now)[k].serviceName == ks[k]
    {
      LinesOfAt(items, ks, now, k);
    }
    if name in ks {
      var k :| 0 <= k < |ks| && ks[k] == name;
      assert Aggregated(items, now)[k].serviceName == name;
    }
  }

  /** totalSum: the sum of the line totals. */
  function TotalSum(services: seq<EditableService>): real {
    Total(services, LineTotal)
  }

  lemma {:induction false} LinesOfTotals(items: seq<PriceListItem>, ks: seq<string>, now: nat)
    ensures TotalSum(LinesOf(items, ks, now)) == GroupTotal(items, Name, ks, Price)
  {
    if ks != [] {
      var n := |ks| - 1;
      LinesOfTotals(items, ks[..n], now);
      var line := LineFor(n, ks[n], TallyOf(Members(items, Name, ks[n])), now);
      TotalAppend(LinesOf(items, ks[..n], now), [line], LineTotal);
      assert Total([line], LineTotal) == line.total by {
        assert [line][..0] == [];
      }
    }
  }

  function One(s: PriceListItem): real { 1.0 }

  lemma {:induction false} LinesOfCounts(items: seq<PriceListItem>, ks: seq<string>, now: nat)
    ensures Total(LinesOf(items, ks, now), LineCount) == GroupTotal(items, Name, ks, One)
  {
    if ks != [] {
      var n := |ks| - 1;
      var ms := Members(items, Name, ks[n]);
      LinesOfCounts(items, ks[..n], now);
      var line := LineFor(n, ks[n], TallyOf(ms), now);
      TotalAppend(LinesOf(items, ks[..n], now), [line], LineCount);
      assert Total([line], LineCount) == line.count by {
        assert [line][..0] == [];
      }
      TotalOnes(ms, One);
    }
  }

  /** Before any edit the invoice's total is the sum of the prices of the services it
      bills, and its line counts add up to the number of those services. */
  lemma AggregatedTotal(items: seq<PriceListItem>, now: nat)
    ensures TotalSum(Aggregated(items, now)) == Total(items, Price)
    ensures Total(Aggregated(items, now), LineCount) == |items| as real
  {
    LinesOfTotals(items, Keys(items, Name), now);
    GroupsPartition(items, Name, Price);
    LinesOfCounts(items, Keys(items, Name), now);
    GroupsPartition(items, Name, One);
    TotalOnes(items, One);
  }

  // ---------------------------------------------------------------- line editing

  datatype Field = ServiceNameField | PriceField | CountField | TotalField | ChemicalConsumptionField

  /** handleServiceChange on one line: the name takes the text as it is; a numeric
      field takes the number unless it is not one (numeric is None for NaN), and a
      new count or price recomputes the total. */
  function Changed(s: EditableService, field: Field, text: string, numeric: Option<real>): (r: EditableService)
    ensures field == ServiceNameField ==> r == s.(serviceName := text)
    ensures field != ServiceNameField && numeric.None? ==> r == s
    ensures field == TotalField && numeric.Some? ==> r == s.(total := numeric.value)
    ensures (field == CountField || field == PriceField) && numeric.Some? ==>
      && r.total == r.count * r.price
      && r.(total := s.total) == (if field == CountField then s.(count := numeric.value) else s.(price := numeric.value))
    ensures field == ChemicalConsumptionField && numeric.Some? ==> r == s.(chemicalConsumption := numeric.value)
  {
    match field
    case ServiceNameField => s.(serviceName := text)
    case _ =>
      if numeric.None? then s
      else
        var v := numeric.value;
        match field
        case PriceField => s.(price := v, total := s.count * v)
        case CountField => s.(count := v, total := v * s.price)
        case TotalField => s.(total := v)
        case ChemicalConsumptionField => s.(chemicalConsumption := v)
        case ServiceNameField => s
  }

  /** The row addServiceRow appends. */
  function NewRow(now: nat): EditableService {
    EditableService("new-" + Decimal(now), "Новая услуга", 0.0, 1.0, 0.0, 0.0)
  }

  /** The lines without the one at index; any other index leaves them all. */
  function WithoutRow(services: seq<EditableService>, index: int): (r: seq<EditableService>)
    ensures 0 <= index < |services| ==>
      && |r| == |services| - 1
      && (forall i :: 0 <= i < index ==> r[i] == services[i])
      && (forall i :: index <= i < |r| ==> r[i] == services[i + 1])
    ensures !(0 <= index < |services|) ==> r == services
  {
    if 0 <= index < |services| then services[..index] + services[index + 1..] else services
  }

  /** The generator's state: the editable lines and the invoice date. */
  class InvoiceEditor {
    var services: seq<EditableService>
    var invoiceDate: int

    constructor (today: int)
      ensures services == [] && invoiceDate == today
    {
      services := [];
      invoiceDate := today;
    }

    /** The effect that rebuilds the lines: none without a client or a start date;
        otherwise the selected washes' services aggregated by name, and the invoice
        dated at the end of the period when one is chosen. */
    method Regenerate(events: seq<WashEvent>, clientId: Option<string>, kind: ClientKind,
                      from: Option<int>, to: Option<int>, time: string -> int, now: nat)
      modifies this
      ensures clientId.None? || clientId == Some("") || from.None? ==>
        services == [] && invoiceDate == old(invoiceDate)
      ensures clientId.Some? && clientId.value != "" && from.Some? ==>
        && services == Aggregated(BilledServices(SelectedEvents(events, clientId, kind, from, to, time)), now)
        && invoiceDate == (if to.Some? then to.value else old(invoiceDate))
    {
      if clientId.None? || clientId.value == "" || from.None? {
        services := [];
        return;
      }
      var paymentMethod := PaymentMethodFor(kind);
      var end := if to.Some? then to.value else from.value;
      var filteredEvents := Filter(events, InPeriod(clientId.value, paymentMethod, from.value, end, time));
      var order, serviceMap := Aggregate(filteredEvents);
      LinesFromTallies(BilledServices(filteredEvents), order, serviceMap, now);
      services := Lines(order, serviceMap, now);
      if to.Some? {
        invoiceDate := to.value;
      }
    }

    /** handleServiceChange: the line at index changed, the others kept. */
    method ChangeService(index: nat, field: Field, text: string, numeric: Option<real>)
      requires index < |services|
      modifies this
      ensures services == old(services)[index := Changed(old(services)[index], field, text, numeric)]
      ensures invoiceDate == old(invoiceDate)
    {
      var newServices := services;
      newServices := newServices[index := Changed(newServices[index], field, text, numeric)];
      services := newServices;
    }

    /** addServiceRow: a new line at the end. */
    method AddServiceRow(now: nat)
      modifies this
      ensures services == old(services) + [NewRow(now)]
      ensures invoiceDate == old(invoiceDate)
    {
      services := services + [NewRow(now)];
    }

    /** removeServiceRow: the line at index dropped. */
    method RemoveServiceRow(index: int)
      modifies this
      ensures services == WithoutRow(old(services), index)
      ensures invoiceDate == old(invoiceDate)
    {
      services := WithoutRow(services, index);
    }
  }

  /** A new row leaves the invoice's total as it was. */
  lemma AddRowKeepsTotal(services: seq<EditableService>, now: nat)
    ensures TotalSum(services + [NewRow(now)]) == TotalSum(services)
  {
    TotalAppend(services, [NewRow(now)], LineTotal);
    assert [NewRow(now)][..0] == [];
  }

  /** Removing a row takes its total off the invoice's. */
  lemma RemoveRowTotal(services: seq<EditableService>, index: nat)
    requires index < |services|
    ensures TotalSum(WithoutRow(services, index)) == TotalSum(services) - services[index].total
  {
    TotalWithout(services, index, LineTotal);
  }

  /** Changing one line moves the invoice's total by the change in that line's total. */
  lemma ChangeTotal(services: seq<EditableService>, index: nat, s: EditableService)
    requires index < |services|
    ensures TotalSum(services[index := s]) == TotalSum(services) - services[index].total + s.total
  {
    var t := services[index := s];
    TotalWithout(services, index, LineTotal);
    TotalWithout(t, index, LineTotal);
    assert t[..index] + t[index + 1..] == services[..index] + services[index + 1..];
  }
}
