/** The wash-event handlers: the chemical consumption of a wash, the stock deltas its
    create, update and delete apply to the single chemical counter, and the
    read-through listing. */
module WashEvents {
  import opened Wrappers
  import opened Models
  import opened Text
  import opened JsonStore
  import opened Caching
  import opened Handling

  // ---------------------------------------------------------------- consumption

  /** The grams individual employees reported for one service. */
  function SumAmounts(ecs: seq<EmployeeConsumption>): real {
    if ecs == [] then 0.0 else SumAmounts(ecs[..|ecs| - 1]) + ecs[|ecs| - 1].amount
  }

  /** One service's consumption: its norm when positive, plus every employee amount
      on top of it (the amounts are not filtered). */
  function ServiceConsumption(s: PriceListItem): real {
    (if s.chemicalConsumption > 0.0 then s.chemicalConsumption else 0.0)
    + SumAmounts(s.employeeConsumptions.Seq())
  }

  function SumServices(services: seq<PriceListItem>): real {
    if services == [] then 0.0
    else SumServices(services[..|services| - 1]) + ServiceConsumption(services[|services| - 1])
  }

  /** A wash's consumption: the main service, then each additional service. */
  function Consumption(e: WashEvent): real {
    ServiceConsumption(e.services.main) + SumServices(e.services.additional.Seq())
  }

  /** With no negative employee amounts, consumption is at least the sum of the
      positive norms, so it is never negative. */
  lemma {:induction false} SumAmountsNonNegative(ecs: seq<EmployeeConsumption>)
    requires forall i :: 0 <= i < |ecs| ==> ecs[i].amount >= 0.0
    ensures SumAmounts(ecs) >= 0.0
  {
    if ecs != [] { SumAmountsNonNegative(ecs[..|ecs| - 1]); }
  }

  predicate NoNegativeAmounts(s: PriceListItem) {
    forall i :: 0 <= i < |s.employeeConsumptions.Seq()| ==> s.employeeConsumptions.Seq()[i].amount >= 0.0
  }

  lemma {:induction false} SumServicesNonNegative(services: seq<PriceListItem>)
    requires forall k :: 0 <= k < |services| ==> NoNegativeAmounts(services[k])
    ensures SumServices(services) >= 0.0
  {
    if services != [] {
      SumServicesNonNegative(services[..|services| - 1]);
      SumAmountsNonNegative(services[|services| - 1].employeeConsumptions.Seq());
    }
  }

  lemma ConsumptionNonNegative(e: WashEvent)
    requires forall k :: 0 <= k < |AllServices(e)| ==> NoNegativeAmounts(AllServices(e)[k])
    ensures Consumption(e) >= 0.0
  {
    assert NoNegativeAmounts(AllServices(e)[0]);
    SumAmountsNonNegative(e.services.main.employeeConsumptions.Seq());
    forall k | 0 <= k < |e.services.additional.Seq()|
      ensures NoNegativeAmounts(e.services.additional.Seq()[k])
    {
      assert AllServices(e)[k + 1] == e.services.additional.Seq()[k];
    }
    SumServicesNonNegative(e.services.additional.Seq());
  }

  /** A norm of 50 g with two employees reporting 30 g and 20 g consumes 100 g: the
      reported amounts are added to the norm, not used instead of it. */
  lemma NormPlusEmployeeAmounts()
    ensures var main := PriceListItem("Wash", 500.0, false, 50.0,
                          Items([EmployeeConsumption("emp_1", 30.0), EmployeeConsumption("emp_2", 20.0)]), "s1");
      Consumption(WashEvent("we_1", "2024-05-01T10:00:00Z", "A001AA", Items([]), Cash, None, "", "", 500.0, None, 0.0,
                            WashServices(main, Items([])))) == 100.0
  {
    var ecs := [EmployeeConsumption("emp_1", 30.0), EmployeeConsumption("emp_2", 20.0)];
    assert ecs[..1] == [EmployeeConsumption("emp_1", 30.0)];
    assert SumAmounts(ecs[..1]) == 30.0;
  }

  /** calculateChemicalConsumption's loops. */
  method CalculateChemicalConsumption(event: WashEvent) returns (total: real)
    ensures total == Consumption(event)
  {
    total := 0.0;
    total := AddServiceConsumption(total, event.services.main);
    var additional := event.services.additional.Seq();
    for i := 0 to |additional|
      invariant total == ServiceConsumption(event.services.main) + SumServices(additional[..i])
    {
      assert additional[..i + 1][..i] == additional[..i];
      total := AddServiceConsumption(total, additional[i]);
    }
    assert additional[..|additional|] == additional;
  }

  /** One service's share of the loop: the norm if positive, then each employee amount. */
  method AddServiceConsumption(before: real, s: PriceListItem) returns (total: real)
    ensures total == before + ServiceConsumption(s)
  {
    total := before;
    if s.chemicalConsumption > 0.0 {
      total := total + s.chemicalConsumption;
    }
    var ecs := s.employeeConsumptions.Seq();
    for j := 0 to |ecs|
      invariant total == before + (if s.chemicalConsumption > 0.0 then s.chemicalConsumption else 0.0)
                         + SumAmounts(ecs[..j])
    {
      assert ecs[..j + 1][..j] == ecs[..j];
      total := total + ecs[j].amount;
    }
    assert ecs[..|ecs|] == ecs;
  }

  // ---------------------------------------------------------------- stock deltas

  /** Create: a positive consumption is taken from the stock, which stops at 0. */
  function StockAfterCreate(stock: real, consumption: real): real {
    if consumption > 0.0 then (if stock - consumption < 0.0 then 0.0 else stock - consumption)
    else stock
  }

  /** Update: the old consumption is given back and the new one taken, stopping at 0,
      but only when the two differ. */
  function StockAfterUpdate(stock: real, oldConsumption: real, newConsumption: real): real {
    if oldConsumption != newConsumption then
      (if stock + oldConsumption - newConsumption < 0.0 then 0.0 else stock + oldConsumption - newConsumption)
    else stock
  }

  /** Delete: a positive consumption is given back, with no bound. */
  function StockAfterDelete(stock: real, consumption: real): real {
    if consumption > 0.0 then stock + consumption else stock
  }

  /** Create and update never leave a negative stock, from any starting stock when
      they write, and from a non-negative one when they do not. */
  lemma CreateNonNegative(stock: real, consumption: real)
    requires stock >= 0.0 || consumption > 0.0
    ensures StockAfterCreate(stock, consumption) >= 0.0
  {
  }

  lemma UpdateNonNegative(stock: real, oldConsumption: real, newConsumption: real)
    requires stock >= 0.0 || oldConsumption != newConsumption
    ensures StockAfterUpdate(stock, oldConsumption, newConsumption) >= 0.0
  {
  }

  /** Creating then deleting a wash restores the stock when it covered the consumption. */
  lemma CreateThenDeleteRestores(stock: real, consumption: real)
    requires stock >= consumption || consumption <= 0.0
    ensures StockAfterDelete(StockAfterCreate(stock, consumption), consumption) == stock
  {
  }

  /** When the stock did not cover the consumption, the round trip ends at exactly the
      consumption: the shortfall clamped away at create is never given back. */
  lemma CreateThenDeleteLoses(stock: real, consumption: real)
    requires 0.0 <= stock < consumption
    ensures StockAfterDelete(StockAfterCreate(stock, consumption), consumption) == consumption
    ensures StockAfterDelete(StockAfterCreate(stock, consumption), consumption) > stock
  {
  }

  /** Updating a wash and updating it back restores the stock when no clamp is hit. */
  lemma UpdateThenRevertRestores(stock: real, a: real, b: real)
    requires stock + a - b >= 0.0 && stock >= 0.0
    ensures StockAfterUpdate(StockAfterUpdate(stock, a, b), b, a) == stock
  {
  }

  // ---------------------------------------------------------------- handlers

  /** The event as Create saves it: the id filled in when empty, nil employee and
      additional-service lists replaced by empty ones. */
  function Prepared(event: WashEvent, generated: string): (r: WashEvent)
    ensures r.id == IdOrGenerated(event.id, "we_", generated)
    ensures r.employeeIds.Items? && r.employeeIds.Seq() == event.employeeIds.Seq()
    ensures r.services.additional.Items? && r.services.additional.Seq() == event.services.additional.Seq()
    ensures r.services.main == event.services.main
    ensures r.(id := event.id, employeeIds := event.employeeIds, services := event.services) == event
    ensures Consumption(r) == Consumption(event)
  {
    event.(id := IdOrGenerated(event.id, "we_", generated),
           employeeIds := event.employeeIds.OrEmpty(),
           services := event.services.(additional := event.services.additional.OrEmpty()))
  }

  /** The event saved and, when that succeeded, the cached list dropped. */
  method SaveAndInvalidate(store: Store, cache: Cache, ev: WashEvent) returns (r: Outcome)
    requires store.Valid() && WashEventsCoherent(store, cache)
    modifies store`washEvents, cache`washEvents, cache`washEventsLoaded
    ensures store.Valid() && WashEventsCoherent(store, cache)
    ensures var w := Write(old(store.washEvents), FileName(ev.id), ev);
      if w.Ok? then r == Success && store.washEvents == w.value && cache.washEvents == [] && !cache.washEventsLoaded
      else r == Failure(w.error) && unchanged(store, cache)
  {
    r := store.SaveWashEvent(ev);
    if r.Success? {
      cache.InvalidateWashEvents();
    }
  }

  /** The event's file deleted and, when that succeeded, the cached list dropped. */
  method DeleteAndInvalidate(store: Store, cache: Cache, id: string) returns (r: Outcome)
    requires store.Valid() && WashEventsCoherent(store, cache)
    modifies store`washEvents, cache`washEvents, cache`washEventsLoaded
    ensures store.Valid() && WashEventsCoherent(store, cache)
    ensures var dl := DeleteById(old(store.washEvents), id, WashEventId);
      if dl.Ok? then r == Success && store.washEvents == dl.value && cache.washEvents == [] && !cache.washEventsLoaded
      else r == Failure(dl.error) && unchanged(store, cache)
  {
    r := store.DeleteWashEvent(id);
    if r.Success? {
      cache.InvalidateWashEvents();
    }
  }

  /** Create's inventory step: the consumption taken from the stock read now (a failed
      read counts as 0), stopping at 0, written back. */
  method TakeFromStock(store: Store, cache: Cache, consumption: real)
    requires consumption > 0.0 && InventoryCoherent(store, cache)
    modifies store`inventory, cache`inventory, cache`inventoryLoaded
    ensures InventoryCoherent(store, cache) && cache.inventory == None && !cache.inventoryLoaded
    ensures store.inventory == Counter(StockAfterCreate(StockOrZero(ReadInventory(old(store.inventory))), consumption))
  {
    var inv := store.GetInventory();
    var stock := StockOrZero(inv);
    stock := stock - consumption;
    if stock < 0.0 {
      stock := 0.0;
    }
    WriteCounter(store, cache, stock);
  }

  /** Update's inventory step: the old consumption given back and the new one taken,
      stopping at 0. */
  method Reconsume(store: Store, cache: Cache, oldConsumption: real, newConsumption: real)
    requires oldConsumption != newConsumption && InventoryCoherent(store, cache)
    modifies store`inventory, cache`inventory, cache`inventoryLoaded
    ensures InventoryCoherent(store, cache) && cache.inventory == None && !cache.inventoryLoaded
    ensures store.inventory
         == Counter(StockAfterUpdate(StockOrZero(ReadInventory(old(store.inventory))), oldConsumption, newConsumption))
  {
    var inv := store.GetInventory();
    var stock := StockOrZero(inv) + oldConsumption - newConsumption;
    if stock < 0.0 {
      stock := 0.0;
    }
    WriteCounter(store, cache, stock);
  }

  /** Delete's inventory step: the consumption given back, with no bound. */
  method GiveBack(store: Store, cache: Cache, consumption: real)
    requires consumption > 0.0 && InventoryCoherent(store, cache)
    modifies store`inventory, cache`inventory, cache`inventoryLoaded
    ensures InventoryCoherent(store, cache) && cache.inventory == None && !cache.inventoryLoaded
    ensures store.inventory == Counter(StockAfterDelete(StockOrZero(ReadInventory(old(store.inventory))), consumption))
  {
    var inv := store.GetInventory();
    var stock := StockOrZero(inv) + consumption;
    WriteCounter(store, cache, stock);
  }

  /** POST /api/wash-events. */
  method Create(store: Store, cache: Cache, event: WashEvent, generated: string) returns (r: Result<WashEvent>)
    requires store.Valid() && WashEventsCoherent(store, cache) && InventoryCoherent(store, cache)
    modifies store`washEvents, store`inventory
    modifies cache`washEvents, cache`washEventsLoaded, cache`inventory, cache`inventoryLoaded
    ensures store.Valid() && WashEventsCoherent(store, cache) && InventoryCoherent(store, cache)
    ensures var ev := Prepared(event, generated);
      var w := Write(old(store.washEvents), FileName(ev.id), ev);
      var c := Consumption(event);
      if w.Err? then
        r == Err(Internal) && unchanged(store, cache)
      else
        r == Ok(ev) && store.washEvents == w.value && cache.washEvents == [] && !cache.washEventsLoaded
        && store.inventory == (if c > 0.0 then Counter(StockAfterCreate(StockOrZero(ReadInventory(old(store.inventory))), c))
                               else old(store.inventory))
        && (if c > 0.0 then cache.inventory == None && !cache.inventoryLoaded
            else cache.inventory == old(cache.inventory) && cache.inventoryLoaded == old(cache.inventoryLoaded))
  {
    var ev := Prepared(event, generated);
    var totalConsumption := CalculateChemicalConsumption(ev);
    var saved := SaveAndInvalidate(store, cache, ev);
    if saved.Failure? {
      return Err(Internal);
    }
    if totalConsumption > 0.0 {
      TakeFromStock(store, cache, totalConsumption);
    }
    return Ok(ev);
  }

  /** PUT /api/wash-events/:id. */
  method Update(store: Store, cache: Cache, id: string, updates: WashEvent) returns (r: Result<WashEvent>)
    requires store.Valid() && WashEventsCoherent(store, cache) && InventoryCoherent(store, cache)
    modifies store`washEvents, store`inventory
    modifies cache`washEvents, cache`washEventsLoaded, cache`inventory, cache`inventoryLoaded
    ensures store.Valid() && WashEventsCoherent(store, cache) && InventoryCoherent(store, cache)
    ensures var existing := FindById(old(store.washEvents), id, WashEventId);
      var ev := updates.(id := id);
      var w := Write(old(store.washEvents), FileName(id), ev);
      if existing.Err? then
        r == Err(NotFound) && unchanged(store, cache)
      else if w.Err? then
        r == Err(Internal) && unchanged(store, cache)
      else
        var before := Consumption(existing.value);
        var after := Consumption(updates);
        r == Ok(ev) && store.washEvents == w.value && cache.washEvents == [] && !cache.washEventsLoaded
        && store.inventory == (if before != after
                               then Counter(StockAfterUpdate(StockOrZero(ReadInventory(old(store.inventory))), before, after))
                               else old(store.inventory))
        && (if before != after then cache.inventory == None && !cache.inventoryLoaded
            else cache.inventory == old(cache.inventory) && cache.inventoryLoaded == old(cache.inventoryLoaded))
  {
    var existing := store.GetWashEventByID(id);
    if existing.Err? {
      return Err(NotFound);
    }
    var oldConsumption := CalculateChemicalConsumption(existing.value);
    var newConsumption := CalculateChemicalConsumption(updates);
    var ev := updates.(id := id);
    var saved := SaveAndInvalidate(store, cache, ev);
    if saved.Failure? {
      return Err(Internal);
    }
    if oldConsumption != newConsumption {
      Reconsume(store, cache, oldConsumption, newConsumption);
    }
    return Ok(ev);
  }

  /** DELETE /api/wash-events/:id. */
  method Delete(store: Store, cache: Cache, id: string) returns (r: Outcome)
    requires store.Valid() && WashEventsCoherent(store, cache) && InventoryCoherent(store, cache)
    modifies store`washEvents, store`inventory
    modifies cache`washEvents, cache`washEventsLoaded, cache`inventory, cache`inventoryLoaded
    ensures store.Valid() && WashEventsCoherent(store, cache) && InventoryCoherent(store, cache)
    ensures var existing := FindById(old(store.washEvents), id, WashEventId);
      if existing.Err? then
        r == Failure(NotFound) && unchanged(store, cache)
      else
        var c := Consumption(existing.value);
        r == Success && store.washEvents == DeleteById(old(store.washEvents), id, WashEventId).value
        && cache.washEvents == [] && !cache.washEventsLoaded
        && store.inventory == (if c > 0.0 then Counter(StockAfterDelete(StockOrZero(ReadInventory(old(store.inventory))), c))
                               else old(store.inventory))
        && (if c > 0.0 then cache.inventory == None && !cache.inventoryLoaded
            else cache.inventory == old(cache.inventory) && cache.inventoryLoaded == old(cache.inventoryLoaded))
  {
    var existing := store.GetWashEventByID(id);
    if existing.Err? {
      return Failure(NotFound);
    }
    var consumption := CalculateChemicalConsumption(existing.value);
    var deleted := DeleteAndInvalidate(store, cache, id);
    if deleted.Failure? {
      return Failure(Internal);
    }
    if consumption > 0.0 {
      GiveBack(store, cache, consumption);
    }
    return Success;
  }

  /** GET /api/wash-events/:id: straight from the store, bypassing the cache. */
  method GetByID(store: Store, id: string) returns (r: Result<WashEvent>)
    ensures FindById(store.washEvents, id, WashEventId).Ok? ==> r == FindById(store.washEvents, id, WashEventId)
    ensures FindById(store.washEvents, id, WashEventId).Err? ==> r == Err(NotFound)
  {
    r := store.GetWashEventByID(id);
    if r.Err? {
      r := Err(NotFound);
    }
  }

  /** getWashEvents: the cached snapshot when loaded, else a fresh listing, which is
      then cached. */
  method GetWashEvents(store: Store, cache: Cache) returns (r: Result<seq<WashEvent>>)
    requires WashEventsCoherent(store, cache)
    modifies cache`washEvents, cache`washEventsLoaded
    ensures WashEventsCoherent(store, cache)
    ensures old(cache.washEventsLoaded) ==> r == Ok(old(cache.washEvents)) && unchanged(cache)
    ensures r.Ok? ==> SortedListing(ListAll(store.washEvents, "we_"), r.value, Timestamp)
    ensures r.Ok? ==> cache.washEventsLoaded && cache.washEvents == r.value
    ensures r.Err? ==> r == ListAll(store.washEvents, "we_") && unchanged(cache)
  {
    var cached, ok := cache.GetWashEvents();
    if ok {
      return Ok(cached);
    }
    r := store.GetAllWashEvents();
    if r.Err? {
      return;
    }
    cache.SetWashEvents(r.value);
  }
}
