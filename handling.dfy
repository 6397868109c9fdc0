/** What every request handler shares: the cache discipline (a loaded snapshot is
    what the store would return now), the failed-inventory-read default and the
    id a create generates when none is given. */
module Handling {
  import opened Wrappers
  import opened Models
  import opened Text
  import opened Sorting
  import opened JsonStore
  import opened Caching

  /** A snapshot is a listing the sorted getter could have returned: the listing
      succeeded, and the snapshot is that listing reordered, newest first. */
  ghost predicate SortedListing<T>(listing: Result<seq<T>>, snapshot: seq<T>, key: T -> string) {
    listing.Ok? && multiset(snapshot) == multiset(listing.value) && SortedDescByText(snapshot, key)
  }

  /** A loaded snapshot is the store's listing. */
  ghost predicate ListingAgrees<T>(d: Dir<T>, prefix: string, loaded: bool, snapshot: seq<T>) {
    loaded ==> ListAll(d, prefix) == Ok(snapshot)
  }

  /** A loaded snapshot is the store's listing, reordered newest first. */
  ghost predicate SortedListingAgrees<T>(d: Dir<T>, prefix: string, loaded: bool, snapshot: seq<T>, key: T -> string) {
    loaded ==> SortedListing(ListAll(d, prefix), snapshot, key)
  }

  /** A loaded singleton is what reading its file gives. */
  ghost predicate SlotAgrees<T>(read: Result<T>, loaded: bool, value: Option<T>) {
    loaded ==> value.Some? && read == Ok(value.value)
  }

  /** Every cached ledger is what reading its file gives. */
  ghost predicate LedgersAgree<T>(files: map<string, Slot<seq<T>>>, cached: map<string, seq<T>>) {
    forall id :: id in cached ==> ReadLedger(files, id) == Ok(cached[id])
  }

  ghost predicate EmployeesCoherent(store: Store, cache: Cache)
    reads store`employees, cache`employeesLoaded, cache`employees
  {
    ListingAgrees(store.employees, "emp_", cache.employeesLoaded, cache.employees)
  }

  ghost predicate CounterAgentsCoherent(store: Store, cache: Cache)
    reads store`counterAgents, cache`counterAgentsLoaded, cache`counterAgents
  {
    ListingAgrees(store.counterAgents, "agent_", cache.counterAgentsLoaded, cache.counterAgents)
  }

  ghost predicate AggregatorsCoherent(store: Store, cache: Cache)
    reads store`aggregators, cache`aggregatorsLoaded, cache`aggregators
  {
    ListingAgrees(store.aggregators, "agg_", cache.aggregatorsLoaded, cache.aggregators)
  }

  ghost predicate SalarySchemesCoherent(store: Store, cache: Cache)
    reads store`salarySchemes, cache`salarySchemesLoaded, cache`salarySchemes
  {
    ListingAgrees(store.salarySchemes, "scheme_", cache.salarySchemesLoaded, cache.salarySchemes)
  }

  ghost predicate WashEventsCoherent(store: Store, cache: Cache)
    reads store`washEvents, cache`washEventsLoaded, cache`washEvents
  {
    SortedListingAgrees(store.washEvents, "we_", cache.washEventsLoaded, cache.washEvents, Timestamp)
  }

  ghost predicate ExpensesCoherent(store: Store, cache: Cache)
    reads store`expenses, cache`expensesLoaded, cache`expenses
  {
    SortedListingAgrees(store.expenses, "exp_", cache.expensesLoaded, cache.expenses, Date)
  }

  ghost predicate RetailConfigCoherent(store: Store, cache: Cache)
    reads store`retailConfig, cache`retailPriceConfigLoaded, cache`retailPriceConfig
  {
    SlotAgrees(ReadRetailConfig(store.retailConfig), cache.retailPriceConfigLoaded, cache.retailPriceConfig)
  }

  ghost predicate InventoryCoherent(store: Store, cache: Cache)
    reads store`inventory, cache`inventoryLoaded, cache`inventory
  {
    SlotAgrees(ReadInventory(store.inventory), cache.inventoryLoaded, cache.inventory)
  }

  ghost predicate EmployeeLedgersCoherent(store: Store, cache: Cache)
    reads store`employeeLedgers, cache`employeeTransactions
  {
    LedgersAgree(store.employeeLedgers, cache.employeeTransactions)
  }

  ghost predicate ClientLedgersCoherent(store: Store, cache: Cache)
    reads store`clientLedgers, cache`clientTransactions
  {
    LedgersAgree(store.clientLedgers, cache.clientTransactions)
  }

  /** Every loaded snapshot agrees with the store. */
  ghost predicate Coherent(store: Store, cache: Cache)
    reads store, cache
  {
    EmployeesCoherent(store, cache) && CounterAgentsCoherent(store, cache)
    && AggregatorsCoherent(store, cache) && SalarySchemesCoherent(store, cache)
    && WashEventsCoherent(store, cache) && ExpensesCoherent(store, cache)
    && RetailConfigCoherent(store, cache) && InventoryCoherent(store, cache)
    && EmployeeLedgersCoherent(store, cache) && ClientLedgersCoherent(store, cache)
  }

  /** Writing one owner's ledger file and dropping that owner's cached ledger keeps
      every other cached ledger in agreement. */
  lemma LedgerWriteThenDrop<T>(files: map<string, Slot<seq<T>>>, cached: map<string, seq<T>>, ownerId: string, txs: seq<T>)
    requires LedgersAgree(files, cached)
    ensures LedgersAgree(files[ownerId := Stored(txs)], cached - {ownerId})
  {
    forall id | id in cached - {ownerId}
      ensures ReadLedger(files[ownerId := Stored(txs)], id) == Ok((cached - {ownerId})[id])
    {
      assert ReadLedger(files, id) == Ok(cached[id]);
    }
  }

  /** A ledger read that failed counts as an empty ledger (the Add handlers). */
  function LedgerOrEmpty<T>(r: Result<seq<T>>): (txs: seq<T>)
    ensures r.Ok? ==> txs == r.value
    ensures r.Err? ==> txs == []
  {
    if r.Ok? then r.value else []
  }

  /** The ledger without the transactions carrying the id, in their order. */
  function Without<T>(txs: seq<T>, id: string, idOf: T -> string): seq<T> {
    if txs == [] then []
    else
      var rest := Without(txs[..|txs| - 1], id, idOf);
      if idOf(txs[|txs| - 1]) == id then rest else rest + [txs[|txs| - 1]]
  }

  /** Some transaction of the ledger carries the id. */
  predicate Carries<T>(txs: seq<T>, id: string, idOf: T -> string) {
    exists i :: 0 <= i < |txs| && idOf(txs[i]) == id
  }

  /** Nothing left carries the id, and the ledger shrinks exactly when some
      transaction did. */
  lemma {:induction false} WithoutSpec<T>(txs: seq<T>, id: string, idOf: T -> string)
    ensures forall i :: 0 <= i < |Without(txs, id, idOf)| ==> idOf(Without(txs, id, idOf)[i]) != id
    ensures Carries(txs, id, idOf) <==> |Without(txs, id, idOf)| < |txs|
    ensures !Carries(txs, id, idOf) ==> Without(txs, id, idOf) == txs
  {
    if txs != [] {
      var init := txs[..|txs| - 1];
      WithoutSpec(init, id, idOf);
      var last := txs[|txs| - 1];
      assert txs == init + [last];
      assert Carries(txs, id, idOf) <==> Carries(init, id, idOf) || idOf(last) == id by {
        if Carries(txs, id, idOf) && idOf(last) != id {
          var i :| 0 <= i < |txs| && idOf(txs[i]) == id;
          assert idOf(init[i]) == id;
        }
        if Carries(init, id, idOf) {
          var i :| 0 <= i < |init| && idOf(init[i]) == id;
          assert idOf(txs[i]) == id;
        }
      }
    }
  }

  /** A transaction appended and then removed by its id leaves the ledger without that
      id: the ledger itself when the id was new. */
  lemma AppendThenWithout<T>(txs: seq<T>, t: T, idOf: T -> string)
    ensures Without(txs + [t], idOf(t), idOf) == Without(txs, idOf(t), idOf)
    ensures !Carries(txs, idOf(t), idOf) ==> Without(txs + [t], idOf(t), idOf) == txs
  {
    assert (txs + [t])[..|txs|] == txs;
    WithoutSpec(txs, idOf(t), idOf);
  }

  /** The chemical counter after a handler wrote it. */
  function Counter(stock: real): Slot<Inventory> {
    Stored(Inventory(stock))
  }

  /** The chemical counter written and its cached copy dropped. */
  method WriteCounter(store: Store, cache: Cache, stock: real)
    requires InventoryCoherent(store, cache)
    modifies store`inventory, cache`inventory, cache`inventoryLoaded
    ensures InventoryCoherent(store, cache)
    ensures store.inventory == Counter(stock) && cache.inventory == None && !cache.inventoryLoaded
  {
    store.SaveInventory(Inventory(stock));
    cache.InvalidateInventory();
  }

  /** The stock the inventory handlers work from: a failed read counts as 0 grams. */
  function StockOrZero(r: Result<Inventory>): (grams: real)
    ensures r.Ok? ==> grams == r.value.chemicalStockGrams
    ensures r.Err? ==> grams == 0.0
  {
    if r.Ok? then r.value.chemicalStockGrams else 0.0
  }

  /** The id a create saves under: the given one, or the type prefix followed by the
      generated part (clock and random characters, passed in) when none is given. */
  function IdOrGenerated(id: string, prefix: string, generated: string): (r: string)
    ensures id != "" ==> r == id
    ensures id == "" ==> StartsWith(r, prefix)
  {
    if id != "" then id else prefix + generated
  }
}
