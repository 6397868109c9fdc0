/** The expense handlers: a chemical purchase adds its weight to the single chemical
    counter, an update applies the difference and a delete takes the weight back. */
module Expenses {
  import opened Wrappers
  import opened Models
  import opened Text
  import opened JsonStore
  import opened Caching
  import opened Handling

  // ---------------------------------------------------------------- purchases

  const ChemicalCategory: string := "Закупка химии"

  /** A purchase of chemicals: the category, a positive quantity and a unit that
      starts with "кг" in any letter case. */
  predicate IsChemicalPurchase(e: Expense) {
    e.category == ChemicalCategory && e.quantity > 0.0 && StartsWith(Lower(e.unit), "кг")
  }

  /** The grams a purchase brings in (kilograms times 1000); 0 for any other expense. */
  function ChemicalGrams(e: Expense): (g: real)
    ensures IsChemicalPurchase(e) <==> g > 0.0
    ensures IsChemicalPurchase(e) ==> g == e.quantity * 1000.0
  {
    if IsChemicalPurchase(e) then e.quantity * 1000.0 else 0.0
  }

  /** Any letter case of "кг", and any unit continuing it, is accepted; the Latin "kg"
      is not. */
  lemma UnitSpellings()
    ensures IsChemicalPurchase(Expense("e", "2024-05-01", ChemicalCategory, "", 0.0, 2.0, "КГ", 0.0))
    ensures IsChemicalPurchase(Expense("e", "2024-05-01", ChemicalCategory, "", 0.0, 2.0, "Кг.", 0.0))
    ensures !IsChemicalPurchase(Expense("e", "2024-05-01", ChemicalCategory, "", 0.0, 2.0, "kg", 0.0))
    ensures !IsChemicalPurchase(Expense("e", "2024-05-01", ChemicalCategory, "", 0.0, 2.0, "г", 0.0))
  {
    assert Lower("КГ") == "кг";
    assert Lower("Кг.")[..2] == "кг";
    assert Lower("kg")[0] == 'k';
  }

  // ---------------------------------------------------------------- stock deltas

  /** Create: a purchase adds its grams, with no upper bound. */
  function StockAfterPurchase(stock: real, grams: real): real {
    if grams > 0.0 then stock + grams else stock
  }

  /** Update: the old grams are taken back and the new ones added, only when they
      differ, and with no lower bound. */
  function StockAfterRevision(stock: real, oldGrams: real, newGrams: real): real {
    if oldGrams != newGrams then stock - oldGrams + newGrams else stock
  }

  /** Delete: a purchase's grams are taken back, stopping at 0. */
  function StockAfterRemoval(stock: real, grams: real): real {
    if grams > 0.0 then (if stock - grams < 0.0 then 0.0 else stock - grams) else stock
  }

  /** A purchase followed by its deletion restores any non-negative stock. */
  lemma PurchaseThenRemoveRestores(stock: real, e: Expense)
    requires stock >= 0.0
    ensures StockAfterRemoval(StockAfterPurchase(stock, ChemicalGrams(e)), ChemicalGrams(e)) == stock
  {
  }

  /** Updating an expense and updating it back restores the stock exactly, since the
      update never clamps. */
  lemma RevisionThenRevertRestores(stock: real, a: Expense, b: Expense)
    ensures StockAfterRevision(StockAfterRevision(stock, ChemicalGrams(a), ChemicalGrams(b)),
                               ChemicalGrams(b), ChemicalGrams(a)) == stock
  {
  }

  /** Unlike delete, an update can leave a negative stock: 5 kg bought and used up,
      then the purchase edited into another category. */
  lemma RevisionCanGoNegative()
    ensures var bought := Expense("exp_1", "2024-05-01", ChemicalCategory, "", 1000.0, 5.0, "кг", 200.0);
      var edited := bought.(category := "Прочее");
      StockAfterRevision(0.0, ChemicalGrams(bought), ChemicalGrams(edited)) == -5000.0
  {
    assert Lower("кг") == "кг";
  }

  /** The delete clamp: removing more than is in stock leaves 0, and never a negative
      stock when starting from a non-negative one. */
  lemma RemovalNonNegative(stock: real, grams: real)
    requires stock >= 0.0
    ensures StockAfterRemoval(stock, grams) >= 0.0
    ensures grams > stock ==> StockAfterRemoval(stock, grams) == 0.0
  {
  }

  // ---------------------------------------------------------------- handlers

  /** The expense saved and, when that succeeded, the cached list dropped. */
  method SaveAndInvalidate(store: Store, cache: Cache, e: Expense) returns (r: Outcome)
    requires store.Valid() && ExpensesCoherent(store, cache)
    modifies store`expenses, cache`expenses, cache`expensesLoaded
    ensures store.Valid() && ExpensesCoherent(store, cache)
    ensures var w := Write(old(store.expenses), FileName(e.id), e);
      if w.Ok? then r == Success && store.expenses == w.value && cache.expenses == [] && !cache.expensesLoaded
      else r == Failure(w.error) && unchanged(store, cache)
  {
    r := store.SaveExpense(e);
    if r.Success? {
      cache.InvalidateExpenses();
    }
  }

  /** The expense's file deleted and, when that succeeded, the cached list dropped. */
  method DeleteAndInvalidate(store: Store, cache: Cache, id: string) returns (r: Outcome)
    requires store.Valid() && ExpensesCoherent(store, cache)
    modifies store`expenses, cache`expenses, cache`expensesLoaded
    ensures store.Valid() && ExpensesCoherent(store, cache)
    ensures var dl := DeleteById(old(store.expenses), id, ExpenseId);
      if dl.Ok? then r == Success && store.expenses == dl.value && cache.expenses == [] && !cache.expensesLoaded
      else r == Failure(dl.error) && unchanged(store, cache)
  {
    r := store.DeleteExpense(id);
    if r.Success? {
      cache.InvalidateExpenses();
    }
  }

  /** Create's inventory step: the purchase's grams added to the stock read now (a
      failed read counts as 0) and written back. */
  method AddToStock(store: Store, cache: Cache, grams: real)
    requires grams > 0.0 && InventoryCoherent(store, cache)
    modifies store`inventory, cache`inventory, cache`inventoryLoaded
    ensures InventoryCoherent(store, cache) && cache.inventory == None && !cache.inventoryLoaded
    ensures store.inventory == Counter(StockAfterPurchase(StockOrZero(ReadInventory(old(store.inventory))), grams))
  {
    var inv := store.GetInventory();
    var stock := StockOrZero(inv);
    stock := stock + grams;
    WriteCounter(store, cache, stock);
  }

  /** Update's inventory step: the old grams taken back and the new ones added, with
      no bound. */
  method Revise(store: Store, cache: Cache, oldGrams: real, newGrams: real)
    requires oldGrams != newGrams && InventoryCoherent(store, cache)
    modifies store`inventory, cache`inventory, cache`inventoryLoaded
    ensures InventoryCoherent(store, cache) && cache.inventory == None && !cache.inventoryLoaded
    ensures store.inventory == Counter(StockAfterRevision(StockOrZero(ReadInventory(old(store.inventory))), oldGrams, newGrams))
  {
    var inv := store.GetInventory();
    var stock := StockOrZero(inv) - oldGrams + newGrams;
    WriteCounter(store, cache, stock);
  }

  /** Delete's inventory step: the purchase's grams taken back, stopping at 0. */
  method TakeBack(store: Store, cache: Cache, grams: real)
    requires grams > 0.0 && InventoryCoherent(store, cache)
    modifies store`inventory, cache`inventory, cache`inventoryLoaded
    ensures InventoryCoherent(store, cache) && cache.inventory == None && !cache.inventoryLoaded
    ensures store.inventory == Counter(StockAfterRemoval(StockOrZero(ReadInventory(old(store.inventory))), grams))
  {
    var inv := store.GetInventory();
    var stock := StockOrZero(inv) - grams;
    if stock < 0.0 {
      stock := 0.0;
    }
    WriteCounter(store, cache, stock);
  }

  /** POST /api/expenses. */
  method Create(store: Store, cache: Cache, expense: Expense, generated: string) returns (r: Result<Expense>)
    requires store.Valid() && ExpensesCoherent(store, cache) && InventoryCoherent(store, cache)
    modifies store`expenses, store`inventory
    modifies cache`expenses, cache`expensesLoaded, cache`inventory, cache`inventoryLoaded
    ensures store.Valid() && ExpensesCoherent(store, cache) && InventoryCoherent(store, cache)
    ensures var e := expense.(id := IdOrGenerated(expense.id, "exp_", generated));
      var w := Write(old(store.expenses), FileName(e.id), e);
      var g := ChemicalGrams(expense);
      if w.Err? then
        r == Err(Internal) && unchanged(store, cache)
      else
        r == Ok(e) && store.expenses == w.value && cache.expenses == [] && !cache.expensesLoaded
        && store.inventory == (if g > 0.0 then Counter(StockAfterPurchase(StockOrZero(ReadInventory(old(store.inventory))), g))
                               else old(store.inventory))
        && (if g > 0.0 then cache.inventory == None && !cache.inventoryLoaded
            else cache.inventory == old(cache.inventory) && cache.inventoryLoaded == old(cache.inventoryLoaded))
  {
    var e := expense.(id := IdOrGenerated(expense.id, "exp_", generated));
    var saved := SaveAndInvalidate(store, cache, e);
    if saved.Failure? {
      return Err(Internal);
    }
    if IsChemicalPurchase(e) {
      AddToStock(store, cache, e.quantity * 1000.0);
    }
    return Ok(e);
  }

  /** GET /api/expenses/:id: straight from the store; any failure is NotFound. */
  method GetByID(store: Store, id: string) returns (r: Result<Expense>)
    ensures FindById(store.expenses, id, ExpenseId).Ok? ==> r == FindById(store.expenses, id, ExpenseId)
    ensures FindById(store.expenses, id, ExpenseId).Err? ==> r == Err(NotFound)
  {
    r := store.GetExpenseByID(id);
    if r.Err? {
      r := Err(NotFound);
    }
  }

  /** PUT /api/expenses/:id: the body replaces the record under the path's id. */
  method Update(store: Store, cache: Cache, id: string, updates: Expense) returns (r: Result<Expense>)
    requires store.Valid() && ExpensesCoherent(store, cache) && InventoryCoherent(store, cache)
    modifies store`expenses, store`inventory
    modifies cache`expenses, cache`expensesLoaded, cache`inventory, cache`inventoryLoaded
    ensures store.Valid() && ExpensesCoherent(store, cache) && InventoryCoherent(store, cache)
    ensures var existing := FindById(old(store.expenses), id, ExpenseId);
      var e := updates.(id := id);
      var w := Write(old(store.expenses), FileName(id), e);
      if existing.Err? then
        r == Err(NotFound) && unchanged(store, cache)
      else if w.Err? then
        r == Err(Internal) && unchanged(store, cache)
      else
        var before := ChemicalGrams(existing.value);
        var after := ChemicalGrams(updates);
        r == Ok(e) && store.expenses == w.value && cache.expenses == [] && !cache.expensesLoaded
        && store.inventory == (if before != after
                               then Counter(StockAfterRevision(StockOrZero(ReadInventory(old(store.inventory))), before, after))
                               else old(store.inventory))
        && (if before != after then cache.inventory == None && !cache.inventoryLoaded
            else cache.inventory == old(cache.inventory) && cache.inventoryLoaded == old(cache.inventoryLoaded))
  {
    var existing := store.GetExpenseByID(id);
    if existing.Err? {
      return Err(NotFound);
    }
    var oldChemicalQty := ChemicalGrams(existing.value);
    var newChemicalQty := ChemicalGrams(updates);
    var e := updates.(id := id);
    var saved := SaveAndInvalidate(store, cache, e);
    if saved.Failure? {
      return Err(Internal);
    }
    if oldChemicalQty != newChemicalQty {
      Revise(store, cache, oldChemicalQty, newChemicalQty);
    }
    return Ok(e);
  }

  /** DELETE /api/expenses/:id. */
  method Delete(store: Store, cache: Cache, id: string) returns (r: Outcome)
    requires store.Valid() && ExpensesCoherent(store, cache) && InventoryCoherent(store, cache)
    modifies store`expenses, store`inventory
    modifies cache`expenses, cache`expensesLoaded, cache`inventory, cache`inventoryLoaded
    ensures store.Valid() && ExpensesCoherent(store, cache) && InventoryCoherent(store, cache)
    ensures var existing := FindById(old(store.expenses), id, ExpenseId);
      if existing.Err? then
        r == Failure(NotFound) && unchanged(store, cache)
      else
        var g := ChemicalGrams(existing.value);
        r == Success && store.expenses == DeleteById(old(store.expenses), id, ExpenseId).value
        && cache.expenses == [] && !cache.expensesLoaded
        && store.inventory == (if g > 0.0 then Counter(StockAfterRemoval(StockOrZero(ReadInventory(old(store.inventory))), g))
                               else old(store.inventory))
        && (if g > 0.0 then cache.inventory == None && !cache.inventoryLoaded
            else cache.inventory == old(cache.inventory) && cache.inventoryLoaded == old(cache.inventoryLoaded))
  {
    var existing := store.GetExpenseByID(id);
    if existing.Err? {
      return Failure(NotFound);
    }
    var deleted := DeleteAndInvalidate(store, cache, id);
    if deleted.Failure? {
      return Failure(Internal);
    }
    if IsChemicalPurchase(existing.value) {
      TakeBack(store, cache, existing.value.quantity * 1000.0);
    }
    return Success;
  }

  /** getExpenses: the cached snapshot when loaded, else a fresh listing, which is
      then cached. */
  method GetExpenses(store: Store, cache: Cache) returns (r: Result<seq<Expense>>)
    requires ExpensesCoherent(store, cache)
    modifies cache`expenses, cache`expensesLoaded
    ensures ExpensesCoherent(store, cache)
    ensures old(cache.expensesLoaded) ==> r == Ok(old(cache.expenses)) && unchanged(cache)
    ensures r.Ok? ==> SortedListing(ListAll(store.expenses, "exp_"), r.value, Date)
    ensures r.Ok? ==> cache.expensesLoaded && cache.expenses == r.value
    ensures r.Err? ==> r == ListAll(store.expenses, "exp_") && unchanged(cache)
  {
    var cached, ok := cache.GetExpenses();
    if ok {
      return Ok(cached);
    }
    r := store.GetAllExpenses();
    if r.Err? {
      return;
    }
    cache.SetExpenses(r.value);
  }
}
