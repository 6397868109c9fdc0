/** The retail price list and the inventory handlers: two single-file settings read
    through the cache, the price list also replaced whole by an update. */
module PriceList {
  import opened Wrappers
  import opened Models
  import opened JsonStore
  import opened Caching
  import opened Handling

  /** The configuration as Update saves it: nil main and additional price lists
      replaced by empty ones, everything else as sent. */
  function Prepared(config: RetailPriceConfig): (r: RetailPriceConfig)
    ensures r.mainPriceList.Items? && r.mainPriceList.Seq() == config.mainPriceList.Seq()
    ensures r.additionalPriceList.Items? && r.additionalPriceList.Seq() == config.additionalPriceList.Seq()
    ensures r.(mainPriceList := config.mainPriceList, additionalPriceList := config.additionalPriceList) == config
  {
    config.(mainPriceList := config.mainPriceList.OrEmpty(),
            additionalPriceList := config.additionalPriceList.OrEmpty())
  }

  /** Saving what a read returned saves it unchanged, and a missing file reads as a
      configuration the update would not alter. */
  lemma PreparedIdempotent(config: RetailPriceConfig)
    ensures Prepared(Prepared(config)) == Prepared(config)
    ensures Prepared(ReadRetailConfig(Absent).value) == ReadRetailConfig(Absent).value
  {
  }

  /** getRetailPriceConfig: the cached configuration when loaded, else the file's,
      which is then cached; a failed read caches nothing. */
  method GetRetailPriceConfig(store: Store, cache: Cache) returns (r: Result<RetailPriceConfig>)
    requires RetailConfigCoherent(store, cache)
    modifies cache`retailPriceConfig, cache`retailPriceConfigLoaded
    ensures RetailConfigCoherent(store, cache)
    ensures r == ReadRetailConfig(store.retailConfig)
    ensures old(cache.retailPriceConfigLoaded) ==> unchanged(cache)
    ensures r.Ok? ==> cache.retailPriceConfigLoaded && cache.retailPriceConfig == Some(r.value)
    ensures r.Err? ==> unchanged(cache)
  {
    var cached, ok := cache.GetRetailPriceConfig();
    if ok {
      return Ok(cached.value);
    }
    r := store.GetRetailPriceConfig();
    if r.Err? {
      return;
    }
    cache.SetRetailPriceConfig(r.value);
  }

  /** GET /api/retail-price-list: a failed read is an internal error. */
  method Get(store: Store, cache: Cache) returns (r: Result<RetailPriceConfig>)
    requires RetailConfigCoherent(store, cache)
    modifies cache`retailPriceConfig, cache`retailPriceConfigLoaded
    ensures RetailConfigCoherent(store, cache)
    ensures var read := ReadRetailConfig(store.retailConfig);
      if read.Ok? then r == read else r == Err(Internal)
  {
    r := GetRetailPriceConfig(store, cache);
    if r.Err? {
      r := Err(Internal);
    }
  }

  /** POST /api/retail-price-list: the whole configuration replaced and the cached
      copy dropped, so the next read returns what was saved. */
  method Update(store: Store, cache: Cache, config: RetailPriceConfig) returns (r: RetailPriceConfig)
    requires RetailConfigCoherent(store, cache)
    modifies store`retailConfig, cache`retailPriceConfig, cache`retailPriceConfigLoaded
    ensures RetailConfigCoherent(store, cache)
    ensures r == Prepared(config) && store.retailConfig == Stored(r)
    ensures ReadRetailConfig(store.retailConfig) == Ok(r)
    ensures !cache.retailPriceConfigLoaded
  {
    r := Prepared(config);
    store.SaveRetailPriceConfig(r);
    cache.InvalidateRetailPriceConfig();
  }

  /** getInventory: the cached counter when loaded, else the file's (0 grams when it
      is missing), which is then cached; a failed read caches nothing. */
  method GetInventory(store: Store, cache: Cache) returns (r: Result<Inventory>)
    requires InventoryCoherent(store, cache)
    modifies cache`inventory, cache`inventoryLoaded
    ensures InventoryCoherent(store, cache)
    ensures r == ReadInventory(store.inventory)
    ensures old(cache.inventoryLoaded) ==> unchanged(cache)
    ensures r.Ok? ==> cache.inventoryLoaded && cache.inventory == Some(r.value)
    ensures r.Err? ==> unchanged(cache)
  {
    var cached, ok := cache.GetInventory();
    if ok {
      return Ok(cached.value);
    }
    r := store.GetInventory();
    if r.Err? {
      return;
    }
    cache.SetInventory(r.value);
  }

  /** GET /api/inventory: a failed read is an internal error. */
  method InventoryGet(store: Store, cache: Cache) returns (r: Result<Inventory>)
    requires InventoryCoherent(store, cache)
    modifies cache`inventory, cache`inventoryLoaded
    ensures InventoryCoherent(store, cache)
    ensures var read := ReadInventory(store.inventory);
      if read.Ok? then r == read else r == Err(Internal)
  {
    r := GetInventory(store, cache);
    if r.Err? {
      r := Err(Internal);
    }
  }
}
