/** The aggregator handlers: platform clients created, replaced and deleted in the
    store, with the cached list dropped after each successful change. */
module Aggregators {
  import opened Wrappers
  import opened Models
  import opened Text
  import opened JsonStore
  import opened Caching
  import opened Handling

  /** The aggregator as Create saves it: the id filled in when empty, nil car and
      price-list lists replaced by empty ones; the companies are left as sent. */
  function Prepared(agg: Aggregator, generated: string): (r: Aggregator)
    ensures r.id == IdOrGenerated(agg.id, "agg_", generated)
    ensures r.cars.Items? && r.cars.Seq() == agg.cars.Seq()
    ensures r.priceLists.Items? && r.priceLists.Seq() == agg.priceLists.Seq()
    ensures r.(id := agg.id, cars := agg.cars, priceLists := agg.priceLists) == agg
  {
    agg.(id := IdOrGenerated(agg.id, "agg_", generated),
         cars := agg.cars.OrEmpty(),
         priceLists := agg.priceLists.OrEmpty())
  }

  /** An aggregator created without an id gets one that GetAll lists. */
  lemma GeneratedIdListed(d: Dir<Aggregator>, agg: Aggregator, generated: string)
    requires agg.id == ""
    requires Write(d, FileName(Prepared(agg, generated).id), Prepared(agg, generated)).Ok?
    ensures var a := Prepared(agg, generated);
      a in ListAll(Write(d, FileName(a.id), a).value, "agg_").value
  {
    var a := Prepared(agg, generated);
    PrefixedSaveListed(d, a.id, a, "agg_");
  }

  /** The aggregator saved and, when that succeeded, the cached list dropped. */
  method SaveAndInvalidate(store: Store, cache: Cache, a: Aggregator) returns (r: Outcome)
    requires store.Valid() && AggregatorsCoherent(store, cache)
    modifies store`aggregators, cache`aggregators, cache`aggregatorsLoaded
    ensures store.Valid() && AggregatorsCoherent(store, cache)
    ensures var w := Write(old(store.aggregators), FileName(a.id), a);
      if w.Ok? then r == Success && store.aggregators == w.value && !cache.aggregatorsLoaded
      else r == Failure(w.error) && unchanged(store, cache)
  {
    r := store.SaveAggregator(a);
    if r.Success? {
      cache.InvalidateAggregators();
    }
  }

  /** getAggregators: the cached snapshot when loaded, else a fresh listing, which is
      then cached. */
  method GetAggregators(store: Store, cache: Cache) returns (r: Result<seq<Aggregator>>)
    requires AggregatorsCoherent(store, cache)
    modifies cache`aggregators, cache`aggregatorsLoaded
    ensures AggregatorsCoherent(store, cache)
    ensures r == ListAll(store.aggregators, "agg_")
    ensures old(cache.aggregatorsLoaded) ==> unchanged(cache)
    ensures r.Ok? ==> cache.aggregatorsLoaded && cache.aggregators == r.value
    ensures r.Err? ==> unchanged(cache)
  {
    var cached, ok := cache.GetAggregators();
    if ok {
      return Ok(cached);
    }
    r := store.GetAllAggregators();
    if r.Err? {
      return;
    }
    cache.SetAggregators(r.value);
  }

  /** GET /api/aggregators: a failed listing is an internal error. */
  method GetAll(store: Store, cache: Cache) returns (r: Result<seq<Aggregator>>)
    requires AggregatorsCoherent(store, cache)
    modifies cache`aggregators, cache`aggregatorsLoaded
    ensures AggregatorsCoherent(store, cache)
    ensures var listing := ListAll(store.aggregators, "agg_");
      if listing.Ok? then r == listing else r == Err(Internal)
  {
    r := GetAggregators(store, cache);
    if r.Err? {
      r := Err(Internal);
    }
  }

  /** GET /api/aggregators/:id: straight from the store, bypassing the cache; any
      failure is NotFound. */
  method GetByID(store: Store, id: string) returns (r: Result<Aggregator>)
    ensures var found := FindById(store.aggregators, id, AggregatorId);
      if found.Ok? then r == found else r == Err(NotFound)
  {
    r := store.GetAggregatorByID(id);
    if r.Err? {
      r := Err(NotFound);
    }
  }

  /** POST /api/aggregators. */
  method Create(store: Store, cache: Cache, agg: Aggregator, generated: string) returns (r: Result<Aggregator>)
    requires store.Valid() && AggregatorsCoherent(store, cache)
    modifies store`aggregators, cache`aggregators, cache`aggregatorsLoaded
    ensures store.Valid() && AggregatorsCoherent(store, cache)
    ensures var a := Prepared(agg, generated);
      var w := Write(old(store.aggregators), FileName(a.id), a);
      if w.Err? then r == Err(Internal) && unchanged(store, cache)
      else r == Ok(a) && store.aggregators == w.value && !cache.aggregatorsLoaded
  {
    var a := Prepared(agg, generated);
    var saved := SaveAndInvalidate(store, cache, a);
    if saved.Failure? {
      return Err(Internal);
    }
    return Ok(a);
  }

  /** PUT /api/aggregators/:id: the body replaces the stored aggregator whole, under the
      path's id. */
  method Update(store: Store, cache: Cache, id: string, updates: Aggregator) returns (r: Result<Aggregator>)
    requires store.Valid() && AggregatorsCoherent(store, cache)
    modifies store`aggregators, cache`aggregators, cache`aggregatorsLoaded
    ensures store.Valid() && AggregatorsCoherent(store, cache)
    ensures var a := updates.(id := id);
      var w := Write(old(store.aggregators), FileName(id), a);
      if FindById(old(store.aggregators), id, AggregatorId).Err? then
        r == Err(NotFound) && unchanged(store, cache)
      else if w.Err? then r == Err(Internal) && unchanged(store, cache)
      else r == Ok(a) && store.aggregators == w.value && !cache.aggregatorsLoaded
  {
    var existing := store.GetAggregatorByID(id);
    if existing.Err? {
      return Err(NotFound);
    }
    var a := updates.(id := id);
    var saved := SaveAndInvalidate(store, cache, a);
    if saved.Failure? {
      return Err(Internal);
    }
    return Ok(a);
  }

  /** DELETE /api/aggregators/:id: any failure to delete is NotFound. */
  method Delete(store: Store, cache: Cache, id: string) returns (r: Outcome)
    requires store.Valid() && AggregatorsCoherent(store, cache)
    modifies store`aggregators, cache`aggregators, cache`aggregatorsLoaded
    ensures store.Valid() && AggregatorsCoherent(store, cache)
    ensures var dl := DeleteById(old(store.aggregators), id, AggregatorId);
      if dl.Err? then r == Failure(NotFound) && unchanged(store, cache)
      else r == Success && store.aggregators == dl.value && !cache.aggregatorsLoaded
  {
    var deleted := store.DeleteAggregator(id);
    if deleted.Failure? {
      return Failure(NotFound);
    }
    cache.InvalidateAggregators();
    return Success;
  }
}
