/** The salary-scheme handlers: pay schemes created, replaced and deleted in the
    store, with the cached list dropped after each successful change. */
module SalarySchemes {
  import opened Wrappers
  import opened Models
  import opened Text
  import opened JsonStore
  import opened Caching
  import opened Handling

  /** The scheme as Create saves it: the id filled in when empty (the clock part is
      passed in), a nil rate list replaced by an empty one. */
  function Prepared(scheme: SalaryScheme, generated: string): (r: SalaryScheme)
    ensures r.id == IdOrGenerated(scheme.id, "scheme_", generated)
    ensures r.rates.Items? && r.rates.Seq() == scheme.rates.Seq()
    ensures r.(id := scheme.id, rates := scheme.rates) == scheme
  {
    scheme.(id := IdOrGenerated(scheme.id, "scheme_", generated), rates := scheme.rates.OrEmpty())
  }

  /** A scheme created without an id gets one that GetAll lists. */
  lemma GeneratedIdListed(d: Dir<SalaryScheme>, scheme: SalaryScheme, generated: string)
    requires scheme.id == ""
    requires Write(d, FileName(Prepared(scheme, generated).id), Prepared(scheme, generated)).Ok?
    ensures var s := Prepared(scheme, generated);
      s in ListAll(Write(d, FileName(s.id), s).value, "scheme_").value
  {
    var s := Prepared(scheme, generated);
    PrefixedSaveListed(d, s.id, s, "scheme_");
  }

  /** The scheme saved and, when that succeeded, the cached list dropped. */
  method SaveAndInvalidate(store: Store, cache: Cache, a: SalaryScheme) returns (r: Outcome)
    requires store.Valid() && SalarySchemesCoherent(store, cache)
    modifies store`salarySchemes, cache`salarySchemes, cache`salarySchemesLoaded
    ensures store.Valid() && SalarySchemesCoherent(store, cache)
    ensures var w := Write(old(store.salarySchemes), FileName(a.id), a);
      if w.Ok? then r == Success && store.salarySchemes == w.value && !cache.salarySchemesLoaded
      else r == Failure(w.error) && unchanged(store, cache)
  {
    r := store.SaveSalaryScheme(a);
    if r.Success? {
      cache.InvalidateSalarySchemes();
    }
  }

  /** getSalarySchemes: the cached snapshot when loaded, else a fresh listing, which is
      then cached. */
  method GetSalarySchemes(store: Store, cache: Cache) returns (r: Result<seq<SalaryScheme>>)
    requires SalarySchemesCoherent(store, cache)
    modifies cache`salarySchemes, cache`salarySchemesLoaded
    ensures SalarySchemesCoherent(store, cache)
    ensures r == ListAll(store.salarySchemes, "scheme_")
    ensures old(cache.salarySchemesLoaded) ==> unchanged(cache)
    ensures r.Ok? ==> cache.salarySchemesLoaded && cache.salarySchemes == r.value
    ensures r.Err? ==> unchanged(cache)
  {
    var cached, ok := cache.GetSalarySchemes();
    if ok {
      return Ok(cached);
    }
    r := store.GetAllSalarySchemes();
    if r.Err? {
      return;
    }
    cache.SetSalarySchemes(r.value);
  }

  /** GET /api/salary-schemes: a failed listing is an internal error. */
  method GetAll(store: Store, cache: Cache) returns (r: Result<seq<SalaryScheme>>)
    requires SalarySchemesCoherent(store, cache)
    modifies cache`salarySchemes, cache`salarySchemesLoaded
    ensures SalarySchemesCoherent(store, cache)
    ensures var listing := ListAll(store.salarySchemes, "scheme_");
      if listing.Ok? then r == listing else r == Err(Internal)
  {
    r := GetSalarySchemes(store, cache);
    if r.Err? {
      r := Err(Internal);
    }
  }

  /** GET /api/salary-schemes/:id: straight from the store, bypassing the cache; any
      failure is NotFound. */
  method GetByID(store: Store, id: string) returns (r: Result<SalaryScheme>)
    ensures var found := FindById(store.salarySchemes, id, SchemeId);
      if found.Ok? then r == found else r == Err(NotFound)
  {
    r := store.GetSalarySchemeByID(id);
    if r.Err? {
      r := Err(NotFound);
    }
  }

  /** POST /api/salary-schemes. */
  method Create(store: Store, cache: Cache, scheme: SalaryScheme, generated: string) returns (r: Result<SalaryScheme>)
    requires store.Valid() && SalarySchemesCoherent(store, cache)
    modifies store`salarySchemes, cache`salarySchemes, cache`salarySchemesLoaded
    ensures store.Valid() && SalarySchemesCoherent(store, cache)
    ensures var a := Prepared(scheme, generated);
      var w := Write(old(store.salarySchemes), FileName(a.id), a);
      if w.Err? then r == Err(Internal) && unchanged(store, cache)
      else r == Ok(a) && store.salarySchemes == w.value && !cache.salarySchemesLoaded
  {
    var a := Prepared(scheme, generated);
    var saved := SaveAndInvalidate(store, cache, a);
    if saved.Failure? {
      return Err(Internal);
    }
    return Ok(a);
  }

  /** PUT /api/salary-schemes/:id: the body replaces the stored scheme whole, under the
      path's id. */
  method Update(store: Store, cache: Cache, id: string, updates: SalaryScheme) returns (r: Result<SalaryScheme>)
    requires store.Valid() && SalarySchemesCoherent(store, cache)
    modifies store`salarySchemes, cache`salarySchemes, cache`salarySchemesLoaded
    ensures store.Valid() && SalarySchemesCoherent(store, cache)
    ensures var a := updates.(id := id);
      var w := Write(old(store.salarySchemes), FileName(id), a);
      if FindById(old(store.salarySchemes), id, SchemeId).Err? then
        r == Err(NotFound) && unchanged(store, cache)
      else if w.Err? then r == Err(Internal) && unchanged(store, cache)
      else r == Ok(a) && store.salarySchemes == w.value && !cache.salarySchemesLoaded
  {
    var existing := store.GetSalarySchemeByID(id);
    if existing.Err? {
      return Err(NotFound);
    }
    var a := updates.(id := id);
    var saved := SaveAndInvalidate(store, cache, a);
    if saved.Failure? {
      return Err(Internal);
    }
    return Ok(a);
  }

  /** DELETE /api/salary-schemes/:id: any failure to delete is NotFound. */
  method Delete(store: Store, cache: Cache, id: string) returns (r: Outcome)
    requires store.Valid() && SalarySchemesCoherent(store, cache)
    modifies store`salarySchemes, cache`salarySchemes, cache`salarySchemesLoaded
    ensures store.Valid() && SalarySchemesCoherent(store, cache)
    ensures var dl := DeleteById(old(store.salarySchemes), id, SchemeId);
      if dl.Err? then r == Failure(NotFound) && unchanged(store, cache)
      else r == Success && store.salarySchemes == dl.value && !cache.salarySchemesLoaded
  {
    var deleted := store.DeleteSalaryScheme(id);
    if deleted.Failure? {
      return Failure(NotFound);
    }
    cache.InvalidateSalarySchemes();
    return Success;
  }
}
