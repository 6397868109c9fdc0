/** The counter-agent handlers: contract clients created, replaced and deleted in the
    store, with the cached list dropped after each successful change. */
module CounterAgents {
  import opened Wrappers
  import opened Models
  import opened Text
  import opened JsonStore
  import opened Caching
  import opened Handling

  /** The agent as Create saves it: the id filled in when empty, nil company, car and
      price lists replaced by empty ones; the additional price list is left as sent. */
  function Prepared(agent: CounterAgent, generated: string): (r: CounterAgent)
    ensures r.id == IdOrGenerated(agent.id, "agent_", generated)
    ensures r.companies.Items? && r.companies.Seq() == agent.companies.Seq()
    ensures r.cars.Items? && r.cars.Seq() == agent.cars.Seq()
    ensures r.priceList.Items? && r.priceList.Seq() == agent.priceList.Seq()
    ensures r.(id := agent.id, companies := agent.companies, cars := agent.cars, priceList := agent.priceList) == agent
  {
    agent.(id := IdOrGenerated(agent.id, "agent_", generated),
           companies := agent.companies.OrEmpty(),
           cars := agent.cars.OrEmpty(),
           priceList := agent.priceList.OrEmpty())
  }

  /** An agent created without an id gets one that GetAll lists. */
  lemma GeneratedIdListed(d: Dir<CounterAgent>, agent: CounterAgent, generated: string)
    requires agent.id == ""
    requires Write(d, FileName(Prepared(agent, generated).id), Prepared(agent, generated)).Ok?
    ensures var a := Prepared(agent, generated);
      a in ListAll(Write(d, FileName(a.id), a).value, "agent_").value
  {
    var a := Prepared(agent, generated);
    PrefixedSaveListed(d, a.id, a, "agent_");
  }

  /** The agent saved and, when that succeeded, the cached list dropped. */
  method SaveAndInvalidate(store: Store, cache: Cache, a: CounterAgent) returns (r: Outcome)
    requires store.Valid() && CounterAgentsCoherent(store, cache)
    modifies store`counterAgents, cache`counterAgents, cache`counterAgentsLoaded
    ensures store.Valid() && CounterAgentsCoherent(store, cache)
    ensures var w := Write(old(store.counterAgents), FileName(a.id), a);
      if w.Ok? then r == Success && store.counterAgents == w.value && !cache.counterAgentsLoaded
      else r == Failure(w.error) && unchanged(store, cache)
  {
    r := store.SaveCounterAgent(a);
    if r.Success? {
      cache.InvalidateCounterAgents();
    }
  }

  /** getCounterAgents: the cached snapshot when loaded, else a fresh listing, which is
      then cached. */
  method GetCounterAgents(store: Store, cache: Cache) returns (r: Result<seq<CounterAgent>>)
    requires CounterAgentsCoherent(store, cache)
    modifies cache`counterAgents, cache`counterAgentsLoaded
    ensures CounterAgentsCoherent(store, cache)
    ensures r == ListAll(store.counterAgents, "agent_")
    ensures old(cache.counterAgentsLoaded) ==> unchanged(cache)
    ensures r.Ok? ==> cache.counterAgentsLoaded && cache.counterAgents == r.value
    ensures r.Err? ==> unchanged(cache)
  {
    var cached, ok := cache.GetCounterAgents();
    if ok {
      return Ok(cached);
    }
    r := store.GetAllCounterAgents();
    if r.Err? {
      return;
    }
    cache.SetCounterAgents(r.value);
  }

  /** GET /api/counter-agents: a failed listing is an internal error. */
  method GetAll(store: Store, cache: Cache) returns (r: Result<seq<CounterAgent>>)
    requires CounterAgentsCoherent(store, cache)
    modifies cache`counterAgents, cache`counterAgentsLoaded
    ensures CounterAgentsCoherent(store, cache)
    ensures var listing := ListAll(store.counterAgents, "agent_");
      if listing.Ok? then r == listing else r == Err(Internal)
  {
    r := GetCounterAgents(store, cache);
    if r.Err? {
      r := Err(Internal);
    }
  }

  /** GET /api/counter-agents/:id: straight from the store, bypassing the cache; any
      failure is NotFound. */
  method GetByID(store: Store, id: string) returns (r: Result<CounterAgent>)
    ensures var found := FindById(store.counterAgents, id, CounterAgentId);
      if found.Ok? then r == found else r == Err(NotFound)
  {
    r := store.GetCounterAgentByID(id);
    if r.Err? {
      r := Err(NotFound);
    }
  }

  /** POST /api/counter-agents. */
  method Create(store: Store, cache: Cache, agent: CounterAgent, generated: string) returns (r: Result<CounterAgent>)
    requires store.Valid() && CounterAgentsCoherent(store, cache)
    modifies store`counterAgents, cache`counterAgents, cache`counterAgentsLoaded
    ensures store.Valid() && CounterAgentsCoherent(store, cache)
    ensures var a := Prepared(agent, generated);
      var w := Write(old(store.counterAgents), FileName(a.id), a);
      if w.Err? then r == Err(Internal) && unchanged(store, cache)
      else r == Ok(a) && store.counterAgents == w.value && !cache.counterAgentsLoaded
  {
    var a := Prepared(agent, generated);
    var saved := SaveAndInvalidate(store, cache, a);
    if saved.Failure? {
      return Err(Internal);
    }
    return Ok(a);
  }

  /** PUT /api/counter-agents/:id: the body replaces the stored agent whole, under the
      path's id. */
  method Update(store: Store, cache: Cache, id: string, updates: CounterAgent) returns (r: Result<CounterAgent>)
    requires store.Valid() && CounterAgentsCoherent(store, cache)
    modifies store`counterAgents, cache`counterAgents, cache`counterAgentsLoaded
    ensures store.Valid() && CounterAgentsCoherent(store, cache)
    ensures var a := updates.(id := id);
      var w := Write(old(store.counterAgents), FileName(id), a);
      if FindById(old(store.counterAgents), id, CounterAgentId).Err? then
        r == Err(NotFound) && unchanged(store, cache)
      else if w.Err? then r == Err(Internal) && unchanged(store, cache)
      else r == Ok(a) && store.counterAgents == w.value && !cache.counterAgentsLoaded
  {
    var existing := store.GetCounterAgentByID(id);
    if existing.Err? {
      return Err(NotFound);
    }
    var a := updates.(id := id);
    var saved := SaveAndInvalidate(store, cache, a);
    if saved.Failure? {
      return Err(Internal);
    }
    return Ok(a);
  }

  /** DELETE /api/counter-agents/:id: any failure to delete is NotFound. */
  method Delete(store: Store, cache: Cache, id: string) returns (r: Outcome)
    requires store.Valid() && CounterAgentsCoherent(store, cache)
    modifies store`counterAgents, cache`counterAgents, cache`counterAgentsLoaded
    ensures store.Valid() && CounterAgentsCoherent(store, cache)
    ensures var dl := DeleteById(old(store.counterAgents), id, CounterAgentId);
      if dl.Err? then r == Failure(NotFound) && unchanged(store, cache)
      else r == Success && store.counterAgents == dl.value && !cache.counterAgentsLoaded
  {
    var deleted := store.DeleteCounterAgent(id);
    if deleted.Failure? {
      return Failure(NotFound);
    }
    cache.InvalidateCounterAgents();
    return Success;
  }
}
