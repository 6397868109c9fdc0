/** The client transaction handlers: a payment is appended to the client's ledger and
    added to the balance of the aggregator or counter agent it belongs to; deleting it
    takes it out of the ledger and subtracts its amount again. */
module Transactions {
  import opened Wrappers
  import opened Models
  import opened Text
  import opened JsonStore
  import opened Caching
  import opened Handling

  // ---------------------------------------------------------------- whose balance

  /** The kind of record a client id turned out to name. */
  datatype Client = AggregatorClient | CounterAgentClient | UnknownClient

  /** updateClientBalance's search: an "agg_" id tries the aggregators, an "agent_" id
      the counter agents, and then the aggregators and the counter agents are tried
      in that order whatever the prefix. */
  function BalanceTarget(clientId: string, agg: Result<Aggregator>, agent: Result<CounterAgent>): (c: Client)
    ensures c == AggregatorClient ==> agg.Ok?
    ensures c == CounterAgentClient ==> agent.Ok?
    ensures c == UnknownClient <==> agg.Err? && agent.Err?
  {
    if StartsWith(clientId, "agg_") && agg.Ok? then AggregatorClient
    else if StartsWith(clientId, "agent_") && agent.Ok? then CounterAgentClient
    else if agg.Ok? then AggregatorClient
    else if agent.Ok? then CounterAgentClient
    else UnknownClient
  }

  /** The four steps come down to one rule: an "agent_" id that names a counter agent
      credits it, and otherwise an aggregator wins over a counter agent. */
  lemma BalanceTargetOrder(clientId: string, agg: Result<Aggregator>, agent: Result<CounterAgent>)
    ensures BalanceTarget(clientId, agg, agent) ==
      if StartsWith(clientId, "agent_") && agent.Ok? then CounterAgentClient
      else if agg.Ok? then AggregatorClient
      else if agent.Ok? then CounterAgentClient
      else UnknownClient
  {
    if StartsWith(clientId, "agg_") {
      assert clientId[2] == 'g';
      assert !StartsWith(clientId, "agent_");
    }
  }

  /** A write whose error is ignored: the directory after it. */
  function SavedOrKept<T>(d: Dir<T>, name: string, v: T): (r: Dir<T>)
    ensures Write(d, name, v).Ok? ==> r == Write(d, name, v).value
    ensures Write(d, name, v).Err? ==> r == d
  {
    var w := Write(d, name, v);
    if w.Ok? then w.value else d
  }

  /** The credit applied to an aggregator's or a counter agent's balance. */
  function AggregatorPlus(amount: real): Aggregator -> Aggregator {
    (a: Aggregator) => a.(balance := a.balance + amount)
  }

  function CounterAgentPlus(amount: real): CounterAgent -> CounterAgent {
    (a: CounterAgent) => a.(balance := a.balance + amount)
  }

  /** A directory after the record the id names is changed by the credit and saved
      under the id's file name, the save's error ignored. */
  function Credited<T>(d: Dir<T>, id: string, idOf: T -> string, credit: T -> T): Dir<T>
    requires FindById(d, id, idOf).Ok?
  {
    SavedOrKept(d, FileName(id), credit(FindById(d, id, idOf).value))
  }

  /** The aggregator and counter-agent directories after the amount is added to the
      client's balance. */
  function BalancesAfter(aggs: Dir<Aggregator>, agents: Dir<CounterAgent>, clientId: string, amount: real)
    : (Dir<Aggregator>, Dir<CounterAgent>)
  {
    match BalanceTarget(clientId, FindById(aggs, clientId, AggregatorId), FindById(agents, clientId, CounterAgentId))
    case AggregatorClient => (Credited(aggs, clientId, AggregatorId, AggregatorPlus(amount)), agents)
    case CounterAgentClient => (aggs, Credited(agents, clientId, CounterAgentId, CounterAgentPlus(amount)))
    case UnknownClient => (aggs, agents)
  }

  /** No file but the one named after the id holds a record with that id. */
  ghost predicate OnlyOwnFileHolds<T>(d: Dir<T>, id: string, idOf: T -> string) {
    d.Listed? ==> forall k :: 0 <= k < |d.entries| && d.entries[k].name != FileName(id) ==> !Holds(d.entries[k], id, idOf)
  }

  /** A record saved under its own file name, when no other file holds its id, is what
      the lookup returns afterwards, and no other file holds the id still; a failed
      save leaves the directory alone. */
  lemma SaveUnderOwnName<T>(d: Dir<T>, id: string, v: T, idOf: T -> string)
    requires ValidDir(d) && OnlyOwnFileHolds(d, id, idOf) && idOf(v) == id
    ensures var d' := SavedOrKept(d, FileName(id), v);
      ValidDir(d') && OnlyOwnFileHolds(d', id, idOf)
      && (Write(d, FileName(id), v).Ok? ==> FindById(d', id, idOf) == Ok(v))
  {
    if Write(d, FileName(id), v).Ok? {
      WriteValid(d, FileName(id), v);
      UpsertSortedIfListed(d, FileName(id), v);
      SaveThenFind(d, FileName(id), v, idOf);
    }
  }

  /** Whether a write fails depends on the directory and the name, not on the record;
      a name just written can be written again. */
  lemma WriteFailsAlike<T>(d: Dir<T>, name: string, v: T, w: T)
    ensures Write(d, name, v).Err? <==> Write(d, name, w).Err?
    ensures Write(d, name, v).Ok? ==> Write(Write(d, name, v).value, name, w).Ok?
  {
    if Write(d, name, v).Ok? {
      var once := Write(d, name, v).value;
      var e := Entry(name, false, Parsed(v));
      if d.Listed? {
        UpsertMembers(d.entries, e);
        forall k | 0 <= k < |once.entries| && once.entries[k].name == name
          ensures !once.entries[k].isDir
        {
          if once.entries[k] != e {
            var j :| 0 <= j < |d.entries| && d.entries[j] == once.entries[k];
          }
        }
      }
    }
  }

  /** A credit followed by one that undoes it: the record is found as it was, and
      between the two it is still found. */
  lemma CreditedTwice<T>(d: Dir<T>, id: string, idOf: T -> string, f: T -> T, g: T -> T)
    requires ValidDir(d) && OnlyOwnFileHolds(d, id, idOf)
    requires FindById(d, id, idOf).Ok?
    requires idOf(f(FindById(d, id, idOf).value)) == id
    requires g(f(FindById(d, id, idOf).value)) == FindById(d, id, idOf).value
    ensures FindById(Credited(d, id, idOf, f), id, idOf).Ok?
    ensures FindById(Credited(Credited(d, id, idOf, f), id, idOf, g), id, idOf) == FindById(d, id, idOf)
  {
    var a0 := FindById(d, id, idOf).value;
    var a1 := f(a0);
    var once := Credited(d, id, idOf, f);
    SaveUnderOwnName(d, id, a1, idOf);
    if Write(d, FileName(id), a1).Ok? {
      WriteFailsAlike(d, FileName(id), a1, a0);
      SaveUnderOwnName(once, id, a0, idOf);
    } else {
      WriteFailsAlike(d, FileName(id), a1, g(a0));
    }
  }

  /** A payment followed by its reversal leaves every lookup of the client as it was:
      the balance found afterwards is the one found before. */
  lemma PaymentThenReversal(aggs: Dir<Aggregator>, agents: Dir<CounterAgent>, clientId: string, amount: real)
    requires ValidDir(aggs) && ValidDir(agents)
    requires OnlyOwnFileHolds(aggs, clientId, AggregatorId) && OnlyOwnFileHolds(agents, clientId, CounterAgentId)
    ensures var once := BalancesAfter(aggs, agents, clientId, amount);
      var twice := BalancesAfter(once.0, once.1, clientId, -amount);
      FindById(twice.0, clientId, AggregatorId) == FindById(aggs, clientId, AggregatorId)
      && FindById(twice.1, clientId, CounterAgentId) == FindById(agents, clientId, CounterAgentId)
  {
    var agg := FindById(aggs, clientId, AggregatorId);
    var agent := FindById(agents, clientId, CounterAgentId);
    match BalanceTarget(clientId, agg, agent)
    case AggregatorClient =>
      var a0 := agg.value;
      assert AggregatorPlus(-amount)(AggregatorPlus(amount)(a0)) == a0;
      CreditedTwice(aggs, clientId, AggregatorId, AggregatorPlus(amount), AggregatorPlus(-amount));
      var once := Credited(aggs, clientId, AggregatorId, AggregatorPlus(amount));
      assert BalanceTarget(clientId, FindById(once, clientId, AggregatorId), agent) == AggregatorClient;
    case CounterAgentClient =>
      var a0 := agent.value;
      assert CounterAgentPlus(-amount)(CounterAgentPlus(amount)(a0)) == a0;
      CreditedTwice(agents, clientId, CounterAgentId, CounterAgentPlus(amount), CounterAgentPlus(-amount));
      var once := Credited(agents, clientId, CounterAgentId, CounterAgentPlus(amount));
      assert BalanceTarget(clientId, agg, FindById(once, clientId, CounterAgentId)) == CounterAgentClient;
    case UnknownClient =>
  }

  // ---------------------------------------------------------------- the balance update

  /** The aggregator the id names credited and saved; a failed save is ignored, the
      cached list is dropped whatever happened. */
  method CreditAggregator(store: Store, cache: Cache, clientId: string, agg: Aggregator, amount: real)
    requires store.Valid() && AggregatorsCoherent(store, cache)
    requires FindById(store.aggregators, clientId, AggregatorId) == Ok(agg)
    requires BalanceTarget(clientId, Ok(agg), FindById(store.counterAgents, clientId, CounterAgentId)) == AggregatorClient
    modifies store`aggregators, cache`aggregators, cache`aggregatorsLoaded
    ensures store.Valid() && AggregatorsCoherent(store, cache)
    ensures (store.aggregators, store.counterAgents) ==
      BalancesAfter(old(store.aggregators), old(store.counterAgents), clientId, amount)
    ensures !cache.aggregatorsLoaded
  {
    var credited := AggregatorPlus(amount)(agg);
    var _ := store.SaveAggregator(credited);
    cache.InvalidateAggregators();
  }

  /** The counter agent the id names credited and saved, in the same way. */
  method CreditCounterAgent(store: Store, cache: Cache, clientId: string, agent: CounterAgent, amount: real)
    requires store.Valid() && CounterAgentsCoherent(store, cache)
    requires FindById(store.counterAgents, clientId, CounterAgentId) == Ok(agent)
    requires BalanceTarget(clientId, FindById(store.aggregators, clientId, AggregatorId), Ok(agent)) == CounterAgentClient
    modifies store`counterAgents, cache`counterAgents, cache`counterAgentsLoaded
    ensures store.Valid() && CounterAgentsCoherent(store, cache)
    ensures (store.aggregators, store.counterAgents) ==
      BalancesAfter(old(store.aggregators), old(store.counterAgents), clientId, amount)
    ensures !cache.counterAgentsLoaded
  {
    var credited := CounterAgentPlus(amount)(agent);
    var _ := store.SaveCounterAgent(credited);
    cache.InvalidateCounterAgents();
  }

  /** updateClientBalance: the amount is added to the balance of the record the client
      id names, and only that record's cached list is dropped; an id naming nothing
      changes nothing. */
  method UpdateClientBalance(store: Store, cache: Cache, clientId: string, amount: real)
    requires store.Valid() && AggregatorsCoherent(store, cache) && CounterAgentsCoherent(store, cache)
    modifies store`aggregators, store`counterAgents
    modifies cache`aggregators, cache`aggregatorsLoaded, cache`counterAgents, cache`counterAgentsLoaded
    ensures store.Valid() && AggregatorsCoherent(store, cache) && CounterAgentsCoherent(store, cache)
    ensures (store.aggregators, store.counterAgents) ==
      BalancesAfter(old(store.aggregators), old(store.counterAgents), clientId, amount)
    ensures var target := BalanceTarget(clientId, FindById(old(store.aggregators), clientId, AggregatorId),
                                        FindById(old(store.counterAgents), clientId, CounterAgentId));
      (target == AggregatorClient ==>
         !cache.aggregatorsLoaded
         && cache.counterAgentsLoaded == old(cache.counterAgentsLoaded) && cache.counterAgents == old(cache.counterAgents))
      && (target == CounterAgentClient ==>
            !cache.counterAgentsLoaded
            && cache.aggregatorsLoaded == old(cache.aggregatorsLoaded) && cache.aggregators == old(cache.aggregators))
      && (target == UnknownClient ==> unchanged(cache))
  {
    if StartsWith(clientId, "agg_") {
      var agg := store.GetAggregatorByID(clientId);
      if agg.Ok? {
        CreditAggregator(store, cache, clientId, agg.value, amount);
        return;
      }
    }
    if StartsWith(clientId, "agent_") {
      var agent := store.GetCounterAgentByID(clientId);
      if agent.Ok? {
        CreditCounterAgent(store, cache, clientId, agent.value, amount);
        return;
      }
    }
    CreditFirstFound(store, cache, clientId, amount);
  }

  /** The last two steps of updateClientBalance, once the prefixes did not settle it:
      the aggregators are tried, then the counter agents. */
  method CreditFirstFound(store: Store, cache: Cache, clientId: string, amount: real)
    requires store.Valid() && AggregatorsCoherent(store, cache) && CounterAgentsCoherent(store, cache)
    requires StartsWith(clientId, "agg_") ==> FindById(store.aggregators, clientId, AggregatorId).Err?
    requires StartsWith(clientId, "agent_") ==> FindById(store.counterAgents, clientId, CounterAgentId).Err?
    modifies store`aggregators, store`counterAgents
    modifies cache`aggregators, cache`aggregatorsLoaded, cache`counterAgents, cache`counterAgentsLoaded
    ensures store.Valid() && AggregatorsCoherent(store, cache) && CounterAgentsCoherent(store, cache)
    ensures (store.aggregators, store.counterAgents) ==
      BalancesAfter(old(store.aggregators), old(store.counterAgents), clientId, amount)
    ensures var target := BalanceTarget(clientId, FindById(old(store.aggregators), clientId, AggregatorId),
                                        FindById(old(store.counterAgents), clientId, CounterAgentId));
      (target == AggregatorClient ==>
         !cache.aggregatorsLoaded
         && cache.counterAgentsLoaded == old(cache.counterAgentsLoaded) && cache.counterAgents == old(cache.counterAgents))
      && (target == CounterAgentClient ==>
            !cache.counterAgentsLoaded
            && cache.aggregatorsLoaded == old(cache.aggregatorsLoaded) && cache.aggregators == old(cache.aggregators))
      && (target == UnknownClient ==> unchanged(cache))
  {
    var agg := store.GetAggregatorByID(clientId);
    if agg.Ok? {
      CreditAggregator(store, cache, clientId, agg.value, amount);
      return;
    }
    var agent := store.GetCounterAgentByID(clientId);
    if agent.Ok? {
      CreditCounterAgent(store, cache, clientId, agent.value, amount);
    }
  }

  // ---------------------------------------------------------------- the ledger

  /** The transaction as the ledger stores it: its id (generated when none was sent),
      the client of the path, and the type "payment" whatever was sent. */
  function Stamped(trans: ClientTransaction, clientId: string, generated: string): (t: ClientTransaction)
    ensures t.clientId == clientId && t.txType == "payment"
    ensures t.date == trans.date && t.amount == trans.amount && t.description == trans.description
    ensures trans.id != "" ==> t.id == trans.id
    ensures trans.id == "" ==> StartsWith(t.id, "ctrans_")
  {
    trans.(id := IdOrGenerated(trans.id, "ctrans_", generated), clientId := clientId, txType := "payment")
  }

  /** The amount of the last transaction carrying the id: the one a delete reverses. */
  function LastAmount(txs: seq<ClientTransaction>, id: string): Option<real> {
    if txs == [] then None
    else if txs[|txs| - 1].id == id then Some(txs[|txs| - 1].amount)
    else LastAmount(txs[..|txs| - 1], id)
  }

  /** There is a last amount exactly when some transaction carries the id, and it
      belongs to a transaction no later one shares the id with. */
  lemma {:induction false} LastAmountSpec(txs: seq<ClientTransaction>, id: string)
    ensures LastAmount(txs, id).Some? <==> Carries(txs, id, ClientTransactionId)
    ensures LastAmount(txs, id).Some? ==>
      exists i :: 0 <= i < |txs| && txs[i].id == id && txs[i].amount == LastAmount(txs, id).value
                  && forall j :: i < j < |txs| ==> txs[j].id != id
  {
    if txs != [] {
      var init := txs[..|txs| - 1];
      LastAmountSpec(init, id);
      if txs[|txs| - 1].id == id {
        assert ClientTransactionId(txs[|txs| - 1]) == id;
      } else {
        assert Carries(txs, id, ClientTransactionId) <==> Carries(init, id, ClientTransactionId) by {
          if Carries(txs, id, ClientTransactionId) {
            var i :| 0 <= i < |txs| && ClientTransactionId(txs[i]) == id;
            assert ClientTransactionId(init[i]) == id;
          }
          if Carries(init, id, ClientTransactionId) {
            var i :| 0 <= i < |init| && ClientTransactionId(init[i]) == id;
            assert ClientTransactionId(txs[i]) == id;
          }
        }
        if LastAmount(init, id).Some? {
          var i :| 0 <= i < |init| && init[i].id == id && init[i].amount == LastAmount(init, id).value
                   && forall j :: i < j < |init| ==> init[j].id != id;
          assert txs[i] == init[i];
          forall j | i < j < |txs| ensures txs[j].id != id {
            if j < |init| { assert txs[j] == init[j]; }
          }
        }
      }
    }
  }

  /** The loop of DeleteClientTransaction: every transaction carrying the id is dropped,
      and the amount of the last one is the one to reverse. */
  method RemoveClientTransaction(txs: seq<ClientTransaction>, id: string)
    returns (kept: seq<ClientTransaction>, found: bool, deletedAmount: real)
    ensures kept == Without(txs, id, ClientTransactionId)
    ensures found <==> Carries(txs, id, ClientTransactionId)
    ensures found ==> LastAmount(txs, id) == Some(deletedAmount)
  {
    kept, found, deletedAmount := [], false, 0.0;
    for i := 0 to |txs|
      invariant kept == Without(txs[..i], id, ClientTransactionId)
      invariant found == LastAmount(txs[..i], id).Some?
      invariant found ==> LastAmount(txs[..i], id) == Some(deletedAmount)
    {
      assert txs[..i + 1][..i] == txs[..i];
      assert txs[..i + 1][i] == txs[i];
      if txs[i].id == id {
        found := true;
        deletedAmount := txs[i].amount;
      } else {
        kept := kept + [txs[i]];
      }
    }
    assert txs[..|txs|] == txs;
    LastAmountSpec(txs, id);
  }

  /** A payment appended and then deleted by its id: the ledger is what it was when the
      id was new, and the amount reversed is the payment's own. */
  lemma PaymentThenDeletion(txs: seq<ClientTransaction>, t: ClientTransaction)
    ensures LastAmount(txs + [t], t.id) == Some(t.amount)
    ensures !Carries(txs, t.id, ClientTransactionId) ==> Without(txs + [t], t.id, ClientTransactionId) == txs
  {
    AppendThenWithout(txs, t, ClientTransactionId);
  }

  /** Two transactions sharing an id are both deleted, but only the later amount is
      taken off the balance. */
  lemma SharedIdReversesLastOnly()
    ensures var t1 := ClientTransaction("ctrans_1", "agg_1", "2024-05-01", "payment", 10.0, "");
      var t2 := ClientTransaction("ctrans_1", "agg_1", "2024-05-02", "payment", 20.0, "");
      Without([t1, t2], "ctrans_1", ClientTransactionId) == [] && LastAmount([t1, t2], "ctrans_1") == Some(20.0)
  {
    var t1 := ClientTransaction("ctrans_1", "agg_1", "2024-05-01", "payment", 10.0, "");
    var t2 := ClientTransaction("ctrans_1", "agg_1", "2024-05-02", "payment", 20.0, "");
    assert [t1, t2][..1] == [t1];
    assert [t1][..0] == [];
    assert Without([t1], "ctrans_1", ClientTransactionId) == [];
  }

  // ---------------------------------------------------------------- handlers

  /** The ledger file written and the cached copy dropped around the balance update,
      in the order the handlers do it. */
  method WriteLedgerAndCredit(store: Store, cache: Cache, clientId: string, txs: seq<ClientTransaction>, amount: real)
    requires store.Valid() && AggregatorsCoherent(store, cache) && CounterAgentsCoherent(store, cache)
    requires ClientLedgersCoherent(store, cache)
    modifies store`clientLedgers, store`aggregators, store`counterAgents, cache`clientTransactions
    modifies cache`aggregators, cache`aggregatorsLoaded, cache`counterAgents, cache`counterAgentsLoaded
    ensures store.Valid() && AggregatorsCoherent(store, cache) && CounterAgentsCoherent(store, cache)
    ensures ClientLedgersCoherent(store, cache)
    ensures store.clientLedgers == old(store.clientLedgers)[clientId := Stored(txs)]
    ensures cache.clientTransactions == old(cache.clientTransactions) - {clientId}
    ensures (store.aggregators, store.counterAgents) ==
      BalancesAfter(old(store.aggregators), old(store.counterAgents), clientId, amount)
  {
    LedgerWriteThenDrop(store.clientLedgers, cache.clientTransactions, clientId, txs);
    store.SaveClientTransactions(clientId, txs);
    UpdateClientBalance(store, cache, clientId, amount);
    cache.InvalidateClientTransactions(clientId);
  }

  /** POST /api/client-transactions/:clientId: the payment appended to the client's
      ledger (a ledger that cannot be read counts as empty) and added to its balance. */
  method AddClientTransaction(store: Store, cache: Cache, clientId: string, trans: ClientTransaction, generated: string)
    returns (r: Result<ClientTransaction>)
    requires store.Valid() && AggregatorsCoherent(store, cache) && CounterAgentsCoherent(store, cache)
    requires ClientLedgersCoherent(store, cache)
    modifies store`clientLedgers, store`aggregators, store`counterAgents, cache`clientTransactions
    modifies cache`aggregators, cache`aggregatorsLoaded, cache`counterAgents, cache`counterAgentsLoaded
    ensures store.Valid() && AggregatorsCoherent(store, cache) && CounterAgentsCoherent(store, cache)
    ensures ClientLedgersCoherent(store, cache)
    ensures var t := Stamped(trans, clientId, generated);
      r == Ok(t)
      && store.clientLedgers == old(store.clientLedgers)[clientId :=
           Stored(LedgerOrEmpty(ReadLedger(old(store.clientLedgers), clientId)) + [t])]
      && cache.clientTransactions == old(cache.clientTransactions) - {clientId}
      && (store.aggregators, store.counterAgents) ==
           BalancesAfter(old(store.aggregators), old(store.counterAgents), clientId, t.amount)
  {
    var t := Stamped(trans, clientId, generated);
    var read := store.GetClientTransactions(clientId);
    var txs := if read.Ok? then read.value else [];
    WriteLedgerAndCredit(store, cache, clientId, txs + [t], t.amount);
    return Ok(t);
  }

  /** DELETE /api/client-transactions/:clientId?transactionId=…: every transaction with
      the id leaves the ledger and the last one's amount is taken off the balance; a
      missing id is a bad request, an unreadable ledger or an absent id not found. */
  method DeleteClientTransaction(store: Store, cache: Cache, clientId: string, transactionId: string)
    returns (r: Outcome)
    requires store.Valid() && AggregatorsCoherent(store, cache) && CounterAgentsCoherent(store, cache)
    requires ClientLedgersCoherent(store, cache)
    modifies store`clientLedgers, store`aggregators, store`counterAgents, cache`clientTransactions
    modifies cache`aggregators, cache`aggregatorsLoaded, cache`counterAgents, cache`counterAgentsLoaded
    ensures store.Valid() && AggregatorsCoherent(store, cache) && CounterAgentsCoherent(store, cache)
    ensures ClientLedgersCoherent(store, cache)
    ensures var read := ReadLedger(old(store.clientLedgers), clientId);
      if transactionId == "" then r == Failure(BadRequest) && unchanged(store, cache)
      else if read.Err? then r == Failure(NotFound) && unchanged(store, cache)
      else if !Carries(read.value, transactionId, ClientTransactionId) then
        r == Failure(NotFound) && unchanged(store, cache)
      else
        r == Success
        && store.clientLedgers == old(store.clientLedgers)[clientId :=
             Stored(Without(read.value, transactionId, ClientTransactionId))]
        && cache.clientTransactions == old(cache.clientTransactions) - {clientId}
        && (store.aggregators, store.counterAgents) ==
             BalancesAfter(old(store.aggregators), old(store.counterAgents), clientId,
                           -LastAmount(read.value, transactionId).GetOr(0.0))
  {
    if transactionId == "" {
      return Failure(BadRequest);
    }
    var read := store.GetClientTransactions(clientId);
    if read.Err? {
      return Failure(NotFound);
    }
    var kept, found, deletedAmount := RemoveClientTransaction(read.value, transactionId);
    if !found {
      return Failure(NotFound);
    }
    WriteLedgerAndCredit(store, cache, clientId, kept, -deletedAmount);
    return Success;
  }
}
