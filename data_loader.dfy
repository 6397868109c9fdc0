/** The web front end's server-side data loader: module-level caches over the JSON data
    directory, filled on first read and dropped by the invalidators. A directory is read
    file by file; a file may hold one record or an array of them. */
module DataLoader {
  import opened Wrappers
  import opened Models
  import opened Text
  import opened Sorting
  import JsonStore

  // ---------------------------------------------------------------- the data directory

  /** What reading and parsing a file gives: one record, an array of records, text that
      does not parse, or a read that fails (a sub-directory with a .json name, say). */
  datatype Json<T> = One(value: T) | Many(values: seq<T>) | Malformed | Unreadable

  datatype File<T> = File(name: string, content: Json<T>)

  /** A directory: missing, refused for another reason, or present with its entries in
      the order readdir gives them. */
  datatype Folder<T> = Absent | Inaccessible | Present(files: seq<File<T>>)

  predicate IsJson<T>(f: File<T>) {
    EndsWith(f.name, ".json")
  }

  /** The records a parsed file contributes: every element of an array, an object as
      itself, nothing when it does not parse. */
  function Contribution<T>(c: Json<T>): seq<T> {
    match c
    case One(v) => [v]
    case Many(vs) => vs
    case _ => []
  }

  /** readDataFromDirectory over the entries: .json files only, in order; a failed read
      fails the whole call, a parse error only skips the file. */
  function Flattened<T>(files: seq<File<T>>): (r: Result<seq<T>>)
    ensures r.Err? ==> r == Err(Internal)
  {
    if files == [] then Ok([])
    else
      var f := files[|files| - 1];
      match Flattened(files[..|files| - 1])
      case Err(e) => Err(e)
      case Ok(acc) =>
        if !IsJson(f) then Ok(acc)
        else if f.content.Unreadable? then Err(Internal)
        else Ok(acc + Contribution(f.content))
  }

  /** A directory listed: a missing one has no records. */
  function Listing<T>(folder: Folder<T>): Result<seq<T>> {
    match folder
    case Absent => Ok([])
    case Inaccessible => Err(Internal)
    case Present(files) => Flattened(files)
  }

  /** The listing sorted newest first by a date key (stable: equal dates keep their
      order). */
  function ListingNewestFirst<T>(folder: Folder<T>, key: T -> string): Result<seq<T>> {
    match Listing(folder)
    case Ok(xs) => Ok(SortDescText(xs, key))
    case Err(e) => Err(e)
  }

  /** A missing directory is created by the read. */
  function Created<T>(folder: Folder<T>): (r: Folder<T>)
    ensures Listing(r) == Listing(folder)
  {
    if folder.Absent? then Present([]) else folder
  }

  /** The read fails exactly when some .json entry cannot be read. */
  lemma {:induction false} FlattenedFails<T>(files: seq<File<T>>)
    ensures Flattened(files).Err? <==>
            exists i :: 0 <= i < |files| && IsJson(files[i]) && files[i].content.Unreadable?
  {
    if files != [] {
      var init := files[..|files| - 1];
      FlattenedFails(init);
      if exists i :: 0 <= i < |init| && IsJson(init[i]) && init[i].content.Unreadable? {
        var i :| 0 <= i < |init| && IsJson(init[i]) && init[i].content.Unreadable?;
        assert files[i] == init[i];
      }
      if exists i :: 0 <= i < |files| && IsJson(files[i]) && files[i].content.Unreadable? {
        var i :| 0 <= i < |files| && IsJson(files[i]) && files[i].content.Unreadable?;
        if i < |init| { assert init[i] == files[i]; }
      }
    }
  }

  /** The entry is a .json file whose content holds v. */
  predicate Gives<T(==)>(f: File<T>, v: T) {
    IsJson(f) && v in Contribution(f.content)
  }

  /** A record is read exactly when some .json entry contributes it. */
  lemma {:induction false} FlattenedMembers<T>(files: seq<File<T>>, v: T)
    requires Flattened(files).Ok?
    ensures v in Flattened(files).value <==> exists i :: 0 <= i < |files| && Gives(files[i], v)
  {
    if files != [] {
      var n := |files| - 1;
      var init := files[..n];
      FlattenedMembers(init, v);
      assert v in Flattened(files).value <==> v in Flattened(init).value || Gives(files[n], v);
      if exists i :: 0 <= i < n && Gives(init[i], v) {
        var i :| 0 <= i < n && Gives(init[i], v);
        assert files[i] == init[i];
      }
      if exists i :: 0 <= i < |files| && Gives(files[i], v) {
        var i :| 0 <= i < |files| && Gives(files[i], v);
        if i < n { assert init[i] == files[i]; }
      }
    }
  }

  /** An array file contributes all its elements, a single-record file itself, and a
      file without the .json suffix nothing. */
  lemma ArrayFileSpreads<T>(x: T, y: T)
    ensures Flattened([File("all.json", Many([x, y]))]) == Ok([x, y])
    ensures Flattened([File("a.json", One(x)), File("b.txt", One(y))]) == Ok([x])
  {
    var all := File("all.json", Many([x, y]));
    var a := File("a.json", One(x));
    var b := File("b.txt", One(y));
    assert IsJson(all) && IsJson(a) && !IsJson(b);
    var one := [all];
    assert one[..0] == [] && one[|one| - 1] == all;
    assert [] + [x, y] == [x, y];
    assert Flattened(one) == Ok([x, y]);
    var two := [a, b];
    assert two[..1] == [a] && two[..1][..0] == [] && two[..1][0] == a && two[1] == b;
    assert [] + [x] == [x];
    assert Flattened(two[..1]) == Ok([x]);
    assert Flattened(two) == Ok([x]);
  }

  /** The first .json file with the name. */
  function FileNamed<T>(files: seq<File<T>>, name: string): (r: Option<File<T>>)
    ensures r.Some? ==> r.value in files && r.value.name == name
    ensures r.None? ==> forall i :: 0 <= i < |files| ==> files[i].name != name
  {
    if files == [] then None
    else if files[0].name == name then Some(files[0])
    else FileNamed(files[1..], name)
  }

  /** getEmployeeTransactions' and getClientTransactions' read of the owner's file:
      None when the directory or the file is missing; only an array is a ledger, a
      single object or text that does not parse fails. */
  function LedgerFile<T>(folder: Folder<T>, ownerId: string): (r: Result<Option<seq<T>>>)
    ensures r.Err? ==> r == Err(Internal)
  {
    match folder
    case Absent => Ok(None)
    case Inaccessible => Err(Internal)
    case Present(files) =>
      match FileNamed(files, JsonStore.FileName(ownerId))
      case None => Ok(None)
      case Some(f) => if f.content.Many? then Ok(Some(f.content.values)) else Err(Internal)
  }

  /** The owner's ledger as the getter returns it, newest first. */
  function LedgerNewestFirst<T>(folder: Folder<T>, ownerId: string, key: T -> string): Result<Option<seq<T>>> {
    match LedgerFile(folder, ownerId)
    case Ok(Some(txs)) => Ok(Some(SortDescText(txs, key)))
    case Ok(None) => Ok(None)
    case Err(e) => Err(e)
  }

  function EmployeeTxDate(t: EmployeeTransaction): string { t.date }
  function ClientTxDate(t: ClientTransaction): string { t.date }

  /** The configuration written when the file is missing. */
  function EmptyConfig(): RetailPriceConfig {
    RetailPriceConfig(Items([]), Items([]), Some(true), Some(1.2), Nil)
  }

  /** The defaults filled into a configuration read from the file. */
  function WithDefaults(c: RetailPriceConfig): (r: RetailPriceConfig)
    ensures r.allowCustomRetailServices == Some(c.allowCustomRetailServices.GetOr(true))
    ensures r.cardAcquiringPercentage == Some(c.cardAcquiringPercentage.GetOr(1.2))
    ensures r.(allowCustomRetailServices := c.allowCustomRetailServices,
               cardAcquiringPercentage := c.cardAcquiringPercentage) == c
  {
    c.(allowCustomRetailServices := Some(c.allowCustomRetailServices.GetOr(true)),
       cardAcquiringPercentage := Some(c.cardAcquiringPercentage.GetOr(1.2)))
  }

  /** getRetailPriceConfig's read: a missing file gives the empty configuration. */
  function ConfigRead(slot: JsonStore.Slot<RetailPriceConfig>): Result<RetailPriceConfig> {
    match slot
    case Absent => Ok(EmptyConfig())
    case Corrupt => Err(Internal)
    case Stored(c) => Ok(WithDefaults(c))
  }

  /** The files the getters create on a miss read back as what the miss returned, and
      filling in defaults twice is filling them in once. */
  lemma CreatedFilesReadAlike(c: RetailPriceConfig)
    ensures ConfigRead(JsonStore.Stored(EmptyConfig())) == ConfigRead(JsonStore.Absent)
    ensures JsonStore.ReadInventory(JsonStore.Stored(Inventory(0.0))) == JsonStore.ReadInventory(JsonStore.Absent)
    ensures WithDefaults(WithDefaults(c)) == WithDefaults(c)
  {
  }

  /** readDataFromDirectory: a missing directory is created and has no records. */
  method ReadDataFromDirectory<T>(folder: Folder<T>) returns (r: Result<seq<T>>, after: Folder<T>)
    ensures r == Listing(folder) && after == Created(folder)
  {
    after := Created(folder);
    if folder.Absent? {
      return Ok([]), after;
    }
    if folder.Inaccessible? {
      return Err(Internal), after;
    }
    var files := folder.files;
    var dataList: seq<T> := [];
    for i := 0 to |files|
      invariant Flattened(files[..i]) == Ok(dataList)
    {
      assert files[..i + 1][..i] == files[..i];
      var f := files[i];
      if IsJson(f) {
        if f.content.Unreadable? {
          FlattenedFailsOn(files, i + 1);
          return Err(Internal), after;
        }
        dataList := dataList + Contribution(f.content);
      }
    }
    assert files[..|files|] == files;
    return Ok(dataList), after;
  }

  /** A failure in a prefix is a failure of the whole read. */
  lemma {:induction false} FlattenedFailsOn<T>(files: seq<File<T>>, n: nat)
    requires n <= |files| && Flattened(files[..n]).Err?
    ensures Flattened(files) == Err(Internal)
    decreases |files| - n
  {
    if n < |files| {
      assert files[..n + 1][..n] == files[..n];
      FlattenedFailsOn(files, n + 1);
    } else {
      assert files[..n] == files;
    }
  }

  /** The first record with the id: Array.find, with undefined read as null. */
  function FirstWithId<T>(xs: seq<T>, id: string, idOf: T -> string): (r: Option<T>)
    ensures r.Some? ==> r.value in xs && idOf(r.value) == id
  {
    if xs == [] then None
    else if idOf(xs[0]) == id then Some(xs[0])
    else FirstWithId(xs[1..], id, idOf)
  }

  /** find returns null exactly when no record has the id, and otherwise the record at
      the first position that has it. */
  lemma {:induction false} FirstWithIdSpec<T>(xs: seq<T>, id: string, idOf: T -> string)
    ensures FirstWithId(xs, id, idOf).None? <==> forall i :: 0 <= i < |xs| ==> idOf(xs[i]) != id
    ensures FirstWithId(xs, id, idOf).Some? ==>
              exists k :: 0 <= k < |xs| && xs[k] == FirstWithId(xs, id, idOf).value
                          && forall j :: 0 <= j < k ==> idOf(xs[j]) != id
  {
    if xs != [] && idOf(xs[0]) != id {
      FirstWithIdSpec(xs[1..], id, idOf);
      var r := FirstWithId(xs[1..], id, idOf);
      if r.Some? {
        var k :| 0 <= k < |xs[1..]| && xs[1..][k] == r.value && forall j :: 0 <= j < k ==> idOf(xs[1..][j]) != id;
        assert xs[k + 1] == r.value;
        forall j | 0 <= j < k + 1 ensures idOf(xs[j]) != id {
          if j > 0 { assert xs[j] == xs[1..][j - 1]; }
        }
      } else {
        forall i | 0 <= i < |xs| ensures idOf(xs[i]) != id {
          if i > 0 { assert xs[i] == xs[1..][i - 1]; }
        }
      }
    } else if xs != [] {
      assert xs[0] == FirstWithId(xs, id, idOf).value;
    }
  }

  /** The lookup result for a listing: the listing's error, or its first match. */
  function Lookup<T>(listing: Result<seq<T>>, id: string, idOf: T -> string): Result<Option<T>> {
    match listing
    case Ok(xs) => Ok(FirstWithId(xs, id, idOf))
    case Err(e) => Err(e)
  }

  /** Every cached ledger is the owner's file, sorted. */
  ghost predicate LedgersAgree<T>(folder: Folder<T>, cached: map<string, seq<T>>, key: T -> string) {
    forall id :: id in cached ==> LedgerNewestFirst(folder, id, key) == Ok(Some(cached[id]))
  }

  /** Rewriting one owner's file and dropping that owner's key keeps the other cached
      ledgers right. */
  lemma LedgerRewriteThenDrop<T>(before: Folder<T>, after: Folder<T>, cached: map<string, seq<T>>, ownerId: string, key: T -> string)
    requires LedgersAgree(before, cached, key)
    requires forall other :: other != ownerId ==> LedgerFile(after, other) == LedgerFile(before, other)
    ensures LedgersAgree(after, cached - {ownerId}, key)
  {
    forall id | id in cached - {ownerId}
      ensures LedgerNewestFirst(after, id, key) == Ok(Some((cached - {ownerId})[id]))
    {
      assert LedgerFile(after, id) == LedgerFile(before, id);
    }
  }

  /** Without the drop, a cached ledger can outlive the file it was read from. */
  lemma LedgerRewriteWithoutDropIsStale(t: EmployeeTransaction)
    ensures var before := Present([File("emp_1.json", Many([t]))]);
      var after := Present([File("emp_1.json", Many([]))]);
      LedgersAgree(before, map["emp_1" := [t]], EmployeeTxDate)
      && !LedgersAgree(after, map["emp_1" := [t]], EmployeeTxDate)
  {
    var before: Folder<EmployeeTransaction> := Present([File("emp_1.json", Many([t]))]);
    var after: Folder<EmployeeTransaction> := Present([File("emp_1.json", Many([]))]);
    assert JsonStore.FileName("emp_1") == "emp_1.json";
    assert LedgerFile(before, "emp_1") == Ok(Some([t]));
    assert SortDescText([t], EmployeeTxDate) == [t];
    assert LedgerNewestFirst(before, "emp_1", EmployeeTxDate) == Ok(Some([t]));
    assert LedgerNewestFirst(after, "emp_1", EmployeeTxDate) == Ok(Some([]));
  }

  // ---------------------------------------------------------------- the files and the caches

  /** The data directory the loader reads. */
  class DataDir {
    var washEvents: Folder<WashEvent>
    var aggregators: Folder<Aggregator>
    var counterAgents: Folder<CounterAgent>
    var employees: Folder<Employee>
    var salarySchemes: Folder<SalaryScheme>
    var expenses: Folder<Expense>
    var employeeTransactions: Folder<EmployeeTransaction>
    var clientTransactions: Folder<ClientTransaction>
    var retailConfig: JsonStore.Slot<RetailPriceConfig>
    var inventory: JsonStore.Slot<Inventory>
  }

  /** The module-level cache variables; None is null. */
  class Loader {
    var washEvents: Option<seq<WashEvent>>
    var aggregators: Option<seq<Aggregator>>
    var counterAgents: Option<seq<CounterAgent>>
    var employees: Option<seq<Employee>>
    var salarySchemes: Option<seq<SalaryScheme>>
    var retailConfig: Option<RetailPriceConfig>
    var expenses: Option<seq<Expense>>
    var inventory: Option<Inventory>
    var employeeTransactions: map<string, seq<EmployeeTransaction>>
    var allEmployeeTransactions: Option<seq<EmployeeTransaction>>
    var clientTransactions: map<string, seq<ClientTransaction>>

    /** A freshly loaded module: every cache null, both maps empty. */
    constructor ()
      ensures washEvents == None && aggregators == None && counterAgents == None
      ensures employees == None && salarySchemes == None && retailConfig == None
      ensures expenses == None && inventory == None && allEmployeeTransactions == None
      ensures employeeTransactions == map[] && clientTransactions == map[]
    {
      washEvents, aggregators, counterAgents := None, None, None;
      employees, salarySchemes, retailConfig := None, None, None;
      expenses, inventory, allEmployeeTransactions := None, None, None;
      employeeTransactions, clientTransactions := map[], map[];
    }

    // ---- what a filled cache holds: what reading the files now would give

    ghost predicate WashEventsAgree(disk: DataDir)
      reads this`washEvents, disk`washEvents
    {
      washEvents.Some? ==> ListingNewestFirst(disk.washEvents, JsonStore.Timestamp) == Ok(washEvents.value)
    }

    ghost predicate AggregatorsAgree(disk: DataDir)
      reads this`aggregators, disk`aggregators
    {
      aggregators.Some? ==> Listing(disk.aggregators) == Ok(aggregators.value)
    }

    ghost predicate CounterAgentsAgree(disk: DataDir)
      reads this`counterAgents, disk`counterAgents
    {
      counterAgents.Some? ==> Listing(disk.counterAgents) == Ok(counterAgents.value)
    }

    ghost predicate EmployeesAgree(disk: DataDir)
      reads this`employees, disk`employees
    {
      employees.Some? ==> Listing(disk.employees) == Ok(employees.value)
    }

    ghost predicate SalarySchemesAgree(disk: DataDir)
      reads this`salarySchemes, disk`salarySchemes
    {
      salarySchemes.Some? ==> Listing(disk.salarySchemes) == Ok(salarySchemes.value)
    }

    ghost predicate ExpensesAgree(disk: DataDir)
      reads this`expenses, disk`expenses
    {
      expenses.Some? ==> ListingNewestFirst(disk.expenses, JsonStore.Date) == Ok(expenses.value)
    }

    ghost predicate EmployeeTransactionsAgree(disk: DataDir)
      reads this`employeeTransactions, this`allEmployeeTransactions, disk`employeeTransactions
    {
      LedgersAgree(disk.employeeTransactions, employeeTransactions, EmployeeTxDate)
      && (allEmployeeTransactions.Some? ==>
            ListingNewestFirst(disk.employeeTransactions, EmployeeTxDate) == Ok(allEmployeeTransactions.value))
    }

    ghost predicate ClientTransactionsAgree(disk: DataDir)
      reads this`clientTransactions, disk`clientTransactions
    {
      LedgersAgree(disk.clientTransactions, clientTransactions, ClientTxDate)
    }

    ghost predicate RetailConfigAgrees(disk: DataDir)
      reads this`retailConfig, disk`retailConfig
    {
      retailConfig.Some? ==> ConfigRead(disk.retailConfig) == Ok(retailConfig.value)
    }

    ghost predicate InventoryAgrees(disk: DataDir)
      reads this`inventory, disk`inventory
    {
      inventory.Some? ==> JsonStore.ReadInventory(disk.inventory) == Ok(inventory.value)
    }

    // ---- invalidation

    method InvalidateWashEventsCache()
      modifies this`washEvents
      ensures washEvents == None
    {
      washEvents := None;
    }

    method InvalidateAggregatorsCache()
      modifies this`aggregators
      ensures aggregators == None
    {
      aggregators := None;
    }

    method InvalidateCounterAgentsCache()
      modifies this`counterAgents
      ensures counterAgents == None
    {
      counterAgents := None;
    }

    method InvalidateEmployeesCache()
      modifies this`employees
      ensures employees == None
    {
      employees := None;
    }

    method InvalidateSalarySchemesCache()
      modifies this`salarySchemes
      ensures salarySchemes == None
    {
      salarySchemes := None;
    }

    method InvalidateRetailPriceConfigCache()
      modifies this`retailConfig
      ensures retailConfig == None
    {
      retailConfig := None;
    }

    method InvalidateExpensesCache()
      modifies this`expenses
      ensures expenses == None
    {
      expenses := None;
    }

    method InvalidateInventoryCache()
      modifies this`inventory
      ensures inventory == None
    {
      inventory := None;
    }

    /** Only that employee's key goes, together with the all-transactions snapshot,
        which reads the same files: after a write to that one ledger file the caches
        agree with the files again. */
    method InvalidateEmployeeTransactionsCache(employeeId: string, ghost before: Folder<EmployeeTransaction>, disk: DataDir)
      requires LedgersAgree(before, employeeTransactions, EmployeeTxDate)
      requires forall other :: other != employeeId ==>
                 LedgerFile(disk.employeeTransactions, other) == LedgerFile(before, other)
      modifies this`employeeTransactions, this`allEmployeeTransactions
      ensures employeeTransactions == old(employeeTransactions) - {employeeId}
      ensures allEmployeeTransactions == None
      ensures EmployeeTransactionsAgree(disk)
    {
      LedgerRewriteThenDrop(before, disk.employeeTransactions, employeeTransactions, employeeId, EmployeeTxDate);
      employeeTransactions := employeeTransactions - {employeeId};
      allEmployeeTransactions := None;
    }

    /** Every ledger key and the snapshot dropped: the caches agree with any files. */
    method InvalidateAllEmployeeTransactionsCache(disk: DataDir)
      modifies this`employeeTransactions, this`allEmployeeTransactions
      ensures employeeTransactions == map[] && allEmployeeTransactions == None
      ensures EmployeeTransactionsAgree(disk)
    {
      allEmployeeTransactions := None;
      employeeTransactions := map[];
    }

    /** Only that client's key goes. */
    method InvalidateClientTransactionsCache(clientId: string, ghost before: Folder<ClientTransaction>, disk: DataDir)
      requires LedgersAgree(before, clientTransactions, ClientTxDate)
      requires forall other :: other != clientId ==>
                 LedgerFile(disk.clientTransactions, other) == LedgerFile(before, other)
      modifies this`clientTransactions
      ensures clientTransactions == old(clientTransactions) - {clientId}
      ensures ClientTransactionsAgree(disk)
    {
      LedgerRewriteThenDrop(before, disk.clientTransactions, clientTransactions, clientId, ClientTxDate);
      clientTransactions := clientTransactions - {clientId};
    }

    // ---- the list getters: the cache when filled, else the directory read (and sorted)

    method GetWashEventsData(disk: DataDir) returns (r: Result<seq<WashEvent>>)
      requires WashEventsAgree(disk)
      modifies this`washEvents, disk`washEvents
      ensures WashEventsAgree(disk)
      ensures r == ListingNewestFirst(old(disk.washEvents), JsonStore.Timestamp)
      ensures old(washEvents).Some? ==> washEvents == old(washEvents) && disk.washEvents == old(disk.washEvents)
      ensures old(washEvents).None? ==> disk.washEvents == Created(old(disk.washEvents))
      ensures r.Ok? ==> washEvents == Some(r.value)
      ensures r.Err? ==> washEvents == old(washEvents)
    {
      if washEvents.Some? {
        return Ok(washEvents.value);
      }
      var events, after := ReadDataFromDirectory(disk.washEvents);
      disk.washEvents := after;
      if events.Err? {
        return Err(events.error);
      }
      var sorted := SortDescText(events.value, JsonStore.Timestamp);
      washEvents := Some(sorted);
      return Ok(sorted);
    }

    method GetAggregatorsData(disk: DataDir) returns (r: Result<seq<Aggregator>>)
      requires AggregatorsAgree(disk)
      modifies this`aggregators, disk`aggregators
      ensures AggregatorsAgree(disk)
      ensures r == Listing(old(disk.aggregators))
      ensures old(aggregators).Some? ==> aggregators == old(aggregators) && disk.aggregators == old(disk.aggregators)
      ensures old(aggregators).None? ==> disk.aggregators == Created(old(disk.aggregators))
      ensures r.Ok? ==> aggregators == Some(r.value)
      ensures r.Err? ==> aggregators == old(aggregators)
    {
      if aggregators.Some? {
        return Ok(aggregators.value);
      }
      var read, after := ReadDataFromDirectory(disk.aggregators);
      disk.aggregators := after;
      if read.Ok? {
        aggregators := Some(read.value);
      }
      return read;
    }

    method GetCounterAgentsData(disk: DataDir) returns (r: Result<seq<CounterAgent>>)
      requires CounterAgentsAgree(disk)
      modifies this`counterAgents, disk`counterAgents
      ensures CounterAgentsAgree(disk)
      ensures r == Listing(old(disk.counterAgents))
      ensures old(counterAgents).Some? ==> counterAgents == old(counterAgents) && disk.counterAgents == old(disk.counterAgents)
      ensures old(counterAgents).None? ==> disk.counterAgents == Created(old(disk.counterAgents))
      ensures r.Ok? ==> counterAgents == Some(r.value)
      ensures r.Err? ==> counterAgents == old(counterAgents)
    {
      if counterAgents.Some? {
        return Ok(counterAgents.value);
      }
      var read, after := ReadDataFromDirectory(disk.counterAgents);
      disk.counterAgents := after;
      if read.Ok? {
        counterAgents := Some(read.value);
      }
      return read;
    }

    method GetEmployeesData(disk: DataDir) returns (r: Result<seq<Employee>>)
      requires EmployeesAgree(disk)
      modifies this`employees, disk`employees
      ensures EmployeesAgree(disk)
      ensures r == Listing(old(disk.employees))
      ensures old(employees).Some? ==> employees == old(employees) && disk.employees == old(disk.employees)
      ensures old(employees).None? ==> disk.employees == Created(old(disk.employees))
      ensures r.Ok? ==> employees == Some(r.value)
      ensures r.Err? ==> employees == old(employees)
    {
      if employees.Some? {
        return Ok(employees.value);
      }
      var read, after := ReadDataFromDirectory(disk.employees);
      disk.employees := after;
      if read.Ok? {
        employees := Some(read.value);
      }
      return read;
    }

    method GetSalarySchemesData(disk: DataDir) returns (r: Result<seq<SalaryScheme>>)
      requires SalarySchemesAgree(disk)
      modifies this`salarySchemes, disk`salarySchemes
      ensures SalarySchemesAgree(disk)
      ensures r == Listing(old(disk.salarySchemes))
      ensures old(salarySchemes).Some? ==> salarySchemes == old(salarySchemes) && disk.salarySchemes == old(disk.salarySchemes)
      ensures old(salarySchemes).None? ==> disk.salarySchemes == Created(old(disk.salarySchemes))
      ensures r.Ok? ==> salarySchemes == Some(r.value)
      ensures r.Err? ==> salarySchemes == old(salarySchemes)
    {
      if salarySchemes.Some? {
        return Ok(salarySchemes.value);
      }
      var read, after := ReadDataFromDirectory(disk.salarySchemes);
      disk.salarySchemes := after;
      if read.Ok? {
        salarySchemes := Some(read.value);
      }
      return read;
    }

    method GetExpensesData(disk: DataDir) returns (r: Result<seq<Expense>>)
      requires ExpensesAgree(disk)
      modifies this`expenses, disk`expenses
      ensures ExpensesAgree(disk)
      ensures r == ListingNewestFirst(old(disk.expenses), JsonStore.Date)
      ensures old(expenses).Some? ==> expenses == old(expenses) && disk.expenses == old(disk.expenses)
      ensures old(expenses).None? ==> disk.expenses == Created(old(disk.expenses))
      ensures r.Ok? ==> expenses == Some(r.value)
      ensures r.Err? ==> expenses == old(expenses)
    {
      if expenses.Some? {
        return Ok(expenses.value);
      }
      var read, after := ReadDataFromDirectory(disk.expenses);
      disk.expenses := after;
      if read.Err? {
        return Err(read.error);
      }
      var sorted := SortDescText(read.value, JsonStore.Date);
      expenses := Some(sorted);
      return Ok(sorted);
    }

    /** Every employee's ledger file flattened into one list, newest first. */
    method GetAllEmployeeTransactions(disk: DataDir) returns (r: Result<seq<EmployeeTransaction>>)
      requires EmployeeTransactionsAgree(disk)
      modifies this`allEmployeeTransactions, disk`employeeTransactions
      ensures EmployeeTransactionsAgree(disk)
      ensures r == ListingNewestFirst(old(disk.employeeTransactions), EmployeeTxDate)
      ensures old(allEmployeeTransactions).Some? ==>
                allEmployeeTransactions == old(allEmployeeTransactions) && disk.employeeTransactions == old(disk.employeeTransactions)
      ensures old(allEmployeeTransactions).None? ==> disk.employeeTransactions == Created(old(disk.employeeTransactions))
      ensures r.Ok? ==> allEmployeeTransactions == Some(r.value)
      ensures r.Err? ==> allEmployeeTransactions == old(allEmployeeTransactions)
    {
      if allEmployeeTransactions.Some? {
        return Ok(allEmployeeTransactions.value);
      }
      var read, after := ReadDataFromDirectory(disk.employeeTransactions);
      CreatedKeepsLedgers(disk.employeeTransactions, employeeTransactions, EmployeeTxDate);
      disk.employeeTransactions := after;
      if read.Err? {
        return Err(read.error);
      }
      var sorted := SortDescText(read.value, EmployeeTxDate);
      allEmployeeTransactions := Some(sorted);
      return Ok(sorted);
    }

    // ---- the per-owner ledger getters: a missing file is [] and is not cached

    method GetEmployeeTransactions(disk: DataDir, employeeId: string) returns (r: Result<seq<EmployeeTransaction>>)
      requires EmployeeTransactionsAgree(disk)
      modifies this`employeeTransactions, disk`employeeTransactions
      ensures EmployeeTransactionsAgree(disk)
      ensures var read := LedgerNewestFirst(old(disk.employeeTransactions), employeeId, EmployeeTxDate);
        r == (if read.Err? then Err(read.error) else Ok(read.value.GetOr([])))
      ensures employeeId in old(employeeTransactions) ==>
                employeeTransactions == old(employeeTransactions) && disk.employeeTransactions == old(disk.employeeTransactions)
      ensures employeeId !in old(employeeTransactions) ==>
                var read := LedgerNewestFirst(old(disk.employeeTransactions), employeeId, EmployeeTxDate);
                disk.employeeTransactions == Created(old(disk.employeeTransactions))
                && employeeTransactions == (if read.Ok? && read.value.Some?
                                            then old(employeeTransactions)[employeeId := read.value.value]
                                            else old(employeeTransactions))
    {
      if employeeId in employeeTransactions {
        return Ok(employeeTransactions[employeeId]);
      }
      var read := LedgerFile(disk.employeeTransactions, employeeId);
      CreatedKeepsLedgers(disk.employeeTransactions, employeeTransactions, EmployeeTxDate);
      disk.employeeTransactions := Created(disk.employeeTransactions);
      if read.Err? {
        return Err(read.error);
      }
      if read.value.None? {
        return Ok([]);
      }
      var sorted := SortDescText(read.value.value, EmployeeTxDate);
      employeeTransactions := employeeTransactions[employeeId := sorted];
      return Ok(sorted);
    }

    method GetClientTransactions(disk: DataDir, clientId: string) returns (r: Result<seq<ClientTransaction>>)
      requires ClientTransactionsAgree(disk)
      modifies this`clientTransactions, disk`clientTransactions
      ensures ClientTransactionsAgree(disk)
      ensures var read := LedgerNewestFirst(old(disk.clientTransactions), clientId, ClientTxDate);
        r == (if read.Err? then Err(read.error) else Ok(read.value.GetOr([])))
      ensures clientId in old(clientTransactions) ==>
                clientTransactions == old(clientTransactions) && disk.clientTransactions == old(disk.clientTransactions)
      ensures clientId !in old(clientTransactions) ==>
                var read := LedgerNewestFirst(old(disk.clientTransactions), clientId, ClientTxDate);
                disk.clientTransactions == Created(old(disk.clientTransactions))
                && clientTransactions == (if read.Ok? && read.value.Some?
                                          then old(clientTransactions)[clientId := read.value.value]
                                          else old(clientTransactions))
    {
      if clientId in clientTransactions {
        return Ok(clientTransactions[clientId]);
      }
      var read := LedgerFile(disk.clientTransactions, clientId);
      CreatedKeepsLedgers(disk.clientTransactions, clientTransactions, ClientTxDate);
      disk.clientTransactions := Created(disk.clientTransactions);
      if read.Err? {
        return Err(read.error);
      }
      if read.value.None? {
        return Ok([]);
      }
      var sorted := SortDescText(read.value.value, ClientTxDate);
      clientTransactions := clientTransactions[clientId := sorted];
      return Ok(sorted);
    }

    // ---- lookups by id, through the list caches

    method GetEmployeeById(disk: DataDir, id: string) returns (r: Result<Option<Employee>>)
      requires EmployeesAgree(disk)
      modifies this`employees, disk`employees
      ensures EmployeesAgree(disk)
      ensures r == Lookup(Listing(old(disk.employees)), id, EmployeeId)
    {
      var all := GetEmployeesData(disk);
      if all.Err? {
        return Err(all.error);
      }
      return Ok(FirstWithId(all.value, id, EmployeeId));
    }

    method GetCounterAgentById(disk: DataDir, id: string) returns (r: Result<Option<CounterAgent>>)
      requires CounterAgentsAgree(disk)
      modifies this`counterAgents, disk`counterAgents
      ensures CounterAgentsAgree(disk)
      ensures r == Lookup(Listing(old(disk.counterAgents)), id, CounterAgentId)
    {
      var all := GetCounterAgentsData(disk);
      if all.Err? {
        return Err(all.error);
      }
      return Ok(FirstWithId(all.value, id, CounterAgentId));
    }

    method GetAggregatorById(disk: DataDir, id: string) returns (r: Result<Option<Aggregator>>)
      requires AggregatorsAgree(disk)
      modifies this`aggregators, disk`aggregators
      ensures AggregatorsAgree(disk)
      ensures r == Lookup(Listing(old(disk.aggregators)), id, AggregatorId)
    {
      var all := GetAggregatorsData(disk);
      if all.Err? {
        return Err(all.error);
      }
      return Ok(FirstWithId(all.value, id, AggregatorId));
    }

    method GetExpenseById(disk: DataDir, id: string) returns (r: Result<Option<Expense>>)
      requires ExpensesAgree(disk)
      modifies this`expenses, disk`expenses
      ensures ExpensesAgree(disk)
      ensures r == Lookup(ListingNewestFirst(old(disk.expenses), JsonStore.Date), id, ExpenseId)
    {
      var all := GetExpensesData(disk);
      if all.Err? {
        return Err(all.error);
      }
      return Ok(FirstWithId(all.value, id, ExpenseId));
    }

    method GetWashEventById(disk: DataDir, id: string) returns (r: Result<Option<WashEvent>>)
      requires WashEventsAgree(disk)
      modifies this`washEvents, disk`washEvents
      ensures WashEventsAgree(disk)
      ensures r == Lookup(ListingNewestFirst(old(disk.washEvents), JsonStore.Timestamp), id, WashEventId)
    {
      var all := GetWashEventsData(disk);
      if all.Err? {
        return Err(all.error);
      }
      return Ok(FirstWithId(all.value, id, WashEventId));
    }

    method GetSalarySchemeById(disk: DataDir, id: string) returns (r: Result<Option<SalaryScheme>>)
      requires SalarySchemesAgree(disk)
      modifies this`salarySchemes, disk`salarySchemes
      ensures SalarySchemesAgree(disk)
      ensures r == Lookup(Listing(old(disk.salarySchemes)), id, SchemeId)
    {
      var all := GetSalarySchemesData(disk);
      if all.Err? {
        return Err(all.error);
      }
      return Ok(FirstWithId(all.value, id, SchemeId));
    }

    // ---- the single-file settings

    /** The cached configuration, else the file's with defaults filled in; a missing
        file is created holding the empty configuration. */
    method GetRetailPriceConfig(disk: DataDir) returns (r: Result<RetailPriceConfig>)
      requires RetailConfigAgrees(disk)
      modifies this`retailConfig, disk`retailConfig
      ensures RetailConfigAgrees(disk)
      ensures r == ConfigRead(old(disk.retailConfig))
      ensures old(retailConfig).Some? ==> retailConfig == old(retailConfig) && disk.retailConfig == old(disk.retailConfig)
      ensures old(retailConfig).None? ==>
                disk.retailConfig == (if old(disk.retailConfig).Absent? then JsonStore.Stored(EmptyConfig()) else old(disk.retailConfig))
      ensures r.Ok? ==> retailConfig == Some(r.value)
      ensures r.Err? ==> retailConfig == old(retailConfig)
    {
      if retailConfig.Some? {
        return Ok(retailConfig.value);
      }
      match disk.retailConfig
      case Absent =>
        var empty := EmptyConfig();
        disk.retailConfig := JsonStore.Stored(empty);
        retailConfig := Some(empty);
        return Ok(empty);
      case Corrupt =>
        return Err(Internal);
      case Stored(data) =>
        var filled := WithDefaults(data);
        retailConfig := Some(filled);
        return Ok(filled);
    }

    /** The cached counter, else the file's; a missing file is created holding 0 grams. */
    method GetInventory(disk: DataDir) returns (r: Result<Inventory>)
      requires InventoryAgrees(disk)
      modifies this`inventory, disk`inventory
      ensures InventoryAgrees(disk)
      ensures r == JsonStore.ReadInventory(old(disk.inventory))
      ensures old(inventory).Some? ==> inventory == old(inventory) && disk.inventory == old(disk.inventory)
      ensures old(inventory).None? ==>
                disk.inventory == (if old(disk.inventory).Absent? then JsonStore.Stored(Inventory(0.0)) else old(disk.inventory))
      ensures r.Ok? ==> inventory == Some(r.value)
      ensures r.Err? ==> inventory == old(inventory)
    {
      if inventory.Some? {
        return Ok(inventory.value);
      }
      match disk.inventory
      case Absent =>
        var empty := Inventory(0.0);
        disk.inventory := JsonStore.Stored(empty);
        inventory := Some(empty);
        return Ok(empty);
      case Corrupt =>
        return Err(Internal);
      case Stored(data) =>
        inventory := Some(data);
        return Ok(data);
    }
  }

  /** Creating a missing directory changes no ledger read. */
  lemma CreatedKeepsLedgers<T>(folder: Folder<T>, cached: map<string, seq<T>>, key: T -> string)
    ensures forall id :: LedgerFile(Created(folder), id) == LedgerFile(folder, id)
    ensures LedgersAgree(folder, cached, key) ==> LedgersAgree(Created(folder), cached, key)
  {
  }
}
