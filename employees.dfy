/** The employee handlers: records are handed out without their password, an update
    merges the body into the stored record, and each employee has a ledger of
    transactions that can be appended to and deleted from. */
module Employees {
  import opened Wrappers
  import opened Models
  import opened Text
  import opened JsonStore
  import opened Caching
  import opened Handling

  // ---------------------------------------------------------------- records

  /** Update's merge: the id and, when the body leaves them empty, the username and
      the password are kept; every other field is taken from the body, empty or not. */
  function Merged(existing: Employee, updates: Employee): (e: Employee)
    ensures e.id == existing.id
    ensures e.fullName == updates.fullName && e.phone == updates.phone
    ensures e.paymentDetails == updates.paymentDetails && e.hasCar == updates.hasCar
    ensures e.salarySchemeId == updates.salarySchemeId
    ensures e.username == if updates.username != "" then updates.username else existing.username
    ensures e.password == if updates.password != "" then updates.password else existing.password
  {
    var e := existing.(fullName := updates.fullName, phone := updates.phone,
                       paymentDetails := updates.paymentDetails, hasCar := updates.hasCar,
                       salarySchemeId := updates.salarySchemeId);
    var e := if updates.username != "" then e.(username := updates.username) else e;
    if updates.password != "" then e.(password := updates.password) else e
  }

  /** Sending the same body twice is sending it once. */
  lemma MergedIdempotent(existing: Employee, updates: Employee)
    ensures Merged(Merged(existing, updates), updates) == Merged(existing, updates)
  {
  }

  /** A body carrying every field of a record with the same id turns any stored record
      into that record. */
  lemma MergedFullBody(existing: Employee, updates: Employee)
    requires updates.id == existing.id && updates.username != "" && updates.password != ""
    ensures Merged(existing, updates) == updates
  {
  }

  /** A body that leaves the salary scheme empty clears it, while an empty password
      keeps the stored one. */
  lemma MergedClearsScheme()
    ensures var stored := Employee("emp_1", "Иван", "+7", "", true, "ivan", "secret", "scheme_1");
      var body := Employee("", "Иван", "+7", "", true, "", "", "");
      Merged(stored, body) == Employee("emp_1", "Иван", "+7", "", true, "ivan", "secret", "")
  {
  }

  /** GetAll's loop: every employee, in order, without the password. */
  method StripPasswords(employees: seq<Employee>) returns (result: seq<EmployeeWithoutPassword>)
    ensures |result| == |employees|
    ensures forall i :: 0 <= i < |employees| ==> result[i] == WithoutPassword(employees[i])
  {
    result := [];
    for i := 0 to |employees|
      invariant |result| == i
      invariant forall j :: 0 <= j < i ==> result[j] == WithoutPassword(employees[j])
    {
      result := result + [WithoutPassword(employees[i])];
    }
  }

  // ---------------------------------------------------------------- read-through

  /** getEmployees: the cached snapshot when loaded, else a fresh listing, which is
      then cached. */
  method GetEmployees(store: Store, cache: Cache) returns (r: Result<seq<Employee>>)
    requires EmployeesCoherent(store, cache)
    modifies cache`employees, cache`employeesLoaded
    ensures EmployeesCoherent(store, cache)
    ensures r == ListAll(store.employees, "emp_")
    ensures old(cache.employeesLoaded) ==> unchanged(cache)
    ensures r.Ok? ==> cache.employeesLoaded && cache.employees == r.value
    ensures r.Err? ==> unchanged(cache)
  {
    var cached, ok := cache.GetEmployees();
    if ok {
      return Ok(cached);
    }
    r := store.GetAllEmployees();
    if r.Err? {
      return;
    }
    cache.SetEmployees(r.value);
  }

  // ---------------------------------------------------------------- handlers

  /** The employee saved and, when that succeeded, the cached list dropped. */
  method SaveAndInvalidate(store: Store, cache: Cache, e: Employee) returns (r: Outcome)
    requires store.Valid() && EmployeesCoherent(store, cache)
    modifies store`employees, cache`employees, cache`employeesLoaded
    ensures store.Valid() && EmployeesCoherent(store, cache)
    ensures var w := Write(old(store.employees), EmployeeFileName(e.id), e);
      if w.Ok? then r == Success && store.employees == w.value && !cache.employeesLoaded
      else r == Failure(w.error) && unchanged(store, cache)
  {
    r := store.SaveEmployee(e);
    if r.Success? {
      cache.InvalidateEmployees();
    }
  }

  /** GET /api/employees: every listed employee without the password; a failed listing
      is an internal error. */
  method GetAll(store: Store, cache: Cache) returns (r: Result<seq<EmployeeWithoutPassword>>)
    requires EmployeesCoherent(store, cache)
    modifies cache`employees, cache`employeesLoaded
    ensures EmployeesCoherent(store, cache)
    ensures var listing := ListAll(store.employees, "emp_");
      if listing.Err? then r == Err(Internal)
      else r.Ok? && |r.value| == |listing.value|
           && forall i :: 0 <= i < |r.value| ==> r.value[i] == WithoutPassword(listing.value[i])
  {
    var employees := GetEmployees(store, cache);
    if employees.Err? {
      return Err(Internal);
    }
    var result := StripPasswords(employees.value);
    return Ok(result);
  }

  /** POST /api/employees: saved under the given id or a generated "emp_" one; the
      answer leaves the password out. */
  method Create(store: Store, cache: Cache, emp: Employee, generated: string) returns (r: Result<EmployeeWithoutPassword>)
    requires store.Valid() && EmployeesCoherent(store, cache)
    modifies store`employees, cache`employees, cache`employeesLoaded
    ensures store.Valid() && EmployeesCoherent(store, cache)
    ensures var e := emp.(id := IdOrGenerated(emp.id, "emp_", generated));
      var w := Write(old(store.employees), EmployeeFileName(e.id), e);
      if w.Err? then r == Err(Internal) && unchanged(store, cache)
      else r == Ok(WithoutPassword(e)) && store.employees == w.value && !cache.employeesLoaded
  {
    var e := emp.(id := IdOrGenerated(emp.id, "emp_", generated));
    var saved := SaveAndInvalidate(store, cache, e);
    if saved.Failure? {
      return Err(Internal);
    }
    return Ok(WithoutPassword(e));
  }

  /** GET /api/employees/:id: straight from the store, without the password; any
      failure is NotFound. */
  method GetByID(store: Store, id: string) returns (r: Result<EmployeeWithoutPassword>)
    ensures var found := FindById(store.employees, id, EmployeeId);
      if found.Ok? then r == Ok(WithoutPassword(found.value)) else r == Err(NotFound)
  {
    var found := store.GetEmployeeByID(id);
    if found.Err? {
      return Err(NotFound);
    }
    return Ok(WithoutPassword(found.value));
  }

  /** PUT /api/employees/:id: the body merged into the stored record and saved. */
  method Update(store: Store, cache: Cache, id: string, updates: Employee) returns (r: Result<EmployeeWithoutPassword>)
    requires store.Valid() && EmployeesCoherent(store, cache)
    modifies store`employees, cache`employees, cache`employeesLoaded
    ensures store.Valid() && EmployeesCoherent(store, cache)
    ensures var existing := FindById(old(store.employees), id, EmployeeId);
      if existing.Err? then r == Err(NotFound) && unchanged(store, cache)
      else
        var e := Merged(existing.value, updates);
        var w := Write(old(store.employees), EmployeeFileName(id), e);
        if w.Err? then r == Err(Internal) && unchanged(store, cache)
        else r == Ok(WithoutPassword(e)) && store.employees == w.value && !cache.employeesLoaded
  {
    var existing := store.GetEmployeeByID(id);
    if existing.Err? {
      return Err(NotFound);
    }
    var e := Merged(existing.value, updates);
    var saved := SaveAndInvalidate(store, cache, e);
    if saved.Failure? {
      return Err(Internal);
    }
    return Ok(WithoutPassword(e));
  }

  /** DELETE /api/employees/:id: any failure to delete is NotFound. */
  method Delete(store: Store, cache: Cache, id: string) returns (r: Outcome)
    requires store.Valid() && EmployeesCoherent(store, cache)
    modifies store`employees, cache`employees, cache`employeesLoaded
    ensures store.Valid() && EmployeesCoherent(store, cache)
    ensures var dl := DeleteById(old(store.employees), id, EmployeeId);
      if dl.Err? then r == Failure(NotFound) && unchanged(store, cache)
      else r == Success && store.employees == dl.value && !cache.employeesLoaded
  {
    var deleted := store.DeleteEmployee(id);
    if deleted.Failure? {
      return Failure(NotFound);
    }
    cache.InvalidateEmployees();
    return Success;
  }

  // ---------------------------------------------------------------- the ledger

  /** The transaction as the ledger stores it: its id (generated when none was sent)
      and the employee of the path; the type is kept as sent. */
  function Stamped(trans: EmployeeTransaction, employeeId: string, generated: string): (t: EmployeeTransaction)
    ensures t.employeeId == employeeId && t.txType == trans.txType
    ensures t.date == trans.date && t.amount == trans.amount && t.description == trans.description
    ensures trans.id != "" ==> t.id == trans.id
    ensures trans.id == "" ==> StartsWith(t.id, "trans_")
  {
    trans.(id := IdOrGenerated(trans.id, "trans_", generated), employeeId := employeeId)
  }

  /** The loop of DeleteTransaction: every transaction carrying the id is dropped, and
      whether there was one is reported. */
  method RemoveEmployeeTransaction(txs: seq<EmployeeTransaction>, id: string)
    returns (kept: seq<EmployeeTransaction>, found: bool)
    ensures kept == Without(txs, id, EmployeeTransactionId)
    ensures found <==> Carries(txs, id, EmployeeTransactionId)
  {
    kept, found := [], false;
    for i := 0 to |txs|
      invariant kept == Without(txs[..i], id, EmployeeTransactionId)
      invariant found <==> Carries(txs[..i], id, EmployeeTransactionId)
    {
      assert txs[..i + 1][..i] == txs[..i];
      assert txs[..i + 1][i] == txs[i];
      assert Carries(txs[..i + 1], id, EmployeeTransactionId) <==>
             Carries(txs[..i], id, EmployeeTransactionId) || txs[i].id == id by {
        if Carries(txs[..i + 1], id, EmployeeTransactionId) && txs[i].id != id {
          var j :| 0 <= j < i + 1 && EmployeeTransactionId(txs[..i + 1][j]) == id;
          assert EmployeeTransactionId(txs[..i][j]) == id;
        }
        if Carries(txs[..i], id, EmployeeTransactionId) {
          var j :| 0 <= j < i && EmployeeTransactionId(txs[..i][j]) == id;
          assert EmployeeTransactionId(txs[..i + 1][j]) == id;
        }
        if txs[i].id == id {
          assert EmployeeTransactionId(txs[..i + 1][i]) == id;
        }
      }
      if txs[i].id == id {
        found := true;
      } else {
        kept := kept + [txs[i]];
      }
    }
    assert txs[..|txs|] == txs;
  }

  /** The employee's ledger file written and the cached copy dropped. */
  method WriteLedger(store: Store, cache: Cache, employeeId: string, txs: seq<EmployeeTransaction>)
    requires EmployeeLedgersCoherent(store, cache)
    modifies store`employeeLedgers, cache`employeeTransactions
    ensures EmployeeLedgersCoherent(store, cache)
    ensures store.employeeLedgers == old(store.employeeLedgers)[employeeId := Stored(txs)]
    ensures cache.employeeTransactions == old(cache.employeeTransactions) - {employeeId}
  {
    LedgerWriteThenDrop(store.employeeLedgers, cache.employeeTransactions, employeeId, txs);
    store.SaveEmployeeTransactions(employeeId, txs);
    cache.InvalidateEmployeeTransactions(employeeId);
  }

  /** POST /api/employees/:id/transactions: appended to the employee's ledger (a ledger
      that cannot be read counts as empty). */
  method AddTransaction(store: Store, cache: Cache, employeeId: string, trans: EmployeeTransaction, generated: string)
    returns (r: Result<EmployeeTransaction>)
    requires EmployeeLedgersCoherent(store, cache)
    modifies store`employeeLedgers, cache`employeeTransactions
    ensures EmployeeLedgersCoherent(store, cache)
    ensures var t := Stamped(trans, employeeId, generated);
      r == Ok(t)
      && store.employeeLedgers == old(store.employeeLedgers)[employeeId :=
           Stored(LedgerOrEmpty(ReadLedger(old(store.employeeLedgers), employeeId)) + [t])]
      && cache.employeeTransactions == old(cache.employeeTransactions) - {employeeId}
  {
    var t := Stamped(trans, employeeId, generated);
    var read := store.GetEmployeeTransactions(employeeId);
    var txs := if read.Ok? then read.value else [];
    WriteLedger(store, cache, employeeId, txs + [t]);
    return Ok(t);
  }

  /** DELETE /api/employees/:id/transactions?transactionId=…: every transaction with
      the id leaves the ledger; a missing id is a bad request, an unreadable ledger or
      an absent id not found. */
  method DeleteTransaction(store: Store, cache: Cache, employeeId: string, transactionId: string)
    returns (r: Outcome)
    requires EmployeeLedgersCoherent(store, cache)
    modifies store`employeeLedgers, cache`employeeTransactions
    ensures EmployeeLedgersCoherent(store, cache)
    ensures var read := ReadLedger(old(store.employeeLedgers), employeeId);
      if transactionId == "" then r == Failure(BadRequest) && unchanged(store, cache)
      else if read.Err? then r == Failure(NotFound) && unchanged(store, cache)
      else if !Carries(read.value, transactionId, EmployeeTransactionId) then
        r == Failure(NotFound) && unchanged(store, cache)
      else
        r == Success
        && store.employeeLedgers == old(store.employeeLedgers)[employeeId :=
             Stored(Without(read.value, transactionId, EmployeeTransactionId))]
        && cache.employeeTransactions == old(cache.employeeTransactions) - {employeeId}
  {
    if transactionId == "" {
      return Failure(BadRequest);
    }
    var read := store.GetEmployeeTransactions(employeeId);
    if read.Err? {
      return Failure(NotFound);
    }
    var kept, found := RemoveEmployeeTransaction(read.value, transactionId);
    if !found {
      return Failure(NotFound);
    }
    WriteLedger(store, cache, employeeId, kept);
    return Success;
  }

  /** A transaction added and then deleted by its id leaves the ledger file as it was
      read, when the id was new. */
  lemma AddThenDelete(ledgers: map<string, Slot<seq<EmployeeTransaction>>>, employeeId: string, t: EmployeeTransaction)
    requires ReadLedger(ledgers, employeeId).Ok?
    requires !Carries(ReadLedger(ledgers, employeeId).value, t.id, EmployeeTransactionId)
    ensures var added := ledgers[employeeId := Stored(ReadLedger(ledgers, employeeId).value + [t])];
      ReadLedger(added, employeeId).Ok?
      && Carries(ReadLedger(added, employeeId).value, t.id, EmployeeTransactionId)
      && Without(ReadLedger(added, employeeId).value, t.id, EmployeeTransactionId) == ReadLedger(ledgers, employeeId).value
  {
    var txs := ReadLedger(ledgers, employeeId).value;
    AppendThenWithout(txs, t, EmployeeTransactionId);
    assert EmployeeTransactionId((txs + [t])[|txs|]) == t.id;
  }
}
