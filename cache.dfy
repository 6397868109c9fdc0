/** The backend's in-memory cache: for each collection a snapshot and a loaded flag,
    for the two singletons an optional value and a loaded flag, and for the two
    ledger kinds a map from owner id to a cached ledger. */
module Caching {
  import opened Wrappers
  import opened Models

  class Cache {
    var employees: seq<Employee>
    var employeesLoaded: bool
    var counterAgents: seq<CounterAgent>
    var counterAgentsLoaded: bool
    var aggregators: seq<Aggregator>
    var aggregatorsLoaded: bool
    var washEvents: seq<WashEvent>
    var washEventsLoaded: bool
    var expenses: seq<Expense>
    var expensesLoaded: bool
    var salarySchemes: seq<SalaryScheme>
    var salarySchemesLoaded: bool
    var retailPriceConfig: Option<RetailPriceConfig>
    var retailPriceConfigLoaded: bool
    var inventory: Option<Inventory>
    var inventoryLoaded: bool
    var employeeTransactions: map<string, seq<EmployeeTransaction>>
    var clientTransactions: map<string, seq<ClientTransaction>>

    /** A fresh cache: nothing loaded, no ledger cached. */
    constructor ()
      ensures !employeesLoaded && !counterAgentsLoaded && !aggregatorsLoaded
      ensures !washEventsLoaded && !expensesLoaded && !salarySchemesLoaded
      ensures !retailPriceConfigLoaded && !inventoryLoaded
      ensures employees == [] && counterAgents == [] && aggregators == []
      ensures washEvents == [] && expenses == [] && salarySchemes == []
      ensures retailPriceConfig == None && inventory == None
      ensures employeeTransactions == map[] && clientTransactions == map[]
    {
      employees, employeesLoaded := [], false;
      counterAgents, counterAgentsLoaded := [], false;
      aggregators, aggregatorsLoaded := [], false;
      washEvents, washEventsLoaded := [], false;
      expenses, expensesLoaded := [], false;
      salarySchemes, salarySchemesLoaded := [], false;
      retailPriceConfig, retailPriceConfigLoaded := None, false;
      inventory, inventoryLoaded := None, false;
      employeeTransactions := map[];
      clientTransactions := map[];
    }

    // ---- employees

    method GetEmployees() returns (snapshot: seq<Employee>, loaded: bool)
      ensures snapshot == employees && loaded == employeesLoaded
    {
      return employees, employeesLoaded;
    }

    method SetEmployees(items: seq<Employee>)
      modifies this`employees, this`employeesLoaded
      ensures employees == items && employeesLoaded
    {
      employees, employeesLoaded := items, true;
    }

    method InvalidateEmployees()
      modifies this`employees, this`employeesLoaded
      ensures employees == [] && !employeesLoaded
    {
      employees, employeesLoaded := [], false;
    }

    // ---- counterAgents

    method GetCounterAgents() returns (snapshot: seq<CounterAgent>, loaded: bool)
      ensures snapshot == counterAgents && loaded == counterAgentsLoaded
    {
      return counterAgents, counterAgentsLoaded;
    }

    method SetCounterAgents(items: seq<CounterAgent>)
      modifies this`counterAgents, this`counterAgentsLoaded
      ensures counterAgents == items && counterAgentsLoaded
    {
      counterAgents, counterAgentsLoaded := items, true;
    }

    method InvalidateCounterAgents()
      modifies this`counterAgents, this`counterAgentsLoaded
      ensures counterAgents == [] && !counterAgentsLoaded
    {
      counterAgents, counterAgentsLoaded := [], false;
    }

    // ---- aggregators

    method GetAggregators() returns (snapshot: seq<Aggregator>, loaded: bool)
      ensures snapshot == aggregators && loaded == aggregatorsLoaded
    {
      return aggregators, aggregatorsLoaded;
    }

    method SetAggregators(items: seq<Aggregator>)
      modifies this`aggregators, this`aggregatorsLoaded
      ensures aggregators == items && aggregatorsLoaded
    {
      aggregators, aggregatorsLoaded := items, true;
    }

    method InvalidateAggregators()
      modifies this`aggregators, this`aggregatorsLoaded
      ensures aggregators == [] && !aggregatorsLoaded
    {
      aggregators, aggregatorsLoaded := [], false;
    }

    // ---- washEvents

    method GetWashEvents() returns (snapshot: seq<WashEvent>, loaded: bool)
      ensures snapshot == washEvents && loaded == washEventsLoaded
    {
      return washEvents, washEventsLoaded;
    }

    method SetWashEvents(items: seq<WashEvent>)
      modifies this`washEvents, this`washEventsLoaded
      ensures washEvents == items && washEventsLoaded
    {
      washEvents, washEventsLoaded := items, true;
    }

    method InvalidateWashEvents()
      modifies this`washEvents, this`washEventsLoaded
      ensures washEvents == [] && !washEventsLoaded
    {
      washEvents, washEventsLoaded := [], false;
    }

    // ---- expenses

    method GetExpenses() returns (snapshot: seq<Expense>, loaded: bool)
      ensures snapshot == expenses && loaded == expensesLoaded
    {
      return expenses, expensesLoaded;
    }

    method SetExpenses(items: seq<Expense>)
      modifies this`expenses, this`expensesLoaded
      ensures expenses == items && expensesLoaded
    {
      expenses, expensesLoaded := items, true;
    }

    method InvalidateExpenses()
      modifies this`expenses, this`expensesLoaded
      ensures expenses == [] && !expensesLoaded
    {
      expenses, expensesLoaded := [], false;
    }

    // ---- salarySchemes

    method GetSalarySchemes() returns (snapshot: seq<SalaryScheme>, loaded: bool)
      ensures snapshot == salarySchemes && loaded == salarySchemesLoaded
    {
      return salarySchemes, salarySchemesLoaded;
    }

    method SetSalarySchemes(items: seq<SalaryScheme>)
      modifies this`salarySchemes, this`salarySchemesLoaded
      ensures salarySchemes == items && salarySchemesLoaded
    {
      salarySchemes, salarySchemesLoaded := items, true;
    }

    method InvalidateSalarySchemes()
      modifies this`salarySchemes, this`salarySchemesLoaded
      ensures salarySchemes == [] && !salarySchemesLoaded
    {
      salarySchemes, salarySchemesLoaded := [], false;
    }

    // ---- retailPriceConfig

    method GetRetailPriceConfig() returns (value: Option<RetailPriceConfig>, loaded: bool)
      ensures value == retailPriceConfig && loaded == retailPriceConfigLoaded
    {
      return retailPriceConfig, retailPriceConfigLoaded;
    }

    method SetRetailPriceConfig(v: RetailPriceConfig)
      modifies this`retailPriceConfig, this`retailPriceConfigLoaded
      ensures retailPriceConfig == Some(v) && retailPriceConfigLoaded
    {
      retailPriceConfig, retailPriceConfigLoaded := Some(v), true;
    }

    method InvalidateRetailPriceConfig()
      modifies this`retailPriceConfig, this`retailPriceConfigLoaded
      ensures retailPriceConfig == None && !retailPriceConfigLoaded
    {
      retailPriceConfig, retailPriceConfigLoaded := None, false;
    }

    // ---- inventory

    method GetInventory() returns (value: Option<Inventory>, loaded: bool)
      ensures value == inventory && loaded == inventoryLoaded
    {
      return inventory, inventoryLoaded;
    }

    method SetInventory(v: Inventory)
      modifies this`inventory, this`inventoryLoaded
      ensures inventory == Some(v) && inventoryLoaded
    {
      inventory, inventoryLoaded := Some(v), true;
    }

    method InvalidateInventory()
      modifies this`inventory, this`inventoryLoaded
      ensures inventory == None && !inventoryLoaded
    {
      inventory, inventoryLoaded := None, false;
    }

    // ---- employeeTransactions, one entry per owner id

    /** The cached ledger of that owner, if there is one. */
    method GetEmployeeTransactions(employeeId: string) returns (ledger: seq<EmployeeTransaction>, ok: bool)
      ensures ok <==> employeeId in employeeTransactions
      ensures ok ==> ledger == employeeTransactions[employeeId]
      ensures !ok ==> ledger == []
    {
      if employeeId in employeeTransactions {
        return employeeTransactions[employeeId], true;
      }
      return [], false;
    }

    /** Overwrites that owner's entry; every other owner keeps theirs. */
    method SetEmployeeTransactions(employeeId: string, ledger: seq<EmployeeTransaction>)
      modifies this`employeeTransactions
      ensures employeeTransactions == old(employeeTransactions)[employeeId := ledger]
    {
      employeeTransactions := employeeTransactions[employeeId := ledger];
    }

    /** Drops that owner's entry; every other owner keeps theirs. */
    method InvalidateEmployeeTransactions(employeeId: string)
      modifies this`employeeTransactions
      ensures employeeTransactions == old(employeeTransactions) - {employeeId}
    {
      employeeTransactions := employeeTransactions - {employeeId};
    }

    // ---- clientTransactions, one entry per owner id

    /** The cached ledger of that owner, if there is one. */
    method GetClientTransactions(clientId: string) returns (ledger: seq<ClientTransaction>, ok: bool)
      ensures ok <==> clientId in clientTransactions
      ensures ok ==> ledger == clientTransactions[clientId]
      ensures !ok ==> ledger == []
    {
      if clientId in clientTransactions {
        return clientTransactions[clientId], true;
      }
      return [], false;
    }

    /** Overwrites that owner's entry; every other owner keeps theirs. */
    method SetClientTransactions(clientId: string, ledger: seq<ClientTransaction>)
      modifies this`clientTransactions
      ensures clientTransactions == old(clientTransactions)[clientId := ledger]
    {
      clientTransactions := clientTransactions[clientId := ledger];
    }

    /** Drops that owner's entry; every other owner keeps theirs. */
    method InvalidateClientTransactions(clientId: string)
      modifies this`clientTransactions
      ensures clientTransactions == old(clientTransactions) - {clientId}
    {
      clientTransactions := clientTransactions - {clientId};
    }
  }
}
