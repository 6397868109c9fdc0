# Vehicle-wash back office: a Dafny model

The system is the back office of a vehicle wash. A Go backend keeps its data as JSON files, one directory per kind of record. The kinds are employees, counter-agents (contract clients), aggregators (booking services), wash events, expenses and salary schemes. Per-owner transaction ledgers and two singletons, the retail price configuration and the chemical inventory, are kept the same way. An in-memory read-through cache fronts each collection.

The HTTP handlers create, update and delete records and invalidate the matching cache. Alongside that they keep one counter of chemical stock in grams up to date. A wash consumes chemicals and a purchase of chemicals in kilograms adds to the stock. Client payments move the balance of the aggregator or counter-agent they belong to. A salary calculator, written once in Go and once in TypeScript, turns wash events, employees and salary schemes into a report of each employee's earnings.

The TypeScript front end has its own cached data loader. It also computes several things in its components:
- a client's finance journal with running balances;
- the stock-movement journal;
- the lines of an invoice, aggregated from washes;
- an amount of money written out in Russian words;
- the +7 phone-number format;
- normalised licence plates.

The model follows the source file by file:
- Handlers, the store, the cache and the data loader are classes and methods with `modifies` frames. Each is proved against functions that state the new state.
- Pure computations are functions, and lemmas prove what they promise.
- Loops in the source (`for`, `forEach`, `range`) are `while` or `for` loops with invariants.
- Where `Object.values` reads a record, its values come in JavaScript's own-key order: keys that are array indices first, in ascending numeric order, then the other keys in the order they were added.
- Money and grams are `real`.
- Dates are ISO date strings compared in byte order.
- Generated ids, the clock and date parsing are parameters.

## Model

| member | source | states |
|---|---|---|
| Models.OrEmpty | internal/handlers/wash_events.go:52-57 | a nil list is normalised to an empty list with the same (no) elements |
| Models.WithoutPassword | internal/handlers/employees.go:36-47 | the API view of an employee keeps every field but the password |
| Models.AllServices | internal/services/salary_calculator.go:90-91 | a wash's services are its main service followed by its additional ones, in order |
| Handling.LedgerOrEmpty | internal/handlers/transactions.go:45-48 | a failed ledger read is treated as an empty ledger, a successful one as what was read |
| Handling.WithoutSpec | internal/handlers/transactions.go:86-103 | removal by id leaves no transaction with that id, and the ledger shrinks exactly when one carried it (otherwise "not found" and unchanged) |
| Handling.AppendThenWithout | internal/handlers/transactions.go:45-97 | adding a transaction and then deleting it by its id leaves the ledger as before when the id was new |
| Handling.LedgerWriteThenDrop | internal/handlers/transactions.go:53-62 | saving one owner's ledger and invalidating that owner's cache entry keeps every cached ledger equal to the stored one |
| Handling.WriteCounter | internal/handlers/wash_events.go:70-83 | the counter holds the new stock, the cached inventory is dropped, and cache and store stay coherent |
| Handling.StockOrZero | internal/handlers/wash_events.go:70-74 | an inventory read that failed counts as zero grams in stock |
| Handling.IdOrGenerated | internal/handlers/wash_events.go:47-49 | a given id is kept; a missing one is replaced by one that starts with the entity's prefix |
| Sorting.SortAscSorted | src/components/common/ClientFinanceDashboard.tsx:87 | sorting entries by date yields them in ascending order |
| Sorting.SortAscPermutes | src/components/common/ClientFinanceDashboard.tsx:87 | the sort keeps exactly the same entries |
| Sorting.SortAscStable | src/components/common/ClientFinanceDashboard.tsx:87 | Array.prototype.sort is stable: entries with equal dates keep their order |
| Sorting.InsertPermutes | src/app/inventory/components/InventoryDashboard.tsx:94 | one insertion step adds exactly the inserted element |
| Sorting.InsertSorted | src/app/inventory/components/InventoryDashboard.tsx:94 | one insertion step keeps a sorted sequence sorted |
| Sorting.WithKey | src/app/inventory/components/InventoryDashboard.tsx:94 | the elements sharing one key (a number or a date), drawn from the list in their order; stability is stated through it |
| Sorting.InsertWithKey | src/app/inventory/components/InventoryDashboard.tsx:94 | an inserted element goes in front of those with the same key, which keeps stability |
| Sorting.SortDescSpec | src/services/salary-calculator.ts:144 | sorting the report rows by descending total yields a descending permutation of them |
| Sorting.SortDescStable | src/services/salary-calculator.ts:144 | rows with equal totals keep their order |
| Sorting.SortDescTextSpec | internal/storage/json_store.go:303-306 | sorting by descending date string yields a descending permutation |
| Sorting.InsertDescTextSorted | src/lib/data-loader.ts:86 | one insertion step keeps a descending sequence of date strings descending |
| Sorting.InsertDescTextPermutes | src/lib/data-loader.ts:86 | one insertion step adds exactly the inserted element |
| Sorting.InsertDescTextWithKey | src/lib/data-loader.ts:86 | an inserted element goes in front of those with the same date |
| Sorting.SortDescTextStable | src/lib/data-loader.ts:86 | Array.prototype.sort is stable: entries with equal dates keep their order |
| Caching.Cache.constructor | internal/storage/cache.go:43-49 | a fresh cache has every collection and singleton unloaded and both ledger maps empty |
| Caching.Cache.GetEmployees | internal/storage/cache.go:51-55 | returns the employee snapshot and its loaded flag, changing nothing |
| Caching.Cache.SetEmployees | internal/storage/cache.go:57-62 | the snapshot becomes the given list and is marked loaded; only the two employee fields change |
| Caching.Cache.InvalidateEmployees | internal/storage/cache.go:64-70 | the snapshot is dropped (nil, modelled as empty) and marked unloaded; only the two employee fields change |
| Caching.Cache.GetCounterAgents | internal/storage/cache.go:72-76 | returns the counter-agent snapshot and its flag, changing nothing |
| Caching.Cache.SetCounterAgents | internal/storage/cache.go:78-83 | stores the list and marks it loaded; nothing else changes |
| Caching.Cache.InvalidateCounterAgents | internal/storage/cache.go:85-91 | drops the snapshot and clears the flag; nothing else changes |
| Caching.Cache.GetAggregators | internal/storage/cache.go:93-97 | returns the aggregator snapshot and its flag, changing nothing |
| Caching.Cache.SetAggregators | internal/storage/cache.go:99-104 | stores the list and marks it loaded; nothing else changes |
| Caching.Cache.InvalidateAggregators | internal/storage/cache.go:106-112 | drops the snapshot and clears the flag; nothing else changes |
| Caching.Cache.GetWashEvents | internal/storage/cache.go:114-118 | returns the wash-event snapshot and its flag, changing nothing |
| Caching.Cache.SetWashEvents | internal/storage/cache.go:120-125 | stores the list and marks it loaded; nothing else changes |
| Caching.Cache.InvalidateWashEvents | internal/storage/cache.go:127-133 | drops the snapshot and clears the flag; nothing else changes |
| Caching.Cache.GetExpenses | internal/storage/cache.go:135-139 | returns the expense snapshot and its flag, changing nothing |
| Caching.Cache.SetExpenses | internal/storage/cache.go:141-146 | stores the list and marks it loaded; nothing else changes |
| Caching.Cache.InvalidateExpenses | internal/storage/cache.go:148-154 | drops the snapshot and clears the flag; nothing else changes |
| Caching.Cache.GetSalarySchemes | internal/storage/cache.go:156-160 | returns the scheme snapshot and its flag, changing nothing |
| Caching.Cache.SetSalarySchemes | internal/storage/cache.go:162-167 | stores the list and marks it loaded; nothing else changes |
| Caching.Cache.InvalidateSalarySchemes | internal/storage/cache.go:169-175 | drops the snapshot and clears the flag; nothing else changes |
| Caching.Cache.GetRetailPriceConfig | internal/storage/cache.go:177-181 | returns the cached retail configuration, if any, and its flag |
| Caching.Cache.SetRetailPriceConfig | internal/storage/cache.go:183-188 | stores the configuration and marks it loaded; nothing else changes |
| Caching.Cache.InvalidateRetailPriceConfig | internal/storage/cache.go:190-196 | drops the configuration and clears the flag; nothing else changes |
| Caching.Cache.GetInventory | internal/storage/cache.go:198-202 | returns the cached inventory, if any, and its flag |
| Caching.Cache.SetInventory | internal/storage/cache.go:204-209 | stores the inventory and marks it loaded; nothing else changes |
| Caching.Cache.InvalidateInventory | internal/storage/cache.go:211-217 | drops the inventory and clears the flag; nothing else changes |
| Caching.Cache.GetEmployeeTransactions | internal/storage/cache.go:219-224 | reports a hit exactly when the owner id is a key, with that key's ledger; a miss gives an empty ledger |
| Caching.Cache.SetEmployeeTransactions | internal/storage/cache.go:226-230 | overwrites only that owner's key; every other key keeps its ledger |
| Caching.Cache.InvalidateEmployeeTransactions | internal/storage/cache.go:232-237 | deletes only that owner's key |
| Caching.Cache.GetClientTransactions | internal/storage/cache.go:239-244 | reports a hit exactly when the client id is a key, with its ledger; a miss gives an empty ledger |
| Caching.Cache.SetClientTransactions | internal/storage/cache.go:246-250 | overwrites only that client's key |
| Caching.Cache.InvalidateClientTransactions | internal/storage/cache.go:252-256 | deletes only that client's key |
| JsonStore.SortedDistinct | internal/storage/json_store.go:67 | the entries of a listed directory have distinct names |
| JsonStore.FileName | internal/storage/json_store.go:201-205 | a record's file is its id followed by ".json" |
| JsonStore.EmployeeFileName | internal/storage/json_store.go:137-144 | an "emp_" id is saved in an "emp_" file with the other "emp_" occurrences removed; any other id in id + ".json" |
| JsonStore.EmployeeFileNameCollides | internal/storage/json_store.go:138 | the ids "emp_1" and "emp_emp_1" are saved in the same file |
| JsonStore.FilterListableSound | internal/storage/json_store.go:75-82 | the listing keeps only non-directory ".json" entries with the prefix |
| JsonStore.FilterListableComplete | internal/storage/json_store.go:75-82 | the listing keeps every such entry |
| JsonStore.JsonFiles | internal/storage/json_store.go:62-84 | a missing directory lists no files, and the listing fails exactly when the directory cannot be read |
| JsonStore.JsonFilesSpec | internal/storage/json_store.go:62-84 | the listed files are exactly the listable entries of the directory |
| JsonStore.Records | internal/storage/json_store.go:94-101 | the records read are at most one per file |
| JsonStore.RecordsMembers | internal/storage/json_store.go:94-101 | a record is read exactly when some file parses to it; files that fail to parse are skipped |
| JsonStore.ListAllMembers | internal/storage/json_store.go:88-102 | GetAll lists a record exactly when a listable file with the prefix holds it |
| JsonStore.ListAll | internal/storage/json_store.go:88-102 | the records of the listable files with the prefix, or the listing's error (ListAllMembers states this) |
| JsonStore.FirstHolding | internal/storage/json_store.go:111-119 | the scan stops at the first readable file whose record has the id; none means no file has it |
| JsonStore.FindById | internal/storage/json_store.go:105-121 | a found record has the id; not found exactly when the unfiltered listing succeeds and no file holds the id |
| JsonStore.Upsert | internal/storage/json_store.go:38-54 | writing a file adds at most one directory entry |
| JsonStore.UpsertMembers | internal/storage/json_store.go:38-54 | the written file is present, nothing else is new, and every other file is kept |
| JsonStore.UpsertSorted | internal/storage/json_store.go:67 | the directory stays in name order, with the written entry the only one of its name |
| JsonStore.UpsertSortedIfListed | internal/storage/json_store.go:38-54 | after a write each entry is the written one or an untouched earlier one |
| JsonStore.UpsertTwice | internal/storage/json_store.go:38-54 | writing the same file twice is writing it once |
| JsonStore.Write | internal/storage/json_store.go:38-54 | a successful write leaves a listed directory (MkdirAll creates a missing one) |
| JsonStore.WriteValid | internal/storage/json_store.go:38-54 | a write keeps the directory well formed |
| JsonStore.WriteIdempotent | internal/storage/json_store.go:38-54 | saving the same record under the same name twice is saving it once |
| JsonStore.SaveThenFind | internal/storage/json_store.go:105-121 | after saving a record, GetByID finds it when no other file holds its id |
| JsonStore.RemoveNamed | internal/storage/json_store.go:56-60 | deleting a file removes at most one entry |
| JsonStore.RemoveNamedMembers | internal/storage/json_store.go:56-60 | exactly the entries with other names are kept |
| JsonStore.RemoveNamedSorted | internal/storage/json_store.go:56-60 | deleting a file keeps the directory in name order |
| JsonStore.PrependSorted | internal/storage/json_store.go:67 | an entry named before all others can go first in name order |
| JsonStore.DeleteById | internal/storage/json_store.go:146-162 | delete succeeds exactly when GetByID finds the id, and reports not found exactly when GetByID does |
| JsonStore.DeleteRemovesFirst | internal/storage/json_store.go:155-160 | delete removes the first file holding the id and keeps every other file |
| JsonStore.DeleteValid | internal/storage/json_store.go:146-162 | a delete keeps the directory well formed |
| JsonStore.ReadLedger | internal/storage/json_store.go:483-494 | a missing ledger file is an empty ledger, a corrupt one an error, a stored one its transactions |
| JsonStore.ReadRetailConfig | internal/storage/json_store.go:525-539 | a missing configuration file gives empty price lists, a corrupt one an error |
| JsonStore.ReadInventory | internal/storage/json_store.go:548-559 | a missing inventory file gives 0 grams, a corrupt one an error |
| JsonStore.UnprefixedEmployeeHidden | internal/storage/json_store.go:88-144 | an employee saved under an id without "emp_" is found by id but never listed |
| JsonStore.PrefixedSaveListed | internal/storage/json_store.go:88-102 | a record saved under an id with the type's prefix is listed |
| JsonStore.NoPrefixAfterSuffix | internal/storage/json_store.go:139-141 | id + ".json" starts with "emp_" only when the id does |
| JsonStore.ReadFromDirectory | internal/storage/json_store.go:62-84 | the directory loop computes the listing |
| JsonStore.ReadRecords | internal/storage/json_store.go:94-101 | the decode loop reads every parsable file, in order |
| JsonStore.ScanForId | internal/storage/json_store.go:111-119 | the lookup loop finds the first file holding the id |
| JsonStore.FirstHoldingAt | internal/storage/json_store.go:111-119 | a file holding the id with none before it is the one found |
| JsonStore.FirstHoldingNone | internal/storage/json_store.go:120 | when no file holds the id nothing is found |
| JsonStore.LoadAll | internal/storage/json_store.go:88-102 | GetAll computes the listing |
| JsonStore.LoadById | internal/storage/json_store.go:105-121 | GetByID computes the lookup |
| JsonStore.RemoveById | internal/storage/json_store.go:146-162 | Delete computes the removal |
| JsonStore.Store.constructor | internal/storage/json_store.go:20-24 | a new store over an empty data directory |
| JsonStore.Store.GetAllEmployees | internal/storage/json_store.go:88-102 | the employees in "emp_" files |
| JsonStore.Store.GetEmployeeByID | internal/storage/json_store.go:105-121 | the first employee with the id in any file |
| JsonStore.Store.SaveEmployee | internal/storage/json_store.go:137-144 | the employee is written under its file name, or nothing changes when the write fails |
| JsonStore.Store.DeleteEmployee | internal/storage/json_store.go:146-162 | the first file holding the id is deleted, or nothing changes |
| JsonStore.Store.GetAllCounterAgents | internal/storage/json_store.go:166-181 | the counter agents in "agent_" files |
| JsonStore.Store.GetCounterAgentByID | internal/storage/json_store.go:183-199 | the first counter agent with the id |
| JsonStore.Store.SaveCounterAgent | internal/storage/json_store.go:201-205 | the agent is written under id + ".json", or nothing changes |
| JsonStore.Store.DeleteCounterAgent | internal/storage/json_store.go:207-223 | the first file holding the id is deleted, or nothing changes |
| JsonStore.Store.GetAllAggregators | internal/storage/json_store.go:227-242 | the aggregators in "agg_" files |
| JsonStore.Store.GetAggregatorByID | internal/storage/json_store.go:244-260 | the first aggregator with the id |
| JsonStore.Store.SaveAggregator | internal/storage/json_store.go:262-266 | the aggregator is written under id + ".json", or nothing changes |
| JsonStore.Store.DeleteAggregator | internal/storage/json_store.go:268-284 | the first file holding the id is deleted, or nothing changes |
| JsonStore.Store.GetAllWashEvents | internal/storage/json_store.go:288-309 | the wash events in "we_" files, newest timestamp first |
| JsonStore.Store.GetWashEventByID | internal/storage/json_store.go:311-327 | the first wash event with the id |
| JsonStore.Store.SaveWashEvent | internal/storage/json_store.go:329-333 | the event is written under id + ".json", or nothing changes |
| JsonStore.Store.DeleteWashEvent | internal/storage/json_store.go:335-351 | the first file holding the id is deleted, or nothing changes |
| JsonStore.Store.GetAllExpenses | internal/storage/json_store.go:355-376 | the expenses in "exp_" files, newest date first |
| JsonStore.Store.GetExpenseByID | internal/storage/json_store.go:378-394 | the first expense with the id |
| JsonStore.Store.SaveExpense | internal/storage/json_store.go:396-400 | the expense is written under id + ".json", or nothing changes |
| JsonStore.Store.DeleteExpense | internal/storage/json_store.go:402-418 | the first file holding the id is deleted, or nothing changes |
| JsonStore.Store.GetAllSalarySchemes | internal/storage/json_store.go:422-437 | the schemes in "scheme_" files |
| JsonStore.Store.GetSalarySchemeByID | internal/storage/json_store.go:439-455 | the first scheme with the id |
| JsonStore.Store.SaveSalaryScheme | internal/storage/json_store.go:457-461 | the scheme is written under id + ".json", or nothing changes |
| JsonStore.Store.DeleteSalaryScheme | internal/storage/json_store.go:463-479 | the first file holding the id is deleted, or nothing changes |
| JsonStore.Store.GetEmployeeTransactions | internal/storage/json_store.go:483-494 | the employee's ledger file read |
| JsonStore.Store.SaveEmployeeTransactions | internal/storage/json_store.go:496-502 | only that employee's ledger file is overwritten |
| JsonStore.Store.GetClientTransactions | internal/storage/json_store.go:504-515 | the client's ledger file read |
| JsonStore.Store.SaveClientTransactions | internal/storage/json_store.go:517-523 | only that client's ledger file is overwritten |
| JsonStore.Store.GetRetailPriceConfig | internal/storage/json_store.go:525-539 | the configuration file read |
| JsonStore.Store.SaveRetailPriceConfig | internal/storage/json_store.go:541-546 | the configuration file overwritten |
| JsonStore.Store.GetInventory | internal/storage/json_store.go:548-559 | the inventory file read |
| JsonStore.Store.SaveInventory | internal/storage/json_store.go:561-563 | the inventory file overwritten |
| WashEvents.CalculateChemicalConsumption | internal/handlers/wash_events.go:210-234 | the loops compute the wash's consumption: each service's positive norm plus every employee amount, main service first |
| WashEvents.AddServiceConsumption | internal/handlers/wash_events.go:224-231 | one service adds its norm when positive and then each of its employee amounts |
| WashEvents.SumAmountsNonNegative | internal/handlers/wash_events.go:220-222 | with no negative employee amounts their sum is not negative |
| WashEvents.SumServicesNonNegative | internal/handlers/wash_events.go:224-231 | services without negative amounts consume a non-negative total |
| WashEvents.ConsumptionNonNegative | internal/handlers/wash_events.go:210-234 | a wash whose services carry no negative amounts has non-negative consumption |
| WashEvents.NormPlusEmployeeAmounts | internal/handlers/wash_events.go:215-222 | employee amounts are added to the norm, not substituted for it (50 g + 30 g + 20 g = 100 g) |
| WashEvents.Prepared | internal/handlers/wash_events.go:47-57 | Create fills in a missing id with the "we_" prefix, replaces nil lists with empty ones, and changes nothing else (so the consumption is the same) |
| WashEvents.SaveAndInvalidate | internal/handlers/wash_events.go:62-67 | the event is written under its id's file name; on success the cached list is emptied and marked unloaded; on failure nothing changes |
| WashEvents.DeleteAndInvalidate | internal/handlers/wash_events.go:170-176 | the event's file is deleted; on success the cached list is emptied and marked unloaded; on failure nothing changes |
| WashEvents.TakeFromStock | internal/handlers/wash_events.go:70-81 | Create subtracts the consumption from the stock read now (0 when unreadable), stops at 0, writes it back and drops the cached inventory |
| WashEvents.Reconsume | internal/handlers/wash_events.go:136-148 | Update gives back the old consumption, takes the new one, stops at 0, writes the counter and drops the cached inventory |
| WashEvents.GiveBack | internal/handlers/wash_events.go:178-186 | Delete gives the consumption back to the stock with no upper bound and drops the cached inventory |
| WashEvents.Create | internal/handlers/wash_events.go:38-86 | a failed save reports an internal error and changes nothing; otherwise the prepared event is stored and the cached list dropped; with a positive consumption the stock is reduced and the cached inventory dropped, otherwise the stock and the cached inventory are left as they were |
| WashEvents.Update | internal/handlers/wash_events.go:103-153 | an unknown id is NotFound with nothing changed; otherwise the updates are stored under the path id and the cached list dropped; when the consumption changed, the stock moves by the change and the cached inventory is dropped, otherwise both are left as they were |
| WashEvents.Delete | internal/handlers/wash_events.go:156-193 | an unknown id is NotFound with nothing changed; otherwise the event is removed and the cached list dropped; a positive consumption goes back to stock and drops the cached inventory, otherwise both are left as they were |
| WashEvents.GetByID | internal/handlers/wash_events.go:89-100 | the event with the id, read from the store and not the cache, or NotFound |
| WashEvents.GetWashEvents | internal/handlers/wash_events.go:195-207 | a loaded cache is returned as it is; otherwise the store's listing, sorted newest first, is returned and cached; a failed listing leaves the cache empty |
| WashEvents.CreateNonNegative | internal/handlers/wash_events.go:75-78 | after Create the stock is never negative |
| WashEvents.UpdateNonNegative | internal/handlers/wash_events.go:142-145 | after Update the stock is never negative |
| WashEvents.CreateThenDeleteRestores | internal/handlers/wash_events.go:70-186 | creating and then deleting a wash restores the stock when the stock covered the consumption |
| WashEvents.CreateThenDeleteLoses | internal/handlers/wash_events.go:70-186 | when the stock did not cover the consumption, create-then-delete ends with exactly the consumption in stock, which is more than before |
| WashEvents.UpdateThenRevertRestores | internal/handlers/wash_events.go:136-148 | updating a wash and then updating it back restores the stock when no clamp is hit |
| Expenses.ChemicalGrams | internal/handlers/expenses.go:60-65 | an expense brings chemical into stock exactly when it is a chemical purchase with positive quantity in a unit starting with "кг" in any letter case, and then brings quantity times 1000 grams |
| Expenses.IsChemicalPurchase | internal/handlers/expenses.go:60-65 | an expense moves stock when it is a chemicals purchase of positive quantity in a unit starting with "кг" (PurchaseCounted and FormUnitNotShown are stated over it) |
| Expenses.UnitSpellings | internal/handlers/expenses.go:60 | "КГ" and "Кг." count as kilograms; the Latin "kg" and "г" do not |
| Expenses.SaveAndInvalidate | internal/handlers/expenses.go:52-57 | the expense is written under its id's file name; on success the cached list is emptied and marked unloaded; on failure nothing changes |
| Expenses.DeleteAndInvalidate | internal/handlers/expenses.go:156-161 | the expense's file is deleted; on success the cached list is emptied and marked unloaded; on failure nothing changes |
| Expenses.AddToStock | internal/handlers/expenses.go:59-68 | Create adds the purchase's grams to the stock read now (0 when unreadable), writes it and drops the cached inventory |
| Expenses.Revise | internal/handlers/expenses.go:128-137 | Update takes the old grams back and adds the new ones, with no bound at 0, and drops the cached inventory |
| Expenses.TakeBack | internal/handlers/expenses.go:163-175 | Delete takes the purchase's grams back out of stock, stopping at 0, and drops the cached inventory |
| Expenses.Create | internal/handlers/expenses.go:39-73 | the expense is stored with a generated "exp_" id when it has none; a failed save is an internal error with nothing changed; a chemical purchase adds to the stock and drops the cached inventory, any other expense leaves both as they were |
| Expenses.GetByID | internal/handlers/expenses.go:76-87 | the expense with the id, read from the store, or NotFound |
| Expenses.Update | internal/handlers/expenses.go:90-142 | an unknown id is NotFound with nothing changed; otherwise the body is stored under the path id and the cached list dropped; when the chemical grams changed, the stock moves by the change and the cached inventory is dropped, otherwise both are left as they were |
| Expenses.Delete | internal/handlers/expenses.go:145-182 | an unknown id is NotFound with nothing changed; otherwise the expense is removed and the cached list dropped; a chemical purchase's grams are taken back out of stock and the cached inventory dropped, otherwise both are left as they were |
| Expenses.GetExpenses | internal/handlers/expenses.go:184-196 | a loaded cache is returned as it is; otherwise the store's listing, sorted newest first, is returned and cached |
| Expenses.PurchaseThenRemoveRestores | internal/handlers/expenses.go:59-175 | buying and then deleting a purchase restores any non-negative stock |
| Expenses.RevisionThenRevertRestores | internal/handlers/expenses.go:128-137 | editing an expense and editing it back restores the stock exactly |
| Expenses.RevisionCanGoNegative | internal/handlers/expenses.go:135 | an edit can leave a negative stock (5 kg bought, used, then recategorised gives -5000 g) |
| Expenses.RemovalNonNegative | internal/handlers/expenses.go:169-172 | deleting a purchase never leaves a negative stock; removing more than is in stock leaves 0 |
| Payroll.IndexBy | internal/services/salary_calculator.go:139-148 | every indexed entry comes from the list and carries its own key |
| Payroll.IndexByDomain | internal/services/salary_calculator.go:139-142 | every entry's key is in the index |
| Payroll.IndexByLastWins | internal/services/salary_calculator.go:139-148 | for a duplicated key the index holds the last entry with it |
| Payroll.BuildIndex | internal/services/salary_calculator.go:84-87 | the map-building loop yields the last-wins index |
| Payroll.BuildInitialRows | internal/services/salary_calculator.go:150-159 | the initialisation loop gives each employee id a fresh row |
| Payroll.InitialRows | internal/services/salary_calculator.go:150-159 | every initial row starts at zero earnings with an empty breakdown |
| Payroll.InitialRowsConsistent | internal/services/salary_calculator.go:150-159 | there is exactly one row per distinct employee id, each consistent |
| Payroll.ServiceEarning | internal/services/salary_calculator.go:96-106 | a service adds rate less deduction exactly when it is named, has a positive rate, and the rate exceeds the deduction; otherwise nothing; never a negative amount |
| Payroll.RateTotal | internal/services/salary_calculator.go:93-106 | the rate pool of a wash is never negative |
| Payroll.UnpaidMembers | internal/services/salary_calculator.go:107-119 | a name is reported unpaid exactly when some named service of the wash has no positive rate |
| Payroll.UnpaidDistinct | internal/services/salary_calculator.go:108-118 | no unpaid name is reported twice |
| Payroll.UnpaidPrefix | internal/services/salary_calculator.go:116-118 | unpaid names appear in the order first met |
| Payroll.FindFirst | src/services/salary-calculator.ts:119 | the first employee record with the id, or none exactly when no record has it |
| Payroll.Lookup | internal/services/salary_calculator.go:170 | a resolved employee has the id looked up |
| Payroll.ResolveIds | internal/services/salary_calculator.go:168-173 | unknown ids are dropped, so at most one employee per id on the wash |
| Payroll.ResolvedAreEmployees | internal/services/salary_calculator.go:168-173 | every employee on a wash is one of the employee records |
| Payroll.AddItemConsistent | internal/services/salary_calculator.go:193-201 | appending a breakdown item with earnings or unpaid services keeps the row's total equal to the sum of its items |
| Payroll.CreditConsistent | internal/services/salary_calculator.go:180-202 | crediting one employee keeps every row consistent and the set of rows unchanged |
| Payroll.CreditAll | internal/services/salary_calculator.go:180-203 | one wash's credit applied to each of its employees in turn (CreditAllKeys, CreditAllConsistent and CreditAllLeaves state this) |
| Payroll.ReplaceConsistent | internal/services/salary_calculator.go:194-195 | replacing a row by a consistent one keeps the invariant and the keys |
| Payroll.CreditAllKeys | internal/services/salary_calculator.go:180-203 | crediting the employees of a wash adds no row and removes none |
| Payroll.CreditAllConsistent | internal/services/salary_calculator.go:180-203 | crediting the employees of a wash keeps every row consistent |
| Payroll.CreditAllLeaves | internal/services/salary_calculator.go:181-188 | an employee without a known scheme is skipped and its row is untouched |
| Payroll.ApplyEvents | internal/services/salary_calculator.go:162-204 | every wash's credits applied in order, a wash none of whose employees resolves being skipped (ApplyEventsConsistent and ApplyEventsLeave state this) |
| Payroll.ApplyEventsConsistent | internal/services/salary_calculator.go:162-204 | processing the washes keeps every row consistent and the set of rows unchanged |
| Payroll.ApplyEventsLeave | internal/services/salary_calculator.go:162-204 | whatever the washes, an employee without a known scheme keeps its row |
| Payroll.ReportRows | internal/services/salary_calculator.go:150-204 | the report has one row per distinct employee id and each row's total is the sum of its breakdown |
| Payroll.NoSchemeNoEarnings | internal/services/salary_calculator.go:181-188 | an employee with no known scheme is reported with zero earnings and an empty breakdown |
| SalaryCalculator.WashSourceType | internal/services/salary_calculator.go:16-27 | cash, card and transfer are retail, the aggregator and contract methods their own kinds, and any other method none |
| SalaryCalculator.TruncateCents | internal/services/salary_calculator.go:51 | a positive amount cut to whole cents: a whole number of cents, not above the amount and less than a cent below it |
| SalaryCalculator.BaseAmount | internal/services/salary_calculator.go:41-44 | a percentage scheme shares the net amount when it is positive and the total otherwise |
| SalaryCalculator.ShareOf | internal/services/salary_calculator.go:30-130 | no employees or an unknown scheme type earn nothing; a percentage share is the truncated pool per employee with no unpaid services; a rate share is nothing when the rate source does not match the wash, and otherwise the truncated rate pool per employee with the unpaid service names |
| SalaryCalculator.CalculateIndividualShare | internal/services/salary_calculator.go:30-130 | the method computes exactly the specified share |
| SalaryCalculator.RatePool | internal/services/salary_calculator.go:93-120 | the services loop sums the paid services' earnings and lists each unpaid name once |
| SalaryCalculator.Occurs | internal/services/salary_calculator.go:109-115 | the duplicate scan finds a name exactly when it was already recorded |
| SalaryCalculator.GenerateSalaryReport | internal/services/salary_calculator.go:133-217 | the report holds every employee's row exactly once, sorted by total earnings descending |
| SalaryCalculator.ProcessEvents | internal/services/salary_calculator.go:161-204 | the wash loop folds every wash into the rows |
| SalaryCalculator.ProcessEvent | internal/services/salary_calculator.go:162-203 | a wash with no employees, or with none known, is skipped; otherwise every known employee on it is credited; no row is added or removed |
| SalaryCalculator.RowValues | internal/services/salary_calculator.go:206-210 | the map-to-slice loop yields each row exactly once |
| SalaryCalculator.EmployeesOnWash | internal/services/salary_calculator.go:167-173 | the employees on a wash are the known ids' records, in the order of the wash's ids |
| SalaryCalculator.CreditEmployees | internal/services/salary_calculator.go:179-203 | each employee on the wash is credited with a share split among all of them |
| SalaryCalculator.PercentageExample | internal/services/salary_calculator.go:40-54 | a 50 % scheme with deduction 100 on a 1000 wash (net amount 0) gives each of two employees 225 |
| SalaryCalculator.RateExample | internal/services/salary_calculator.go:83-126 | rate 100 less 20 pays 80, and a service without a rate is reported unpaid |
| SalaryCalculator.FilterExample | internal/services/salary_calculator.go:61-66 | a scheme tied to an aggregator pays nothing for a cash wash and reports nothing unpaid |
| SalaryCalculatorTs.WashSourceType | src/services/salary-calculator.ts:7-20 | cash, card and transfer are retail, the aggregator and contract methods their own kinds, and any other method null |
| SalaryCalculatorTs.RoundCents | src/services/salary-calculator.ts:44 | a positive amount rounded to the nearest whole cent, within half a cent of it |
| SalaryCalculatorTs.BaseAmount | src/services/salary-calculator.ts:39 | the net amount is the base whenever it is present, even when it is 0; the total otherwise |
| SalaryCalculatorTs.ShareOf | src/services/salary-calculator.ts:28-95 | no employees or an unknown scheme type earn nothing; a percentage share is the pool per employee rounded to the cent, 0 when not positive; a rate share is nothing when the rate source does not match, and otherwise is the services' rates per employee rounded to the cent (0 when not positive), with the unpaid service names |
| SalaryCalculatorTs.CalculateIndividualShare | src/services/salary-calculator.ts:28-95 | the method computes exactly the specified share |
| SalaryCalculatorTs.RatePool | src/services/salary-calculator.ts:71-86 | the services loop sums the paid services' earnings and lists each unpaid name once |
| SalaryCalculatorTs.KeyOrder | src/services/salary-calculator.ts:107-114 | the record's keys are the employee ids with no repeats |
| SalaryCalculatorTs.KeyOrderMembers | src/services/salary-calculator.ts:107-114 | an id is a key exactly when some employee has it |
| SalaryCalculatorTs.RowsInOrder | src/services/salary-calculator.ts:144 | the record's values in the order of the listed keys are rows of the record, at most one per key |
| SalaryCalculatorTs.RowsInOrderComplete | src/services/salary-calculator.ts:144 | when every key has a row, Object.values yields exactly the rows in key order |
| SalaryCalculatorTs.RowsInOrderExact | src/services/salary-calculator.ts:144 | with each key listed once, Object.values yields each row exactly once |
| SalaryCalculatorTs.DistinctCard | src/services/salary-calculator.ts:107-114 | distinct keys are as many as the rows they index |
| SalaryCalculatorTs.GenerateSalaryReport | src/services/salary-calculator.ts:98-145 | the method computes the TypeScript report: the rows as Object.values lists them (array-index ids first, ascending, then the other ids in first-seen order), stably sorted by total descending |
| SalaryCalculatorTs.CollectEmployees | src/services/salary-calculator.ts:106-114 | the initialisation loop gives each employee id a fresh row and records the key order; the keys and the rows agree |
| SalaryCalculatorTs.CreditWash | src/services/salary-calculator.ts:116-141 | a wash with no employee ids, or none that resolve, is skipped; otherwise each employee on it is credited; no row is added or removed |
| SalaryCalculatorTs.CreditEmployees | src/services/salary-calculator.ts:122-140 | each employee on the wash is credited with a share split among all of them |
| SalaryCalculatorTs.TsReportSpec | src/services/salary-calculator.ts:98-145 | the report holds every employee's row exactly once, sorted by total descending |
| SalaryCalculatorTs.TsReport | src/services/salary-calculator.ts:98-145 | the rows in Object.values order sorted by total, largest first (TsReportSpec, TsReportStable and TsReportStableFirstSeen state this) |
| SalaryCalculatorTs.ExactAfterPermutation | src/services/salary-calculator.ts:144 | sorting a list that holds every row exactly once keeps that so |
| SalaryCalculatorTs.TsReportStable | src/services/salary-calculator.ts:144 | rows with equal totals keep the order Object.values lists them in: array-index ids first, ascending, then the other ids in first-seen order |
| SalaryCalculatorTs.TsReportStableFirstSeen | src/services/salary-calculator.ts:104-144 | when no employee id is a decimal number, rows with equal totals keep the order their employees were first listed in |
| SalaryCalculatorTs.NetAmountZeroDiffers | src/services/salary-calculator.ts:39 | on a net amount of 0 the two backends differ: Go pays 225 from the total, TypeScript pays 0 |
| SalaryCalculatorTs.RoundingDiffers | src/services/salary-calculator.ts:44 | on a share of 2.999 Go truncates to 2.99 and TypeScript rounds to 3.00 |
| SalaryCalculatorTs.UnknownMethodDiffers | src/services/salary-calculator.ts:54-59 | with an unknown payment method and an empty rate source, Go's empty kind matches and pays, TypeScript's null does not |
| SalaryCalculatorTs.DuplicateRecordsDiffer | src/services/salary-calculator.ts:119 | with two records sharing an id, Go credits the last and TypeScript the first |
| Transactions.BalanceTarget | internal/handlers/transactions.go:122-160 | the balance goes to an aggregator only when one was found, to a counter agent only when one was found, and to nobody exactly when neither lookup succeeds |
| Transactions.BalanceTargetOrder | internal/handlers/transactions.go:122-160 | the four lookups come down to one rule: an "agent_" id naming a counter agent credits it; otherwise an aggregator wins over a counter agent |
| Transactions.SavedOrKept | internal/handlers/transactions.go:128 | a save whose error is ignored leaves the directory written when it succeeds and untouched when it fails |
| Transactions.SaveUnderOwnName | internal/handlers/transactions.go:125-128 | a record saved under its own file name is what the next lookup by its id returns |
| Transactions.WriteFailsAlike | internal/handlers/transactions.go:128-149 | whether a save fails depends on the directory and the name, not on the record |
| Transactions.CreditedTwice | internal/handlers/transactions.go:127-148 | a credit followed by one that undoes it leaves the record found as it was |
| Transactions.PaymentThenReversal | internal/handlers/transactions.go:60-112 | a payment followed by its reversal leaves every client record found as before |
| Transactions.CreditAggregator | internal/handlers/transactions.go:125-131 | the aggregator named is credited and saved, and the cached aggregators are dropped |
| Transactions.CreditCounterAgent | internal/handlers/transactions.go:136-142 | the counter agent named is credited and saved, and the cached counter agents are dropped |
| Transactions.UpdateClientBalance | internal/handlers/transactions.go:122-160 | the amount goes to the record the id names, only that collection's cache is dropped, and an unknown id changes nothing |
| Transactions.CreditFirstFound | internal/handlers/transactions.go:145-159 | when the prefixes did not settle it, the aggregators are tried before the counter agents |
| Transactions.Stamped | internal/handlers/transactions.go:37-42 | the stored payment has its id (an "ctrans_" one when none was sent), the path's client and the type "payment", and keeps date, amount and description |
| Transactions.RemoveClientTransaction | internal/handlers/transactions.go:86-97 | the loop drops every transaction with the id, reports whether one existed, and keeps the amount of the last one |
| Transactions.LastAmountSpec | internal/handlers/transactions.go:90-97 | there is an amount to reverse exactly when some transaction has the id, and it is the last such transaction's |
| Transactions.LastAmount | internal/handlers/transactions.go:86-97 | the amount of the last transaction carrying the id, if any (LastAmountSpec states this) |
| Transactions.PaymentThenDeletion | internal/handlers/transactions.go:45-112 | adding a payment and deleting it by its id reverses its own amount and, when the id was new, restores the ledger |
| Transactions.SharedIdReversesLastOnly | internal/handlers/transactions.go:90-97 | two transactions sharing an id are both deleted, but only the later amount is reversed |
| Transactions.WriteLedgerAndCredit | internal/handlers/transactions.go:53-62 | the ledger is saved, the balance updated and the cached ledger dropped |
| Transactions.AddClientTransaction | internal/handlers/transactions.go:27-65 | the stamped payment is appended to the client's ledger (an unreadable one counts as empty), added to the balance, and returned |
| Transactions.DeleteClientTransaction | internal/handlers/transactions.go:68-119 | a missing id is a bad request, an unreadable ledger or an absent id not found with nothing changed; otherwise every transaction with the id is removed and the last one's amount is taken off the balance |
| Employees.Merged | internal/handlers/employees.go:128-141 | Update keeps the stored id, keeps the username and password when the body leaves them empty, and takes every other field from the body, empty or not |
| Employees.MergedIdempotent | internal/handlers/employees.go:128-141 | sending the same update twice is the same as sending it once |
| Employees.MergedFullBody | internal/handlers/employees.go:128-141 | a body with every field set replaces the stored record entirely |
| Employees.MergedClearsScheme | internal/handlers/employees.go:133 | an empty salary scheme in the body clears the stored one, while an empty password keeps the stored password |
| Employees.StripPasswords | internal/handlers/employees.go:36-47 | GetAll's loop returns every employee, in order, without the password |
| Employees.GetEmployees | internal/handlers/employees.go:263-275 | the store's listing is returned, from the cache when it is loaded, and cached when it was not |
| Employees.SaveAndInvalidate | internal/handlers/employees.go:143-149 | the employee is written under its file name and the cached list dropped on success; on failure nothing changes |
| Employees.GetAll | internal/handlers/employees.go:27-50 | every listed employee, in order, without the password; a failed listing is an internal error |
| Employees.Create | internal/handlers/employees.go:53-84 | the employee is saved under its id or a generated "emp_" one, and answered without the password; a failed save is an internal error with nothing changed |
| Employees.GetByID | internal/handlers/employees.go:87-106 | the employee with the id, without the password, or NotFound |
| Employees.Update | internal/handlers/employees.go:109-158 | an unknown id is NotFound with nothing changed; otherwise the merged record is saved and answered without the password |
| Employees.Delete | internal/handlers/employees.go:161-175 | any failure to delete is NotFound with nothing changed; otherwise the record is removed and the cached list dropped |
| Employees.Stamped | internal/handlers/employees.go:189-193 | the stored transaction has its id (a "trans_" one when none was sent) and the path's employee, and keeps every other field as sent |
| Employees.RemoveEmployeeTransaction | internal/handlers/employees.go:233-243 | the loop drops every transaction with the id and reports whether one existed |
| Employees.WriteLedger | internal/handlers/employees.go:203-209 | the employee's ledger is saved and only that employee's cached ledger is dropped |
| Employees.AddTransaction | internal/handlers/employees.go:178-212 | the stamped transaction is appended to the employee's ledger (an unreadable one counts as empty) and returned |
| Employees.DeleteTransaction | internal/handlers/employees.go:215-261 | a missing id is a bad request, an unreadable ledger or an absent id not found with nothing changed; otherwise every transaction with the id is removed |
| Employees.AddThenDelete | internal/handlers/employees.go:178-261 | adding a transaction with a new id and deleting it restores the ledger |
| CounterAgents.Prepared | internal/handlers/counter_agents.go:60-74 | Create fills in a missing id with an "agent_" one and replaces nil companies, cars and price list by empty lists, changing nothing else |
| CounterAgents.GeneratedIdListed | internal/handlers/counter_agents.go:60-63 | an agent created without an id gets one that the listing then includes |
| CounterAgents.SaveAndInvalidate | internal/handlers/counter_agents.go:76-82 | the agent is written under its id's file name and the cached list dropped on success; on failure nothing changes |
| CounterAgents.GetCounterAgents | internal/handlers/counter_agents.go:137-149 | the store's listing, from the cache when loaded, cached when it was not |
| CounterAgents.GetAll | internal/handlers/counter_agents.go:26-35 | the listing, or an internal error when it fails |
| CounterAgents.GetByID | internal/handlers/counter_agents.go:38-49 | the agent with the id, read from the store, or NotFound |
| CounterAgents.Create | internal/handlers/counter_agents.go:52-85 | the prepared agent is saved and returned; a failed save is an internal error with nothing changed |
| CounterAgents.Update | internal/handlers/counter_agents.go:88-118 | an unknown id is NotFound; otherwise the body replaces the agent whole under the path id |
| CounterAgents.Delete | internal/handlers/counter_agents.go:121-134 | any failure to delete is NotFound with nothing changed; otherwise the agent is removed |
| Aggregators.Prepared | internal/handlers/aggregators.go:60-71 | Create fills in a missing id with an "agg_" one and replaces nil cars and price lists by empty lists, changing nothing else |
| Aggregators.GeneratedIdListed | internal/handlers/aggregators.go:60-63 | an aggregator created without an id gets one that the listing then includes |
| Aggregators.SaveAndInvalidate | internal/handlers/aggregators.go:73-79 | the aggregator is written under its id's file name and the cached list dropped on success; on failure nothing changes |
| Aggregators.GetAggregators | internal/handlers/aggregators.go:134-146 | the store's listing, from the cache when loaded, cached when it was not |
| Aggregators.GetAll | internal/handlers/aggregators.go:26-35 | the listing, or an internal error when it fails |
| Aggregators.GetByID | internal/handlers/aggregators.go:38-49 | the aggregator with the id, read from the store, or NotFound |
| Aggregators.Create | internal/handlers/aggregators.go:52-82 | the prepared aggregator is saved and returned; a failed save is an internal error with nothing changed |
| Aggregators.Update | internal/handlers/aggregators.go:85-115 | an unknown id is NotFound; otherwise the body replaces the aggregator whole under the path id |
| Aggregators.Delete | internal/handlers/aggregators.go:118-131 | any failure to delete is NotFound with nothing changed; otherwise the aggregator is removed |
| SalarySchemes.Prepared | internal/handlers/salary_schemes.go:46-54 | Create fills in a missing id with a "scheme_" one and replaces a nil rate list by an empty one, changing nothing else |
| SalarySchemes.GeneratedIdListed | internal/handlers/salary_schemes.go:46-49 | a scheme created without an id gets one that the listing then includes |
| SalarySchemes.SaveAndInvalidate | internal/handlers/salary_schemes.go:56-62 | the scheme is written under its id's file name and the cached list dropped on success; on failure nothing changes |
| SalarySchemes.GetSalarySchemes | internal/handlers/salary_schemes.go:131-143 | the store's listing, from the cache when loaded, cached when it was not |
| SalarySchemes.GetAll | internal/handlers/salary_schemes.go:26-35 | the listing, or an internal error when it fails |
| SalarySchemes.GetByID | internal/handlers/salary_schemes.go:68-79 | the scheme with the id, read from the store, or NotFound |
| SalarySchemes.Create | internal/handlers/salary_schemes.go:38-65 | the prepared scheme is saved and returned; a failed save is an internal error with nothing changed |
| SalarySchemes.Update | internal/handlers/salary_schemes.go:82-112 | an unknown id is NotFound; otherwise the body replaces the scheme whole under the path id |
| SalarySchemes.Delete | internal/handlers/salary_schemes.go:115-128 | any failure to delete is NotFound with nothing changed; otherwise the scheme is removed |
| PriceList.Prepared | internal/handlers/price_list.go:43-49 | Update replaces nil main and additional price lists by empty ones and changes nothing else |
| PriceList.PreparedIdempotent | internal/handlers/price_list.go:43-49 | saving what a read returned saves it unchanged |
| PriceList.GetRetailPriceConfig | internal/handlers/price_list.go:62-74 | the stored configuration, from the cache when loaded, cached when it was not |
| PriceList.Get | internal/handlers/price_list.go:23-32 | the configuration, or an internal error when it cannot be read |
| PriceList.Update | internal/handlers/price_list.go:35-60 | the whole configuration is replaced, the cached copy dropped, and the next read returns what was saved |
| PriceList.GetInventory | internal/handlers/price_list.go:101-113 | the stored counter (0 grams when missing), from the cache when loaded, cached when it was not |
| PriceList.InventoryGet | internal/handlers/price_list.go:90-99 | the counter, or an internal error when it cannot be read |
| DataLoader.Flattened | src/lib/data-loader.ts:59-79 | reading the entries fails only as an internal error |
| DataLoader.FlattenedFails | src/lib/data-loader.ts:62-65 | the read fails exactly when some ".json" entry cannot be read |
| DataLoader.FlattenedFailsOn | src/lib/data-loader.ts:62-65 | a failure anywhere fails the whole read |
| DataLoader.FlattenedMembers | src/lib/data-loader.ts:62-78 | a record is read exactly when some ".json" file contributes it: every element of an array, an object as itself, nothing for text that does not parse |
| DataLoader.Listing | src/lib/data-loader.ts:62-78 | a missing directory reads as no records, an unreadable one as an internal error, otherwise the flattened records of its ".json" files, or an internal error when one of them cannot be read (FlattenedFails and FlattenedMembers state this) |
| DataLoader.ListingNewestFirst | src/lib/data-loader.ts:83-89 | the listing sorted by date, newest first, keeping the order of equal dates (SortDescTextSpec and SortDescTextStable state this) |
| DataLoader.ArrayFileSpreads | src/lib/data-loader.ts:63-73 | an array file contributes its elements, and a file without the ".json" suffix nothing |
| DataLoader.Created | src/lib/data-loader.ts:44-54 | creating a missing directory does not change what it lists |
| DataLoader.ReadDataFromDirectory | src/lib/data-loader.ts:42-80 | a missing directory is created and lists no records; otherwise its files are read in order |
| DataLoader.FileNamed | src/lib/data-loader.ts:137 | the file read for an owner is the one with the owner's name, or none |
| DataLoader.LedgerFile | src/lib/data-loader.ts:136-157 | an owner's ledger read fails only as an internal error |
| DataLoader.CreatedKeepsLedgers | src/lib/data-loader.ts:147-150 | creating the ledger directory changes no ledger read and keeps the cached ledgers right |
| DataLoader.WithDefaults | src/lib/data-loader.ts:228-229 | a configuration read from the file gets allowCustomRetailServices true and cardAcquiringPercentage 1.2 when they are absent, and nothing else changes |
| DataLoader.CreatedFilesReadAlike | src/lib/data-loader.ts:234-264 | the files created on a miss read back as what the miss returned, and filling defaults twice is filling them once |
| DataLoader.FirstWithId | src/lib/data-loader.ts:189-217 | the record found by id comes from the list and has the id |
| DataLoader.FirstWithIdSpec | src/lib/data-loader.ts:189-217 | find gives null exactly when no record has the id, and otherwise the first record that has it |
| DataLoader.LedgerRewriteThenDrop | src/lib/data-loader.ts:30-38 | rewriting one owner's file and dropping that owner's key keeps every other cached ledger right |
| DataLoader.LedgerRewriteWithoutDropIsStale | src/lib/data-loader.ts:132-133 | without the drop, a cached ledger outlives the file it was read from |
| DataLoader.Loader.constructor | src/lib/data-loader.ts:9-19 | a freshly loaded module has every cache empty |
| DataLoader.Loader.InvalidateWashEventsCache | src/lib/data-loader.ts:22 | the wash-event cache is emptied |
| DataLoader.Loader.InvalidateAggregatorsCache | src/lib/data-loader.ts:23 | the aggregator cache is emptied |
| DataLoader.Loader.InvalidateCounterAgentsCache | src/lib/data-loader.ts:24 | the counter-agent cache is emptied |
| DataLoader.Loader.InvalidateEmployeesCache | src/lib/data-loader.ts:25 | the employee cache is emptied |
| DataLoader.Loader.InvalidateSalarySchemesCache | src/lib/data-loader.ts:26 | the salary-scheme cache is emptied |
| DataLoader.Loader.InvalidateRetailPriceConfigCache | src/lib/data-loader.ts:27 | the configuration cache is emptied |
| DataLoader.Loader.InvalidateExpensesCache | src/lib/data-loader.ts:28 | the expense cache is emptied |
| DataLoader.Loader.InvalidateInventoryCache | src/lib/data-loader.ts:29 | the inventory cache is emptied |
| DataLoader.Loader.InvalidateEmployeeTransactionsCache | src/lib/data-loader.ts:30-33 | only that employee's ledger and the all-transactions snapshot are dropped, after which the caches agree with the files again |
| DataLoader.Loader.InvalidateAllEmployeeTransactionsCache | src/lib/data-loader.ts:34-37 | every employee ledger and the snapshot are dropped |
| DataLoader.Loader.InvalidateClientTransactionsCache | src/lib/data-loader.ts:38 | only that client's ledger is dropped, after which the caches agree with the files again |
| DataLoader.Loader.GetWashEventsData | src/lib/data-loader.ts:83-89 | the cached list when loaded, else the directory's records sorted newest first, which are then cached |
| DataLoader.Loader.GetAggregatorsData | src/lib/data-loader.ts:91-95 | the cached list when loaded, else the directory's records, which are then cached |
| DataLoader.Loader.GetCounterAgentsData | src/lib/data-loader.ts:97-101 | the cached list when loaded, else the directory's records, which are then cached |
| DataLoader.Loader.GetEmployeesData | src/lib/data-loader.ts:103-107 | the cached list when loaded, else the directory's records, which are then cached |
| DataLoader.Loader.GetSalarySchemesData | src/lib/data-loader.ts:109-113 | the cached list when loaded, else the directory's records, which are then cached |
| DataLoader.Loader.GetExpensesData | src/lib/data-loader.ts:115-121 | the cached list when loaded, else the directory's records sorted newest first, which are then cached |
| DataLoader.Loader.GetAllEmployeeTransactions | src/lib/data-loader.ts:123-129 | every employee's ledger flattened into one list, newest first, cached |
| DataLoader.Loader.GetEmployeeTransactions | src/lib/data-loader.ts:131-158 | the employee's cached ledger, else the file's sorted newest first and cached; a missing file is an empty ledger that is not cached |
| DataLoader.Loader.GetClientTransactions | src/lib/data-loader.ts:160-187 | the client's cached ledger, else the file's sorted newest first and cached; a missing file is an empty ledger that is not cached |
| DataLoader.Loader.GetEmployeeById | src/lib/data-loader.ts:189-192 | the first employee with the id in the cached listing, or null |
| DataLoader.Loader.GetCounterAgentById | src/lib/data-loader.ts:194-197 | the first counter agent with the id, or null |
| DataLoader.Loader.GetAggregatorById | src/lib/data-loader.ts:199-202 | the first aggregator with the id, or null |
| DataLoader.Loader.GetExpenseById | src/lib/data-loader.ts:204-207 | the first expense with the id in the sorted listing, or null |
| DataLoader.Loader.GetWashEventById | src/lib/data-loader.ts:209-212 | the first wash event with the id in the sorted listing, or null |
| DataLoader.Loader.GetSalarySchemeById | src/lib/data-loader.ts:214-217 | the first scheme with the id, or null |
| DataLoader.Loader.GetRetailPriceConfig | src/lib/data-loader.ts:220-244 | the cached configuration, else the file's with defaults, cached; a missing file is created holding the empty configuration |
| DataLoader.Loader.GetInventory | src/lib/data-loader.ts:246-269 | the cached counter, else the file's, cached; a missing file is created holding 0 grams |
| Totals.TotalAppend | src/app/invoices/components/InvoiceTemplate.tsx:58 | a reduce-sum of two pieces is the sum of their sums |
| Totals.TotalFilter | src/components/common/ClientFinanceDashboard.tsx:131-143 | summing a filtered list is summing the whole with the rejected elements counted as zero |
| Totals.TotalPermutation | src/components/common/ClientFinanceDashboard.tsx:87 | a sum does not depend on the order of its summands, so sorting a journal keeps its totals |
| Totals.TotalSplit | src/components/common/ClientFinanceDashboard.tsx:131-143 | a sum is its part where a condition holds plus the part where it does not |
| Totals.TotalZero | src/app/invoices/components/InvoiceTemplate.tsx:58 | a sum of zeroes is zero |
| Totals.TotalOnes | src/app/invoices/components/InvoiceGenerator.tsx:94-113 | a count by adding ones is the number of elements |
| Totals.FilterAppend | src/components/common/ClientFinanceDashboard.tsx:67-85 | filtering two pieces is filtering each, in order |
| Totals.FilterAll | src/components/common/ClientFinanceDashboard.tsx:67-85 | a filter every element passes keeps the list whole |
| Totals.FilterKeeps | src/components/common/ClientFinanceDashboard.tsx:67-85 | what a filter keeps is in the list and passes |
| Totals.FilterFinds | src/components/common/ClientFinanceDashboard.tsx:67-85 | a filter keeps everything in the list that passes |
| Totals.FilterPermutation | src/components/common/ClientFinanceDashboard.tsx:87 | filtering two orderings of the same elements keeps the same elements |
| Grouping.KeysDistinct | src/app/invoices/components/InvoiceGenerator.tsx:94-113 | the groups' keys are listed once each |
| Grouping.KeysCover | src/app/invoices/components/InvoiceGenerator.tsx:94-113 | a key is listed exactly when some element carries it |
| Grouping.MembersOfAbsent | src/app/invoices/components/InvoiceGenerator.tsx:94-113 | a key no element carries has no members |
| Grouping.MembersOfListed | src/app/invoices/components/InvoiceGenerator.tsx:94-113 | every listed key has at least one member |
| Grouping.GroupTotalStep | src/app/invoices/components/InvoiceGenerator.tsx:94-113 | one element more adds its amount to its own group only |
| Grouping.GroupsPartition | src/app/invoices/components/InvoiceGenerator.tsx:94-113 | the groups partition the list: summed group by group an amount adds up to its sum over the whole |
| Grouping.DistinctOnce | src/app/inventory/components/InventoryDashboard.tsx:124-130 | a key listed once each occurs at most once |
| Grouping.DistinctPermutation | src/app/inventory/components/InventoryDashboard.tsx:132 | reordering keys listed once each keeps them listed once each |
| Grouping.GroupTotalIsTotal | src/app/inventory/components/InventoryDashboard.tsx:119-133 | the group totals, key by key, are the sum over the keys of each group's sum |
| Grouping.GroupTotalPermutation | src/app/inventory/components/InventoryDashboard.tsx:132 | the group totals add up the same whatever order the keys are taken in |
| PropertyKeys.PropertyOrderSpec | src/services/salary-calculator.ts:144 | Object.values lists the keys that are array indices first, in ascending numeric order, then every other key in the order it was added |
| PropertyKeys.PropertyOrder | src/services/salary-calculator.ts:144 | the order Object.values lists a record's keys in (PropertyOrderSpec, PropertyOrderPermutes and PropertyOrderMembers state it) |
| PropertyKeys.PropertyOrderPermutes | src/services/salary-calculator.ts:144 | every added key is listed, as often as it was added |
| PropertyKeys.PropertyOrderMembers | src/services/salary-calculator.ts:144 | a key is listed exactly when it was added, and keys added once each are listed once each |
| PropertyKeys.PropertyOrderInsertion | src/services/salary-calculator.ts:144 | when no key is an array index the keys are listed in the order they were added |
| PropertyKeys.PropertyOrderExample | src/services/salary-calculator.ts:144 | ids added as b, 2, a, 10, 1 are listed as 1, 2, 10, b, a |
| PropertyKeys.FilterSplit | src/services/salary-calculator.ts:144 | the array-index keys and the others together are the added keys |
| PropertyKeys.SortedIndices | src/services/salary-calculator.ts:144 | ordering the array-index keys keeps them all array indices |
| Plates.CyrillicToLatin | src/lib/utils.ts:19-27 | each of the twelve Cyrillic look-alikes, capital or small, maps to a Latin capital |
| Plates.TransliteratedAll | src/lib/utils.ts:29-32 | the loop replaces every character by its transliteration, keeping the length |
| Plates.KeepPlateChars | src/lib/utils.ts:34 | the filter keeps only Latin capitals and digits |
| Plates.KeepAppend | src/lib/utils.ts:34 | the filter works piece by piece |
| Plates.KeepPlateText | src/lib/utils.ts:34 | a text of Latin capitals and digits passes the filter whole |
| Plates.KeepShorter | src/lib/utils.ts:34 | the filter never lengthens a text |
| Plates.CharImage | src/lib/utils.ts:29-34 | one character becomes at most three (the ligature ﬃ gives FFI) |
| Plates.NormalizeLicensePlate | src/lib/utils.ts:16-35 | the function computes the per-character normalisation, and an empty plate gives "" |
| Plates.PipelineIsPerChar | src/lib/utils.ts:29-34 | transliterating, upper-casing and filtering the whole string is mapping each character to its image |
| Plates.NormalizedChars | src/lib/utils.ts:34 | a normalised plate holds only Latin capitals and digits |
| Plates.NormalizedAppend | src/lib/utils.ts:29-34 | plates normalise piece by piece: order is kept and nothing crosses a boundary |
| Plates.PlateCharFixed | src/lib/utils.ts:34 | a Latin capital or a digit is left as it is |
| Plates.PlateTextFixed | src/lib/utils.ts:16-35 | a text of Latin capitals and digits normalises to itself |
| Plates.LookAlikeImage | src/lib/utils.ts:19-34 | each Cyrillic look-alike, capital or small, becomes its Latin capital |
| Plates.NormalizedSnoc | src/lib/utils.ts:29-34 | one more character adds its image at the end |
| Plates.NormalizedIdempotent | src/lib/utils.ts:16-35 | normalising twice is normalising once |
| Plates.NormalizedChar | src/lib/utils.ts:30-31 | a one-character plate normalises to that character's image |
| Plates.ExampleImages | src/lib/utils.ts:20-22 | the images of С, Е, А and of digits |
| Plates.NormalizedExample | src/lib/utils.ts:16-35 | "С003ЕА" typed in Cyrillic normalises to "C003EA" |
| Plates.NormalizedSmallAndSpace | src/lib/utils.ts:24-34 | a small Cyrillic а becomes A and a space is dropped |
| Plates.NormalizedSpecialCasing | src/lib/utils.ts:34 | "ß1" normalises to "SS1" and the ligature ﬁ to "FI", by toUpperCase's special mappings |
| Text.RemoveAll | internal/storage/json_store.go:138 | removing every occurrence of a non-empty pattern never lengthens the text |
| Text.LowerChar | internal/handlers/expenses.go:60 | lower-casing maps ASCII capitals to small letters and leaves non-letters alone |
| Text.UpperChar | src/lib/utils.ts:34 | upper-casing maps ASCII small letters to capitals and leaves non-letters alone |
| Text.Lower | internal/handlers/expenses.go:60 | lower-casing a text lower-cases each character |
| Text.Upper | src/lib/utils.ts:34 | upper-casing never shortens a text |
| Text.UpperImage | src/lib/utils.ts:34 | a character's upper case is one to three characters, and an ASCII or Cyrillic letter's is its single UpperChar |
| Text.SpecialUpper | src/lib/utils.ts:34 | the special mappings (ß to SS, ſ to S, ı to I, the ligatures ﬀ to ﬆ) give one to three characters |
| Text.UpperAppend | src/lib/utils.ts:34 | upper-casing works character by character: a text's image is the images of its pieces, in order |
| Text.UpperSimple | src/lib/utils.ts:34 | on ASCII and Cyrillic text upper-casing keeps the length and maps each character by UpperChar |
| Text.TrimStart | src/app/invoices/components/InvoiceTemplate.tsx:45 | trimming the start keeps a suffix that does not start with white space |
| Text.TrimEnd | src/app/invoices/components/InvoiceTemplate.tsx:45 | trimming the end keeps a prefix that does not end with white space |
| Text.Decimal | src/app/invoices/components/InvoiceTemplate.tsx:52 | a number printed in decimal is never empty |
| Text.LexLessIrreflexive | internal/storage/json_store.go:304 | no date string sorts before itself |
| Text.LexLessTransitive | internal/storage/json_store.go:304 | string order is transitive |
| Text.LexLessAsymmetric | internal/storage/json_store.go:304 | string order is asymmetric |
| Text.NotLexLessTransitive | internal/storage/json_store.go:304 | "not before" is transitive too |
| Text.LexLessTotal | internal/storage/json_store.go:304 | two different strings are ordered one way or the other |
| Spacing.SpacedAppend | src/app/invoices/components/InvoiceTemplate.tsx:35-44 | pieces each followed by a blank concatenate piecewise |
| Spacing.SpacedIsJoined | src/app/invoices/components/InvoiceTemplate.tsx:35-44 | pieces each followed by a blank are the pieces joined by single spaces plus a final blank |
| Spacing.JoinAppend | src/app/invoices/components/InvoiceTemplate.tsx:35-44 | joining two lists of words puts one space between them |
| Spacing.JoinTidy | src/app/invoices/components/InvoiceTemplate.tsx:45 | joined tidy words form a tidy text |
| Spacing.TrimStartSpace | src/app/invoices/components/InvoiceTemplate.tsx:45 | a leading blank is trimmed |
| Spacing.TrimEndSpace | src/app/invoices/components/InvoiceTemplate.tsx:45 | a trailing blank is trimmed |
| Spacing.TrimStartTidy | src/app/invoices/components/InvoiceTemplate.tsx:45 | a text not starting with white space is unchanged by trimming the start |
| Spacing.TrimEndTidy | src/app/invoices/components/InvoiceTemplate.tsx:45 | a text not ending with white space is unchanged by trimming the end |
| Spacing.TrimTidy | src/app/invoices/components/InvoiceTemplate.tsx:45 | a tidy text with or without one blank on each side trims to itself |
| Spacing.TrimBlank | src/app/invoices/components/InvoiceTemplate.tsx:45 | "" and " " trim to "" |
| Spacing.TrimSpacedNonEmpty | src/app/invoices/components/InvoiceTemplate.tsx:45 | trimming tidy pieces each followed by a blank, with or without a leading blank, joins them by single spaces |
| Spacing.TrimSpaced | src/app/invoices/components/InvoiceTemplate.tsx:45 | the blank in front of an empty thousands part and the one after the last piece are trimmed away |
| Spacing.TrimSpacedLast | src/app/invoices/components/InvoiceTemplate.tsx:41-45 | the same with a last piece that has no blank after it |
| Spacing.TidyAppend | src/app/invoices/components/InvoiceTemplate.tsx:41-44 | a tidy last piece keeps the list tidy |
| Spacing.TrimBuilt | src/app/invoices/components/InvoiceTemplate.tsx:33-46 | trimming what numToWords builds gives its words joined by single spaces |
| Spacing.AppendPiece | src/app/invoices/components/InvoiceTemplate.tsx:37-39 | appending a piece and a blank extends the spaced list by that piece |
| Spacing.ThousandsPiece | src/app/invoices/components/InvoiceTemplate.tsx:35 | the thousands part is its words, the noun, each followed by a blank, with a blank left in front when the thousands spell as nothing |
| AmountWords.DeclensionIndex | src/app/invoices/components/InvoiceTemplate.tsx:28-31 | the form chosen by declension is one of the three in each noun table |
| AmountWords.DeclensionRule | src/app/invoices/components/InvoiceTemplate.tsx:29-30 | the first form after 1, 21, 31 … but not 11; the second after 2-4, 22-24 … but not 12-14; the third otherwise, each an if-and-only-if |
| AmountWords.JsRem | src/app/invoices/components/InvoiceTemplate.tsx:30 | JavaScript's % agrees with the remainder on non-negative numbers and lies between −b and 0 on negative ones |
| AmountWords.Declension | src/app/invoices/components/InvoiceTemplate.tsx:28-31 | for n ≥ 0 the form chosen by the declension rule; for n < 0 the third form when n is a multiple of ten, "undefined" otherwise |
| AmountWords.HundredWord | src/app/invoices/components/InvoiceTemplate.tsx:37 | a number below a thousand yields at most one hundred word, a valid one |
| AmountWords.TenWord | src/app/invoices/components/InvoiceTemplate.tsx:39 | the last two digits yield at most one ten word, a valid one |
| AmountWords.UnitWord | src/app/invoices/components/InvoiceTemplate.tsx:41-44 | a digit yields at most one unit word, a valid one, with одна and две in the feminine |
| AmountWords.SmallAsWritten | src/app/invoices/components/InvoiceTemplate.tsx:36-44 | the words numToWords emits for a number below a thousand are valid words |
| AmountWords.AsWrittenWords | src/app/invoices/components/InvoiceTemplate.tsx:33-46 | the words numToWords emits, thousands first, are valid words |
| AmountWords.Small | src/app/invoices/components/InvoiceTemplate.tsx:36-44 | with the teens spelled as one word, the words for a number below a thousand are valid |
| AmountWords.Words | src/app/invoices/components/InvoiceTemplate.tsx:33-46 | with the teens spelled, the words for any number are valid |
| AmountWords.SmallRead | src/app/invoices/components/InvoiceTemplate.tsx:36-44 | the spelled words for a number below a thousand read back to that number |
| AmountWords.WordsRoundTrip | src/app/invoices/components/InvoiceTemplate.tsx:33-46 | with the teens spelled, the words of every number read back to the number: no digit group is lost |
| AmountWords.SmallAsWrittenRead | src/app/invoices/components/InvoiceTemplate.tsx:38-44 | as written, a number below a thousand whose last two digits are 10-19 reads back exactly ten short |
| AmountWords.AsWrittenRead | src/app/invoices/components/InvoiceTemplate.tsx:33-46 | as written, the words read back short by exactly ten for every group of three digits that ends in a teen, scaled by its position |
| AmountWords.AsWrittenUnfold | src/app/invoices/components/InvoiceTemplate.tsx:35-36 | above a thousand the emitted words are valid and what is lost is the thousands' loss scaled plus the last group's |
| AmountWords.SmallAgrees | src/app/invoices/components/InvoiceTemplate.tsx:38-44 | below a thousand and without a teen, the code's words are the spelled words |
| AmountWords.AsWrittenAgrees | src/app/invoices/components/InvoiceTemplate.tsx:33-46 | when no group of three digits ends in a teen, numToWords as written spells the number correctly |
| AmountWords.FifteenSpelledAsFive | src/app/invoices/components/InvoiceTemplate.tsx:39-43 | as written, 15 and 5 get the same word пять, where пятнадцать is meant |
| AmountWords.FifteenAsWritten | src/app/invoices/components/InvoiceTemplate.tsx:39-43 | as written, 15 and 5 produce the single word for five |
| AmountWords.FifteenSpelled | src/app/invoices/components/InvoiceTemplate.tsx:23 | with the teens spelled, 15 is the single word for fifteen |
| AmountWords.SpelledUnit | src/app/invoices/components/InvoiceTemplate.tsx:23 | a masculine unit word from 1 to 19 prints as its entry of the to_19 table |
| AmountWords.SpellTidy | src/app/invoices/components/InvoiceTemplate.tsx:23-26 | every word printed from the tables is non-empty and has no blank at either end |
| AmountWords.SpellAllTidy | src/app/invoices/components/InvoiceTemplate.tsx:23-26 | so is every word of a list of word tokens |
| AmountWords.SpellAllAppend | src/app/invoices/components/InvoiceTemplate.tsx:35-44 | printing two lists of tokens is printing each, one after the other |
| AmountWords.NumToWords | src/app/invoices/components/InvoiceTemplate.tsx:33-46 | for n ≥ 0 numToWords builds, step by step, exactly the spelled words of AsWrittenWords joined by single spaces; for a negative n it writes nothing |
| AmountWords.SayBelowThousand | src/app/invoices/components/InvoiceTemplate.tsx:36-45 | appending the hundred, the ten and the unit to what the thousands built and trimming gives the words joined by single spaces |
| AmountWords.AsWrittenShape | src/app/invoices/components/InvoiceTemplate.tsx:35-44 | the emitted words are the thousands, their noun, the hundred, the ten and the unit, in that order, from the remainders the code computes |
| AmountWords.ThousandsBuilt | src/app/invoices/components/InvoiceTemplate.tsx:35 | the thousands string the code builds is a possible leading blank followed by the thousands' words and noun, each followed by a blank |
| AmountWords.AppendWord | src/app/invoices/components/InvoiceTemplate.tsx:37-39 | appending a hundred or a ten with its blank extends the spaced words by it |
| AmountWords.LastWord | src/app/invoices/components/InvoiceTemplate.tsx:41-45 | appending the unit without a blank and trimming gives all words joined by single spaces |
| AmountWords.Capitalized | src/app/invoices/components/InvoiceTemplate.tsx:51 | capitalising keeps the length, upper-cases the first letter and leaves the rest |
| AmountWords.KopecksTwoDigits | src/app/invoices/components/InvoiceTemplate.tsx:52 | below a hundred the kopecks print as two digits, tens first, with a leading 0 below ten |
| AmountWords.KopecksOf | src/app/invoices/components/InvoiceTemplate.tsx:49 | the kopecks, rounded half up from the fraction above the floor, are between 0 and 100 for every total, negative ones included |
| AmountWords.NumberToWords | src/app/invoices/components/InvoiceTemplate.tsx:48-53 | for a total of 0 or more: the capitalised words of the whole rubles as numToWords writes them, the ruble noun by declension, then the kopecks in figures and their noun; below 0: a blank, рублей when the floored rubles are a multiple of ten and "undefined" otherwise, then the kopecks |
| AmountWords.NegativeTotal | src/app/invoices/components/InvoiceTemplate.tsx:48-53 | a total of −5 is written " undefined 00 копеек" |
| AmountWords.NegativeTens | src/app/invoices/components/InvoiceTemplate.tsx:48-53 | a total of −9.5 is written " рублей 50 копеек" |
| PhoneFormat.Digits | src/app/employees/components/EmployeeForm.tsx:88 | stripping the non-digits keeps only digits and never lengthens the input |
| PhoneFormat.DigitsAppend | src/app/employees/components/EmployeeForm.tsx:88 | the digits of two pieces are the digits of each, in order |
| PhoneFormat.Substring | src/app/employees/components/EmployeeForm.tsx:100-110 | substring(start, end) gives at most end - start characters |
| PhoneFormat.SubstringSlice | src/app/employees/components/EmployeeForm.tsx:100-110 | inside the string, substring(start, end) is the slice from start to end |
| PhoneFormat.RestEmpty | src/app/employees/components/EmployeeForm.tsx:99-110 | once the number part is used up, the remaining groups append nothing |
| PhoneFormat.RestStep | src/app/employees/components/EmployeeForm.tsx:99-110 | while digits remain past a group's offset, that group appends its separator and its substring |
| PhoneFormat.Advance | src/app/employees/components/EmployeeForm.tsx:99-110 | one guarded append of the code keeps the formatted prefix in step with the layout |
| PhoneFormat.Finished | src/app/employees/components/EmployeeForm.tsx:99-113 | after the last guard the field holds the formatted value |
| PhoneFormat.Started | src/app/employees/components/EmployeeForm.tsx:92-98 | after the trunk prefix is dropped and "+7 (" written, the groups are still to come |
| PhoneFormat.HandlePhoneInputChange | src/app/employees/components/EmployeeForm.tsx:87-113 | the value handed to the field is the formatted phone: digits only, a leading 7 or 8 dropped, then three, three, two and two digits with "+7 (", ") ", "-" and "-" |
| PhoneFormat.DigitsOfDigits | src/app/employees/components/EmployeeForm.tsx:88 | a string of digits is left alone by the stripping |
| PhoneFormat.NumberPartDigits | src/app/employees/components/EmployeeForm.tsx:92-96 | the number part is digits only |
| PhoneFormat.FillDigits | src/app/employees/components/EmployeeForm.tsx:99-110 | the separators carry no digits: a filled layout holds exactly its first Width digits |
| PhoneFormat.FillTake | src/app/employees/components/EmployeeForm.tsx:99-110 | digits past the layout's width are never written |
| PhoneFormat.LayoutWellFormed | src/app/employees/components/EmployeeForm.tsx:99-110 | the groups hold three, three, two and two digits: ten in all |
| PhoneFormat.FormattedDigits | src/app/employees/components/EmployeeForm.tsx:87-113 | the digits of a formatted phone are none when none were typed, otherwise 7 followed by the first ten digits of the number part |
| PhoneFormat.FormattedIdempotent | src/app/employees/components/EmployeeForm.tsx:87-113 | formatting the formatted value again changes nothing, so retyping into the field is stable |
| PhoneFormat.NumberPartAppend | src/app/employees/components/EmployeeForm.tsx:94-96 | digits typed after the first keep their place in the number part |
| PhoneFormat.FormattedKeepsTen | src/app/employees/components/EmployeeForm.tsx:109-110 | once the number part has ten digits, further digits do not change the field |
| PhoneFormat.FormattedShort | src/app/employees/components/EmployeeForm.tsx:93-98 | no digit gives the empty field and a lone 7 or 8 gives just "+7 (" |
| PhoneFormat.FullLayout | src/app/employees/components/EmployeeForm.tsx:99-110 | ten digits or more fill every group: three, ") ", three, "-", two, "-", two |
| PhoneFormat.CompleteNumber | src/app/employees/components/EmployeeForm.tsx:204 | "89991234567" formats to the placeholder's "+7 (999) 123-45-67" |
| ClientFinance.WashLines | src/components/common/ClientFinanceDashboard.tsx:67-75 | one charge line per wash, in order, carrying the wash's total as its debit |
| ClientFinance.PaymentLines | src/components/common/ClientFinanceDashboard.tsx:77-85 | one credit line per payment, in order, carrying its amount |
| ClientFinance.Merged | src/components/common/ClientFinanceDashboard.tsx:87 | the wash lines and the payment lines in one list, ordered by date (MergedOrdered, MergedTotals and MergedFromStart state this) |
| ClientFinance.OpeningBalance | src/components/common/ClientFinanceDashboard.tsx:96-106 | as written, the client's balance less the charges and plus the payments dated from the period's start on (EndAsWritten and EndDriftsExample state where this leads) |
| ClientFinance.PeriodJournal | src/components/common/ClientFinanceDashboard.tsx:118-120 | the journal's lines dated within the period, newest first (PeriodJournalSpec and SummaryOfPeriod state this) |
| ClientFinance.Journal | src/components/common/ClientFinanceDashboard.tsx:110-116 | the journal has one line per entry, each carrying the opening balance less the charges and plus the payments up to it |
| ClientFinance.RunningBalances | src/components/common/ClientFinanceDashboard.tsx:110-116 | the loop builds exactly that journal and ends at the opening balance less every charge plus every payment |
| ClientFinance.JournalEnds | src/components/common/ClientFinanceDashboard.tsx:110-125 | the last line's balance is the balance the loop ends with |
| ClientFinance.Statement | src/components/common/ClientFinanceDashboard.tsx:62-126 | nothing and zero balances without a start date; otherwise the period's lines, the start balance and the end balance the code computes |
| ClientFinance.PeriodSummary | src/components/common/ClientFinanceDashboard.tsx:131-143 | the period's charges and payments are the sums of the period lines' debits and credits |
| ClientFinance.MergedOrdered | src/components/common/ClientFinanceDashboard.tsx:87 | the merged journal is ordered by date and holds exactly the washes' and the payments' lines |
| ClientFinance.PeriodJournalSpec | src/components/common/ClientFinanceDashboard.tsx:118-120 | the period's journal is newest first and holds exactly the journal's lines dated within the period |
| ClientFinance.SummaryOfPeriod | src/components/common/ClientFinanceDashboard.tsx:118-143 | the period's totals are the sums over the journal's lines within the period, whatever their order |
| ClientFinance.LinesOneSided | src/components/common/ClientFinanceDashboard.tsx:73-84 | wash lines credit nothing and payment lines charge nothing |
| ClientFinance.MergedTotals | src/components/common/ClientFinanceDashboard.tsx:87 | the merged journal's charges are the washes' and its payments the payments' |
| ClientFinance.SplitAtStart | src/components/common/ClientFinanceDashboard.tsx:90-105 | a total is its part before the period's start plus its part from the start on |
| ClientFinance.EndAsWritten | src/components/common/ClientFinanceDashboard.tsx:100-125 | as written, the end balance counts the payments less the charges from the start on twice, and the earlier ones once, on top of the client's balance |
| ClientFinance.EndDriftsExample | src/components/common/ClientFinanceDashboard.tsx:100-125 | a zero balance and one wash of 100 in the period: the period opens at -100 and ends at -200 |
| ClientFinance.MergedFromStart | src/components/common/ClientFinanceDashboard.tsx:100-105 | the lines from the period's start hold the same charges and payments as the washes and payments dated from then on |
| ClientFinance.CorrectedEndIsBalance | src/components/common/ClientFinanceDashboard.tsx:98-99 | with the reversal's signs corrected, the opening is the balance before the period and the last line carries the client's balance |
| ClientFinance.CorrectedOpening | src/components/common/ClientFinanceDashboard.tsx:97-106 | the reversal the comment at 97-98 intends: the balance plus the charges and less the payments from the start on, so the balance before the period (CorrectedEndIsBalance states this) |
| ClientFinance.CorrectedJournal | src/components/common/ClientFinanceDashboard.tsx:108-116 | the running journal of the lines from the start on, opened at the corrected balance; its last line carries the client's balance (CorrectedEndIsBalance) |
| ClientFinance.FinanceView.AddPayment | src/components/common/ClientFinanceDashboard.tsx:145-191 | a missing or non-positive amount is rejected and a failed request changes nothing; otherwise the payment is added newest first and the balance raised by the amount |
| ClientFinance.FinanceView.DeletePayment | src/components/common/ClientFinanceDashboard.tsx:193-197 | the transactions with that id are dropped and the amount is taken off the balance |
| ClientFinance.WithPayment | src/components/common/ClientFinanceDashboard.tsx:182 | the new payment put among the transactions, newest first (AddThenDelete states that deleting it again gives them back) |
| ClientFinance.AddThenDelete | src/components/common/ClientFinanceDashboard.tsx:182-194 | deleting a payment just added under a fresh id gives back the same transactions |
| InvoiceLines.AgentOptionsSpec | src/app/invoices/components/InvoiceGenerator.tsx:55-59 | a counter-agent is offered exactly when it has a wash under contract |
| InvoiceLines.AgentOptions | src/app/invoices/components/InvoiceGenerator.tsx:55-59 | the counter-agents with some wash under contract, in their order (AgentOptionsSpec states this) |
| InvoiceLines.AggregatorOptionsSpec | src/app/invoices/components/InvoiceGenerator.tsx:60-64 | an aggregator is offered exactly when it has a wash paid through it |
| InvoiceLines.AggregatorOptions | src/app/invoices/components/InvoiceGenerator.tsx:60-64 | the aggregators with some wash paid through them, in their order (AggregatorOptionsSpec states this) |
| InvoiceLines.SelectedEventsSpec | src/app/invoices/components/InvoiceGenerator.tsx:77-92 | no client or no start date selects nothing; otherwise exactly the client's washes of that payment method within the period, in order |
| InvoiceLines.SelectedEvents | src/app/invoices/components/InvoiceGenerator.tsx:77-92 | the washes the invoice covers: none without a client or a start date, else the client's washes of that payment method within the period (SelectedEventsSpec states this) |
| InvoiceLines.TallyKnown | src/app/invoices/components/InvoiceGenerator.tsx:99-102 | a name met before has its count raised by one and its total by the price, the others and the order kept |
| InvoiceLines.TallyNew | src/app/invoices/components/InvoiceGenerator.tsx:103-110 | a name met first is added at the end with count 1 and its price and consumption |
| InvoiceLines.TallyStep | src/app/invoices/components/InvoiceGenerator.tsx:97-111 | one service more keeps the map equal to the tallies of the named services seen so far |
| InvoiceLines.CountService | src/app/invoices/components/InvoiceGenerator.tsx:98-111 | the inner forEach's body keeps the map equal to the tallies of the named services seen |
| InvoiceLines.Aggregate | src/app/invoices/components/InvoiceGenerator.tsx:94-113 | the forEach fills the map with, per name in first-met order, the tally of the billed services of that name |
| InvoiceLines.Lines | src/app/invoices/components/InvoiceGenerator.tsx:115-122 | one line per name in the map's order |
| InvoiceLines.LinesFromTallies | src/app/invoices/components/InvoiceGenerator.tsx:115-122 | the lines built from the filled map are the aggregated lines |
| InvoiceLines.LinesOfAt | src/app/invoices/components/InvoiceGenerator.tsx:115-122 | the k-th line names the k-th name met, with its number of services, its first service's price and the sum of its prices |
| InvoiceLines.AggregatedSpec | src/app/invoices/components/InvoiceGenerator.tsx:94-122 | one line per billed name, none twice, each with at least one service, its count and the sum of its prices |
| InvoiceLines.Aggregated | src/app/invoices/components/InvoiceGenerator.tsx:94-122 | one invoice line per service name in first-met order, with its count, first price and summed prices (AggregatedSpec, AggregatedNames and AggregatedTotal state this) |
| InvoiceLines.AggregatedNames | src/app/invoices/components/InvoiceGenerator.tsx:94-122 | a name has a line exactly when some billed service carries it |
| InvoiceLines.AggregatedTotal | src/app/invoices/components/InvoiceGenerator.tsx:94-122 | before any edit the invoice's total is the sum of the billed prices and the counts add up to the number of billed services |
| InvoiceLines.Changed | src/app/invoices/components/InvoiceGenerator.tsx:137-148 | the name takes the text; a number field takes the number unless it is NaN; a new count or price sets the total to count times price |
| InvoiceLines.WithoutRow | src/app/invoices/components/InvoiceGenerator.tsx:163 | the lines without the one at the index, all of them for any other index |
| InvoiceLines.InvoiceEditor.Regenerate | src/app/invoices/components/InvoiceGenerator.tsx:77-131 | with a client and a start date the lines are the selected washes' services aggregated, dated at the period's end when one is chosen; otherwise no lines |
| InvoiceLines.InvoiceEditor.ChangeService | src/app/invoices/components/InvoiceGenerator.tsx:133-150 | only the line at the index changes, as Changed says |
| InvoiceLines.InvoiceEditor.AddServiceRow | src/app/invoices/components/InvoiceGenerator.tsx:152-160 | a new line named Новая услуга with count 1, price 0 and total 0 is appended |
| InvoiceLines.InvoiceEditor.RemoveServiceRow | src/app/invoices/components/InvoiceGenerator.tsx:162-164 | the line at the index is dropped |
| InvoiceLines.AddRowKeepsTotal | src/app/invoices/components/InvoiceGenerator.tsx:152-160 | a new row leaves the invoice's total unchanged |
| InvoiceLines.RemoveRowTotal | src/app/invoices/components/InvoiceGenerator.tsx:162-164 | removing a row takes its total off the invoice's |
| InvoiceLines.ChangeTotal | src/app/invoices/components/InvoiceGenerator.tsx:133-150 | changing a line moves the invoice's total by the change of that line's total |
| StockJournal.PurchaseCounted | src/app/inventory/components/InventoryDashboard.tsx:48 | every purchase the dashboard shows is also taken into the stock by the backend |
| StockJournal.FormUnitNotShown | src/app/inventory/components/InventoryDashboard.tsx:48 | a purchase in the form's unit кг. counts toward the backend's stock but is not shown by the dashboard |
| StockJournal.EventConsumption | src/app/inventory/components/InventoryDashboard.tsx:61-69 | a wash's consumption is the sum over its services of their employee amounts, or their norm when they have none |
| StockJournal.ServiceReadingsAgree | src/app/inventory/components/InventoryDashboard.tsx:64-68 | the dashboard reads a service as the backend does when it has no employee list and a non-negative norm, or an employee list and no norm |
| StockJournal.ServiceReadingsDiffer | src/app/inventory/components/InventoryDashboard.tsx:64-68 | with both a norm and employee amounts the backend takes the norm as well, the dashboard does not |
| StockJournal.FirstWord | src/app/inventory/components/InventoryDashboard.tsx:89 | split(' ')[0] is the text up to the first space |
| StockJournal.PushPurchases | src/app/inventory/components/InventoryDashboard.tsx:47-57 | the loop appends one movement per shown purchase, of its quantity in grams |
| StockJournal.PushConsumptions | src/app/inventory/components/InventoryDashboard.tsx:60-79 | the loop appends one negative movement per wash that consumed something |
| StockJournal.PushIssues | src/app/inventory/components/InventoryDashboard.tsx:82-92 | the loop appends one movement of -20000 grams per canister issue |
| StockJournal.CollectMovements | src/app/inventory/components/InventoryDashboard.tsx:44-92 | the three loops collect the purchases, the consumptions and the issues, in turn |
| StockJournal.PurchasesSpec | src/app/inventory/components/InventoryDashboard.tsx:47-57 | a purchase movement comes exactly from a shown purchase |
| StockJournal.Purchases | src/app/inventory/components/InventoryDashboard.tsx:47-57 | one positive movement per shown chemical purchase, in order (PurchasesSpec states this) |
| StockJournal.ConsumptionsSpec | src/app/inventory/components/InventoryDashboard.tsx:60-79 | a consumption movement comes exactly from a wash that consumed something, and takes stock away |
| StockJournal.Consumptions | src/app/inventory/components/InventoryDashboard.tsx:60-79 | one negative movement per wash that consumed chemicals, in order (ConsumptionsSpec states this) |
| StockJournal.IsCanisterIssue | src/app/inventory/components/InventoryDashboard.tsx:83 | an employee transaction is a canister issue when it is a "purchase" whose description contains "Выдача канистры химии" (IssuesSpec and IssuesCount are stated over it) |
| StockJournal.IssuesSpec | src/app/inventory/components/InventoryDashboard.tsx:82-92 | an issue movement comes exactly from a canister issue and takes 20000 grams away |
| StockJournal.IssuesCount | src/app/inventory/components/InventoryDashboard.tsx:82-92 | one movement per canister issue |
| StockJournal.Issues | src/app/inventory/components/InventoryDashboard.tsx:82-92 | one movement of -20000 grams per canister issue, in order (IssuesSpec and IssuesCount state this) |
| StockJournal.RunningBalances | src/app/inventory/components/InventoryDashboard.tsx:104-112 | the running balance moves with every movement, and a movement within the dates is recorded with the balance after it |
| StockJournal.RecordedSpec | src/app/inventory/components/InventoryDashboard.tsx:107-112 | exactly the movements within the dates are recorded, each with the opening plus every movement up to it |
| StockJournal.StartBalance | src/app/inventory/components/InventoryDashboard.tsx:97-102 | the current stock less the movements dated from the start on (LineAsWritten and CorrectedLineIsStock state what the lines built on it show) |
| StockJournal.LineAt | src/app/inventory/components/InventoryDashboard.tsx:107-112 | the k-th movement with the opening plus every movement up to and including it (RecordedSpec states that the loop records these lines) |
| StockJournal.Report | src/app/inventory/components/InventoryDashboard.tsx:43-117 | the movements collected and put in date order, the start balance taken back from the current stock, the loop folded from it and the lines put newest first |
| StockJournal.AllMovementsOrdered | src/app/inventory/components/InventoryDashboard.tsx:94 | the movements are in date order and are exactly the purchases, consumptions and issues |
| StockJournal.JournalForPeriodSpec | src/app/inventory/components/InventoryDashboard.tsx:114 | the period's journal is newest first and holds just what the loop recorded |
| StockJournal.LineAsWritten | src/app/inventory/components/InventoryDashboard.tsx:101-110 | as written, the movements before the period's start are counted again on top of a start balance that already holds them |
| StockJournal.LineDriftsExample | src/app/inventory/components/InventoryDashboard.tsx:101-110 | 1000 grams bought before the period and 100 used within it: the wash's line shows 1900 grams, not 900 |
| StockJournal.CorrectedLineIsStock | src/app/inventory/components/InventoryDashboard.tsx:100-110 | corrected, each line of the period is the current stock less the movements after it, and the last is the current stock |
| StockJournal.CorrectedLineAt | src/app/inventory/components/InventoryDashboard.tsx:100-110 | corrected, the line of the k-th movement from the start on, opened at the start balance (CorrectedLineIsStock states that it is the current stock less what follows) |
| StockJournal.CanistersByEmployee | src/app/inventory/components/InventoryDashboard.tsx:119-133 | the canister issues counted per employee, listed as Object.values lists the record (array-index ids first, ascending, then the others in first-issue order), then sorted by count, largest first |
| StockJournal.CountIssue | src/app/inventory/components/InventoryDashboard.tsx:124-130 | an employee met first enters with their name and no canister, then their count goes up by one |
| StockJournal.HoldingsAt | src/app/inventory/components/InventoryDashboard.tsx:119-133 | each position shows that id's holder and the number of canisters issued to them |
| StockJournal.HoldingsOf | src/app/inventory/components/InventoryDashboard.tsx:119-133 | one holding per listed employee id, with the holder's name and canister count (HoldingsAt and HoldingsSpec state this) |
| StockJournal.HoldingsSpec | src/app/inventory/components/InventoryDashboard.tsx:119-133 | as listed, each employee shown holds at least one canister, no one is shown twice, and everyone who received a canister is shown |
| StockJournal.HoldingsTotal | src/app/inventory/components/InventoryDashboard.tsx:119-133 | the counts shown add up to the number of canisters issued |
| StockJournal.CanistersAddUp | src/app/inventory/components/InventoryDashboard.tsx:119-133 | after sorting, the counts still add up to the number of canister issues |
| ClientFinance.FinanceView.constructor | src/components/common/ClientFinanceDashboard.tsx:46-47 | the view starts with the transactions and the balance it is given |
| InvoiceLines.InvoiceEditor.constructor | src/app/invoices/components/InvoiceGenerator.tsx:46-48 | the editor starts with no lines and today's date |

## Left out

- File and JSON I/O are abstract. A directory is missing, unlistable, or a list of entries sorted by name. Each entry holds a parsed record or is unreadable. Writes fail only for an unlistable directory or a name taken by a sub-directory. Ledger, configuration and inventory writes never fail, so the Go handlers' 500 responses after those writes are not modelled.
- JsonStore.FileName: a record's id is taken as a plain file name, with no "/" and no "..". The source joins `id + ".json"` onto the collection's directory with `filepath.Join` (`internal/storage/json_store.go:138-140`, `202-203`, `263`, `330`, `397`, `458`), and the ledgers' owner ids the same way (`484`, `497`, `505`, `518`). An id such as "agent_x/1" is saved in a sub-directory "agent_x", which `os.MkdirAll` (`48-53`) creates; the listing skips directories (`76-77`), so GetAll never lists that record and GetByID answers not found. An id such as "../employees/emp_1" is written into another collection's directory. The model does not capture either case.
- JsonStore.Write: the name written is one entry of the directory, so a write never creates a sub-directory or reaches another directory; this holds in the source only for ids without "/" or "..".
- JsonStore.SaveThenFind and JsonStore.PrefixedSaveListed hold for such plain ids only; for an id holding "/" the source neither finds nor lists the saved record.
- DataLoader.FileNamed: an owner's ledger file is looked up as one entry name of the ledger directory. The loader builds the path with `path.join` (`src/lib/data-loader.ts:137`, `166`), which resolves an owner id holding "/" or ".." to a file in a sub-directory or elsewhere; DataLoader.LedgerFile, built on it, does not model that either.
- Fiber request parsing: a malformed body's 400 response is not modelled. Handlers receive the parsed record.
- HTTP status codes appear as an error kind (bad request, not found, internal). Routing, `cmd/server/main.go`, the configuration and the salary-report handler are not part of this model.
- Concurrency: the mutexes in the cache and the store, and lost updates between requests. Every handler is one sequential step.
- Floating point: money and grams are exact reals.
  - Go's `int(x*100)/100` is the floor of the cents, and is applied only to positive values.
  - JavaScript's `toFixed(2)` and `Math.round` round half up exactly. Binary tie-breaking is not modelled.
- Date parsing and `new Date`: timestamps are ISO strings compared in byte order, or mapped to numbers by a `time` parameter. The data loader's sort by `Date.getTime` is modelled as a comparison of the date strings. date-fns' `startOfDay`, `startOfMonth` and `isWithinInterval` are given bounds. An inverted interval, which date-fns rejects, is not modelled.
- `NaN`: a number that fails to parse is `None`.
- Generated ids (Go's clock and random suffixes, JavaScript's `Date.now()`) are passed in as values.
- Go's `sort.Slice` is unstable: its results are stated as sorted and a permutation of the input. The tie order is left open.
- SalaryCalculator.GenerateSalaryReport: the order of rows with equal totals is not stated, because Go's map iteration and unstable sort leave it open.
- The store's employee lookup by username (`internal/storage/json_store.go:123-135`) is not modelled: only the authentication handler uses it, and authentication is not part of this model.
- The data loader's `getAllFinanceDataForEmployee` (`src/lib/data-loader.ts:271-279`) is not modelled: it is a `Promise.all` over getters the model covers.
- Go's `os.Remove` (`internal/storage/json_store.go:59`) is taken to succeed whenever the file is present.
- The data loader creates a missing directory with `fs.mkdir` (`src/lib/data-loader.ts:49`). A failure there, which the loader rethrows, is not modelled: a missing directory reads as empty.
- The data loader's `fs.writeFile` of a fresh configuration or inventory file (`src/lib/data-loader.ts:237`, `259`) is taken to succeed. A failed configuration write, which the loader rethrows, is not modelled; a failed inventory write, which the loader logs, would leave the file missing while the model stores it.
- Console logging, toasts, printing, `router.refresh()` and the React state plumbing are not modelled.
- The selected client's lookup for printing (`InvoiceGenerator.tsx:67-70`) is not modelled.
- The payment dialog uses the server's echo of the new client, the agent or the aggregator. It is modelled as the client with the raised balance.
- `chargesBeforePeriod` and `paymentsBeforePeriod` in the finance dashboard are computed and never used, so they are not modelled.
- InvoiceLines.InvoiceEditor.ChangeService requires an index inside the lines: the source would fail on a missing line. handleServiceChange changes a line object that the previous state shares. The model replaces the line in a new sequence, so that aliasing is not captured.
- A row added by hand has no chemical consumption. The model takes it as 0.
- The client's end balance drifts in the finance dashboard:
  - Call A the entries dated from the period's start on and B the earlier ones.
  - The last running balance is the stored balance + 2·(payments in A − charges in A) + (payments in B − charges in B).
  - So it equals the stored balance only when 2·(payments in A − charges in A) + (payments in B − charges in B) is 0.
  - The model follows the code; see the findings.
- The stock journal's start balance is taken from the first day of the start date's month. The journal itself shows the movements from the start date on. The model keeps both, as the code does.

## Findings

| source | as written | input that shows it | evidently intended | confidence | as-written member | corrected member |
|---|---|---|---|---|---|---|
| src/app/invoices/components/InvoiceTemplate.tsx:38-44 | `n %= 10` runs whether or not the tens were written, so for last two digits 10-19 only the unit word is emitted (to_19[10..19] is never used) | 15 is written "пять"; 10 writes nothing | teens written with their own word, so the words read back to the number | not executed | AmountWords.FifteenSpelledAsFive, AmountWords.AsWrittenRead | AmountWords.WordsRoundTrip |
| src/components/common/ClientFinanceDashboard.tsx:100-125 | the start balance subtracts the charges from the period's start on and adds the payments; the loop then applies every entry, the earlier ones included, on top of it | balance 0, one wash of 100 inside the period: the period opens at -100 and ends at -200 | reverse the later entries (add back charges, take away payments), so the last running balance is the client's balance, as the comment at line 125 says | not executed | ClientFinance.EndAsWritten, ClientFinance.EndDriftsExample | ClientFinance.CorrectedEndIsBalance |
| src/app/inventory/components/InventoryDashboard.tsx:101-110 | the start balance already holds every movement before the period's start, and the loop adds them again, folding over all movements | 900 g in stock, 1000 g bought before the period, 100 g used in it: the wash's line shows 1900 g | fold only the movements from the start on, so the last line of the period shows the current stock | not executed | StockJournal.LineAsWritten, StockJournal.LineDriftsExample | StockJournal.CorrectedLineIsStock |
