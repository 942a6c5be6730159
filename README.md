# MemStorage of the real-estate manager, in Dafny

This project models the in-memory repository of a property-management
application: the `MemStorage` class that keeps five tables (properties,
tenants, contracts, payments, expenses) and one id counter per table, the
record shapes those tables hold, and the client helpers that count days
overdue and turn enumeration keys into Arabic labels.

Modules, one per concern:

- `Wrappers`: `Option` (a `T | undefined` result or a `T | null` column) and
  `Field` (an optional, nullable input key: missing, `null`, or a value), with
  `?? null` and the `{ ...row, ...updates }` overwrite rule per column kind.
- `JsMap`: a JavaScript `Map<number, V>` as a value: its entries and its
  insertion order. `Keyed` is the invariant every table of the store keeps:
  each row sits under its own id, ids are at least 1 and below the table's
  counter, and insertion order is ascending id order.
- `Schema`: the five row types, the create payloads (a row without its id),
  the update payloads (every key optional), the joined views, the
  enumerations and the column defaults.
- `Views`: what the read operations compute from the tables: the joins,
  the filters and the revenue sum, with lemmas that a joined list holds
  exactly the rows its single-row lookup resolves, in ascending id order.
- `Storage`: the rows a create stores and an update merges, and the class
  `MemStorage`. Its methods mutate the tables in place, keep `Valid()` (the
  `Keyed` invariant on all five tables), and state their whole new state.
  `getContracts`, `getPayments` and `getExpenses` are loops proved against
  the joins of `Views`.
- `Utils`: `calculateDaysOverdue` and the two label lookups.
- `Scenarios`: short client runs of the store on concrete data. They show
  that ids are never reused, that the dashboard counts contracts rather
  than tenants, and that an expense lends its own property to the contract
  it carries.

Dates are integers (the milliseconds `getTime()` yields), and the current
time is a parameter. `parseFloat` is a parameter of type
`string -> Number`, where a `Number` is `NaN` or a finite real. The read
methods have no `modifies` clause, so no join or filter can remove a stored
row.

The dashboard revenue reads an empty rent as `'0'` and nothing else: a
rent that `parseFloat` turns into `NaN` makes the whole sum `NaN`.
`Views.RentText` and `Views.Revenue` state this.

Quirks of the code kept as they are:

- The store does not apply the schema's column defaults. An omitted
  `isAvailable`, `isActive` or `isLate` is stored as `null`, and an omitted
  `isRecurring` of an expense stays missing. A contract created without
  `isActive` is therefore not active until an update sets `isActive` to
  true.
- The contract attached to an expense is built with the expense's property,
  not with the property the contract names, and that property is never
  looked up.
- `if (expense.contractId)` reads 0 as absent. Since no stored contract has
  id 0, this changes nothing.

## Model

| member | source | states |
|---|---|---|
| Wrappers.OrNull | server/storage.ts:105-110 | `x ?? null`: a value stays, a missing key and `null` both become `null` |
| Wrappers.Overwrite | server/storage.ts:120 | on a required column the update's key wins when present, otherwise the current value stays |
| Wrappers.OverwriteNullable | server/storage.ts:120 | on a nullable column a missing key keeps the current value, while `null` or a value replaces it |
| Wrappers.OverwriteField | server/storage.ts:388 | on an expense column, which may itself be a missing key, any key present in the update replaces it |
| Wrappers.AsField | shared/schema.ts:91-93 | a stored column read back as a payload key is never a missing key, and `?? null` gives the column back |
| JsMap.Table.Get | server/storage.ts:96-98 | `map.get(k)` is present exactly when `k` is a key, and then holds that entry |
| JsMap.Table.Set | server/storage.ts:112 | `map.set(k, v)` updates the entry; a new key goes last in iteration order, and an existing key keeps its place |
| JsMap.Table.Delete | server/storage.ts:125-127 | `map.delete(k)` removes the entry and its key from the order, and keeps the map well formed |
| JsMap.Table.Values | server/storage.ts:92-94 | `Array.from(map.values())` lists the entries in insertion order, one per key |
| JsMap.Without | server/storage.ts:126 | dropping a key from the order keeps the other keys, their distinctness and their ascending order |
| JsMap.SizeIsEntryCount | server/storage.ts:313 | `map.size` is the number of entries |
| JsMap.DistinctCardinality | server/storage.ts:313 | a duplicate-free key order has as many keys as elements |
| JsMap.KeyedInsert | server/storage.ts:101 | the counter's value is not yet a key and exceeds every key; storing a row under it and bumping the counter keeps the table invariant |
| JsMap.KeyedReplace | server/storage.ts:121 | re-storing a row under its own existing id keeps the table invariant |
| JsMap.KeyedDelete | server/storage.ts:126 | deleting keeps the table invariant, and the counter is untouched |
| JsMap.KeyedValues | server/storage.ts:92-94 | the listed values are exactly the stored rows, each found under its own id, in ascending id order |
| Schema.RowsHaveNoMissingKeys | shared/schema.ts:91-105 | a row of the first four tables, without its id, is a create payload with every optional key spelt out |
| Views.FilterMap | server/storage.ts:171-182 | the push-if-resolved loop outputs no more items than inputs, each the image of some input |
| Views.FilterMapSnoc | server/storage.ts:171-182 | one more loop iteration appends the new element's result, if it has one, at the end |
| Views.FilterMapComplete | server/storage.ts:171-182 | every input that resolves contributes its image |
| Views.FilterMapKeepsOrder | server/storage.ts:171-182 | the output keeps the input's ascending id order |
| Views.Filter | server/storage.ts:231 | `Array.prototype.filter` keeps exactly the elements that pass, and never lengthens the list |
| Views.FilterKeepsOrder | server/storage.ts:231 | a filter keeps ascending id order |
| Views.JoinContract | server/storage.ts:172-181 | a contract joins exactly when its property and its tenant both exist, and the join carries the contract with exactly that stored property and tenant |
| Views.FindContract | server/storage.ts:187-201 | `getContract(id)` is undefined exactly when the contract, its property or its tenant is missing; otherwise it carries those three rows |
| Views.AllContracts | server/storage.ts:168-185 | `getContracts()` as a function: no more entries than stored contracts, each a stored contract with the join it resolves to |
| Views.AllContractsExactly | server/storage.ts:168-185 | `getContracts()` holds exactly the contracts `getContract` resolves, in ascending id order |
| Views.ActiveContracts | server/storage.ts:229-232 | exactly the joined contracts whose `isActive` is `true`; `null` and `false` are dropped; order kept |
| Views.JoinPayment | server/storage.ts:238-247 | a payment joins exactly when `getContract(payment.contractId)` resolves |
| Views.FindPayment | server/storage.ts:252-263 | `getPayment(id)` is undefined exactly when the payment, its contract, or that contract's property or tenant is missing |
| Views.AllPayments | server/storage.ts:235-250 | `getPayments()` as a function: no more entries than stored payments, each a stored payment with the join it resolves to |
| Views.AllPaymentsExactly | server/storage.ts:235-250 | `getPayments()` holds exactly the payments `getPayment` resolves, in ascending id order |
| Views.OverduePayments | server/storage.ts:292-300 | exactly the joined payments due strictly before now, order kept |
| Views.PaymentsByContract | server/storage.ts:302-305 | exactly the joined payments with that `contractId`, order kept |
| Views.AttachContract | server/storage.ts:339-348 | a contract is attached exactly when `contractId` is truthy, names a stored contract, and that contract's tenant exists; it carries the expense's property |
| Views.ZeroContractIdIsHarmless | server/storage.ts:340 | since no stored contract has id 0, the truthiness test attaches exactly when the key is present and resolves |
| Views.JoinExpense | server/storage.ts:337-350 | an expense is kept exactly when its property exists; it then carries that property and the attached contract, if any |
| Views.FindExpense | server/storage.ts:356-375 | `getExpense(id)` is undefined exactly when the expense or its property is missing |
| Views.AllExpenses | server/storage.ts:332-354 | `getExpenses()` as a function: no more entries than stored expenses, each a stored expense with the join it resolves to |
| Views.AllExpensesExactly | server/storage.ts:332-354 | `getExpenses()` holds exactly the expenses `getExpense` resolves, in ascending id order |
| Views.ExpensesByProperty | server/storage.ts:397-400 | exactly the joined expenses on that property, order kept |
| Views.ExpensesByContract | server/storage.ts:402-405 | exactly the joined expenses whose `contractId` is that id; a missing or `null` key never matches; order kept |
| Views.ExpensesByCategory | server/storage.ts:407-410 | exactly the joined expenses in that category, order kept |
| Views.RentText | server/storage.ts:318 | `rent \|\| '0'`: an empty rent becomes `'0'`, and a non-empty rent is left unchanged |
| Views.Plus | server/storage.ts:318 | JavaScript `+` on a number or `NaN`: the sum is `NaN` exactly when either side is, and otherwise the exact sum |
| Views.PlusLaws | server/storage.ts:318 | that `+` is commutative and associative, with 0 as its unit |
| Views.Revenue | server/storage.ts:317-319 | the revenue sum starts at 0, a single contract contributes its parsed rent text, and the sum is `NaN` exactly when some contract's rent text parses to `NaN` |
| Views.RevenueAppend | server/storage.ts:317-319 | the sum over two lists put together is the sum of the two sums |
| Storage.NewProperty | server/storage.ts:100-114 | the stored property has the counter's id and is the payload with every missing optional key turned into `null` |
| Storage.NewTenant | server/storage.ts:138-152 | the stored tenant has the counter's id and is the payload with missing optional keys turned into `null` |
| Storage.NewContract | server/storage.ts:203-214 | the stored contract has the counter's id and is the payload with missing optional keys turned into `null` |
| Storage.NewPayment | server/storage.ts:265-277 | the stored payment has the counter's id and is the payload with missing optional keys turned into `null` |
| Storage.NewExpense | server/storage.ts:377-382 | the stored expense is the payload exactly as given, plus the id |
| Storage.ColumnDefaultsNotApplied | server/storage.ts:203-214 | an omitted `isAvailable`, `isActive` or `isLate` is stored as `null`, not as the column default, and an omitted `isRecurring` stays missing |
| Storage.CreatedWithoutIsActiveNeverActive | server/storage.ts:229-232 | a contract, as created without `isActive`, is never among the active contracts |
| Storage.UpdateActivates | server/storage.ts:216-232 | an update that sets `isActive` to true makes any contract active |
| Storage.MergeProperty | server/storage.ts:116-123 | the merged property keeps its id |
| Storage.MergeTenant | server/storage.ts:154-161 | the merged tenant keeps its id |
| Storage.MergeContract | server/storage.ts:216-223 | the merged contract keeps its id |
| Storage.MergePayment | server/storage.ts:279-286 | the merged payment keeps its id |
| Storage.MergeExpense | server/storage.ts:384-391 | the merged expense keeps its id |
| Storage.MergeLaws | server/storage.ts:120 | an update that carries no key changes nothing, and applying the same update twice equals applying it once |
| Storage.FullUpdateIsCreate | server/storage.ts:120 | an update carrying every key of a create payload yields the row that create would store under the same id |
| Storage.MemStorage.constructor | server/storage.ts:76-89 | five empty tables and every counter at 1, with the invariant established |
| Storage.MemStorage.GetProperties | server/storage.ts:92-94 | one entry per stored property, exactly the stored rows, in ascending id order |
| Storage.MemStorage.GetProperty | server/storage.ts:96-98 | present exactly when the id is stored, and then the row with that id |
| Storage.MemStorage.CreateProperty | server/storage.ts:100-114 | returns `NewProperty` under the counter's old value, which was free and above every stored id; bumps only that counter; stores the row last; touches no other table |
| Storage.MemStorage.UpdateProperty | server/storage.ts:116-123 | undefined and no change when the id is absent; otherwise the merged row replaces the entry in place; no other entry, table or counter changes |
| Storage.MemStorage.DeleteProperty | server/storage.ts:125-127 | true exactly when the id was stored; afterwards it is gone, every other entry is as before, and no counter changes |
| Storage.MemStorage.GetTenants | server/storage.ts:130-132 | one entry per stored tenant, exactly the stored rows, in ascending id order |
| Storage.MemStorage.GetTenant | server/storage.ts:134-136 | present exactly when the id is stored, and then the row with that id |
| Storage.MemStorage.CreateTenant | server/storage.ts:138-152 | as for properties, with `NewTenant` and the tenants counter |
| Storage.MemStorage.UpdateTenant | server/storage.ts:154-161 | as for properties, on the tenants table |
| Storage.MemStorage.DeleteTenant | server/storage.ts:163-165 | as for properties, on the tenants table |
| Storage.MemStorage.GetContracts | server/storage.ts:168-185 | the loop yields `getContracts` as joined in `Views`: exactly the contracts `getContract` resolves, in ascending id order |
| Storage.MemStorage.GetContract | server/storage.ts:187-201 | undefined exactly when the contract, its property or its tenant is missing; otherwise those three stored rows |
| Storage.MemStorage.CreateContract | server/storage.ts:203-214 | as for properties, with `NewContract` and the contracts counter |
| Storage.MemStorage.UpdateContract | server/storage.ts:216-223 | as for properties, on the contracts table |
| Storage.MemStorage.DeleteContract | server/storage.ts:225-227 | as for properties, on the contracts table |
| Storage.MemStorage.GetActiveContracts | server/storage.ts:229-232 | exactly the resolvable contracts whose `isActive` is `true`, in ascending id order |
| Storage.MemStorage.GetPayments | server/storage.ts:235-250 | the loop yields exactly the payments `getPayment` resolves, in ascending id order |
| Storage.MemStorage.GetPayment | server/storage.ts:252-263 | undefined exactly when the payment, its contract, or that contract's property or tenant is missing; otherwise the stored payment with `getContract` of its contract |
| Storage.MemStorage.CreatePayment | server/storage.ts:265-277 | as for properties, with `NewPayment` and the payments counter |
| Storage.MemStorage.UpdatePayment | server/storage.ts:279-286 | as for properties, on the payments table |
| Storage.MemStorage.DeletePayment | server/storage.ts:288-290 | as for properties, on the payments table |
| Storage.MemStorage.GetOverduePayments | server/storage.ts:292-300 | exactly the resolvable payments due strictly before now, in ascending id order |
| Storage.MemStorage.GetPaymentsByContract | server/storage.ts:302-305 | exactly the resolvable payments of that contract, in ascending id order |
| Storage.MemStorage.GetDashboardStats | server/storage.ts:307-329 | the number of stored properties, the number of active contracts (not of distinct tenants), their revenue sum, and the number of overdue payments; the two counts are bounded by the table sizes |
| Storage.MemStorage.GetExpenses | server/storage.ts:332-354 | the loop yields exactly the expenses `getExpense` resolves, in ascending id order |
| Storage.MemStorage.GetExpense | server/storage.ts:356-375 | undefined exactly when the expense or its property is missing; otherwise the stored expense, its property, and the contract attached as `getExpenses` attaches it |
| Storage.MemStorage.CreateExpense | server/storage.ts:377-382 | as for properties, with `NewExpense` and the expenses counter |
| Storage.MemStorage.UpdateExpense | server/storage.ts:384-391 | as for properties, on the expenses table |
| Storage.MemStorage.DeleteExpense | server/storage.ts:393-395 | as for properties, on the expenses table |
| Storage.MemStorage.GetExpensesByProperty | server/storage.ts:397-400 | exactly the resolvable expenses on that property, in ascending id order |
| Storage.MemStorage.GetExpensesByContract | server/storage.ts:402-405 | exactly the resolvable expenses whose `contractId` is that id, in ascending id order |
| Storage.MemStorage.GetExpensesByCategory | server/storage.ts:407-410 | exactly the resolvable expenses in that category, in ascending id order |
| Utils.DaysOverdue | client/src/lib/utils.ts:26-32 | never negative; 0 exactly when now is not past the due date; otherwise the elapsed time rounded up to whole days, so at least 1 |
| Utils.WholeDaysOverdue | client/src/lib/utils.ts:29-31 | exactly `k` whole days late gives `k` |
| Utils.DaysOverdueMonotonic | client/src/lib/utils.ts:29-31 | a later clock never gives fewer days overdue |
| Utils.Label | client/src/lib/utils.ts:41 | `labels[key] \|\| key`: a present, non-empty label is returned, and otherwise the key itself |
| Utils.PropertyTypeLabel | client/src/lib/utils.ts:34-42 | the four property types get their labels, any other input comes back unchanged, and the result equals the input exactly for unknown inputs |
| Utils.PaymentMethodLabel | client/src/lib/utils.ts:44-51 | cash, check and transfer get their labels, any other input comes back unchanged, and the result equals the input exactly for unknown inputs |
| Utils.LabelKeys | shared/schema.ts:10 | the label tables cover exactly the property types and payment methods of the schema, and every label is non-empty and differs from its key |
| Utils.LabelsInjective | client/src/lib/utils.ts:34-51 | distinct known keys get distinct labels, while an unknown input that spells a label collides with it |
| Scenarios.IdsAreNeverReused | server/storage.ts:82-88 | two creates, a delete of the second and a third create hand out ids 1, 2 and 3, and the listing shows ids 1 and 3 |
| Scenarios.DashboardCountsContracts | server/storage.ts:313-319 | one tenant with two active contracts and one contract created without `isActive`: two active tenants and the sum of the two rents |
| Scenarios.DashboardRun | server/storage.ts:307-329 | the same data entered through the store gives exactly those dashboard figures |
| Scenarios.ExpenseBorrowsItsProperty | server/storage.ts:339-348 | an expense still carries a contract whose own property is gone, joined with the expense's property, while `getContract` on it is undefined |
| Scenarios.ExpenseRun | server/storage.ts:356-375 | the same data entered through the store gives exactly that expense, carrying its borrowed contract, while `getContract(1)` is undefined |

## Left out

- HTTP routing, request validation and status codes, the React client, the desktop shell and the bundled build copy of the store: they only call into the store or copy it.
- Promises: every method is modelled as synchronous, since none suspends between its reads and its writes.
- `parseFloat` and floating-point addition: `parseFloat` is a parameter, and sums are exact reals or `NaN`. Rounding and `Infinity` are not modelled.
- Dates: `new Date(s)` becomes an integer millisecond count. Invalid dates are not modelled: an invalid due date compares false, so its payment is never overdue, and `calculateDaysOverdue` gives it 0 days. The wall clock is a parameter.
- Utils.DaysOverdue: `Math.ceil` of a floating-point quotient is modelled as the exact ceiling of the integer division; rounding of very large differences is not modelled.
- Utils.Label: a key such as `constructor` that names a property inherited by every JavaScript object would return that inherited value; the model treats the label object as a plain finite map.
- Payload keys outside the schema: the source spreads whatever object it is given. The model's payload and update types carry exactly the schema's columns, so it does not capture an update that carries `id` or an unknown key.
- A key present with the value `undefined`: spreading it overwrites a column with `undefined`. The model treats it as a missing key.
- Storage.MergeProperty, Storage.MergeTenant, Storage.MergeContract, Storage.MergePayment, Storage.MergeExpense: each one's own contract states only that the id is kept; column by column, the merge is stated by the overwrite rules in `Wrappers`, and `Storage.MergeLaws` and `Storage.FullUpdateIsCreate` relate it to the empty update and to create.
- Aliasing: `createX`, `getX` and `getXs` hand out the stored row objects themselves, so a caller that mutated one would change the table. The model's rows are values, and it does not capture such a change; the routes only serialise what they get.
- Numeric columns are unbounded integers; JavaScript's 53-bit integer limit on ids and counters is not modelled.
- `formatCurrency`, `formatDate` and `cn` in the client helpers are locale and class-name wrappers over libraries, and are not part of this model.
