/**
 * The in-memory repository: five tables, each a JavaScript `Map` from id to
 * row, and one id counter per table, all starting at 1. Creating a row takes
 * the counter's value as its id and bumps the counter; deleting a row never
 * touches the counter, so an id is never handed out twice.
 */
module Storage {
  import opened Wrappers
  import opened JsMap
  import opened Schema
  import opened Views

  // -------------------------------------------------------- rows as created

  /** The row `createProperty` stores: the payload, the id, and `?? null` on each optional column. */
  function NewProperty(id: int, p: InsertProperty): (r: Property)
    ensures r.id == id
    ensures r.AsInsert() == p.Filled()
  {
    Property(id, p.title, p.address, p.propertyType, OrNull(p.rooms), OrNull(p.area), p.monthlyRent,
             p.ownerName, OrNull(p.ownerPhone), OrNull(p.ownerEmail), OrNull(p.description),
             OrNull(p.isAvailable))
  }

  /** The row `createTenant` stores. */
  function NewTenant(id: int, t: InsertTenant): (r: Tenant)
    ensures r.id == id
    ensures r.AsInsert() == t.Filled()
  {
    Tenant(id, t.name, t.phone, OrNull(t.email), OrNull(t.nationalId), OrNull(t.emergencyContact),
           OrNull(t.emergencyPhone), OrNull(t.occupation), OrNull(t.notes))
  }

  /** The row `createContract` stores. */
  function NewContract(id: int, c: InsertContract): (r: Contract)
    ensures r.id == id
    ensures r.AsInsert() == c.Filled()
  {
    Contract(id, c.propertyId, c.tenantId, c.startDate, c.endDate, c.monthlyRent,
             OrNull(c.securityDeposit), OrNull(c.isActive), OrNull(c.notes))
  }

  /** The row `createPayment` stores. */
  function NewPayment(id: int, p: InsertPayment): (r: Payment)
    ensures r.id == id
    ensures r.AsInsert() == p.Filled()
  {
    Payment(id, p.contractId, p.amount, p.paymentDate, p.dueDate, OrNull(p.paymentMethod),
            OrNull(p.referenceNumber), OrNull(p.notes), OrNull(p.isLate))
  }

  /** The row `createExpense` stores: the payload as it came, plus the id; nothing is defaulted. */
  function NewExpense(id: int, e: InsertExpense): (r: Expense)
    ensures r.id == id
    ensures r.AsInsert() == e
  {
    Expense(id, e.propertyId, e.contractId, e.category, e.description, e.amount, e.expenseDate,
            e.vendor, e.receiptNumber, e.notes, e.isRecurring)
  }

  /**
   * The store does not apply the column defaults: an omitted `isAvailable`,
   * `isActive` or `isLate` is stored as `null`, and an omitted `isRecurring`
   * stays missing.
   */
  lemma ColumnDefaultsNotApplied(id: int, p: InsertProperty, c: InsertContract, y: InsertPayment, e: InsertExpense)
    requires p.isAvailable.Omitted? && c.isActive.Omitted? && y.isLate.Omitted? && e.isRecurring.Omitted?
    ensures NewProperty(id, p).isAvailable == None != Some(IsAvailableDefault)
    ensures NewContract(id, c).isActive == None != Some(IsActiveDefault)
    ensures NewPayment(id, y).isLate == None != Some(IsLateDefault)
    ensures NewExpense(id, e).isRecurring == Omitted != Value(IsRecurringDefault)
  {
  }

  /** A contract created without `isActive` is never among the active contracts, whatever it joins with. */
  lemma {:induction false} CreatedWithoutIsActiveNeverActive(id: int, c: InsertContract, p: Property, t: Tenant,
                                                             cs: seq<ContractWithDetails>)
    requires c.isActive.Omitted? || c.isActive.Null?
    ensures ContractWithDetails(NewContract(id, c), p, t) !in ActiveContracts(cs)
  {
  }

  /** An update that sets `isActive` to true makes a contract active, however it was created. */
  lemma UpdateActivates(c: Contract, u: ContractPatch, p: Property, t: Tenant)
    requires u.isActive == Value(true)
    ensures var x := ContractWithDetails(MergeContract(c, u), p, t); x in ActiveContracts([x])
  {
  }

  // ----------------------------------------------------------- rows as merged

  /** `{ ...property, ...updates }`. */
  function MergeProperty(p: Property, u: PropertyPatch): (r: Property)
    ensures r.id == p.id
  {
    Property(p.id, Overwrite(u.title, p.title), Overwrite(u.address, p.address),
             Overwrite(u.propertyType, p.propertyType), OverwriteNullable(u.rooms, p.rooms),
             OverwriteNullable(u.area, p.area), Overwrite(u.monthlyRent, p.monthlyRent),
             Overwrite(u.ownerName, p.ownerName), OverwriteNullable(u.ownerPhone, p.ownerPhone),
             OverwriteNullable(u.ownerEmail, p.ownerEmail), OverwriteNullable(u.description, p.description),
             OverwriteNullable(u.isAvailable, p.isAvailable))
  }

  /** `{ ...tenant, ...updates }`. */
  function MergeTenant(t: Tenant, u: TenantPatch): (r: Tenant)
    ensures r.id == t.id
  {
    Tenant(t.id, Overwrite(u.name, t.name), Overwrite(u.phone, t.phone), OverwriteNullable(u.email, t.email),
           OverwriteNullable(u.nationalId, t.nationalId), OverwriteNullable(u.emergencyContact, t.emergencyContact),
           OverwriteNullable(u.emergencyPhone, t.emergencyPhone), OverwriteNullable(u.occupation, t.occupation),
           OverwriteNullable(u.notes, t.notes))
  }

  /** `{ ...contract, ...updates }`. */
  function MergeContract(c: Contract, u: ContractPatch): (r: Contract)
    ensures r.id == c.id
  {
    Contract(c.id, Overwrite(u.propertyId, c.propertyId), Overwrite(u.tenantId, c.tenantId),
             Overwrite(u.startDate, c.startDate), Overwrite(u.endDate, c.endDate),
             Overwrite(u.monthlyRent, c.monthlyRent), OverwriteNullable(u.securityDeposit, c.securityDeposit),
             OverwriteNullable(u.isActive, c.isActive), OverwriteNullable(u.notes, c.notes))
  }

  /** `{ ...payment, ...updates }`. */
  function MergePayment(p: Payment, u: PaymentPatch): (r: Payment)
    ensures r.id == p.id
  {
    Payment(p.id, Overwrite(u.contractId, p.contractId), Overwrite(u.amount, p.amount),
            Overwrite(u.paymentDate, p.paymentDate), Overwrite(u.dueDate, p.dueDate),
            OverwriteNullable(u.paymentMethod, p.paymentMethod),
            OverwriteNullable(u.referenceNumber, p.referenceNumber), OverwriteNullable(u.notes, p.notes),
            OverwriteNullable(u.isLate, p.isLate))
  }

  /** `{ ...expense, ...updates }`. */
  function MergeExpense(e: Expense, u: ExpensePatch): (r: Expense)
    ensures r.id == e.id
  {
    Expense(e.id, Overwrite(u.propertyId, e.propertyId), OverwriteField(u.contractId, e.contractId),
            Overwrite(u.category, e.category), Overwrite(u.description, e.description),
            Overwrite(u.amount, e.amount), Overwrite(u.expenseDate, e.expenseDate),
            OverwriteField(u.vendor, e.vendor), OverwriteField(u.receiptNumber, e.receiptNumber),
            OverwriteField(u.notes, e.notes), OverwriteField(u.isRecurring, e.isRecurring))
  }

  const NoPropertyChanges := PropertyPatch(None, None, None, Omitted, Omitted, None, None, Omitted, Omitted, Omitted, Omitted)
  const NoTenantChanges := TenantPatch(None, None, Omitted, Omitted, Omitted, Omitted, Omitted, Omitted)
  const NoContractChanges := ContractPatch(None, None, None, None, None, Omitted, Omitted, Omitted)
  const NoPaymentChanges := PaymentPatch(None, None, None, None, Omitted, Omitted, Omitted, Omitted)
  const NoExpenseChanges := ExpensePatch(None, Omitted, None, None, None, None, Omitted, Omitted, Omitted, Omitted)

  /**
   * A merge that carries no key changes nothing, and merging the same update
   * a second time changes nothing more.
   */
  lemma MergeLaws(p: Property, t: Tenant, c: Contract, y: Payment, e: Expense,
                  pu: PropertyPatch, tu: TenantPatch, cu: ContractPatch, yu: PaymentPatch, eu: ExpensePatch)
    ensures MergeProperty(p, NoPropertyChanges) == p && MergeProperty(MergeProperty(p, pu), pu) == MergeProperty(p, pu)
    ensures MergeTenant(t, NoTenantChanges) == t && MergeTenant(MergeTenant(t, tu), tu) == MergeTenant(t, tu)
    ensures MergeContract(c, NoContractChanges) == c && MergeContract(MergeContract(c, cu), cu) == MergeContract(c, cu)
    ensures MergePayment(y, NoPaymentChanges) == y && MergePayment(MergePayment(y, yu), yu) == MergePayment(y, yu)
    ensures MergeExpense(e, NoExpenseChanges) == e && MergeExpense(MergeExpense(e, eu), eu) == MergeExpense(e, eu)
  {
  }

  /**
   * An update that carries every key of a create payload, each missing
   * optional key spelt `null`, turns any row into the row a create with that
   * payload would store under the row's id. For an expense, whose create
   * keeps missing keys missing, this needs every key present.
   */
  lemma FullUpdateIsCreate(p: Property, t: Tenant, c: Contract, y: Payment, e: Expense,
                           pi: InsertProperty, ti: InsertTenant, ci: InsertContract, yi: InsertPayment, ei: InsertExpense)
    requires !ei.contractId.Omitted? && !ei.vendor.Omitted? && !ei.receiptNumber.Omitted?
    requires !ei.notes.Omitted? && !ei.isRecurring.Omitted?
    ensures MergeProperty(p, pi.Filled().AsPatch()) == NewProperty(p.id, pi)
    ensures MergeTenant(t, ti.Filled().AsPatch()) == NewTenant(t.id, ti)
    ensures MergeContract(c, ci.Filled().AsPatch()) == NewContract(c.id, ci)
    ensures MergePayment(y, yi.Filled().AsPatch()) == NewPayment(y.id, yi)
    ensures MergeExpense(e, ei.AsPatch()) == NewExpense(e.id, ei)
  {
  }

  // ------------------------------------------------------------- the store

  /** The five counters, each the id the next create of that table hands out. */
  datatype Counters = Counters(properties: int, tenants: int, contracts: int, payments: int, expenses: int)

  class MemStorage {
    var properties: Table<Property>
    var tenants: Table<Tenant>
    var contracts: Table<Contract>
    var payments: Table<Payment>
    var expenses: Table<Expense>
    var currentIds: Counters

    /**
     * Every table holds each row under its own id, in ascending id order,
     * and every id in it is at least 1 and below that table's counter.
     */
    ghost predicate Valid()
      reads this
    {
      && Keyed(properties, currentIds.properties, PropertyKey)
      && Keyed(tenants, currentIds.tenants, TenantKey)
      && Keyed(contracts, currentIds.contracts, ContractKey)
      && Keyed(payments, currentIds.payments, PaymentKey)
      && Keyed(expenses, currentIds.expenses, ExpenseKey)
    }

    constructor ()
      ensures Valid()
      ensures properties == Table(map[], []) && tenants == Table(map[], []) && contracts == Table(map[], [])
      ensures payments == Table(map[], []) && expenses == Table(map[], [])
      ensures currentIds == Counters(1, 1, 1, 1, 1)
    {
      properties := Table(map[], []);
      tenants := Table(map[], []);
      contracts := Table(map[], []);
      payments := Table(map[], []);
      expenses := Table(map[], []);
      currentIds := Counters(1, 1, 1, 1, 1);
    }

    // ------------------------------------------------------------ properties

    /** `getProperties()`: every stored property once, in ascending id order. */
    function GetProperties(): (r: seq<Property>)
      reads this
      requires Valid()
      ensures |r| == |properties.rows|
      ensures forall p :: p in r <==> p.id in properties.rows && properties.rows[p.id] == p
      ensures IncreasingBy(r, PropertyKey)
    {
      KeyedValues(properties, currentIds.properties, PropertyKey);
      SizeIsEntryCount(properties);
      properties.Values()
    }

    /** `getProperty(id)`. */
    function GetProperty(id: int): (r: Option<Property>)
      reads this
      requires Valid()
      ensures r.Some? <==> id in properties.rows
      ensures r.Some? ==> r.value == properties.rows[id] && r.value.id == id
    {
      properties.Get(id)
    }

    method CreateProperty(insert: InsertProperty) returns (property: Property)
      requires Valid()
      modifies this
      ensures Valid()
      ensures property == NewProperty(old(currentIds.properties), insert)
      ensures property.id !in old(properties.rows)
      ensures forall k :: k in old(properties.rows) ==> k < property.id
      ensures currentIds == old(currentIds).(properties := old(currentIds.properties) + 1)
      ensures properties == old(properties).Set(property.id, property)
      ensures GetProperty(property.id) == Some(property)
      ensures tenants == old(tenants) && contracts == old(contracts)
      ensures payments == old(payments) && expenses == old(expenses)
    {
      var id := currentIds.properties;
      property := NewProperty(id, insert);
      KeyedInsert(properties, id, PropertyKey, property);
      properties := properties.Set(id, property);
      currentIds := currentIds.(properties := id + 1);
    }

    method UpdateProperty(id: int, updates: PropertyPatch) returns (r: Option<Property>)
      requires Valid()
      modifies this
      ensures Valid()
      ensures r.None? <==> id !in old(properties.rows)
      ensures r.None? ==> properties == old(properties)
      ensures r.Some? ==> && r.value == MergeProperty(old(properties.rows[id]), updates)
                          && properties == old(properties).Set(id, r.value)
      ensures properties.keys == old(properties.keys)
      ensures forall k :: k != id ==> properties.Get(k) == old(properties.Get(k))
      ensures tenants == old(tenants) && contracts == old(contracts)
      ensures payments == old(payments) && expenses == old(expenses) && currentIds == old(currentIds)
    {
      var property := properties.Get(id);
      if property.None? {
        return None;
      }
      var updated := MergeProperty(property.value, updates);
      KeyedReplace(properties, currentIds.properties, PropertyKey, id, updated);
      properties := properties.Set(id, updated);
      r := Some(updated);
    }

    method DeleteProperty(id: int) returns (deleted: bool)
      requires Valid()
      modifies this
      ensures Valid()
      ensures deleted <==> id in old(properties.rows)
      ensures properties == old(properties).Delete(id)
      ensures GetProperty(id) == None
      ensures forall k :: k != id ==> properties.Get(k) == old(properties.Get(k))
      ensures tenants == old(tenants) && contracts == old(contracts)
      ensures payments == old(payments) && expenses == old(expenses) && currentIds == old(currentIds)
    {
      deleted := id in properties.rows;
      KeyedDelete(properties, currentIds.properties, PropertyKey, id);
      properties := properties.Delete(id);
    }

    // --------------------------------------------------------------- tenants

    /** `getTenants()`: every stored tenant once, in ascending id order. */
    function GetTenants(): (r: seq<Tenant>)
      reads this
      requires Valid()
      ensures |r| == |tenants.rows|
      ensures forall t :: t in r <==> t.id in tenants.rows && tenants.rows[t.id] == t
      ensures IncreasingBy(r, TenantKey)
    {
      KeyedValues(tenants, currentIds.tenants, TenantKey);
      SizeIsEntryCount(tenants);
      tenants.Values()
    }

    /** `getTenant(id)`. */
    function GetTenant(id: int): (r: Option<Tenant>)
      reads this
      requires Valid()
      ensures r.Some? <==> id in tenants.rows
      ensures r.Some? ==> r.value == tenants.rows[id] && r.value.id == id
    {
      tenants.Get(id)
    }

    method CreateTenant(insert: InsertTenant) returns (tenant: Tenant)
      requires Valid()
      modifies this
      ensures Valid()
      ensures tenant == NewTenant(old(currentIds.tenants), insert)
      ensures tenant.id !in old(tenants.rows)
      ensures forall k :: k in old(tenants.rows) ==> k < tenant.id
      ensures currentIds == old(currentIds).(tenants := old(currentIds.tenants) + 1)
      ensures tenants == old(tenants).Set(tenant.id, tenant)
      ensures GetTenant(tenant.id) == Some(tenant)
      ensures properties == old(properties) && contracts == old(contracts)
      ensures payments == old(payments) && expenses == old(expenses)
    {
      var id := currentIds.tenants;
      tenant := NewTenant(id, insert);
      KeyedInsert(tenants, id, TenantKey, tenant);
      tenants := tenants.Set(id, tenant);
      currentIds := currentIds.(tenants := id + 1);
    }

    method UpdateTenant(id: int, updates: TenantPatch) returns (r: Option<Tenant>)
      requires Valid()
      modifies this
      ensures Valid()
      ensures r.None? <==> id !in old(tenants.rows)
      ensures r.None? ==> tenants == old(tenants)
      ensures r.Some? ==> && r.value == MergeTenant(old(tenants.rows[id]), updates)
                          && tenants == old(tenants).Set(id, r.value)
      ensures tenants.keys == old(tenants.keys)
      ensures forall k :: k != id ==> tenants.Get(k) == old(tenants.Get(k))
      ensures properties == old(properties) && contracts == old(contracts)
      ensures payments == old(payments) && expenses == old(expenses) && currentIds == old(currentIds)
    {
      var tenant := tenants.Get(id);
      if tenant.None? {
        return None;
      }
      var updated := MergeTenant(tenant.value, updates);
      KeyedReplace(tenants, currentIds.tenants, TenantKey, id, updated);
      tenants := tenants.Set(id, updated);
      r := Some(updated);
    }

    method DeleteTenant(id: int) returns (deleted: bool)
      requires Valid()
      modifies this
      ensures Valid()
      ensures deleted <==> id in old(tenants.rows)
      ensures tenants == old(tenants).Delete(id)
      ensures GetTenant(id) == None
      ensures forall k :: k != id ==> tenants.Get(k) == old(tenants.Get(k))
      ensures properties == old(properties) && contracts == old(contracts)
      ensures payments == old(payments) && expenses == old(expenses) && currentIds == old(currentIds)
    {
      deleted := id in tenants.rows;
      KeyedDelete(tenants, currentIds.tenants, TenantKey, id);
      tenants := tenants.Delete(id);
    }

    // ------------------------------------------------------------- contracts

    /** `getContracts()`: a loop over the contracts that keeps those whose property and tenant resolve. */
    method GetContracts() returns (result: seq<ContractWithDetails>)
      requires Valid()
      ensures result == AllContracts(properties, tenants, contracts)
      ensures forall x :: x in result <==> x.contract.id in contracts.rows
                                           && FindContract(properties, tenants, contracts, x.contract.id) == Some(x)
      ensures IncreasingBy(result, ContractViewKey)
    {
      var all := contracts.Values();
      result := [];
      for i := 0 to |all|
        invariant result == JoinContracts(properties, tenants, all[..i])
      {
        assert all[..i + 1] == all[..i] + [all[i]];
        JoinContractsSnoc(properties, tenants, all[..i], all[i]);
        var contract := all[i];
        var property := properties.Get(contract.propertyId);
        var tenant := tenants.Get(contract.tenantId);
        if property.Some? && tenant.Some? {
          result := result + [ContractWithDetails(contract, property.value, tenant.value)];
        }
      }
      assert all[..|all|] == all;
      AllContractsExactly(properties, tenants, contracts, currentIds.contracts);
    }

    /** `getContract(id)`: undefined when the contract, its property or its tenant is missing. */
    function GetContract(id: int): (r: Option<ContractWithDetails>)
      requires Valid()
      reads this
      ensures r.None? <==> id !in contracts.rows
                           || contracts.rows[id].propertyId !in properties.rows
                           || contracts.rows[id].tenantId !in tenants.rows
      ensures r.Some? ==> && r.value.contract == contracts.rows[id]
                          && r.value.property == properties.rows[r.value.contract.propertyId]
                          && r.value.tenant == tenants.rows[r.value.contract.tenantId]
    {
      FindContract(properties, tenants, contracts, id)
    }

    method CreateContract(insert: InsertContract) returns (contract: Contract)
      requires Valid()
      modifies this
      ensures Valid()
      ensures contract == NewContract(old(currentIds.contracts), insert)
      ensures contract.id !in old(contracts.rows)
      ensures forall k :: k in old(contracts.rows) ==> k < contract.id
      ensures currentIds == old(currentIds).(contracts := old(currentIds.contracts) + 1)
      ensures contracts == old(contracts).Set(contract.id, contract)
      ensures contracts.Get(contract.id) == Some(contract)
      ensures properties == old(properties) && tenants == old(tenants)
      ensures payments == old(payments) && expenses == old(expenses)
    {
      var id := currentIds.contracts;
      contract := NewContract(id, insert);
      KeyedInsert(contracts, id, ContractKey, contract);
      contracts := contracts.Set(id, contract);
      currentIds := currentIds.(contracts := id + 1);
    }

    method UpdateContract(id: int, updates: ContractPatch) returns (r: Option<Contract>)
      requires Valid()
      modifies this
      ensures Valid()
      ensures r.None? <==> id !in old(contracts.rows)
      ensures r.None? ==> contracts == old(contracts)
      ensures r.Some? ==> && r.value == MergeContract(old(contracts.rows[id]), updates)
                          && contracts == old(contracts).Set(id, r.value)
      ensures contracts.keys == old(contracts.keys)
      ensures forall k :: k != id ==> contracts.Get(k) == old(contracts.Get(k))
      ensures properties == old(properties) && tenants == old(tenants)
      ensures payments == old(payments) && expenses == old(expenses) && currentIds == old(currentIds)
    {
      var contract := contracts.Get(id);
      if contract.None? {
        return None;
      }
      var updated := MergeContract(contract.value, updates);
      KeyedReplace(contracts, currentIds.contracts, ContractKey, id, updated);
      contracts := contracts.Set(id, updated);
      r := Some(updated);
    }

    method DeleteContract(id: int) returns (deleted: bool)
      requires Valid()
      modifies this
      ensures Valid()
      ensures deleted <==> id in old(contracts.rows)
      ensures contracts == old(contracts).Delete(id)
      ensures contracts.Get(id) == None
      ensures forall k :: k != id ==> contracts.Get(k) == old(contracts.Get(k))
      ensures properties == old(properties) && tenants == old(tenants)
      ensures payments == old(payments) && expenses == old(expenses) && currentIds == old(currentIds)
    {
      deleted := id in contracts.rows;
      KeyedDelete(contracts, currentIds.contracts, ContractKey, id);
      contracts := contracts.Delete(id);
    }

    /** `getActiveContracts()`. */
    method GetActiveContracts() returns (result: seq<ContractWithDetails>)
      requires Valid()
      ensures result == ActiveContracts(AllContracts(properties, tenants, contracts))
      ensures forall x :: x in result <==> && x.contract.id in contracts.rows
                                           && FindContract(properties, tenants, contracts, x.contract.id) == Some(x)
                                           && x.contract.isActive == Some(true)
      ensures IncreasingBy(result, ContractViewKey)
    {
      var all := GetContracts();
      result := ActiveContracts(all);
    }

    // -------------------------------------------------------------- payments

    /** `getPayments()`: a loop over the payments that keeps those whose contract `getContract` resolves. */
    method GetPayments() returns (result: seq<PaymentWithDetails>)
      requires Valid()
      ensures result == AllPayments(properties, tenants, contracts, payments)
      ensures forall x :: x in result <==> x.payment.id in payments.rows
                                           && FindPayment(properties, tenants, contracts, payments, x.payment.id) == Some(x)
      ensures IncreasingBy(result, PaymentViewKey)
    {
      var all := payments.Values();
      result := [];
      for i := 0 to |all|
        invariant result == JoinPayments(properties, tenants, contracts, all[..i])
      {
        assert all[..i + 1] == all[..i] + [all[i]];
        JoinPaymentsSnoc(properties, tenants, contracts, all[..i], all[i]);
        var payment := all[i];
        var contract := GetContract(payment.contractId);
        if contract.Some? {
          result := result + [PaymentWithDetails(payment, contract.value)];
        }
      }
      assert all[..|all|] == all;
      AllPaymentsExactly(properties, tenants, contracts, payments, currentIds.payments);
    }

    /** `getPayment(id)`: undefined unless the payment, its contract, and that contract's property and tenant exist. */
    function GetPayment(id: int): (r: Option<PaymentWithDetails>)
      requires Valid()
      reads this
      ensures r.None? <==> || id !in payments.rows
                           || var cid := payments.rows[id].contractId;
                              || cid !in contracts.rows
                              || contracts.rows[cid].propertyId !in properties.rows
                              || contracts.rows[cid].tenantId !in tenants.rows
      ensures r.Some? ==> && r.value.payment == payments.rows[id]
                          && Some(r.value.contract) == GetContract(r.value.payment.contractId)
    {
      FindPayment(properties, tenants, contracts, payments, id)
    }

    method CreatePayment(insert: InsertPayment) returns (payment: Payment)
      requires Valid()
      modifies this
      ensures Valid()
      ensures payment == NewPayment(old(currentIds.payments), insert)
      ensures payment.id !in old(payments.rows)
      ensures forall k :: k in old(payments.rows) ==> k < payment.id
      ensures currentIds == old(currentIds).(payments := old(currentIds.payments) + 1)
      ensures payments == old(payments).Set(payment.id, payment)
      ensures payments.Get(payment.id) == Some(payment)
      ensures properties == old(properties) && tenants == old(tenants)
      ensures contracts == old(contracts) && expenses == old(expenses)
    {
      var id := currentIds.payments;
      payment := NewPayment(id, insert);
      KeyedInsert(payments, id, PaymentKey, payment);
      payments := payments.Set(id, payment);
      currentIds := currentIds.(payments := id + 1);
    }

    method UpdatePayment(id: int, updates: PaymentPatch) returns (r: Option<Payment>)
      requires Valid()
      modifies this
      ensures Valid()
      ensures r.None? <==> id !in old(payments.rows)
      ensures r.None? ==> payments == old(payments)
      ensures r.Some? ==> && r.value == MergePayment(old(payments.rows[id]), updates)
                          && payments == old(payments).Set(id, r.value)
      ensures payments.keys == old(payments.keys)
      ensures forall k :: k != id ==> payments.Get(k) == old(payments.Get(k))
      ensures properties == old(properties) && tenants == old(tenants)
      ensures contracts == old(contracts) && expenses == old(expenses) && currentIds == old(currentIds)
    {
      var payment := payments.Get(id);
      if payment.None? {
        return None;
      }
      var updated := MergePayment(payment.value, updates);
      KeyedReplace(payments, currentIds.payments, PaymentKey, id, updated);
      payments := payments.Set(id, updated);
      r := Some(updated);
    }

    method DeletePayment(id: int) returns (deleted: bool)
      requires Valid()
      modifies this
      ensures Valid()
      ensures deleted <==> id in old(payments.rows)
      ensures payments == old(payments).Delete(id)
      ensures payments.Get(id) == None
      ensures forall k :: k != id ==> payments.Get(k) == old(payments.Get(k))
      ensures properties == old(properties) && tenants == old(tenants)
      ensures contracts == old(contracts) && expenses == old(expenses) && currentIds == old(currentIds)
    {
      deleted := id in payments.rows;
      KeyedDelete(payments, currentIds.payments, PaymentKey, id);
      payments := payments.Delete(id);
    }

    /** `getOverduePayments()`, with the current time `now` passed in. */
    method GetOverduePayments(now: Date) returns (result: seq<PaymentWithDetails>)
      requires Valid()
      ensures result == OverduePayments(AllPayments(properties, tenants, contracts, payments), now)
      ensures forall x :: x in result <==> && x.payment.id in payments.rows
                                           && FindPayment(properties, tenants, contracts, payments, x.payment.id) == Some(x)
                                           && x.payment.dueDate < now
      ensures IncreasingBy(result, PaymentViewKey)
    {
      var all := GetPayments();
      result := OverduePayments(all, now);
    }

    /** `getPaymentsByContract(contractId)`. */
    method GetPaymentsByContract(contractId: int) returns (result: seq<PaymentWithDetails>)
      requires Valid()
      ensures result == PaymentsByContract(AllPayments(properties, tenants, contracts, payments), contractId)
      ensures forall x :: x in result <==> && x.payment.id in payments.rows
                                           && FindPayment(properties, tenants, contracts, payments, x.payment.id) == Some(x)
                                           && x.payment.contractId == contractId
      ensures IncreasingBy(result, PaymentViewKey)
    {
      var all := GetPayments();
      result := PaymentsByContract(all, contractId);
    }

    // -------------------------------------------------------------- dashboard

    /** `getDashboardStats()`, with the current time and `parseFloat` passed in. */
    method GetDashboardStats(now: Date, parseFloat: string -> Number) returns (stats: DashboardStats)
      requires Valid()
      ensures stats.totalProperties == |properties.rows|
      ensures stats.activeTenants == |ActiveContracts(AllContracts(properties, tenants, contracts))|
      ensures stats.monthlyRevenue == Revenue(ActiveContracts(AllContracts(properties, tenants, contracts)), parseFloat)
      ensures stats.overduePayments == |OverduePayments(AllPayments(properties, tenants, contracts, payments), now)|
      ensures 0 <= stats.activeTenants <= |contracts.rows|
      ensures 0 <= stats.overduePayments <= |payments.rows|
    {
      SizeIsEntryCount(properties);
      SizeIsEntryCount(contracts);
      SizeIsEntryCount(payments);
      var totalProperties := properties.Size();
      var activeContracts := GetActiveContracts();
      var activeTenants := |activeContracts|;
      var monthlyRevenue := Revenue(activeContracts, parseFloat);
      var overdue := GetOverduePayments(now);
      stats := DashboardStats(totalProperties, activeTenants, monthlyRevenue, |overdue|);
    }

    // -------------------------------------------------------------- expenses

    /**
     * `getExpenses()`: a loop over the expenses that keeps those whose
     * property exists and attaches a contract where one can be.
     */
    method GetExpenses() returns (result: seq<ExpenseWithDetails>)
      requires Valid()
      ensures result == AllExpenses(properties, tenants, contracts, expenses)
      ensures forall x :: x in result <==> x.expense.id in expenses.rows
                                           && FindExpense(properties, tenants, contracts, expenses, x.expense.id) == Some(x)
      ensures IncreasingBy(result, ExpenseViewKey)
    {
      var expensesList := expenses.Values();
      result := [];
      for i := 0 to |expensesList|
        invariant result == JoinExpenses(properties, tenants, contracts, expensesList[..i])
      {
        assert expensesList[..i + 1] == expensesList[..i] + [expensesList[i]];
        JoinExpensesSnoc(properties, tenants, contracts, expensesList[..i], expensesList[i]);
        var expense := expensesList[i];
        var property := properties.Get(expense.propertyId);
        if property.Some? {
          var contract: Option<ContractWithDetails> := None;
          if Truthy(expense.contractId) {
            var contractData := contracts.Get(expense.contractId.value);
            if contractData.Some? {
              var tenant := tenants.Get(contractData.value.tenantId);
              if tenant.Some? {
                contract := Some(ContractWithDetails(contractData.value, property.value, tenant.value));
              }
            }
          }
          result := result + [ExpenseWithDetails(expense, property.value, contract)];
        }
      }
      assert expensesList[..|expensesList|] == expensesList;
      AllExpensesExactly(properties, tenants, contracts, expenses, currentIds.expenses);
    }

    /** `getExpense(id)`: undefined only when the expense or its property is missing. */
    function GetExpense(id: int): (r: Option<ExpenseWithDetails>)
      requires Valid()
      reads this
      ensures r.None? <==> id !in expenses.rows || expenses.rows[id].propertyId !in properties.rows
      ensures r.Some? ==> && r.value.expense == expenses.rows[id]
                          && r.value.property == properties.rows[r.value.expense.propertyId]
                          && r.value.contract == AttachContract(tenants, contracts, r.value.expense, r.value.property)
    {
      FindExpense(properties, tenants, contracts, expenses, id)
    }

    method CreateExpense(insert: InsertExpense) returns (expense: Expense)
      requires Valid()
      modifies this
      ensures Valid()
      ensures expense == NewExpense(old(currentIds.expenses), insert)
      ensures expense.id !in old(expenses.rows)
      ensures forall k :: k in old(expenses.rows) ==> k < expense.id
      ensures currentIds == old(currentIds).(expenses := old(currentIds.expenses) + 1)
      ensures expenses == old(expenses).Set(expense.id, expense)
      ensures expenses.Get(expense.id) == Some(expense)
      ensures properties == old(properties) && tenants == old(tenants)
      ensures contracts == old(contracts) && payments == old(payments)
    {
      var id := currentIds.expenses;
      expense := NewExpense(id, insert);
      KeyedInsert(expenses, id, ExpenseKey, expense);
      expenses := expenses.Set(id, expense);
      currentIds := currentIds.(expenses := id + 1);
    }

    method UpdateExpense(id: int, updates: ExpensePatch) returns (r: Option<Expense>)
      requires Valid()
      modifies this
      ensures Valid()
      ensures r.None? <==> id !in old(expenses.rows)
      ensures r.None? ==> expenses == old(expenses)
      ensures r.Some? ==> && r.value == MergeExpense(old(expenses.rows[id]), updates)
                          && expenses == old(expenses).Set(id, r.value)
      ensures expenses.keys == old(expenses.keys)
      ensures forall k :: k != id ==> expenses.Get(k) == old(expenses.Get(k))
      ensures properties == old(properties) && tenants == old(tenants)
      ensures contracts == old(contracts) && payments == old(payments) && currentIds == old(currentIds)
    {
      var expense := expenses.Get(id);
      if expense.None? {
        return None;
      }
      var updated := MergeExpense(expense.value, updates);
      KeyedReplace(expenses, currentIds.expenses, ExpenseKey, id, updated);
      expenses := expenses.Set(id, updated);
      r := Some(updated);
    }

    method DeleteExpense(id: int) returns (deleted: bool)
      requires Valid()
      modifies this
      ensures Valid()
      ensures deleted <==> id in old(expenses.rows)
      ensures expenses == old(expenses).Delete(id)
      ensures expenses.Get(id) == None
      ensures forall k :: k != id ==> expenses.Get(k) == old(expenses.Get(k))
      ensures properties == old(properties) && tenants == old(tenants)
      ensures contracts == old(contracts) && payments == old(payments) && currentIds == old(currentIds)
    {
      deleted := id in expenses.rows;
      KeyedDelete(expenses, currentIds.expenses, ExpenseKey, id);
      expenses := expenses.Delete(id);
    }

    /** `getExpensesByProperty(propertyId)`. */
    method GetExpensesByProperty(propertyId: int) returns (result: seq<ExpenseWithDetails>)
      requires Valid()
      ensures result == ExpensesByProperty(AllExpenses(properties, tenants, contracts, expenses), propertyId)
      ensures forall x :: x in result <==> && x.expense.id in expenses.rows
                                           && FindExpense(properties, tenants, contracts, expenses, x.expense.id) == Some(x)
                                           && x.expense.propertyId == propertyId
      ensures IncreasingBy(result, ExpenseViewKey)
    {
      var all := GetExpenses();
      result := ExpensesByProperty(all, propertyId);
    }

    /** `getExpensesByContract(contractId)`. */
    method GetExpensesByContract(contractId: int) returns (result: seq<ExpenseWithDetails>)
      requires Valid()
      ensures result == ExpensesByContract(AllExpenses(properties, tenants, contracts, expenses), contractId)
      ensures forall x :: x in result <==> && x.expense.id in expenses.rows
                                           && FindExpense(properties, tenants, contracts, expenses, x.expense.id) == Some(x)
                                           && x.expense.contractId == Value(contractId)
      ensures IncreasingBy(result, ExpenseViewKey)
    {
      var all := GetExpenses();
      result := ExpensesByContract(all, contractId);
    }

    /** `getExpensesByCategory(category)`. */
    method GetExpensesByCategory(category: string) returns (result: seq<ExpenseWithDetails>)
      requires Valid()
      ensures result == ExpensesByCategory(AllExpenses(properties, tenants, contracts, expenses), category)
      ensures forall x :: x in result <==> && x.expense.id in expenses.rows
                                           && FindExpense(properties, tenants, contracts, expenses, x.expense.id) == Some(x)
                                           && x.expense.category == category
      ensures IncreasingBy(result, ExpenseViewKey)
    {
      var all := GetExpenses();
      result := ExpensesByCategory(all, category);
    }
  }
}
