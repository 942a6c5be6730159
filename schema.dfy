/**
 * The five tables of the property-management store, the shapes a create
 * accepts (a table row without its `id`), the shapes an update accepts
 * (every key of the create shape optional), and the joined views.
 *
 * Dates are the milliseconds `new Date(s).getTime()` yields; decimal
 * columns are the text the database driver hands over.
 */
module Schema {
  import opened Wrappers

  type Date = int
  type Decimal = string

  /** The values the `type` and `paymentMethod` text columns are meant to hold. */
  const PropertyTypes: set<string> := {"apartment", "villa", "commercial", "office"}
  const PaymentMethods: set<string> := {"cash", "check", "transfer"}

  /** Column defaults a database would apply; the in-memory store does not. */
  const IsAvailableDefault := true
  const IsActiveDefault := true
  const IsLateDefault := false
  const IsRecurringDefault := false

  // ---------------------------------------------------------------- properties

  datatype Property = Property(
    id: int,
    title: string,
    address: string,
    propertyType: string,
    rooms: Option<int>,
    area: Option<Decimal>,
    monthlyRent: Decimal,
    ownerName: string,
    ownerPhone: Option<string>,
    ownerEmail: Option<string>,
    description: Option<string>,
    isAvailable: Option<bool>)
  {
    /** The row without its id, as a create payload would carry it. */
    function AsInsert(): InsertProperty {
      InsertProperty(title, address, propertyType, AsField(rooms), AsField(area), monthlyRent,
                     ownerName, AsField(ownerPhone), AsField(ownerEmail), AsField(description),
                     AsField(isAvailable))
    }
  }

  datatype InsertProperty = InsertProperty(
    title: string,
    address: string,
    propertyType: string,
    rooms: Field<int>,
    area: Field<Decimal>,
    monthlyRent: Decimal,
    ownerName: string,
    ownerPhone: Field<string>,
    ownerEmail: Field<string>,
    description: Field<string>,
    isAvailable: Field<bool>)
  {
    /** The payload with every missing optional key spelt `null`. */
    function Filled(): InsertProperty {
      this.(rooms := Wrappers.Filled(rooms), area := Wrappers.Filled(area),
            ownerPhone := Wrappers.Filled(ownerPhone), ownerEmail := Wrappers.Filled(ownerEmail),
            description := Wrappers.Filled(description), isAvailable := Wrappers.Filled(isAvailable))
    }

    /** The payload read as an update that carries every one of its keys. */
    function AsPatch(): PropertyPatch {
      PropertyPatch(Some(title), Some(address), Some(propertyType), rooms, area, Some(monthlyRent),
                    Some(ownerName), ownerPhone, ownerEmail, description, isAvailable)
    }
  }

  /** `Partial<InsertProperty>`: `None` / `Omitted` is a key the update does not carry. */
  datatype PropertyPatch = PropertyPatch(
    title: Option<string>,
    address: Option<string>,
    propertyType: Option<string>,
    rooms: Field<int>,
    area: Field<Decimal>,
    monthlyRent: Option<Decimal>,
    ownerName: Option<string>,
    ownerPhone: Field<string>,
    ownerEmail: Field<string>,
    description: Field<string>,
    isAvailable: Field<bool>)

  // ------------------------------------------------------------------- tenants

  datatype Tenant = Tenant(
    id: int,
    name: string,
    phone: string,
    email: Option<string>,
    nationalId: Option<string>,
    emergencyContact: Option<string>,
    emergencyPhone: Option<string>,
    occupation: Option<string>,
    notes: Option<string>)
  {
    function AsInsert(): InsertTenant {
      InsertTenant(name, phone, AsField(email), AsField(nationalId), AsField(emergencyContact),
                   AsField(emergencyPhone), AsField(occupation), AsField(notes))
    }
  }

  datatype InsertTenant = InsertTenant(
    name: string,
    phone: string,
    email: Field<string>,
    nationalId: Field<string>,
    emergencyContact: Field<string>,
    emergencyPhone: Field<string>,
    occupation: Field<string>,
    notes: Field<string>)
  {
    function Filled(): InsertTenant {
      this.(email := Wrappers.Filled(email), nationalId := Wrappers.Filled(nationalId),
            emergencyContact := Wrappers.Filled(emergencyContact),
            emergencyPhone := Wrappers.Filled(emergencyPhone),
            occupation := Wrappers.Filled(occupation), notes := Wrappers.Filled(notes))
    }

    function AsPatch(): TenantPatch {
      TenantPatch(Some(name), Some(phone), email, nationalId, emergencyContact, emergencyPhone, occupation, notes)
    }
  }

  datatype TenantPatch = TenantPatch(
    name: Option<string>,
    phone: Option<string>,
    email: Field<string>,
    nationalId: Field<string>,
    emergencyContact: Field<string>,
    emergencyPhone: Field<string>,
    occupation: Field<string>,
    notes: Field<string>)

  // ----------------------------------------------------------------- contracts

  /** A rental contract; `propertyId` and `tenantId` are required references. */
  datatype Contract = Contract(
    id: int,
    propertyId: int,
    tenantId: int,
    startDate: Date,
    endDate: Date,
    monthlyRent: Decimal,
    securityDeposit: Option<Decimal>,
    isActive: Option<bool>,
    notes: Option<string>)
  {
    function AsInsert(): InsertContract {
      InsertContract(propertyId, tenantId, startDate, endDate, monthlyRent,
                     AsField(securityDeposit), AsField(isActive), AsField(notes))
    }
  }

  datatype InsertContract = InsertContract(
    propertyId: int,
    tenantId: int,
    startDate: Date,
    endDate: Date,
    monthlyRent: Decimal,
    securityDeposit: Field<Decimal>,
    isActive: Field<bool>,
    notes: Field<string>)
  {
    function Filled(): InsertContract {
      this.(securityDeposit := Wrappers.Filled(securityDeposit),
            isActive := Wrappers.Filled(isActive), notes := Wrappers.Filled(notes))
    }

    function AsPatch(): ContractPatch {
      ContractPatch(Some(propertyId), Some(tenantId), Some(startDate), Some(endDate), Some(monthlyRent),
                    securityDeposit, isActive, notes)
    }
  }

  datatype ContractPatch = ContractPatch(
    propertyId: Option<int>,
    tenantId: Option<int>,
    startDate: Option<Date>,
    endDate: Option<Date>,
    monthlyRent: Option<Decimal>,
    securityDeposit: Field<Decimal>,
    isActive: Field<bool>,
    notes: Field<string>)

  // ------------------------------------------------------------------ payments

  /** A payment; `contractId` is a required reference. */
  datatype Payment = Payment(
    id: int,
    contractId: int,
    amount: Decimal,
    paymentDate: Date,
    dueDate: Date,
    paymentMethod: Option<string>,
    referenceNumber: Option<string>,
    notes: Option<string>,
    isLate: Option<bool>)
  {
    function AsInsert(): InsertPayment {
      InsertPayment(contractId, amount, paymentDate, dueDate, AsField(paymentMethod),
                    AsField(referenceNumber), AsField(notes), AsField(isLate))
    }
  }

  datatype InsertPayment = InsertPayment(
    contractId: int,
    amount: Decimal,
    paymentDate: Date,
    dueDate: Date,
    paymentMethod: Field<string>,
    referenceNumber: Field<string>,
    notes: Field<string>,
    isLate: Field<bool>)
  {
    function Filled(): InsertPayment {
      this.(paymentMethod := Wrappers.Filled(paymentMethod),
            referenceNumber := Wrappers.Filled(referenceNumber),
            notes := Wrappers.Filled(notes), isLate := Wrappers.Filled(isLate))
    }

    function AsPatch(): PaymentPatch {
      PaymentPatch(Some(contractId), Some(amount), Some(paymentDate), Some(dueDate), paymentMethod,
                   referenceNumber, notes, isLate)
    }
  }

  datatype PaymentPatch = PaymentPatch(
    contractId: Option<int>,
    amount: Option<Decimal>,
    paymentDate: Option<Date>,
    dueDate: Option<Date>,
    paymentMethod: Field<string>,
    referenceNumber: Field<string>,
    notes: Field<string>,
    isLate: Field<bool>)

  // ------------------------------------------------------------------ expenses

  /**
   * An expense; `propertyId` is required, `contractId` optional. The store
   * keeps a created expense exactly as the payload came, so its optional
   * columns can still be missing keys, not only `null`.
   */
  datatype Expense = Expense(
    id: int,
    propertyId: int,
    contractId: Field<int>,
    category: string,
    description: string,
    amount: Decimal,
    expenseDate: Date,
    vendor: Field<string>,
    receiptNumber: Field<string>,
    notes: Field<string>,
    isRecurring: Field<bool>)
  {
    function AsInsert(): InsertExpense {
      InsertExpense(propertyId, contractId, category, description, amount, expenseDate,
                    vendor, receiptNumber, notes, isRecurring)
    }
  }

  datatype InsertExpense = InsertExpense(
    propertyId: int,
    contractId: Field<int>,
    category: string,
    description: string,
    amount: Decimal,
    expenseDate: Date,
    vendor: Field<string>,
    receiptNumber: Field<string>,
    notes: Field<string>,
    isRecurring: Field<bool>)
  {
    function AsPatch(): ExpensePatch {
      ExpensePatch(Some(propertyId), contractId, Some(category), Some(description), Some(amount),
                   Some(expenseDate), vendor, receiptNumber, notes, isRecurring)
    }
  }

  datatype ExpensePatch = ExpensePatch(
    propertyId: Option<int>,
    contractId: Field<int>,
    category: Option<string>,
    description: Option<string>,
    amount: Option<Decimal>,
    expenseDate: Option<Date>,
    vendor: Field<string>,
    receiptNumber: Field<string>,
    notes: Field<string>,
    isRecurring: Field<bool>)

  /** Each row's id, as a function value (the key a table stores it under). */
  function PropertyKey(p: Property): int { p.id }
  function TenantKey(t: Tenant): int { t.id }
  function ContractKey(c: Contract): int { c.id }
  function PaymentKey(p: Payment): int { p.id }
  function ExpenseKey(e: Expense): int { e.id }

  // -------------------------------------------------------------- joined views

  /** A contract with the property and the tenant it refers to. */
  datatype ContractWithDetails = ContractWithDetails(contract: Contract, property: Property, tenant: Tenant)

  /** A payment with its full joined contract. */
  datatype PaymentWithDetails = PaymentWithDetails(payment: Payment, contract: ContractWithDetails)

  /** An expense with its property and, when one could be attached, a joined contract. */
  datatype ExpenseWithDetails = ExpenseWithDetails(expense: Expense, property: Property, contract: Option<ContractWithDetails>)

  /** A row of the first four tables, stripped of its id, has every optional key spelt out. */
  lemma RowsHaveNoMissingKeys(p: Property, t: Tenant, c: Contract, y: Payment)
    ensures p.AsInsert().Filled() == p.AsInsert()
    ensures t.AsInsert().Filled() == t.AsInsert()
    ensures c.AsInsert().Filled() == c.AsInsert()
    ensures y.AsInsert().Filled() == y.AsInsert()
  {
  }
}
