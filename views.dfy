/**
 * The read side of the in-memory store: how a contract, a payment and an
 * expense are joined with the rows they refer to, the filters over the
 * joined lists, and the dashboard's revenue sum. Everything here is a
 * function of the tables' current values; the class in `Storage` hands its
 * fields to these functions.
 */
module Views {
  import opened Wrappers
  import opened JsMap
  import opened Schema

  // ------------------------------------------------------- list combinators

  /**
   * `for (const x of s) { const y = f(x); if (y) out.push(y); }`: the
   * results that resolved, in the order of `s`.
   */
  function FilterMap<X, Y>(s: seq<X>, f: X -> Option<Y>): (r: seq<Y>)
    ensures |r| <= |s|
    ensures forall y :: y in r ==> exists i :: 0 <= i < |s| && f(s[i]) == Some(y)
  {
    if s == [] then []
    else
      var init := s[..|s| - 1];
      var rest := FilterMap(init, f);
      assert forall i :: 0 <= i < |init| ==> init[i] == s[i];
      match f(s[|s| - 1])
      case Some(y) => rest + [y]
      case None => rest
  }

  /** One more loop iteration: the new element's result, if any, goes last. */
  lemma FilterMapSnoc<X, Y>(s: seq<X>, x: X, f: X -> Option<Y>)
    ensures FilterMap(s + [x], f) == FilterMap(s, f) + (if f(x).Some? then [f(x).value] else [])
  {
    assert (s + [x])[..|s + [x]| - 1] == s;
  }

  /** Every element of `s` that resolves contributes its result. */
  lemma {:induction false} FilterMapComplete<X, Y>(s: seq<X>, f: X -> Option<Y>, i: int)
    requires 0 <= i < |s| && f(s[i]).Some?
    ensures f(s[i]).value in FilterMap(s, f)
  {
    var init := s[..|s| - 1];
    if i < |s| - 1 {
      assert init[i] == s[i];
      FilterMapComplete(init, f, i);
    }
  }

  /** When `f` keeps the key of what it resolves, ascending keys stay ascending. */
  lemma {:induction false} FilterMapKeepsOrder<X, Y>(s: seq<X>, f: X -> Option<Y>, key: X -> int, out: Y -> int)
    requires forall x :: f(x).Some? ==> out(f(x).value) == key(x)
    requires IncreasingBy(s, key)
    ensures IncreasingBy(FilterMap(s, f), out)
  {
    if s != [] {
      var init := s[..|s| - 1];
      var last := s[|s| - 1];
      assert IncreasingBy(init, key);
      FilterMapKeepsOrder(init, f, key, out);
      var rest := FilterMap(init, f);
      if f(last).Some? {
        forall k | 0 <= k < |rest| ensures out(rest[k]) < out(f(last).value) {
          var i :| 0 <= i < |init| && f(init[i]) == Some(rest[k]);
          assert init[i] == s[i];
        }
      }
    }
  }

  /** `s.filter(keep)`. */
  function Filter<X(!new)>(s: seq<X>, keep: X -> bool): (r: seq<X>)
    ensures |r| <= |s|
    ensures forall x :: x in r <==> x in s && keep(x)
  {
    if s == [] then []
    else
      var init := s[..|s| - 1];
      assert s == init + [s[|s| - 1]];
      var rest := Filter(init, keep);
      if keep(s[|s| - 1]) then rest + [s[|s| - 1]] else rest
  }

  /** A filter keeps the relative order of what it keeps. */
  lemma {:induction false} FilterKeepsOrder<X(!new)>(s: seq<X>, keep: X -> bool, key: X -> int)
    ensures IncreasingBy(s, key) ==> IncreasingBy(Filter(s, keep), key)
  {
    if s != [] && IncreasingBy(s, key) {
      var init := s[..|s| - 1];
      var last := s[|s| - 1];
      assert IncreasingBy(init, key);
      FilterKeepsOrder(init, keep, key);
      var rest := Filter(init, keep);
      forall k | 0 <= k < |rest| ensures key(rest[k]) < key(last) {
        assert rest[k] in init;
        var i :| 0 <= i < |init| && init[i] == rest[k];
        assert init[i] == s[i];
      }
    }
  }

  // ---------------------------------------------------------------- contracts

  /** A stored contract joined with its property and its tenant, when both exist. */
  function JoinContract(properties: Table<Property>, tenants: Table<Tenant>, c: Contract): (r: Option<ContractWithDetails>)
    ensures r.Some? <==> c.propertyId in properties.rows && c.tenantId in tenants.rows
    ensures r.Some? ==> r.value == ContractWithDetails(c, properties.rows[c.propertyId], tenants.rows[c.tenantId])
  {
    match (properties.Get(c.propertyId), tenants.Get(c.tenantId))
    case (Some(p), Some(t)) => Some(ContractWithDetails(c, p, t))
    case _ => None
  }

  /** `getContract(id)`: absent when the contract, its property or its tenant is missing. */
  function FindContract(properties: Table<Property>, tenants: Table<Tenant>, contracts: Table<Contract>, id: int)
    : (r: Option<ContractWithDetails>)
    ensures r.None? <==> id !in contracts.rows
                         || contracts.rows[id].propertyId !in properties.rows
                         || contracts.rows[id].tenantId !in tenants.rows
    ensures r.Some? ==> && r.value.contract == contracts.rows[id]
                        && r.value.property == properties.rows[r.value.contract.propertyId]
                        && r.value.tenant == tenants.rows[r.value.contract.tenantId]
  {
    match contracts.Get(id)
    case None => None
    case Some(c) => JoinContract(properties, tenants, c)
  }

  /** What the loop of `getContracts` has pushed after visiting the contracts `cs`. */
  function JoinContracts(properties: Table<Property>, tenants: Table<Tenant>, cs: seq<Contract>): seq<ContractWithDetails> {
    FilterMap(cs, (c: Contract) => JoinContract(properties, tenants, c))
  }

  lemma JoinContractsSnoc(properties: Table<Property>, tenants: Table<Tenant>, cs: seq<Contract>, c: Contract)
    ensures JoinContracts(properties, tenants, cs + [c])
         == JoinContracts(properties, tenants, cs)
            + (if JoinContract(properties, tenants, c).Some? then [JoinContract(properties, tenants, c).value] else [])
  {
    FilterMapSnoc(cs, c, (c: Contract) => JoinContract(properties, tenants, c));
  }

  /** `getContracts()`. */
  function AllContracts(properties: Table<Property>, tenants: Table<Tenant>, contracts: Table<Contract>)
    : (r: seq<ContractWithDetails>)
    requires contracts.Valid()
    ensures |r| <= contracts.Size()
    ensures forall x :: x in r ==> x.contract in contracts.rows.Values && JoinContract(properties, tenants, x.contract) == Some(x)
  {
    JoinContracts(properties, tenants, contracts.Values())
  }

  function ContractViewKey(x: ContractWithDetails): int { x.contract.id }

  /**
   * With every contract stored under its own id, the joined list holds
   * exactly the contracts `getContract` resolves, in ascending id order,
   * which is the table's insertion order.
   */
  lemma AllContractsExactly(properties: Table<Property>, tenants: Table<Tenant>, contracts: Table<Contract>, next: int)
    requires Keyed(contracts, next, ContractKey)
    ensures forall x :: x in AllContracts(properties, tenants, contracts) <==>
                          x.contract.id in contracts.rows && FindContract(properties, tenants, contracts, x.contract.id) == Some(x)
    ensures IncreasingBy(AllContracts(properties, tenants, contracts), ContractViewKey)
  {
    var vs := contracts.Values();
    var f := (c: Contract) => JoinContract(properties, tenants, c);
    KeyedValues(contracts, next, ContractKey);
    forall x: ContractWithDetails | x.contract.id in contracts.rows && FindContract(properties, tenants, contracts, x.contract.id) == Some(x)
      ensures x in AllContracts(properties, tenants, contracts)
    {
      var c := contracts.rows[x.contract.id];
      assert c in vs;
      var i :| 0 <= i < |vs| && vs[i] == c;
      FilterMapComplete(vs, f, i);
    }
    FilterMapKeepsOrder(vs, f, ContractKey, ContractViewKey);
  }

  /** `getActiveContracts()`: only `isActive === true` passes; `null` and `false` do not. */
  predicate IsActive(x: ContractWithDetails) {
    x.contract.isActive == Some(true)
  }

  function ActiveContracts(cs: seq<ContractWithDetails>): (r: seq<ContractWithDetails>)
    ensures forall x :: x in r <==> x in cs && x.contract.isActive == Some(true)
    ensures IncreasingBy(cs, ContractViewKey) ==> IncreasingBy(r, ContractViewKey)
  {
    FilterKeepsOrder(cs, IsActive, ContractViewKey);
    Filter(cs, IsActive)
  }

  // ----------------------------------------------------------------- payments

  /** A payment joined with its full contract, when `getContract` resolves that. */
  function JoinPayment(properties: Table<Property>, tenants: Table<Tenant>, contracts: Table<Contract>, p: Payment)
    : (r: Option<PaymentWithDetails>)
    ensures r.Some? <==> FindContract(properties, tenants, contracts, p.contractId).Some?
    ensures r.Some? ==> r.value == PaymentWithDetails(p, FindContract(properties, tenants, contracts, p.contractId).value)
  {
    match FindContract(properties, tenants, contracts, p.contractId)
    case Some(cd) => Some(PaymentWithDetails(p, cd))
    case None => None
  }

  /** `getPayment(id)`: absent unless the payment, its contract, and that contract's property and tenant all exist. */
  function FindPayment(properties: Table<Property>, tenants: Table<Tenant>, contracts: Table<Contract>,
                       payments: Table<Payment>, id: int): (r: Option<PaymentWithDetails>)
    ensures r.None? <==> || id !in payments.rows
                         || var cid := payments.rows[id].contractId;
                            || cid !in contracts.rows
                            || contracts.rows[cid].propertyId !in properties.rows
                            || contracts.rows[cid].tenantId !in tenants.rows
    ensures r.Some? ==> && r.value.payment == payments.rows[id]
                        && Some(r.value.contract) == FindContract(properties, tenants, contracts, r.value.payment.contractId)
  {
    match payments.Get(id)
    case None => None
    case Some(p) => JoinPayment(properties, tenants, contracts, p)
  }

  /** What the loop of `getPayments` has pushed after visiting the payments `ps`. */
  function JoinPayments(properties: Table<Property>, tenants: Table<Tenant>, contracts: Table<Contract>, ps: seq<Payment>)
    : seq<PaymentWithDetails>
  {
    FilterMap(ps, (p: Payment) => JoinPayment(properties, tenants, contracts, p))
  }

  lemma JoinPaymentsSnoc(properties: Table<Property>, tenants: Table<Tenant>, contracts: Table<Contract>,
                         ps: seq<Payment>, p: Payment)
    ensures JoinPayments(properties, tenants, contracts, ps + [p])
         == JoinPayments(properties, tenants, contracts, ps)
            + (if JoinPayment(properties, tenants, contracts, p).Some?
               then [JoinPayment(properties, tenants, contracts, p).value] else [])
  {
    FilterMapSnoc(ps, p, (p: Payment) => JoinPayment(properties, tenants, contracts, p));
  }

  /** `getPayments()`. */
  function AllPayments(properties: Table<Property>, tenants: Table<Tenant>, contracts: Table<Contract>, payments: Table<Payment>)
    : (r: seq<PaymentWithDetails>)
    requires payments.Valid()
    ensures |r| <= payments.Size()
    ensures forall x :: x in r ==> x.payment in payments.rows.Values && JoinPayment(properties, tenants, contracts, x.payment) == Some(x)
  {
    JoinPayments(properties, tenants, contracts, payments.Values())
  }

  function PaymentViewKey(x: PaymentWithDetails): int { x.payment.id }

  /** The joined list holds exactly the payments `getPayment` resolves, in ascending id order. */
  lemma AllPaymentsExactly(properties: Table<Property>, tenants: Table<Tenant>, contracts: Table<Contract>,
                           payments: Table<Payment>, next: int)
    requires Keyed(payments, next, PaymentKey)
    ensures forall x :: x in AllPayments(properties, tenants, contracts, payments) <==>
                          x.payment.id in payments.rows && FindPayment(properties, tenants, contracts, payments, x.payment.id) == Some(x)
    ensures IncreasingBy(AllPayments(properties, tenants, contracts, payments), PaymentViewKey)
  {
    var vs := payments.Values();
    var f := (p: Payment) => JoinPayment(properties, tenants, contracts, p);
    KeyedValues(payments, next, PaymentKey);
    forall x: PaymentWithDetails | x.payment.id in payments.rows && FindPayment(properties, tenants, contracts, payments, x.payment.id) == Some(x)
      ensures x in AllPayments(properties, tenants, contracts, payments)
    {
      var p := payments.rows[x.payment.id];
      assert p in vs;
      var i :| 0 <= i < |vs| && vs[i] == p;
      FilterMapComplete(vs, f, i);
    }
    FilterMapKeepsOrder(vs, f, PaymentKey, PaymentViewKey);
  }

  function IsOverdue(x: PaymentWithDetails, now: Date): bool {
    x.payment.dueDate < now
  }

  /** `getOverduePayments()`: due strictly before `now`; the stored `isLate` flag plays no part. */
  function OverduePayments(ps: seq<PaymentWithDetails>, now: Date): (r: seq<PaymentWithDetails>)
    ensures forall x :: x in r <==> x in ps && x.payment.dueDate < now
    ensures IncreasingBy(ps, PaymentViewKey) ==> IncreasingBy(r, PaymentViewKey)
  {
    var keep := (x: PaymentWithDetails) => IsOverdue(x, now);
    FilterKeepsOrder(ps, keep, PaymentViewKey);
    Filter(ps, keep)
  }

  function HasContract(x: PaymentWithDetails, contractId: int): bool {
    x.payment.contractId == contractId
  }

  /** `getPaymentsByContract(contractId)`. */
  function PaymentsByContract(ps: seq<PaymentWithDetails>, contractId: int): (r: seq<PaymentWithDetails>)
    ensures forall x :: x in r <==> x in ps && x.payment.contractId == contractId
    ensures IncreasingBy(ps, PaymentViewKey) ==> IncreasingBy(r, PaymentViewKey)
  {
    var keep := (x: PaymentWithDetails) => HasContract(x, contractId);
    FilterKeepsOrder(ps, keep, PaymentViewKey);
    Filter(ps, keep)
  }

  // ----------------------------------------------------------------- expenses

  /** `if (expense.contractId)`: a missing key, `null` and `0` all read as false. */
  predicate Truthy(f: Field<int>) {
    f.Value? && f.value != 0
  }

  /**
   * The contract `getExpenses` attaches. It is built with the expense's
   * property, not with the property the contract names, and that property
   * is never looked up.
   */
  function AttachContract(tenants: Table<Tenant>, contracts: Table<Contract>, e: Expense, property: Property)
    : (r: Option<ContractWithDetails>)
    ensures r.Some? <==> && Truthy(e.contractId)
                         && e.contractId.value in contracts.rows
                         && contracts.rows[e.contractId.value].tenantId in tenants.rows
    ensures r.Some? ==> && r.value.contract == contracts.rows[e.contractId.value]
                        && r.value.property == property
                        && r.value.tenant == tenants.rows[r.value.contract.tenantId]
  {
    if !Truthy(e.contractId) then None
    else
      match contracts.Get(e.contractId.value)
      case None => None
      case Some(c) =>
        match tenants.Get(c.tenantId)
        case None => None
        case Some(t) => Some(ContractWithDetails(c, property, t))
  }

  /**
   * No stored contract has id 0, so testing `contractId` for truthiness
   * attaches a contract exactly when the key holds the id of a stored
   * contract whose tenant exists.
   */
  lemma ZeroContractIdIsHarmless(tenants: Table<Tenant>, contracts: Table<Contract>, next: int, e: Expense, property: Property)
    requires Keyed(contracts, next, ContractKey)
    ensures AttachContract(tenants, contracts, e, property).Some? <==>
            && e.contractId.Value?
            && e.contractId.value in contracts.rows
            && contracts.rows[e.contractId.value].tenantId in tenants.rows
  {
    assert 0 !in contracts.rows;
  }

  /** An expense joined with its property; a contract is attached when one can be. */
  function JoinExpense(properties: Table<Property>, tenants: Table<Tenant>, contracts: Table<Contract>, e: Expense)
    : (r: Option<ExpenseWithDetails>)
    ensures r.Some? <==> e.propertyId in properties.rows
    ensures r.Some? ==> && r.value.expense == e
                        && r.value.property == properties.rows[e.propertyId]
                        && r.value.contract == AttachContract(tenants, contracts, e, r.value.property)
  {
    match properties.Get(e.propertyId)
    case None => None
    case Some(p) => Some(ExpenseWithDetails(e, p, AttachContract(tenants, contracts, e, p)))
  }

  /** `getExpense(id)`: absent only when the expense or its property is missing. */
  function FindExpense(properties: Table<Property>, tenants: Table<Tenant>, contracts: Table<Contract>,
                       expenses: Table<Expense>, id: int): (r: Option<ExpenseWithDetails>)
    ensures r.None? <==> id !in expenses.rows || expenses.rows[id].propertyId !in properties.rows
    ensures r.Some? ==> Some(r.value) == JoinExpense(properties, tenants, contracts, expenses.rows[id])
  {
    match expenses.Get(id)
    case None => None
    case Some(e) => JoinExpense(properties, tenants, contracts, e)
  }

  /** What the loop of `getExpenses` has pushed after visiting the expenses `es`. */
  function JoinExpenses(properties: Table<Property>, tenants: Table<Tenant>, contracts: Table<Contract>, es: seq<Expense>)
    : seq<ExpenseWithDetails>
  {
    FilterMap(es, (e: Expense) => JoinExpense(properties, tenants, contracts, e))
  }

  lemma JoinExpensesSnoc(properties: Table<Property>, tenants: Table<Tenant>, contracts: Table<Contract>,
                         es: seq<Expense>, e: Expense)
    ensures JoinExpenses(properties, tenants, contracts, es + [e])
         == JoinExpenses(properties, tenants, contracts, es)
            + (if JoinExpense(properties, tenants, contracts, e).Some?
               then [JoinExpense(properties, tenants, contracts, e).value] else [])
  {
    FilterMapSnoc(es, e, (e: Expense) => JoinExpense(properties, tenants, contracts, e));
  }

  /** `getExpenses()`. */
  function AllExpenses(properties: Table<Property>, tenants: Table<Tenant>, contracts: Table<Contract>, expenses: Table<Expense>)
    : (r: seq<ExpenseWithDetails>)
    requires expenses.Valid()
    ensures |r| <= expenses.Size()
    ensures forall x :: x in r ==> x.expense in expenses.rows.Values && JoinExpense(properties, tenants, contracts, x.expense) == Some(x)
  {
    JoinExpenses(properties, tenants, contracts, expenses.Values())
  }

  function ExpenseViewKey(x: ExpenseWithDetails): int { x.expense.id }

  /** The joined list holds exactly the expenses `getExpense` resolves, in ascending id order. */
  lemma AllExpensesExactly(properties: Table<Property>, tenants: Table<Tenant>, contracts: Table<Contract>,
                           expenses: Table<Expense>, next: int)
    requires Keyed(expenses, next, ExpenseKey)
    ensures forall x :: x in AllExpenses(properties, tenants, contracts, expenses) <==>
                          x.expense.id in expenses.rows && FindExpense(properties, tenants, contracts, expenses, x.expense.id) == Some(x)
    ensures IncreasingBy(AllExpenses(properties, tenants, contracts, expenses), ExpenseViewKey)
  {
    var vs := expenses.Values();
    var f := (e: Expense) => JoinExpense(properties, tenants, contracts, e);
    KeyedValues(expenses, next, ExpenseKey);
    forall x: ExpenseWithDetails | x.expense.id in expenses.rows && FindExpense(properties, tenants, contracts, expenses, x.expense.id) == Some(x)
      ensures x in AllExpenses(properties, tenants, contracts, expenses)
    {
      var e := expenses.rows[x.expense.id];
      assert e in vs;
      var i :| 0 <= i < |vs| && vs[i] == e;
      FilterMapComplete(vs, f, i);
    }
    FilterMapKeepsOrder(vs, f, ExpenseKey, ExpenseViewKey);
  }

  function OnProperty(x: ExpenseWithDetails, propertyId: int): bool {
    x.expense.propertyId == propertyId
  }

  /** `getExpensesByProperty(propertyId)`. */
  function ExpensesByProperty(es: seq<ExpenseWithDetails>, propertyId: int): (r: seq<ExpenseWithDetails>)
    ensures forall x :: x in r <==> x in es && x.expense.propertyId == propertyId
    ensures IncreasingBy(es, ExpenseViewKey) ==> IncreasingBy(r, ExpenseViewKey)
  {
    var keep := (x: ExpenseWithDetails) => OnProperty(x, propertyId);
    FilterKeepsOrder(es, keep, ExpenseViewKey);
    Filter(es, keep)
  }

  /** `expense.contractId === contractId`: strict equality, so a missing or `null` key never matches. */
  function OnContract(x: ExpenseWithDetails, contractId: int): bool {
    x.expense.contractId == Value(contractId)
  }

  /** `getExpensesByContract(contractId)`. */
  function ExpensesByContract(es: seq<ExpenseWithDetails>, contractId: int): (r: seq<ExpenseWithDetails>)
    ensures forall x :: x in r <==> x in es && x.expense.contractId == Value(contractId)
    ensures IncreasingBy(es, ExpenseViewKey) ==> IncreasingBy(r, ExpenseViewKey)
  {
    var keep := (x: ExpenseWithDetails) => OnContract(x, contractId);
    FilterKeepsOrder(es, keep, ExpenseViewKey);
    Filter(es, keep)
  }

  function InCategory(x: ExpenseWithDetails, category: string): bool {
    x.expense.category == category
  }

  /** `getExpensesByCategory(category)`. */
  function ExpensesByCategory(es: seq<ExpenseWithDetails>, category: string): (r: seq<ExpenseWithDetails>)
    ensures forall x :: x in r <==> x in es && x.expense.category == category
    ensures IncreasingBy(es, ExpenseViewKey) ==> IncreasingBy(r, ExpenseViewKey)
  {
    var keep := (x: ExpenseWithDetails) => InCategory(x, category);
    FilterKeepsOrder(es, keep, ExpenseViewKey);
    Filter(es, keep)
  }

  // ---------------------------------------------------------------- dashboard

  /** A JavaScript number as far as the revenue sum needs one: `NaN`, or a finite value. */
  datatype Number = NaN | Finite(value: real)

  /** `a + b`: `NaN` absorbs everything. */
  function Plus(a: Number, b: Number): (r: Number)
    ensures r.NaN? <==> a.NaN? || b.NaN?
    ensures r.Finite? ==> r.value == a.value + b.value
  {
    if a.NaN? || b.NaN? then NaN else Finite(a.value + b.value)
  }

  /** Addition with `NaN` is commutative and associative, and 0 is its unit. */
  lemma PlusLaws(a: Number, b: Number, c: Number)
    ensures Plus(a, b) == Plus(b, a)
    ensures Plus(Plus(a, b), c) == Plus(a, Plus(b, c))
    ensures Plus(a, Finite(0.0)) == a
  {
  }

  /** `s || '0'`: only the empty string is replaced. */
  function RentText(s: string): (r: string)
    ensures r != ""
    ensures s == "" ==> r == "0"
    ensures s != "" ==> r == s
  {
    if s == "" then "0" else s
  }

  /**
   * `cs.reduce((total, c) => total + parseFloat(c.monthlyRent || '0'), 0)`,
   * with `parseFloat` given as a parameter. The sum is `NaN` exactly when
   * some contract's rent text parses to `NaN`; one contract contributes its
   * parsed rent, and with `RevenueAppend` this fixes the sum of any list.
   */
  function Revenue(cs: seq<ContractWithDetails>, parseFloat: string -> Number): (r: Number)
    ensures r.NaN? <==> exists i :: 0 <= i < |cs| && parseFloat(RentText(cs[i].contract.monthlyRent)).NaN?
    ensures cs == [] ==> r == Finite(0.0)
    ensures |cs| == 1 ==> r == parseFloat(RentText(cs[0].contract.monthlyRent))
  {
    if cs == [] then Finite(0.0)
    else
      var init := cs[..|cs| - 1];
      assert forall i :: 0 <= i < |init| ==> init[i] == cs[i];
      Plus(Revenue(init, parseFloat), parseFloat(RentText(cs[|cs| - 1].contract.monthlyRent)))
  }

  /** The sum over two lists put together is the sum of the two sums. */
  lemma {:induction false} RevenueAppend(a: seq<ContractWithDetails>, b: seq<ContractWithDetails>, parseFloat: string -> Number)
    ensures Revenue(a + b, parseFloat) == Plus(Revenue(a, parseFloat), Revenue(b, parseFloat))
  {
    if b != [] {
      var init := b[..|b| - 1];
      assert (a + b)[..|a + b| - 1] == a + init;
      RevenueAppend(a, init, parseFloat);
    } else {
      assert a + b == a;
    }
  }

  /** What `getDashboardStats` returns. */
  datatype DashboardStats = DashboardStats(
    totalProperties: int,
    activeTenants: int,
    monthlyRevenue: Number,
    overduePayments: int)
}
