/**
 * Short client runs of the store that pin down, on concrete data, what its
 * contracts imply: ids are handed out in sequence and never again, the
 * dashboard counts contracts rather than tenants, and an expense borrows
 * its own property for the contract it attaches.
 */
module Scenarios {
  import opened Wrappers
  import opened JsMap
  import opened Schema
  import opened Views
  import opened Storage

  function SomeProperty(title: string): InsertProperty {
    InsertProperty(title, "Amman", "apartment", Omitted, Omitted, "1000", "owner", Omitted, Omitted, Omitted, Omitted)
  }

  const SomeTenant := InsertTenant("tenant", "0790000000", Omitted, Omitted, Omitted, Omitted, Omitted, Omitted)

  function SomeContract(propertyId: int, tenantId: int, isActive: Field<bool>): InsertContract {
    InsertContract(propertyId, tenantId, 0, 1, "1000", Omitted, isActive, Omitted)
  }

  const First := NewProperty(1, SomeProperty("first"))
  const Second := NewProperty(2, SomeProperty("second"))
  const Third := NewProperty(3, SomeProperty("third"))

  /** The properties table of that run, built one step at a time, and what it lists. */
  lemma PropertyTableBuilt()
    ensures Table(map[], []).Set(1, First).Set(2, Second).Delete(2).Set(3, Third) == Table(map[1 := First, 3 := Third], [1, 3])
    ensures Table(map[1 := First, 3 := Third], [1, 3]).Values() == [First, Third]
  {
    assert Table(map[], []).Set(1, First).Set(2, Second) == Table(map[1 := First, 2 := Second], [1, 2]);
    assert Without([1, 2], 2) == [1] by {
      assert [1, 2][1..] == [2];
    }
  }

  /** Two properties created in a new store, the second deleted again. */
  method EnterAndDelete() returns (s: MemStorage, first: int, second: int)
    ensures fresh(s) && s.Valid()
    ensures first == 1 && second == 2
    ensures s.properties == Table(map[], []).Set(1, First).Set(2, Second).Delete(2)
    ensures s.currentIds.properties == 3
  {
    s := new MemStorage();
    var p1 := s.CreateProperty(SomeProperty("first"));
    var p2 := s.CreateProperty(SomeProperty("second"));
    var deleted := s.DeleteProperty(p2.id);
    first, second := p1.id, p2.id;
  }

  /**
   * Then a third property is created: it gets id 3, not the freed 2, and
   * the listing shows ids 1 and 3.
   */
  method IdsAreNeverReused() returns (ids: seq<int>, listed: seq<Property>)
    ensures ids == [1, 2, 3]
    ensures |listed| == 2 && listed[0].id == 1 && listed[1].id == 3
  {
    var s, first, second := EnterAndDelete();
    var p3 := s.CreateProperty(SomeProperty("third"));
    ids := [first, second, p3.id];
    PropertyTableBuilt();
    listed := s.GetProperties();
  }

  /** One property, one tenant, and three contracts between them, the third created without `isActive`. */
  const Home := NewProperty(1, SomeProperty("home"))
  const Renter := NewTenant(1, SomeTenant)
  const Lease1 := NewContract(1, SomeContract(1, 1, Value(true)))
  const Lease2 := NewContract(2, SomeContract(1, 1, Value(true)))
  const Lease3 := NewContract(3, SomeContract(1, 1, Omitted))
  const HomeTable := Table(map[1 := Home], [1])
  const RenterTable := Table(map[1 := Renter], [1])
  const LeaseTable := Table(map[1 := Lease1, 2 := Lease2, 3 := Lease3], [1, 2, 3])

  lemma AllLeases()
    ensures AllContracts(HomeTable, RenterTable, LeaseTable)
         == [ContractWithDetails(Lease1, Home, Renter), ContractWithDetails(Lease2, Home, Renter),
             ContractWithDetails(Lease3, Home, Renter)]
  {
    var P, T, C := HomeTable, RenterTable, LeaseTable;
    var c1, c2, c3 := Lease1, Lease2, Lease3;
    assert C.Values() == [c1, c2, c3];
    assert [c1, c2, c3][..2] == [c1, c2] && [c1, c2][..1] == [c1] && [c1][..0] == [];
    assert JoinContracts(P, T, [c1]) == [ContractWithDetails(c1, Home, Renter)];
    assert JoinContracts(P, T, [c1, c2]) == [ContractWithDetails(c1, Home, Renter), ContractWithDetails(c2, Home, Renter)];
  }

  lemma ActiveLeases()
    ensures ActiveContracts(AllContracts(HomeTable, RenterTable, LeaseTable))
         == [ContractWithDetails(Lease1, Home, Renter), ContractWithDetails(Lease2, Home, Renter)]
  {
    AllLeases();
    var x1, x2, x3 := ContractWithDetails(Lease1, Home, Renter), ContractWithDetails(Lease2, Home, Renter),
                      ContractWithDetails(Lease3, Home, Renter);
    assert [x1, x2, x3][..2] == [x1, x2] && [x1, x2][..1] == [x1] && [x1][..0] == [];
  }

  /**
   * The dashboard over these tables reports two active tenants (it counts
   * contracts, not tenants) and sums the rent of the two active contracts.
   */
  lemma DashboardCountsContracts(parseFloat: string -> Number)
    requires parseFloat("1000") == Finite(1000.0)
    ensures |ActiveContracts(AllContracts(HomeTable, RenterTable, LeaseTable))| == 2
    ensures Revenue(ActiveContracts(AllContracts(HomeTable, RenterTable, LeaseTable)), parseFloat) == Finite(2000.0)
  {
    ActiveLeases();
    var x1, x2 := ContractWithDetails(Lease1, Home, Renter), ContractWithDetails(Lease2, Home, Renter);
    assert [x1, x2][..1] == [x1] && [x1][..0] == [];
    assert RentText(Lease1.monthlyRent) == "1000" == RentText(Lease2.monthlyRent);
    assert Revenue([x1], parseFloat) == Plus(Finite(0.0), Finite(1000.0));
    assert Revenue([x1, x2], parseFloat) == Plus(Finite(1000.0), Finite(1000.0));
  }

  /** Storing the property, or the tenant, into an empty table. */
  lemma HomeTablesBuilt()
    ensures Table(map[], []).Set(1, Home) == HomeTable
    ensures Table(map[], []).Set(1, Renter) == RenterTable
  {
  }

  /** The property and the tenant entered through a new store. */
  method EnterHome() returns (s: MemStorage)
    ensures fresh(s) && s.Valid()
    ensures s.properties == HomeTable && s.tenants == RenterTable
    ensures s.contracts == Table(map[], []) && s.payments == Table(map[], [])
    ensures s.currentIds.contracts == 1
  {
    s := new MemStorage();
    var p := s.CreateProperty(SomeProperty("home"));
    var t := s.CreateTenant(SomeTenant);
    HomeTablesBuilt();
  }

  /** Storing the three contracts one after the other into an empty table. */
  lemma LeaseTableBuilt()
    ensures Table(map[], []).Set(1, Lease1).Set(2, Lease2).Set(3, Lease3) == LeaseTable
  {
    assert Table(map[], []).Set(1, Lease1) == Table(map[1 := Lease1], [1]);
    assert Table(map[1 := Lease1], [1]).Set(2, Lease2) == Table(map[1 := Lease1, 2 := Lease2], [1, 2]);
  }

  /** Then the three contracts. */
  method EnterLeases() returns (s: MemStorage)
    ensures fresh(s) && s.Valid()
    ensures s.properties == HomeTable && s.tenants == RenterTable && s.contracts == LeaseTable
    ensures s.payments == Table(map[], [])
  {
    s := EnterHome();
    var c1 := s.CreateContract(SomeContract(1, 1, Value(true)));
    var c2 := s.CreateContract(SomeContract(1, 1, Value(true)));
    var c3 := s.CreateContract(SomeContract(1, 1, Omitted));
    LeaseTableBuilt();
  }

  /** The dashboard the store reports for that data. */
  method DashboardRun(now: Date, parseFloat: string -> Number) returns (stats: DashboardStats)
    requires parseFloat("1000") == Finite(1000.0)
    ensures stats == DashboardStats(1, 2, Finite(2000.0), 0)
  {
    var s := EnterLeases();
    DashboardCountsContracts(parseFloat);
    stats := s.GetDashboardStats(now, parseFloat);
    assert |s.properties.rows| == |map[1 := Home]| == 1;
    assert s.payments.Values() == [];
  }

  /**
   * A contract on a second property whose property row is then deleted,
   * and an expense on the first property that names the contract.
   */
  const Shop := NewProperty(2, SomeProperty("shop"))
  const ShopLease := NewContract(1, SomeContract(2, 1, Value(true)))
  const Repair := NewExpense(1, InsertExpense(1, Value(1), "maintenance", "repair", "50", 0, Omitted, Omitted, Omitted, Omitted))
  const ShopLeaseTable := Table(map[1 := ShopLease], [1])
  const RepairTable := Table(map[1 := Repair], [1])

  /**
   * The expense still carries the contract, joined with the expense's own
   * property, although the contract on its own no longer resolves.
   */
  lemma ExpenseBorrowsItsProperty()
    ensures FindContract(HomeTable, RenterTable, ShopLeaseTable, 1) == None
    ensures FindExpense(HomeTable, RenterTable, ShopLeaseTable, RepairTable, 1)
         == Some(ExpenseWithDetails(Repair, Home, Some(ContractWithDetails(ShopLease, Home, Renter))))
    ensures ShopLease.propertyId != Home.id
  {
  }

  /** The tables of that run, built one step at a time. */
  lemma RepairTablesBuilt()
    ensures Table(map[], []).Set(1, Home).Set(2, Shop).Delete(2) == HomeTable
    ensures Table(map[], []).Set(1, Repair) == RepairTable
  {
    assert Table(map[], []).Set(1, Home).Set(2, Shop) == Table(map[1 := Home, 2 := Shop], [1, 2]);
    assert Without([1, 2], 2) == [1] by {
      assert [1, 2][1..] == [2];
    }
  }

  /** The two properties entered through a new store. */
  method EnterProperties() returns (s: MemStorage)
    ensures fresh(s) && s.Valid()
    ensures s.properties == Table(map[], []).Set(1, Home).Set(2, Shop)
    ensures s.tenants == Table(map[], []) && s.contracts == Table(map[], []) && s.expenses == Table(map[], [])
    ensures s.currentIds == Counters(3, 1, 1, 1, 1)
  {
    s := new MemStorage();
    var home := s.CreateProperty(SomeProperty("home"));
    var shop := s.CreateProperty(SomeProperty("shop"));
  }

  /** Then the tenant and the contract on the shop. */
  method EnterShopLease() returns (s: MemStorage)
    ensures fresh(s) && s.Valid()
    ensures s.properties == Table(map[], []).Set(1, Home).Set(2, Shop)
    ensures s.tenants == RenterTable && s.contracts == ShopLeaseTable && s.expenses == Table(map[], [])
    ensures s.currentIds.expenses == 1
  {
    s := EnterProperties();
    var t := s.CreateTenant(SomeTenant);
    var c := s.CreateContract(SomeContract(2, t.id, Value(true)));
    HomeTablesBuilt();
    assert Table(map[], []).Set(1, ShopLease) == ShopLeaseTable;
  }

  /** Then the shop is deleted and the expense recorded. */
  method EnterRepair() returns (s: MemStorage)
    ensures fresh(s) && s.Valid()
    ensures s.properties == HomeTable && s.tenants == RenterTable && s.contracts == ShopLeaseTable
    ensures s.expenses == RepairTable
  {
    s := EnterShopLease();
    var deleted := s.DeleteProperty(2);
    var e := s.CreateExpense(InsertExpense(1, Value(1), "maintenance", "repair", "50", 0, Omitted, Omitted, Omitted, Omitted));
    RepairTablesBuilt();
  }

  /** What the store reports for the expense and for its contract. */
  method ExpenseRun() returns (expense: Option<ExpenseWithDetails>, contract: Option<ContractWithDetails>)
    ensures expense == Some(ExpenseWithDetails(Repair, Home, Some(ContractWithDetails(ShopLease, Home, Renter))))
    ensures contract == None
  {
    var s := EnterRepair();
    ExpenseBorrowsItsProperty();
    expense := s.GetExpense(1);
    contract := s.GetContract(1);
  }
}
