/** The dashboard figures: property and tenant counts, monthly revenue,
    unread messages, occupancy rate, the role title and what a tenant sees
    of their own lease. */
module Dashboard {
  import opened Seqs
  import opened Entities
  import opened DataStore
  import opened Auth

  predicate IsOccupied(p: Property) {
    p.status == Occupe
  }

  /** `occupiedProperties`: never more than the properties there are. */
  function OccupiedProperties(props: seq<Property>): (n: nat)
    ensures n <= |props|
    ensures n == 0 <==> forall p :: p in props ==> p.status != Occupe
  {
    Count(props, IsOccupied)
  }

  /** The properties shown as available. */
  function AvailableCount(props: seq<Property>): (n: nat)
    ensures n + OccupiedProperties(props) == |props|
  {
    |props| - OccupiedProperties(props)
  }

  /** In the store, occupied and vacant properties are counted apart: the
      available figure is the number of vacant ones. */
  lemma {:induction false} AvailableAreVacant(props: seq<Property>)
    ensures AvailableCount(props) == Count(props, (p: Property) => p.status == Inoccupe)
    decreases |props|
  {
    if props != [] {
      AvailableAreVacant(props[1..]);
      assert props == [props[0]] + props[1..];
    }
  }

  predicate IsTenantUser(u: User) {
    u.role == Locataire
  }

  /** `totalTenants`. */
  function TotalTenants(users: seq<User>): (n: nat)
    ensures n <= |users|
    ensures n == 0 <==> forall u :: u in users ==> u.role != Locataire
  {
    Count(users, IsTenantUser)
  }

  function Rent(c: Contract): int { c.rent }

  /** `monthlyRevenue`: the rents of every contract added up. */
  function MonthlyRevenue(contracts: seq<Contract>): (total: int)
    ensures contracts == [] ==> total == 0
    ensures (forall i :: 0 <= i < |contracts| ==> contracts[i].rent >= 0) ==> total >= 0
  {
    SumOf(contracts, Rent)
  }

  /** A new contract adds its rent to the revenue. */
  lemma RevenueAfterContract(contracts: seq<Contract>, c: Contract)
    ensures MonthlyRevenue(contracts + [c]) == MonthlyRevenue(contracts) + c.rent
  {
    SumOfAppend(contracts, [c], Rent);
    assert [c][1..] == [];
  }

  /** The seed contracts bring in 1950 a month. */
  lemma SeedRevenue(now: int)
    ensures MonthlyRevenue(SeedContracts(now)) == 1950
  {
    var cs := SeedContracts(now);
    assert cs[1..][1..] == [];
    assert SumOf(cs[1..], Rent) == 750;
  }

  predicate UnreadForViewer(m: Message, viewer: Option<SessionUser>) {
    !m.read && viewer.Some? && m.recipientId == viewer.value.id
  }

  /** `unreadMessages`: unread messages addressed to the viewer; none when
      nobody is logged in. */
  function UnreadMessages(msgs: seq<Message>, viewer: Option<SessionUser>): (n: nat)
    ensures n <= |msgs|
    ensures viewer.None? ==> n == 0
    ensures n == 0 <==> forall m :: m in msgs ==> m.read || viewer.None? || m.recipientId != viewer.value.id
  {
    Count(msgs, m => UnreadForViewer(m, viewer))
  }

  /** The occupancy percentage, rounded half up; 0 without properties. */
  function OccupancyRate(occupied: nat, total: nat): (rate: nat)
    requires occupied <= total
    ensures total == 0 ==> rate == 0
    ensures rate <= 100
    ensures total > 0 ==> 2 * total * rate <= 200 * occupied + total < 2 * total * (rate + 1)
  {
    if total > 0 then
      var rate := (200 * occupied + total) / (2 * total);
      RoundedQuotient(occupied, total, rate);
      rate
    else 0
  }

  /** The bounds of the rounded quotient, one multiplication at a time. */
  lemma RoundedQuotient(occupied: nat, total: nat, rate: int)
    requires occupied <= total && total > 0
    requires rate == (200 * occupied + total) / (2 * total)
    ensures 0 <= rate <= 100
    ensures 2 * total * rate <= 200 * occupied + total < 2 * total * (rate + 1)
  {
    var d, x := 2 * total, 200 * occupied + total;
    assert x == d * rate + x % d && 0 <= x % d < d;
    assert d * (rate + 1) == d * rate + d;
    if rate > 100 {
      MulMonotone(101, rate, d);
      assert false;
    }
    if rate < 0 {
      MulMonotone(rate + 1, 0, d);
      assert false;
    }
  }

  lemma FullOccupancy(total: nat)
    requires total > 0
    ensures OccupancyRate(total, total) == 100
  {
    var rate := OccupancyRate(total, total);
    if rate < 100 {
      MulMonotone(rate + 1, 100, 2 * total);
      assert false;
    }
  }

  lemma MulMonotone(a: int, b: int, k: nat)
    requires a <= b
    ensures k * a <= k * b
  {
    assert k * b == k * a + k * (b - a);
  }

  /** What a tenant sees of their lease. */
  datatype TenantData = TenantData(contract: Option<Contract>, property: Option<Property>, manager: Option<User>)

  predicate IsManager(u: User) {
    u.role == Gestionnaire
  }

  function PropertyById(props: seq<Property>, id: string): (r: Option<Property>)
    ensures r.None? <==> forall i :: 0 <= i < |props| ==> props[i].id != id
    ensures r.Some? ==> exists i :: (0 <= i < |props| && props[i] == r.value && r.value.id == id &&
      forall j :: 0 <= j < i ==> props[j].id != id)
  {
    var hasId := (p: Property) => p.id == id;
    var r := Find(props, hasId);
    assert r.Some? ==> var i := FirstIndex(props, hasId).value; props[i] == r.value;
    r
  }

  /** `getTenantData`: only for a tenant. The contract is the tenant's first
      one, the property the one that contract names (none without a
      contract), the manager the first user with the manager role. */
  function TenantDataFor(viewer: Option<SessionUser>, users: seq<User>, props: seq<Property>,
                         contracts: seq<Contract>): (r: Option<TenantData>)
    ensures r.Some? <==> viewer.Some? && viewer.value.role == Locataire
    ensures r.Some? ==> r.value.contract == ContractByTenant(contracts, viewer.value.id)
    ensures r.Some? && r.value.contract.None? ==> r.value.property.None?
    ensures r.Some? && r.value.property.Some? ==>
      r.value.contract.Some? && r.value.property.value in props &&
      r.value.property.value.id == r.value.contract.value.propertyId
    ensures r.Some? ==> (r.value.manager.None? <==> forall u :: u in users ==> u.role != Gestionnaire)
    ensures r.Some? && r.value.manager.Some? ==> exists i :: (0 <= i < |users| && users[i] == r.value.manager.value &&
      users[i].role == Gestionnaire && forall j :: 0 <= j < i ==> users[j].role != Gestionnaire)
    ensures r.Some? && r.value.contract.Some? ==>
      r.value.property == PropertyById(props, r.value.contract.value.propertyId)
    ensures r.Some? && r.value.contract.Some? ==>
      (r.value.property.Some? <==> exists p :: p in props && p.id == r.value.contract.value.propertyId)
  {
    if viewer.None? || viewer.value.role != Locataire then None
    else
      var contract := ContractByTenant(contracts, viewer.value.id);
      var property := if contract.Some? then PropertyById(props, contract.value.propertyId) else None;
      var manager := Find(users, IsManager);
      assert manager.Some? ==> var i := FirstIndex(users, IsManager).value; users[i] == manager.value;
      Some(TenantData(contract, property, manager))
  }

  /** In a consistent store, a tenant's dashboard property is occupied. */
  lemma TenantPropertyOccupied(viewer: Option<SessionUser>, users: seq<User>, props: seq<Property>,
                               contracts: seq<Contract>)
    requires ContractsApplied(props, contracts)
    ensures var d := TenantDataFor(viewer, users, props, contracts);
      d.Some? && d.value.property.Some? ==> d.value.property.value.status == Occupe
  {
    var d := TenantDataFor(viewer, users, props, contracts);
    if d.Some? && d.value.property.Some? {
      var c := d.value.contract.value;
      var i :| 0 <= i < |contracts| && contracts[i] == c;
      assert c in contracts;
    }
  }

  /** `getRoleTitle`. */
  function RoleTitle(viewer: Option<SessionUser>): (title: string)
    ensures viewer.None? <==> title == "Utilisateur"
    ensures viewer.Some? && viewer.value.role == Proprietaire <==> title == "Propriétaire"
    ensures viewer.Some? && viewer.value.role == Gestionnaire <==> title == "Gestionnaire"
    ensures viewer.Some? && viewer.value.role == Locataire <==> title == "Locataire"
  {
    match viewer
    case None => "Utilisateur"
    case Some(u) =>
      match u.role
      case Proprietaire => "Propriétaire"
      case Gestionnaire => "Gestionnaire"
      case Locataire => "Locataire"
  }
}
