/** The tenants screen: the tenant list enriched with each tenant's property
    and contract, the vacant properties, the search, the status badge, when
    the contract button shows, and the two forms that create a tenant and a
    contract. */
module Tenants {
  import opened Seqs
  import opened Text
  import opened Entities
  import opened DataStore
  import opened Auth

  /** A tenant with the property they occupy and their contract, if any. */
  datatype TenantRow = TenantRow(user: User, property: Option<Property>, contract: Option<Contract>)

  predicate IsTenant(u: User) {
    u.role == Locataire
  }

  function Enrich(u: User, props: seq<Property>, contracts: seq<Contract>): TenantRow {
    TenantRow(u, PropertyByTenant(props, u.id), ContractByTenant(contracts, u.id))
  }

  /** `tenants`: the users with the tenant role, in order, each paired with
      the first property they hold and their first contract. */
  function Tenants(users: seq<User>, props: seq<Property>, contracts: seq<Contract>): (r: seq<TenantRow>)
    ensures |r| == |Filter(users, IsTenant)|
    ensures forall i :: 0 <= i < |r| ==> r[i].user == Filter(users, IsTenant)[i]
  {
    var ts := Filter(users, IsTenant);
    seq(|ts|, i requires 0 <= i < |ts| => Enrich(ts[i], props, contracts))
  }

  /** Exactly the tenant users get a row, in the order of the user list;
      each row's contract and property belong to that tenant. */
  lemma TenantsCorrect(users: seq<User>, props: seq<Property>, contracts: seq<Contract>)
    ensures forall row :: row in Tenants(users, props, contracts) ==>
      row.user in users && row.user.role == Locataire &&
      row.contract == ContractByTenant(contracts, row.user.id) &&
      row.property == PropertyByTenant(props, row.user.id) &&
      (row.contract.Some? ==> row.contract.value in contracts && row.contract.value.tenantId == row.user.id) &&
      (row.property.Some? ==> row.property.value in props && row.property.value.tenantId == Some(row.user.id))
    ensures forall u :: u in users && u.role == Locataire ==>
      exists row :: row in Tenants(users, props, contracts) && row.user == u
    ensures IsSubseq(Filter(users, IsTenant), users)
  {
    var ts := Filter(users, IsTenant);
    var r := Tenants(users, props, contracts);
    FilterSubseq(users, IsTenant);
    forall row | row in r
      ensures row.user in users && row.user.role == Locataire &&
        row.contract == ContractByTenant(contracts, row.user.id) &&
        row.property == PropertyByTenant(props, row.user.id)
    {
      var i :| 0 <= i < |r| && r[i] == row;
      assert ts[i] in ts;
    }
    forall u | u in users && u.role == Locataire
      ensures exists row :: row in r && row.user == u
    {
      var i :| 0 <= i < |ts| && ts[i] == u;
      assert r[i] in r;
    }
  }

  predicate IsVacant(p: Property) {
    p.status == Inoccupe
  }

  /** `availableProperties`: the vacant properties, in order. */
  function AvailableProperties(props: seq<Property>): (r: seq<Property>)
    ensures forall p :: p in r <==> p in props && p.status == Inoccupe
  {
    Filter(props, IsVacant)
  }

  lemma AvailableInOrder(props: seq<Property>)
    ensures IsSubseq(AvailableProperties(props), props)
  {
    FilterSubseq(props, IsVacant);
  }

  predicate RowMatches(row: TenantRow, term: string) {
    SearchMatches(row.user.name, row.user.email, term)
  }

  /** `filteredTenants`: the rows whose lowered name or e-mail contains the
      lowered term. */
  function FilteredTenants(rows: seq<TenantRow>, term: string): (r: seq<TenantRow>)
    ensures forall row :: row in r <==> row in rows && SearchMatches(row.user.name, row.user.email, term)
  {
    Filter(rows, row => RowMatches(row, term))
  }

  /** The search keeps the order, and an empty term keeps every row. */
  lemma FilteredTenantsInOrder(rows: seq<TenantRow>, term: string)
    ensures IsSubseq(FilteredTenants(rows, term), rows)
    ensures term == "" ==> FilteredTenants(rows, term) == rows
  {
    FilterSubseq(rows, row => RowMatches(row, term));
    if term == "" {
      forall i | 0 <= i < |rows| ensures RowMatches(rows[i], term) {
        EmptyTermMatches(rows[i].user.name, rows[i].user.email);
      }
      FilterAll(rows, row => RowMatches(row, term));
    }
  }

  /** `getStatusBadge`: "Actif" for a tenant with a contract. */
  function StatusBadge(row: TenantRow): (badge: string)
    ensures badge == "Actif" <==> row.contract.Some?
    ensures badge == "Sans contrat" <==> row.contract.None?
  {
    if row.contract.Some? then "Actif" else "Sans contrat"
  }

  /** The contract button: an owner or manager is looking, the tenant has no
      contract and some property is vacant. */
  predicate ShowContractButton(viewer: Option<SessionUser>, row: TenantRow, props: seq<Property>) {
    viewer.Some? && (viewer.value.role == Proprietaire || viewer.value.role == Gestionnaire) &&
    row.contract.None? && |AvailableProperties(props)| > 0
  }

  /** On a row of the list, the button shows exactly when the viewer manages,
      no contract names the tenant and some property is vacant. */
  lemma ContractButtonMeaning(viewer: Option<SessionUser>, users: seq<User>, props: seq<Property>,
                              contracts: seq<Contract>, u: User)
    ensures ShowContractButton(viewer, Enrich(u, props, contracts), props) <==>
      viewer.Some? && viewer.value.role != Locataire &&
      (forall c :: c in contracts ==> c.tenantId != u.id) &&
      (exists p :: p in props && p.status == Inoccupe)
  {
    var avail := AvailableProperties(props);
    if |avail| > 0 {
      assert avail[0] in avail;
    }
    if exists p :: p in props && p.status == Inoccupe {
      var p :| p in props && p.status == Inoccupe;
      assert p in avail;
    }
  }

  /** Once a contract for a tenant is added, that tenant's badge reads
      "Actif" and the contract button is gone. */
  lemma ContractActivatesTenant(props: seq<Property>, contracts: seq<Contract>, c: Contract,
                                u: User, viewer: Option<SessionUser>)
    requires u.id == c.tenantId
    ensures StatusBadge(Enrich(u, props, contracts + [c])) == "Actif"
    ensures !ShowContractButton(viewer, Enrich(u, props, contracts + [c]), props)
  {
    ContractByTenantAfterAppend(contracts, c, u.id);
  }

  // ---------------------------------------------------------------------
  // The two forms

  datatype TenantForm = TenantForm(name: string, email: string, phone: string, password: string)

  /** The empty tenant form; the password field is prefilled. */
  const BlankTenantForm := TenantForm("", "", "", "locataire123")

  datatype ContractForm = ContractForm(tenantId: string, propertyId: string, startDate: string,
                                       endDate: string, rent: string, deposit: string)

  const BlankContractForm := ContractForm("", "", "", "", "", "")

  /** `end_date || undefined`: an empty end date means none. */
  function EndDate(text: string): (r: Option<string>)
    ensures r.None? <==> text == ""
    ensures r.Some? ==> r.value == text
  {
    if text == "" then None else Some(text)
  }

  class TenantsScreen {
    var tenantForm: TenantForm
    var contractForm: ContractForm
    var selected: Option<string>
    var showAddDialog: bool
    var showContractDialog: bool

    constructor ()
      ensures tenantForm == BlankTenantForm && contractForm == BlankContractForm
      ensures selected.None? && !showAddDialog && !showContractDialog
    {
      tenantForm, contractForm, selected := BlankTenantForm, BlankContractForm, None;
      showAddDialog, showContractDialog := false, false;
    }

    /** `openContractDialog`: selects the tenant and fills its id in. */
    method OpenContractDialog(tenantId: string)
      modifies this
      ensures selected == Some(tenantId) && showContractDialog
      ensures contractForm == old(contractForm).(tenantId := tenantId)
      ensures tenantForm == old(tenantForm) && showAddDialog == old(showAddDialog)
    {
      selected := Some(tenantId);
      contractForm := contractForm.(tenantId := tenantId);
      showContractDialog := true;
    }

    /** `handleCreateTenant`: adds a user with the tenant role from the form
        (the password field is not passed on), closes the dialog and resets
        the form. */
    method HandleCreateTenant(store: Store, now: nat) returns (u: User)
      modifies this, store
      ensures u == User(GeneratedId("user-", now), old(tenantForm).name, old(tenantForm).email,
        Locataire, Some(old(tenantForm).phone), now)
      ensures u.role == Locataire
      ensures store.users == old(store.users) + [u]
      ensures store.properties == old(store.properties) && store.contracts == old(store.contracts)
      ensures store.messages == old(store.messages) && store.payments == old(store.payments)
      ensures tenantForm == BlankTenantForm && !showAddDialog
      ensures contractForm == old(contractForm) && selected == old(selected)
      ensures showContractDialog == old(showContractDialog)
      ensures old(store.Consistent()) ==> store.Consistent()
    {
      u := store.AddUser(NewUser(tenantForm.name, tenantForm.email, Locataire, Some(tenantForm.phone)), now);
      showAddDialog := false;
      tenantForm := BlankTenantForm;
    }

    /** `handleCreateContract`: adds the contract from the form, `rent` and
        `deposit` being the numbers read from the form's texts; an empty end
        date is none. The property named becomes occupied. */
    method HandleCreateContract(store: Store, rent: int, deposit: int, now: nat) returns (c: Contract)
      modifies this, store
      ensures c == Contract(GeneratedId("contract-", now), old(contractForm).tenantId,
        old(contractForm).propertyId, old(contractForm).startDate, EndDate(old(contractForm).endDate),
        rent, deposit, now)
      ensures store.contracts == old(store.contracts) + [c]
      ensures store.properties == MarkOccupied(old(store.properties), c.propertyId, c.tenantId)
      ensures store.users == old(store.users) && store.messages == old(store.messages)
      ensures store.payments == old(store.payments)
      ensures contractForm == BlankContractForm && selected.None? && !showContractDialog
      ensures tenantForm == old(tenantForm) && showAddDialog == old(showAddDialog)
      ensures old(store.Consistent()) ==> store.Consistent()
    {
      var data := NewContract(contractForm.tenantId, contractForm.propertyId, contractForm.startDate,
        EndDate(contractForm.endDate), rent, deposit);
      c := store.AddContract(data, now);
      showContractDialog := false;
      contractForm := BlankContractForm;
      selected := None;
    }
  }
}
