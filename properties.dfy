/** The properties screen: search and status filter, the status badge, the
    owner-only controls and the add form. */
module Properties {
  import opened Seqs
  import opened Text
  import opened Entities
  import opened DataStore
  import opened Auth

  /** The status filter: everything, or one status. */
  datatype StatusFilter = AllStatuses | OnlyStatus(status: PropertyStatus)

  /** The lowered address or the lowered city contains the lowered term. */
  predicate AddressMatches(p: Property, term: string) {
    Includes(Lower(p.address), Lower(term)) || Includes(Lower(p.city), Lower(term))
  }

  predicate StatusMatches(p: Property, filter: StatusFilter) {
    filter.AllStatuses? || p.status == filter.status
  }

  predicate PropertyShown(p: Property, term: string, filter: StatusFilter) {
    AddressMatches(p, term) && StatusMatches(p, filter)
  }

  /** `filteredProperties`. */
  function FilteredProperties(props: seq<Property>, term: string, filter: StatusFilter): (r: seq<Property>)
    ensures forall p :: p in r <==> (p in props && AddressMatches(p, term) &&
      (filter == AllStatuses || p.status == filter.status))
  {
    Filter(props, p => PropertyShown(p, term, filter))
  }

  /** The filter keeps the order; with no status filter and no term every
      property is shown. */
  lemma FilteredPropertiesInOrder(props: seq<Property>, term: string, filter: StatusFilter)
    ensures IsSubseq(FilteredProperties(props, term, filter), props)
    ensures term == "" && filter == AllStatuses ==> FilteredProperties(props, term, filter) == props
  {
    FilterSubseq(props, p => PropertyShown(p, term, filter));
    if term == "" && filter == AllStatuses {
      assert Lower("") == "";
      FilterAll(props, p => PropertyShown(p, term, filter));
    }
  }

  /** Filtering on one status splits the list: every property shown under no
      status filter is shown under exactly one of the two statuses. */
  lemma StatusFiltersPartition(props: seq<Property>, term: string, p: Property)
    ensures p in FilteredProperties(props, term, AllStatuses) <==>
      p in FilteredProperties(props, term, OnlyStatus(Occupe)) ||
      p in FilteredProperties(props, term, OnlyStatus(Inoccupe))
    ensures !(p in FilteredProperties(props, term, OnlyStatus(Occupe)) &&
              p in FilteredProperties(props, term, OnlyStatus(Inoccupe)))
  {
  }

  /** `getStatusBadge`. */
  function StatusBadge(status: PropertyStatus): (badge: string)
    ensures badge == "Occupé" <==> status == Occupe
    ensures badge == "Disponible" <==> status != Occupe
  {
    if status == Occupe then "Occupé" else "Disponible"
  }

  /** The add and edit controls are offered to owners only. */
  predicate CanManageProperties(viewer: Option<SessionUser>) {
    viewer.Some? && viewer.value.role == Proprietaire
  }

  /** The heading: owners manage their properties, everyone else sees the
      properties assigned to them. */
  function PageTitle(viewer: Option<SessionUser>): (title: string)
    ensures title == "Gestion des biens" <==> CanManageProperties(viewer)
    ensures title == "Biens assignés" <==> !CanManageProperties(viewer)
  {
    if CanManageProperties(viewer) then "Gestion des biens" else "Biens assignés"
  }

  /** The add button of the empty list: an owner, no search term and no
      status filter. */
  predicate ShowFirstPropertyButton(viewer: Option<SessionUser>, term: string, filter: StatusFilter) {
    CanManageProperties(viewer) && term == "" && filter == AllStatuses
  }

  /** When the list is empty and the add button of the empty list shows, the
      viewer is an owner and the store holds no property at all: the button
      invites the first one. */
  lemma FirstPropertyButtonMeansNoProperty(viewer: Option<SessionUser>, props: seq<Property>,
                                           term: string, filter: StatusFilter)
    requires FilteredProperties(props, term, filter) == []
    requires ShowFirstPropertyButton(viewer, term, filter)
    ensures props == [] && viewer.Some? && viewer.value.role == Proprietaire
  {
    FilteredPropertiesInOrder(props, term, filter);
  }

  datatype PropertyForm = PropertyForm(address: string, city: string, postalCode: string, kind: string,
                                       price: string, deposit: string, surface: string, rooms: string,
                                       description: string)

  /** The empty form; the type is prefilled as an apartment. */
  const BlankPropertyForm := PropertyForm("", "", "", "appartement", "", "", "", "", "")

  class PropertiesScreen {
    var form: PropertyForm
    var showAddDialog: bool

    constructor ()
      ensures form == BlankPropertyForm && !showAddDialog
    {
      form, showAddDialog := BlankPropertyForm, false;
    }

    /** `handleSubmit`: the form's texts, with `price`, `deposit`, `surface`
        and `rooms` given as the numbers read from them, become a new vacant
        property without tenant; the dialog closes and the form is reset. */
    method HandleSubmit(store: Store, price: int, deposit: int, surface: int, rooms: int, now: nat)
      returns (p: Property)
      modifies this, store
      ensures p == Property(GeneratedId("prop-", now), old(form).address, old(form).city,
        old(form).postalCode, old(form).kind, price, deposit, surface, rooms, old(form).description,
        Inoccupe, None, now)
      ensures store.properties == old(store.properties) + [p]
      ensures store.users == old(store.users) && store.contracts == old(store.contracts)
      ensures store.messages == old(store.messages) && store.payments == old(store.payments)
      ensures form == BlankPropertyForm && !showAddDialog
      ensures old(store.Consistent()) && (forall c :: c in store.contracts ==> c.propertyId != p.id) ==>
        store.Consistent()
    {
      p := store.AddProperty(NewProperty(form.address, form.city, form.postalCode, form.kind,
        price, deposit, surface, rooms, form.description, None), now);
      showAddDialog := false;
      form := BlankPropertyForm;
    }
  }
}
