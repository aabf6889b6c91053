/** The five record kinds of the data layer (users, properties, contracts,
    messages, payments) and the shapes callers pass when creating or patching
    them. Role names and statuses keep the application's French spelling:
    `proprietaire` is the owner, `gestionnaire` the manager, `locataire` the
    tenant; a property is `occupe` (occupied) or `inoccupe` (vacant).
    Timestamps are milliseconds since the epoch; amounts are whole numbers. */
module Entities {
  import opened Seqs

  datatype Role = Proprietaire | Gestionnaire | Locataire

  datatype PropertyStatus = Occupe | Inoccupe

  datatype MessageKind = TextMessage | FileMessage | ImageMessage

  datatype PaymentStatus = Paid | Pending | Late

  datatype PaymentKind = RentPayment | DepositPayment | ChargesPayment

  datatype User = User(
    id: string,
    name: string,
    email: string,
    role: Role,
    phone: Option<string>,
    createdAt: int)

  datatype Property = Property(
    id: string,
    address: string,
    city: string,
    postalCode: string,
    kind: string,
    price: int,
    deposit: int,
    surface: int,
    rooms: int,
    description: string,
    status: PropertyStatus,
    tenantId: Option<string>,
    createdAt: int)

  datatype Contract = Contract(
    id: string,
    tenantId: string,
    propertyId: string,
    startDate: string,
    endDate: Option<string>,
    rent: int,
    deposit: int,
    createdAt: int)

  datatype Message = Message(
    id: string,
    senderId: string,
    recipientId: string,
    content: string,
    kind: MessageKind,
    createdAt: int,
    read: bool)

  datatype Payment = Payment(
    id: string,
    tenantId: string,
    propertyId: string,
    amount: int,
    date: string,
    status: PaymentStatus,
    kind: PaymentKind)

  /** A user as passed to `addUser`: everything except id and creation time. */
  datatype NewUser = NewUser(name: string, email: string, role: Role, phone: Option<string>)

  /** A property as passed to `addProperty`: no id, status or creation time. */
  datatype NewProperty = NewProperty(
    address: string,
    city: string,
    postalCode: string,
    kind: string,
    price: int,
    deposit: int,
    surface: int,
    rooms: int,
    description: string,
    tenantId: Option<string>)

  /** A contract as passed to `addContract`. */
  datatype NewContract = NewContract(
    tenantId: string,
    propertyId: string,
    startDate: string,
    endDate: Option<string>,
    rent: int,
    deposit: int)

  /** A message as passed to `addMessage`, `read` included. */
  datatype NewMessage = NewMessage(
    senderId: string,
    recipientId: string,
    content: string,
    kind: MessageKind,
    read: bool)

  /** `Partial<Property>`: every field may be given. `tenantId` may be given
      as absent (`Some(None)`), which clears it. */
  datatype PropertyPatch = PropertyPatch(
    id: Option<string>,
    address: Option<string>,
    city: Option<string>,
    postalCode: Option<string>,
    kind: Option<string>,
    price: Option<int>,
    deposit: Option<int>,
    surface: Option<int>,
    rooms: Option<int>,
    description: Option<string>,
    status: Option<PropertyStatus>,
    tenantId: Option<Option<string>>,
    createdAt: Option<int>)

  const EmptyPatch := PropertyPatch(None, None, None, None, None, None, None, None, None, None, None, None, None)

  function UserKey(u: User): string { u.id }
  function PropertyKey(p: Property): string { p.id }
  function ContractKey(c: Contract): string { c.id }
  function MessageKey(m: Message): string { m.id }
  function PaymentKey(p: Payment): string { p.id }

  /** No two records of `s` share an id. */
  ghost predicate DistinctIds<T>(s: seq<T>, id: T -> string) {
    forall i, j :: 0 <= i < j < |s| ==> id(s[i]) != id(s[j])
  }

  /** Appending a record whose id is new keeps the ids distinct. */
  lemma AppendFreshId<T>(s: seq<T>, x: T, id: T -> string)
    requires DistinctIds(s, id)
    requires forall i :: 0 <= i < |s| ==> id(s[i]) != id(x)
    ensures DistinctIds(s + [x], id)
  {
  }
}
