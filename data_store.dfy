/** The entity store of the client (`DataContext`): five collections, the
    creators that append to them, the in-place merge of a property, the
    lookups by tenant and the message thread between two users, plus the seed
    data the store starts from when nothing is saved. */
module DataStore {
  import opened Seqs
  import opened Text
  import opened Entities

  /** Ids are made as `${prefix}${Date.now()}` (`user-`, `prop-`, ...). */
  function GeneratedId(prefix: string, now: nat): string {
    prefix + NatToText(now)
  }

  /** Two records created at distinct clock readings get distinct ids. */
  lemma GeneratedIdsDiffer(prefix: string, a: nat, b: nat)
    requires a != b
    ensures GeneratedId(prefix, a) != GeneratedId(prefix, b)
  {
    PrefixedNumbersDiffer(prefix, a, b);
  }

  // ---------------------------------------------------------------------
  // Rewriting the property list

  /** `{ ...prop, ...updates }`: a field given in the patch replaces the
      record's, every other field is kept. */
  function Merge(p: Property, u: PropertyPatch): (r: Property)
    ensures u == EmptyPatch ==> r == p
    ensures u.status.Some? ==> r.status == u.status.value
    ensures u.status.None? ==> r.status == p.status
    ensures u.tenantId.Some? ==> r.tenantId == u.tenantId.value
    ensures u.tenantId.None? ==> r.tenantId == p.tenantId
    ensures (u.id.Some? ==> r.id == u.id.value) && (u.id.None? ==> r.id == p.id)
    ensures (u.address.Some? ==> r.address == u.address.value) && (u.address.None? ==> r.address == p.address)
    ensures (u.city.Some? ==> r.city == u.city.value) && (u.city.None? ==> r.city == p.city)
    ensures (u.postalCode.Some? ==> r.postalCode == u.postalCode.value) && (u.postalCode.None? ==> r.postalCode == p.postalCode)
    ensures (u.kind.Some? ==> r.kind == u.kind.value) && (u.kind.None? ==> r.kind == p.kind)
    ensures (u.price.Some? ==> r.price == u.price.value) && (u.price.None? ==> r.price == p.price)
    ensures (u.deposit.Some? ==> r.deposit == u.deposit.value) && (u.deposit.None? ==> r.deposit == p.deposit)
    ensures (u.surface.Some? ==> r.surface == u.surface.value) && (u.surface.None? ==> r.surface == p.surface)
    ensures (u.rooms.Some? ==> r.rooms == u.rooms.value) && (u.rooms.None? ==> r.rooms == p.rooms)
    ensures (u.description.Some? ==> r.description == u.description.value) && (u.description.None? ==> r.description == p.description)
    ensures (u.createdAt.Some? ==> r.createdAt == u.createdAt.value) && (u.createdAt.None? ==> r.createdAt == p.createdAt)
  {
    Property(
      u.id.GetOr(p.id),
      u.address.GetOr(p.address),
      u.city.GetOr(p.city),
      u.postalCode.GetOr(p.postalCode),
      u.kind.GetOr(p.kind),
      u.price.GetOr(p.price),
      u.deposit.GetOr(p.deposit),
      u.surface.GetOr(p.surface),
      u.rooms.GetOr(p.rooms),
      u.description.GetOr(p.description),
      u.status.GetOr(p.status),
      u.tenantId.GetOr(p.tenantId),
      u.createdAt.GetOr(p.createdAt))
  }

  /** Applying the same patch twice changes nothing more. */
  lemma MergeIdempotent(p: Property, u: PropertyPatch)
    ensures Merge(Merge(p, u), u) == Merge(p, u)
  {
  }

  /** `properties.map(prop => prop.id === id ? { ...prop, ...updates } : prop)`. */
  function UpdateMatching(props: seq<Property>, id: string, u: PropertyPatch): (r: seq<Property>)
    ensures |r| == |props|
    ensures forall i :: 0 <= i < |props| && props[i].id == id ==> r[i] == Merge(props[i], u)
    ensures forall i :: 0 <= i < |props| && props[i].id != id ==> r[i] == props[i]
    ensures (forall i :: 0 <= i < |props| ==> props[i].id != id) ==> r == props
  {
    seq(|props|, i requires 0 <= i < |props| =>
      if props[i].id == id then Merge(props[i], u) else props[i])
  }

  /** The side effect of creating a contract: every property whose id is the
      contract's property becomes occupied by the contract's tenant; the
      others are kept as they are. */
  function MarkOccupied(props: seq<Property>, propertyId: string, tenantId: string): (r: seq<Property>)
    ensures |r| == |props|
    ensures forall i :: 0 <= i < |props| && props[i].id == propertyId ==>
      r[i].status == Occupe && r[i].tenantId == Some(tenantId) &&
      r[i] == props[i].(status := Occupe, tenantId := Some(tenantId))
    ensures forall i :: 0 <= i < |props| && props[i].id != propertyId ==> r[i] == props[i]
    ensures (forall i :: 0 <= i < |props| ==> props[i].id != propertyId) ==> r == props
    ensures forall i :: 0 <= i < |props| ==> r[i].id == props[i].id
  {
    seq(|props|, i requires 0 <= i < |props| =>
      if props[i].id == propertyId
      then props[i].(status := Occupe, tenantId := Some(tenantId))
      else props[i])
  }

  /** Occupying keeps ids unique, and every property with the target id ends
      up occupied by the tenant. */
  lemma MarkOccupiedFacts(props: seq<Property>, propertyId: string, tenantId: string)
    ensures var r := MarkOccupied(props, propertyId, tenantId);
      DistinctIds(props, PropertyKey) ==> DistinctIds(r, PropertyKey)
    ensures forall p :: p in MarkOccupied(props, propertyId, tenantId) && p.id == propertyId ==>
      p.status == Occupe && p.tenantId == Some(tenantId)
  {
    var r := MarkOccupied(props, propertyId, tenantId);
    forall p | p in r && p.id == propertyId ensures p.status == Occupe && p.tenantId == Some(tenantId) {
      var i :| 0 <= i < |r| && r[i] == p;
      assert props[i].id == propertyId;
    }
    if DistinctIds(props, PropertyKey) {
      forall i, j | 0 <= i < j < |r| ensures PropertyKey(r[i]) != PropertyKey(r[j]) {
        assert r[i].id == props[i].id && r[j].id == props[j].id;
      }
    }
  }

  /** The patch that occupies a property for a tenant. */
  function OccupyPatch(tenantId: string): PropertyPatch {
    EmptyPatch.(status := Some(Occupe), tenantId := Some(Some(tenantId)))
  }

  /** The contract side effect is exactly an `updateProperty` with the
      patch `{ status: 'occupe', tenant_id }`. */
  lemma MarkOccupiedIsUpdate(props: seq<Property>, propertyId: string, tenantId: string)
    ensures MarkOccupied(props, propertyId, tenantId)
         == UpdateMatching(props, propertyId, OccupyPatch(tenantId))
  {
    var a := MarkOccupied(props, propertyId, tenantId);
    var b := UpdateMatching(props, propertyId, OccupyPatch(tenantId));
    forall i | 0 <= i < |props| ensures a[i] == b[i] {
      if props[i].id == propertyId {
        var m := Merge(props[i], OccupyPatch(tenantId));
        assert m.status == Occupe && m.tenantId == Some(tenantId);
      }
    }
  }

  // ---------------------------------------------------------------------
  // Occupancy: the stored status of a property mirrors its contracts.

  /** Every occupied property is backed by a contract for that property and
      its recorded tenant. */
  ghost predicate OccupancyBacked(props: seq<Property>, contracts: seq<Contract>) {
    forall p :: p in props && p.status == Occupe ==>
      exists c :: c in contracts && c.propertyId == p.id && p.tenantId == Some(c.tenantId)
  }

  /** Every property some contract refers to is occupied. */
  ghost predicate ContractsApplied(props: seq<Property>, contracts: seq<Contract>) {
    forall c, p :: c in contracts && p in props && p.id == c.propertyId ==> p.status == Occupe
  }

  lemma OccupancyAfterContract(props: seq<Property>, contracts: seq<Contract>, c: Contract)
    requires OccupancyBacked(props, contracts)
    ensures OccupancyBacked(MarkOccupied(props, c.propertyId, c.tenantId), contracts + [c])
  {
    var r := MarkOccupied(props, c.propertyId, c.tenantId);
    forall p | p in r && p.status == Occupe
      ensures exists d :: d in contracts + [c] && d.propertyId == p.id && p.tenantId == Some(d.tenantId)
    {
      var i :| 0 <= i < |r| && r[i] == p;
      if props[i].id == c.propertyId {
        assert c in contracts + [c];
      } else {
        assert props[i] == p && p in props;
        var d :| d in contracts && d.propertyId == p.id && p.tenantId == Some(d.tenantId);
        assert d in contracts + [c];
      }
    }
  }

  lemma ContractsAppliedAfterContract(props: seq<Property>, contracts: seq<Contract>, c: Contract)
    requires ContractsApplied(props, contracts)
    ensures ContractsApplied(MarkOccupied(props, c.propertyId, c.tenantId), contracts + [c])
  {
    var r := MarkOccupied(props, c.propertyId, c.tenantId);
    forall d, p | d in contracts + [c] && p in r && p.id == d.propertyId
      ensures p.status == Occupe
    {
      var i :| 0 <= i < |r| && r[i] == p;
      if props[i].id != c.propertyId {
        assert props[i] == p;
        assert d != c;
        assert d in contracts;
      }
    }
  }

  /** A new vacant property keeps every occupied property backed; it keeps
      every contract applied only if no contract already names its id. */
  lemma OccupancyAfterProperty(props: seq<Property>, contracts: seq<Contract>, p: Property)
    requires p.status == Inoccupe
    ensures OccupancyBacked(props, contracts) ==> OccupancyBacked(props + [p], contracts)
    ensures ContractsApplied(props + [p], contracts)
        <==> ContractsApplied(props, contracts) && forall c :: c in contracts ==> c.propertyId != p.id
  {
    assert p in props + [p];
    forall q | q in props + [p] ensures q in props || q == p { }
  }

  // ---------------------------------------------------------------------
  // Lookups

  /** `properties.find(prop => prop.tenant_id === tenantId)`. */
  function PropertyByTenant(props: seq<Property>, tenantId: string): (r: Option<Property>)
    ensures r.None? <==> forall i :: 0 <= i < |props| ==> props[i].tenantId != Some(tenantId)
    ensures r.Some? ==> exists i :: (0 <= i < |props| && props[i] == r.value &&
      props[i].tenantId == Some(tenantId) &&
      forall j :: 0 <= j < i ==> props[j].tenantId != Some(tenantId))
  {
    var held := (p: Property) => p.tenantId == Some(tenantId);
    var r := Find(props, held);
    assert r.Some? ==> var i := FirstIndex(props, held).value; props[i] == r.value;
    r
  }

  /** `contracts.find(contract => contract.tenant_id === tenantId)`. */
  function ContractByTenant(contracts: seq<Contract>, tenantId: string): (r: Option<Contract>)
    ensures r.None? <==> forall i :: 0 <= i < |contracts| ==> contracts[i].tenantId != tenantId
    ensures r.Some? ==> exists i :: (0 <= i < |contracts| && contracts[i] == r.value &&
      contracts[i].tenantId == tenantId &&
      forall j :: 0 <= j < i ==> contracts[j].tenantId != tenantId)
  {
    var signed := (c: Contract) => c.tenantId == tenantId;
    var r := Find(contracts, signed);
    assert r.Some? ==> var i := FirstIndex(contracts, signed).value; contracts[i] == r.value;
    r
  }

  /** The tenant's contract stays the same when a contract is appended, as
      long as the tenant already had one: `find` returns the first. */
  lemma ContractByTenantAfterAppend(contracts: seq<Contract>, c: Contract, tenantId: string)
    ensures ContractByTenant(contracts, tenantId).Some? ==>
      ContractByTenant(contracts + [c], tenantId) == ContractByTenant(contracts, tenantId)
    ensures ContractByTenant(contracts, tenantId).None? && c.tenantId == tenantId ==>
      ContractByTenant(contracts + [c], tenantId) == Some(c)
  {
    var s := contracts + [c];
    var r := ContractByTenant(contracts, tenantId);
    var r' := ContractByTenant(s, tenantId);
    if r.Some? {
      var i :| 0 <= i < |contracts| && contracts[i] == r.value && contracts[i].tenantId == tenantId &&
        forall j :: 0 <= j < i ==> contracts[j].tenantId != tenantId;
      assert s[i] == contracts[i];
      assert r'.Some?;
      var i' :| 0 <= i' < |s| && s[i'] == r'.value && s[i'].tenantId == tenantId &&
        forall j :: 0 <= j < i' ==> s[j].tenantId != tenantId;
      assert i' == i;
    } else if c.tenantId == tenantId {
      assert s[|contracts|] == c;
      assert r'.Some?;
      var i' :| 0 <= i' < |s| && s[i'] == r'.value && s[i'].tenantId == tenantId &&
        forall j :: 0 <= j < i' ==> s[j].tenantId != tenantId;
      if i' < |contracts| {
        assert s[i'] == contracts[i'];
      }
    }
  }

  // ---------------------------------------------------------------------
  // The message thread between two users

  /** A message sent from one of the two users to the other. */
  predicate Exchanged(m: Message, a: string, b: string) {
    (m.senderId == a && m.recipientId == b) || (m.senderId == b && m.recipientId == a)
  }

  function Thread(msgs: seq<Message>, a: string, b: string): seq<Message> {
    Filter(msgs, m => Exchanged(m, a, b))
  }

  function CreatedAt(m: Message): int { m.createdAt }

  /** `getMessagesBetween`: the messages exchanged by `a` and `b`, oldest
      first; messages with the same timestamp keep their insertion order. */
  function MessagesBetween(msgs: seq<Message>, a: string, b: string): (r: seq<Message>)
    ensures forall m :: m in r <==> m in msgs && Exchanged(m, a, b)
    ensures multiset(r) == multiset(Thread(msgs, a, b))
  {
    var t := Thread(msgs, a, b);
    var r := SortBy(t, CreatedAt);
    assert forall m :: m in r <==> m in t by {
      forall m ensures m in r <==> m in t {
        assert m in r <==> m in multiset(r);
        assert m in t <==> m in multiset(t);
      }
    }
    r
  }

  /** The thread is ascending by creation time, and stable: for every
      timestamp the messages carrying it appear in the order they were
      stored. */
  lemma MessagesBetweenOrdered(msgs: seq<Message>, a: string, b: string)
    ensures SortedBy(MessagesBetween(msgs, a, b), CreatedAt)
    ensures forall t :: KeyClass(MessagesBetween(msgs, a, b), CreatedAt, t)
                     == KeyClass(Thread(msgs, a, b), CreatedAt, t)
  {
    SortByCorrect(Thread(msgs, a, b), CreatedAt);
  }

  lemma {:induction false} ThreadSymmetric(msgs: seq<Message>, a: string, b: string)
    ensures Thread(msgs, a, b) == Thread(msgs, b, a)
    decreases |msgs|
  {
    if msgs != [] {
      ThreadSymmetric(msgs[1..], a, b);
    }
  }

  /** The thread does not depend on which of the two users asks. */
  lemma MessagesBetweenSymmetric(msgs: seq<Message>, a: string, b: string)
    ensures MessagesBetween(msgs, a, b) == MessagesBetween(msgs, b, a)
  {
    ThreadSymmetric(msgs, a, b);
  }

  lemma ThreadCons(m: Message, msgs: seq<Message>, a: string, b: string)
    ensures Thread([m] + msgs, a, b) == (if Exchanged(m, a, b) then [m] else []) + Thread(msgs, a, b)
  {
    assert ([m] + msgs)[0] == m && ([m] + msgs)[1..] == msgs;
  }

  /** Appending to the store appends the exchanged part to the thread. */
  lemma {:induction false} ThreadAppend(xs: seq<Message>, ys: seq<Message>, a: string, b: string)
    ensures Thread(xs + ys, a, b) == Thread(xs, a, b) + Thread(ys, a, b)
    decreases |xs|
  {
    if xs == [] {
      assert xs + ys == ys;
    } else {
      var x, rest := xs[0], xs[1..];
      var e := if Exchanged(x, a, b) then [x] else [];
      calc {
        Thread(xs + ys, a, b);
        { assert xs + ys == [x] + (rest + ys); }
        Thread([x] + (rest + ys), a, b);
        { ThreadCons(x, rest + ys, a, b); }
        e + Thread(rest + ys, a, b);
        { ThreadAppend(rest, ys, a, b); }
        e + (Thread(rest, a, b) + Thread(ys, a, b));
        (e + Thread(rest, a, b)) + Thread(ys, a, b);
        { ThreadCons(x, rest, a, b); assert xs == [x] + rest; }
        Thread(xs, a, b) + Thread(ys, a, b);
      }
    }
  }

  lemma ThreadAppendExchanged(msgs: seq<Message>, m: Message, a: string, b: string)
    requires Exchanged(m, a, b)
    ensures Thread(msgs + [m], a, b) == Thread(msgs, a, b) + [m]
  {
    ThreadAppend(msgs, [m], a, b);
    ThreadCons(m, [], a, b);
    assert [m] + [] == [m];
  }

  /** A message between the two users, stored no earlier than every message
      already there, is the last one of their thread. */
  lemma NewestMessageEndsThread(msgs: seq<Message>, m: Message, a: string, b: string)
    requires Exchanged(m, a, b)
    requires forall x :: x in msgs ==> x.createdAt <= m.createdAt
    ensures var r := MessagesBetween(msgs + [m], a, b); r != [] && r[|r| - 1] == m
  {
    var t0 := Thread(msgs, a, b);
    ThreadAppendExchanged(msgs, m, a, b);
    forall x | x in t0 ensures CreatedAt(x) <= CreatedAt(m) {
      assert x in msgs;
    }
    SortByNewestLast(t0, m, CreatedAt);
  }

  // ---------------------------------------------------------------------
  // Seed data, used for every collection that has nothing saved.

  function SeedUsers(now: int): seq<User> {
    [ User("admin-1", "Propriétaire Admin", "admin@mhimmo.com", Proprietaire, Some("06 12 34 56 78"), now),
      User("manager-1", "Marie Dubois", "marie.dubois@mhimmo.com", Gestionnaire, Some("06 23 45 67 89"), now),
      User("tenant-1", "Jean Dupont", "jean.dupont@email.com", Locataire, Some("06 34 56 78 90"), now),
      User("tenant-2", "Sophie Martin", "sophie.martin@email.com", Locataire, Some("06 45 67 89 01"), now) ]
  }

  function SeedProperties(now: int): seq<Property> {
    [ Property("prop-1", "123 Rue de la Paix", "Paris", "75001", "appartement", 1200, 2400, 65, 3,
        "Bel appartement lumineux au cœur de Paris, proche des transports.", Occupe, Some("tenant-1"), now),
      Property("prop-2", "45 Avenue des Champs", "Lyon", "69001", "studio", 750, 1500, 30, 1,
        "Studio moderne et fonctionnel, idéal pour étudiant ou jeune actif.", Occupe, Some("tenant-2"), now),
      Property("prop-3", "78 Rue du Commerce", "Marseille", "13001", "appartement", 950, 1900, 50, 2,
        "Appartement rénové avec terrasse, quartier dynamique.", Inoccupe, None, now) ]
  }

  function SeedContracts(now: int): seq<Contract> {
    [ Contract("contract-1", "tenant-1", "prop-1", "2024-01-01", None, 1200, 2400, now),
      Contract("contract-2", "tenant-2", "prop-2", "2024-02-01", Some("2025-02-01"), 750, 1500, now) ]
  }

  function SeedMessages(now: int): seq<Message> {
    [ Message("msg-1", "tenant-1", "manager-1",
        "Bonjour, j'ai un problème avec le chauffage dans mon appartement.",
        TextMessage, now - 86400000, true),
      Message("msg-2", "manager-1", "tenant-1",
        "Bonjour Jean, je vais contacter un technicien pour intervenir rapidement.",
        TextMessage, now - 82800000, true),
      Message("msg-3", "admin-1", "manager-1", "Rapport mensuel disponible pour consultation.",
        TextMessage, now - 3600000, false) ]
  }

  function SeedPayments(): seq<Payment> {
    [ Payment("pay-1", "tenant-1", "prop-1", 1200, "2024-03-01", Paid, RentPayment),
      Payment("pay-2", "tenant-2", "prop-2", 750, "2024-03-01", Paid, RentPayment),
      Payment("pay-3", "tenant-1", "prop-1", 1200, "2024-04-01", Pending, RentPayment) ]
  }

  /** The seed is consistent: each occupied property is backed by its
      contract and tenant, every contract's property is occupied, and the
      vacant property has no contract. */
  lemma SeedConsistent(now: int)
    ensures OccupancyBacked(SeedProperties(now), SeedContracts(now))
    ensures ContractsApplied(SeedProperties(now), SeedContracts(now))
    ensures forall p, c :: (p in SeedProperties(now) && p.status == Inoccupe && c in SeedContracts(now)
      ==> c.propertyId != p.id)
  {
    var ps, cs := SeedProperties(now), SeedContracts(now);
    assert cs[0] in cs && cs[1] in cs;
    forall p | p in ps && p.status == Occupe
      ensures exists c :: c in cs && c.propertyId == p.id && p.tenantId == Some(c.tenantId)
    {
      if p == ps[0] { assert cs[0].propertyId == p.id; } else { assert p == ps[1]; }
    }
  }

  /** Seed ids are unique within each collection. */
  lemma SeedUsersDistinct(now: int)
    ensures DistinctIds(SeedUsers(now), UserKey)
  {
    var us := SeedUsers(now);
    assert us[0].id[0] == 'a' && us[1].id[0] == 'm' && us[2].id[0] == 't' && us[3].id[0] == 't';
    assert us[2].id[7] == '1' && us[3].id[7] == '2';
  }

  lemma SeedPropertiesDistinct(now: int)
    ensures DistinctIds(SeedProperties(now), PropertyKey)
  {
    var ps := SeedProperties(now);
    assert ps[0].id[5] == '1' && ps[1].id[5] == '2' && ps[2].id[5] == '3';
  }

  lemma SeedContractsDistinct(now: int)
    ensures DistinctIds(SeedContracts(now), ContractKey)
  {
    var cs := SeedContracts(now);
    assert cs[0].id[9] == '1' && cs[1].id[9] == '2';
  }

  lemma SeedMessagesDistinct(now: int)
    ensures DistinctIds(SeedMessages(now), MessageKey)
  {
    var ms := SeedMessages(now);
    assert ms[0].id[4] == '1' && ms[1].id[4] == '2' && ms[2].id[4] == '3';
  }

  lemma SeedPaymentsDistinct()
    ensures DistinctIds(SeedPayments(), PaymentKey)
  {
    var ps := SeedPayments();
    assert ps[0].id[4] == '1' && ps[1].id[4] == '2' && ps[2].id[4] == '3';
  }

  /** Everything the store's invariants ask of the seed. */
  lemma SeedValid(now: int)
    ensures DistinctIds(SeedUsers(now), UserKey) && DistinctIds(SeedProperties(now), PropertyKey)
    ensures DistinctIds(SeedContracts(now), ContractKey) && DistinctIds(SeedMessages(now), MessageKey)
    ensures DistinctIds(SeedPayments(), PaymentKey)
    ensures OccupancyBacked(SeedProperties(now), SeedContracts(now))
    ensures ContractsApplied(SeedProperties(now), SeedContracts(now))
  {
    SeedConsistent(now);
    SeedUsersDistinct(now);
    SeedPropertiesDistinct(now);
    SeedContractsDistinct(now);
    SeedMessagesDistinct(now);
    SeedPaymentsDistinct();
  }

  /** What adding contract `c` does to the invariants, stated on the
      collections before the addition. */
  lemma ContractStep(props: seq<Property>, contracts: seq<Contract>, c: Contract)
    ensures var ps := MarkOccupied(props, c.propertyId, c.tenantId);
      && (OccupancyBacked(props, contracts) ==> OccupancyBacked(ps, contracts + [c]))
      && (ContractsApplied(props, contracts) ==> ContractsApplied(ps, contracts + [c]))
      && (DistinctIds(props, PropertyKey) ==> DistinctIds(ps, PropertyKey))
      && (forall p :: p in ps && p.id == c.propertyId ==> p.status == Occupe && p.tenantId == Some(c.tenantId))
    ensures DistinctIds(contracts, ContractKey) && (forall x :: x in contracts ==> x.id != c.id) ==>
      DistinctIds(contracts + [c], ContractKey)
  {
    if OccupancyBacked(props, contracts) {
      OccupancyAfterContract(props, contracts, c);
    }
    if ContractsApplied(props, contracts) {
      ContractsAppliedAfterContract(props, contracts, c);
    }
    MarkOccupiedFacts(props, c.propertyId, c.tenantId);
    if DistinctIds(contracts, ContractKey) && forall x :: x in contracts ==> x.id != c.id {
      AppendFreshId(contracts, c, ContractKey);
    }
  }

  /** What is saved for each collection, if anything. */
  datatype Saved = Saved(
    users: Option<seq<User>>,
    properties: Option<seq<Property>>,
    contracts: Option<seq<Contract>>,
    messages: Option<seq<Message>>,
    payments: Option<seq<Payment>>)

  // ---------------------------------------------------------------------

  class Store {
    var users: seq<User>
    var properties: seq<Property>
    var contracts: seq<Contract>
    var messages: seq<Message>
    var payments: seq<Payment>

    /** Ids are unique within each collection. */
    ghost predicate Valid()
      reads this
    {
      && DistinctIds(users, UserKey)
      && DistinctIds(properties, PropertyKey)
      && DistinctIds(contracts, ContractKey)
      && DistinctIds(messages, MessageKey)
      && DistinctIds(payments, PaymentKey)
    }

    /** Occupied properties are backed by contracts and contracts' properties
        are occupied. */
    ghost predicate Consistent()
      reads this
    {
      OccupancyBacked(properties, contracts) && ContractsApplied(properties, contracts)
    }

    /** The load on start: each collection comes from its saved copy, or
        from the seed when nothing is saved. */
    constructor (saved: Saved, now: int)
      ensures users == saved.users.GetOr(SeedUsers(now))
      ensures properties == saved.properties.GetOr(SeedProperties(now))
      ensures contracts == saved.contracts.GetOr(SeedContracts(now))
      ensures messages == saved.messages.GetOr(SeedMessages(now))
      ensures payments == saved.payments.GetOr(SeedPayments())
      ensures saved == Saved(None, None, None, None, None) ==> Valid() && Consistent()
    {
      users := saved.users.GetOr(SeedUsers(now));
      properties := saved.properties.GetOr(SeedProperties(now));
      contracts := saved.contracts.GetOr(SeedContracts(now));
      messages := saved.messages.GetOr(SeedMessages(now));
      payments := saved.payments.GetOr(SeedPayments());
      if saved == Saved(None, None, None, None, None) {
        SeedValid(now);
      }
    }

    method AddUser(data: NewUser, now: nat) returns (u: User)
      modifies this
      ensures u == User(GeneratedId("user-", now), data.name, data.email, data.role, data.phone, now)
      ensures users == old(users) + [u]
      ensures properties == old(properties) && contracts == old(contracts)
      ensures messages == old(messages) && payments == old(payments)
      ensures old(Valid()) && (forall x :: x in old(users) ==> x.id != u.id) ==> Valid()
      ensures old(Consistent()) ==> Consistent()
    {
      u := User(GeneratedId("user-", now), data.name, data.email, data.role, data.phone, now);
      ghost var before := users;
      users := users + [u];
      if DistinctIds(before, UserKey) && forall x :: x in before ==> x.id != u.id {
        AppendFreshId(before, u, UserKey);
      }
    }

    /** The status is forced to vacant, whatever the caller's fields. */
    method AddProperty(data: NewProperty, now: nat) returns (p: Property)
      modifies this
      ensures p == Property(GeneratedId("prop-", now), data.address, data.city, data.postalCode,
        data.kind, data.price, data.deposit, data.surface, data.rooms, data.description,
        Inoccupe, data.tenantId, now)
      ensures p.status == Inoccupe
      ensures properties == old(properties) + [p]
      ensures users == old(users) && contracts == old(contracts)
      ensures messages == old(messages) && payments == old(payments)
      ensures old(Valid()) && (forall x :: x in old(properties) ==> x.id != p.id) ==> Valid()
      ensures old(OccupancyBacked(properties, contracts)) ==> OccupancyBacked(properties, contracts)
      ensures old(Consistent()) && (forall c :: c in contracts ==> c.propertyId != p.id) ==> Consistent()
    {
      p := Property(GeneratedId("prop-", now), data.address, data.city, data.postalCode,
        data.kind, data.price, data.deposit, data.surface, data.rooms, data.description,
        Inoccupe, data.tenantId, now);
      ghost var before := properties;
      properties := properties + [p];
      OccupancyAfterProperty(before, contracts, p);
      if DistinctIds(before, PropertyKey) && forall x :: x in before ==> x.id != p.id {
        AppendFreshId(before, p, PropertyKey);
      }
    }

    /** Appends the contract and occupies the contract's property for its
        tenant; when no property has that id, only the contract is added. */
    method AddContract(data: NewContract, now: nat) returns (c: Contract)
      modifies this
      ensures c == Contract(GeneratedId("contract-", now), data.tenantId, data.propertyId,
        data.startDate, data.endDate, data.rent, data.deposit, now)
      ensures contracts == old(contracts) + [c]
      ensures properties == MarkOccupied(old(properties), data.propertyId, data.tenantId)
      ensures users == old(users) && messages == old(messages) && payments == old(payments)
      ensures forall p :: p in properties && p.id == c.propertyId ==>
        p.status == Occupe && p.tenantId == Some(c.tenantId)
      ensures old(Valid()) && (forall x :: x in old(contracts) ==> x.id != c.id) ==> Valid()
      ensures old(Consistent()) ==> Consistent()
    {
      c := Contract(GeneratedId("contract-", now), data.tenantId, data.propertyId,
        data.startDate, data.endDate, data.rent, data.deposit, now);
      ContractStep(properties, contracts, c);
      contracts := contracts + [c];
      properties := MarkOccupied(properties, data.propertyId, data.tenantId);
    }

    /** Stores the caller's fields as given, `read` included; only the id
        and the creation time are generated. */
    method AddMessage(data: NewMessage, now: nat) returns (m: Message)
      modifies this
      ensures m == Message(GeneratedId("msg-", now), data.senderId, data.recipientId,
        data.content, data.kind, now, data.read)
      ensures messages == old(messages) + [m]
      ensures users == old(users) && properties == old(properties)
      ensures contracts == old(contracts) && payments == old(payments)
      ensures old(Valid()) && (forall x :: x in old(messages) ==> x.id != m.id) ==> Valid()
      ensures old(Consistent()) ==> Consistent()
    {
      m := Message(GeneratedId("msg-", now), data.senderId, data.recipientId,
        data.content, data.kind, now, data.read);
      ghost var before := messages;
      messages := messages + [m];
      if DistinctIds(before, MessageKey) && forall x :: x in before ==> x.id != m.id {
        AppendFreshId(before, m, MessageKey);
      }
    }

    /** Merges the patch into every property with that id; a no-op when
        none has it. */
    method UpdateProperty(id: string, u: PropertyPatch)
      modifies this
      ensures properties == UpdateMatching(old(properties), id, u)
      ensures (forall p :: p in old(properties) ==> p.id != id) ==> properties == old(properties)
      ensures users == old(users) && contracts == old(contracts)
      ensures messages == old(messages) && payments == old(payments)
      ensures old(Valid()) && u.id.None? ==> Valid()
    {
      properties := UpdateMatching(properties, id, u);
      assert forall i :: 0 <= i < |properties| ==> properties[i].id == old(properties)[i].id || u.id.Some?;
    }
  }
}
