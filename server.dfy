/** The remote handlers: the same entity rules as the client, run over a
    key-value store of JSON records. Keys are `admin_user`, `user_<id>`,
    `property_<id>`, `contract_<id>` and `message_<id>`. Every data handler
    first checks the bearer token (401 when it fails) and some check the
    caller's stored role (403). The authentication service, the random
    identifiers and the clock are parameters. */
module Server {
  import opened Seqs
  import opened Text

  /** A JSON scalar as stored in a record. */
  datatype Value = Str(s: string) | Num(n: int) | Bool(b: bool) | Null

  /** A JSON object; a field set to `undefined` is absent. */
  type Record = map<string, Value>

  /** A user as the authentication service reports it. */
  datatype AuthUser = AuthUser(id: string, email: string, metaRole: Option<string>)

  /** JavaScript truthiness of a JSON scalar. */
  predicate Truthy(v: Value) {
    match v
    case Str(s) => s != ""
    case Num(n) => n != 0
    case Bool(b) => b
    case Null => false
  }

  /** `${v}` inside a template string. */
  function Interpolate(v: Value): string {
    match v
    case Str(s) => s
    case Num(n) => IntToText(n)
    case Bool(b) => if b then "true" else "false"
    case Null => "null"
  }

  // ---------------------------------------------------------------------
  // The bearer token

  const BearerPrefix: string := "Bearer "

  /** A header starting with "Bearer " splits into at least two pieces, the
      second being what follows the prefix up to the next space. */
  lemma BearerSplit(h: string)
    requires StartsWith(h, BearerPrefix)
    ensures |Split(h)| >= 2 && Split(h)[1] == Split(h[7..])[0]
  {
    forall j | 0 <= j < 6 ensures !IsSeparator(h[j]) {
      assert h[j] == h[..7][j];
    }
    assert h[6] == h[..7][6];
    assert FirstIndex(h, IsSeparator) == Some(6);
  }

  /** `verifyAuth`: no header, or one not starting with "Bearer ", gives no
      user; otherwise `split(' ')[1]` is the token, which the authentication
      service (a map from token to user) resolves or not. */
  function VerifyAuth(header: Option<string>, tokens: map<string, AuthUser>): (r: Option<AuthUser>)
    ensures header.None? ==> r.None?
    ensures header.Some? && !StartsWith(header.value, BearerPrefix) ==> r.None?
    ensures r.Some? ==> (header.Some? && StartsWith(header.value, BearerPrefix) &&
      Split(header.value[7..])[0] in tokens && r.value == tokens[Split(header.value[7..])[0]])
  {
    match header
    case None => None
    case Some(h) =>
      if !StartsWith(h, BearerPrefix) then None
      else
        BearerSplit(h);
        var token := Split(h)[1];
        if token in tokens then Some(tokens[token]) else None
  }

  /** For a header "Bearer <token>" with a token free of spaces, the caller is
      exactly whom the service maps the token to. */
  lemma VerifyAuthBearer(token: string, tokens: map<string, AuthUser>)
    requires ' ' !in token
    ensures VerifyAuth(Some(BearerPrefix + token), tokens)
         == if token in tokens then Some(tokens[token]) else None
  {
    var h := BearerPrefix + token;
    assert h[..7] == BearerPrefix;
    assert h[7..] == token;
    BearerSplit(h);
    assert forall k :: 0 <= k < |token| ==> !IsSeparator(token[k]);
    assert Split(token) == [token];
  }

  // ---------------------------------------------------------------------
  // Keys, roles and listings

  /** A key built from a prefix and an id starts with the prefix and gives
      the id back. */
  lemma PrefixedKey(prefix: string, id: string)
    ensures StartsWith(prefix + id, prefix) && (prefix + id)[|prefix|..] == id
  {
    assert (prefix + id)[..|prefix|] == prefix;
  }

  /** A key starting with a prefix starts with the prefix's first character. */
  lemma PrefixHead(k: string, prefix: string)
    requires prefix != [] && StartsWith(k, prefix)
    ensures k[0] == prefix[0]
  {
    assert k[0] == k[..|prefix|][0];
  }

  /** The caller's stored record has one of the given roles. */
  predicate CallerHasRole(kv: map<string, Record>, id: string, roles: set<string>) {
    var k := "user_" + id;
    k in kv && "role" in kv[k] && kv[k]["role"].Str? && kv[k]["role"].s in roles
  }

  /** The records `getByPrefix` returns, in the store's listing order `keys`. */
  function ByPrefix(kv: map<string, Record>, keys: seq<string>, prefix: string): (r: seq<Record>)
    requires forall k :: k in keys ==> k in kv
    ensures forall x :: x in r <==> exists k :: k in keys && StartsWith(k, prefix) && kv[k] == x
    decreases |keys|
  {
    if keys == [] then []
    else
      assert keys == [keys[0]] + keys[1..];
      (if StartsWith(keys[0], prefix) then [kv[keys[0]]] else []) + ByPrefix(kv, keys[1..], prefix)
  }

  /** `item.value.id !== user.id`. */
  predicate NotRecordOf(r: Record, id: string) {
    !("id" in r && r["id"] == Str(id))
  }

  /** GET users: every `user_` record but the caller's own. */
  function UsersListing(kv: map<string, Record>, keys: seq<string>, callerId: string): (r: seq<Record>)
    requires forall k :: k in keys ==> k in kv
    ensures forall x :: x in r <==>
      (exists k :: k in keys && StartsWith(k, "user_") && kv[k] == x) && NotRecordOf(x, callerId)
  {
    Filter(ByPrefix(kv, keys, "user_"), x => NotRecordOf(x, callerId))
  }

  function Field(r: Record, name: string): Option<Value> {
    if name in r then Some(r[name]) else None
  }

  /** A stored message from one of the two users to the other. */
  predicate RecordExchanged(r: Record, a: string, b: string) {
    (Field(r, "sender_id") == Some(Str(a)) && Field(r, "recipient_id") == Some(Str(b))) ||
    (Field(r, "sender_id") == Some(Str(b)) && Field(r, "recipient_id") == Some(Str(a)))
  }

  /** The creation time of a stored record (0 when it has none). */
  function RecordTime(r: Record): int {
    if "created_at" in r && r["created_at"].Num? then r["created_at"].n else 0
  }

  function RecordThread(kv: map<string, Record>, keys: seq<string>, a: string, b: string): (r: seq<Record>)
    requires forall k :: k in keys ==> k in kv
    ensures forall x :: x in r <==> x in ByPrefix(kv, keys, "message_") && RecordExchanged(x, a, b)
  {
    Filter(ByPrefix(kv, keys, "message_"), x => RecordExchanged(x, a, b))
  }

  /** GET messages/:userId: the stored messages between the caller and the
      other user, oldest first, ties in listing order. */
  function MessagesListing(kv: map<string, Record>, keys: seq<string>, callerId: string, other: string): (r: seq<Record>)
    requires forall k :: k in keys ==> k in kv
    ensures forall x :: x in r <==>
      (exists k :: k in keys && StartsWith(k, "message_") && kv[k] == x) && RecordExchanged(x, callerId, other)
  {
    var t := RecordThread(kv, keys, callerId, other);
    var r := SortBy(t, RecordTime);
    assert forall x :: x in r <==> x in multiset(r);
    r
  }

  lemma MessagesListingOrdered(kv: map<string, Record>, keys: seq<string>, callerId: string, other: string)
    requires forall k :: k in keys ==> k in kv
    ensures SortedBy(MessagesListing(kv, keys, callerId, other), RecordTime)
    ensures forall t :: KeyClass(MessagesListing(kv, keys, callerId, other), RecordTime, t)
                     == KeyClass(RecordThread(kv, keys, callerId, other), RecordTime, t)
  {
    SortByCorrect(RecordThread(kv, keys, callerId, other), RecordTime);
  }

  // ---------------------------------------------------------------------
  // The records the handlers build

  /** The fields of `body` among `names`, as destructuring picks them. */
  function Pick(body: Record, names: set<string>): (r: Record)
    ensures forall k :: k in r <==> k in body && k in names
    ensures forall k :: k in r ==> r[k] == body[k]
  {
    map k | k in body && k in names :: body[k]
  }

  function AdminRecord(admin: AuthUser, now: int): Record {
    map["id" := Str(admin.id), "email" := Str(admin.email), "name" := Str("Propriétaire Admin"),
        "role" := Str("proprietaire"), "created_at" := Num(now)]
  }

  /** The answer of `login` when the store holds no record for the user:
      the role from the user's metadata, `locataire` when it is missing or
      empty. */
  function FallbackRecord(u: AuthUser): (r: Record)
    ensures Field(r, "role") == Some(Str(if u.metaRole.Some? && u.metaRole.value != "" then u.metaRole.value else "locataire"))
  {
    map["id" := Str(u.id), "email" := Str(u.email),
        "role" := Str(if u.metaRole.Some? && u.metaRole.value != "" then u.metaRole.value else "locataire")]
  }

  /** A created user: id and e-mail from the service, name and role from the
      request, the creator and the time. */
  function NewUserRecord(created: AuthUser, body: Record, callerId: string, now: int): (r: Record)
    ensures Field(r, "id") == Some(Str(created.id)) && Field(r, "created_by") == Some(Str(callerId))
    ensures forall k :: k in r <==> k in {"id", "email", "created_by", "created_at"} || (k in body && k in {"name", "role"})
    ensures forall k :: k in {"name", "role"} && k in body ==> r[k] == body[k]
  {
    Pick(body, {"name", "role"}) +
      map["id" := Str(created.id), "email" := Str(created.email),
          "created_by" := Str(callerId), "created_at" := Num(now)]
  }

  /** `{ id, ...body, status: 'inoccupe', created_by, created_at }`. */
  function PropertyRecord(uuid: string, body: Record, callerId: string, now: int): (r: Record)
    ensures Field(r, "status") == Some(Str("inoccupe")) && Field(r, "created_by") == Some(Str(callerId)) && Field(r, "created_at") == Some(Num(now))
    ensures Field(r, "id") == Some(if "id" in body then body["id"] else Str(uuid))
    ensures forall k :: k in body && k !in {"status", "created_by", "created_at"} ==> k in r && r[k] == body[k]
    ensures forall k :: k in r ==> k in body || k in {"id", "status", "created_by", "created_at"}
  {
    map["id" := Str(uuid)] + body +
      map["status" := Str("inoccupe"), "created_by" := Str(callerId), "created_at" := Num(now)]
  }

  /** `{ id, ...body, created_by, created_at }`. */
  function ContractRecord(uuid: string, body: Record, callerId: string, now: int): (r: Record)
    ensures Field(r, "created_by") == Some(Str(callerId)) && Field(r, "created_at") == Some(Num(now))
    ensures Field(r, "id") == Some(if "id" in body then body["id"] else Str(uuid))
    ensures forall k :: k in body && k !in {"created_by", "created_at"} ==> k in r && r[k] == body[k]
  {
    map["id" := Str(uuid)] + body + map["created_by" := Str(callerId), "created_at" := Num(now)]
  }

  /** A stored message: the sender is always the caller and it is unread,
      whatever the request says; the type defaults to text. */
  function MessageRecord(uuid: string, body: Record, callerId: string, now: int): (r: Record)
    ensures Field(r, "id") == Some(Str(uuid)) && Field(r, "sender_id") == Some(Str(callerId)) && Field(r, "read") == Some(Bool(false))
    ensures Field(r, "type") == Some(if "type" in body then body["type"] else Str("text"))
    ensures forall k :: k in {"recipient_id", "content"} ==> (k in r <==> k in body)
    ensures forall k :: k in {"recipient_id", "content"} && k in body ==> r[k] == body[k]
  {
    map["type" := Str("text")] + Pick(body, {"recipient_id", "content", "type"}) +
      map["id" := Str(uuid), "sender_id" := Str(callerId), "created_at" := Num(now), "read" := Bool(false)]
  }

  /** The key of the property a contract request names, when its
      `property_id` is truthy. */
  function ContractTarget(body: Record): Option<string> {
    if "property_id" in body && Truthy(body["property_id"])
    then Some("property_" + Interpolate(body["property_id"]))
    else None
  }

  /** The property as the contract handler rewrites it: occupied, and its
      tenant set to the request's (absent when the request has none). */
  function Occupy(property: Record, body: Record): (r: Record)
    ensures Field(r, "status") == Some(Str("occupe"))
    ensures Field(r, "tenant_id") == Field(body, "tenant_id")
    ensures forall k :: k != "status" && k != "tenant_id" ==> Field(r, k) == Field(property, k)
  {
    var p := property["status" := Str("occupe")];
    if "tenant_id" in body then p["tenant_id" := body["tenant_id"]] else p - {"tenant_id"}
  }

  /** The contract side effect on the store: only an existing target
      property changes. */
  function ApplyContract(kv: map<string, Record>, body: Record): (r: map<string, Record>)
    ensures r.Keys == kv.Keys
    ensures forall k :: k in kv && Some(k) != ContractTarget(body) ==> r[k] == kv[k]
    ensures ContractTarget(body).Some? && ContractTarget(body).value in kv ==>
      r[ContractTarget(body).value] == Occupy(kv[ContractTarget(body).value], body)
    ensures ContractTarget(body).None? ==> r == kv
  {
    match ContractTarget(body)
    case None => kv
    case Some(pk) => if pk in kv then kv[pk := Occupy(kv[pk], body)] else kv
  }

  // ---------------------------------------------------------------------
  // Invariants of the store

  /** Every `user_<id>` record carries that id. */
  ghost predicate UsersKeyed(kv: map<string, Record>) {
    forall k :: k in kv && StartsWith(k, "user_") ==> "id" in kv[k] && kv[k]["id"] == Str(k[5..])
  }

  /** Every property has a known status and a creator: no request can set
      the status to anything else. */
  ghost predicate PropertiesWellFormed(kv: map<string, Record>) {
    forall k :: k in kv && StartsWith(k, "property_") ==>
      "status" in kv[k] && (kv[k]["status"] == Str("occupe") || kv[k]["status"] == Str("inoccupe")) &&
      "created_by" in kv[k]
  }

  /** Every `message_<id>` record carries that id, a sender and a read flag. */
  ghost predicate MessagesKeyed(kv: map<string, Record>) {
    forall k :: k in kv && StartsWith(k, "message_") ==>
      "id" in kv[k] && kv[k]["id"] == Str(k[8..]) && "sender_id" in kv[k] &&
      "read" in kv[k] && kv[k]["read"].Bool?
  }

  ghost predicate StoreValid(kv: map<string, Record>) {
    UsersKeyed(kv) && PropertiesWellFormed(kv) && MessagesKeyed(kv)
  }

  /** A key whose first character is not that of any checked prefix lies
      outside the three checked families. */
  lemma OutsideFamilies(k: string)
    requires k != [] && k[0] != 'u' && k[0] != 'p' && k[0] != 'm'
    ensures !StartsWith(k, "user_") && !StartsWith(k, "property_") && !StartsWith(k, "message_")
  {
    forall p | p in ["user_", "property_", "message_"] ensures !StartsWith(k, p) {
      if StartsWith(k, p) { PrefixHead(k, p); }
    }
  }

  /** Writing a record under a key outside the three checked families keeps
      the invariants. */
  lemma WriteOtherKey(kv: map<string, Record>, k: string, v: Record)
    requires StoreValid(kv)
    requires !StartsWith(k, "user_") && !StartsWith(k, "property_") && !StartsWith(k, "message_")
    ensures StoreValid(kv[k := v])
  {
  }

  lemma WriteUser(kv: map<string, Record>, id: string, v: Record)
    requires StoreValid(kv)
    requires "id" in v && v["id"] == Str(id)
    ensures StoreValid(kv["user_" + id := v])
  {
    PrefixedKey("user_", id);
    var k := "user_" + id;
    assert k[0] == 'u';
    forall p | p in ["property_", "message_"] ensures !StartsWith(k, p) {
      if StartsWith(k, p) { PrefixHead(k, p); }
    }
  }

  lemma WriteProperty(kv: map<string, Record>, k: string, v: Record)
    requires StoreValid(kv)
    requires StartsWith(k, "property_")
    requires "status" in v && (v["status"] == Str("occupe") || v["status"] == Str("inoccupe")) && "created_by" in v
    ensures StoreValid(kv[k := v])
  {
    PrefixHead(k, "property_");
    forall p | p in ["user_", "message_"] ensures !StartsWith(k, p) {
      if StartsWith(k, p) { PrefixHead(k, p); }
    }
  }

  lemma WriteMessage(kv: map<string, Record>, id: string, v: Record)
    requires StoreValid(kv)
    requires "id" in v && v["id"] == Str(id) && "sender_id" in v && "read" in v && v["read"].Bool?
    ensures StoreValid(kv["message_" + id := v])
  {
    PrefixedKey("message_", id);
    var k := "message_" + id;
    assert k[0] == 'm';
    forall p | p in ["user_", "property_"] ensures !StartsWith(k, p) {
      if StartsWith(k, p) { PrefixHead(k, p); }
    }
  }

  /** The contract side effect keeps the invariants: it only rewrites a
      property, with a known status, keeping its creator. */
  lemma ApplyContractValid(kv: map<string, Record>, body: Record)
    requires StoreValid(kv)
    ensures StoreValid(ApplyContract(kv, body))
  {
    match ContractTarget(body)
    case None =>
    case Some(pk) =>
      if pk in kv {
        PrefixedKey("property_", Interpolate(body["property_id"]));
        var p := Occupy(kv[pk], body);
        assert Field(p, "created_by") == Field(kv[pk], "created_by");
        WriteProperty(kv, pk, p);
      }
  }

  // ---------------------------------------------------------------------

  /** A handler's answer: an error status with its message, or the JSON
      body of a 200 response. */
  datatype Response =
    | Failure(status: nat, error: string)
    | AdminExists(admin: Record)
    | AdminCreated(admin: Record)
    | LoggedIn(user: Record)
    | Stored(record: Record)
    | Listed(records: seq<Record>)

  const Unauthorized: Response := Failure(401, "Unauthorized")
  const AccessDenied: Response := Failure(403, "Access denied")

  class Backend {
    var kv: map<string, Record>

    ghost predicate Valid()
      reads this
    {
      StoreValid(kv)
    }

    constructor ()
      ensures kv == map[] && Valid()
    {
      kv := map[];
    }

    /** `init`: creates the default owner once. When `admin_user` exists it
        is returned and nothing is written; `created` is the service's answer
        to the creation request (none on error). */
    method Init(created: Option<AuthUser>, now: int) returns (r: Response)
      modifies this
      ensures "admin_user" in old(kv) ==> r == AdminExists(old(kv)["admin_user"]) && kv == old(kv)
      ensures "admin_user" !in old(kv) && created.None? ==>
        r == Failure(500, "Failed to create admin user") && kv == old(kv)
      ensures "admin_user" !in old(kv) && created.Some? ==>
        r == AdminCreated(AdminRecord(created.value, now)) &&
        kv == old(kv)["admin_user" := AdminRecord(created.value, now)]["user_" + created.value.id := AdminRecord(created.value, now)]
      ensures r.AdminCreated? ==> "admin_user" in kv && Field(r.admin, "role") == Some(Str("proprietaire"))
      ensures old(Valid()) ==> Valid()
    {
      if "admin_user" in kv {
        return AdminExists(kv["admin_user"]);
      }
      if created.None? {
        return Failure(500, "Failed to create admin user");
      }
      var admin := AdminRecord(created.value, now);
      ghost var before := kv;
      kv := kv["admin_user" := admin];
      if StoreValid(before) {
        OutsideFamilies("admin_user");
        WriteOtherKey(before, "admin_user", admin);
      }
      ghost var mid := kv;
      kv := kv["user_" + created.value.id := admin];
      if StoreValid(mid) {
        WriteUser(mid, created.value.id, admin);
      }
      assert ("user_" + created.value.id)[0] == 'u';
      return AdminCreated(admin);
    }

    /** `login`: `signedIn` is the service's answer to the password check.
        The stored record is returned, or a fallback built from the service's
        user. Nothing is written. */
    method Login(signedIn: Option<AuthUser>) returns (r: Response)
      ensures signedIn.None? ==> r == Failure(401, "Invalid credentials")
      ensures signedIn.Some? && "user_" + signedIn.value.id in kv ==>
        r == LoggedIn(kv["user_" + signedIn.value.id])
      ensures signedIn.Some? && "user_" + signedIn.value.id !in kv ==>
        r == LoggedIn(FallbackRecord(signedIn.value))
    {
      if signedIn.None? {
        return Failure(401, "Invalid credentials");
      }
      var key := "user_" + signedIn.value.id;
      if key in kv {
        return LoggedIn(kv[key]);
      }
      return LoggedIn(FallbackRecord(signedIn.value));
    }

    /** POST users: owners only; `created` is the service's answer to the
        account creation (none on error). */
    method PostUsers(header: Option<string>, tokens: map<string, AuthUser>, body: Record,
                     created: Option<AuthUser>, now: int) returns (r: Response)
      modifies this
      ensures VerifyAuth(header, tokens).None? ==> r == Unauthorized && kv == old(kv)
      ensures (VerifyAuth(header, tokens).Some? &&
        !CallerHasRole(old(kv), VerifyAuth(header, tokens).value.id, {"proprietaire"})) ==>
        r == Failure(403, "Only proprietaire can create users") && kv == old(kv)
      ensures (VerifyAuth(header, tokens).Some? &&
        CallerHasRole(old(kv), VerifyAuth(header, tokens).value.id, {"proprietaire"})) ==>
        if created.None? then r == Failure(400, "Failed to create user") && kv == old(kv)
        else
          var rec := NewUserRecord(created.value, body, VerifyAuth(header, tokens).value.id, now);
          r == Stored(rec) && kv == old(kv)["user_" + created.value.id := rec]
      ensures old(Valid()) ==> Valid()
    {
      var caller := VerifyAuth(header, tokens);
      if caller.None? {
        return Unauthorized;
      }
      if !CallerHasRole(kv, caller.value.id, {"proprietaire"}) {
        return Failure(403, "Only proprietaire can create users");
      }
      if created.None? {
        return Failure(400, "Failed to create user");
      }
      var rec := NewUserRecord(created.value, body, caller.value.id, now);
      ghost var before := kv;
      kv := kv["user_" + created.value.id := rec];
      if StoreValid(before) {
        WriteUser(before, created.value.id, rec);
      }
      return Stored(rec);
    }

    /** GET users: owners and managers see every user record but their own.
        `keys` is the store's listing of its keys. */
    method GetUsers(header: Option<string>, tokens: map<string, AuthUser>, keys: seq<string>) returns (r: Response)
      requires forall k :: k in keys <==> k in kv
      ensures VerifyAuth(header, tokens).None? ==> r == Unauthorized
      ensures (VerifyAuth(header, tokens).Some? &&
        !CallerHasRole(kv, VerifyAuth(header, tokens).value.id, {"proprietaire", "gestionnaire"})) ==>
        r == AccessDenied
      ensures (VerifyAuth(header, tokens).Some? &&
        CallerHasRole(kv, VerifyAuth(header, tokens).value.id, {"proprietaire", "gestionnaire"})) ==>
        r == Listed(UsersListing(kv, keys, VerifyAuth(header, tokens).value.id))
      ensures r.Listed? ==> (VerifyAuth(header, tokens).Some? &&
        CallerHasRole(kv, VerifyAuth(header, tokens).value.id, {"proprietaire", "gestionnaire"}) &&
        forall x :: x in r.records <==>
          (exists k :: k in kv && StartsWith(k, "user_") && kv[k] == x) &&
          NotRecordOf(x, VerifyAuth(header, tokens).value.id))
      ensures r.Listed? || r == Unauthorized || r == AccessDenied
    {
      var caller := VerifyAuth(header, tokens);
      if caller.None? {
        return Unauthorized;
      }
      if !CallerHasRole(kv, caller.value.id, {"proprietaire", "gestionnaire"}) {
        return AccessDenied;
      }
      return Listed(UsersListing(kv, keys, caller.value.id));
    }

    /** POST properties: owners and managers; the stored property is vacant
        and records its creator. */
    method PostProperties(header: Option<string>, tokens: map<string, AuthUser>, body: Record,
                          uuid: string, now: int) returns (r: Response)
      modifies this
      ensures VerifyAuth(header, tokens).None? ==> r == Unauthorized && kv == old(kv)
      ensures (VerifyAuth(header, tokens).Some? &&
        !CallerHasRole(old(kv), VerifyAuth(header, tokens).value.id, {"proprietaire", "gestionnaire"})) ==>
        r == AccessDenied && kv == old(kv)
      ensures (VerifyAuth(header, tokens).Some? &&
        CallerHasRole(old(kv), VerifyAuth(header, tokens).value.id, {"proprietaire", "gestionnaire"})) ==>
        var rec := PropertyRecord(uuid, body, VerifyAuth(header, tokens).value.id, now);
        r == Stored(rec) && kv == old(kv)["property_" + uuid := rec]
      ensures r.Stored? ==> Field(r.record, "status") == Some(Str("inoccupe"))
      ensures old(Valid()) ==> Valid()
    {
      var caller := VerifyAuth(header, tokens);
      if caller.None? {
        return Unauthorized;
      }
      if !CallerHasRole(kv, caller.value.id, {"proprietaire", "gestionnaire"}) {
        return AccessDenied;
      }
      var rec := PropertyRecord(uuid, body, caller.value.id, now);
      ghost var before := kv;
      kv := kv["property_" + uuid := rec];
      PrefixedKey("property_", uuid);
      if StoreValid(before) {
        WriteProperty(before, "property_" + uuid, rec);
      }
      return Stored(rec);
    }

    /** GET properties: every property record, to any authenticated caller. */
    method GetProperties(header: Option<string>, tokens: map<string, AuthUser>, keys: seq<string>) returns (r: Response)
      requires forall k :: k in keys <==> k in kv
      ensures VerifyAuth(header, tokens).None? ==> r == Unauthorized
      ensures VerifyAuth(header, tokens).Some? ==>
        r.Listed? && forall x :: x in r.records <==> exists k :: k in kv && StartsWith(k, "property_") && kv[k] == x
    {
      if VerifyAuth(header, tokens).None? {
        return Unauthorized;
      }
      return Listed(ByPrefix(kv, keys, "property_"));
    }

    /** POST contracts: any authenticated caller. The contract is always
        stored; the property it names is occupied only when the request's
        `property_id` is truthy and that property exists. */
    method PostContracts(header: Option<string>, tokens: map<string, AuthUser>, body: Record,
                         uuid: string, now: int) returns (r: Response)
      modifies this
      ensures VerifyAuth(header, tokens).None? ==> r == Unauthorized && kv == old(kv)
      ensures VerifyAuth(header, tokens).Some? ==>
        var rec := ContractRecord(uuid, body, VerifyAuth(header, tokens).value.id, now);
        r == Stored(rec) && kv == ApplyContract(old(kv)["contract_" + uuid := rec], body)
      ensures VerifyAuth(header, tokens).Some? ==> "contract_" + uuid in kv
      ensures old(Valid()) ==> Valid()
    {
      var caller := VerifyAuth(header, tokens);
      if caller.None? {
        return Unauthorized;
      }
      var rec := ContractRecord(uuid, body, caller.value.id, now);
      ghost var before := kv;
      var ck := "contract_" + uuid;
      kv := kv[ck := rec];
      assert ck[0] == 'c';
      OutsideFamilies(ck);
      if StoreValid(before) {
        WriteOtherKey(before, ck, rec);
      }
      ghost var mid := kv;
      if "property_id" in body && Truthy(body["property_id"]) {
        var pk := "property_" + Interpolate(body["property_id"]);
        if pk in kv {
          var property := kv[pk];
          property := property["status" := Str("occupe")];
          if "tenant_id" in body {
            property := property["tenant_id" := body["tenant_id"]];
          } else {
            property := property - {"tenant_id"};
          }
          kv := kv[pk := property];
        }
      }
      assert kv == ApplyContract(mid, body);
      if StoreValid(mid) {
        ApplyContractValid(mid, body);
      }
      return Stored(rec);
    }

    /** GET contracts: every contract record, to any authenticated caller. */
    method GetContracts(header: Option<string>, tokens: map<string, AuthUser>, keys: seq<string>) returns (r: Response)
      requires forall k :: k in keys <==> k in kv
      ensures VerifyAuth(header, tokens).None? ==> r == Unauthorized
      ensures VerifyAuth(header, tokens).Some? ==>
        r.Listed? && forall x :: x in r.records <==> exists k :: k in kv && StartsWith(k, "contract_") && kv[k] == x
    {
      if VerifyAuth(header, tokens).None? {
        return Unauthorized;
      }
      return Listed(ByPrefix(kv, keys, "contract_"));
    }

    /** POST messages: the stored message's sender is the caller and it is
        unread. */
    method PostMessages(header: Option<string>, tokens: map<string, AuthUser>, body: Record,
                        uuid: string, now: int) returns (r: Response)
      modifies this
      ensures VerifyAuth(header, tokens).None? ==> r == Unauthorized && kv == old(kv)
      ensures VerifyAuth(header, tokens).Some? ==>
        var rec := MessageRecord(uuid, body, VerifyAuth(header, tokens).value.id, now);
        r == Stored(rec) && kv == old(kv)["message_" + uuid := rec]
      ensures r.Stored? ==> (VerifyAuth(header, tokens).Some? &&
        Field(r.record, "sender_id") == Some(Str(VerifyAuth(header, tokens).value.id)))
      ensures r.Stored? ==> Field(r.record, "read") == Some(Bool(false))
      ensures old(Valid()) ==> Valid()
    {
      var caller := VerifyAuth(header, tokens);
      if caller.None? {
        return Unauthorized;
      }
      var rec := MessageRecord(uuid, body, caller.value.id, now);
      ghost var before := kv;
      kv := kv["message_" + uuid := rec];
      if StoreValid(before) {
        WriteMessage(before, uuid, rec);
      }
      return Stored(rec);
    }

    /** GET messages/:userId: the caller's thread with that user, oldest
        first. */
    method GetMessages(header: Option<string>, tokens: map<string, AuthUser>, other: string,
                       keys: seq<string>) returns (r: Response)
      requires forall k :: k in keys <==> k in kv
      ensures VerifyAuth(header, tokens).None? ==> r == Unauthorized
      ensures VerifyAuth(header, tokens).Some? ==>
        r.Listed? && SortedBy(r.records, RecordTime) &&
        forall x :: x in r.records <==>
          (exists k :: k in kv && StartsWith(k, "message_") && kv[k] == x) &&
          RecordExchanged(x, VerifyAuth(header, tokens).value.id, other)
    {
      var caller := VerifyAuth(header, tokens);
      if caller.None? {
        return Unauthorized;
      }
      MessagesListingOrdered(kv, keys, caller.value.id, other);
      return Listed(MessagesListing(kv, keys, caller.value.id, other));
    }
  }
}
