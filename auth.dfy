/** The client session (`AuthContext`): log in against the fixed credential
    table, log out, and resume a saved session when the user list changes.
    The saved session stands for the `mhimmo-current-user` entry of the
    browser's storage. */
module Auth {
  import opened Seqs
  import opened Entities
  import opened DataStore

  /** What the session keeps of a user. */
  datatype SessionUser = SessionUser(id: string, email: string, name: string, role: Role)

  function Project(u: User): SessionUser {
    SessionUser(u.id, u.email, u.name, u.role)
  }

  datatype Credential = Credential(email: string, password: string)

  /** The only accepted e-mail/password pairs. */
  const Credentials: seq<Credential> := [
    Credential("admin@mhimmo.com", "admin123"),
    Credential("marie.dubois@mhimmo.com", "manager123"),
    Credential("jean.dupont@email.com", "tenant123"),
    Credential("sophie.martin@email.com", "tenant123")
  ]

  /** `users.find(u => u.email === email)`. */
  function FindByEmail(users: seq<User>, email: string): (r: Option<User>)
    ensures r.None? <==> forall i :: 0 <= i < |users| ==> users[i].email != email
    ensures r.Some? ==> exists i :: (0 <= i < |users| && users[i] == r.value && r.value.email == email &&
      forall j :: 0 <= j < i ==> users[j].email != email)
  {
    var hasEmail := (u: User) => u.email == email;
    var r := Find(users, hasEmail);
    assert r.Some? ==> var i := FirstIndex(users, hasEmail).value; users[i] == r.value;
    r
  }

  /** `validCredentials.some(cred => cred.email === email && cred.password === password)`. */
  predicate ValidCredential(email: string, password: string) {
    Credential(email, password) in Credentials
  }

  /** The session `login` opens, or none when it answers `false`: the
      e-mail must belong to a known user and the pair must be in the table. */
  function LoginOutcome(users: seq<User>, email: string, password: string): (r: Option<SessionUser>)
    ensures r.Some? <==> FindByEmail(users, email).Some? && ValidCredential(email, password)
    ensures r.Some? ==> r.value == Project(FindByEmail(users, email).value) && r.value.email == email
  {
    match FindByEmail(users, email)
    case None => None
    case Some(u) => if ValidCredential(email, password) then Some(Project(u)) else None
  }

  /** A pair outside the fixed table never opens a session, whatever the
      user list holds: in particular no user added later can log in. */
  lemma UnknownCredentialRejected(users: seq<User>, email: string, password: string)
    requires forall c :: c in Credentials ==> c.email != email
    ensures LoginOutcome(users, email, password).None?
  {
  }

  /** With the seed users, the owner's pair opens an owner session and a
      wrong password is refused. */
  lemma SeedOwnerLogin(now: int)
    ensures LoginOutcome(SeedUsers(now), "admin@mhimmo.com", "admin123")
         == Some(SessionUser("admin-1", "admin@mhimmo.com", "Propriétaire Admin", Proprietaire))
    ensures LoginOutcome(SeedUsers(now), "admin@mhimmo.com", "tenant123").None?
  {
    var users := SeedUsers(now);
    assert users[0].email == "admin@mhimmo.com";
    assert Credentials[0] == Credential("admin@mhimmo.com", "admin123");
    assert !ValidCredential("admin@mhimmo.com", "tenant123");
  }

  // ---------------------------------------------------------------------
  // Resuming a saved session

  /** The observable state of the provider. */
  datatype AuthState = AuthState(user: Option<SessionUser>, loading: bool, saved: Option<SessionUser>)

  /** The state on mount: nobody logged in, loading, with whatever was saved. */
  function Mount(saved: Option<SessionUser>): AuthState {
    AuthState(None, true, saved)
  }

  /** `users.find(u => u.id === id)`. */
  function FindById(users: seq<User>, id: string): (r: Option<User>)
    ensures r.None? <==> forall i :: 0 <= i < |users| ==> users[i].id != id
    ensures r.Some? ==> exists i :: (0 <= i < |users| && users[i] == r.value && r.value.id == id &&
      forall j :: 0 <= j < i ==> users[j].id != id)
  {
    var hasId := (u: User) => u.id == id;
    var r := Find(users, hasId);
    assert r.Some? ==> var i := FirstIndex(users, hasId).value; users[i] == r.value;
    r
  }

  /** The resume effect exactly as it runs on every change of the user list:
      a saved session whose id is in the list becomes the current user; one
      whose id is missing is erased from storage (the current user is left
      alone); loading ends either way. */
  function ResumeStep(s: AuthState, users: seq<User>): (r: AuthState)
    ensures !r.loading
    ensures s.saved.None? ==> r == s.(loading := false)
    ensures s.saved.Some? && FindById(users, s.saved.value.id).None? ==>
      r == AuthState(s.user, false, None)
    ensures s.saved.Some? && FindById(users, s.saved.value.id).Some? ==>
      r.saved == s.saved && r.user.Some? && r.user.value.id == s.saved.value.id &&
      exists u :: u in users && u.id == s.saved.value.id && r.user == Some(Project(u)) &&
        r == AuthState(Some(Project(FindById(users, s.saved.value.id).value)), false, s.saved)
  {
    match s.saved
    case None => s.(loading := false)
    case Some(saved) =>
      match FindById(users, saved.id)
      case Some(u) => AuthState(Some(Project(u)), false, s.saved)
      case None => AuthState(s.user, false, None)
  }

  /** On mount the effect first runs with the user list of the first render,
      which is still the data provider's empty initial state: the saved
      session is erased, and the second run, once the users are loaded,
      finds nothing to resume. A valid saved session is always lost. */
  lemma MountDropsSavedSession(saved: SessionUser, now: int)
    requires exists u :: u in SeedUsers(now) && u.id == saved.id
    ensures var s := ResumeStep(ResumeStep(Mount(Some(saved)), []), SeedUsers(now));
      s.user.None? && s.saved.None?
  {
  }

  /** The resume step as evidently intended: it waits until the user list
      has been loaded, then resumes or erases the saved session. */
  function ResumeLoadedStep(s: AuthState, users: seq<User>, loaded: bool): (r: AuthState)
    ensures !loaded ==> r == s
    ensures loaded ==> r == ResumeStep(s, users)
  {
    if loaded then ResumeStep(s, users) else s
  }

  /** With the intended step, a saved session whose user exists survives the
      mount sequence and becomes the current user. */
  lemma MountKeepsSavedSession(saved: SessionUser, now: int)
    requires exists u :: u in SeedUsers(now) && u.id == saved.id
    ensures var s := ResumeLoadedStep(ResumeLoadedStep(Mount(Some(saved)), [], false), SeedUsers(now), true);
      s.user == Some(Project(FindById(SeedUsers(now), saved.id).value)) &&
      s.user.value.id == saved.id && s.saved == Some(saved) && !s.loading
  {
    var u :| u in SeedUsers(now) && u.id == saved.id;
    assert FindById(SeedUsers(now), saved.id).Some?;
  }

  class Session {
    var user: Option<SessionUser>
    var loading: bool
    var saved: Option<SessionUser>

    function State(): AuthState
      reads this
    {
      AuthState(user, loading, saved)
    }

    constructor (stored: Option<SessionUser>)
      ensures State() == Mount(stored)
    {
      user, loading, saved := None, true, stored;
    }

    /** The user-list effect, waiting for the list to be loaded. */
    method Resume(users: seq<User>, loaded: bool)
      modifies this
      ensures State() == ResumeLoadedStep(old(State()), users, loaded)
    {
      if loaded && saved.Some? {
        match FindById(users, saved.value.id)
        case Some(u) => user := Some(Project(u));
        case None => saved := None;
      }
      if loaded {
        loading := false;
      }
    }

    /** `login`: on success the session is opened and saved. */
    method Login(users: seq<User>, email: string, password: string) returns (ok: bool)
      modifies this
      ensures ok <==> LoginOutcome(users, email, password).Some?
      ensures ok ==> user == LoginOutcome(users, email, password) && saved == user
      ensures !ok ==> user == old(user) && saved == old(saved)
      ensures loading == old(loading)
    {
      var found := FindByEmail(users, email);
      if found.None? {
        return false;
      }
      if ValidCredential(email, password) {
        var session := Project(found.value);
        user := Some(session);
        saved := Some(session);
        return true;
      }
      return false;
    }

    /** `logout`: nobody is logged in and nothing is saved. */
    method Logout()
      modifies this
      ensures user.None? && saved.None? && loading == old(loading)
    {
      user := None;
      saved := None;
    }
  }
}
