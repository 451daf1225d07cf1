/** The session provider (frontend/src/contexts/AuthContext.jsx): the
    session restored from the stored tokens, admin and user login, logout,
    and the coordinates sent on registration. `localStorage` is the
    `storage` map. */
module AuthContext {
  import opened Common
  import opened ClientJson

  const AdminKey := "adminToken"
  const UserKey := "userToken"
  const LoginPath := "/admin/login"

  /** frontend/src/services/api.js exports no `userAuth`: the name imported
      for user login and registration is `undefined`. */
  const UserAuthExported := false

  datatype User = User(token: string, role: string)

  /** `getItem(key)` is truthy: stored and non-empty. */
  predicate HasToken(storage: map<string, string>, key: string) {
    key in storage && storage[key] != ""
  }

  /** The start-up decision: an admin token wins over a user token; with
      neither there is no session. */
  function SessionFrom(storage: map<string, string>): (u: Option<User>)
    ensures HasToken(storage, AdminKey) ==> u == Some(User(storage[AdminKey], "admin"))
    ensures !HasToken(storage, AdminKey) && HasToken(storage, UserKey) ==> u == Some(User(storage[UserKey], "user"))
    ensures !HasToken(storage, AdminKey) && !HasToken(storage, UserKey) ==> u == None
  {
    if HasToken(storage, AdminKey) then Some(User(storage[AdminKey], "admin"))
    else if HasToken(storage, UserKey) then Some(User(storage[UserKey], "user"))
    else None
  }

  /** What the login request came back with: a token, or a rejection with
      the response's status and `msg` (`status` is `None` when there was no
      response at all). */
  datatype LoginOutcome = Issued(token: string) | Refused(status: Option<nat>, serverMsg: Option<string>)

  /** The response interceptor of the shared axios instance: a rejection
      with status 401 removes the admin token before it reaches the caller;
      any other rejection leaves the storage alone. */
  function AfterRejection(storage: map<string, string>, status: Option<nat>): (s: map<string, string>)
    ensures status == Some(401) ==> s == storage - {AdminKey} && !HasToken(s, AdminKey)
    ensures status != Some(401) ==> s == storage
    ensures forall k :: k in s && k != AdminKey ==> k in storage && s[k] == storage[k]
  {
    if status == Some(401) then storage - {AdminKey} else storage
  }

  /** A call through `userAuth`: when it is not exported, reading a member
      of `undefined` throws a `TypeError` before any request is sent, a
      rejection with no response. */
  function ThroughUserAuth(exported: bool, outcome: LoginOutcome): (o: LoginOutcome)
    ensures exported ==> o == outcome
    ensures !exported ==> o == Refused(None, None)
  {
    if exported then outcome else Refused(None, None)
  }

  datatype AuthResult = AuthResult(success: bool, error: Option<string>)

  /** `lat && lng ? [lng, lat] : []`. */
  function RegisterCoordinates(lat: Scalar, lng: Scalar): (c: seq<Scalar>)
    ensures Truthy(lat) && Truthy(lng) ==> c == [lng, lat]
    ensures !(Truthy(lat) && Truthy(lng)) ==> c == []
  {
    if Truthy(lat) && Truthy(lng) then [lng, lat] else []
  }

  /** What the registration request came back with. */
  datatype RegisterOutcome = Registered | RegisterRefused(msg: Option<string>, error: Option<string>)

  /** `userAuth.register(...)` with `userAuth` possibly not exported. */
  function RegisterThroughUserAuth(exported: bool, outcome: RegisterOutcome): (o: RegisterOutcome)
    ensures exported ==> o == outcome
    ensures !exported ==> o == RegisterRefused(None, None)
  {
    if exported then outcome else RegisterRefused(None, None)
  }

  /** `register`'s result: the server's `msg`, else its `error`, else a fixed
      text. */
  function RegisterResult(outcome: RegisterOutcome): (r: AuthResult)
    ensures outcome.Registered? <==> r.success
    ensures outcome.RegisterRefused? ==>
      r.error == Some(TextOr(outcome.msg, TextOr(outcome.error, "Registration failed")))
  {
    match outcome
    case Registered => AuthResult(true, None)
    case RegisterRefused(msg, error) => AuthResult(false, Some(TextOr(msg, TextOr(error, "Registration failed"))))
  }

  class AuthState {
    var storage: map<string, string>
    var user: Option<User>
    var loading: bool
    /** Assignments to `window.location.href`, oldest first. */
    var redirects: seq<string>

    constructor (storage: map<string, string>)
      ensures this.storage == storage && user == None && loading && redirects == []
    {
      this.storage := storage;
      user := None;
      loading := true;
      redirects := [];
    }

    /** The start-up effect. */
    method Init()
      modifies this
      ensures user == (if SessionFrom(storage).Some? then SessionFrom(storage) else old(user))
      ensures storage == old(storage) && !loading && redirects == old(redirects)
    {
      var s := SessionFrom(storage);
      if s.Some? {
        user := s;
      }
      loading := false;
    }

    /** One login: the token stored under `key` and the session set with
        `role`. A refusal reports the server's `msg`, else `fallback`, and
        leaves the session as it was; when the refusal is a 401 the
        interceptor has removed the admin token and sent the browser to the
        login page first. */
    method Login(outcome: LoginOutcome, key: string, role: string, fallback: string) returns (r: AuthResult)
      modifies this
      ensures outcome.Issued? ==>
        && storage == old(storage)[key := outcome.token] && user == Some(User(outcome.token, role))
        && redirects == old(redirects)
        && r == AuthResult(true, None)
      ensures outcome.Refused? ==>
        && storage == AfterRejection(old(storage), outcome.status) && user == old(user)
        && redirects == old(redirects) + (if outcome.status == Some(401) then [LoginPath] else [])
        && r == AuthResult(false, Some(TextOr(outcome.serverMsg, fallback)))
      ensures loading == old(loading)
    {
      match outcome
      case Issued(token) =>
        storage := storage[key := token];
        user := Some(User(token, role));
        r := AuthResult(true, None);
      case Refused(status, serverMsg) =>
        storage := AfterRejection(storage, status);
        if status == Some(401) {
          redirects := redirects + [LoginPath];
        }
        r := AuthResult(false, Some(TextOr(serverMsg, fallback)));
    }

    /** `adminLogin`. Wrong credentials are a 401 from the backend, so the
        interceptor drops any stored admin token and redirects. */
    method AdminLogin(outcome: LoginOutcome) returns (r: AuthResult)
      modifies this
      ensures outcome.Issued? ==>
        && storage == old(storage)[AdminKey := outcome.token] && user == Some(User(outcome.token, "admin"))
        && redirects == old(redirects) && r.success
      ensures outcome.Refused? ==>
        && storage == AfterRejection(old(storage), outcome.status) && user == old(user)
        && redirects == old(redirects) + (if outcome.status == Some(401) then [LoginPath] else [])
        && r == AuthResult(false, Some(TextOr(outcome.serverMsg, "Admin login failed")))
      ensures loading == old(loading)
    {
      r := Login(outcome, AdminKey, "admin", "Admin login failed");
    }

    /** `userLogin` with a user-auth client that exists and is built on the
        same axios instance: the user token stored on success, the same
        rejection handling as an admin login otherwise. */
    method UserLogin(outcome: LoginOutcome) returns (r: AuthResult)
      modifies this
      ensures outcome.Issued? ==>
        && storage == old(storage)[UserKey := outcome.token] && user == Some(User(outcome.token, "user"))
        && redirects == old(redirects) && r.success
      ensures outcome.Refused? ==>
        && storage == AfterRejection(old(storage), outcome.status) && user == old(user)
        && redirects == old(redirects) + (if outcome.status == Some(401) then [LoginPath] else [])
        && r == AuthResult(false, Some(TextOr(outcome.serverMsg, "User login failed")))
      ensures loading == old(loading)
    {
      r := Login(outcome, UserKey, "user", "User login failed");
    }

    /** `userLogin` as written: `userAuth.login` throws before any request,
        so whatever the server would have said, the result is the fixed
        failure and nothing changes. */
    method UserLoginAsWritten(outcome: LoginOutcome) returns (r: AuthResult)
      modifies this
      ensures r == AuthResult(false, Some("User login failed"))
      ensures storage == old(storage) && user == old(user) && redirects == old(redirects)
      ensures loading == old(loading)
    {
      r := Login(ThroughUserAuth(UserAuthExported, outcome), UserKey, "user", "User login failed");
    }

    /** `logout`: both tokens removed, no session. */
    method Logout()
      modifies this
      ensures storage == old(storage) - {AdminKey, UserKey} && user == None
      ensures loading == old(loading) && redirects == old(redirects)
    {
      storage := storage - {AdminKey, UserKey};
      user := None;
    }

    /** `isAuthenticated: !!user`. */
    function IsAuthenticated(): (b: bool)
      reads this
      ensures b <==> user.Some?
    {
      user.Some?
    }

    /** `role: user?.role || null`. */
    function Role(): (r: Option<string>)
      reads this
      ensures user.None? ==> r == None
      ensures user.Some? && user.value.role != "" ==> r == Some(user.value.role)
    {
      if user.Some? && user.value.role != "" then Some(user.value.role) else None
    }
  }

  /** A reload after an admin login restores that session. */
  lemma ReloadAfterAdminLogin(storage: map<string, string>, token: string)
    requires token != ""
    ensures SessionFrom(storage[AdminKey := token]) == Some(User(token, "admin"))
  {
  }

  /** A reload after a user login restores it only when no admin token is
      stored; otherwise the admin session comes back instead. */
  lemma ReloadAfterUserLogin(storage: map<string, string>, token: string)
    requires token != ""
    ensures !HasToken(storage, AdminKey) ==> SessionFrom(storage[UserKey := token]) == Some(User(token, "user"))
    ensures HasToken(storage, AdminKey) ==> SessionFrom(storage[UserKey := token]) == Some(User(storage[AdminKey], "admin"))
  {
  }

  /** After a logout a reload finds no session. */
  lemma ReloadAfterLogout(storage: map<string, string>)
    ensures SessionFrom(storage - {AdminKey, UserKey}) == None
  {
  }

  /** A reload after a 401 rejection finds no admin session: a stored user
      token is restored, otherwise there is none. */
  lemma ReloadAfterUnauthorized(storage: map<string, string>)
    ensures var s := SessionFrom(AfterRejection(storage, Some(401)));
      && (s.Some? ==> s.value.role == "user")
      && (HasToken(storage, UserKey) ==> s == Some(User(storage[UserKey], "user")))
      && (!HasToken(storage, UserKey) ==> s == None)
  {
  }

  /** As written, no user login succeeds: every outcome of the server is
      replaced by the `TypeError` of calling through `undefined`. */
  lemma UserLoginNeverIssued(outcome: LoginOutcome)
    ensures ThroughUserAuth(UserAuthExported, outcome).Refused?
    ensures TextOr(ThroughUserAuth(UserAuthExported, outcome).serverMsg, "User login failed") == "User login failed"
  {
  }

  /** As written, no registration succeeds and every failure reads
      "Registration failed", whatever the server would have answered. */
  lemma RegisterNeverSucceeds(outcome: RegisterOutcome)
    ensures RegisterResult(RegisterThroughUserAuth(UserAuthExported, outcome)) == AuthResult(false, Some("Registration failed"))
  {
  }
}
