/** The admin handlers (backend/controllers/adminController.js): register
    an admin once per email, log in with email and password. bcrypt and
    jsonwebtoken are the function parameters `hash`, `verify` and `sign`. */
module AdminController {
  import opened Common
  import opened Text
  import opened AdminSchema

  datatype RegisterRequest = RegisterRequest(email: Option<string>, password: Option<string>, name: Option<string>)

  /** `{ok: true, admin: {id, email}}`: nothing else about the admin is sent. */
  datatype Registered = Registered(ok: bool, id: Id, email: string)

  /** The signed payload `{id, email, role}`. */
  datatype Claims = Claims(id: Id, email: string, role: string)

  datatype Token = Token(token: string)

  const Expiry := "7d"

  /** `Admin.findOne({email})`; the schema's `lowercase` setter casts the
      filter value too. The lowest id whose email matches, if any. */
  function FindByEmail(admins: map<Id, Admin>, n: nat, email: string): (r: Option<Admin>)
    ensures r.Some? ==>
      && r.value in admins.Values && r.value.email == Lower(email)
      && exists k :: 0 <= k < n && k in admins && admins[k] == r.value
    ensures r.None? ==> forall k :: 0 <= k < n && k in admins ==> admins[k].email != Lower(email)
  {
    if n == 0 then None
    else
      match FindByEmail(admins, n - 1, email)
      case Some(a) => Some(a)
      case None =>
        if n - 1 in admins && admins[n - 1].email == Lower(email) then Some(admins[n - 1]) else None
  }

  /** An insertion above every searched id does not change earlier lookups. */
  lemma {:induction false} FindFrame(admins: map<Id, Admin>, n: nat, m: nat, a: Admin, email: string)
    requires n <= m
    ensures FindByEmail(admins[m := a], n, email) == FindByEmail(admins, n, email)
  {
    if n > 0 {
      FindFrame(admins, n - 1, m, a, email);
    }
  }

  /** After inserting `a` at id `n`, a lookup finds the earlier match, else
      `a` when its email matches. */
  lemma FindInsert(admins: map<Id, Admin>, n: nat, a: Admin, email: string)
    ensures FindByEmail(admins[n := a], n + 1, email) ==
      match FindByEmail(admins, n, email)
      case Some(b) => Some(b)
      case None => if a.email == Lower(email) then Some(a) else None
  {
    FindFrame(admins, n, n, a, email);
  }

  /** The login decision once the lookup is done: the same 401 for an unknown
      email and for a wrong password; otherwise a token signed over
      `{id, email, role}` expiring in seven days. */
  function LoginWith(found: Option<Admin>, password: string,
                     verify: (string, string) -> bool, sign: (Claims, string) -> string): (reply: Reply<Token>)
    ensures found.None? ==> reply == Reply(401, Msg("Invalid credentials"))
    ensures found.Some? && !verify(password, found.value.passwordHash) ==> reply == Reply(401, Msg("Invalid credentials"))
    ensures found.Some? && verify(password, found.value.passwordHash) ==>
      reply == Reply(200, Data(Token(sign(Claims(found.value.id, found.value.email, found.value.role), Expiry))))
  {
    match found
    case None => Reply(401, Msg("Invalid credentials"))
    case Some(a) =>
      if !verify(password, a.passwordHash) then Reply(401, Msg("Invalid credentials"))
      else Reply(200, Data(Token(sign(Claims(a.id, a.email, a.role), Expiry))))
  }

  /** An unknown email and a wrong password cannot be told apart. */
  lemma LoginFailuresAlike(a: Admin, password: string, verify: (string, string) -> bool, sign: (Claims, string) -> string)
    requires !verify(password, a.passwordHash)
    ensures LoginWith(None, password, verify, sign) == LoginWith(Some(a), password, verify, sign)
    ensures LoginWith(None, password, verify, sign).status == 401
  {
  }

  class AdminStore {
    var records: map<Id, Admin>
    var nextId: Id

    /** Ids below `nextId`; every stored email is lower-case and no two
        admins share one (the `unique` index). */
    ghost predicate Valid()
      reads this
    {
      && (forall k :: k in records ==>
            && k < nextId && records[k].id == k && Conforms(records[k])
            && Lower(records[k].email) == records[k].email)
      && (forall i, j :: i in records && j in records && i != j ==> records[i].email != records[j].email)
    }

    constructor ()
      ensures Valid() && records == map[] && nextId == 0
    {
      records := map[];
      nextId := 0;
    }

    /** POST /admin/register. A falsy email or password is a 400; an email
        already stored (after lower-casing) is a 400 `Admin exists`; a record
        failing the schema is the generic 500; in all three cases nothing is
        stored. Otherwise the admin is stored with `hash(password)`, never
        the password, and only its id and email are sent back. */
    method Register(req: RegisterRequest, hash: string -> string, now: int) returns (reply: Reply<Registered>)
      requires Valid()
      modifies this
      ensures Valid()
      ensures !(TruthyText(req.email) && TruthyText(req.password)) ==>
        reply == Reply(400, Msg("email & password required")) && records == old(records) && nextId == old(nextId)
      ensures TruthyText(req.email) && TruthyText(req.password) && old(FindByEmail(records, nextId, req.email.value)).Some? ==>
        reply == Reply(400, Msg("Admin exists")) && records == old(records) && nextId == old(nextId)
      ensures TruthyText(req.email) && TruthyText(req.password) && old(FindByEmail(records, nextId, req.email.value)).None? ==>
        var a := NewAdmin(old(nextId), req.email.value, hash(req.password.value), req.name, now);
        if !Conforms(a) then
          reply == Reply(500, ServerError) && records == old(records) && nextId == old(nextId)
        else
          && records == old(records)[old(nextId) := a] && nextId == old(nextId) + 1
          && reply == Reply(201, Data(Registered(true, a.id, a.email)))
    {
      if !(TruthyText(req.email) && TruthyText(req.password)) {
        return Reply(400, Msg("email & password required"));
      }
      var existing := FindByEmail(records, nextId, req.email.value);
      if existing.Some? {
        return Reply(400, Msg("Admin exists"));
      }
      var a := NewAdmin(nextId, req.email.value, hash(req.password.value), req.name, now);
      if !Conforms(a) {
        return Reply(500, ServerError);
      }
      LowerIdempotent(req.email.value);
      records := records[nextId := a];
      nextId := nextId + 1;
      reply := Reply(201, Data(Registered(true, a.id, a.email)));
    }

    /** POST /admin/login, read-only. */
    function Login(email: string, password: string,
                   verify: (string, string) -> bool, sign: (Claims, string) -> string): (reply: Reply<Token>)
      reads this
      ensures FindByEmail(records, nextId, email).None? ==> reply == Reply(401, Msg("Invalid credentials"))
      ensures FindByEmail(records, nextId, email).Some? ==>
        var a := FindByEmail(records, nextId, email).value;
        && (verify(password, a.passwordHash) ==> reply.status == 200)
        && (!verify(password, a.passwordHash) ==> reply == Reply(401, Msg("Invalid credentials")))
      ensures reply.status == 200 ==> exists k ::
        && k in records && records[k].email == Lower(email)
        && verify(password, records[k].passwordHash)
        && reply.body == Data(Token(sign(Claims(records[k].id, records[k].email, records[k].role), Expiry)))
    {
      LoginWith(FindByEmail(records, nextId, email), password, verify, sign)
    }
  }

  /** Registering and then logging in with the same password (in any
      letter case of the email) yields a token for the new admin, provided
      `verify` accepts a password against its own hash. */
  lemma RegisterThenLogin(records: map<Id, Admin>, n: nat, email: string, password: string, name: Option<string>,
                          now: int, hash: string -> string, verify: (string, string) -> bool,
                          sign: (Claims, string) -> string, typed: string)
    requires FindByEmail(records, n, email).None?
    requires Lower(typed) == Lower(email)
    requires verify(password, hash(password))
    ensures var a := NewAdmin(n, email, hash(password), name, now);
      LoginWith(FindByEmail(records[n := a], n + 1, typed), password, verify, sign)
        == Reply(200, Data(Token(sign(Claims(n, Lower(email), "admin"), Expiry))))
  {
    var a := NewAdmin(n, email, hash(password), name, now);
    FindInsert(records, n, a, typed);
  }
}
