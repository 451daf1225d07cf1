/** The admin document (backend/models/Admin.js). */
module AdminSchema {
  import opened Common
  import opened Text

  datatype Admin = Admin(
    id: Id,
    email: string,
    passwordHash: string,
    role: string,
    name: Option<string>,
    createdAt: int)

  const DefaultRole := "admin"

  /** What `save()` validates: `email` and `passwordHash` are required
      (non-empty). Uniqueness is a property of the collection (see
      `AdminStore.Valid`). */
  predicate Conforms(a: Admin) {
    a.email != "" && a.passwordHash != ""
  }

  /** `new Admin({email, passwordHash, name})`: the `lowercase` setter
      lower-cases the email; the schema supplies `role` and `createdAt`. */
  function NewAdmin(id: Id, email: string, passwordHash: string, name: Option<string>, now: int): Admin {
    Admin(id, Lower(email), passwordHash, DefaultRole, name, now)
  }

  /** A fresh admin has role `admin`, its email stored lower-cased (and so
      unchanged by a second lower-casing), and the creation time. */
  lemma NewAdminDefaults(id: Id, email: string, passwordHash: string, name: Option<string>, now: int)
    ensures var a := NewAdmin(id, email, passwordHash, name, now);
      && a.role == "admin" && a.createdAt == now && a.passwordHash == passwordHash
      && a.email == Lower(email) && Lower(a.email) == a.email
      && (Conforms(a) <==> email != "" && passwordHash != "")
  {
    LowerIdempotent(email);
  }
}
