/** The four identity tables of migration 0002, their constraints, and the pure queries over them. */
module Directory {
  import opened Text

  type Uuid = nat

  datatype Option<+T> = None | Some(value: T)

  datatype Kind = Personal | Team

  datatype Role = Owner | Member

  /** `norm` is the stored generated column `email_normalized`. */
  datatype User = User(email: string, norm: string, subject: Option<string>, active: bool)

  datatype Tenant = Tenant(name: string, kind: Kind, owner: Uuid, active: bool)

  datatype Membership = Membership(user: Uuid, tenant: Uuid, role: Role, active: bool)

  /** `allow` holds the `email_normalized` values of `signup_allowlist`. */
  datatype Tables = Tables(
    allow: set<string>,
    users: map<Uuid, User>,
    tenants: map<Uuid, Tenant>,
    members: map<Uuid, Membership>)

  // ---- Constraints -------------------------------------------------------

  /** `email_normalized` is GENERATED ALWAYS AS (lower(btrim(email))). */
  ghost predicate GeneratedColumns(users: map<Uuid, User>)
  {
    forall u :: u in users ==> users[u].norm == Normalize(users[u].email)
  }

  /** uq_users_email_normalized */
  ghost predicate UniqueEmails(users: map<Uuid, User>)
  {
    forall u, v :: u in users && v in users && users[u].norm == users[v].norm ==> u == v
  }

  /** uq_users_external_id; NULLs never collide. */
  ghost predicate UniqueSubjects(users: map<Uuid, User>)
  {
    forall u, v :: u in users && v in users && users[u].subject.Some?
                   && users[u].subject == users[v].subject
      ==> u == v
  }

  predicate IsPersonal(t: Tenant, u: Uuid)
  {
    t.kind == Personal && t.owner == u
  }

  /** uq_tenants_personal_owner */
  ghost predicate OnePersonalTenant(tenants: map<Uuid, Tenant>)
  {
    forall s, t :: s in tenants && t in tenants && tenants[s].kind == Personal
                   && IsPersonal(tenants[t], tenants[s].owner)
      ==> s == t
  }

  predicate Links(m: Membership, u: Uuid, t: Uuid)
  {
    m.user == u && m.tenant == t
  }

  /** uq_memberships_user_id_tenant_id */
  ghost predicate UniqueLinks(members: map<Uuid, Membership>)
  {
    forall m, n :: m in members && n in members
                   && Links(members[n], members[m].user, members[m].tenant)
      ==> m == n
  }

  ghost predicate ForeignKeys(db: Tables)
  {
    && (forall t :: t in db.tenants ==> db.tenants[t].owner in db.users)
    && (forall m :: m in db.members ==> db.members[m].user in db.users && db.members[m].tenant in db.tenants)
  }

  /** Every key the migration declares. */
  ghost predicate Valid(db: Tables)
  {
    && UniqueEmails(db.users)
    && UniqueSubjects(db.users)
    && OnePersonalTenant(db.tenants)
    && UniqueLinks(db.members)
    && ForeignKeys(db)
  }

  // ---- Exact-key lookups ---------------------------------------------------

  ghost function BySubject(users: map<Uuid, User>, s: string): (r: Option<Uuid>)
    ensures r.Some? ==> r.value in users && users[r.value].subject == Some(s)
    ensures r.None? ==> forall u :: u in users ==> users[u].subject != Some(s)
  {
    if exists u :: u in users && users[u].subject == Some(s)
    then var u :| u in users && users[u].subject == Some(s); Some(u)
    else None
  }

  ghost function ByEmail(users: map<Uuid, User>, e: string): (r: Option<Uuid>)
    ensures r.Some? ==> r.value in users && users[r.value].norm == e
    ensures r.None? ==> forall u :: u in users ==> users[u].norm != e
  {
    if exists u :: u in users && users[u].norm == e
    then var u :| u in users && users[u].norm == e; Some(u)
    else None
  }

  ghost function PersonalOf(tenants: map<Uuid, Tenant>, u: Uuid): (r: Option<Uuid>)
    ensures r.Some? ==> r.value in tenants && IsPersonal(tenants[r.value], u)
    ensures r.None? ==> forall t :: t in tenants ==> !IsPersonal(tenants[t], u)
  {
    if exists t :: t in tenants && IsPersonal(tenants[t], u)
    then var t :| t in tenants && IsPersonal(tenants[t], u); Some(t)
    else None
  }

  ghost function LinkOf(members: map<Uuid, Membership>, u: Uuid, t: Uuid): (r: Option<Uuid>)
    ensures r.Some? ==> r.value in members && Links(members[r.value], u, t)
    ensures r.None? ==> forall m :: m in members ==> !Links(members[m], u, t)
  {
    if exists m :: m in members && Links(members[m], u, t)
    then var m :| m in members && Links(members[m], u, t); Some(m)
    else None
  }

  // ---- The read side of the bootstrap surface -------------------------------

  /** `app.signup_allowed` */
  predicate SignupAllowed(allow: set<string>, email: string)
  {
    Normalize(email) in allow
  }

  /** The three status checks of `app.resolve_membership` and `app.list_memberships` on one row. */
  predicate Usable(db: Tables, m: Uuid)
  {
    && m in db.members
    && db.members[m].active
    && db.members[m].user in db.users && db.users[db.members[m].user].active
    && db.members[m].tenant in db.tenants && db.tenants[db.members[m].tenant].active
  }

  /** `app.resolve_membership`: the id of the row it returns, if any. */
  ghost function ResolveMembership(db: Tables, u: Uuid, t: Uuid): (r: Option<Uuid>)
  {
    var link := LinkOf(db.members, u, t);
    if link.Some? && Usable(db, link.value) then link else None
  }

  /** A membership resolves if and only if it links the two and all three rows are active. */
  lemma ResolvesIff(db: Tables, u: Uuid, t: Uuid, m: Uuid)
    requires Valid(db)
    ensures ResolveMembership(db, u, t) == Some(m) <==>
              && m in db.members && db.members[m].user == u && db.members[m].tenant == t && db.members[m].active
              && u in db.users && db.users[u].active
              && t in db.tenants && db.tenants[t].active
  {
    if m in db.members && Links(db.members[m], u, t) {
      assert LinkOf(db.members, u, t) == Some(m);
    }
  }
}
