/** The row-level security policies of migration 0002 and what the repository statements return
    under them, for the runtime role. */
module RowSecurity {
  import opened Directory

  datatype TenantRecord = TenantRecord(id: Uuid, name: string, kind: Kind, owner: Uuid, active: bool)

  datatype MemberRecord = MemberRecord(user: Uuid, email: string, role: Role, active: bool)

  datatype Op = GetTenant | ListMembers | RenameTenant(name: string)

  datatype Reply =
    | TenantRow(row: Option<TenantRecord>)
    | MemberRows(rows: set<MemberRecord>)
    | Renamed(hit: bool)

  // ---- Policies; `setting` is app.current_tenant_id(), and NULL equals nothing ----

  predicate TenantsSelect(setting: Option<Uuid>, id: Uuid)
  {
    setting == Some(id)
  }

  predicate TenantsUpdate(setting: Option<Uuid>, id: Uuid, row: Tenant)
  {
    setting == Some(id) && row.active
  }

  predicate MembershipsSelect(setting: Option<Uuid>, row: Membership)
  {
    setting == Some(row.tenant)
  }

  predicate UsersSelect(setting: Option<Uuid>, members: map<Uuid, Membership>, u: Uuid)
  {
    exists m :: m in members && members[m].user == u && MembershipsSelect(setting, members[m]) && members[m].active
  }

  // ---- Statements; none of them names a tenant ---------------------------------

  function ToRecord(id: Uuid, row: Tenant): TenantRecord
  {
    TenantRecord(id, row.name, row.kind, row.owner, row.active)
  }

  /** select(Tenant...).first() */
  ghost function ReadTenant(db: Tables, setting: Option<Uuid>): Option<TenantRecord>
  {
    if exists t :: t in db.tenants && TenantsSelect(setting, t)
    then var t :| t in db.tenants && TenantsSelect(setting, t); Some(ToRecord(t, db.tenants[t]))
    else None
  }

  /** The membership rows that survive both policies and the join. */
  predicate Listed(db: Tables, setting: Option<Uuid>, m: Uuid)
  {
    && m in db.members && MembershipsSelect(setting, db.members[m])
    && db.members[m].user in db.users && UsersSelect(setting, db.members, db.members[m].user)
  }

  function ToMember(db: Tables, m: Uuid): MemberRecord
    requires m in db.members && db.members[m].user in db.users
  {
    var row := db.members[m];
    MemberRecord(row.user, db.users[row.user].email, row.role, row.active)
  }

  /** select(Membership..., User.email).join(User); the order by email is not modelled. */
  function ReadMembers(db: Tables, setting: Option<Uuid>): set<MemberRecord>
  {
    set m | m in db.members && Listed(db, setting, m) :: ToMember(db, m)
  }

  /** update(Tenant).values(name=...), unfiltered. */
  function WriteName(db: Tables, setting: Option<Uuid>, name: string): Tables
  {
    db.(tenants := map t | t in db.tenants ::
      if TenantsUpdate(setting, t, db.tenants[t]) then db.tenants[t].(name := name) else db.tenants[t])
  }

  predicate Renames(db: Tables, setting: Option<Uuid>)
  {
    exists t :: t in db.tenants && TenantsUpdate(setting, t, db.tenants[t])
  }

  // ---- What a tenant can see -------------------------------------------------------

  /** The two databases hold the same tenant row `x`, the same memberships of `x`, and the same user
      rows behind those memberships. They may differ in anything else. */
  ghost predicate Agree(x: Uuid, d: Tables, e: Tables)
  {
    && (x in d.tenants <==> x in e.tenants)
    && (x in d.tenants ==> d.tenants[x] == e.tenants[x])
    && (forall m :: m in d.members && d.members[m].tenant == x ==>
          && m in e.members && e.members[m] == d.members[m]
          && (d.members[m].user in d.users <==> d.members[m].user in e.users)
          && (d.members[m].user in d.users ==> d.users[d.members[m].user] == e.users[d.members[m].user]))
    && (forall m :: m in e.members && e.members[m].tenant == x ==> m in d.members && d.members[m] == e.members[m])
  }

  lemma AgreeTransitive(x: Uuid, d: Tables, e: Tables, f: Tables)
    requires Agree(x, d, e) && Agree(x, e, f)
    ensures Agree(x, d, f)
  {
  }

  /** Under the setting `x` every statement depends on the rows of `x` alone. */
  lemma ReadsOnlyOwnRows(x: Uuid, d: Tables, e: Tables)
    requires Agree(x, d, e)
    ensures ReadTenant(d, Some(x)) == ReadTenant(e, Some(x))
    ensures ReadMembers(d, Some(x)) == ReadMembers(e, Some(x))
    ensures Renames(d, Some(x)) <==> Renames(e, Some(x))
  {
    forall m ensures Listed(d, Some(x), m) <==> Listed(e, Some(x), m) {
      if m in d.members && d.members[m].tenant == x {
        UsersVisibleAlike(x, d, e, d.members[m].user);
      }
    }
  }

  lemma UsersVisibleAlike(x: Uuid, d: Tables, e: Tables, u: Uuid)
    requires Agree(x, d, e)
    ensures UsersSelect(Some(x), d.members, u) <==> UsersSelect(Some(x), e.members, u)
  {
  }

  lemma WritesOnlyOwnRow(x: Uuid, setting: Option<Uuid>, d: Tables, e: Tables, name: string)
    requires Agree(x, d, e)
    ensures setting == Some(x) ==> Agree(x, WriteName(d, setting, name), WriteName(e, setting, name))
    ensures setting != Some(x) ==> Agree(x, WriteName(d, setting, name), e)
  {
  }

  /** `list_members` is exactly the active memberships of the current tenant: the users policy asks for
      an active membership, and the (user, tenant) key leaves no other row to provide one. */
  lemma ListsExactlyActive(db: Tables, x: Uuid, m: Uuid)
    requires Valid(db)
    ensures Listed(db, Some(x), m) <==> m in db.members && db.members[m].tenant == x && db.members[m].active
  {
    if m in db.members && db.members[m].tenant == x {
      assert forall n :: n in db.members && Links(db.members[n], db.members[m].user, x) ==> n == m;
    }
  }

  // ---- What is returned, field by field -------------------------------------------------

  /** `get_tenant` under the setting `x` returns the row of `x`, column by column, if it is there, and
      without a setting nothing. */
  lemma TenantFields(db: Tables, x: Uuid)
    ensures var row := ReadTenant(db, Some(x));
            && (row.Some? <==> x in db.tenants)
            && (row.Some? ==>
                  && row.value.id == x && row.value.name == db.tenants[x].name && row.value.kind == db.tenants[x].kind
                  && row.value.owner == db.tenants[x].owner && row.value.active == db.tenants[x].active)
    ensures ReadTenant(db, None) == None
  {
  }

  /** The listing of the tenant `x` holds a record if and only if an active membership of `x` has its
      user, its role and an active status, and the record carries that user's address. */
  lemma MemberFields(db: Tables, x: Uuid, r: MemberRecord)
    requires Valid(db)
    ensures r in ReadMembers(db, Some(x)) <==>
              exists m :: m in db.members && db.members[m].tenant == x && db.members[m].active
                          && r.user == db.members[m].user && r.role == db.members[m].role && r.active
                          && r.email == db.users[db.members[m].user].email
    ensures r !in ReadMembers(db, None)
  {
    forall m ensures Listed(db, Some(x), m) <==> m in db.members && db.members[m].tenant == x && db.members[m].active {
      ListsExactlyActive(db, x, m);
    }
    if m :| m in db.members && db.members[m].tenant == x && db.members[m].active
            && r.user == db.members[m].user && r.role == db.members[m].role && r.active
            && r.email == db.users[db.members[m].user].email
    {
      assert ToMember(db, m) == r;
    }
  }

  /** The unfiltered rename under the setting `x` writes the name of `x`, if that is there and active, and
      no other column or row; it reports whether there was such a row. Without a setting it writes
      nothing. */
  lemma RenameFields(db: Tables, x: Uuid, name: string)
    ensures Renames(db, Some(x)) <==> x in db.tenants && db.tenants[x].active
    ensures WriteName(db, Some(x), name) ==
              if x in db.tenants && db.tenants[x].active
              then db.(tenants := db.tenants[x := Tenant(name, db.tenants[x].kind, db.tenants[x].owner, true)])
              else db
    ensures !Renames(db, None) && WriteName(db, None, name) == db
  {
    assert WriteName(db, None, name).tenants == db.tenants;
    if x in db.tenants && db.tenants[x].active {
      assert WriteName(db, Some(x), name).tenants
          == db.tenants[x := Tenant(name, db.tenants[x].kind, db.tenants[x].owner, true)];
    } else {
      assert WriteName(db, Some(x), name).tenants == db.tenants;
    }
  }
}
