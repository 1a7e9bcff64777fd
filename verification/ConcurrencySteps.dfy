/** What the steps around provisioning do to the tables, row by row and column by column. */
module ConcurrencySteps {
  import opened Text
  import opened Directory
  import opened Provisioning
  import opened Concurrency

  /** At most the user row `u`, the tenant row `t` or the membership row `m` differs or is new. */
  ghost predicate OnlyRow(d: Tables, e: Tables, u: set<Uuid>, t: set<Uuid>, m: set<Uuid>)
  {
    && e.users.Keys == d.users.Keys + u && e.tenants.Keys == d.tenants.Keys + t && e.members.Keys == d.members.Keys + m
    && (forall v :: v in d.users && v !in u ==> e.users[v] == d.users[v])
    && (forall v :: v in d.tenants && v !in t ==> e.tenants[v] == d.tenants[v])
    && (forall v :: v in d.members && v !in m ==> e.members[v] == d.members[v])
  }

  /** Enabling and disabling sets one status, and a rename one name. */
  lemma StatusStepsWrite(s: State, a: Action)
    requires Enabled(s, a) && (a.SetUser? || a.SetTenant? || a.SetMember? || a.Rename?)
    ensures var d, e := s.db, Apply(s, a).db;
            && e.allow == d.allow && Apply(s, a).calls == s.calls
            && match a
               case SetUser(u, b) =>
                 && OnlyRow(d, e, {u}, {}, {})
                 && e.users[u] == User(d.users[u].email, d.users[u].norm, d.users[u].subject, b)
               case SetTenant(t, b) =>
                 && OnlyRow(d, e, {}, {t}, {})
                 && e.tenants[t] == Tenant(d.tenants[t].name, d.tenants[t].kind, d.tenants[t].owner, b)
               case SetMember(m, b) =>
                 && OnlyRow(d, e, {}, {}, {m})
                 && e.members[m] == Membership(d.members[m].user, d.members[m].tenant, d.members[m].role, b)
               case Rename(t, name) =>
                 && OnlyRow(d, e, {}, {t}, {})
                 && e.tenants[t] == Tenant(name, d.tenants[t].kind, d.tenants[t].owner, d.tenants[t].active)
               case _ => false
  {
  }

  /** The administrator's inserts add one active row: a user without a subject, a team tenant, a
      membership. */
  lemma InsertStepsWrite(s: State, a: Action)
    requires Enabled(s, a) && (a.AddUser? || a.AddTeam? || a.AddMember?)
    ensures var d, e := s.db, Apply(s, a).db;
            && e.allow == d.allow && Apply(s, a).calls == s.calls
            && match a
               case AddUser(u, address) =>
                 && u !in d.users && OnlyRow(d, e, {u}, {}, {})
                 && e.users[u] == User(address, Normalize(address), None, true)
               case AddTeam(t, owner, name) =>
                 t !in d.tenants && OnlyRow(d, e, {}, {t}, {}) && e.tenants[t] == Tenant(name, Team, owner, true)
               case AddMember(m, u, t, role) =>
                 m !in d.members && OnlyRow(d, e, {}, {}, {m}) && e.members[m] == Membership(u, t, role, true)
               case _ => false
  {
  }

  /** The remaining steps outside provisioning: the allowlist gains or loses one normal form, the binding
      script does what it decides, and a crash ends its call and leaves the tables alone. */
  lemma OtherStepsWrite(s: State, a: Action)
    requires Enabled(s, a) && (a.Allow? || a.Disallow? || a.Bind? || a.Crash?)
    ensures var t := Apply(s, a);
            match a
            case Allow(e) => t == s.(db := s.db.(allow := s.db.allow + {Normalize(e)}))
            case Disallow(e) => t == s.(db := s.db.(allow := s.db.allow - {Normalize(e)}))
            case Bind(e, x) => t == s.(db := AfterBinding(s.db, e, x))
            case Crash(i) =>
              && t.db == s.db && t.calls.Keys == s.calls.Keys && t.calls[i].pc == Failed(Interrupted)
              && t.calls[i].lockUser == None && t.calls[i].lockTenant == None && t.calls[i].lockMember == None
              && forall j :: j in s.calls && j != i ==> t.calls[j] == s.calls[j]
            case _ => false
  {
  }
}
