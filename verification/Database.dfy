/** The transactions that write the identity tables, statement by statement: the PL/pgSQL bodies of
    migrations 0004 and 0003 and the administrative binding script. */
module DatabaseModel {
  import opened Text
  import opened Directory
  import opened Provisioning

  class Database {
    var allow: set<string>
    var users: map<Uuid, User>
    var tenants: map<Uuid, Tenant>
    var members: map<Uuid, Membership>

    ghost function Contents(): Tables
      reads this
    {
      Tables(allow, users, tenants, members)
    }

    // ---- Exact-key reads: at most one row by the unique keys ----

    method SelectBySubject(s: string) returns (r: Option<Uuid>)
      requires UniqueSubjects(users)
      ensures r == BySubject(users, s)
    {
      if u :| u in users && users[u].subject == Some(s) {
        return Some(u);
      }
      return None;
    }

    method SelectByEmail(e: string) returns (r: Option<Uuid>)
      requires UniqueEmails(users)
      ensures r == ByEmail(users, e)
    {
      if u :| u in users && users[u].norm == e {
        return Some(u);
      }
      return None;
    }

    /** INSERT INTO tenants ... ON CONFLICT (owner_user_id) WHERE kind = 'personal' DO UPDATE;
        `created` is the `xmax = 0` test, true exactly for a row inserted by this statement. */
    method UpsertPersonalTenant(name: string, u: Uuid, newId: Uuid) returns (t: Uuid, created: bool)
      requires OnePersonalTenant(tenants) && newId !in tenants
      modifies this`tenants
      ensures created == PersonalOf(old(tenants), u).None?
      ensures t == if created then newId else PersonalOf(old(tenants), u).value
      ensures tenants == TenantsAfter(old(tenants), name, u, t)
    {
      if s :| s in tenants && IsPersonal(tenants[s], u) {
        return s, false;
      }
      tenants := tenants[newId := Tenant(name, Personal, u, true)];
      return newId, true;
    }

    /** INSERT INTO memberships ... ON CONFLICT (user_id, tenant_id) DO UPDATE */
    method UpsertOwner(u: Uuid, t: Uuid, newId: Uuid) returns (m: Uuid)
      requires UniqueLinks(members) && newId !in members
      modifies this`members
      ensures var link := LinkOf(old(members), u, t); m == if link.None? then newId else link.value
      ensures members == MembersAfter(old(members), u, t, m)
    {
      if n :| n in members && Links(members[n], u, t) {
        return n;
      }
      members := members[newId := Membership(u, t, Owner, true)];
      return newId;
    }

    // ---- Migration 0004 ----

    /** Lines 91-155: find the row of the subject and perhaps move its address, or insert a new row. */
    method ResolveUser(r: Request, newId: Uuid) returns (u: Uuid, why: Option<Refusal>)
      requires UniqueEmails(users) && UniqueSubjects(users) && newId !in users && r.subject.Some?
      modifies this`users
      ensures why == UserRefusal(old(users), r)
      ensures var found := BySubject(old(users), r.subject.value);
              u == if found.Some? then found.value else newId
      ensures why.None? ==> users == UsersAfter(old(users), r, u)
    {
      var status := true;
      var found := SelectBySubject(r.subject.value);
      if found.Some? {
        u := found.value;
        status := users[u].active;
        if users[u].norm != r.norm {
          if v :| v in users && v != u && users[v].norm == r.norm {
            return u, Some(EmailConflict);
          }
          users := users[u := users[u].(email := r.email, norm := r.norm)];
        }
      } else {
        u := newId;
        var other := SelectByEmail(r.norm);
        if other.Some? {
          return u, Some(if users[other.value].subject.None? then BindingRequired else SubjectConflict);
        }
        users := users[u := NewUser(r)];
      }
      return u, if status then None else Some(Disabled);
    }

    /** The function body. A refusal may leave writes behind; undoing them is the transaction's job. */
    method ProvisionBody(a: Args, ids: Ids) returns (o: Outcome)
      requires Valid(Contents()) && Fresh(Contents(), ids)
      modifies this`users, this`tenants, this`members
      ensures o == Decide(old(Contents()), a, ids)
      ensures o.Accepted? ==> Contents() == After(old(Contents()), a, ids)
    {
      var p := Parse(a);
      if p.Bad? {
        return Refused(p.why);
      }
      var r := p.req;
      if !SignupAllowed(allow, r.norm) {
        return Refused(NotAllowed);
      }
      var u, why := ResolveUser(r, ids.user);
      if why.Some? {
        return Refused(why.value);
      }
      var t, created := UpsertPersonalTenant(r.name, u, ids.tenant);
      if !tenants[t].active {
        return Refused(Disabled);
      }
      var m := UpsertOwner(u, t, ids.member);
      if !members[m].active {
        return Refused(Disabled);
      }
      return Accepted(u, t, m, created);
    }

    /** One call in its own transaction: any raise rolls every table back. */
    method Provision(a: Args, ids: Ids) returns (o: Outcome)
      requires Valid(Contents()) && Fresh(Contents(), ids)
      modifies this`users, this`tenants, this`members
      ensures o == Decide(old(Contents()), a, ids)
      ensures Contents() == After(old(Contents()), a, ids)
      ensures o.Refused? ==> Contents() == old(Contents())
    {
      var users0, tenants0, members0 := users, tenants, members;
      o := ProvisionBody(a, ids);
      if o.Refused? {
        users, tenants, members := users0, tenants0, members0;
      }
    }

    // ---- Migration 0003 ----

    method ResolveUserLegacy(r: Request, newId: Uuid) returns (u: Uuid, why: Option<Refusal>)
      requires UniqueEmails(users) && UniqueSubjects(users) && newId !in users
      modifies this`users
      ensures why == UserRefusalLegacy(old(users), r)
      ensures var found := LegacyMatch(old(users), r); u == if found.Some? then found.value else newId
      ensures why.None? ==> users == UsersAfterLegacy(old(users), r, u)
    {
      var status := true;
      var found := None;
      if r.subject.Some? {
        found := SelectBySubject(r.subject.value);
      }
      if found.Some? {
        u := found.value;
        status := users[u].active;
        if users[u].norm != r.norm {
          if v :| v in users && v != u && users[v].norm == r.norm {
            return u, Some(EmailConflict);
          }
          users := users[u := users[u].(email := r.email, norm := r.norm)];
        }
      } else {
        var other := SelectByEmail(r.norm);
        if other.None? {
          u := newId;
          users := users[u := NewUser(r)];
        } else {
          u := other.value;
          status := users[u].active;
          if r.subject.Some? && users[u].subject.Some? && users[u].subject != r.subject {
            return u, Some(SubjectConflict);
          } else if users[u].subject.None? && r.subject.Some? {
            users := users[u := users[u].(subject := r.subject)];
          }
        }
      }
      return u, if status then None else Some(Disabled);
    }

    method ProvisionLegacyBody(a: Args, ids: Ids) returns (o: Outcome)
      requires Valid(Contents()) && Fresh(Contents(), ids)
      modifies this`users, this`tenants, this`members
      ensures o == DecideLegacy(old(Contents()), a, ids)
      ensures o.Accepted? ==> Contents() == AfterLegacy(old(Contents()), a, ids)
    {
      var p := ParseLegacy(a);
      if p.Bad? {
        return Refused(p.why);
      }
      var r := p.req;
      if !SignupAllowed(allow, r.norm) {
        return Refused(NotAllowed);
      }
      var u, why := ResolveUserLegacy(r, ids.user);
      if why.Some? {
        return Refused(why.value);
      }
      var t, created := UpsertPersonalTenant(r.name, u, ids.tenant);
      var m := UpsertOwner(u, t, ids.member);
      return Accepted(u, t, m, created);
    }

    method ProvisionLegacy(a: Args, ids: Ids) returns (o: Outcome)
      requires Valid(Contents()) && Fresh(Contents(), ids)
      modifies this`users, this`tenants, this`members
      ensures o == DecideLegacy(old(Contents()), a, ids)
      ensures Contents() == AfterLegacy(old(Contents()), a, ids)
      ensures o.Refused? ==> Contents() == old(Contents())
    {
      var users0, tenants0, members0 := users, tenants, members;
      o := ProvisionLegacyBody(a, ids);
      if o.Refused? {
        users, tenants, members := users0, tenants0, members0;
      }
    }

    // ---- infra/bind-subject.sql ----

    method BindSubject(email: string, subject: string) returns (b: Binding)
      requires Valid(Contents())
      modifies this`users
      ensures b == DecideBinding(old(Contents()), email, subject)
      ensures Contents() == AfterBinding(old(Contents()), email, subject)
    {
      if Normalize(email) == "" {
        return NoEmail;
      }
      var s := Trim(Btrim, subject);
      if s == "" {
        return NoSubject;
      }
      var u := SelectByEmail(Normalize(email));
      if u.None? {
        return NoUser;
      }
      if users[u.value].subject.Some? {
        return AlreadyBound;
      }
      if v :| v in users && users[v].subject == Some(s) {
        return SubjectTaken;
      }
      users := users[u.value := users[u.value].(subject := Some(s))];
      return Bound(u.value);
    }
  }
}
