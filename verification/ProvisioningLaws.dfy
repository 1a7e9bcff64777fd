/** Laws of one provisioning call on its own: when it is accepted, what it may touch, that repeating
    it changes nothing, and how migration 0004 restricts migration 0003. */
module ProvisioningLaws {
  import opened Text
  import opened Directory
  import opened Provisioning

  /** The user, tenant and membership `o` names exist, belong together under the subject, and are active. */
  ghost predicate Granted(db: Tables, subject: Option<string>, o: Outcome)
    requires o.Accepted?
  {
    && o.user in db.users && db.users[o.user].subject == subject && db.users[o.user].active
    && o.tenant in db.tenants && IsPersonal(db.tenants[o.tenant], o.user) && db.tenants[o.tenant].active
    && o.member in db.members && Links(db.members[o.member], o.user, o.tenant) && db.members[o.member].active
  }

  /** Acceptance without any order of checks: nobody else holds the address, and nothing the
      subject already owns is disabled. */
  ghost predicate Acceptable(db: Tables, r: Request)
  {
    && (forall v :: v in db.users && db.users[v].norm == r.norm ==> db.users[v].subject == r.subject)
    && (forall u :: u in db.users && db.users[u].subject == r.subject ==> db.users[u].active)
    && (forall u, t :: u in db.users && db.users[u].subject == r.subject
                       && t in db.tenants && IsPersonal(db.tenants[t], u)
          ==> db.tenants[t].active)
    && (forall u, t, m :: u in db.users && db.users[u].subject == r.subject
                          && t in db.tenants && IsPersonal(db.tenants[t], u)
                          && m in db.members && Links(db.members[m], u, t)
          ==> db.members[m].active)
  }

  lemma VerdictIffAcceptable(db: Tables, r: Request, ids: Ids)
    requires Valid(db) && r.subject.Some?
    ensures Verdict(db, r, ids).Accepted? <==> Acceptable(db, r)
  {
    var found := BySubject(db.users, r.subject.value);
    if found.Some? {
      var u := found.value;
      assert forall v :: v in db.users && db.users[v].subject == r.subject ==> v == u;
      var own := PersonalOf(db.tenants, u);
      if own.Some? {
        assert forall t :: t in db.tenants && IsPersonal(db.tenants[t], u) ==> t == own.value;
        var link := LinkOf(db.members, u, own.value);
        assert link.Some? ==>
            forall m :: m in db.members && Links(db.members[m], u, own.value) ==> m == link.value;
      }
    }
  }

  /** The decision table as one equivalence over every argument and every valid database. */
  lemma DecideIff(db: Tables, a: Args, ids: Ids)
    requires Valid(db)
    ensures Decide(db, a, ids).Accepted? <==>
              && a.email.Some? && Normalize(a.email.value) != ""
              && NullIfBlank(a.subject).Some?
              && Normalize(a.email.value) in db.allow
              && Acceptable(db, ParseLegacy(a).req)
  {
    var p := Parse(a);
    if p.Good? {
      NormalizeTwice(a.email.value);
      VerdictIffAcceptable(db, p.req, ids);
    }
  }

  /** What each refusal tells, without any order of checks. The subject has a row or it has none; a
      conflict or a missing binding is about somebody else's row under the address; "disabled" is about
      what the subject itself owns, and only when nobody else holds the address. */
  lemma RefusalMeaning(db: Tables, r: Request, ids: Ids)
    requires Valid(db) && r.subject.Some?
    ensures var known := exists u :: u in db.users && db.users[u].subject == r.subject;
            var taken := exists v :: v in db.users && db.users[v].norm == r.norm && db.users[v].subject != r.subject;
            var unbound := exists v :: v in db.users && db.users[v].norm == r.norm && db.users[v].subject == None;
            var verdict := Verdict(db, r, ids);
            && (verdict == Refused(EmailConflict) <==> known && taken)
            && (verdict == Refused(BindingRequired) <==> !known && unbound)
            && (verdict == Refused(SubjectConflict) <==> !known && taken && !unbound)
            && (verdict == Refused(Disabled) <==> known && !taken && !Acceptable(db, r))
  {
    VerdictIffAcceptable(db, r, ids);
    var found := BySubject(db.users, r.subject.value);
    if found.Some? {
      RefusalsOfKnown(db, r, ids, found.value);
    }
  }

  lemma RefusalsOfKnown(db: Tables, r: Request, ids: Ids, u: Uuid)
    requires Valid(db) && r.subject.Some? && BySubject(db.users, r.subject.value) == Some(u)
    ensures TakenByAnother(db.users, r.norm, u) <==>
              exists v :: v in db.users && db.users[v].norm == r.norm && db.users[v].subject != r.subject
    ensures var verdict := Verdict(db, r, ids);
            || verdict.Accepted?
            || verdict == Refused(if TakenByAnother(db.users, r.norm, u) then EmailConflict else Disabled)
  {
  }

  // ---- Legal outcomes ----------------------------------------------------------

  /** Nobody else holds the address or the subject, and the row, if there already, is the subject's. */
  ghost predicate LegalUser(users: map<Uuid, User>, r: Request, u: Uuid)
  {
    && (forall v :: v in users && v != u ==> users[v].norm != r.norm && users[v].subject != r.subject)
    && (u in users ==> users[u].subject == r.subject && users[u].active)
  }

  ghost predicate LegalTenant(tenants: map<Uuid, Tenant>, u: Uuid, t: Uuid, created: bool)
  {
    if created then t !in tenants && forall s :: s in tenants ==> !IsPersonal(tenants[s], u)
    else t in tenants && IsPersonal(tenants[t], u) && tenants[t].active
  }

  ghost predicate LegalMember(members: map<Uuid, Membership>, u: Uuid, t: Uuid, m: Uuid)
  {
    if m in members then Links(members[m], u, t) && members[m].active
    else forall n :: n in members ==> !Links(members[n], u, t)
  }

  /** `o` is what an accepted request `r` may return on these tables. */
  ghost predicate Legal(db: Tables, r: Request, o: Outcome)
    requires o.Accepted?
  {
    && r.subject.Some?
    && LegalUser(db.users, r, o.user)
    && LegalTenant(db.tenants, o.user, o.tenant, o.created)
    && LegalMember(db.members, o.user, o.tenant, o.member)
    && (o.user !in db.users ==> o.created)
    && (o.created ==> o.member !in db.members)
  }

  lemma VerdictIsLegal(db: Tables, r: Request, ids: Ids)
    requires Valid(db) && Fresh(db, ids) && r.subject.Some?
    requires Verdict(db, r, ids).Accepted?
    ensures Legal(db, r, Verdict(db, r, ids))
  {
    var o := Verdict(db, r, ids);
    assert LegalUser(db.users, r, o.user);
    assert LegalTenant(db.tenants, o.user, o.tenant, o.created);
    assert LegalMember(db.members, o.user, o.tenant, o.member);
  }

  /** A legal outcome is the one the decision table gives, whenever the ids drawn are those it names. */
  lemma LegalIsVerdict(db: Tables, r: Request, o: Outcome)
    requires Valid(db) && o.Accepted? && Legal(db, r, o)
    ensures Verdict(db, r, Ids(o.user, o.tenant, o.member)) == o
  {
    var found := BySubject(db.users, r.subject.value);
    if o.user in db.users {
      assert found == Some(o.user);
      assert o.created <==> PersonalOf(db.tenants, o.user).None?;
      assert !o.created ==> PersonalOf(db.tenants, o.user) == Some(o.tenant);
      assert LinkOf(db.members, o.user, o.tenant).None? <==> o.member !in db.members;
      assert o.member in db.members ==> LinkOf(db.members, o.user, o.tenant) == Some(o.member);
    } else {
      assert found == None;
      assert ByEmail(db.users, r.norm) == None;
    }
  }

  lemma LegalUsers(users: map<Uuid, User>, r: Request, u: Uuid)
    requires UniqueEmails(users) && UniqueSubjects(users) && r.subject.Some? && LegalUser(users, r, u)
    ensures var d := UsersAfter(users, r, u);
            UniqueEmails(d) && UniqueSubjects(d)
  {
    var d := UsersAfter(users, r, u);
    assert forall v :: v in d && v != u ==> v in users && d[v] == users[v];
  }

  lemma LegalTenants(tenants: map<Uuid, Tenant>, name: string, u: Uuid, t: Uuid, created: bool)
    requires OnePersonalTenant(tenants) && LegalTenant(tenants, u, t, created)
    ensures OnePersonalTenant(TenantsAfter(tenants, name, u, t))
  {
    var d := TenantsAfter(tenants, name, u, t);
    assert forall s :: s in d && s != t ==> s in tenants && d[s] == tenants[s];
  }

  lemma LegalMembers(members: map<Uuid, Membership>, u: Uuid, t: Uuid, m: Uuid)
    requires UniqueLinks(members) && LegalMember(members, u, t, m)
    ensures UniqueLinks(MembersAfter(members, u, t, m))
  {
    var d := MembersAfter(members, u, t, m);
    assert forall n :: n in d && n != m ==> n in members && d[n] == members[n];
  }

  /** Writing a legal outcome keeps every constraint and grants what it names. */
  lemma LegalKeepsValid(db: Tables, r: Request, o: Outcome)
    requires Valid(db) && o.Accepted? && Legal(db, r, o)
    ensures Valid(Post(db, r, o)) && Granted(Post(db, r, o), r.subject, o)
  {
    LegalUsers(db.users, r, o.user);
    LegalTenants(db.tenants, r.name, o.user, o.tenant, o.created);
    LegalMembers(db.members, o.user, o.tenant, o.member);
  }

  /** `v_email` is normal, and is the generated column of the address that gets stored. */
  lemma ParsedNorm(a: Args)
    requires ParseLegacy(a).Good?
    ensures var r := ParseLegacy(a).req; r.norm == Normalize(r.email) == Normalize(r.norm)
  {
    var s := a.email.value;
    TrimIsBare(Btrim, s);
    TrimOfBare(Btrim, Trim(Btrim, s));
    NormalizeTwice(s);
  }

  lemma UsersAfterGenerated(users: map<Uuid, User>, r: Request, u: Uuid)
    requires GeneratedColumns(users) && r.norm == Normalize(r.email)
    ensures GeneratedColumns(UsersAfter(users, r, u))
    ensures GeneratedColumns(UsersAfterLegacy(users, r, u))
  {
  }

  /** The generated column stays what it is generated from, in both versions. */
  lemma ProvisionKeepsGenerated(db: Tables, a: Args, ids: Ids)
    requires GeneratedColumns(db.users)
    ensures GeneratedColumns(After(db, a, ids).users)
    ensures GeneratedColumns(AfterLegacy(db, a, ids).users)
  {
    var o, legacy := Decide(db, a, ids), DecideLegacy(db, a, ids);
    if o.Accepted? {
      ParsedNorm(a);
      UsersAfterGenerated(db.users, Parse(a).req, o.user);
      assert After(db, a, ids).users == UsersAfter(db.users, Parse(a).req, o.user);
    }
    if legacy.Accepted? {
      ParsedNorm(a);
      UsersAfterGenerated(db.users, ParseLegacy(a).req, legacy.user);
      assert AfterLegacy(db, a, ids).users == UsersAfterLegacy(db.users, ParseLegacy(a).req, legacy.user);
    }
  }

  /** Constraints survive any call, and an accepted call grants exactly what it returns. */
  lemma ProvisionKeepsValid(db: Tables, a: Args, ids: Ids)
    requires Valid(db) && Fresh(db, ids)
    ensures Valid(After(db, a, ids))
    ensures var o := Decide(db, a, ids);
            o.Accepted? ==> Granted(After(db, a, ids), NullIfBlank(a.subject), o)
    ensures var o := Decide(db, a, ids);
            o.Accepted? ==> ResolveMembership(After(db, a, ids), o.user, o.tenant) == Some(o.member)
  {
    if Decide(db, a, ids).Accepted? {
      VerdictIsLegal(db, Parse(a).req, ids);
      LegalKeepsValid(db, Parse(a).req, Decide(db, a, ids));
      GrantedResolves(After(db, a, ids), NullIfBlank(a.subject), Decide(db, a, ids));
    }
  }

  lemma GrantedResolves(db: Tables, subject: Option<string>, o: Outcome)
    requires Valid(db) && o.Accepted? && Granted(db, subject, o)
    ensures ResolveMembership(db, o.user, o.tenant) == Some(o.member)
  {
    assert LinkOf(db.members, o.user, o.tenant) == Some(o.member);
  }

  /** `d` differs from `db` by the address of one user row of `subject` and by at most one inserted
      user, tenant and membership: nothing deleted, no other row or field touched. */
  ghost predicate Framed(db: Tables, d: Tables, subject: Option<string>, o: Outcome)
    requires o.Accepted?
  {
    && d.allow == db.allow
    && d.users.Keys == db.users.Keys + {o.user}
    && d.tenants.Keys == db.tenants.Keys + {o.tenant}
    && d.members.Keys == db.members.Keys + {o.member}
    && (forall v :: v in db.users && db.users[v].subject != subject ==> d.users[v] == db.users[v])
    && (forall v :: v in db.users ==> d.users[v].subject == db.users[v].subject
                                      && d.users[v].active == db.users[v].active)
    && (forall t :: t in db.tenants ==> d.tenants[t] == db.tenants[t])
    && (forall m :: m in db.members ==> d.members[m] == db.members[m])
  }

  lemma LegalFrame(db: Tables, r: Request, o: Outcome)
    requires o.Accepted? && Legal(db, r, o)
    ensures Framed(db, Post(db, r, o), r.subject, o)
  {
    var d := Post(db, r, o);
    assert d.users.Keys == db.users.Keys + {o.user};
  }

  /** The frame of a whole call: a refusal leaves every table alone, although writes precede the last
      checks, and an acceptance stays within `Framed`. */
  lemma ProvisionFrame(db: Tables, a: Args, ids: Ids)
    requires Valid(db) && Fresh(db, ids)
    ensures var o, d := Decide(db, a, ids), After(db, a, ids);
            if o.Accepted? then Framed(db, d, NullIfBlank(a.subject), o) else d == db
  {
    var o := Decide(db, a, ids);
    if o.Accepted? {
      VerdictIsLegal(db, Parse(a).req, ids);
      LegalFrame(db, Parse(a).req, o);
    }
  }

  /** Repeating an accepted request returns the same triple, reports nothing created and leaves the
      tables as they are, whatever ids the second call would have drawn. */
  lemma Idempotent(db: Tables, a: Args, ids: Ids, again: Ids)
    requires Valid(db) && Fresh(db, ids) && Decide(db, a, ids).Accepted?
    ensures var d := After(db, a, ids);
            && Decide(d, a, again) == Decide(db, a, ids).(created := false)
            && After(d, a, again) == d
  {
    var d, r, o := After(db, a, ids), Parse(a).req, Decide(db, a, ids);
    VerdictIsLegal(db, r, ids);
    LegalKeepsValid(db, r, o);
    assert BySubject(d.users, r.subject.value) == Some(o.user);
    assert PersonalOf(d.tenants, o.user) == Some(o.tenant);
    assert LinkOf(d.members, o.user, o.tenant) == Some(o.member);
    assert d.users[o.user].norm == r.norm;
    assert UserRefusal(d.users, r) == None;
  }

  /** Every address a call writes was on the allowlist of that same call, and an accepted subject
      ends up under the address it presented. */
  lemma OnlyAllowlistedAddresses(db: Tables, a: Args, ids: Ids, u: Uuid)
    requires Valid(db) && Fresh(db, ids) && u in After(db, a, ids).users
    ensures var d := After(db, a, ids);
            (u in db.users && d.users[u] == db.users[u]) || d.users[u].norm in db.allow
    ensures var o := Decide(db, a, ids);
            o.Accepted? ==> var row := After(db, a, ids).users[o.user];
                            row.norm in db.allow && row.norm == Normalize(a.email.value)
  {
    var o := Decide(db, a, ids);
    if o.Accepted? {
      VerdictIsLegal(db, Parse(a).req, ids);
      ParsedNorm(a);
      assert After(db, a, ids).users[o.user].norm == Parse(a).req.norm;
    }
  }

  lemma VerdictRestrictsLegacy(db: Tables, r: Request, ids: Ids)
    requires Valid(db) && Fresh(db, ids)
    ensures var o := VerdictLegacy(db, r, ids);
            r.subject.Some? ==>
              match Verdict(db, r, ids)
              case Accepted(_, _, _, _) => Verdict(db, r, ids) == o && PostLegacy(db, r, o) == Post(db, r, o)
              case Refused(why) =>
                o.Accepted? ==>
                  if o.user in db.users && db.users[o.user].subject.None? then why == BindingRequired
                  else why == Disabled
                       && (   (o.tenant in db.tenants && !db.tenants[o.tenant].active)
                           || (o.member in db.members && !db.members[o.member].active))
    ensures var o := VerdictLegacy(db, r, ids);
            r.subject.Some? && o.Accepted?
            && (   (o.user in db.users && db.users[o.user].subject.None?)
                || (o.tenant in db.tenants && !db.tenants[o.tenant].active)
                || (o.member in db.members && !db.members[o.member].active))
            ==> Verdict(db, r, ids).Refused?
  {
    if r.subject.Some? {
      var found := BySubject(db.users, r.subject.value);
      if found.Some? {
        assert LegacyMatch(db.users, r) == found;
        assert UserRefusalLegacy(db.users, r) == UserRefusal(db.users, r);
      } else if ByEmail(db.users, r.norm).Some? {
        assert LegacyMatch(db.users, r) == ByEmail(db.users, r.norm);
      }
    }
  }

  /** 0004 restricts 0003: what it accepts, 0003 accepts with the same result and tables, and it
      refuses a call 0003 accepts exactly for a blank subject, an unbound row, or a disabled personal
      tenant or owner membership. */
  lemma RestrictsLegacy(db: Tables, a: Args, ids: Ids)
    requires Valid(db) && Fresh(db, ids)
    ensures Decide(db, a, ids).Accepted? ==>
              && DecideLegacy(db, a, ids) == Decide(db, a, ids)
              && AfterLegacy(db, a, ids) == After(db, a, ids)
    ensures var o := DecideLegacy(db, a, ids);
            o.Accepted? ==>
              (Decide(db, a, ids).Refused? <==>
               || NullIfBlank(a.subject).None?
               || (o.user in db.users && db.users[o.user].subject.None?)
               || (o.tenant in db.tenants && !db.tenants[o.tenant].active)
               || (o.member in db.members && !db.members[o.member].active))
    ensures var o := DecideLegacy(db, a, ids);
            o.Accepted? && Decide(db, a, ids).Refused? ==>
              Decide(db, a, ids).why ==
                if NullIfBlank(a.subject).None? then SubjectRequired
                else if o.user in db.users && db.users[o.user].subject.None? then BindingRequired
                else Disabled
  {
    var p := ParseLegacy(a);
    if p.Good? && SignupAllowed(db.allow, p.req.norm) {
      VerdictRestrictsLegacy(db, p.req, ids);
    }
  }

  /** The binding script keeps the constraints, binds only an unbound row, and after it the subject
      signs in as that row. */
  lemma BindingKeepsValid(db: Tables, email: string, subject: string)
    requires Valid(db)
    ensures Valid(AfterBinding(db, email, subject))
    ensures var b := DecideBinding(db, email, subject); var d := AfterBinding(db, email, subject);
            b.Bound? ==>
              && b.user in db.users && db.users[b.user].subject == None
              && BySubject(d.users, Trim(Btrim, subject)) == Some(b.user)
              && (forall v :: v in db.users && v != b.user ==> v in d.users && d.users[v] == db.users[v])
  {
    var b, d, s := DecideBinding(db, email, subject), AfterBinding(db, email, subject), Trim(Btrim, subject);
    if b.Bound? {
      assert forall v :: v in d.users && v != b.user ==> d.users[v] == db.users[v] && d.users[v].subject != Some(s);
      assert d.users[b.user].subject == Some(s);
    }
  }

  /** The row, its personal tenant and the owner's membership in it are active, as far as they exist. */
  ghost predicate NothingDisabled(db: Tables, u: Uuid)
  {
    && (u in db.users ==> db.users[u].active)
    && (forall t :: t in db.tenants && IsPersonal(db.tenants[t], u) ==> db.tenants[t].active)
    && (forall t, m :: t in db.tenants && IsPersonal(db.tenants[t], u)
                       && m in db.members && Links(db.members[m], u, t)
          ==> db.members[m].active)
  }

  lemma SettleIff(db: Tables, u: Uuid, ids: Ids)
    requires Valid(db) && u in db.users && db.users[u].active
    ensures Settle(db, u, ids).Accepted? <==> NothingDisabled(db, u)
    ensures Settle(db, u, ids).Accepted? ==> Settle(db, u, ids).user == u
  {
    var own := PersonalOf(db.tenants, u);
    if own.Some? {
      assert forall t :: t in db.tenants && IsPersonal(db.tenants[t], u) ==> t == own.value;
      var link := LinkOf(db.members, u, own.value);
      assert link.Some? ==> forall m :: m in db.members && Links(db.members[m], u, own.value) ==> m == link.value;
    }
  }

  /** What the binding script changes for one sign-in of the bound subject. */
  lemma BindingTurns(db: Tables, email: string, subject: string, a: Args, ids: Ids)
    requires Valid(db) && DecideBinding(db, email, subject).Bound?
    requires a.email == Some(email) && NullIfBlank(a.subject) == Some(Trim(Btrim, subject))
    requires Normalize(email) in db.allow
    ensures Decide(db, a, ids) == Refused(BindingRequired)
    ensures var d := AfterBinding(db, email, subject); var u := DecideBinding(db, email, subject).user;
            Decide(d, a, ids) == if db.users[u].active then Settle(d, u, ids) else Refused(Disabled)
  {
    BindingKeepsValid(db, email, subject);
    var d, u := AfterBinding(db, email, subject), DecideBinding(db, email, subject).user;
    assert !TakenByAnother(d.users, Normalize(email), u);
    NormalizeTwice(email);
  }

  /** Only the binding script opens an unbound account: before it the owner's address is refused with
      VS003 under every subject; after it the bound subject is accepted, as that very row, if and only if
      neither the row nor what it owns is disabled. */
  lemma BindingOpensAccount(db: Tables, email: string, subject: string, a: Args, ids: Ids)
    requires Valid(db) && DecideBinding(db, email, subject).Bound?
    requires a.email == Some(email) && NullIfBlank(a.subject) == Some(Trim(Btrim, subject))
    requires Normalize(email) in db.allow
    ensures Decide(db, a, ids) == Refused(BindingRequired)
    ensures var d := AfterBinding(db, email, subject); var u := DecideBinding(db, email, subject).user;
            var o := Decide(d, a, ids);
            && (o.Accepted? <==> NothingDisabled(db, u))
            && (o.Accepted? ==> o.user == u)
            && (!o.Accepted? ==> o == Refused(Disabled))
  {
    BindingTurns(db, email, subject, a, ids);
    BindingKeepsValid(db, email, subject);
    var d, u := AfterBinding(db, email, subject), DecideBinding(db, email, subject).user;
    if db.users[u].active {
      SettleIff(d, u, ids);
      OwnedAlike(db, d, u);
    }
  }

  lemma OwnedAlike(db: Tables, d: Tables, u: Uuid)
    requires d.tenants == db.tenants && d.members == db.members && u in db.users && u in d.users
    requires db.users[u].active && d.users[u].active
    ensures NothingDisabled(d, u) <==> NothingDisabled(db, u)
  {
  }
}
