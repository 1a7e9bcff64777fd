/** How authorization, provisioning, membership resolution, tenant scope and the operator's report
    agree with each other. */
module AccountLaws {
  import opened Text
  import opened Directory
  import opened Provisioning
  import Laws = ProvisioningLaws
  import Rows = ProvisioningRows
  import C = Concurrency
  import Allowlist = ConcurrencyAllowlist
  import Invariant = ConcurrencyInvariant
  import Interleaved = ConcurrencyTheorems
  import opened RowSecurity
  import TenantScope
  import TenantIsolation
  import opened Account

  // ---- Listing and resolving ------------------------------------------------------

  /** `list_memberships(u)` has exactly one entry for each tenant where `resolve_membership` finds a
      row, the row it finds, and none for any other tenant. */
  lemma ListMatchesResolve(db: Tables, u: Uuid, t: Uuid)
    requires Valid(db)
    ensures var r, found := ResolveMembership(db, u, t), FirstFor(ListMemberships(db, u), t);
            && (r.Some? <==> found.Some?)
            && (r.Some? ==> found.value == ToEntry(db, r.value))
    ensures var l := ListMemberships(db, u);
            forall i, j :: 0 <= i < j < |l| ==> l[i].tenant != l[j].tenant
  {
    var l := ListMemberships(db, u);
    var link, found := LinkOf(db.members, u, t), FirstFor(l, t);
    if found.Some? {
      assert Links(db.members[found.value.membership], u, t);
      assert link == Some(found.value.membership);
    }
    if link.Some? && Usable(db, link.value) {
      assert link.value in UsableRows(db, u);
      var i :| 0 <= i < |l| && l[i].membership == link.value;
      assert l[i] in l && l[i].tenant == t;
    }
    forall i, j | 0 <= i < j < |l| ensures l[i].tenant != l[j].tenant {
      var a, b := l[i].membership, l[j].membership;
      assert Links(db.members[a], u, l[i].tenant) && Links(db.members[b], u, l[j].tenant);
    }
  }

  /** A requested tenant is honoured exactly when it resolves for the authorized user, and then with
      exactly that membership. */
  lemma RequestedTenantIffResolved(db: Tables, subject: string, t: Uuid)
    requires Valid(db) && Authorize(db, subject).Granted?
    ensures var u := Authorize(db, subject).user; var r := ResolveMembership(db, u, t);
            RequireAccount(db, subject, Some(t)) ==
              if r.Some? then Resolved.Account(u, db.users[u].email, ToEntry(db, r.value)) else TenantNotPermitted
  {
    ListMatchesResolve(db, Authorize(db, subject).user, t);
  }

  /** Authorization without lists: an active bound user under an allowed address, with a tenant that
      resolves. */
  lemma AuthorizeIff(db: Tables, subject: string)
    requires Valid(db) && subject != ""
    ensures Authorize(db, subject).Granted? <==>
              exists u, t :: u in db.users && db.users[u].subject == Some(subject) && db.users[u].active
                             && IsSignupAllowed(db, db.users[u].email)
                             && ResolveMembership(db, u, t).Some?
  {
    var found := BySubject(db.users, subject);
    if found.Some? {
      var u := found.value;
      var l := ListMemberships(db, u);
      if l != [] {
        ListMatchesResolve(db, u, l[0].tenant);
        assert l[0] in l;
        assert ResolveMembership(db, u, l[0].tenant).Some?;
      }
      forall t | ResolveMembership(db, u, t).Some? ensures l != [] {
        ListMatchesResolve(db, u, t);
      }
    }
  }

  // ---- Who is denied, and what is granted ---------------------------------------------

  /** The user has an active membership in an active tenant. */
  ghost predicate HasAccess(db: Tables, u: Uuid)
  {
    exists m :: m in db.members && db.members[m].user == u && db.members[m].active
                && db.members[m].tenant in db.tenants && db.tenants[db.members[m].tenant].active
  }

  /** Every denial over the rows, in the order of precedence of the route. An unknown subject is not
      provisioned; a known one is denied as disabled, or else because its stored address, in its Python
      form, is not on the allowlist, or else because it has no active membership of an active tenant; and
      otherwise it is granted. A required account is denied for the same reason. */
  lemma DenialsIff(db: Tables, subject: string)
    requires Valid(db) && subject != ""
    ensures Authorize(db, subject) == Denied(NotProvisioned) <==>
              forall u :: u in db.users ==> db.users[u].subject != Some(subject)
    ensures forall u :: u in db.users && db.users[u].subject == Some(subject) ==>
              var row, access := db.users[u], Authorize(db, subject);
              var allowed := PyNormalize(row.email) in db.allow;
              && (access == Denied(IdentityDisabled) <==> !row.active)
              && (access == Denied(NotAllowlisted) <==> row.active && !allowed)
              && (access == Denied(NoActiveMembership) <==> row.active && allowed && !HasAccess(db, u))
              && (access.Granted? <==> row.active && allowed && HasAccess(db, u))
              && (access.Granted? ==> access.user == u && access.email == row.email)
    ensures forall reason, tenant ::
              RequireAccount(db, subject, tenant) == Forbidden(reason) <==> Authorize(db, subject) == Denied(reason)
  {
    var found := BySubject(db.users, subject);
    if found.Some? {
      var u := found.value;
      SqlKeepsPyNormalized(db.users[u].email);
      if db.users[u].active {
        ListedIffAccess(db, u);
      }
    }
  }

  lemma ListedIffAccess(db: Tables, u: Uuid)
    requires Valid(db) && u in db.users && db.users[u].active
    ensures ListMemberships(db, u) != [] <==> HasAccess(db, u)
  {
    var l := ListMemberships(db, u);
    if l != [] {
      assert l[0].membership in UsableRows(db, u);
    }
    if m :| m in db.members && db.members[m].user == u && db.members[m].active
            && db.members[m].tenant in db.tenants && db.tenants[db.members[m].tenant].active
    {
      assert m in UsableRows(db, u);
    }
  }

  /** The listing of a user, column by column: an entry is listed if and only if it is made of an active
      membership of the user, who is active, in an active tenant. */
  lemma EntryFields(db: Tables, u: Uuid, e: Entry)
    requires Valid(db)
    ensures e in ListMemberships(db, u) <==>
              && e.membership in db.members && db.members[e.membership].user == u && db.members[e.membership].active
              && u in db.users && db.users[u].active
              && e.tenant == db.members[e.membership].tenant && e.role == db.members[e.membership].role
              && e.tenant in db.tenants && db.tenants[e.tenant].active
              && e.name == db.tenants[e.tenant].name && e.kind == db.tenants[e.tenant].kind
  {
    var l := ListMemberships(db, u);
    if e.membership in UsableRows(db, u) {
      var i :| 0 <= i < |l| && l[i].membership == e.membership;
      assert l[i] in l && l[i] == ToEntry(db, e.membership);
    }
  }

  /** Without a requested tenant the account is in a tenant of the user's listing, and in a personal one
      whenever a personal tenant resolves for the user. */
  lemma DefaultIsPersonal(db: Tables, subject: string)
    requires Valid(db) && RequireAccount(db, subject, None).Account?
    ensures var a := RequireAccount(db, subject, None);
            && Authorize(db, subject).Granted? && a.user == Authorize(db, subject).user
            && a.email == Authorize(db, subject).email
            && a.entry in ListMemberships(db, a.user)
            && (forall t :: t in db.tenants && db.tenants[t].kind == Personal
                            && ResolveMembership(db, a.user, t).Some?
                  ==> a.entry.kind == Personal)
  {
    var u := Authorize(db, subject).user;
    var l := ListMemberships(db, u);
    forall t | t in db.tenants && db.tenants[t].kind == Personal && ResolveMembership(db, u, t).Some?
      ensures l[0].kind == Personal
    {
      ListMatchesResolve(db, u, t);
      var e := FirstFor(l, t).value;
      var i :| 0 <= i < |l| && l[i] == e;
      EntryFields(db, u, e);
    }
  }

  /** What the provisioning route answers: a missing subject, the refusal of the provisioning call, or what
      authorization says afterwards, in this order; a success names the user and the flag of the call, and
      the provisioned tenant if it is listed. */
  lemma RouteReplies(o: Outcome, later: Tables, email: string, subject: string)
    requires Valid(later)
    ensures var reply, access := ProvisionAccount(o, later, email, subject), Authorize(later, subject);
            && (reply == SubjectMissing <==> Trim(PyStrip, subject) == "")
            && (Trim(PyStrip, subject) != "" && o.Refused? ==> reply == Rejected(o.why))
            && (Trim(PyStrip, subject) != "" && o.Accepted? ==>
                  && (access.Denied? ==> reply == NoAccess(access.reason))
                  && (access.Granted? ==>
                        && reply.Provisioned? && reply.user == o.user && reply.email == email
                        && reply.created == o.created && reply.entry in access.memberships
                        && ((exists e :: e in access.memberships && e.tenant == o.tenant) ==>
                              reply.entry.tenant == o.tenant)))
  {
  }

  /** `IdentityService.find_user` over the rows: a given subject decides alone; only without one is the
      Python form of the address looked up. */
  lemma FindUserIff(db: Tables, email: Option<string>, subject: Option<string>, u: Uuid)
    requires Valid(db)
    ensures var hasSubject := subject.Some? && subject.value != ""; var hasEmail := email.Some? && email.value != "";
            && (FindUser(db, email, subject) == ValueError <==> !hasSubject && !hasEmail)
            && (hasSubject ==>
                  (FindUser(db, email, subject) == Somebody(u) <==> u in db.users && db.users[u].subject == subject))
            && (subject.None? && hasEmail ==>
                  (FindUser(db, email, subject) == Somebody(u) <==>
                     u in db.users && db.users[u].norm == PyNormalize(email.value)))
  {
    if email.Some? {
      SqlKeepsPyNormalized(email.value);
    }
  }

  // ---- Provisioning and the request that follows -------------------------------------

  lemma PyBareIsBare(s: string)
    requires Bare(PyStrip, s)
    ensures Trim(Btrim, s) == s
  {
    TrimOfBare(Btrim, s);
  }

  /** What the first sign-in of a new subject leaves: the profile's address as the profile gives it, the
      stripped subject, and an active personal tenant named "Personal" with the user as its active owner. */
  lemma FirstSignInRows(db: Tables, raw: string, subject: string, ids: Ids)
    requires Valid(db) && Fresh(db, ids) && Trim(PyStrip, subject) != ""
    requires Decide(db, ServiceArgs(Trim(PyStrip, raw), subject).value, ids).Accepted?
    requires forall u :: u in db.users ==> db.users[u].subject != Some(Trim(PyStrip, subject))
    ensures var a := ServiceArgs(Trim(PyStrip, raw), subject).value; var o, d := Decide(db, a, ids), After(db, a, ids);
            && o == Accepted(ids.user, ids.tenant, ids.member, true)
            && d.users == db.users[ids.user := User(Trim(PyStrip, raw), Normalize(Trim(PyStrip, raw)),
                                                    Some(Trim(PyStrip, subject)), true)]
            && d.tenants == db.tenants[ids.tenant := Tenant("Personal", Personal, ids.user, true)]
            && d.members == db.members[ids.member := Membership(ids.user, ids.tenant, Owner, true)]
  {
    var a := ServiceArgs(Trim(PyStrip, raw), subject).value;
    TrimIsBare(PyStrip, raw);
    TrimIsBare(PyStrip, subject);
    PyBareIsBare(Trim(PyStrip, raw));
    PyBareIsBare(Trim(PyStrip, subject));
    assert NullIfBlank(a.subject) == Some(Trim(PyStrip, subject));
    Rows.AcceptedRows(db, a, ids);
  }

  /** A stored address that normalizes like a stripped one reads the same in Python and in SQL. */
  lemma StoredReadsAlike(stored: string, email: string)
    requires Bare(PyStrip, email) && Normalize(stored) == Normalize(email)
    ensures PyNormalize(stored) == Normalize(stored)
  {
    PyBareIsBare(email);
    BareLower(PyStrip, email);
    BareLower(PyStrip, Trim(Btrim, stored));
    NormalizationsAgree(stored);
  }

  /** What a grant and an allowed stored address amount to for the next request. */
  lemma GrantAuthorizes(db: Tables, subject: string, o: Outcome)
    requires Valid(db) && subject != "" && o.Accepted? && Laws.Granted(db, Some(subject), o)
    requires IsSignupAllowed(db, db.users[o.user].email)
    ensures var access := Authorize(db, subject);
            && access.Granted? && access.user == o.user
            && FirstFor(access.memberships, o.tenant) == Some(ToEntry(db, o.member))
  {
    assert BySubject(db.users, subject) == Some(o.user);
    Laws.GrantedResolves(db, Some(subject), o);
    ListMatchesResolve(db, o.user, o.tenant);
  }

  /** For a profile address stripped as `fetch_profile` strips it and a subject as token validation
      delivers it, a committed provisioning call followed by `authorize_local_access` always succeeds,
      for the same user and with the provisioned tenant, so the route reports exactly that tenant. */
  lemma ProvisionThenAuthorize(db: Tables, raw: string, subject: string, ids: Ids)
    requires Valid(db) && GeneratedColumns(db.users) && Fresh(db, ids)
    requires Bare(PyStrip, subject) && subject != ""
    requires Decide(db, ServiceArgs(Trim(PyStrip, raw), subject).value, ids).Accepted?
    ensures var email := Trim(PyStrip, raw); var a := ServiceArgs(email, subject).value;
            var o, d := Decide(db, a, ids), After(db, a, ids);
            && Authorize(d, subject).Granted? && Authorize(d, subject).user == o.user
            && ProvisionAccount(o, d, email, subject)
                 == Provisioned(o.user, email, ToEntry(d, o.member), o.created)
  {
    var email := Trim(PyStrip, raw);
    TrimIsBare(PyStrip, raw);
    TrimOfBare(PyStrip, subject);
    PyBareIsBare(subject);
    var a := ServiceArgs(email, subject).value;
    var o, d := Decide(db, a, ids), After(db, a, ids);
    assert NullIfBlank(a.subject) == Some(subject);
    Laws.ProvisionKeepsValid(db, a, ids);
    Laws.ProvisionKeepsGenerated(db, a, ids);
    Laws.OnlyAllowlistedAddresses(db, a, ids, o.user);
    Laws.ProvisionFrame(db, a, ids);
    var stored := d.users[o.user].email;
    StoredReadsAlike(stored, email);
    NormalizeTwice(stored);
    GrantAuthorizes(d, subject, o);
  }

  /** The address and subject of a call at its commit, and the address of its user right after. */
  lemma CommittedAddress(states: seq<C.State>, actions: seq<C.Action>, k: nat)
    requires C.Run(states, actions) && k < |actions| && C.Commits(states[k], actions[k])
    requires GeneratedColumns(states[0].db.users)
    ensures var c, d := states[k].calls[actions[k].id], states[k + 1].db;
            && c.req.norm == Normalize(c.req.email) == Normalize(c.req.norm)
            && c.req.subject.Some? && c.req.subject.value != ""
            && c.user in d.users && Normalize(d.users[c.user].email) == c.req.norm
            && d.allow == states[k].db.allow
  {
    Interleaved.CommitRefines(states, actions, k);
    Interleaved.CommitGrants(states, actions, k);
    Allowlist.RunKeepsNormal(states, actions, k);
    Allowlist.RunKeepsNormal(states, actions, k + 1);
  }

  /** Authorization of the user a grant names, whose stored address reads as `norm`. */
  lemma GrantAuthorizesIff(db: Tables, subject: string, o: Outcome, norm: string)
    requires Valid(db) && subject != "" && o.Accepted? && Laws.Granted(db, Some(subject), o)
    requires PyNormalize(db.users[o.user].email) == norm
    ensures var access := Authorize(db, subject);
            if SignupAllowed(db.allow, norm)
            then access.Granted? && access.user == o.user
                 && FirstFor(access.memberships, o.tenant) == Some(ToEntry(db, o.member))
            else access == Denied(NotAllowlisted)
  {
    if SignupAllowed(db.allow, norm) {
      GrantAuthorizes(db, subject, o);
    } else {
      assert BySubject(db.users, subject) == Some(o.user);
    }
  }

  /** The same among interleaved calls: right after the commit of a call with a stripped address, its
      subject is authorized, for the committed user and with the committed membership, if and only if the
      address was not withdrawn for good between the call's allowlist check (the action `h`) and its
      commit; if it was, the request is denied as not allowlisted. */
  lemma CommitThenAuthorize(states: seq<C.State>, actions: seq<C.Action>, h: nat, k: nat)
    requires C.Run(states, actions) && h < k < |actions| && C.Commits(states[k], actions[k])
    requires Allowlist.Checks(states[h], actions[h], actions[k].id)
    requires GeneratedColumns(states[0].db.users) && Bare(PyStrip, states[k].calls[actions[k].id].req.email)
    ensures var c, d := states[k].calls[actions[k].id], states[k + 1].db;
            && c.req.subject.Some? && c.tenant in d.tenants
            && c.member in d.members && d.members[c.member].tenant == c.tenant
            && var access := Authorize(d, c.req.subject.value);
               if Allowlist.WithdrawnSince(actions, h, k, c.req.norm) then access == Denied(NotAllowlisted)
               else access.Granted? && access.user == c.user
                    && FirstFor(access.memberships, c.tenant) == Some(ToEntry(d, c.member))
  {
    var c, d := states[k].calls[actions[k].id], states[k + 1].db;
    CommittedAddress(states, actions, k);
    Interleaved.CommitGrants(states, actions, k);
    Allowlist.CommitAllowedIff(states, actions, k);
    StoredReadsAlike(d.users[c.user].email, c.req.email);
    Invariant.RunKeepsInv(states, actions, k + 1);
    GrantAuthorizesIff(d, c.req.subject.value, c.Result(), c.req.norm);
  }

  /** The service hands the stripped subject to the database, which takes it as it is. */
  lemma ServiceSubject(email: string, subject: string)
    requires Trim(PyStrip, subject) != ""
    ensures NullIfBlank(ServiceArgs(email, subject).value.subject) == Some(Trim(PyStrip, subject))
    ensures !Bare(PyStrip, subject) ==> Trim(PyStrip, subject) != subject
  {
    TrimIsBare(PyStrip, subject);
    PyBareIsBare(Trim(PyStrip, subject));
  }

  /** Under any other spelling of its subject an account is not found. */
  lemma OtherSpellingMisses(db: Tables, u: Uuid, stored: string, subject: string)
    requires u in db.users && db.users[u].subject == Some(stored) && stored != subject
    ensures Authorize(db, subject).Granted? ==> Authorize(db, subject).user != u
  {
  }

  /** That the subject arrives stripped is exactly what this takes: the database stores the stripped
      subject, and the next request looks up the subject as it is. */
  lemma NextRequestIffStripped(db: Tables, raw: string, subject: string, ids: Ids)
    requires Valid(db) && GeneratedColumns(db.users) && Fresh(db, ids)
    requires Trim(PyStrip, subject) != ""
    requires Decide(db, ServiceArgs(Trim(PyStrip, raw), subject).value, ids).Accepted?
    ensures var a := ServiceArgs(Trim(PyStrip, raw), subject).value;
            var o, access := Decide(db, a, ids), Authorize(After(db, a, ids), subject);
            (access.Granted? && access.user == o.user) <==> Bare(PyStrip, subject)
  {
    if Bare(PyStrip, subject) {
      ProvisionThenAuthorize(db, raw, subject, ids);
    } else {
      var a := ServiceArgs(Trim(PyStrip, raw), subject).value;
      ServiceSubject(Trim(PyStrip, raw), subject);
      Laws.ProvisionKeepsValid(db, a, ids);
      OtherSpellingMisses(After(db, a, ids), Decide(db, a, ids).user, Trim(PyStrip, subject), subject);
    }
  }

  /** Every listed entry is the one its tenant leads to. */
  lemma EntryIsFirstFor(db: Tables, u: Uuid, entry: Entry)
    requires Valid(db) && entry in ListMemberships(db, u)
    ensures FirstFor(ListMemberships(db, u), entry.tenant) == Some(entry)
  {
    var l := ListMemberships(db, u);
    var i :| 0 <= i < |l| && l[i] == entry;
    var found := FirstFor(l, entry.tenant);
    var j :| 0 <= j < |l| && l[j] == found.value;
    ListMatchesResolve(db, u, entry.tenant);
    assert i == j;
  }

  /** A reported success, from the tables the second transaction reads: the entry is the one the next
      request grants for its tenant, and the provisioned tenant is reported whenever it resolves. */
  lemma ReportedEntry(later: Tables, email: string, subject: string, o: Outcome)
    requires Valid(later) && subject != "" && o.Accepted?
    requires o.user in later.users && later.users[o.user].subject == Some(subject)
    requires ProvisionAccount(o, later, email, subject).Provisioned?
    ensures var reply := ProvisionAccount(o, later, email, subject);
            && RequireAccount(later, subject, Some(reply.entry.tenant))
                 == Resolved.Account(reply.user, later.users[o.user].email, reply.entry)
            && (reply.entry.tenant != o.tenant ==> ResolveMembership(later, o.user, o.tenant).None?)
  {
    assert BySubject(later.users, subject) == Some(o.user);
    assert Authorize(later, subject)
        == Access.Granted(o.user, later.users[o.user].email, ListMemberships(later, o.user));
    ListMatchesResolve(later, o.user, o.tenant);
    EntryIsFirstFor(later, o.user, ProvisionAccount(o, later, email, subject).entry);
  }

  /** Whatever happens between the two transactions of the route, a success reports access that the
      next request would grant: the same user, and the reported tenant with the reported membership. It
      falls back to another tenant only when the provisioned one no longer resolves. */
  lemma ReportedAccessIsReal(d: Tables, later: Tables, email: string, subject: string, o: Outcome)
    requires Valid(later) && Interleaved.Evolves(d, later)
    requires subject != "" && o.Accepted? && Laws.Granted(d, Some(subject), o)
    requires ProvisionAccount(o, later, email, subject).Provisioned?
    ensures var reply := ProvisionAccount(o, later, email, subject);
            var account := RequireAccount(later, subject, Some(reply.entry.tenant));
            && account.Account? && account.user == reply.user && account.entry == reply.entry
            && (reply.entry.tenant != o.tenant ==> ResolveMembership(later, o.user, o.tenant).None?)
  {
    ReportedEntry(later, email, subject, o);
  }

  /** `read_account`: the tenant scope opened for the resolved membership shows exactly that tenant, so
      "tenant-not-visible" cannot happen while nothing changes in between. */
  lemma ReadAccountSeesTenant(db: Tables, subject: string, tenant: Option<Uuid>)
    requires Valid(db) && RequireAccount(db, subject, tenant).Account?
    ensures var entry := RequireAccount(db, subject, tenant).entry;
            var x := TenantScope.Do(
              TenantScope.TenantTransaction(entry.tenant, TenantScope.Call(GetTenant)),
              TenantScope.FreshSession(db), None);
            && !x.thrown && |x.log| == 6 && entry.tenant in db.tenants
            && x.log[2].reply == Some(TenantRow(Some(ToRecord(entry.tenant, db.tenants[entry.tenant]))))
            && entry.name == db.tenants[entry.tenant].name && entry.kind == db.tenants[entry.tenant].kind
  {
    var entry := RequireAccount(db, subject, tenant).entry;
    var l := Authorize(db, subject).memberships;
    assert entry in l;
    TenantIsolation.ScopeSeesItsTenant(db, entry.tenant);
  }

  // ---- The operator's report -------------------------------------------------------------

  /** The report on a stored address finds its own account exactly when no white space but plain
      spaces stands at the border of that address. */
  lemma ReportFindsAccount(db: Tables, u: Uuid)
    requires Valid(db) && GeneratedColumns(db.users) && u in db.users && db.users[u].email != ""
    ensures FindUser(db, Some(db.users[u].email), None) == Somebody(u) <==>
              Bare(PyStrip, Trim(Btrim, db.users[u].email))
  {
    var stored := db.users[u].email;
    SqlKeepsPyNormalized(stored);
    NormalizationsAgree(stored);
    assert ByEmail(db.users, db.users[u].norm) == Some(u);
  }

  lemma NoReasons(allowed: bool, user: Option<UserRecord>, memberships: seq<Entry>, reasons: seq<Label>)
    requires Reasons(allowed, user, memberships, reasons)
    ensures reasons == [] <==>
              && allowed
              && (user.Some? ==> user.value.active && user.value.subject.Some? && memberships != [])
  {
    if reasons != [] {
      assert reasons[0] in reasons;
      match reasons[0] {
        case NotAllowlisted =>
        case IdentityDisabled =>
        case SubjectBinding =>
        case NoActiveMembership =>
      }
    }
  }

  /** For a bound user whose stored address has no such border, the report gives no reason exactly when
      a request of its subject is granted, and otherwise the label of the request is among its reasons. */
  lemma ReportAgrees(db: Tables, u: Uuid, subject: string, reasons: seq<Label>)
    requires Valid(db) && GeneratedColumns(db.users)
    requires u in db.users && db.users[u].subject == Some(subject) && subject != ""
    requires db.users[u].email != "" && Bare(PyStrip, Trim(Btrim, db.users[u].email))
    requires Reported(db, db.users[u].email, reasons)
    ensures reasons == [] <==> Authorize(db, subject).Granted?
    ensures Authorize(db, subject).Denied? ==> Authorize(db, subject).reason in reasons
  {
    ReportFindsAccount(db, u);
    assert BySubject(db.users, subject) == Some(u);
    var email := db.users[u].email;
    var user := RecordOf(db, email);
    assert user == Some(UserRecord(u, email, Some(subject), db.users[u].active));
    NoReasons(IsSignupAllowed(db, email), user, ListMemberships(db, u), reasons);
  }

  /** Whenever the normalized address of a disabled account finds nobody, the report looks past it. */
  lemma ReportLooksPast(db: Tables, u: Uuid, subject: string)
    requires Valid(db) && u in db.users && db.users[u].subject == Some(subject) && subject != ""
    requires !db.users[u].active && IsSignupAllowed(db, db.users[u].email)
    requires FindUser(db, Some(db.users[u].email), None) == Nobody
    ensures Reported(db, db.users[u].email, []) && Authorize(db, subject) == Denied(IdentityDisabled)
  {
    assert BySubject(db.users, subject) == Some(u);
  }

  /** A database with one disabled account under the address `e`, whose Python form is allowed. */
  function DisabledUnder(e: string, subject: string): Tables
  {
    Tables({PyNormalize(e)}, map[0 := User(e, Normalize(e), Some(subject), false)], map[], map[])
  }

  /** Under every address with such a border they can disagree: the report looks elsewhere and permits, the
      request is refused. */
  lemma ReportDisagrees(e: string, subject: string)
    requires !Bare(PyStrip, Trim(Btrim, e)) && subject != ""
    ensures var db := DisabledUnder(e, subject);
            && Valid(db) && GeneratedColumns(db.users)
            && Reported(db, e, []) && Authorize(db, subject) == Denied(IdentityDisabled)
  {
    var db := DisabledUnder(e, subject);
    NormalizationsAgree(e);
    SqlKeepsPyNormalized(e);
    assert db.users[0].norm != PyNormalize(e);
    ReportLooksPast(db, 0, subject);
  }

  /** The report is empty exactly when the request is granted, and otherwise names its reason. */
  ghost predicate Concur(access: Access, reasons: seq<Label>)
  {
    && (reasons == [] <==> access.Granted?)
    && (access.Denied? ==> access.reason in reasons)
  }

  /** `u` is an account bound to `subject` under the address `e`. */
  ghost predicate BoundUnder(db: Tables, e: string, u: Uuid, subject: string)
  {
    && Valid(db) && GeneratedColumns(db.users)
    && u in db.users && db.users[u].email == e && db.users[u].subject == Some(subject) && subject != ""
  }

  /** Whether report and request agree is a matter of the stored address alone: they agree on every
      database with a bound account under `e` if and only if no white space but plain spaces stands at the
      border of `e`. */
  lemma ReportAgreesIff(e: string)
    requires e != ""
    ensures Bare(PyStrip, Trim(Btrim, e)) <==>
              forall db, u, subject, reasons :: BoundUnder(db, e, u, subject) && Reported(db, e, reasons) ==>
                Concur(Authorize(db, subject), reasons)
  {
    if Bare(PyStrip, Trim(Btrim, e)) {
      forall db, u, subject, reasons | BoundUnder(db, e, u, subject) && Reported(db, e, reasons)
        ensures Concur(Authorize(db, subject), reasons)
      {
        ReportAgrees(db, u, subject, reasons);
      }
    } else {
      ReportDisagrees(e, "s");
      assert BoundUnder(DisabledUnder(e, "s"), e, 0, "s");
      assert !Concur(Authorize(DisabledUnder(e, "s"), "s"), []);
    }
  }

  /** For an address without an account, a report without reasons means that a first call by a subject
      never seen before is accepted, and creates the account. */
  lemma ReportPredictsFirstSignIn(db: Tables, email: string, subject: string, ids: Ids)
    requires Valid(db) && Trim(PyStrip, email) != "" && Trim(PyStrip, subject) != ""
    requires FindUser(db, Some(email), None) == Nobody && Reported(db, email, [])
    requires BySubject(db.users, Trim(PyStrip, subject)).None?
    ensures Decide(db, ServiceArgs(Trim(PyStrip, email), subject).value, ids)
              == Accepted(ids.user, ids.tenant, ids.member, true)
  {
    var stripped, s := Trim(PyStrip, email), Trim(PyStrip, subject);
    TrimIsBare(PyStrip, email);
    TrimIsBare(PyStrip, subject);
    PyBareIsBare(stripped);
    PyBareIsBare(s);
    assert Normalize(stripped) == PyNormalize(email);
    SqlKeepsPyNormalized(email);
    assert IsSignupAllowed(db, email);
    assert NullIfBlank(Some(s)) == Some(s);
  }
}
