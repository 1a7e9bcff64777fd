/** Per-request authorization and the operator's report: `authorize_local_access`, `require_account`,
    `read_account`, `provision_account` and `describe`, over the tables a request finds. */
module Account {
  import opened Text
  import opened Directory
  import opened Provisioning

  // ---- app.list_memberships ------------------------------------------------------

  datatype Entry = Entry(membership: Uuid, tenant: Uuid, name: string, kind: Kind, role: Role)

  function ToEntry(db: Tables, m: Uuid): Entry
    requires m in db.members && db.members[m].tenant in db.tenants
  {
    var t := db.members[m].tenant;
    Entry(m, t, db.tenants[t].name, db.tenants[t].kind, db.members[m].role)
  }

  ghost predicate UsableBy(db: Tables, u: Uuid, m: Uuid)
  {
    Usable(db, m) && db.members[m].user == u
  }

  /** `l` lists the rows in `rows`, each once, personal tenants first. */
  ghost predicate Lists(db: Tables, rows: set<Uuid>, l: seq<Entry>)
    requires forall m :: m in rows ==> m in db.members && db.members[m].tenant in db.tenants
  {
    && (forall i :: 0 <= i < |l| ==> l[i].membership in rows && l[i] == ToEntry(db, l[i].membership))
    && (forall m :: m in rows ==> exists i :: 0 <= i < |l| && l[i].membership == m)
    && (forall i, j :: 0 <= i < j < |l| ==> l[i].membership != l[j].membership)
    && (forall i, j :: 0 <= i < j < |l| && l[j].kind == Personal ==> l[i].kind == Personal)
  }

  ghost function UsableRows(db: Tables, u: Uuid): set<Uuid>
  {
    set m | m in db.members && UsableBy(db, u, m)
  }

  /** The three active checks and ORDER BY (kind = 'personal') DESC; the order of names is left open. */
  ghost predicate IsMembershipList(db: Tables, u: Uuid, l: seq<Entry>)
  {
    Lists(db, UsableRows(db, u), l)
  }

  lemma ListWithOneMore(db: Tables, rows: set<Uuid>, m: Uuid, rest: seq<Entry>)
    requires forall n :: n in rows ==> n in db.members && db.members[n].tenant in db.tenants
    requires m in rows && Lists(db, rows - {m}, rest)
    ensures var e := ToEntry(db, m);
            Lists(db, rows, if e.kind == Personal then [e] + rest else rest + [e])
  {
    var e := ToEntry(db, m);
    var front := e.kind == Personal;
    var l := if front then [e] + rest else rest + [e];
    forall n | n in rows ensures exists i :: 0 <= i < |l| && l[i].membership == n {
      if n == m {
        assert l[if front then 0 else |rest|].membership == n;
      } else {
        assert n in rows - {m};
        var i :| 0 <= i < |rest| && rest[i].membership == n;
        assert l[if front then i + 1 else i].membership == n;
      }
    }
  }

  lemma ListExists(db: Tables, rows: set<Uuid>)
    requires forall m :: m in rows ==> m in db.members && db.members[m].tenant in db.tenants
    ensures exists l :: Lists(db, rows, l)
    decreases rows
  {
    if m :| m in rows {
      ListExists(db, rows - {m});
      var rest :| Lists(db, rows - {m}, rest);
      ListWithOneMore(db, rows, m, rest);
    } else {
      assert Lists(db, rows, []);
    }
  }

  ghost function ListMemberships(db: Tables, u: Uuid): (l: seq<Entry>)
    ensures IsMembershipList(db, u, l)
  {
    ListExists(db, UsableRows(db, u));
    var l :| Lists(db, UsableRows(db, u), l);
    l
  }

  // ---- IdentityService -----------------------------------------------------------

  datatype Lookup = ValueError | Nobody | Somebody(id: Uuid)

  /** `app.find_user` */
  ghost function FindUserRow(db: Tables, email: Option<string>, subject: Option<string>): Option<Uuid>
  {
    if subject.Some? then BySubject(db.users, subject.value)
    else if email.Some? then ByEmail(db.users, Normalize(email.value))
    else None
  }

  /** `IdentityService.find_user`; an empty string counts as missing. */
  ghost function FindUser(db: Tables, email: Option<string>, subject: Option<string>): Lookup
  {
    var noEmail := email.None? || email.value == "";
    var noSubject := subject.None? || subject.value == "";
    if noEmail && noSubject then ValueError
    else
      var row := FindUserRow(db, if noEmail then None else Some(PyNormalize(email.value)), subject);
      if row.Some? then Somebody(row.value) else Nobody
  }

  predicate IsSignupAllowed(db: Tables, email: string)
  {
    SignupAllowed(db.allow, PyNormalize(email))
  }

  // ---- authorize_local_access ------------------------------------------------------

  datatype Label = NotProvisioned | IdentityDisabled | NotAllowlisted | NoActiveMembership | SubjectBinding

  datatype Access =
    | Granted(user: Uuid, email: string, memberships: seq<Entry>)
    | Denied(reason: Label)
    | Broken

  ghost function Authorize(db: Tables, subject: string): Access
  {
    match FindUser(db, None, Some(subject))
    case ValueError => Broken
    case Nobody => Denied(NotProvisioned)
    case Somebody(u) =>
      if !db.users[u].active then Denied(IdentityDisabled)
      else if !IsSignupAllowed(db, db.users[u].email) then Denied(NotAllowlisted)
      else if ListMemberships(db, u) == [] then Denied(NoActiveMembership)
      else Granted(u, db.users[u].email, ListMemberships(db, u))
  }

  // ---- require_account ---------------------------------------------------------------

  /** The first entry for tenant `t`. */
  function FirstFor(l: seq<Entry>, t: Uuid): (r: Option<Entry>)
    ensures r.Some? ==> r.value in l && r.value.tenant == t
    ensures r.None? ==> forall e :: e in l ==> e.tenant != t
  {
    if l == [] then None
    else if l[0].tenant == t then Some(l[0])
    else FirstFor(l[1..], t)
  }

  datatype Resolved =
    | Account(user: Uuid, email: string, entry: Entry)
    | Forbidden(reason: Label)
    | TenantNotPermitted
    | Failure

  ghost function RequireAccount(db: Tables, subject: string, tenant: Option<Uuid>): Resolved
  {
    match Authorize(db, subject)
    case Broken => Failure
    case Denied(reason) => Forbidden(reason)
    case Granted(u, email, l) =>
      match tenant
      case None => Account(u, email, l[0])
      case Some(t) =>
        var found := FirstFor(l, t);
        if found.Some? then Account(u, email, found.value) else TenantNotPermitted
  }

  // ---- provision_account ---------------------------------------------------------------

  /** The arguments `provision_personal_tenant` hands to the database; `None` is SubjectRequired. */
  function ServiceArgs(email: string, subject: string): Option<Args>
  {
    var stripped := Trim(PyStrip, subject);
    if stripped == "" then None else Some(Args(Some(email), Some(stripped), None))
  }

  datatype ProvisionReply =
    | Provisioned(user: Uuid, email: string, entry: Entry, created: bool)
    | SubjectMissing
    | Rejected(why: Refusal)
    | NoAccess(reason: Label)
    | ReadFailure

  /** The route after the profile has been fetched: `o` is what provisioning returned, and `later` are
      the tables its second transaction reads, which other steps may have changed in between. */
  ghost function ProvisionAccount(o: Outcome, later: Tables, email: string, subject: string): ProvisionReply
  {
    if Trim(PyStrip, subject) == "" then SubjectMissing
    else match o
      case Refused(why) => Rejected(why)
      case Accepted(u, t, _, created) =>
        match Authorize(later, subject)
        case Broken => ReadFailure
        case Denied(reason) => NoAccess(reason)
        case Granted(_, _, l) =>
          var own := FirstFor(l, t);
          Provisioned(u, email, if own.Some? then own.value else l[0], created)
  }

  // ---- describe ---------------------------------------------------------------------------

  datatype Line =
    | Allowlisted(yes: bool)
    | NoLocalAccount
    | LocalAccount(active: bool)
    | ExternalSubject(bound: bool)
    | ActiveTenants(count: nat)

  datatype UserRecord = UserRecord(id: Uuid, email: string, subject: Option<string>, active: bool)

  /** The reasons the report gives for what the service answers, whatever their order. */
  ghost predicate Reasons(allowed: bool, user: Option<UserRecord>, memberships: seq<Entry>, reasons: seq<Label>)
  {
    && (NotAllowlisted in reasons <==> !allowed)
    && (IdentityDisabled in reasons <==> user.Some? && !user.value.active)
    && (SubjectBinding in reasons <==> user.Some? && user.value.subject.None?)
    && (NoActiveMembership in reasons <==> user.Some? && memberships == [])
    && NotProvisioned !in reasons
  }

  /** `allowed`, `user` and `memberships` are what `is_signup_allowed`, `find_user` and
      `list_memberships` answer. */
  method Describe(allowed: bool, user: Option<UserRecord>, memberships: seq<Entry>)
    returns (lines: seq<Line>, reasons: seq<Label>)
    ensures Reasons(allowed, user, memberships, reasons)
    ensures lines == [Allowlisted(allowed)] +
                     if user.None? then [NoLocalAccount]
                     else [LocalAccount(user.value.active), ExternalSubject(user.value.subject.Some?),
                           ActiveTenants(|memberships|)]
  {
    lines, reasons := [], [];
    lines := lines + [Allowlisted(allowed)];
    if !allowed {
      reasons := reasons + [NotAllowlisted];
    }
    if user.None? {
      lines := lines + [NoLocalAccount];
      return;
    }
    lines := lines + [LocalAccount(user.value.active)];
    if !user.value.active {
      reasons := reasons + [IdentityDisabled];
    }
    lines := lines + [ExternalSubject(user.value.subject.Some?)];
    if user.value.subject.None? {
      reasons := reasons + [SubjectBinding];
    }
    lines := lines + [ActiveTenants(|memberships|)];
    if memberships == [] {
      reasons := reasons + [NoActiveMembership];
    }
  }

  ghost function RecordOf(db: Tables, email: string): Option<UserRecord>
  {
    match FindUser(db, Some(email), None)
    case Somebody(u) => var row := db.users[u]; Some(UserRecord(u, row.email, row.subject, row.active))
    case _ => None
  }

  /** `reasons` is the report on the non-empty address `email` over these tables. */
  ghost predicate Reported(db: Tables, email: string, reasons: seq<Label>)
  {
    var user := RecordOf(db, email);
    Reasons(IsSignupAllowed(db, email), user,
            if user.Some? then ListMemberships(db, user.value.id) else [], reasons)
  }
}
