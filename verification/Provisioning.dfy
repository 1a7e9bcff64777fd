/** What `app.provision_personal_identity` decides and leaves behind, stated as a decision table
    over the committed tables, for migration 0004 and for the older 0003 version. */
module Provisioning {
  import opened Text
  import opened Directory

  /** The SQL arguments; `None` is NULL. */
  datatype Args = Args(email: Option<string>, subject: Option<string>, name: Option<string>)

  /** The DECLARE block: `btrim(p_email)`, `v_email`, `v_subject` and `v_name`. */
  datatype Request = Request(email: string, norm: string, subject: Option<string>, name: string)

  /** The `gen_random_uuid()` defaults that the three inserts would draw. */
  datatype Ids = Ids(user: Uuid, tenant: Uuid, member: Uuid)

  datatype Refusal =
    | EmailRequired       // 22023
    | SubjectRequired     // 22023
    | NotAllowed          // 42501, "signup not allowed"
    | Disabled            // 42501, "identity disabled"
    | SubjectConflict     // VS001
    | EmailConflict       // VS002
    | BindingRequired     // VS003
    | UniqueViolation     // 23505, raised by PostgreSQL in a race
    | Interrupted         // any other failure of the statement or the connection

  datatype Outcome =
    | Accepted(user: Uuid, tenant: Uuid, member: Uuid, created: bool)
    | Refused(why: Refusal)

  datatype Parsed = Bad(why: Refusal) | Good(req: Request)

  /** `nullif(btrim(x), '')` */
  function NullIfBlank(x: Option<string>): Option<string>
  {
    match x
    case None => None
    case Some(s) => if Trim(Btrim, s) == "" then None else Some(Trim(Btrim, s))
  }

  /** The argument checks of 0003: only an address is demanded. */
  function ParseLegacy(a: Args): Parsed
  {
    if a.email.None? || Normalize(a.email.value) == "" then Bad(EmailRequired)
    else
      var name := NullIfBlank(a.name);
      Good(Request(Trim(Btrim, a.email.value), Normalize(a.email.value), NullIfBlank(a.subject),
                   if name.Some? then name.value else "Personal"))
  }

  /** The argument checks of 0004: a verified subject is demanded as well. */
  function Parse(a: Args): (p: Parsed)
    ensures p.Good? ==> p.req.subject.Some?
  {
    match ParseLegacy(a)
    case Bad(why) => Bad(why)
    case Good(req) => if req.subject.None? then Bad(SubjectRequired) else Good(req)
  }

  ghost predicate Fresh(db: Tables, ids: Ids)
  {
    ids.user !in db.users && ids.tenant !in db.tenants && ids.member !in db.members
  }

  // ---- Migration 0004 --------------------------------------------------------

  /** The decision on tenant and membership, once the user `u` is settled and active. */
  ghost function Settle(db: Tables, u: Uuid, ids: Ids): Outcome
  {
    match PersonalOf(db.tenants, u)
    case None => Accepted(u, ids.tenant, ids.member, true)
    case Some(t) =>
      if !db.tenants[t].active then Refused(Disabled)
      else match LinkOf(db.members, u, t)
        case None => Accepted(u, t, ids.member, false)
        case Some(m) => if db.members[m].active then Accepted(u, t, m, false) else Refused(Disabled)
  }

  ghost predicate TakenByAnother(users: map<Uuid, User>, e: string, u: Uuid)
  {
    exists v :: v in users && v != u && users[v].norm == e
  }

  /** Why the user row is refused, in the order of precedence of the code; `None` lets it pass. */
  ghost function UserRefusal(users: map<Uuid, User>, r: Request): Option<Refusal>
    requires r.subject.Some?
  {
    match BySubject(users, r.subject.value)
    case Some(u) =>
      if TakenByAnother(users, r.norm, u) then Some(EmailConflict)
      else if !users[u].active then Some(Disabled)
      else None
    case None =>
      match ByEmail(users, r.norm)
      case None => None
      case Some(v) => Some(if users[v].subject.None? then BindingRequired else SubjectConflict)
  }

  /** The decision on an allowlisted request with a subject. */
  ghost function Verdict(db: Tables, r: Request, ids: Ids): Outcome
    requires r.subject.Some?
  {
    match UserRefusal(db.users, r)
    case Some(why) => Refused(why)
    case None =>
      match BySubject(db.users, r.subject.value)
      case Some(u) => Settle(db, u, ids)
      case None => Accepted(ids.user, ids.tenant, ids.member, true)
  }

  function NewUser(r: Request): User
  {
    User(r.email, r.norm, r.subject, true)
  }

  function UsersAfter(users: map<Uuid, User>, r: Request, u: Uuid): map<Uuid, User>
  {
    if u !in users then users[u := NewUser(r)]
    else if users[u].norm == r.norm then users
    else users[u := users[u].(email := r.email, norm := r.norm)]
  }

  function TenantsAfter(tenants: map<Uuid, Tenant>, name: string, u: Uuid, t: Uuid): map<Uuid, Tenant>
  {
    if t in tenants then tenants else tenants[t := Tenant(name, Personal, u, true)]
  }

  function MembersAfter(members: map<Uuid, Membership>, u: Uuid, t: Uuid, m: Uuid): map<Uuid, Membership>
  {
    if m in members then members else members[m := Membership(u, t, Owner, true)]
  }

  /** The tables an accepted request leaves behind. */
  function Post(db: Tables, r: Request, o: Outcome): Tables
    requires o.Accepted?
  {
    Tables(db.allow,
           UsersAfter(db.users, r, o.user),
           TenantsAfter(db.tenants, r.name, o.user, o.tenant),
           MembersAfter(db.members, o.user, o.tenant, o.member))
  }

  /** The allowlist check, and the decision behind it. */
  ghost function Answer(db: Tables, r: Request, ids: Ids): Outcome
    requires r.subject.Some?
  {
    if SignupAllowed(db.allow, r.norm) then Verdict(db, r, ids) else Refused(NotAllowed)
  }

  /** The whole call of 0004: argument checks, allowlist, decision. */
  ghost function Decide(db: Tables, a: Args, ids: Ids): Outcome
  {
    match Parse(a)
    case Bad(why) => Refused(why)
    case Good(r) => Answer(db, r, ids)
  }

  ghost function After(db: Tables, a: Args, ids: Ids): Tables
  {
    var o := Decide(db, a, ids);
    if o.Accepted? then Post(db, Parse(a).req, o) else db
  }

  // ---- Migration 0003 --------------------------------------------------------

  ghost function SettleLegacy(db: Tables, u: Uuid, ids: Ids): Outcome
  {
    match PersonalOf(db.tenants, u)
    case None => Accepted(u, ids.tenant, ids.member, true)
    case Some(t) =>
      match LinkOf(db.members, u, t)
      case None => Accepted(u, t, ids.member, false)
      case Some(m) => Accepted(u, t, m, false)
  }

  /** The row 0003 works on: the subject's, or failing that the address's. */
  ghost function LegacyMatch(users: map<Uuid, User>, r: Request): Option<Uuid>
  {
    var bySubject := if r.subject.Some? then BySubject(users, r.subject.value) else None;
    if bySubject.Some? then bySubject else ByEmail(users, r.norm)
  }

  ghost function UserRefusalLegacy(users: map<Uuid, User>, r: Request): Option<Refusal>
  {
    match LegacyMatch(users, r)
    case None => None
    case Some(u) =>
      if r.subject.Some? && users[u].subject == r.subject && TakenByAnother(users, r.norm, u)
      then Some(EmailConflict)
      else if r.subject.Some? && users[u].subject.Some? && users[u].subject != r.subject
      then Some(SubjectConflict)
      else if !users[u].active then Some(Disabled)
      else None
  }

  ghost function VerdictLegacy(db: Tables, r: Request, ids: Ids): Outcome
  {
    match UserRefusalLegacy(db.users, r)
    case Some(why) => Refused(why)
    case None =>
      match LegacyMatch(db.users, r)
      case Some(u) => SettleLegacy(db, u, ids)
      case None => Accepted(ids.user, ids.tenant, ids.member, true)
  }

  /** As `UsersAfter`, but a row without a subject adopts the one presented, and a call without a
      subject resolves an existing row unchanged. */
  function UsersAfterLegacy(users: map<Uuid, User>, r: Request, u: Uuid): map<Uuid, User>
  {
    if u !in users then users[u := NewUser(r)]
    else if r.subject.None? then users
    else if users[u].subject.None? then users[u := users[u].(subject := r.subject)]
    else UsersAfter(users, r, u)
  }

  function PostLegacy(db: Tables, r: Request, o: Outcome): Tables
    requires o.Accepted?
  {
    Post(db, r, o).(users := UsersAfterLegacy(db.users, r, o.user))
  }

  ghost function DecideLegacy(db: Tables, a: Args, ids: Ids): Outcome
  {
    match ParseLegacy(a)
    case Bad(why) => Refused(why)
    case Good(r) => if SignupAllowed(db.allow, r.norm) then VerdictLegacy(db, r, ids) else Refused(NotAllowed)
  }

  ghost function AfterLegacy(db: Tables, a: Args, ids: Ids): Tables
  {
    var o := DecideLegacy(db, a, ids);
    if o.Accepted? then PostLegacy(db, ParseLegacy(a).req, o) else db
  }

  // ---- infra/bind-subject.sql --------------------------------------------------

  datatype Binding =
    | Bound(user: Uuid)
    | NoEmail | NoSubject | NoUser | AlreadyBound | SubjectTaken

  ghost function DecideBinding(db: Tables, email: string, subject: string): Binding
  {
    if Normalize(email) == "" then NoEmail
    else if Trim(Btrim, subject) == "" then NoSubject
    else match ByEmail(db.users, Normalize(email))
      case None => NoUser
      case Some(u) =>
        if db.users[u].subject.Some? then AlreadyBound
        else if BySubject(db.users, Trim(Btrim, subject)).Some? then SubjectTaken
        else Bound(u)
  }

  ghost function AfterBinding(db: Tables, email: string, subject: string): (after: Tables)
  {
    var b := DecideBinding(db, email, subject);
    if b.Bound?
    then db.(users := db.users[b.user := db.users[b.user].(subject := Some(Trim(Btrim, subject)))])
    else db
  }
}
