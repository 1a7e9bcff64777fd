/** Provisioning calls of migration 0004 interleaved statement by statement, with the administrator
    and the runtime working between them.

    Assumptions about PostgreSQL, all at READ COMMITTED:
    - every statement is atomic and reads the tables committed so far plus the writes of its own call;
    - a row lock, and a row or key written but not yet committed, belongs to one call until that call
      commits or aborts, and whoever needs it waits;
    - a duplicate on a key that is not the ON CONFLICT arbiter aborts the call with 23505;
    - any call may abort at any moment (`Crash`), for instance as the victim of a lost connection. */
module Concurrency {
  import opened Text
  import opened Directory
  import opened Provisioning

  type CallId = nat

  /** The statement a call executes next. */
  datatype Pc =
    | CheckAllowed      // IF NOT app.signup_allowed(v_email)
    | FindSubject       // SELECT ... WHERE external_id = v_subject FOR UPDATE
    | TestEmail         // IF EXISTS (... email_normalized = v_email AND id <> v_user_id)
    | MoveEmail         // UPDATE users SET email
    | FindEmail         // SELECT ... WHERE email_normalized = v_email FOR UPDATE
    | InsertUser        // INSERT INTO users ... ON CONFLICT (email_normalized) DO NOTHING
    | RereadEmail       // SELECT ... WHERE email_normalized = v_email FOR UPDATE, second time
    | UpsertTenant      // INSERT INTO tenants ... ON CONFLICT DO UPDATE
    | TestTenant        // IF (SELECT t.status ...) <> 'active'
    | UpsertMember      // INSERT INTO memberships ... ON CONFLICT DO UPDATE
    | TestMember        // IF (SELECT m.status ...) <> 'active'
    | Commit            // the caller's COMMIT
    | Done
    | Failed(why: Refusal)

  /** One call: its request, its PL/pgSQL variables, the rows it has locked and the rows it has
      written but not committed. */
  datatype Call = Call(
    req: Request, pc: Pc,
    user: Uuid, status: bool, tenant: Uuid, created: bool, member: Uuid,
    lockUser: Option<Uuid>, lockTenant: Option<Uuid>, lockMember: Option<Uuid>,
    wroteUser: Option<User>, wroteTenant: Option<Tenant>, wroteMember: Option<Membership>)
  {
    predicate InFlight() { !pc.Done? && !pc.Failed? }

    function Release(to: Pc): Call
    {
      this.(pc := to, lockUser := None, lockTenant := None, lockMember := None,
            wroteUser := None, wroteTenant := None, wroteMember := None)
    }

    function Fail(why: Refusal): Call { Release(Failed(why)) }

    function Result(): Outcome { Accepted(user, tenant, member, created) }
  }

  /** The committed tables and every call ever begun. */
  datatype State = State(db: Tables, calls: map<CallId, Call>)

  datatype Action =
    | Begin(id: CallId, args: Args)
    | Step(id: CallId, newId: Uuid)
    | Crash(id: CallId)
    | Allow(address: string)
    | Disallow(address: string)
    | SetUser(user: Uuid, active: bool)
    | SetTenant(tenant: Uuid, active: bool)
    | SetMember(member: Uuid, active: bool)
    | AddUser(user: Uuid, address: string)
    | AddTeam(tenant: Uuid, owner: Uuid, name: string)
    | AddMember(member: Uuid, user: Uuid, tenant: Uuid, role: Role)
    | Rename(tenant: Uuid, name: string)
    | Bind(address: string, subject: string)

  // ---- One statement ---------------------------------------------------------

  function Overlay<T>(rows: map<Uuid, T>, id: Uuid, wrote: Option<T>): map<Uuid, T>
  {
    if wrote.Some? then rows[id := wrote.value] else rows
  }

  /** What a call sees: the committed tables under its own writes. */
  function See(db: Tables, c: Call): Tables
  {
    Tables(db.allow,
           Overlay(db.users, c.user, c.wroteUser),
           Overlay(db.tenants, c.tenant, c.wroteTenant),
           Overlay(db.members, c.member, c.wroteMember))
  }

  ghost function SubjectRow(users: map<Uuid, User>, s: Option<string>): Option<Uuid>
  {
    if s.Some? then BySubject(users, s.value) else None
  }

  /** IF v_status <> 'active' */
  function TestStatus(c: Call): Call
  {
    if c.status then c.(pc := UpsertTenant) else c.Fail(Disabled)
  }

  ghost function FindSubjectStep(db: Tables, c: Call): Call
  {
    match SubjectRow(db.users, c.req.subject)
    case None => c.(pc := FindEmail)
    case Some(u) =>
      var d := c.(user := u, status := db.users[u].active, lockUser := Some(u));
      if db.users[u].norm != c.req.norm then d.(pc := TestEmail) else TestStatus(d)
  }

  ghost function MoveEmailStep(db: Tables, c: Call): Call
  {
    if TakenByAnother(db.users, c.req.norm, c.user) then c.Fail(UniqueViolation)
    else if c.user !in db.users then TestStatus(c)
    else TestStatus(c.(wroteUser := Some(db.users[c.user].(email := c.req.email, norm := c.req.norm))))
  }

  ghost function FindEmailStep(db: Tables, c: Call): Call
  {
    match ByEmail(db.users, c.req.norm)
    case None => c.(pc := InsertUser)
    case Some(u) => c.Fail(if db.users[u].subject.None? then BindingRequired else SubjectConflict)
  }

  ghost function InsertUserStep(db: Tables, c: Call, newId: Uuid): Call
  {
    if ByEmail(db.users, c.req.norm).Some? then c.(pc := RereadEmail)
    else if SubjectRow(db.users, c.req.subject).Some? then c.Fail(UniqueViolation)
    else TestStatus(c.(user := newId, status := true, lockUser := Some(newId), wroteUser := Some(NewUser(c.req))))
  }

  /** A row that is gone by now leaves v_found NULL, and is reported like an unbound one. */
  ghost function RereadEmailStep(db: Tables, c: Call): Call
  {
    match ByEmail(db.users, c.req.norm)
    case None => c.Fail(BindingRequired)
    case Some(u) =>
      if db.users[u].subject.None? then c.Fail(BindingRequired)
      else if db.users[u].subject != c.req.subject then c.Fail(SubjectConflict)
      else TestStatus(c.(user := u, status := db.users[u].active, lockUser := Some(u)))
  }

  ghost function UpsertTenantStep(db: Tables, c: Call, newId: Uuid): Call
  {
    match PersonalOf(db.tenants, c.user)
    case Some(t) => c.(pc := TestTenant, tenant := t, created := false, lockTenant := Some(t))
    case None => c.(pc := TestTenant, tenant := newId, created := true, lockTenant := Some(newId),
                    wroteTenant := Some(Tenant(c.req.name, Personal, c.user, true)))
  }

  ghost function UpsertMemberStep(db: Tables, c: Call, newId: Uuid): Call
  {
    match LinkOf(db.members, c.user, c.tenant)
    case Some(m) => c.(pc := TestMember, member := m, lockMember := Some(m))
    case None => c.(pc := TestMember, member := newId, lockMember := Some(newId),
                    wroteMember := Some(Membership(c.user, c.tenant, Owner, true)))
  }

  ghost function CheckAllowedStep(db: Tables, c: Call): Call
  {
    if SignupAllowed(db.allow, c.req.norm) then c.(pc := FindSubject) else c.Fail(NotAllowed)
  }

  ghost function TestEmailStep(db: Tables, c: Call): Call
  {
    if TakenByAnother(db.users, c.req.norm, c.user) then c.Fail(EmailConflict) else c.(pc := MoveEmail)
  }

  ghost function TestTenantStep(db: Tables, c: Call): Call
  {
    var tenants := See(db, c).tenants;
    if c.tenant in tenants && !tenants[c.tenant].active then c.Fail(Disabled) else c.(pc := UpsertMember)
  }

  ghost function TestMemberStep(db: Tables, c: Call): Call
  {
    var members := See(db, c).members;
    if c.member in members && !members[c.member].active then c.Fail(Disabled) else c.(pc := Commit)
  }

  /** The next statement of `c`, once nothing makes it wait; `newId` is the uuid an insert draws. */
  ghost function Advance(db: Tables, c: Call, newId: Uuid): Call
  {
    match c.pc
    case CheckAllowed => CheckAllowedStep(db, c)
    case FindSubject => FindSubjectStep(db, c)
    case TestEmail => TestEmailStep(db, c)
    case MoveEmail => MoveEmailStep(db, c)
    case FindEmail => FindEmailStep(db, c)
    case InsertUser => InsertUserStep(db, c, newId)
    case RereadEmail => RereadEmailStep(db, c)
    case UpsertTenant => UpsertTenantStep(db, c, newId)
    case TestTenant => TestTenantStep(db, c)
    case UpsertMember => UpsertMemberStep(db, c, newId)
    case TestMember => TestMemberStep(db, c)
    case Commit => c.Release(Done)
    case Done => c
    case Failed(_) => c
  }

  // ---- Waiting -----------------------------------------------------------------

  /** `d` has an uncommitted user row that takes or gives up the address `e`. */
  predicate HoldsEmail(db: Tables, d: Call, e: string)
  {
    && d.wroteUser.Some?
    && (d.wroteUser.value.norm == e || (d.user in db.users && db.users[d.user].norm == e))
  }

  predicate HoldsSubject(d: Call, s: Option<string>)
  {
    d.wroteUser.Some? && d.wroteUser.value.subject == s
  }

  /** The next statement of `c` has to wait for the transaction of `d`. The upserts also take a key
      share lock on the user row, for the foreign key. */
  ghost predicate Blocks(db: Tables, c: Call, d: Call)
  {
    match c.pc
    case FindSubject =>
      var row := SubjectRow(db.users, c.req.subject); row.Some? && d.lockUser == row
    case FindEmail =>
      var row := ByEmail(db.users, c.req.norm); row.Some? && d.lockUser == row
    case RereadEmail =>
      var row := ByEmail(db.users, c.req.norm); row.Some? && d.lockUser == row
    case MoveEmail => HoldsEmail(db, d, c.req.norm)
    case InsertUser =>
      || HoldsEmail(db, d, c.req.norm)
      || (ByEmail(db.users, c.req.norm).None? && HoldsSubject(d, c.req.subject))
    case UpsertTenant =>
      || d.lockUser == Some(c.user)
      || (d.wroteTenant.Some? && IsPersonal(d.wroteTenant.value, c.user))
      || (var row := PersonalOf(db.tenants, c.user); row.Some? && d.lockTenant == row)
    case UpsertMember =>
      || d.lockUser == Some(c.user)
      || (d.wroteMember.Some? && Links(d.wroteMember.value, c.user, c.tenant))
      || (var row := LinkOf(db.members, c.user, c.tenant); row.Some? && d.lockMember == row)
    case _ => false
  }

  ghost predicate WaitsFor(s: State, i: CallId, j: CallId)
  {
    i in s.calls && j in s.calls && i != j && Blocks(s.db, s.calls[i], s.calls[j])
  }

  predicate Untouched(c: Call, x: Uuid)
  {
    c.lockUser != Some(x) && c.lockTenant != Some(x) && c.lockMember != Some(x)
  }

  /** A uuid that no committed or uncommitted row carries. */
  ghost predicate NewId(s: State, x: Uuid)
  {
    && x !in s.db.users && x !in s.db.tenants && x !in s.db.members
    && forall j :: j in s.calls ==> Untouched(s.calls[j], x)
  }

  // ---- The step relation ---------------------------------------------------------

  ghost predicate Enabled(s: State, a: Action)
  {
    match a
    case Begin(id, _) => id !in s.calls
    case Step(id, x) =>
      && id in s.calls && s.calls[id].InFlight() && NewId(s, x)
      && forall j :: j in s.calls ==> !WaitsFor(s, id, j)
    case Crash(id) => id in s.calls && s.calls[id].InFlight()
    case Allow(_) => true
    case Disallow(_) => true
    case SetUser(u, _) => u in s.db.users && forall j :: j in s.calls ==> s.calls[j].lockUser != Some(u)
    case SetTenant(t, _) => t in s.db.tenants && forall j :: j in s.calls ==> s.calls[j].lockTenant != Some(t)
    case SetMember(m, _) => m in s.db.members && forall j :: j in s.calls ==> s.calls[j].lockMember != Some(m)
    case AddUser(u, e) =>
      && NewId(s, u) && ByEmail(s.db.users, Normalize(e)).None?
      && forall j :: j in s.calls ==> !HoldsEmail(s.db, s.calls[j], Normalize(e))
    case AddTeam(t, owner, _) => NewId(s, t) && owner in s.db.users
    case AddMember(m, u, t, _) =>
      && NewId(s, m) && u in s.db.users && t in s.db.tenants && LinkOf(s.db.members, u, t).None?
      && forall j :: j in s.calls && s.calls[j].wroteMember.Some? ==> !Links(s.calls[j].wroteMember.value, u, t)
    case Rename(t, _) => t in s.db.tenants && forall j :: j in s.calls ==> s.calls[j].lockTenant != Some(t)
    case Bind(e, x) =>
      var b := DecideBinding(s.db, e, x);
      b.Bound? ==> forall j :: j in s.calls ==>
        s.calls[j].lockUser != Some(b.user) && !HoldsSubject(s.calls[j], Some(Trim(Btrim, x)))
  }

  /** What an administrative or runtime step outside provisioning does to the committed tables. */
  ghost function EnvPost(db: Tables, a: Action): Tables
  {
    match a
    case Allow(e) => db.(allow := db.allow + {Normalize(e)})
    case Disallow(e) => db.(allow := db.allow - {Normalize(e)})
    case SetUser(u, b) => if u in db.users then db.(users := db.users[u := db.users[u].(active := b)]) else db
    case SetTenant(t, b) =>
      if t in db.tenants then db.(tenants := db.tenants[t := db.tenants[t].(active := b)]) else db
    case SetMember(m, b) =>
      if m in db.members then db.(members := db.members[m := db.members[m].(active := b)]) else db
    case AddUser(u, e) => db.(users := db.users[u := User(e, Normalize(e), None, true)])
    case AddTeam(t, owner, name) => db.(tenants := db.tenants[t := Tenant(name, Team, owner, true)])
    case AddMember(m, u, t, role) => db.(members := db.members[m := Membership(u, t, role, true)])
    case Rename(t, name) =>
      if t in db.tenants then db.(tenants := db.tenants[t := db.tenants[t].(name := name)]) else db
    case Bind(e, x) => AfterBinding(db, e, x)
    case _ => db
  }

  function NewCall(a: Args): Call
  {
    var blank := Request("", "", None, "");
    match Parse(a)
    case Bad(why) =>
      Call(blank, Failed(why), 0, false, 0, false, 0, None, None, None, None, None, None)
    case Good(req) =>
      Call(req, CheckAllowed, 0, false, 0, false, 0, None, None, None, None, None, None)
  }

  ghost function Apply(s: State, a: Action): State
  {
    match a
    case Begin(id, args) => s.(calls := s.calls[id := NewCall(args)])
    case Step(id, x) =>
      if id !in s.calls then s
      else State(if s.calls[id].pc.Commit? then See(s.db, s.calls[id]) else s.db,
                 s.calls[id := Advance(s.db, s.calls[id], x)])
    case Crash(id) => if id !in s.calls then s else s.(calls := s.calls[id := s.calls[id].Fail(Interrupted)])
    case _ => s.(db := EnvPost(s.db, a))
  }

  /** The action commits a call. */
  predicate Commits(s: State, a: Action)
  {
    a.Step? && a.id in s.calls && s.calls[a.id].pc.Commit?
  }

  /** A run: the states passed through and the actions between them. */
  ghost predicate Run(states: seq<State>, actions: seq<Action>)
  {
    && |states| == |actions| + 1
    && Valid(states[0].db) && states[0].calls == map[]
    && forall k :: 0 <= k < |actions| ==>
         Enabled(states[k], actions[k]) && states[k + 1] == Apply(states[k], actions[k])
  }
}
