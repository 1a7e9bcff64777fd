/** `tenant_scope` over a SQLAlchemy session: what is bound, what PostgreSQL has been told, and what
    arbitrary well-bracketed programs can therefore observe.

    Assumptions about SQLAlchemy and PostgreSQL: a statement begins a transaction when none is open; a
    failed statement poisons the transaction until it is rolled back, whole or to a savepoint; a
    set_config(..., true) is undone by COMMIT, by ROLLBACK and by rolling back to an earlier savepoint;
    COMMIT of a failed transaction rolls back; once a commit or rollback has ended the transaction
    inside a `begin()` or `begin_nested()` block, the session refuses statements until that block is left. */
module TenantScope {
  import opened Text
  import opened Directory
  import opened RowSecurity

  /** `open` is `in_transaction()`; `bound` is `active_tenant`; `setting` is the tenant GUC of the
      transaction; `closed` says that an enclosing block has lost its transaction; `work` are the
      tables as this transaction sees them, `base` what a rollback returns to. */
  datatype Session = Session(
    open: bool, failed: bool, closed: bool, depth: nat,
    setting: Option<Uuid>, bound: Option<Uuid>, work: Tables, base: Tables)

  function FreshSession(db: Tables): Session
  {
    Session(false, false, false, 0, None, None, db, db)
  }

  /** The tenant setting is empty or equals the bound tenant, unless the transaction has failed. */
  predicate Coherent(s: Session)
  {
    && (s.setting.Some? ==> s.open && (s.failed || s.setting == s.bound))
    && (s.failed ==> s.open)
    && (s.closed ==> !s.open && s.depth > 0)
    && (s.depth > 0 ==> s.open || s.closed)
  }

  // ---- Session primitives ---------------------------------------------------------

  /** The session a statement runs in. */
  function Ready(s: Session): Session
  {
    if s.open then s else s.(open := true, base := s.work)
  }

  predicate CanRun(s: Session)
  {
    !s.closed && !s.failed
  }

  /** SELECT set_config('vespers.tenant_id', v, true); an error when it cannot run. */
  function SetConfig(s: Session, v: Option<Uuid>): Session
  {
    if CanRun(s) then Ready(s).(setting := v) else s
  }

  /** COMMIT (`keep`) or ROLLBACK. */
  function End(s: Session, keep: bool): Session
  {
    if !s.open then s
    else s.(open := false, failed := false, closed := s.depth > 0, setting := None,
            work := if keep && !s.failed then s.work else s.base)
  }

  datatype Entry = Refused | Reentered | Opened

  /** `tenant_scope` up to its yield. */
  function Enter(s: Session, t: Uuid): (Session, Entry)
  {
    if !s.open then (s, Refused)
    else if s.bound.Some? then (s, if s.bound == Some(t) then Reentered else Refused)
    else if !CanRun(s) then (s, Refused)
    else (SetConfig(s, Some(t)).(bound := Some(t)), Opened)
  }

  /** The `finally` of an opened scope; an error of the clearing statement is swallowed. */
  function Leave(s: Session): Session
  {
    var popped := s.(bound := None);
    if popped.open then SetConfig(popped, None) else popped
  }

  // ---- Programs ----------------------------------------------------------------------

  /** Python code over one session. `Call` is a repository method on an object constructed at any
      earlier time, `Construct` the constructor itself, `FailingStatement` a statement the database
      rejects, `Transaction` and `Savepoint` the `begin()` and `begin_nested()` blocks. */
  datatype Program =
    | Skip
    | Then(first: Program, second: Program)
    | Catch(body: Program, handler: Program)
    | Raise
    | FailingStatement
    | Begin
    | Commit
    | Rollback
    | Construct
    | Call(op: Op)
    | Scope(tenant: Uuid, body: Program)
    | Savepoint(body: Program)
    | Transaction(body: Program)

  /** Where a session is observed: between two steps of the protocol, or at one of the two moments inside
      `tenant_scope` at which the setting is made and the binding not recorded yet, or the binding dropped
      and the setting not cleared yet. */
  datatype Moment = Between | SettingMade | BindingDropped

  /** One observation: the lexically enclosing scope, the session, the reply if a repository call has just
      been answered, and the tables its statement found. */
  datatype Event = Event(scope: Option<Uuid>, at: Session, reply: Option<Reply>, was: Tables, moment: Moment)

  function Seen(scope: Option<Uuid>, s: Session): Event
  {
    Event(scope, s, None, s.work, Between)
  }

  datatype Exec = Exec(s: Session, thrown: bool, log: seq<Event>)

  /** The effect and reply of a repository statement that runs. */
  ghost function RunOp(s: Session, op: Op): (Session, Reply)
  {
    match op
    case GetTenant => (s, TenantRow(ReadTenant(s.work, s.setting)))
    case ListMembers => (s, MemberRows(ReadMembers(s.work, s.setting)))
    case RenameTenant(name) =>
      (s.(work := WriteName(s.work, s.setting, Trim(PyStrip, name))), Renamed(Renames(s.work, s.setting)))
  }

  /** Leaving a `begin_nested()` block whose body went to `x`, entered in `s0`. */
  function LeaveSavepoint(s0: Session, x: Session, thrown: bool): (Session, bool)
  {
    if x.closed then (x.(depth := s0.depth, closed := s0.depth > 0), thrown)
    else if thrown || x.failed
    then (x.(depth := s0.depth, failed := false, setting := s0.setting, work := s0.work), true)
    else (x.(depth := s0.depth), false)
  }

  /** Leaving a `begin()` block whose body went to `x`. */
  function LeaveTransaction(s0: Session, x: Session, thrown: bool): Session
  {
    End(x.(depth := s0.depth), !thrown).(closed := s0.depth > 0)
  }

  /** What is observed while a scope opens for `t` in `s`, and while an opened scope is left in `s`. */
  function Entering(s: Session, t: Uuid, scope: Option<Uuid>): seq<Event>
  {
    var made := SetConfig(s, Some(t));
    [Event(scope, made, None, made.work, SettingMade), Seen(Some(t), made.(bound := Some(t)))]
  }

  function Leaving(s: Session, scope: Option<Uuid>): seq<Event>
  {
    var dropped := s.(bound := None);
    [Event(scope, dropped, None, dropped.work, BindingDropped), Seen(scope, Leave(s))]
  }

  /** Runs `p` in `s` inside the lexical scope `scope`. */
  ghost function Do(p: Program, s: Session, scope: Option<Uuid>): Exec
    decreases p
  {
    match p
    case Skip => Exec(s, false, [])
    case Then(a, b) =>
      var x := Do(a, s, scope);
      if x.thrown then x
      else var y := Do(b, x.s, scope); Exec(y.s, y.thrown, x.log + y.log)
    case Catch(a, h) =>
      var x := Do(a, s, scope);
      if !x.thrown then x
      else var y := Do(h, x.s, scope); Exec(y.s, y.thrown, x.log + y.log)
    case Raise => Exec(s, true, [])
    case FailingStatement =>
      var r := if s.closed then s else Ready(s).(failed := true);
      Exec(r, true, [Seen(scope, r)])
    case Begin =>
      if s.closed || s.open then Exec(s, true, []) else Exec(Ready(s), false, [Seen(scope, Ready(s))])
    case Commit =>
      if s.closed then Exec(s, true, []) else Exec(End(s, true), false, [Seen(scope, End(s, true))])
    case Rollback => Exec(End(s, false), false, [Seen(scope, End(s, false))])
    case Construct => Exec(s, s.bound.None?, [])
    case Call(op) =>
      if op.RenameTenant? && Trim(PyStrip, op.name) == "" then Exec(s, true, [])
      else if !CanRun(s) then Exec(s, true, [])
      else var (r, reply) := RunOp(Ready(s), op); Exec(r, false, [Event(scope, r, Some(reply), s.work, Between)])
    case Scope(t, body) =>
      var (r, entry) := Enter(s, t);
      (match entry
       case Refused => Exec(r, true, [])
       case Reentered => Do(body, r, Some(t))
       case Opened =>
         var x := Do(body, r, Some(t));
         var left := Leave(x.s);
         Exec(left, x.thrown, Entering(s, t, scope) + x.log + Leaving(x.s, scope)))
    case Savepoint(body) =>
      if !CanRun(s) then Exec(s, true, [])
      else
        var s0 := Ready(s);
        var x := Do(body, s0.(depth := s0.depth + 1), scope);
        var (left, thrown) := LeaveSavepoint(s0, x.s, x.thrown);
        Exec(left, thrown, x.log + [Seen(scope, left)])
    case Transaction(body) =>
      if s.closed || s.open then Exec(s, true, [])
      else
        var s0 := Ready(s);
        var x := Do(body, s0.(depth := s0.depth + 1), scope);
        var left := LeaveTransaction(s0, x.s, x.thrown);
        Exec(left, x.thrown, x.log + [Seen(scope, left)])
  }

  /** `tenant_transaction`: a fresh session, a transaction, and the scope around the body. */
  function TenantTransaction(t: Uuid, body: Program): Program
  {
    Transaction(Scope(t, body))
  }
}
