/** The objects of backend/storage/tenant_context.py and backend/identity/repository.py: a session whose
    state the scope protocol changes in place, and repositories that keep a reference to it. Executing
    any program on them is what the semantics of programs says, so its theorems hold of the objects. */
module SessionModel {
  import opened Text
  import opened Directory
  import opened RowSecurity
  import opened TenantScope
  import opened TenantIsolation

  class AsyncSession {
    var open: bool
    var failed: bool
    var closed: bool
    var depth: nat
    var setting: Option<Uuid>
    var bound: Option<Uuid>
    var work: Tables
    var base: Tables

    constructor (db: Tables)
      ensures Valid() && State() == FreshSession(db)
    {
      open, failed, closed, depth := false, false, false, 0;
      setting, bound := None, None;
      work, base := db, db;
    }

    function State(): Session
      reads this
    {
      Session(open, failed, closed, depth, setting, bound, work, base)
    }

    /** The class invariant: the tenant setting is empty or equals the bound tenant, unless the
        transaction has failed. Only `_apply` on its own breaks it, and only inside `tenant_scope`. */
    predicate Valid()
      reads this
    {
      Coherent(State())
    }

    /** A statement: begins a transaction if none is open; refused in a failed or lost one. */
    method Prepare() returns (ok: bool)
      modifies this
      ensures ok == CanRun(old(State()))
      ensures State() == if ok then Ready(old(State())) else old(State())
      ensures old(Valid()) ==> Valid()
    {
      if closed || failed {
        return false;
      }
      if !open {
        open, base := true, work;
      }
      return true;
    }

    /** `_apply`; false stands for the raised SQLAlchemyError. */
    method Apply(value: Option<Uuid>) returns (ok: bool)
      modifies this
      ensures ok == CanRun(old(State()))
      ensures State() == SetConfig(old(State()), value)
    {
      ok := Prepare();
      if ok {
        setting := value;
      }
    }

    /** `session.commit()` and `session.rollback()`. */
    method EndTransaction(keep: bool)
      requires Valid()
      modifies this
      ensures Valid()
      ensures State() == End(old(State()), keep)
    {
      if open {
        if !keep || failed {
          work := base;
        }
        open, failed, closed, setting := false, false, depth > 0, None;
      }
    }

    /** `tenant_scope` up to its yield; `Refused` stands for the raised error. */
    method EnterScope(tenant: Uuid) returns (entry: Entry, log: seq<Event>)
      requires Valid()
      modifies this
      ensures Valid()
      ensures (State(), entry) == Enter(old(State()), tenant)
      ensures log == if entry == Opened then Entering(old(State()), tenant, None) else []
    {
      if !open {
        return Refused, [];
      }
      if bound.Some? {
        return if bound == Some(tenant) then Reentered else Refused, [];
      }
      var ok := Apply(Some(tenant));
      if !ok {
        return Refused, [];
      }
      log := [Event(None, State(), None, work, SettingMade)];
      bound := Some(tenant);
      return Opened, log + [Seen(Some(tenant), State())];
    }

    /** `tenant_scope` after its yield, for a normal and for an exceptional end of the block alike. */
    method LeaveScope(entry: Entry) returns (log: seq<Event>)
      requires Valid()
      modifies this
      ensures Valid()
      ensures State() == if entry == Opened then Leave(old(State())) else old(State())
      ensures log == if entry == Opened then Leaving(old(State()), None) else []
    {
      if entry != Opened {
        return [];
      }
      bound := None;
      log := [Event(None, State(), None, work, BindingDropped)];
      if open {
        var _ := Apply(None);
      }
      return log + [Seen(None, State())];
    }

    /** `begin()`; false stands for the raised error. */
    method Begin() returns (ok: bool)
      requires Valid()
      modifies this
      ensures Valid()
      ensures ok == (!old(closed) && !old(open))
      ensures State() == if ok then Ready(old(State())) else old(State())
    {
      if closed || open {
        return false;
      }
      open, base := true, work;
      return true;
    }

    /** Entering a `begin_nested()` or `begin()` block once its transaction stands. */
    method EnterBlock() returns (saved: Session)
      requires Valid() && open
      modifies this
      ensures Valid() && saved == old(State())
      ensures State() == old(State()).(depth := old(depth) + 1)
    {
      saved := State();
      depth := depth + 1;
    }

    /** Leaving a `begin_nested()` block entered in `saved`. */
    method LeaveNested(saved: Session, thrown: bool) returns (raised: bool)
      requires Valid() && Coherent(saved) && CanRun(saved) && saved.open
      requires bound == saved.bound && depth == saved.depth + 1
      modifies this
      ensures Valid()
      ensures (State(), raised) == LeaveSavepoint(saved, old(State()), thrown)
    {
      depth := saved.depth;
      if closed {
        closed := depth > 0;
        return thrown;
      }
      if thrown || failed {
        failed, setting, work := false, saved.setting, saved.work;
        return true;
      }
      return false;
    }

    /** Leaving a `begin()` block entered in `saved`. */
    method LeaveBlock(saved: Session, thrown: bool)
      requires Valid() && saved.depth == 0 && depth == 1
      modifies this
      ensures Valid()
      ensures State() == LeaveTransaction(saved, old(State()), thrown)
    {
      depth := saved.depth;
      if open {
        if thrown || failed {
          work := base;
        }
        open, failed, setting := false, false, None;
      }
      closed := false;
    }
  }

  lemma RowCount(db: Tables, setting: Option<Uuid>)
    ensures |set t | t in db.tenants && TenantsUpdate(setting, t, db.tenants[t])| > 0 <==> Renames(db, setting)
  {
    var rows := set t | t in db.tenants && TenantsUpdate(setting, t, db.tenants[t]);
    if Renames(db, setting) {
      var t :| t in db.tenants && TenantsUpdate(setting, t, db.tenants[t]);
      assert t in rows;
    } else {
      assert rows == {};
    }
  }

  class TenantRepository {
    const session: AsyncSession

    constructor (session: AsyncSession)
      ensures this.session == session
    {
      this.session := session;
    }

    /** `None` stands for the raised error. */
    method GetTenant() returns (row: Option<Option<TenantRecord>>)
      requires session.Valid()
      modifies session
      ensures session.Valid()
      ensures session.State() == if row.Some? then Ready(old(session.State())) else old(session.State())
      ensures row.Some? <==> CanRun(old(session.State()))
      ensures row.Some? ==> row.value == ReadTenant(old(session.work), session.setting)
    {
      var ok := session.Prepare();
      if !ok {
        return None;
      }
      if t :| t in session.work.tenants && TenantsSelect(session.setting, t) {
        return Some(Some(ToRecord(t, session.work.tenants[t])));
      }
      return Some(None);
    }

    /** `None` stands for the raised error: a blank name, or a statement that cannot run. */
    method RenameTenant(name: string) returns (hit: Option<bool>)
      requires session.Valid()
      modifies session
      ensures session.Valid()
      ensures hit.Some? <==> Trim(PyStrip, name) != "" && CanRun(old(session.State()))
      ensures hit.None? ==> session.State() == old(session.State())
      ensures hit.Some? ==>
                (session.State(), Renamed(hit.value)) == RunOp(Ready(old(session.State())), Op.RenameTenant(name))
    {
      var cleaned := Trim(PyStrip, name);
      if cleaned == "" {
        return None;
      }
      var ok := session.Prepare();
      if !ok {
        return None;
      }
      var rowcount := |set t | t in session.work.tenants
                               && TenantsUpdate(session.setting, t, session.work.tenants[t])|;
      assert rowcount > 0 <==> Renames(session.work, session.setting) by {
        RowCount(session.work, session.setting);
      }
      session.work := WriteName(session.work, session.setting, cleaned);
      return Some(rowcount > 0);
    }

    method ListMembers() returns (rows: Option<set<MemberRecord>>)
      requires session.Valid()
      modifies session
      ensures session.Valid()
      ensures session.State() == if rows.Some? then Ready(old(session.State())) else old(session.State())
      ensures rows.Some? <==> CanRun(old(session.State()))
      ensures rows.Some? ==> rows.value == ReadMembers(old(session.work), session.setting)
    {
      var ok := session.Prepare();
      if !ok {
        return None;
      }
      return Some(ReadMembers(session.work, session.setting));
    }
  }

  /** The constructor of `TenantRepository` refuses a session without an active scope. */
  method NewRepository(session: AsyncSession) returns (repo: TenantRepository?)
    ensures (repo == null) == session.bound.None?
    ensures repo != null ==> repo.session == session && fresh(repo)
  {
    if session.bound.None? {
      return null;
    }
    repo := new TenantRepository(session);
  }

  // ---- Programs on the objects -------------------------------------------------------------

  /** A repository call by name; `None` stands for a raised error. */
  method Ask(repo: TenantRepository, op: Op) returns (reply: Option<Reply>)
    requires repo.session.Valid()
    modifies repo.session
    ensures repo.session.Valid()
    ensures var s := old(repo.session.State());
            if CanRun(s) && !(op.RenameTenant? && Trim(PyStrip, op.name) == "")
            then reply.Some? && (repo.session.State(), reply.value) == RunOp(Ready(s), op)
            else reply == None && repo.session.State() == s
  {
    match op
    case GetTenant =>
      var row := repo.GetTenant();
      reply := if row.Some? then Some(TenantRow(row.value)) else None;
    case ListMembers =>
      var rows := repo.ListMembers();
      reply := if rows.Some? then Some(MemberRows(rows.value)) else None;
    case RenameTenant(name) =>
      var hit := repo.RenameTenant(name);
      reply := if hit.Some? then Some(Renamed(hit.value)) else None;
  }

  /** Executes any program on a session and a repository that may have been kept from an earlier scope.
      State, exception and observations are those of the semantics, so that everything proved of it holds
      of the objects: here, that the class invariant and the binding survive and that every observation on
      the way is good. */
  method Execute(session: AsyncSession, repo: TenantRepository, p: Program) returns (thrown: bool, log: seq<Event>)
    requires session.Valid() && repo.session == session
    modifies session
    ensures session.Valid() && session.bound == old(session.bound) && session.depth == old(session.depth)
    ensures Exec(session.State(), thrown, log) == Do(p, old(session.State()), old(session.bound))
    ensures forall e :: e in log ==> Good(e)
    decreases p, 1
  {
    ghost var s := session.State();
    assert s.bound == session.bound;
    Isolation(p, s, s.bound);
    match p
    case Skip =>
      return false, [];
    case Raise =>
      return true, [];
    case Then(a, b) =>
      thrown, log := Execute(session, repo, a);
      if !thrown {
        var more: seq<Event>;
        thrown, more := Execute(session, repo, b);
        log := log + more;
      }
    case Catch(a, h) =>
      thrown, log := Execute(session, repo, a);
      if thrown {
        var more: seq<Event>;
        thrown, more := Execute(session, repo, h);
        log := log + more;
      }
    case Scope(_, _) =>
      thrown, log := ExecuteScope(session, repo, p);
    case Savepoint(_) =>
      thrown, log := ExecuteSavepoint(session, repo, p);
    case Transaction(_) =>
      thrown, log := ExecuteTransaction(session, repo, p);
    case _ =>
      thrown, log := ExecuteStatement(session, repo, p);
  }

  method ExecuteStatement(session: AsyncSession, repo: TenantRepository, p: Program)
    returns (thrown: bool, log: seq<Event>)
    requires session.Valid() && repo.session == session
    requires p.FailingStatement? || p.Begin? || p.Commit? || p.Rollback? || p.Construct? || p.Call?
    modifies session
    ensures Exec(session.State(), thrown, log) == Do(p, old(session.State()), old(session.bound))
  {
    var was := session.work;
    match p
    case FailingStatement =>
      if !session.closed {
        if !session.open {
          session.open, session.base := true, session.work;
        }
        session.failed := true;
      }
      return true, [Seen(session.bound, session.State())];
    case Begin =>
      var ok := session.Begin();
      return !ok, if ok then [Seen(session.bound, session.State())] else [];
    case Commit =>
      if session.closed {
        return true, [];
      }
      session.EndTransaction(true);
      return false, [Seen(session.bound, session.State())];
    case Rollback =>
      session.EndTransaction(false);
      return false, [Seen(session.bound, session.State())];
    case Construct =>
      var made := NewRepository(session);
      return made == null, [];
    case Call(op) =>
      var reply := Ask(repo, op);
      return reply.None?, if reply.Some? then [Event(session.bound, session.State(), reply, was, Between)] else [];
  }

  method ExecuteScope(session: AsyncSession, repo: TenantRepository, p: Program)
    returns (thrown: bool, log: seq<Event>)
    requires session.Valid() && repo.session == session && p.Scope?
    modifies session
    ensures session.Valid()
    ensures Exec(session.State(), thrown, log) == Do(p, old(session.State()), old(session.bound))
    decreases p, 0
  {
    var entry, entering := session.EnterScope(p.tenant);
    if entry == Refused {
      return true, [];
    }
    var inner: seq<Event>;
    thrown, inner := Execute(session, repo, p.body);
    var leaving := session.LeaveScope(entry);
    log := entering + inner + leaving;
  }

  method ExecuteSavepoint(session: AsyncSession, repo: TenantRepository, p: Program)
    returns (thrown: bool, log: seq<Event>)
    requires session.Valid() && repo.session == session && p.Savepoint?
    modifies session
    ensures session.Valid()
    ensures Exec(session.State(), thrown, log) == Do(p, old(session.State()), old(session.bound))
    decreases p, 0
  {
    var ok := session.Prepare();
    if !ok {
      return true, [];
    }
    var saved := session.EnterBlock();
    thrown, log := Execute(session, repo, p.body);
    thrown := session.LeaveNested(saved, thrown);
    log := log + [Seen(session.bound, session.State())];
  }

  method ExecuteTransaction(session: AsyncSession, repo: TenantRepository, p: Program)
    returns (thrown: bool, log: seq<Event>)
    requires session.Valid() && repo.session == session && p.Transaction?
    modifies session
    ensures session.Valid()
    ensures Exec(session.State(), thrown, log) == Do(p, old(session.State()), old(session.bound))
    decreases p, 0
  {
    var ok := session.Begin();
    if !ok {
      return true, [];
    }
    var saved := session.EnterBlock();
    thrown, log := Execute(session, repo, p.body);
    session.LeaveBlock(saved, thrown);
    log := log + [Seen(session.bound, session.State())];
  }

  /** `tenant_transaction` around any body: a session of its own, whose rows of other tenants are left as
      they were and whose body is confined to its tenant. */
  method RunTenantTransaction(db: Tables, tenant: Uuid, body: Program)
    returns (thrown: bool, log: seq<Event>, after: Tables)
    ensures Exec(TenantTransactionEnd(db, tenant, body), thrown, log)
              == Do(TenantTransaction(tenant, body), FreshSession(db), None)
    ensures after == TenantTransactionEnd(db, tenant, body).work
    ensures forall x :: x != tenant ==> Agree(x, after, db)
    ensures forall e :: e in log ==> Good(e)
  {
    var session := new AsyncSession(db);
    var repo := new TenantRepository(session);
    thrown, log := Execute(session, repo, TenantTransaction(tenant, body));
    after := session.work;
    forall x | x != tenant ensures Agree(x, after, db) {
      OthersUnit(x, db, Unit(tenant, body));
    }
  }

  ghost function TenantTransactionEnd(db: Tables, tenant: Uuid, body: Program): Session
  {
    Do(TenantTransaction(tenant, body), FreshSession(db), None).s
  }
}
