/** Tenant isolation of arbitrary programs, by induction over the program. */
module TenantIsolation {
  import opened Text
  import opened Directory
  import opened RowSecurity
  import opened TenantScope

  /** A repository call that ran saw rows of the tenant of its enclosing scope, or nothing. */
  ghost predicate Confined(e: Event)
  {
    e.reply.Some? ==>
      match e.reply.value
      case TenantRow(row) =>
        row.Some? ==>
          && e.scope.Some? && e.scope.value in e.at.work.tenants
          && row.value == ToRecord(e.scope.value, e.at.work.tenants[e.scope.value])
      case MemberRows(rows) =>
        forall r :: r in rows ==>
          && e.scope.Some?
          && exists m :: m in e.at.work.members && e.at.work.members[m].tenant == e.scope.value
                         && e.at.work.members[m].user in e.at.work.users && r == ToMember(e.at.work, m)
      case Renamed(hit) =>
        hit ==> e.scope.Some? && e.scope.value in e.at.work.tenants && e.at.work.tenants[e.scope.value].active
  }

  /** At most the name of the enclosing scope's tenant differs between the two. */
  ghost predicate OnlyNamed(scope: Option<Uuid>, was: Tables, now: Tables)
  {
    && now == was.(tenants := now.tenants) && now.tenants.Keys == was.tenants.Keys
    && forall t :: t in was.tenants ==>
         now.tenants[t] == if scope == Some(t) then was.tenants[t].(name := now.tenants[t].name) else was.tenants[t]
  }

  /** The one exception to coherence: the moment after the setting is made and before it is recorded, and
      the moment after the binding is dropped if there is then still a setting to clear. */
  predicate Torn(e: Event)
  {
    || e.moment == SettingMade
    || (e.moment == BindingDropped && e.at.setting.Some? && !e.at.failed)
  }

  /** The session is coherent but for the torn moments, at which no repository call is answered; the bound
      tenant is the lexically enclosing scope's; and a repository call is confined to it, in what it
      shows and in what it changes. */
  ghost predicate Good(e: Event)
  {
    && (Coherent(e.at) <==> !Torn(e))
    && (e.moment != Between ==> e.reply == None)
    && e.at.bound == e.scope
    && Confined(e)
    && OnlyNamed(e.scope, e.was, e.at.work)
  }

  lemma OpIsConfined(s: Session, op: Op)
    requires Coherent(s) && CanRun(s)
    ensures var (r, reply) := RunOp(Ready(s), op); Good(Event(s.bound, r, Some(reply), s.work, Between))
  {
  }

  lemma ScopeIsGood(s: Session, t: Uuid, x: Session)
    requires Coherent(s) && s.bound == None && s.open && CanRun(s)
    requires Coherent(x) && x.bound == Some(t)
    ensures forall e :: e in Entering(s, t, None) ==> Good(e)
    ensures forall e :: e in Leaving(x, None) ==> Good(e)
    ensures Coherent(Leave(x)) && Leave(x).bound == None
  {
  }

  lemma LeaveIsCoherent(s0: Session, s: Session, thrown: bool)
    requires Coherent(s0) && CanRun(s0) && s0.open
    requires Coherent(s) && s.bound == s0.bound && s.depth == s0.depth + 1
    ensures var left := LeaveSavepoint(s0, s, thrown).0;
            Coherent(left) && left.bound == s0.bound && left.depth == s0.depth
    ensures s0.depth == 0 ==>
              var left := LeaveTransaction(s0, s, thrown);
              Coherent(left) && left.bound == s0.bound && left.depth == 0
  {
  }

  /** What running a program may do to a session, and what may be observed on the way. */
  ghost predicate Isolated(s: Session, x: Exec)
  {
    && Coherent(x.s) && x.s.bound == s.bound && x.s.depth == s.depth
    && (s.closed ==> x.s.closed)
    && forall e :: e in x.log ==> Good(e)
  }

  lemma {:induction false} ScopeIsolated(t: Uuid, body: Program, s: Session)
    requires Coherent(s)
    requires var (r, entry) := Enter(s, t); entry != Refused ==> Isolated(r, Do(body, r, Some(t)))
    ensures Isolated(s, Do(Scope(t, body), s, s.bound))
  {
    var (r, entry) := Enter(s, t);
    if entry == Opened {
      ScopeIsGood(s, t, Do(body, r, Some(t)).s);
    }
  }

  /** A block that is left for a coherent session adds one good observation. */
  lemma BlockEndIsGood(s: Session, log: seq<Event>, left: Session, thrown: bool)
    requires Coherent(left) && left.bound == s.bound && left.depth == s.depth && !s.closed
    requires forall e :: e in log ==> Good(e)
    ensures Isolated(s, Exec(left, thrown, log + [Seen(s.bound, left)]))
  {
    assert Good(Seen(s.bound, left));
  }

  lemma {:induction false} SavepointIsolated(body: Program, s: Session)
    requires Coherent(s) && CanRun(s)
    requires var s1 := Ready(s).(depth := Ready(s).depth + 1); Isolated(s1, Do(body, s1, s.bound))
    ensures Isolated(s, Do(Savepoint(body), s, s.bound))
  {
    var x := Do(body, Ready(s).(depth := Ready(s).depth + 1), s.bound);
    LeaveIsCoherent(Ready(s), x.s, x.thrown);
    var (left, thrown) := LeaveSavepoint(Ready(s), x.s, x.thrown);
    BlockEndIsGood(s, x.log, left, thrown);
    assert Do(Savepoint(body), s, s.bound) == Exec(left, thrown, x.log + [Seen(s.bound, left)]);
  }

  lemma {:induction false} TransactionIsolated(body: Program, s: Session)
    requires Coherent(s) && !s.closed && !s.open
    requires var s1 := Ready(s).(depth := Ready(s).depth + 1); Isolated(s1, Do(body, s1, s.bound))
    ensures Isolated(s, Do(Transaction(body), s, s.bound))
  {
    var x := Do(body, Ready(s).(depth := Ready(s).depth + 1), s.bound);
    LeaveIsCoherent(Ready(s), x.s, x.thrown);
    var left := LeaveTransaction(Ready(s), x.s, x.thrown);
    BlockEndIsGood(s, x.log, left, x.thrown);
    assert Do(Transaction(body), s, s.bound) == Exec(left, x.thrown, x.log + [Seen(s.bound, left)]);
  }

  /** Main theorem. Whatever a program does, nested scopes, savepoints, exceptions, commits, rollbacks
      and failed statements included, it leaves the binding and the block depth as it found them, every
      session on the way is coherent unless it is at a torn moment, and every repository call is confined
      to its enclosing scope. */
  lemma {:induction false} Isolation(p: Program, s: Session, scope: Option<Uuid>)
    requires Coherent(s) && s.bound == scope
    ensures Isolated(s, Do(p, s, scope))
    decreases p
  {
    match p
    case Then(a, b) =>
      Isolation(a, s, scope);
      Isolation(b, Do(a, s, scope).s, scope);
    case Catch(a, h) =>
      Isolation(a, s, scope);
      Isolation(h, Do(a, s, scope).s, scope);
    case Call(op) =>
      if CanRun(s) {
        OpIsConfined(s, op);
      }
    case Scope(t, body) =>
      var (r, entry) := Enter(s, t);
      if entry != Refused {
        Isolation(body, r, Some(t));
      }
      ScopeIsolated(t, body, s);
    case Savepoint(body) =>
      if CanRun(s) {
        Isolation(body, Ready(s).(depth := Ready(s).depth + 1), scope);
        SavepointIsolated(body, s);
      }
    case Transaction(body) =>
      if !s.closed && !s.open {
        Isolation(body, Ready(s).(depth := Ready(s).depth + 1), scope);
        TransactionIsolated(body, s);
      }
    case _ =>
  }

  /** Outside every scope a repository call sees nothing and changes nothing, also through a repository
      object kept past its scope. */
  lemma {:induction false} OutsideSeesNothing(p: Program, s: Session, e: Event)
    requires Coherent(s) && s.bound == None && e in Do(p, s, None).log
    requires e.scope == None && e.reply.Some?
    ensures e.reply.value in {TenantRow(None), MemberRows({}), Renamed(false)}
    ensures e.at.work == e.was
  {
    Isolation(p, s, None);
    assert Good(e);
    assert e.at.work.tenants == e.was.tenants;
    match e.reply.value
    case MemberRows(rows) => assert rows == {};
    case _ =>
  }

  /** The program with every attempt to switch tenant inside a scope replaced by a plain exception. */
  function WithoutSwitches(p: Program, scope: Option<Uuid>): Program
  {
    match p
    case Then(a, b) => Then(WithoutSwitches(a, scope), WithoutSwitches(b, scope))
    case Catch(a, h) => Catch(WithoutSwitches(a, scope), WithoutSwitches(h, scope))
    case Scope(t, body) =>
      if scope.Some? && scope != Some(t) then Raise else Scope(t, WithoutSwitches(body, Some(t)))
    case Savepoint(body) => Savepoint(WithoutSwitches(body, scope))
    case Transaction(body) => Transaction(WithoutSwitches(body, scope))
    case _ => p
  }

  /** A refused switch to another tenant leaves no trace, at any nesting depth of any program: it runs
      nothing of its body and the surrounding scope goes on exactly as after a plain exception. */
  lemma {:induction false} RefusedSwitch(p: Program, s: Session, scope: Option<Uuid>)
    requires Coherent(s) && s.bound == scope
    ensures Do(WithoutSwitches(p, scope), s, scope) == Do(p, s, scope)
    decreases p
  {
    match p
    case Then(a, b) =>
      RefusedSwitch(a, s, scope);
      Isolation(a, s, scope);
      RefusedSwitch(b, Do(a, s, scope).s, scope);
    case Catch(a, h) =>
      RefusedSwitch(a, s, scope);
      Isolation(a, s, scope);
      RefusedSwitch(h, Do(a, s, scope).s, scope);
    case Scope(t, body) =>
      var (r, entry) := Enter(s, t);
      if entry != Refused {
        RefusedSwitch(body, r, Some(t));
      }
    case Savepoint(body) =>
      if CanRun(s) {
        RefusedSwitch(body, Ready(s).(depth := Ready(s).depth + 1), scope);
      }
    case Transaction(body) =>
      if !s.closed && !s.open {
        RefusedSwitch(body, Ready(s).(depth := Ready(s).depth + 1), scope);
      }
    case _ =>
  }

  /** In a fresh tenant transaction the repository does see its tenant, exactly when the row exists. */
  lemma ScopeSeesItsTenant(db: Tables, t: Uuid)
    ensures var x := Do(TenantTransaction(t, Call(GetTenant)), FreshSession(db), None);
            && !x.thrown && x.s.work == db
            && |x.log| == 6 && x.log[2].scope == Some(t)
            && x.log[2].reply == Some(TenantRow(if t in db.tenants then Some(ToRecord(t, db.tenants[t])) else None))
  {
    var s0 := Ready(FreshSession(db)).(depth := 1);
    var (r, entry) := Enter(s0, t);
    var inner := Do(Call(GetTenant), r, Some(t));
    assert inner == Exec(r, false, [Event(Some(t), r, Some(TenantRow(ReadTenant(db, Some(t)))), db, Between)]);
    var mid := Do(Scope(t, Call(GetTenant)), s0, None);
    assert mid == Exec(Leave(r), false, Entering(s0, t, None) + inner.log + Leaving(r, None));
  }

  // ---- What is kept and what is undone -----------------------------------------------------

  /** Inside a block, as long as its transaction is not lost, the tables a rollback returns to stay the
      same. */
  lemma {:induction false} BaseStays(p: Program, s: Session, scope: Option<Uuid>)
    requires Coherent(s) && s.bound == scope && s.depth > 0 && s.open
    ensures var x := Do(p, s, scope).s; !x.closed ==> x.open && x.base == s.base
    decreases p, 0
  {
    match p
    case Then(a, b) =>
      BaseStays(a, s, scope);
      BaseThrough(a, b, s, scope);
    case Catch(a, h) =>
      BaseStays(a, s, scope);
      BaseThrough(a, h, s, scope);
    case Scope(t, body) =>
      var (r, entry) := Enter(s, t);
      if entry != Refused {
        BaseStays(body, r, Some(t));
      }
    case Savepoint(body) =>
      if CanRun(s) {
        BaseStays(body, s.(depth := s.depth + 1), scope);
      }
    case _ =>
  }

  lemma {:induction false} BaseThrough(a: Program, b: Program, s: Session, scope: Option<Uuid>)
    requires Coherent(s) && s.bound == scope && s.depth > 0 && s.open
    requires var x := Do(a, s, scope).s; !x.closed ==> x.open && x.base == s.base
    ensures var x := Do(a, s, scope).s; var y := Do(b, x, scope).s;
            !y.closed ==> y.open && y.base == s.base
    decreases b, 1
  {
    Isolation(a, s, scope);
    var x := Do(a, s, scope).s;
    Isolation(b, x, scope);
    if !x.closed {
      BaseStays(b, x, scope);
    }
  }

  // ---- Non-interference --------------------------------------------------------------

  /** What a client of the session is shown, step by step. */
  function Shown(log: seq<Event>): seq<(Option<Uuid>, Option<Reply>)>
  {
    seq(|log|, i requires 0 <= i < |log| => (log[i].scope, log[i].reply))
  }

  lemma ShownAppend(a: seq<Event>, b: seq<Event>)
    ensures Shown(a + b) == Shown(a) + Shown(b)
  {
  }

  /** The sessions differ at most in rows that tenant `x` cannot see. */
  ghost predicate Alike(x: Uuid, s: Session, t: Session)
  {
    && t == s.(work := t.work, base := t.base)
    && Agree(x, s.work, t.work)
    && Agree(x, s.base, t.base)
  }

  lemma OpAlike(x: Uuid, s: Session, t: Session, op: Op)
    requires Coherent(s) && s.bound == Some(x) && CanRun(s) && s.open && Alike(x, s, t)
    ensures RunOp(s, op).1 == RunOp(t, op).1
    ensures Alike(x, RunOp(s, op).0, RunOp(t, op).0)
  {
    ReadsOnlyOwnRows(x, s.work, t.work);
    if op.RenameTenant? {
      WritesOnlyOwnRow(x, s.setting, s.work, t.work, Trim(PyStrip, op.name));
      if s.setting == None {
        NothingVisible(s.work);
        NothingVisible(t.work);
      }
    }
    if s.setting == None {
      NothingVisible(s.work);
      NothingVisible(t.work);
    }
  }

  lemma NothingVisible(db: Tables)
    ensures ReadTenant(db, None) == None && ReadMembers(db, None) == {} && !Renames(db, None)
    ensures forall name :: WriteName(db, None, name) == db
  {
    forall name ensures WriteName(db, None, name) == db {
      assert WriteName(db, None, name).tenants == db.tenants;
    }
  }

  /** Leaving a block keeps two sessions alike. */
  lemma LeaveAlike(x: Uuid, s0: Session, t0: Session, s: Session, t: Session, thrown: bool)
    requires Alike(x, s0, t0) && Alike(x, s, t)
    ensures var (a, p) := LeaveSavepoint(s0, s, thrown); var (b, q) := LeaveSavepoint(t0, t, thrown);
            p == q && Alike(x, a, b)
    ensures Alike(x, LeaveTransaction(s0, s, thrown), LeaveTransaction(t0, t, thrown))
  {
  }

  /** Two executions that a client of `x` cannot tell apart. */
  ghost predicate SameFor(x: Uuid, e: Exec, f: Exec)
  {
    e.thrown == f.thrown && Alike(x, e.s, f.s) && Shown(e.log) == Shown(f.log)
  }

  lemma OneMoreStep(x: Uuid, e: Exec, f: Exec, s: Session, t: Session, thrown: bool)
    requires SameFor(x, e, f) && Alike(x, s, t)
    ensures SameFor(x, Exec(s, thrown, e.log + [Seen(Some(x), s)]),
                       Exec(t, thrown, f.log + [Seen(Some(x), t)]))
  {
    ShownAppend(e.log, [Seen(Some(x), s)]);
    ShownAppend(f.log, [Seen(Some(x), t)]);
  }

  lemma {:induction false} ThenAlike(a: Program, b: Program, s: Session, t: Session, x: Uuid)
    requires SameFor(x, Do(a, s, Some(x)), Do(a, t, Some(x)))
    requires SameFor(x, Do(b, Do(a, s, Some(x)).s, Some(x)), Do(b, Do(a, t, Some(x)).s, Some(x)))
    ensures SameFor(x, Do(Then(a, b), s, Some(x)), Do(Then(a, b), t, Some(x)))
    ensures SameFor(x, Do(Catch(a, b), s, Some(x)), Do(Catch(a, b), t, Some(x)))
  {
    var e, f := Do(a, s, Some(x)), Do(a, t, Some(x));
    ShownAppend(e.log, Do(b, e.s, Some(x)).log);
    ShownAppend(f.log, Do(b, f.s, Some(x)).log);
  }

  /** What a block makes of the execution of its body. */
  function SavepointEnd(x: Uuid, s0: Session, e: Exec): Exec
  {
    var (left, thrown) := LeaveSavepoint(s0, e.s, e.thrown);
    Exec(left, thrown, e.log + [Seen(Some(x), left)])
  }

  function TransactionEnd(x: Uuid, s0: Session, e: Exec): Exec
  {
    var left := LeaveTransaction(s0, e.s, e.thrown);
    Exec(left, e.thrown, e.log + [Seen(Some(x), left)])
  }

  lemma BlockAlike(x: Uuid, s0: Session, t0: Session, e: Exec, f: Exec)
    requires Alike(x, s0, t0) && SameFor(x, e, f)
    ensures SameFor(x, SavepointEnd(x, s0, e), SavepointEnd(x, t0, f))
    ensures SameFor(x, TransactionEnd(x, s0, e), TransactionEnd(x, t0, f))
  {
    LeaveAlike(x, s0, t0, e.s, f.s, e.thrown);
    var (a, thrown) := LeaveSavepoint(s0, e.s, e.thrown);
    OneMoreStep(x, e, f, a, LeaveSavepoint(t0, f.s, f.thrown).0, thrown);
    OneMoreStep(x, e, f, LeaveTransaction(s0, e.s, e.thrown), LeaveTransaction(t0, f.s, f.thrown), e.thrown);
  }

  lemma {:induction false} SavepointUnfolds(body: Program, s: Session, x: Uuid)
    ensures var e := Do(body, Ready(s).(depth := s.depth + 1), Some(x));
            Do(Savepoint(body), s, Some(x)) == if CanRun(s) then SavepointEnd(x, Ready(s), e) else Exec(s, true, [])
  {
  }

  lemma {:induction false} TransactionUnfolds(body: Program, s: Session, x: Uuid)
    ensures var e := Do(body, Ready(s).(depth := s.depth + 1), Some(x));
            Do(Transaction(body), s, Some(x)) ==
              if !s.closed && !s.open then TransactionEnd(x, Ready(s), e) else Exec(s, true, [])
  {
  }

  lemma {:induction false} StatementAlike(p: Program, s: Session, t: Session, x: Uuid)
    requires p.Skip? || p.Raise? || p.FailingStatement? || p.Begin? || p.Commit? || p.Rollback? || p.Construct?
             || p.Call?
    requires Coherent(s) && s.bound == Some(x) && Alike(x, s, t)
    ensures SameFor(x, Do(p, s, Some(x)), Do(p, t, Some(x)))
  {
    if p.Call? && CanRun(s) {
      OpAlike(x, Ready(s), Ready(t), p.op);
    }
  }

  /** Bound to `x`, a program does and shows the same on any two databases that agree on `x`. */
  lemma {:induction false} DependsOnlyOnOwnRows(p: Program, s: Session, t: Session, x: Uuid)
    requires Coherent(s) && s.bound == Some(x) && Alike(x, s, t)
    ensures SameFor(x, Do(p, s, Some(x)), Do(p, t, Some(x)))
    decreases p, 0
  {
    match p
    case Then(a, b) =>
      DependsOnlyOnOwnRows(a, s, t, x);
      Isolation(a, s, Some(x));
      DependsOnlyOnOwnRows(b, Do(a, s, Some(x)).s, Do(a, t, Some(x)).s, x);
      ThenAlike(a, b, s, t, x);
    case Catch(a, h) =>
      DependsOnlyOnOwnRows(a, s, t, x);
      Isolation(a, s, Some(x));
      DependsOnlyOnOwnRows(h, Do(a, s, Some(x)).s, Do(a, t, Some(x)).s, x);
      ThenAlike(a, h, s, t, x);
    case Scope(u, body) =>
      if s.open && u == x {
        DependsOnlyOnOwnRows(body, s, t, x);
      }
    case Savepoint(body) =>
      if CanRun(s) {
        BlockDependsOnlyOnOwnRows(body, s, t, x);
      }
      SavepointUnfolds(body, s, x);
      SavepointUnfolds(body, t, x);
    case Transaction(body) =>
      if !s.closed && !s.open {
        BlockDependsOnlyOnOwnRows(body, s, t, x);
      }
      TransactionUnfolds(body, s, x);
      TransactionUnfolds(body, t, x);
    case _ => StatementAlike(p, s, t, x);
  }

  lemma {:induction false} BlockDependsOnlyOnOwnRows(body: Program, s: Session, t: Session, x: Uuid)
    requires Coherent(s) && CanRun(s) && s.bound == Some(x) && Alike(x, s, t)
    ensures var e := Do(body, Ready(s).(depth := s.depth + 1), Some(x));
            var f := Do(body, Ready(t).(depth := t.depth + 1), Some(x));
            && SameFor(x, SavepointEnd(x, Ready(s), e), SavepointEnd(x, Ready(t), f))
            && SameFor(x, TransactionEnd(x, Ready(s), e), TransactionEnd(x, Ready(t), f))
    decreases body, 1
  {
    var s1, t1 := Ready(s).(depth := s.depth + 1), Ready(t).(depth := t.depth + 1);
    DependsOnlyOnOwnRows(body, s1, t1, x);
    BlockAlike(x, Ready(s), Ready(t), Do(body, s1, Some(x)), Do(body, t1, Some(x)));
  }

  /** The rows of `x` are those of `d` in the transaction and in what a rollback returns to. */
  ghost predicate Holds(x: Uuid, s: Session, d: Tables)
  {
    Agree(x, s.work, d) && Agree(x, s.base, d)
  }

  lemma {:induction false} CallLeavesOthersAlone(op: Op, s: Session, t: Uuid, x: Uuid, d: Tables)
    requires Coherent(s) && s.bound == Some(t) && t != x && Holds(x, s, d)
    ensures Holds(x, Do(Call(op), s, Some(t)).s, d)
  {
    if CanRun(s) && op.RenameTenant? {
      WritesOnlyOwnRow(x, Ready(s).setting, s.work, d, Trim(PyStrip, op.name));
    }
  }

  /** Bound to another tenant, a program leaves the rows of `x` as they were. */
  lemma {:induction false} LeavesOthersAlone(p: Program, s: Session, t: Uuid, x: Uuid, d: Tables)
    requires Coherent(s) && s.bound == Some(t) && t != x && Holds(x, s, d)
    ensures Holds(x, Do(p, s, Some(t)).s, d)
    decreases p
  {
    match p
    case Then(a, b) =>
      LeavesOthersAlone(a, s, t, x, d);
      Isolation(a, s, Some(t));
      LeavesOthersAlone(b, Do(a, s, Some(t)).s, t, x, d);
    case Catch(a, h) =>
      LeavesOthersAlone(a, s, t, x, d);
      Isolation(a, s, Some(t));
      LeavesOthersAlone(h, Do(a, s, Some(t)).s, t, x, d);
    case Call(op) => CallLeavesOthersAlone(op, s, t, x, d);
    case Scope(u, body) =>
      if s.open && u == t {
        LeavesOthersAlone(body, s, t, x, d);
      }
    case Savepoint(body) =>
      if CanRun(s) {
        var s0 := Ready(s);
        LeavesOthersAlone(body, s0.(depth := s0.depth + 1), t, x, d);
      }
    case Transaction(body) =>
      if !s.closed && !s.open {
        var s0 := Ready(s);
        LeavesOthersAlone(body, s0.(depth := s0.depth + 1), t, x, d);
      }
    case _ =>
  }

  /** One unit of work: a `tenant_transaction` for `tenant` running `body`. */
  datatype Unit = Unit(tenant: Uuid, body: Program)

  ghost function RunUnit(db: Tables, u: Unit): Exec
  {
    Do(TenantTransaction(u.tenant, u.body), FreshSession(db), None)
  }

  /** The tables after a sequence of units, each over a session of its own. */
  ghost function TablesAfter(db: Tables, units: seq<Unit>): Tables
    decreases |units|
  {
    if units == [] then db else TablesAfter(RunUnit(db, units[0]).s.work, units[1..])
  }

  /** What the clients of tenant `x` are shown, unit by unit: how it ended and every reply. */
  ghost function ShownByUnit(x: Uuid, db: Tables, units: seq<Unit>): seq<(bool, seq<(Option<Uuid>, Option<Reply>)>)>
    decreases |units|
  {
    if units == [] then []
    else
      var e := RunUnit(db, units[0]);
      var rest := ShownByUnit(x, e.s.work, units[1..]);
      if units[0].tenant == x then [(e.thrown, Shown(e.log))] + rest else rest
  }

  /** The trace with every unit of another tenant deleted. */
  function OnlyUnits(x: Uuid, units: seq<Unit>): seq<Unit>
  {
    if units == [] then []
    else if units[0].tenant == x then [units[0]] + OnlyUnits(x, units[1..])
    else OnlyUnits(x, units[1..])
  }

  /** The session in which the body of a unit starts: in a transaction of its own, bound to its tenant. */
  function UnitStart(db: Tables, t: Uuid): Session
  {
    Session(true, false, false, 1, Some(t), Some(t), db, db)
  }

  lemma {:induction false} UnitUnfolds(db: Tables, u: Unit)
    ensures var s0 := Ready(FreshSession(db)).(depth := 1);
            var x := Do(u.body, UnitStart(db, u.tenant), Some(u.tenant));
            var done := LeaveTransaction(Ready(FreshSession(db)), Leave(x.s), x.thrown);
            RunUnit(db, u) ==
              Exec(done, x.thrown, Entering(s0, u.tenant, None) + x.log + Leaving(x.s, None) + [Seen(None, done)])
  {
    var s0 := Ready(FreshSession(db)).(depth := 1);
    var r := UnitStart(db, u.tenant);
    assert Enter(s0, u.tenant) == (r, Opened);
    var x := Do(u.body, r, Some(u.tenant));
    var mid := Do(Scope(u.tenant, u.body), s0, None);
    assert mid == Exec(Leave(x.s), x.thrown, Entering(s0, u.tenant, None) + x.log + Leaving(x.s, None));
  }

  lemma {:induction false} OwnUnit(x: Uuid, d: Tables, e: Tables, u: Unit)
    requires Agree(x, d, e) && u.tenant == x
    ensures RunUnit(d, u).thrown == RunUnit(e, u).thrown
    ensures Shown(RunUnit(d, u).log) == Shown(RunUnit(e, u).log)
    ensures Agree(x, RunUnit(d, u).s.work, RunUnit(e, u).s.work)
  {
    UnitUnfolds(d, u);
    UnitUnfolds(e, u);
    var r, q := UnitStart(d, x), UnitStart(e, x);
    DependsOnlyOnOwnRows(u.body, r, q, x);
    Isolation(u.body, r, Some(x));
    var i, j := Do(u.body, r, Some(x)), Do(u.body, q, Some(x));
    forall k | 0 <= k < |RunUnit(d, u).log|
      ensures Shown(RunUnit(d, u).log)[k] == Shown(RunUnit(e, u).log)[k]
    {
      if 2 <= k < |i.log| + 2 {
        assert Shown(i.log)[k - 2] == Shown(j.log)[k - 2];
      }
    }
  }

  lemma {:induction false} OthersUnit(x: Uuid, d: Tables, u: Unit)
    requires u.tenant != x
    ensures Agree(x, RunUnit(d, u).s.work, d)
  {
    UnitUnfolds(d, u);
    LeavesOthersAlone(u.body, UnitStart(d, u.tenant), u.tenant, x, d);
  }

  /** Non-interference of units run one after another: deleting every unit of other tenants, whatever
      programs they run, changes nothing that the clients of `x` are shown, from the first unit to the last, and
      leaves the rows of `x` the same. */
  lemma {:induction false} SerialNonInterference(x: Uuid, d: Tables, e: Tables, units: seq<Unit>)
    requires Agree(x, d, e)
    ensures ShownByUnit(x, d, units) == ShownByUnit(x, e, OnlyUnits(x, units))
    ensures Agree(x, TablesAfter(d, units), TablesAfter(e, OnlyUnits(x, units)))
    decreases |units|
  {
    if units != [] {
      var d', rest := RunUnit(d, units[0]).s.work, units[1..];
      if units[0].tenant == x {
        OwnUnit(x, d, e, units[0]);
        var e' := RunUnit(e, units[0]).s.work;
        SerialNonInterference(x, d', e', rest);
        assert OnlyUnits(x, units)[1..] == OnlyUnits(x, rest);
      } else {
        OthersUnit(x, d, units[0]);
        AgreeTransitive(x, d', d, e);
        SerialNonInterference(x, d', e, rest);
      }
    }
  }

  // ---- Commit and rollback ---------------------------------------------------------------------

  /** A unit leaves the tables its body has led to, if the body neither threw nor left the transaction
      failed, and otherwise the tables it began with; if the body itself has ended the transaction, what it
      left then stands. */
  lemma {:induction false} UnitKeeps(db: Tables, u: Unit)
    ensures var x := Do(u.body, Session(true, false, false, 1, Some(u.tenant), Some(u.tenant), db, db), Some(u.tenant));
            && RunUnit(db, u).thrown == x.thrown
            && RunUnit(db, u).s.work == if x.s.closed || (!x.thrown && !x.s.failed) then x.s.work else db
  {
    UnitUnfolds(db, u);
    var s := UnitStart(db, u.tenant);
    Isolation(u.body, s, Some(u.tenant));
    BaseStays(u.body, s, Some(u.tenant));
  }

  /** A committed rename stands: the row has the stripped name, and nothing else has changed. A tenant that
      is missing or disabled is left alone and the caller is told so; a blank name is refused. */
  lemma {:induction false} RenameStands(db: Tables, t: Uuid, name: string)
    ensures var x := RunUnit(db, Unit(t, Call(RenameTenant(name))));
            var hit := t in db.tenants && db.tenants[t].active && Trim(PyStrip, name) != "";
            && x.thrown == (Trim(PyStrip, name) == "")
            && (!x.thrown ==> exists e :: e in x.log && e.reply == Some(Renamed(hit)))
            && x.s.work == if hit then db.(tenants := db.tenants[t :=
                                         Tenant(Trim(PyStrip, name), db.tenants[t].kind, db.tenants[t].owner, true)])
                           else db
  {
    var u := Unit(t, Call(RenameTenant(name)));
    var s := UnitStart(db, t);
    UnitUnfolds(db, u);
    UnitKeeps(db, u);
    RenameFields(db, t, Trim(PyStrip, name));
    var inner := Do(u.body, s, Some(t));
    if Trim(PyStrip, name) != "" {
      assert inner.log[0] in inner.log;
      assert inner.log[0] in RunUnit(db, u).log;
    }
  }

  /** What ends a transaction outside any block: a commit keeps the writes unless the transaction has
      failed, a rollback goes back to where the transaction began, and either lets the next one begin. */
  lemma {:induction false} EndsOfTransaction(s: Session, scope: Option<Uuid>)
    requires Coherent(s) && s.depth == 0
    ensures var x := Do(Commit, s, scope);
            && !x.thrown && !x.s.open && !x.s.failed && !x.s.closed && x.s.setting == None
            && x.s.work == if s.open && s.failed then s.base else s.work
    ensures var x := Do(Rollback, s, scope);
            && !x.thrown && !x.s.open && !x.s.failed && !x.s.closed && x.s.setting == None
            && x.s.work == if s.open then s.base else s.work
    ensures var x := Do(Begin, s, scope);
            x.thrown == s.open && (!s.open ==> x.s.open && x.s.base == s.work && x.s.work == s.work)
  {
  }

  /** Inside a block the end of the transaction is the end of the block's use: what was committed stands,
      what was rolled back is gone, and no statement runs until the block is left. */
  lemma {:induction false} EndsInsideBlock(s: Session, scope: Option<Uuid>, keep: bool, op: Op)
    requires Coherent(s) && s.depth > 0 && s.open
    ensures var x := Do(if keep then Commit else Rollback, s, scope);
            && !x.thrown && x.s.closed && x.s.work == (if keep && !s.failed then s.work else s.base)
            && Do(Call(op), x.s, scope).thrown && Do(FailingStatement, x.s, scope).s == x.s
            && Do(Begin, x.s, scope) == Exec(x.s, true, []) && Do(Commit, x.s, scope) == Exec(x.s, true, [])
            && !Do(Rollback, x.s, scope).thrown && Do(Rollback, x.s, scope).s == x.s
  {
  }

  /** A savepoint block keeps what its body has done, or, after an exception or a failed statement, takes
      the tables and the tenant setting back to where they were and raises; unless its transaction has been
      ended inside. */
  lemma {:induction false} SavepointKeeps(body: Program, s: Session)
    requires Coherent(s) && CanRun(s) && s.open
    ensures var x := Do(body, s.(depth := s.depth + 1), s.bound); var y := Do(Savepoint(body), s, s.bound);
            && (!x.s.closed && !x.thrown && !x.s.failed ==>
                  !y.thrown && y.s.work == x.s.work && y.s.setting == x.s.setting)
            && (!x.s.closed && (x.thrown || x.s.failed) ==>
                  y.thrown && !y.s.failed && y.s.work == s.work && y.s.setting == s.setting)
            && (x.s.closed ==> y.thrown == x.thrown && y.s.work == x.s.work && y.s.setting == None)
  {
    Isolation(body, s.(depth := s.depth + 1), s.bound);
  }

  /** A failed statement poisons its transaction: whatever is asked next raises and changes nothing, until a
      rollback. */
  lemma {:induction false} FailurePoisons(s: Session, scope: Option<Uuid>, op: Op, t: Uuid, body: Program)
    requires Coherent(s) && !s.closed
    ensures var x := Do(FailingStatement, s, scope);
            && x.thrown && x.s.failed && x.s.work == s.work
            && Do(Call(op), x.s, scope) == Exec(x.s, true, [])
            && Do(Savepoint(body), x.s, scope) == Exec(x.s, true, [])
            && (s.bound == None ==> Do(Scope(t, body), x.s, scope) == Exec(x.s, true, []))
            && !Do(Rollback, x.s, scope).s.failed
  {
    FailedRunsNothing(Do(FailingStatement, s, scope).s, scope, op, t, body);
  }

  lemma {:induction false} FailedRunsNothing(s: Session, scope: Option<Uuid>, op: Op, t: Uuid, body: Program)
    requires s.open && s.failed
    ensures Do(Call(op), s, scope) == Exec(s, true, [])
    ensures Do(Savepoint(body), s, scope) == Exec(s, true, [])
    ensures s.bound == None ==> Do(Scope(t, body), s, scope) == Exec(s, true, [])
  {
  }

  /** A scope is entered if and only if a transaction is open and either the same tenant is bound already,
      or none is and the statement that sets it can run. */
  lemma {:induction false} EntersIff(s: Session, t: Uuid)
    requires Coherent(s)
    ensures Do(Scope(t, Skip), s, s.bound).thrown <==>
              !(s.open && (s.bound == Some(t) || (s.bound == None && !s.failed && !s.closed)))
    ensures Do(Scope(t, Construct), s, s.bound).thrown <==> Do(Scope(t, Skip), s, s.bound).thrown
  {
  }

  /** Re-entering the scope of the bound tenant is transparent: the body runs as if it stood outside. */
  lemma {:induction false} ReentryIsTransparent(s: Session, t: Uuid, body: Program)
    requires s.open && s.bound == Some(t)
    ensures Do(Scope(t, body), s, Some(t)) == Do(body, s, Some(t))
  {
  }

  /** Inside a scope it has opened, a call runs under the scope's tenant; after it, under none. */
  lemma {:induction false} ScopeSetsAndClears(s: Session, t: Uuid, body: Program)
    requires Coherent(s) && s.open && s.bound == None && !s.failed
    ensures var inside := s.(setting := Some(t), bound := Some(t));
            var x := Do(body, inside, Some(t)); var y := Do(Scope(t, body), s, None);
            && y.thrown == x.thrown && y.s.work == x.s.work
            && (!y.s.failed ==> y.s.setting == None)
  {
    Isolation(body, s.(setting := Some(t), bound := Some(t)), Some(t));
  }
}
