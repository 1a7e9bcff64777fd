/** Every program is a trace: what a program does on a session of its own is what its statements, one after
    the other, do to one session of the interleaved system while nobody else moves; and next to others it
    executes the same statements and stands where it would stand alone. */
module TenantPrograms {
  import opened Text
  import opened Directory
  import opened RowSecurity
  import opened TenantScope
  import opened TenantIsolation
  import Traces = TenantTraces

  /** The statements a program executes from `s` on. */
  ghost function Script(p: Program, s: Session, scope: Option<Uuid>): seq<Traces.Statement>
    decreases p
  {
    match p
    case Skip => []
    case Raise => []
    case Then(a, b) =>
      var x := Do(a, s, scope);
      Script(a, s, scope) + if x.thrown then [] else Script(b, x.s, scope)
    case Catch(a, h) =>
      var x := Do(a, s, scope);
      Script(a, s, scope) + if x.thrown then Script(h, x.s, scope) else []
    case FailingStatement => [Traces.Fail]
    case Begin => [Traces.BeginWork]
    case Commit => [Traces.CommitWork]
    case Rollback => [Traces.RollbackWork]
    case Construct => [Traces.Build]
    case Call(op) => [Traces.Query(op)]
    case Scope(t, body) =>
      var (r, entry) := Enter(s, t);
      if entry == Refused then [Traces.EnterScope(t)]
      else [Traces.EnterScope(t)] + Script(body, r, Some(t)) + [Traces.LeaveInner(Do(body, r, Some(t)).thrown)]
    case Savepoint(body) =>
      if !CanRun(s) then [Traces.EnterSavepoint]
      else
        var s1 := Ready(s).(depth := Ready(s).depth + 1);
        [Traces.EnterSavepoint] + Script(body, s1, scope) + [Traces.LeaveInner(Do(body, s1, scope).thrown)]
    case Transaction(body) =>
      if s.closed || s.open then [Traces.EnterTransaction]
      else
        var s1 := Ready(s).(depth := Ready(s).depth + 1);
        [Traces.EnterTransaction] + Script(body, s1, scope) + [Traces.LeaveInner(Do(body, s1, scope).thrown)]
  }

  /** One session over the committed tables, and the replies it has been given. */
  datatype Solo = Solo(db: Tables, c: Traces.Client, replies: seq<Reply>)

  ghost function Advance(x: Solo, st: Traces.Statement): Solo
  {
    var (db, c, output) := Traces.Run(x.db, x.c, st);
    Solo(db, c, if output.Replied? then x.replies + [output.reply] else x.replies)
  }

  ghost function RunAll(x: Solo, sts: seq<Traces.Statement>): Solo
  {
    if sts == [] then x else Advance(RunAll(x, sts[..|sts| - 1]), sts[|sts| - 1])
  }

  lemma {:induction false} RunAllAppend(x: Solo, a: seq<Traces.Statement>, b: seq<Traces.Statement>)
    ensures RunAll(x, a + b) == RunAll(RunAll(x, a), b)
    decreases |b|
  {
    if b == [] {
      assert a + b == a;
    } else {
      var init, last := b[..|b| - 1], b[|b| - 1];
      RunAllAppend(x, a, init);
      assert (a + b)[..|a + b| - 1] == a + init;
    }
  }

  lemma RunOne(x: Solo, st: Traces.Statement)
    ensures RunAll(x, [st]) == Advance(x, st)
  {
    assert [st][..0] == [];
  }

  /** The replies of the log, in order. */
  ghost function Replies(log: seq<Event>): seq<Reply>
  {
    if log == [] then []
    else
      var e := log[|log| - 1];
      Replies(log[..|log| - 1]) + if e.reply.Some? then [e.reply.value] else []
  }

  lemma {:induction false} RepliesAppend(a: seq<Event>, b: seq<Event>)
    ensures Replies(a + b) == Replies(a) + Replies(b)
    decreases |b|
  {
    if b == [] {
      assert a + b == a;
    } else {
      RepliesAppend(a, b[..|b| - 1]);
      assert (a + b)[..|a + b| - 1] == a + b[..|b| - 1];
    }
  }

  lemma SilentLog(e: Event, f: Event)
    requires e.reply == None && f.reply == None
    ensures Replies([e]) == [] && Replies([e, f]) == []
  {
    assert [e][..0] == [] && [e, f][..1] == [e];
  }

  /** The session of the interleaved system is where the program semantics has it. */
  ghost predicate At(x: Solo, s: Session)
  {
    && Traces.View(x.db, x.c) == s.(base := x.db)
    && (s.open ==> s.base == x.db)
    && (!s.open ==> x.c.names == map[])
  }

  /** What running the statements of `p` should have led to. */
  ghost predicate Follows(x: Solo, y: Solo, e: Exec)
  {
    At(y, e.s) && y.c.frames == x.c.frames && y.replies == x.replies + Replies(e.log)
  }

  lemma {:induction false} StatementFollows(p: Program, x: Solo, s: Session, scope: Option<Uuid>)
    requires At(x, s)
    requires p.Skip? || p.Raise? || p.FailingStatement? || p.Begin? || p.Commit? || p.Rollback? || p.Construct?
    ensures Follows(x, RunAll(x, Script(p, s, scope)), Do(p, s, scope))
  {
    Traces.SeeNothing(x.db);
    var sts := Script(p, s, scope);
    if sts != [] {
      RunOne(x, sts[0]);
      assert sts == [sts[0]];
      Traces.SeeNothing(Advance(x, sts[0]).db);
    }
    var log := Do(p, s, scope).log;
    if log != [] {
      assert log == [log[0]];
      SilentLog(log[0], log[0]);
    }
  }

  lemma {:induction false} CallFollows(op: Op, x: Solo, s: Session, scope: Option<Uuid>)
    requires At(x, s)
    ensures Follows(x, RunAll(x, Script(Call(op), s, scope)), Do(Call(op), s, scope))
  {
    Traces.SeeNothing(x.db);
    RunOne(x, Traces.Query(op));
    if op.RenameTenant? {
      Traces.RenamingIsWrite(x.db, x.c, Trim(PyStrip, op.name));
    }
    var log := Do(Call(op), s, scope).log;
    if log != [] {
      assert log == [log[0]] && log[..0] == [];
    }
  }

  // ---- Composition -----------------------------------------------------------------------------

  lemma FollowsThen(x: Solo, y: Solo, z: Solo, e: Exec, f: Exec)
    requires Follows(x, y, e) && Follows(y, z, f)
    ensures Follows(x, z, Exec(f.s, f.thrown, e.log + f.log))
  {
    RepliesAppend(e.log, f.log);
  }

  /** Entering, a body, and leaving, where entering and leaving are silent. */
  lemma FollowsBlock(x: Solo, y: Solo, z: Solo, e: Exec, before: seq<Event>, after: seq<Event>, left: Session,
                     thrown: bool)
    requires y.replies == x.replies + Replies(e.log) && z.replies == y.replies && z.c.frames == x.c.frames
    requires Replies(before) == [] && Replies(after) == [] && At(z, left)
    ensures Follows(x, z, Exec(left, thrown, before + e.log + after))
  {
    RepliesAppend(before, e.log);
    RepliesAppend(before + e.log, after);
  }

  lemma {:induction false} SequenceUnfolds(a: Program, b: Program, s: Session, scope: Option<Uuid>)
    ensures var e := Do(a, s, scope); var f := Do(b, e.s, scope);
            var both := Exec(f.s, f.thrown, e.log + f.log);
            && Do(Then(a, b), s, scope) == (if e.thrown then e else both)
            && Do(Catch(a, b), s, scope) == (if e.thrown then both else e)
    ensures var e := Do(a, s, scope); var both := Script(a, s, scope) + Script(b, e.s, scope);
            && Script(Then(a, b), s, scope) == (if e.thrown then Script(a, s, scope) else both)
            && Script(Catch(a, b), s, scope) == (if e.thrown then both else Script(a, s, scope))
  {
    assert Script(a, s, scope) + [] == Script(a, s, scope);
  }

  lemma {:induction false} SequenceFollows(a: Program, b: Program, x: Solo, s: Session, scope: Option<Uuid>)
    requires Follows(x, RunAll(x, Script(a, s, scope)), Do(a, s, scope))
    requires var y, e := RunAll(x, Script(a, s, scope)), Do(a, s, scope);
             Follows(y, RunAll(y, Script(b, e.s, scope)), Do(b, e.s, scope))
    ensures Follows(x, RunAll(x, Script(Then(a, b), s, scope)), Do(Then(a, b), s, scope))
    ensures Follows(x, RunAll(x, Script(Catch(a, b), s, scope)), Do(Catch(a, b), s, scope))
  {
    var y, e := RunAll(x, Script(a, s, scope)), Do(a, s, scope);
    FollowsThen(x, y, RunAll(y, Script(b, e.s, scope)), e, Do(b, e.s, scope));
    RunAllAppend(x, Script(a, s, scope), Script(b, e.s, scope));
    SequenceUnfolds(a, b, s, scope);
  }

  /** The statements of a block: entering, the body, leaving. */
  lemma BlockRuns(x: Solo, enter: Traces.Statement, body: seq<Traces.Statement>, leave: Traces.Statement)
    ensures RunAll(x, [enter] + body + [leave]) == Advance(RunAll(Advance(x, enter), body), leave)
  {
    RunAllAppend(x, [enter] + body, [leave]);
    RunAllAppend(x, [enter], body);
    RunOne(x, enter);
    RunOne(RunAll(Advance(x, enter), body), leave);
  }

  lemma EnterScopeFollows(x: Solo, s: Session, t: Uuid)
    requires At(x, s)
    ensures var (r, entry) := Enter(s, t); var y := Advance(x, Traces.EnterScope(t));
            && At(y, r) && y.replies == x.replies
            && y.c.frames == if entry == Refused then x.c.frames
                             else [Traces.InScope(t, entry == Opened)] + x.c.frames
  {
    Traces.SeeNothing(x.db);
  }

  lemma LeaveScopeFollows(y: Solo, s: Session, t: Uuid, outermost: bool, frames: seq<Traces.Frame>, thrown: bool)
    requires At(y, s) && y.c.frames == [Traces.InScope(t, outermost)] + frames
    ensures var z := Advance(y, Traces.LeaveInner(thrown));
            At(z, if outermost then Leave(s) else s) && z.replies == y.replies && z.c.frames == frames
  {
    assert y.c.frames[1..] == frames;
    Traces.SeeNothing(y.db);
  }

  lemma {:induction false} ScopeUnfolds(t: Uuid, body: Program, s: Session, scope: Option<Uuid>)
    requires Enter(s, t).1 != Refused
    ensures var (r, entry) := Enter(s, t); var e := Do(body, r, Some(t));
            && Script(Scope(t, body), s, scope)
                 == [Traces.EnterScope(t)] + Script(body, r, Some(t)) + [Traces.LeaveInner(e.thrown)]
            && Do(Scope(t, body), s, scope)
                 == if entry == Reentered then e
                    else Exec(Leave(e.s), e.thrown, Entering(s, t, scope) + e.log + Leaving(e.s, scope))
  {
  }

  lemma {:induction false} ScopeFollows(t: Uuid, body: Program, x: Solo, s: Session, scope: Option<Uuid>)
    requires At(x, s)
    requires var (r, entry) := Enter(s, t); var y := Advance(x, Traces.EnterScope(t));
             entry != Refused ==> Follows(y, RunAll(y, Script(body, r, Some(t))), Do(body, r, Some(t)))
    ensures Follows(x, RunAll(x, Script(Scope(t, body), s, scope)), Do(Scope(t, body), s, scope))
  {
    var (r, entry) := Enter(s, t);
    EnterScopeFollows(x, s, t);
    if entry == Refused {
      RunOne(x, Traces.EnterScope(t));
    } else {
      var e := Do(body, r, Some(t));
      var y := RunAll(Advance(x, Traces.EnterScope(t)), Script(body, r, Some(t)));
      var z := Advance(y, Traces.LeaveInner(e.thrown));
      BlockRuns(x, Traces.EnterScope(t), Script(body, r, Some(t)), Traces.LeaveInner(e.thrown));
      LeaveScopeFollows(y, e.s, t, entry == Opened, x.c.frames, e.thrown);
      ScopeUnfolds(t, body, s, scope);
      if entry == Opened {
        SilentLog(Entering(s, t, scope)[0], Entering(s, t, scope)[1]);
        SilentLog(Leaving(e.s, scope)[0], Leaving(e.s, scope)[1]);
        FollowsBlock(x, y, z, e, Entering(s, t, scope), Leaving(e.s, scope), Leave(e.s), e.thrown);
      }
    }
  }

  lemma EnterSavepointFollows(x: Solo, s: Session)
    requires At(x, s)
    ensures var y := Advance(x, Traces.EnterSavepoint);
            if CanRun(s) then
              && At(y, Ready(s).(depth := Ready(s).depth + 1)) && y.replies == x.replies && y.db == x.db
              && y.c.frames == [Traces.InSavepoint(Ready(s).depth, Ready(s).setting, x.c.names)] + x.c.frames
            else y == x
  {
    Traces.SeeNothing(x.db);
  }

  lemma LeaveSavepointFollows(y: Solo, s: Session, s0: Session, names: Traces.Names, frames: seq<Traces.Frame>,
                              thrown: bool)
    requires At(y, s) && y.c.frames == [Traces.InSavepoint(s0.depth, s0.setting, names)] + frames
    requires s.closed ==> !s.open
    requires !s.closed ==> s.open && s0.work == Traces.See(y.db, names)
    ensures var z := Advance(y, Traces.LeaveInner(thrown));
            At(z, LeaveSavepoint(s0, s, thrown).0) && z.replies == y.replies && z.c.frames == frames
  {
    assert y.c.frames[1..] == frames;
  }

  lemma {:induction false} SavepointUnfolds(body: Program, s: Session, scope: Option<Uuid>)
    requires CanRun(s)
    ensures var s1 := Ready(s).(depth := Ready(s).depth + 1); var e := Do(body, s1, scope);
            var (left, thrown) := LeaveSavepoint(Ready(s), e.s, e.thrown);
            && Script(Savepoint(body), s, scope)
                 == [Traces.EnterSavepoint] + Script(body, s1, scope) + [Traces.LeaveInner(e.thrown)]
            && Do(Savepoint(body), s, scope) == Exec(left, thrown, e.log + [Seen(scope, left)])
  {
  }

  lemma {:induction false} TransactionUnfolds(body: Program, s: Session, scope: Option<Uuid>)
    requires !s.closed && !s.open
    ensures var s1 := Ready(s).(depth := Ready(s).depth + 1); var e := Do(body, s1, scope);
            var left := LeaveTransaction(Ready(s), e.s, e.thrown);
            && Script(Transaction(body), s, scope)
                 == [Traces.EnterTransaction] + Script(body, s1, scope) + [Traces.LeaveInner(e.thrown)]
            && Do(Transaction(body), s, scope) == Exec(left, e.thrown, e.log + [Seen(scope, left)])
  {
  }

  /** A block as a whole, from what entering it, its body and leaving it do. */
  lemma BlockFollows(x: Solo, enter: Traces.Statement, body: seq<Traces.Statement>, e: Exec, left: Session,
                     thrown: bool, scope: Option<Uuid>)
    requires var y := RunAll(Advance(x, enter), body);
             && Advance(x, enter).replies == x.replies && y.replies == x.replies + Replies(e.log)
             && var z := Advance(y, Traces.LeaveInner(e.thrown));
                At(z, left) && z.replies == y.replies && z.c.frames == x.c.frames
    ensures Follows(x, RunAll(x, [enter] + body + [Traces.LeaveInner(e.thrown)]),
                    Exec(left, thrown, e.log + [Seen(scope, left)]))
  {
    var y := RunAll(Advance(x, enter), body);
    SilentLog(Seen(scope, left), Seen(scope, left));
    FollowsBlock(x, y, Advance(y, Traces.LeaveInner(e.thrown)), e, [], [Seen(scope, left)], left, thrown);
    assert [] + e.log == e.log;
    BlockRuns(x, enter, body, Traces.LeaveInner(e.thrown));
  }

  lemma {:induction false} SavepointFollows(body: Program, x: Solo, s: Session, scope: Option<Uuid>)
    requires At(x, s) && Coherent(s) && s.bound == scope
    requires var s1 := Ready(s).(depth := Ready(s).depth + 1); var y := Advance(x, Traces.EnterSavepoint);
             CanRun(s) ==> Follows(y, RunAll(y, Script(body, s1, scope)), Do(body, s1, scope))
    ensures Follows(x, RunAll(x, Script(Savepoint(body), s, scope)), Do(Savepoint(body), s, scope))
  {
    EnterSavepointFollows(x, s);
    if CanRun(s) {
      var s1 := Ready(s).(depth := Ready(s).depth + 1);
      var e, sts := Do(body, s1, scope), Script(body, s1, scope);
      Isolation(body, s1, scope);
      BaseStays(body, s1, scope);
      var y := RunAll(Advance(x, Traces.EnterSavepoint), sts);
      LeaveSavepointFollows(y, e.s, Ready(s), x.c.names, x.c.frames, e.thrown);
      var (left, thrown) := LeaveSavepoint(Ready(s), e.s, e.thrown);
      BlockFollows(x, Traces.EnterSavepoint, sts, e, left, thrown, scope);
      SavepointUnfolds(body, s, scope);
    } else {
      RunOne(x, Traces.EnterSavepoint);
    }
  }

  lemma EnterTransactionFollows(x: Solo, s: Session)
    requires At(x, s)
    ensures var y := Advance(x, Traces.EnterTransaction);
            if !s.closed && !s.open then
              && At(y, Ready(s).(depth := Ready(s).depth + 1)) && y.replies == x.replies
              && y.c.frames == [Traces.InTransaction(s.depth)] + x.c.frames
            else y == x
  {
    Traces.SeeNothing(x.db);
  }

  lemma LeaveTransactionFollows(y: Solo, s: Session, s0: Session, frames: seq<Traces.Frame>, thrown: bool)
    requires At(y, s) && y.c.frames == [Traces.InTransaction(s0.depth)] + frames
    ensures var z := Advance(y, Traces.LeaveInner(thrown));
            At(z, LeaveTransaction(s0, s, thrown)) && z.replies == y.replies && z.c.frames == frames
  {
    assert y.c.frames[1..] == frames;
    Traces.SeeNothing(Advance(y, Traces.LeaveInner(thrown)).db);
    Traces.SeeNothing(y.db);
  }

  lemma {:induction false} TransactionFollows(body: Program, x: Solo, s: Session, scope: Option<Uuid>)
    requires At(x, s) && Coherent(s)
    requires var s1 := Ready(s).(depth := Ready(s).depth + 1); var y := Advance(x, Traces.EnterTransaction);
             !s.closed && !s.open ==> Follows(y, RunAll(y, Script(body, s1, scope)), Do(body, s1, scope))
    ensures Follows(x, RunAll(x, Script(Transaction(body), s, scope)), Do(Transaction(body), s, scope))
  {
    EnterTransactionFollows(x, s);
    if !s.closed && !s.open {
      var s1 := Ready(s).(depth := Ready(s).depth + 1);
      var e, sts := Do(body, s1, scope), Script(body, s1, scope);
      var y := RunAll(Advance(x, Traces.EnterTransaction), sts);
      LeaveTransactionFollows(y, e.s, Ready(s), x.c.frames, e.thrown);
      BlockFollows(x, Traces.EnterTransaction, sts, e, LeaveTransaction(Ready(s), e.s, e.thrown), e.thrown, scope);
      TransactionUnfolds(body, s, scope);
    } else {
      RunOne(x, Traces.EnterTransaction);
    }
  }

  /** A program on a session of its own ends where its statements lead one session of the interleaved
      system while nobody else moves, with the same replies. */
  lemma {:induction false} ProgramsAreTraces(p: Program, x: Solo, s: Session, scope: Option<Uuid>)
    requires At(x, s) && Coherent(s) && s.bound == scope
    ensures Follows(x, RunAll(x, Script(p, s, scope)), Do(p, s, scope))
    decreases p
  {
    match p
    case Then(a, b) =>
      ProgramsAreTraces(a, x, s, scope);
      Isolation(a, s, scope);
      ProgramsAreTraces(b, RunAll(x, Script(a, s, scope)), Do(a, s, scope).s, scope);
      SequenceFollows(a, b, x, s, scope);
    case Catch(a, h) =>
      ProgramsAreTraces(a, x, s, scope);
      Isolation(a, s, scope);
      ProgramsAreTraces(h, RunAll(x, Script(a, s, scope)), Do(a, s, scope).s, scope);
      SequenceFollows(a, h, x, s, scope);
    case Scope(t, body) =>
      var (r, entry) := Enter(s, t);
      EnterScopeFollows(x, s, t);
      if entry != Refused {
        ProgramsAreTraces(body, Advance(x, Traces.EnterScope(t)), r, Some(t));
      }
      ScopeFollows(t, body, x, s, scope);
    case Savepoint(body) =>
      EnterSavepointFollows(x, s);
      if CanRun(s) {
        ProgramsAreTraces(body, Advance(x, Traces.EnterSavepoint), Ready(s).(depth := Ready(s).depth + 1), scope);
      }
      SavepointFollows(body, x, s, scope);
    case Transaction(body) =>
      EnterTransactionFollows(x, s);
      if !s.closed && !s.open {
        ProgramsAreTraces(body, Advance(x, Traces.EnterTransaction), Ready(s).(depth := Ready(s).depth + 1), scope);
      }
      TransactionFollows(body, x, s, scope);
    case Call(op) => CallFollows(op, x, s, scope);
    case _ => StatementFollows(p, x, s, scope);
  }

  /** A whole `tenant_transaction` from a fresh session: the replies of its program, and the committed
      tables that its unit leaves. */
  lemma UnitIsATrace(db: Tables, u: Unit)
    ensures var p := TenantTransaction(u.tenant, u.body);
            var y := RunAll(Solo(db, Traces.FRESH_CLIENT, []), Script(p, FreshSession(db), None));
            && y.replies == Replies(RunUnit(db, u).log)
            && y.db == RunUnit(db, u).s.work
  {
    var p, x := TenantTransaction(u.tenant, u.body), Solo(db, Traces.FRESH_CLIENT, []);
    Traces.SeeNothing(db);
    ProgramsAreTraces(p, x, FreshSession(db), None);
    UnitUnfolds(db, u);
    Traces.SeeNothing(RunAll(x, Script(p, FreshSession(db), None)).db);
    assert [] + Replies(RunUnit(db, u).log) == Replies(RunUnit(db, u).log);
  }

  // ---- Exceptions ------------------------------------------------------------------------------------

  /** What the caller of one statement gets. */
  ghost function OutputOf(x: Solo, st: Traces.Statement): Traces.Output
  {
    Traces.Run(x.db, x.c, st).2
  }

  /** A single statement raises in the system exactly when it does in the program. */
  lemma {:induction false} StatementRaisesAlike(x: Solo, s: Session, scope: Option<Uuid>)
    requires At(x, s) && s.bound == scope
    ensures OutputOf(x, Traces.BeginWork) == Traces.Raised <==> Do(Begin, s, scope).thrown
    ensures OutputOf(x, Traces.CommitWork) == Traces.Raised <==> Do(Commit, s, scope).thrown
    ensures OutputOf(x, Traces.RollbackWork) == Traces.Raised <==> Do(Rollback, s, scope).thrown
    ensures OutputOf(x, Traces.Fail) == Traces.Raised <==> Do(FailingStatement, s, scope).thrown
    ensures OutputOf(x, Traces.Build) == Traces.Raised <==> Do(Construct, s, scope).thrown
  {
  }

  /** A repository call is answered in the system exactly when it does not raise in the program. */
  lemma {:induction false} CallRaisesAlike(x: Solo, s: Session, scope: Option<Uuid>, op: Op)
    requires At(x, s) && s.bound == scope
    ensures OutputOf(x, Traces.Query(op)) == Traces.Raised <==> Do(Call(op), s, scope).thrown
    ensures OutputOf(x, Traces.Query(op)).Replied? <==> !Do(Call(op), s, scope).thrown
  {
  }

  /** Entering raises exactly when the scope or block is refused, and then the whole of it raises. */
  lemma {:induction false} EnteringRaisesAlike(x: Solo, s: Session, scope: Option<Uuid>, t: Uuid, body: Program)
    requires At(x, s)
    ensures OutputOf(x, Traces.EnterScope(t)) == Traces.Raised <==>
              Script(Scope(t, body), s, scope) == [Traces.EnterScope(t)]
    ensures OutputOf(x, Traces.EnterScope(t)) == Traces.Raised ==> Do(Scope(t, body), s, scope).thrown
    ensures OutputOf(x, Traces.EnterSavepoint) == Traces.Raised <==>
              Script(Savepoint(body), s, scope) == [Traces.EnterSavepoint]
    ensures OutputOf(x, Traces.EnterSavepoint) == Traces.Raised ==> Do(Savepoint(body), s, scope).thrown
    ensures OutputOf(x, Traces.EnterTransaction) == Traces.Raised <==>
              Script(Transaction(body), s, scope) == [Traces.EnterTransaction]
    ensures OutputOf(x, Traces.EnterTransaction) == Traces.Raised ==> Do(Transaction(body), s, scope).thrown
  {
    EntryScripts(s, scope, t, body);
  }

  lemma {:induction false} EntryScripts(s: Session, scope: Option<Uuid>, t: Uuid, body: Program)
    ensures |Script(Scope(t, body), s, scope)| == 1 <==> Enter(s, t).1 == Refused
    ensures |Script(Savepoint(body), s, scope)| == 1 <==> !CanRun(s)
    ensures |Script(Transaction(body), s, scope)| == 1 <==> s.closed || s.open
  {
  }

  /** Leaving raises exactly when the exception of the body, or the one of the savepoint, goes on. */
  lemma {:induction false} LeavingRaisesAlike(x: Solo, s: Session, scope: Option<Uuid>, t: Uuid, body: Program)
    requires At(x, s) && Coherent(s) && s.bound == scope
    ensures Enter(s, t).1 != Refused ==>
              var e := Do(body, Enter(s, t).0, Some(t));
              var y := RunAll(x, [Traces.EnterScope(t)] + Script(body, Enter(s, t).0, Some(t)));
              OutputOf(y, Traces.LeaveInner(e.thrown)) == Traces.Raised <==> Do(Scope(t, body), s, scope).thrown
    ensures CanRun(s) ==>
              var s1 := Ready(s).(depth := Ready(s).depth + 1); var e := Do(body, s1, scope);
              var y := RunAll(x, [Traces.EnterSavepoint] + Script(body, s1, scope));
              OutputOf(y, Traces.LeaveInner(e.thrown)) == Traces.Raised <==> Do(Savepoint(body), s, scope).thrown
    ensures !s.closed && !s.open ==>
              var s1 := Ready(s).(depth := Ready(s).depth + 1); var e := Do(body, s1, scope);
              var y := RunAll(x, [Traces.EnterTransaction] + Script(body, s1, scope));
              OutputOf(y, Traces.LeaveInner(e.thrown)) == Traces.Raised <==> Do(Transaction(body), s, scope).thrown
  {
    if Enter(s, t).1 != Refused {
      ScopeLeaving(x, s, scope, t, body);
    }
    if CanRun(s) {
      SavepointLeaving(x, s, scope, body);
    }
    if !s.closed && !s.open {
      TransactionLeaving(x, s, scope, body);
    }
  }

  /** What leaving gives, from where the body has ended. */
  lemma LeaveOutputs(y: Solo, s: Session, s0: Session, thrown: bool)
    requires At(y, s) && y.c.frames != []
    ensures !y.c.frames[0].InSavepoint? ==> (OutputOf(y, Traces.LeaveInner(thrown)) == Traces.Raised <==> thrown)
    ensures y.c.frames[0].InSavepoint? ==>
              (OutputOf(y, Traces.LeaveInner(thrown)) == Traces.Raised <==> LeaveSavepoint(s0, s, thrown).1)
  {
  }

  /** Where entering and a body lead. */
  lemma {:induction false} BodyEnds(x: Solo, enter: Traces.Statement, body: Program, s1: Session, scope: Option<Uuid>)
    requires At(Advance(x, enter), s1) && Coherent(s1) && s1.bound == scope
    ensures var y := RunAll(x, [enter] + Script(body, s1, scope));
            At(y, Do(body, s1, scope).s) && y.c.frames == Advance(x, enter).c.frames
  {
    ProgramsAreTraces(body, Advance(x, enter), s1, scope);
    RunAllAppend(x, [enter], Script(body, s1, scope));
    RunOne(x, enter);
  }

  lemma {:induction false} ScopeLeaving(x: Solo, s: Session, scope: Option<Uuid>, t: Uuid, body: Program)
    requires At(x, s) && Coherent(s) && s.bound == scope && Enter(s, t).1 != Refused
    ensures var e := Do(body, Enter(s, t).0, Some(t));
            var y := RunAll(x, [Traces.EnterScope(t)] + Script(body, Enter(s, t).0, Some(t)));
            OutputOf(y, Traces.LeaveInner(e.thrown)) == Traces.Raised <==> Do(Scope(t, body), s, scope).thrown
  {
    var r := Enter(s, t).0;
    var e := Do(body, r, Some(t));
    EnterScopeFollows(x, s, t);
    BodyEnds(x, Traces.EnterScope(t), body, r, Some(t));
    LeaveOutputs(RunAll(x, [Traces.EnterScope(t)] + Script(body, r, Some(t))), e.s, r, e.thrown);
    ScopeUnfolds(t, body, s, scope);
  }

  lemma {:induction false} SavepointLeaving(x: Solo, s: Session, scope: Option<Uuid>, body: Program)
    requires At(x, s) && Coherent(s) && s.bound == scope && CanRun(s)
    ensures var s1 := Ready(s).(depth := Ready(s).depth + 1); var e := Do(body, s1, scope);
            var y := RunAll(x, [Traces.EnterSavepoint] + Script(body, s1, scope));
            OutputOf(y, Traces.LeaveInner(e.thrown)) == Traces.Raised <==> Do(Savepoint(body), s, scope).thrown
  {
    var s1 := Ready(s).(depth := Ready(s).depth + 1);
    var e := Do(body, s1, scope);
    EnterSavepointFollows(x, s);
    BodyEnds(x, Traces.EnterSavepoint, body, s1, scope);
    LeaveOutputs(RunAll(x, [Traces.EnterSavepoint] + Script(body, s1, scope)), e.s, Ready(s), e.thrown);
    SavepointUnfolds(body, s, scope);
  }

  lemma {:induction false} TransactionLeaving(x: Solo, s: Session, scope: Option<Uuid>, body: Program)
    requires At(x, s) && Coherent(s) && s.bound == scope && !s.closed && !s.open
    ensures var s1 := Ready(s).(depth := Ready(s).depth + 1); var e := Do(body, s1, scope);
            var y := RunAll(x, [Traces.EnterTransaction] + Script(body, s1, scope));
            OutputOf(y, Traces.LeaveInner(e.thrown)) == Traces.Raised <==> Do(Transaction(body), s, scope).thrown
  {
    var s1 := Ready(s).(depth := Ready(s).depth + 1);
    var e := Do(body, s1, scope);
    EnterTransactionFollows(x, s);
    BodyEnds(x, Traces.EnterTransaction, body, s1, scope);
    LeaveOutputs(RunAll(x, [Traces.EnterTransaction] + Script(body, s1, scope)), e.s, Ready(s), e.thrown);
    TransactionUnfolds(body, s, scope);
  }

  // ---- Next to others -----------------------------------------------------------------------------

  /** The same session over other tables. */
  predicate SameButTables(s: Session, t: Session)
  {
    t == s.(work := t.work, base := t.base)
  }

  /** What a program executes, and where it stands afterwards, is the same from both. */
  ghost predicate IgnoresTables(p: Program, s: Session, t: Session, scope: Option<Uuid>)
  {
    && Script(p, s, scope) == Script(p, t, scope)
    && SameButTables(Do(p, s, scope).s, Do(p, t, scope).s)
    && Do(p, s, scope).thrown == Do(p, t, scope).thrown
  }

  lemma {:induction false} SequenceIgnoresTables(a: Program, b: Program, s: Session, t: Session, scope: Option<Uuid>)
    requires IgnoresTables(a, s, t, scope)
    requires IgnoresTables(b, Do(a, s, scope).s, Do(a, t, scope).s, scope)
    ensures IgnoresTables(Then(a, b), s, t, scope) && IgnoresTables(Catch(a, b), s, t, scope)
  {
    SequenceUnfolds(a, b, s, scope);
    SequenceUnfolds(a, b, t, scope);
  }

  lemma {:induction false} ScopeIgnoresTables(u: Uuid, body: Program, s: Session, t: Session, scope: Option<Uuid>)
    requires SameButTables(s, t)
    requires Enter(s, u).1 != Refused ==> IgnoresTables(body, Enter(s, u).0, Enter(t, u).0, Some(u))
    ensures IgnoresTables(Scope(u, body), s, t, scope)
  {
    if Enter(s, u).1 != Refused {
      ScopeUnfolds(u, body, s, scope);
      ScopeUnfolds(u, body, t, scope);
    }
  }

  lemma {:induction false} SavepointIgnoresTables(body: Program, s: Session, t: Session, scope: Option<Uuid>)
    requires SameButTables(s, t)
    requires var s1, t1 := Ready(s).(depth := Ready(s).depth + 1), Ready(t).(depth := Ready(t).depth + 1);
             CanRun(s) ==> IgnoresTables(body, s1, t1, scope)
    ensures IgnoresTables(Savepoint(body), s, t, scope)
  {
    if CanRun(s) {
      SavepointUnfolds(body, s, scope);
      SavepointUnfolds(body, t, scope);
    }
  }

  lemma {:induction false} TransactionIgnoresTables(body: Program, s: Session, t: Session, scope: Option<Uuid>)
    requires SameButTables(s, t)
    requires var s1, t1 := Ready(s).(depth := Ready(s).depth + 1), Ready(t).(depth := Ready(t).depth + 1);
             !s.closed && !s.open ==> IgnoresTables(body, s1, t1, scope)
    ensures IgnoresTables(Transaction(body), s, t, scope)
  {
    if !s.closed && !s.open {
      TransactionUnfolds(body, s, scope);
      TransactionUnfolds(body, t, scope);
    }
  }

  /** What a program executes, and where it stands afterwards, does not depend on what the tables hold. */
  lemma {:induction false} ScriptIgnoresTables(p: Program, s: Session, t: Session, scope: Option<Uuid>)
    requires SameButTables(s, t)
    ensures IgnoresTables(p, s, t, scope)
    decreases p
  {
    match p
    case Then(a, b) =>
      ScriptIgnoresTables(a, s, t, scope);
      ScriptIgnoresTables(b, Do(a, s, scope).s, Do(a, t, scope).s, scope);
      SequenceIgnoresTables(a, b, s, t, scope);
    case Catch(a, h) =>
      ScriptIgnoresTables(a, s, t, scope);
      ScriptIgnoresTables(h, Do(a, s, scope).s, Do(a, t, scope).s, scope);
      SequenceIgnoresTables(a, h, s, t, scope);
    case Scope(u, body) =>
      ScriptIgnoresTables(body, Enter(s, u).0, Enter(t, u).0, Some(u));
      ScopeIgnoresTables(u, body, s, t, scope);
    case Savepoint(body) =>
      ScriptIgnoresTables(body, Ready(s).(depth := Ready(s).depth + 1), Ready(t).(depth := Ready(t).depth + 1), scope);
      SavepointIgnoresTables(body, s, t, scope);
    case Transaction(body) =>
      ScriptIgnoresTables(body, Ready(s).(depth := Ready(s).depth + 1), Ready(t).(depth := Ready(t).depth + 1), scope);
      TransactionIgnoresTables(body, s, t, scope);
    case _ =>
  }

  /** Frames with the same way out, but for the writes a savepoint would go back to. */
  predicate SameFrame(f: Traces.Frame, g: Traces.Frame)
  {
    if f.InSavepoint? && g.InSavepoint? then f.depth == g.depth && f.setting == g.setting else f == g
  }

  predicate SameFrames(f: seq<Traces.Frame>, g: seq<Traces.Frame>)
  {
    |f| == |g| && forall n :: 0 <= n < |f| ==> SameFrame(f[n], g[n])
  }

  /** The same session, but for its uncommitted writes. */
  predicate SameButWrites(c: Traces.Client, k: Traces.Client)
  {
    k == c.(names := k.names, frames := k.frames) && SameFrames(c.frames, k.frames)
  }

  lemma StatementIgnoresTables(d: Tables, e: Tables, c: Traces.Client, k: Traces.Client, st: Traces.Statement)
    requires SameButWrites(c, k) && !st.LeaveInner?
    ensures SameButWrites(Traces.Run(d, c, st).1, Traces.Run(e, k, st).1)
  {
  }

  lemma OneLessFrame(f: seq<Traces.Frame>, g: seq<Traces.Frame>)
    requires SameFrames(f, g) && f != []
    ensures SameFrame(f[0], g[0]) && SameFrames(f[1..], g[1..])
  {
    forall n | 0 <= n < |f| - 1 ensures SameFrame(f[1..][n], g[1..][n]) {
      assert SameFrame(f[n + 1], g[n + 1]);
    }
  }

  lemma ScopeOrTransactionLeft(d: Tables, e: Tables, c: Traces.Client, k: Traces.Client, thrown: bool)
    requires k == c.(names := k.names, frames := k.frames) && c.frames != [] && k.frames != []
    requires c.frames[0] == k.frames[0] && !c.frames[0].InSavepoint? && SameFrames(c.frames[1..], k.frames[1..])
    ensures SameButWrites(Traces.RunLeave(d, c, thrown).1, Traces.RunLeave(e, k, thrown).1)
  {
  }

  lemma SavepointLeft(d: Tables, e: Tables, c: Traces.Client, k: Traces.Client, thrown: bool)
    requires k == c.(names := k.names, frames := k.frames) && c.frames != [] && k.frames != []
    requires SameFrame(c.frames[0], k.frames[0]) && c.frames[0].InSavepoint?
    requires SameFrames(c.frames[1..], k.frames[1..])
    ensures SameButWrites(Traces.RunLeave(d, c, thrown).1, Traces.RunLeave(e, k, thrown).1)
  {
  }

  lemma LeavingIgnoresTables(d: Tables, e: Tables, c: Traces.Client, k: Traces.Client, thrown: bool)
    requires SameButWrites(c, k) && c.frames != []
    ensures SameButWrites(Traces.RunLeave(d, c, thrown).1, Traces.RunLeave(e, k, thrown).1)
  {
    OneLessFrame(c.frames, k.frames);
    if c.frames[0].InSavepoint? {
      SavepointLeft(d, e, c, k, thrown);
    } else {
      ScopeOrTransactionLeft(d, e, c, k, thrown);
    }
  }

  /** The statements of the session `i` in a trace. */
  function Of(i: nat, trace: seq<Traces.Step>): seq<Traces.Statement>
  {
    if trace == [] then []
    else
      var last := trace[|trace| - 1];
      Of(i, trace[..|trace| - 1]) + if last.By? && last.id == i then [last.st] else []
  }

  lemma {:induction false} FinalOneMore(s: Traces.System, trace: seq<Traces.Step>)
    requires trace != []
    ensures Traces.Final(s, trace) == Traces.Next(Traces.Final(s, trace[..|trace| - 1]), trace[|trace| - 1])
    decreases |trace|
  {
    if |trace| == 1 {
      assert trace[..0] == [] && trace[1..] == [];
    } else {
      FinalOneMore(Traces.Next(s, trace[0]), trace[1..]);
      assert trace[1..][..|trace[1..]| - 1] == trace[..|trace| - 1][1..];
    }
  }

  /** In an arbitrary interleaving a session stands where its own statements lead it, over any tables. */
  lemma {:induction false} StandsAlone(s: Traces.System, trace: seq<Traces.Step>, i: nat, x: Solo)
    requires i in s.clients && x.c == s.clients[i]
    ensures i in Traces.Final(s, trace).clients
    ensures SameButWrites(RunAll(x, Of(i, trace)).c, Traces.Final(s, trace).clients[i])
    decreases |trace|
  {
    if trace != [] {
      var before, last := trace[..|trace| - 1], trace[|trace| - 1];
      StandsAlone(s, before, i, x);
      FinalOneMore(s, trace);
      var t, y := Traces.Final(s, before), RunAll(x, Of(i, before));
      if last.By? && last.id == i {
        RunAllAppend(x, Of(i, before), [last.st]);
        RunOne(y, last.st);
        if last.st.LeaveInner? {
          if y.c.frames != [] {
            LeavingIgnoresTables(y.db, t.db, y.c, t.clients[i], last.st.thrown);
          }
        } else {
          StatementIgnoresTables(y.db, t.db, y.c, t.clients[i], last.st);
        }
      } else {
        assert Of(i, trace) == Of(i, before);
      }
    }
  }

  /** A program next to any number of others: if a fresh session has executed exactly the statements of `p`,
      in whatever interleaving, then it is out of all its scopes and blocks, and in every respect but its
      tables where `p` ends on a session of its own, over any tables at all. So every interleaving of
      programs is a trace of the system, and what holds of every trace holds of it. */
  lemma InterleavedProgram(s: Traces.System, trace: seq<Traces.Step>, i: nat, p: Program, db: Tables)
    requires i in s.clients && s.clients[i] == Traces.FRESH_CLIENT
    requires Of(i, trace) == Script(p, FreshSession(db), None)
    ensures var t := Traces.Final(s, trace);
            && i in t.clients && t.clients[i].frames == []
            && SameButTables(Do(p, FreshSession(db), None).s, Traces.View(t.db, t.clients[i]))
  {
    var x := Solo(db, Traces.FRESH_CLIENT, []);
    Traces.SeeNothing(db);
    ProgramsAreTraces(p, x, FreshSession(db), None);
    StandsAlone(s, trace, i, x);
  }
}
