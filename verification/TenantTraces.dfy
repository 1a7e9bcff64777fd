/** Any number of sessions over the same committed tables, interleaved statement by statement.

    Assumptions about PostgreSQL at READ COMMITTED: a statement reads the tables committed so far plus the
    writes of its own transaction; a commit makes those writes visible to everybody; a row written but not
    committed is locked, and whoever would write it waits. The runtime role writes tenant names only, so a
    transaction's writes are a map from tenants to names. */
module TenantTraces {
  import opened Text
  import opened Directory
  import opened RowSecurity
  import opened TenantScope
  import opened TenantIsolation

  type Names = map<Uuid, string>

  /** A block or scope a session is inside of, with what leaving it needs. */
  datatype Frame =
    | InScope(tenant: Uuid, outermost: bool)
    | InSavepoint(depth: nat, setting: Option<Uuid>, names: Names)
    | InTransaction(depth: nat)

  /** A session without its tables: `names` are its uncommitted writes, `frames` what it is inside of,
      innermost first. */
  datatype Client = Client(
    open: bool, failed: bool, closed: bool, depth: nat,
    setting: Option<Uuid>, bound: Option<Uuid>, names: Names, frames: seq<Frame>)

  const FRESH_CLIENT := Client(false, false, false, 0, None, None, map[], [])

  datatype System = System(db: Tables, clients: map<nat, Client>)

  /** One statement of a session. `Touch` is a statement that reads and writes no table; `LeaveInner` leaves
      the innermost scope or block, with or without an exception. */
  datatype Statement =
    | BeginWork | CommitWork | RollbackWork | Touch | Fail | Build
    | Query(op: Op)
    | EnterScope(tenant: Uuid)
    | EnterSavepoint
    | EnterTransaction
    | LeaveInner(thrown: bool)

  /** A statement of a session, or rows inserted or updated by anybody else: provisioning, binding and
      administration. */
  datatype Step =
    | By(id: nat, st: Statement)
    | Upsert(users: map<Uuid, User>, tenants: map<Uuid, Tenant>, members: map<Uuid, Membership>)

  datatype Output = Fine | Raised | Replied(reply: Reply)

  // ---- One statement -----------------------------------------------------------------------

  /** The committed tables under a transaction's writes. */
  function See(db: Tables, names: Names): Tables
  {
    db.(tenants := map t | t in db.tenants ::
      if t in names then db.tenants[t].(name := names[t]) else db.tenants[t])
  }

  /** The session as the scope protocol knows it, at this instant. */
  function View(db: Tables, c: Client): Session
  {
    Session(c.open, c.failed, c.closed, c.depth, c.setting, c.bound, See(db, c.names), db)
  }

  function Keep(c: Client, s: Session, names: Names, frames: seq<Frame>): Client
  {
    Client(s.open, s.failed, s.closed, s.depth, s.setting, s.bound, names, frames)
  }

  /** The writes after renaming every row the policy lets through. */
  function Renaming(db: Tables, c: Client, name: string): Names
  {
    c.names + map t | t in db.tenants && TenantsUpdate(c.setting, t, db.tenants[t]) :: name
  }

  predicate Answers(c: Client, op: Op)
  {
    !c.closed && !c.failed && !(op.RenameTenant? && Trim(PyStrip, op.name) == "")
  }

  /** The session, the committed tables and what the caller gets after one statement. */
  ghost function Run(db: Tables, c: Client, st: Statement): (Tables, Client, Output)
  {
    var v := View(db, c);
    match st
    case BeginWork =>
      if c.closed || c.open then (db, c, Raised) else (db, Keep(c, Ready(v), c.names, c.frames), Fine)
    case CommitWork =>
      if c.closed then (db, c, Raised)
      else (if c.open then End(v, true).work else db, Keep(c, End(v, true), map[], c.frames), Fine)
    case RollbackWork => (db, Keep(c, End(v, false), map[], c.frames), Fine)
    case Touch =>
      if !CanRun(v) then (db, c, Raised) else (db, Keep(c, Ready(v), c.names, c.frames), Fine)
    case Fail =>
      if c.closed then (db, c, Raised) else (db, Keep(c, Ready(v).(failed := true), c.names, c.frames), Raised)
    case Build => (db, c, if c.bound.None? then Raised else Fine)
    case Query(op) =>
      if !Answers(c, op) then (db, c, Raised)
      else
        var (r, reply) := RunOp(Ready(v), op);
        var names := if op.RenameTenant? then Renaming(db, c, Trim(PyStrip, op.name)) else c.names;
        (db, Keep(c, r, names, c.frames), Replied(reply))
    case EnterScope(t) =>
      var (r, entry) := Enter(v, t);
      if entry == Refused then (db, c, Raised)
      else (db, Keep(c, r, c.names, [InScope(t, entry == Opened)] + c.frames), Fine)
    case EnterSavepoint =>
      if !CanRun(v) then (db, c, Raised)
      else
        var s0 := Ready(v);
        (db, Keep(c, s0.(depth := s0.depth + 1), c.names, [InSavepoint(s0.depth, s0.setting, c.names)] + c.frames),
         Fine)
    case EnterTransaction =>
      if c.closed || c.open then (db, c, Raised)
      else
        var s0 := Ready(v);
        (db, Keep(c, s0.(depth := s0.depth + 1), c.names, [InTransaction(s0.depth)] + c.frames), Fine)
    case LeaveInner(thrown) => if c.frames == [] then (db, c, Raised) else RunLeave(db, c, thrown)
  }

  ghost function RunLeave(db: Tables, c: Client, thrown: bool): (Tables, Client, Output)
    requires c.frames != []
  {
    var v, outer := View(db, c), c.frames[1..];
    match c.frames[0]
    case InScope(_, outermost) =>
      (db, Keep(c, if outermost then Leave(v) else v, c.names, outer), if thrown then Raised else Fine)
    case InSavepoint(depth, setting, names) =>
      var s0 := v.(depth := depth, setting := setting, work := See(db, names));
      var (left, raised) := LeaveSavepoint(s0, v, thrown);
      (db, Keep(c, left, if !c.closed && (thrown || c.failed) then names else c.names, outer),
       if raised then Raised else Fine)
    case InTransaction(depth) =>
      var left := LeaveTransaction(v.(depth := depth), v, thrown);
      (if c.open then left.work else db, Keep(c, left, map[], outer), if thrown then Raised else Fine)
  }

  // ---- Systems -------------------------------------------------------------------------------

  /** A rename waits for every session that has an uncommitted name on a row it would write; so does an
      administrative update of a tenant row. */
  ghost predicate Enabled(s: System, step: Step)
  {
    match step
    case By(i, st) =>
      && i in s.clients
      && (st.Query? && st.op.RenameTenant? ==>
            forall j, t :: j in s.clients && j != i && t in s.clients[j].names && t in s.db.tenants ==>
              !TenantsUpdate(s.clients[i].setting, t, s.db.tenants[t]))
    case Upsert(_, tenants, _) =>
      forall j, t :: j in s.clients && t in s.clients[j].names ==> t !in tenants
  }

  ghost function Next(s: System, step: Step): System
  {
    match step
    case By(i, st) =>
      if i !in s.clients then s
      else var (db, c, _) := Run(s.db, s.clients[i], st); System(db, s.clients[i := c])
    case Upsert(users, tenants, members) =>
      s.(db := s.db.(users := s.db.users + users, tenants := s.db.tenants + tenants,
                     members := s.db.members + members))
  }

  ghost predicate Feasible(s: System, trace: seq<Step>)
    decreases |trace|
  {
    trace == [] || (Enabled(s, trace[0]) && Feasible(Next(s, trace[0]), trace[1..]))
  }

  ghost function Final(s: System, trace: seq<Step>): System
    decreases |trace|
  {
    if trace == [] then s else Final(Next(s, trace[0]), trace[1..])
  }

  // ---- The invariant of a session --------------------------------------------------------------

  /** The tenant of the innermost scope. */
  function Innermost(frames: seq<Frame>): Option<Uuid>
  {
    if frames == [] then None
    else if frames[0].InScope? then Some(frames[0].tenant)
    else Innermost(frames[1..])
  }

  function Blocks(frames: seq<Frame>): nat
  {
    if frames == [] then 0 else Blocks(frames[1..]) + if frames[0].InScope? then 0 else 1
  }

  /** Each frame fits what it was entered in. */
  predicate Nested(frames: seq<Frame>)
  {
    frames != [] ==>
      && Nested(frames[1..])
      && match frames[0]
         case InScope(t, outermost) => Innermost(frames[1..]) == if outermost then None else Some(t)
         case InSavepoint(depth, setting, _) =>
           depth == Blocks(frames[1..]) && (setting == None || setting == Innermost(frames[1..]))
         case InTransaction(depth) => depth == Blocks(frames[1..]) == 0
  }

  /** The setting is empty or that of the bound tenant unless the transaction has failed, the bound tenant
      is that of the innermost scope, and without a transaction there are no writes. */
  predicate Sound(c: Client)
  {
    && Coherent(View(Tables({}, map[], map[], map[]), c))
    && Nested(c.frames)
    && c.bound == Innermost(c.frames) && c.depth == Blocks(c.frames)
    && (!c.open ==> c.names == map[])
  }

  lemma SeeNothing(db: Tables)
    ensures See(db, map[]) == db
  {
    assert See(db, map[]).tenants == db.tenants;
  }

  lemma LeaveScopeKeepsSound(db: Tables, c: Client, thrown: bool)
    requires Sound(c) && c.frames != [] && c.frames[0].InScope?
    ensures Sound(RunLeave(db, c, thrown).1)
  {
  }

  lemma LeaveBlockKeepsSound(db: Tables, c: Client, thrown: bool)
    requires Sound(c) && c.frames != [] && !c.frames[0].InScope?
    ensures Sound(RunLeave(db, c, thrown).1)
  {
  }

  /** Every statement of a session, in whatever order statements come, keeps the invariant. */
  lemma RunKeepsSound(db: Tables, c: Client, st: Statement)
    requires Sound(c)
    ensures Sound(Run(db, c, st).1)
  {
    if st.LeaveInner? && c.frames != [] {
      if c.frames[0].InScope? {
        LeaveScopeKeepsSound(db, c, st.thrown);
      } else {
        LeaveBlockKeepsSound(db, c, st.thrown);
      }
    }
  }

  // ---- Isolation -------------------------------------------------------------------------------

  ghost predicate SoundSystem(s: System)
  {
    forall i :: i in s.clients ==> Sound(s.clients[i])
  }

  lemma NextKeepsSound(s: System, step: Step)
    requires SoundSystem(s)
    ensures SoundSystem(Next(s, step))
  {
    if step.By? && step.id in s.clients {
      RunKeepsSound(s.db, s.clients[step.id], step.st);
    }
  }

  /** The names a session has written are what its rename statement does to the tables it sees. */
  lemma RenamingIsWrite(db: Tables, c: Client, name: string)
    ensures See(db, Renaming(db, c, name)) == WriteName(See(db, c.names), c.setting, name)
  {
    assert See(db, Renaming(db, c, name)).tenants == WriteName(See(db, c.names), c.setting, name).tenants;
  }

  /** Isolation under interleaving: whatever all sessions have done before, a repository call that is
      answered shows rows of the tenant of the caller's innermost scope at this instant, or nothing, and
      adds to the caller's writes at most a new name of that tenant. */
  lemma CallIsConfined(s: System, i: nat, op: Op)
    requires SoundSystem(s) && i in s.clients
    ensures var c := s.clients[i];
            var (db, d, output) := Run(s.db, c, Query(op));
            && db == s.db && d.frames == c.frames
            && (output.Replied? ==>
                  Confined(Event(Innermost(c.frames), View(db, d), Some(output.reply), See(s.db, c.names), Between)))
            && (forall t :: t in d.names && Innermost(c.frames) != Some(t) ==> t in c.names && d.names[t] == c.names[t])
  {
    var c := s.clients[i];
    assert Sound(c);
    if Answers(c, op) {
      OpIsConfined(View(s.db, c), op);
      if op.RenameTenant? {
        RenamingIsWrite(s.db, c, Trim(PyStrip, op.name));
      }
    }
  }

  /** What a commit publishes: each tenant row the session has renamed gets its name, and nothing else
      changes; a failed transaction and a rollback publish nothing. */
  lemma CommitPublishes(db: Tables, c: Client)
    requires Sound(c) && !c.closed
    ensures var d := Run(db, c, CommitWork).0;
            && d == db.(tenants := d.tenants) && d.tenants.Keys == db.tenants.Keys
            && forall t :: t in db.tenants ==>
                 d.tenants[t] == if t in c.names && !c.failed
                                 then Tenant(c.names[t], db.tenants[t].kind, db.tenants[t].owner, db.tenants[t].active)
                                 else db.tenants[t]
    ensures Run(db, c, RollbackWork).0 == db
    ensures Run(db, c, CommitWork).1.names == map[] && Run(db, c, RollbackWork).1.names == map[]
  {
    SeeNothing(db);
  }

  /** Rows inserted or updated by others replace the committed rows of the same ids, and nothing else. */
  lemma UpsertWrites(s: System, users: map<Uuid, User>, tenants: map<Uuid, Tenant>, members: map<Uuid, Membership>)
    ensures var t := Next(s, Upsert(users, tenants, members));
            && t.clients == s.clients && t.db.allow == s.db.allow
            && (forall u :: u in t.db.users <==> u in users || u in s.db.users)
            && (forall u :: u in t.db.users ==> t.db.users[u] == if u in users then users[u] else s.db.users[u])
            && (forall x :: x in t.db.tenants <==> x in tenants || x in s.db.tenants)
            && (forall x :: x in t.db.tenants ==>
                  t.db.tenants[x] == if x in tenants then tenants[x] else s.db.tenants[x])
            && (forall m :: m in t.db.members <==> m in members || m in s.db.members)
            && (forall m :: m in t.db.members ==>
                  t.db.members[m] == if m in members then members[m] else s.db.members[m])
  {
  }

  // ---- Row locks ---------------------------------------------------------------------------------

  predicate Within(m: Names, n: Names)
  {
    forall t :: t in m ==> t in n
  }

  /** What a savepoint would go back to is part of what has been written since. */
  predicate SavedWithin(c: Client)
  {
    !c.closed ==>
      && (forall k :: 0 <= k < |c.frames| && c.frames[k].InSavepoint? ==> Within(c.frames[k].names, c.names))
      && (forall k, l :: 0 <= k < l < |c.frames| && c.frames[k].InSavepoint? && c.frames[l].InSavepoint? ==>
            Within(c.frames[l].names, c.frames[k].names))
  }

  /** No tenant row has uncommitted names of two sessions. */
  ghost predicate Exclusive(s: System)
  {
    && (forall i :: i in s.clients ==> SavedWithin(s.clients[i]))
    && (forall i, j, t :: i in s.clients && j in s.clients && i != j && t in s.clients[i].names ==>
          t !in s.clients[j].names)
  }

  lemma {:induction false} NoBlocks(frames: seq<Frame>)
    requires Blocks(frames) == 0
    ensures forall k :: 0 <= k < |frames| ==> frames[k].InScope?
    decreases |frames|
  {
    if frames != [] {
      NoBlocks(frames[1..]);
      assert forall k :: 1 <= k < |frames| ==> frames[k] == frames[1..][k - 1];
    }
  }

  lemma EnteringKeepsSaved(db: Tables, c: Client, st: Statement)
    requires Sound(c) && SavedWithin(c) && !st.LeaveInner?
    ensures SavedWithin(Run(db, c, st).1)
  {
    if c.depth == 0 {
      NoBlocks(c.frames);
    }
  }

  lemma LeavingKeepsSaved(db: Tables, c: Client, thrown: bool)
    requires Sound(c) && SavedWithin(c) && c.frames != []
    ensures SavedWithin(RunLeave(db, c, thrown).1) && Within(RunLeave(db, c, thrown).1.names, c.names)
  {
    var k := RunLeave(db, c, thrown).1;
    assert forall n :: 0 <= n < |k.frames| ==> k.frames[n] == c.frames[n + 1];
    if Blocks(k.frames) == 0 {
      NoBlocks(k.frames);
    }
  }

  /** The names a statement adds are those of rows its rename would write. */
  lemma AddsOnlyRenamed(db: Tables, c: Client, st: Statement, t: Uuid)
    requires Sound(c) && SavedWithin(c) && t in Run(db, c, st).1.names && t !in c.names
    ensures st.Query? && st.op.RenameTenant? && t in db.tenants && TenantsUpdate(c.setting, t, db.tenants[t])
  {
    if st.LeaveInner? && c.frames != [] {
      LeavingKeepsSaved(db, c, st.thrown);
    }
  }

  lemma RunKeepsExclusive(s: System, i: nat, st: Statement)
    requires SoundSystem(s) && Exclusive(s) && Enabled(s, By(i, st))
    ensures Exclusive(Next(s, By(i, st)))
  {
    var c, k := s.clients[i], Next(s, By(i, st)).clients[i];
    assert Sound(c) && SavedWithin(c);
    if st.LeaveInner? {
      if c.frames != [] {
        LeavingKeepsSaved(s.db, c, st.thrown);
      }
    } else {
      EnteringKeepsSaved(s.db, c, st);
    }
    forall j, t | j in s.clients && j != i && t in k.names ensures t !in s.clients[j].names {
      if t !in c.names {
        AddsOnlyRenamed(s.db, c, st, t);
      }
    }
  }

  /** Over every executable trace no tenant row ever has uncommitted names of two sessions, so no commit
      overwrites a name that another session has yet to commit. */
  lemma {:induction false} LocksExclude(s: System, trace: seq<Step>)
    requires SoundSystem(s) && Exclusive(s) && Feasible(s, trace)
    ensures Exclusive(Final(s, trace))
    decreases |trace|
  {
    if trace != [] {
      NextKeepsSound(s, trace[0]);
      if trace[0].By? {
        RunKeepsExclusive(s, trace[0].id, trace[0].st);
      }
      LocksExclude(Next(s, trace[0]), trace[1..]);
    }
  }

  // ---- Deleting what other tenants do ------------------------------------------------------------

  /** A repository call outside the scopes of tenant `x`. */
  predicate Foreign(x: Uuid, s: System, step: Step)
  {
    && step.By? && step.st.Query? && step.id in s.clients
    && Innermost(s.clients[step.id].frames) != Some(x)
  }

  /** The call is the statement that begins its session's transaction. */
  predicate Begins(s: System, step: Step)
  {
    && step.By? && step.st.Query? && step.id in s.clients
    && Answers(s.clients[step.id], step.st.op) && !s.clients[step.id].open
  }

  /** The trace without the repository calls of other tenants. A deleted call that began its session's
      transaction leaves an empty statement behind, because `tenant_scope` asks whether one is open. */
  ghost function Only(x: Uuid, s: System, trace: seq<Step>): seq<Step>
    decreases |trace|
  {
    if trace == [] then []
    else
      var step, rest := trace[0], Only(x, Next(s, trace[0]), trace[1..]);
      if !Foreign(x, s, step) then [step] + rest
      else if Begins(s, step) then [By(step.id, Touch)] + rest
      else rest
  }

  ghost function OutputOf(s: System, step: Step): Output
  {
    if step.By? && step.id in s.clients then Run(s.db, s.clients[step.id], step.st).2 else Fine
  }

  /** What the callers get: every statement but empty ones and the repository calls of other tenants. */
  ghost function ShownTo(x: Uuid, s: System, trace: seq<Step>): seq<(Step, Output)>
    decreases |trace|
  {
    if trace == [] then []
    else
      var rest := ShownTo(x, Next(s, trace[0]), trace[1..]);
      if Foreign(x, s, trace[0]) || (trace[0].By? && trace[0].st.Touch?) then rest
      else [(trace[0], OutputOf(s, trace[0]))] + rest
  }

  // ---- Two systems that differ in other tenants' names only ---------------------------------------

  predicate NamesLike(x: Uuid, m: Names, n: Names)
  {
    && (x in m <==> x in n) && (x in m ==> m[x] == n[x])
    && (forall t :: t in n ==> t in m)
  }

  predicate FrameLike(x: Uuid, f: Frame, g: Frame)
  {
    if f.InSavepoint? && g.InSavepoint?
    then f.depth == g.depth && f.setting == g.setting && NamesLike(x, f.names, g.names)
    else f == g
  }

  predicate FramesLike(x: Uuid, f: seq<Frame>, g: seq<Frame>)
  {
    |f| == |g| && forall k :: 0 <= k < |f| ==> FrameLike(x, f[k], g[k])
  }

  predicate ClientLike(x: Uuid, c: Client, d: Client)
  {
    d == c.(names := d.names, frames := d.frames) && NamesLike(x, c.names, d.names) && FramesLike(x, c.frames, d.frames)
  }

  ghost predicate TablesLike(x: Uuid, d: Tables, e: Tables)
  {
    && e == d.(tenants := e.tenants) && (forall t :: t in d.tenants <==> t in e.tenants)
    && (x in d.tenants ==> e.tenants[x] == d.tenants[x])
    && (forall t :: t in d.tenants ==> e.tenants[t] == d.tenants[t].(name := e.tenants[t].name))
  }

  ghost predicate Like(x: Uuid, s: System, r: System)
  {
    && TablesLike(x, s.db, r.db)
    && (forall i :: i in s.clients <==> i in r.clients)
    && (forall i :: i in s.clients ==> ClientLike(x, s.clients[i], r.clients[i]))
  }

  lemma {:induction false} FramesAgree(x: Uuid, f: seq<Frame>, g: seq<Frame>)
    requires FramesLike(x, f, g)
    ensures Innermost(f) == Innermost(g)
    decreases |f|
  {
    if f != [] {
      assert FrameLike(x, f[0], g[0]);
      forall k | 0 <= k < |f| - 1 ensures FrameLike(x, f[1..][k], g[1..][k]) {
        assert FrameLike(x, f[k + 1], g[k + 1]);
      }
      FramesAgree(x, f[1..], g[1..]);
    }
  }

  lemma SeeLike(x: Uuid, d: Tables, e: Tables, m: Names, n: Names)
    requires TablesLike(x, d, e) && NamesLike(x, m, n)
    ensures TablesLike(x, See(d, m), See(e, n))
    ensures Agree(x, See(d, m), See(e, n))
  {
  }

  lemma RenamingLike(x: Uuid, d: Tables, e: Tables, c: Client, k: Client, name: string)
    requires TablesLike(x, d, e) && ClientLike(x, c, k) && (c.setting == None || c.setting == Some(x))
    ensures NamesLike(x, Renaming(d, c, name), Renaming(e, k, name))
  {
  }

  lemma AnswersAlike(x: Uuid, d: Tables, e: Tables, c: Client, k: Client, op: Op)
    requires TablesLike(x, d, e) && ClientLike(x, c, k) && Sound(c) && Innermost(c.frames) == Some(x)
    requires Answers(c, op)
    ensures var (r, reply) := RunOp(Ready(View(d, c)), op); var (q, answer) := RunOp(Ready(View(e, k)), op);
            reply == answer && q == r.(work := q.work, base := q.base)
  {
    SeeLike(x, d, e, c.names, k.names);
    SeeLike(x, d, e, map[], map[]);
    SeeNothing(d);
    SeeNothing(e);
    OpAlike(x, Ready(View(d, c)), Ready(View(e, k)), op);
  }

  /** A call under `x` is answered alike, and writes alike. */
  lemma OwnCallLike(x: Uuid, d: Tables, e: Tables, c: Client, k: Client, op: Op)
    requires TablesLike(x, d, e) && ClientLike(x, c, k) && Sound(c) && Innermost(c.frames) == Some(x)
    ensures StatementLike(x, d, e, c, k, Query(op))
  {
    if Answers(c, op) {
      AnswersAlike(x, d, e, c, k, op);
      if op.RenameTenant? {
        RenamingLike(x, d, e, c, k, Trim(PyStrip, op.name));
      }
    }
  }

  /** The same statement on both sides: the same output, and what was alike stays alike. */
  ghost predicate StatementLike(x: Uuid, d: Tables, e: Tables, c: Client, k: Client, st: Statement)
  {
    var (d', c', o) := Run(d, c, st);
    var (e', k', p) := Run(e, k, st);
    o == p && TablesLike(x, d', e') && ClientLike(x, c', k')
  }

  /** A call under another tenant, or under none, concerns no name of `x`, and opens the transaction if
      none is open. */
  lemma ForeignCallLike(x: Uuid, d: Tables, e: Tables, c: Client, k: Client, op: Op)
    requires TablesLike(x, d, e) && ClientLike(x, c, k) && Sound(c) && Innermost(c.frames) != Some(x)
    ensures var (d', c', _) := Run(d, c, Query(op));
            && d' == d
            && ClientLike(x, c', if Answers(c, op) && !c.open then Run(e, k, Touch).1 else k)
  {
  }

  lemma EndLike(x: Uuid, d: Tables, e: Tables, c: Client, k: Client, st: Statement)
    requires TablesLike(x, d, e) && ClientLike(x, c, k) && (st.CommitWork? || st.RollbackWork?)
    ensures StatementLike(x, d, e, c, k, st)
  {
    SeeLike(x, d, e, c.names, k.names);
  }

  lemma ControlLike(x: Uuid, d: Tables, e: Tables, c: Client, k: Client, st: Statement)
    requires TablesLike(x, d, e) && ClientLike(x, c, k)
    requires st.BeginWork? || st.Touch? || st.Fail? || st.Build?
    ensures StatementLike(x, d, e, c, k, st)
  {
  }

  lemma OneMoreFrame(x: Uuid, f: Frame, g: Frame, rest: seq<Frame>, like: seq<Frame>)
    requires FrameLike(x, f, g) && FramesLike(x, rest, like)
    ensures FramesLike(x, [f] + rest, [g] + like)
  {
  }

  lemma EnterLike(x: Uuid, d: Tables, e: Tables, c: Client, k: Client, st: Statement)
    requires TablesLike(x, d, e) && ClientLike(x, c, k)
    requires st.EnterScope? || st.EnterSavepoint? || st.EnterTransaction?
    ensures StatementLike(x, d, e, c, k, st)
  {
    var f, g := Run(d, c, st).1.frames, Run(e, k, st).1.frames;
    if Run(d, c, st).2 == Fine {
      OneMoreFrame(x, f[0], g[0], c.frames, k.frames);
    }
  }

  lemma OneLessFrame(x: Uuid, f: seq<Frame>, g: seq<Frame>)
    requires FramesLike(x, f, g) && f != []
    ensures FrameLike(x, f[0], g[0]) && FramesLike(x, f[1..], g[1..])
  {
    forall n | 0 <= n < |f| - 1 ensures FrameLike(x, f[1..][n], g[1..][n]) {
      assert FrameLike(x, f[n + 1], g[n + 1]);
    }
  }

  /** Leaving the innermost frame on both sides. */
  ghost predicate LeftLike(x: Uuid, d: Tables, e: Tables, c: Client, k: Client, thrown: bool)
    requires c.frames != [] && k.frames != []
  {
    var (d', c', o) := RunLeave(d, c, thrown);
    var (e', k', p) := RunLeave(e, k, thrown);
    o == p && TablesLike(x, d', e') && ClientLike(x, c', k')
  }

  lemma LeaveScopeLike(x: Uuid, d: Tables, e: Tables, c: Client, k: Client, thrown: bool)
    requires TablesLike(x, d, e) && k == c.(names := k.names, frames := k.frames) && NamesLike(x, c.names, k.names)
    requires c.frames != [] && k.frames != [] && c.frames[0] == k.frames[0] && c.frames[0].InScope?
    requires FramesLike(x, c.frames[1..], k.frames[1..])
    ensures LeftLike(x, d, e, c, k, thrown)
  {
  }

  lemma LeaveSavepointLike(x: Uuid, d: Tables, e: Tables, c: Client, k: Client, thrown: bool)
    requires TablesLike(x, d, e) && k == c.(names := k.names, frames := k.frames) && NamesLike(x, c.names, k.names)
    requires c.frames != [] && k.frames != [] && FrameLike(x, c.frames[0], k.frames[0]) && c.frames[0].InSavepoint?
    requires FramesLike(x, c.frames[1..], k.frames[1..])
    ensures LeftLike(x, d, e, c, k, thrown)
  {
  }

  lemma TransactionEndLike(x: Uuid, d: Tables, e: Tables, c: Client, k: Client, depth: nat, thrown: bool)
    requires TablesLike(x, d, e) && k == c.(names := k.names, frames := k.frames) && NamesLike(x, c.names, k.names)
    ensures var v, w := View(d, c), View(e, k);
            var left := LeaveTransaction(v.(depth := depth), v, thrown);
            var like := LeaveTransaction(w.(depth := depth), w, thrown);
            like == left.(work := like.work, base := like.base) && TablesLike(x, left.work, like.work)
  {
    SeeLike(x, d, e, c.names, k.names);
  }

  lemma LeaveTransactionLike(x: Uuid, d: Tables, e: Tables, c: Client, k: Client, thrown: bool)
    requires TablesLike(x, d, e) && k == c.(names := k.names, frames := k.frames) && NamesLike(x, c.names, k.names)
    requires c.frames != [] && k.frames != [] && c.frames[0] == k.frames[0] && c.frames[0].InTransaction?
    requires FramesLike(x, c.frames[1..], k.frames[1..])
    ensures LeftLike(x, d, e, c, k, thrown)
  {
    var depth := c.frames[0].depth;
    TransactionEndLike(x, d, e, c, k, depth, thrown);
    var v, w := View(d, c), View(e, k);
    KeepLike(x, c, LeaveTransaction(v.(depth := depth), v, thrown), LeaveTransaction(w.(depth := depth), w, thrown),
             c.frames[1..], k.frames[1..]);
  }

  lemma KeepLike(x: Uuid, c: Client, s: Session, r: Session, f: seq<Frame>, g: seq<Frame>)
    requires r == s.(work := r.work, base := r.base) && FramesLike(x, f, g)
    ensures ClientLike(x, Keep(c, s, map[], f), Keep(c, r, map[], g))
  {
  }

  lemma LeaveLike(x: Uuid, d: Tables, e: Tables, c: Client, k: Client, thrown: bool)
    requires TablesLike(x, d, e) && ClientLike(x, c, k) && c.frames != []
    ensures LeftLike(x, d, e, c, k, thrown)
  {
    OneLessFrame(x, c.frames, k.frames);
    match c.frames[0]
    case InScope(_, _) => LeaveScopeLike(x, d, e, c, k, thrown);
    case InSavepoint(_, _, _) => LeaveSavepointLike(x, d, e, c, k, thrown);
    case InTransaction(_) => LeaveTransactionLike(x, d, e, c, k, thrown);
  }

  /** One statement that is kept. */
  lemma KeptLike(x: Uuid, d: Tables, e: Tables, c: Client, k: Client, st: Statement)
    requires TablesLike(x, d, e) && ClientLike(x, c, k) && Sound(c)
    requires st.Query? ==> Innermost(c.frames) == Some(x)
    ensures StatementLike(x, d, e, c, k, st)
  {
    match st
    case Query(op) => OwnCallLike(x, d, e, c, k, op);
    case CommitWork => EndLike(x, d, e, c, k, st);
    case RollbackWork => EndLike(x, d, e, c, k, st);
    case EnterScope(_) => EnterLike(x, d, e, c, k, st);
    case EnterSavepoint => EnterLike(x, d, e, c, k, st);
    case EnterTransaction => EnterLike(x, d, e, c, k, st);
    case LeaveInner(thrown) =>
      if c.frames != [] {
        LeaveLike(x, d, e, c, k, thrown);
      }
    case _ => ControlLike(x, d, e, c, k, st);
  }

  // ---- One step of both systems --------------------------------------------------------------------

  lemma UpsertLike(x: Uuid, s: System, r: System, step: Step)
    requires Like(x, s, r) && step.Upsert?
    ensures Like(x, Next(s, step), Next(r, step))
    ensures Enabled(s, step) ==> Enabled(r, step)
  {
    forall i | i in s.clients ensures ClientLike(x, s.clients[i], r.clients[i]) {
    }
  }

  lemma KeptStep(x: Uuid, s: System, r: System, step: Step)
    requires Like(x, s, r) && SoundSystem(s) && Enabled(s, step) && step.By? && !Foreign(x, s, step)
    ensures Like(x, Next(s, step), Next(r, step))
    ensures OutputOf(s, step) == OutputOf(r, step)
    ensures !Foreign(x, r, step)
  {
    var c, k := s.clients[step.id], r.clients[step.id];
    assert ClientLike(x, c, k) && Sound(c);
    FramesAgree(x, c.frames, k.frames);
    KeptLike(x, s.db, r.db, c, k, step.st);
  }

  /** What lets a statement through on the full side lets it through on the other: a rename under `x`
      waits only for uncommitted names of `x`. */
  lemma KeptStepIsEnabled(x: Uuid, s: System, r: System, step: Step)
    requires Like(x, s, r) && SoundSystem(s) && Enabled(s, step) && step.By? && !Foreign(x, s, step)
    ensures Enabled(r, step)
  {
    var c := s.clients[step.id];
    assert ClientLike(x, c, r.clients[step.id]) && Sound(c);
    forall j, t | j in r.clients && j != step.id && t in r.clients[j].names && t in r.db.tenants
      ensures step.st.Query? && step.st.op.RenameTenant? ==>
                !TenantsUpdate(r.clients[step.id].setting, t, r.db.tenants[t])
    {
      assert ClientLike(x, s.clients[j], r.clients[j]);
    }
  }

  lemma ForeignStep(x: Uuid, s: System, r: System, step: Step)
    requires Like(x, s, r) && SoundSystem(s) && Foreign(x, s, step)
    ensures var touch := By(step.id, Touch);
            if Begins(s, step) then Enabled(r, touch) && Like(x, Next(s, step), Next(r, touch))
            else Like(x, Next(s, step), r)
  {
    var i := step.id;
    assert ClientLike(x, s.clients[i], r.clients[i]) && Sound(s.clients[i]);
    ForeignCallLike(x, s.db, r.db, s.clients[i], r.clients[i], step.st.op);
  }

  /** Non-interference over arbitrary interleavings: deleting from a trace every repository call made
      outside the scopes of `x`, in whatever session and next to whatever else that session does, leaves a
      trace that can still be executed, in which every remaining statement of every session ends as before
      and every repository call under `x` gets the same reply. */
  lemma {:induction false} NonInterference(x: Uuid, s: System, r: System, trace: seq<Step>)
    requires Like(x, s, r) && SoundSystem(s) && Feasible(s, trace)
    ensures var left := Only(x, s, trace);
            && Feasible(r, left)
            && ShownTo(x, r, left) == ShownTo(x, s, trace)
            && Like(x, Final(s, trace), Final(r, left))
    decreases |trace|
  {
    if trace != [] {
      var step, rest := trace[0], trace[1..];
      NextKeepsSound(s, step);
      if Foreign(x, s, step) {
        ForeignStep(x, s, r, step);
        if Begins(s, step) {
          NonInterference(x, Next(s, step), Next(r, By(step.id, Touch)), rest);
          assert Only(x, s, trace)[1..] == Only(x, Next(s, step), rest);
        } else {
          NonInterference(x, Next(s, step), r, rest);
        }
      } else {
        if step.By? {
          KeptStep(x, s, r, step);
          KeptStepIsEnabled(x, s, r, step);
        } else {
          UpsertLike(x, s, r, step);
        }
        NonInterference(x, Next(s, step), Next(r, step), rest);
        assert Only(x, s, trace)[1..] == Only(x, Next(s, step), rest);
      }
    }
  }

  // ---- Deleting one call of another tenant ---------------------------------------------------------

  /** The replies to the repository calls made under `x`. */
  ghost function Answered(x: Uuid, s: System, trace: seq<Step>): seq<Reply>
    decreases |trace|
  {
    if trace == [] then []
    else
      var rest := Answered(x, Next(s, trace[0]), trace[1..]);
      var output := OutputOf(s, trace[0]);
      if !Foreign(x, s, trace[0]) && output.Replied? then [output.reply] + rest else rest
  }

  lemma AlikeItself(x: Uuid, s: System)
    ensures Like(x, s, s)
  {
    forall i | i in s.clients ensures ClientLike(x, s.clients[i], s.clients[i]) {
    }
  }

  lemma ForeignRenamingLike(x: Uuid, d: Tables, e: Tables, c: Client, k: Client, name: string)
    requires TablesLike(x, d, e) && ClientLike(x, c, k) && c.setting != Some(x)
    ensures NamesLike(x, Renaming(d, c, name), Renaming(e, k, name))
  {
  }

  lemma ForeignOnBoth(x: Uuid, d: Tables, e: Tables, c: Client, k: Client, op: Op)
    requires TablesLike(x, d, e) && ClientLike(x, c, k) && Sound(c) && Innermost(c.frames) != Some(x)
    ensures var (d', c', _) := Run(d, c, Query(op)); var (e', k', _) := Run(e, k, Query(op));
            d' == d && e' == e && ClientLike(x, c', k')
  {
    if Answers(c, op) && op.RenameTenant? {
      ForeignRenamingLike(x, d, e, c, k, Trim(PyStrip, op.name));
    }
  }

  /** A call of another tenant made on both sides. */
  lemma ForeignOnBothSides(x: Uuid, s: System, r: System, step: Step)
    requires Like(x, s, r) && SoundSystem(s) && Foreign(x, s, step)
    ensures Like(x, Next(s, step), Next(r, step)) && Foreign(x, r, step)
  {
    var c, k := s.clients[step.id], r.clients[step.id];
    assert ClientLike(x, c, k) && Sound(c);
    FramesAgree(x, c.frames, k.frames);
    ForeignOnBoth(x, s.db, r.db, c, k, step.st.op);
  }

  lemma AnyStepIsEnabled(x: Uuid, s: System, r: System, step: Step)
    requires Like(x, s, r) && Enabled(s, step) && step.By?
    ensures Enabled(r, step)
  {
    var i := step.id;
    assert ClientLike(x, s.clients[i], r.clients[i]);
    forall j, t | j in r.clients && j != i && t in r.clients[j].names && t in r.db.tenants
      ensures step.st.Query? && step.st.op.RenameTenant? ==>
                !TenantsUpdate(r.clients[i].setting, t, r.db.tenants[t])
    {
      assert ClientLike(x, s.clients[j], r.clients[j]);
    }
  }

  /** Systems that differ in other tenants' names only show `x` the same over every continuation. */
  lemma {:induction false} SameContinuation(x: Uuid, s: System, r: System, trace: seq<Step>)
    requires Like(x, s, r) && SoundSystem(s) && Feasible(s, trace)
    ensures Feasible(r, trace)
    ensures ShownTo(x, r, trace) == ShownTo(x, s, trace) && Answered(x, r, trace) == Answered(x, s, trace)
    decreases |trace|
  {
    if trace != [] {
      var step := trace[0];
      NextKeepsSound(s, step);
      if Foreign(x, s, step) {
        AnyStepIsEnabled(x, s, r, step);
        ForeignOnBothSides(x, s, r, step);
      } else if step.By? {
        KeptStep(x, s, r, step);
        AnyStepIsEnabled(x, s, r, step);
      } else {
        UpsertLike(x, s, r, step);
      }
      SameContinuation(x, Next(s, step), Next(r, step), trace[1..]);
    }
  }

  // ---- The call that begins a transaction ------------------------------------------------------------

  /** Leaving `n` times whatever is innermost. */
  function Exits(i: nat, n: nat): seq<Step>
  {
    if n == 0 then [] else [By(i, LeaveInner(false))] + Exits(i, n - 1)
  }

  /** In no block, with nothing set and nothing written: only scopes are left to leave. */
  ghost predicate OnlyInScopes(c: Client)
  {
    Sound(c) && c.depth == 0 && !c.failed && !c.closed && c.setting == None && c.names == map[]
  }

  lemma ScopesOnly(c: Client)
    requires OnlyInScopes(c) && c.frames != []
    ensures c.frames[0].InScope?
  {
  }

  lemma LeaveOneScope(db: Tables, c: Client)
    requires OnlyInScopes(c) && c.frames != []
    ensures var (d, k, _) := Run(db, c, LeaveInner(false));
            d == db && OnlyInScopes(k) && k.open == c.open && k.frames == c.frames[1..]
  {
    ScopesOnly(c);
  }

  /** Out of all its scopes such a session is as good as new, but for its open transaction. */
  lemma {:induction false} ExitAll(s: System, i: nat)
    requires i in s.clients && OnlyInScopes(s.clients[i])
    ensures var way := Exits(i, |s.clients[i].frames|);
            && Feasible(s, way)
            && Final(s, way) == System(s.db, s.clients[i := FRESH_CLIENT.(open := s.clients[i].open)])
    decreases |s.clients[i].frames|
  {
    var c := s.clients[i];
    if c.frames == [] {
      assert s.clients == s.clients[i := c];
    } else {
      var next := Next(s, By(i, LeaveInner(false)));
      LeaveOneScope(s.db, c);
      ExitAll(next, i);
      assert Exits(i, |c.frames|)[1..] == Exits(i, |c.frames| - 1);
      assert next.clients[i := FRESH_CLIENT.(open := c.open)] == s.clients[i := FRESH_CLIENT.(open := c.open)];
    }
  }

  lemma {:induction false} FinalAppend(s: System, a: seq<Step>, b: seq<Step>)
    ensures Final(s, a + b) == Final(Final(s, a), b)
    decreases |a|
  {
    if a == [] {
      assert a + b == b;
    } else {
      assert (a + b)[0] == a[0] && (a + b)[1..] == a[1..] + b;
      FinalAppend(Next(s, a[0]), a[1..], b);
    }
  }

  lemma {:induction false} FeasibleAppend(s: System, a: seq<Step>, b: seq<Step>)
    ensures Feasible(s, a + b) <==> Feasible(s, a) && Feasible(Final(s, a), b)
    decreases |a|
  {
    if a == [] {
      assert a + b == b;
    } else {
      assert (a + b)[0] == a[0] && (a + b)[1..] == a[1..] + b;
      FeasibleAppend(Next(s, a[0]), a[1..], b);
    }
  }

  lemma {:induction false} AnsweredAppend(x: Uuid, s: System, a: seq<Step>, b: seq<Step>)
    ensures Answered(x, s, a + b) == Answered(x, s, a) + Answered(x, Final(s, a), b)
    decreases |a|
  {
    if a == [] {
      assert a + b == b;
    } else {
      assert (a + b)[0] == a[0] && (a + b)[1..] == a[1..] + b;
      AnsweredAppend(x, Next(s, a[0]), a[1..], b);
    }
  }

  lemma {:induction false} ExitsAreSilent(x: Uuid, s: System, i: nat, n: nat)
    ensures Answered(x, s, Exits(i, n)) == []
    decreases n
  {
    if n > 0 {
      var way := Exits(i, n);
      assert way[1..] == Exits(i, n - 1);
      ExitsAreSilent(x, Next(s, way[0]), i, n - 1);
    }
  }

  /** What a session does after leaving all scopes: a scope of `x`, and one call in it. */
  lemma ProbeOpen(x: Uuid, s: System, i: nat)
    requires i in s.clients && s.clients[i] == FRESH_CLIENT.(open := true)
    ensures var enter, call := By(i, EnterScope(x)), By(i, Query(GetTenant));
            var reply := TenantRow(if x in s.db.tenants then Some(ToRecord(x, s.db.tenants[x])) else None);
            && Feasible(s, [enter, call]) && OutputOf(Next(s, enter), call) == Replied(reply)
            && Answered(x, s, [enter, call]) == [reply]
  {
    SeeNothing(s.db);
    var enter, call := By(i, EnterScope(x)), By(i, Query(GetTenant));
    assert [enter, call][1..] == [call] && [call][1..] == [];
    assert [InScope(x, true)] + [] == [InScope(x, true)];
    assert Next(s, enter).clients[i].frames == [InScope(x, true)];
    assert Answered(x, Next(s, enter), [call]) == [OutputOf(Next(s, enter), call).reply];
  }

  lemma ProbeClosed(x: Uuid, s: System, i: nat)
    requires i in s.clients && s.clients[i] == FRESH_CLIENT
    ensures var enter, call := By(i, EnterScope(x)), By(i, Query(GetTenant));
            && Feasible(s, [enter, call]) && OutputOf(Next(s, enter), call) == Replied(TenantRow(None))
            && Answered(x, s, [enter, call]) == []
  {
    SeeNothing(s.db);
    var enter, call := By(i, EnterScope(x)), By(i, Query(GetTenant));
    assert [enter, call][1..] == [call] && [call][1..] == [];
    assert Next(s, enter).clients[i] == FRESH_CLIENT;
    assert Answered(x, Next(s, enter), [call]) == [];
  }

  /** A call that begins its session's transaction finds the session in no block, with nothing set. */
  lemma BeginsInScopes(s: System, step: Step)
    requires SoundSystem(s) && step.By? && step.id in s.clients && Begins(s, step)
    ensures var c, k := s.clients[step.id], Next(s, step).clients[step.id];
            && OnlyInScopes(c) && OnlyInScopes(k) && !c.open && k.open && k.frames == c.frames
            && Next(s, step).db == s.db
  {
    var c := s.clients[step.id];
    assert Sound(c);
    RunKeepsSound(s.db, c, step.st);
    assert Renaming(s.db, c, "") == map[];
  }

  /** A call that begins its session's transaction can be told by a later one under `x`: the session leaves
      all its scopes, enters one of `x` and asks for the tenant. After the call it is given the row of `x`,
      without it nothing. */
  lemma BeginningShows(x: Uuid, s: System, step: Step) returns (way: seq<Step>, last: Step)
    requires SoundSystem(s) && Foreign(x, s, step) && Begins(s, step)
    ensures Feasible(Next(s, step), way + [last]) && Feasible(s, way + [last])
    ensures OutputOf(Final(Next(s, step), way), last)
              == Replied(TenantRow(if x in s.db.tenants then Some(ToRecord(x, s.db.tenants[x])) else None))
    ensures OutputOf(Final(s, way), last) == Replied(TenantRow(None))
    ensures Answered(x, Next(s, step), way + [last]) != Answered(x, s, way + [last])
  {
    var i, after := step.id, Next(s, step);
    BeginsInScopes(s, step);
    var out, enter := Exits(i, |s.clients[i].frames|), By(i, EnterScope(x));
    way, last := out + [enter], By(i, Query(GetTenant));
    assert way + [last] == out + [enter, last];
    ExitAll(s, i);
    ExitAll(after, i);
    ProbeOpen(x, Final(after, out), i);
    ProbeClosed(x, Final(s, out), i);
    ProbeAfter(x, s, out, enter, last);
    ProbeAfter(x, after, out, enter, last);
    ExitsAreSilent(x, s, i, |s.clients[i].frames|);
    ExitsAreSilent(x, after, i, |s.clients[i].frames|);
  }

  lemma ProbeAfter(x: Uuid, s: System, out: seq<Step>, enter: Step, last: Step)
    ensures Final(s, out + [enter]) == Next(Final(s, out), enter)
    ensures Feasible(s, out + [enter, last]) <==> Feasible(s, out) && Feasible(Final(s, out), [enter, last])
    ensures Answered(x, s, out + [enter, last])
              == Answered(x, s, out) + Answered(x, Final(s, out), [enter, last])
  {
    FinalAppend(s, out, [enter]);
    FeasibleAppend(s, out, [enter, last]);
    AnsweredAppend(x, s, out, [enter, last]);
    assert [enter][1..] == [];
  }

  /** Whatever comes after the call can come without it, and gets the same replies under `x`. */
  ghost predicate Harmless(x: Uuid, s: System, step: Step)
  {
    forall trace :: Feasible(Next(s, step), trace) ==>
      Feasible(s, trace) && Answered(x, s, trace) == Answered(x, Next(s, step), trace)
  }

  /** Deleting one repository call of another tenant is harmless to `x` under every continuation if and
      only if the call does not begin its session's transaction. */
  lemma HarmlessIff(x: Uuid, s: System, step: Step)
    requires SoundSystem(s) && Foreign(x, s, step)
    ensures Harmless(x, s, step) <==> !Begins(s, step)
  {
    if Begins(s, step) {
      var way, last := BeginningShows(x, s, step);
      assert Answered(x, s, way + [last]) != Answered(x, Next(s, step), way + [last]);
    } else {
      AlikeItself(x, s);
      ForeignStep(x, s, s, step);
      NextKeepsSound(s, step);
      forall trace | Feasible(Next(s, step), trace)
        ensures Feasible(s, trace) && Answered(x, s, trace) == Answered(x, Next(s, step), trace)
      {
        SameContinuation(x, Next(s, step), s, trace);
      }
    }
  }

  // ---- Deleting all of them ------------------------------------------------------------------------------

  /** Nothing at all is left behind. */
  ghost function Plain(x: Uuid, s: System, trace: seq<Step>): seq<Step>
    decreases |trace|
  {
    if trace == [] then []
    else if Foreign(x, s, trace[0]) then Plain(x, Next(s, trace[0]), trace[1..])
    else [trace[0]] + Plain(x, Next(s, trace[0]), trace[1..])
  }

  /** No call that is deleted begins its session's transaction. */
  ghost predicate NoneBegins(x: Uuid, s: System, trace: seq<Step>)
    decreases |trace|
  {
    trace == [] || (!(Foreign(x, s, trace[0]) && Begins(s, trace[0])) && NoneBegins(x, Next(s, trace[0]), trace[1..]))
  }

  lemma {:induction false} PlainIsOnly(x: Uuid, s: System, trace: seq<Step>)
    requires NoneBegins(x, s, trace)
    ensures Plain(x, s, trace) == Only(x, s, trace)
    decreases |trace|
  {
    if trace != [] {
      PlainIsOnly(x, Next(s, trace[0]), trace[1..]);
    }
  }

  /** Where no deleted call begins its session's transaction, all of them can be deleted without a trace:
      what is left can be executed and shows the same. */
  lemma PlainDeletion(x: Uuid, s: System, trace: seq<Step>)
    requires SoundSystem(s) && Feasible(s, trace) && NoneBegins(x, s, trace)
    ensures Feasible(s, Plain(x, s, trace)) && ShownTo(x, s, Plain(x, s, trace)) == ShownTo(x, s, trace)
  {
    AlikeItself(x, s);
    PlainIsOnly(x, s, trace);
    NonInterference(x, s, s, trace);
  }

  ghost function Outputs(s: System, trace: seq<Step>): (r: seq<Output>)
    ensures |r| == |trace|
    decreases |trace|
  {
    if trace == [] then [] else [OutputOf(s, trace[0])] + Outputs(Next(s, trace[0]), trace[1..])
  }

  lemma OutputsOfOne(s: System, trace: seq<Step>, a: Step, rest: seq<Step>)
    requires trace == [a] + rest
    ensures Outputs(s, trace) == [OutputOf(s, a)] + Outputs(Next(s, a), rest)
  {
    assert trace[1..] == rest;
  }

  lemma OutputsOfTwo(s: System, trace: seq<Step>, a: Step, b: Step, rest: seq<Step>)
    requires trace == [a] + ([b] + rest)
    ensures Outputs(s, trace) == [OutputOf(s, a)] + ([OutputOf(Next(s, a), b)] + Outputs(Next(Next(s, a), b), rest))
  {
    OutputsOfOne(s, trace, a, [b] + rest);
    OutputsOfOne(Next(s, a), [b] + rest, b, rest);
  }

  lemma OutputsOfThree(s: System, a: Step, b: Step, c: Step, rest: seq<Step>)
    ensures var s1 := Next(s, a); var s2 := Next(s1, b);
            Outputs(s, [a, b, c] + rest)
              == [OutputOf(s, a), OutputOf(s1, b), OutputOf(s2, c)] + Outputs(Next(s2, c), rest)
  {
    var s1 := Next(s, a);
    var s2 := Next(s1, b);
    var last := Outputs(Next(s2, c), rest);
    OutputsOfTwo(s, [a, b, c] + rest, a, b, [c] + rest);
    OutputsOfOne(s2, [c] + rest, c, rest);
    assert [OutputOf(s, a)] + ([OutputOf(s1, b)] + ([OutputOf(s2, c)] + last))
        == [OutputOf(s, a), OutputOf(s1, b), OutputOf(s2, c)] + last;
  }

  /** The system of one session. */
  function One(db: Tables, c: Client): System
  {
    System(db, map[0 := c])
  }

  /** Plain deletion would not do: in the scope of `y` a session commits and reads once more, which begins
      a transaction; so a scope of `x` can be entered next and shows the tenant `x`. Without that one call
      of `y` there is no transaction, the scope of `x` is refused, and the same call shows nothing. */
  lemma PlainDeletionInterferes(db: Tables, x: Uuid, y: Uuid)
    requires x in db.tenants && x != y
    ensures var head := [By(0, BeginWork), By(0, EnterScope(y)), By(0, CommitWork)];
            var call := By(0, Query(GetTenant));
            var tail := [By(0, LeaveInner(false)), By(0, EnterScope(x)), call];
            var s := One(db, FRESH_CLIENT);
            && Outputs(s, head + [call] + tail)[6] == Replied(TenantRow(Some(ToRecord(x, db.tenants[x]))))
            && Outputs(s, head + tail)[4] == Raised && Outputs(s, head + tail)[5] == Replied(TenantRow(None))
  {
    SeeNothing(db);
    var call := By(0, Query(GetTenant));
    var tail := [By(0, LeaveInner(false)), By(0, EnterScope(x)), call];
    var inY := FRESH_CLIENT.(open := true, setting := Some(y), bound := Some(y), frames := [InScope(y, true)]);
    var ended := inY.(open := false, setting := None);
    AfterTheCall(db, x, y, inY.(setting := None));
    WithoutTheCall(db, x, y, ended);
    var again := inY.(setting := None);
    assert Next(One(db, ended), call) == One(db, again);
    assert Outputs(One(db, ended), [call] + tail) == [OutputOf(One(db, ended), call)] + Outputs(One(db, again), tail);
    ThroughTheCommit(db, y, [call] + tail);
    ThroughTheCommit(db, y, tail);
    assert [By(0, BeginWork), By(0, EnterScope(y)), By(0, CommitWork)] + [call] + tail
        == [By(0, BeginWork), By(0, EnterScope(y)), By(0, CommitWork)] + ([call] + tail);
  }

  lemma ThroughTheCommit(db: Tables, y: Uuid, rest: seq<Step>)
    ensures var ended := FRESH_CLIENT.(bound := Some(y), frames := [InScope(y, true)]);
            Outputs(One(db, FRESH_CLIENT), [By(0, BeginWork), By(0, EnterScope(y)), By(0, CommitWork)] + rest)
              == [Fine, Fine, Fine] + Outputs(One(db, ended), rest)
  {
    SeeNothing(db);
    assert [InScope(y, true)] + [] == [InScope(y, true)];
    var begun := FRESH_CLIENT.(open := true);
    var inY := begun.(setting := Some(y), bound := Some(y), frames := [InScope(y, true)]);
    var ended := FRESH_CLIENT.(bound := Some(y), frames := [InScope(y, true)]);
    OutputsOfThree(One(db, FRESH_CLIENT), By(0, BeginWork), By(0, EnterScope(y)), By(0, CommitWork), rest);
    assert Next(One(db, FRESH_CLIENT), By(0, BeginWork)) == One(db, begun);
    assert Next(One(db, begun), By(0, EnterScope(y))) == One(db, inY);
    assert Next(One(db, inY), By(0, CommitWork)) == One(db, ended);
  }

  lemma AfterTheCall(db: Tables, x: Uuid, y: Uuid, c: Client)
    requires x in db.tenants && c == FRESH_CLIENT.(open := true, bound := Some(y), frames := [InScope(y, true)])
    ensures Outputs(One(db, c), [By(0, LeaveInner(false)), By(0, EnterScope(x)), By(0, Query(GetTenant))])
              == [Fine, Fine, Replied(TenantRow(Some(ToRecord(x, db.tenants[x]))))]
  {
    SeeNothing(db);
    assert [InScope(x, true)] + [] == [InScope(x, true)] && [InScope(y, true)][1..] == [];
    OutputsOfThree(One(db, c), By(0, LeaveInner(false)), By(0, EnterScope(x)), By(0, Query(GetTenant)), []);
    var tail := [By(0, LeaveInner(false)), By(0, EnterScope(x)), By(0, Query(GetTenant))];
    assert tail + [] == tail;
    var begun := FRESH_CLIENT.(open := true);
    var inX := begun.(setting := Some(x), bound := Some(x), frames := [InScope(x, true)]);
    assert Next(One(db, c), By(0, LeaveInner(false))) == One(db, begun);
    assert Next(One(db, begun), By(0, EnterScope(x))) == One(db, inX);
    assert OutputOf(One(db, inX), By(0, Query(GetTenant))) == Replied(TenantRow(Some(ToRecord(x, db.tenants[x]))));
  }

  lemma WithoutTheCall(db: Tables, x: Uuid, y: Uuid, c: Client)
    requires c == FRESH_CLIENT.(bound := Some(y), frames := [InScope(y, true)])
    ensures Outputs(One(db, c), [By(0, LeaveInner(false)), By(0, EnterScope(x)), By(0, Query(GetTenant))])
              == [Fine, Raised, Replied(TenantRow(None))]
  {
    SeeNothing(db);
    assert [InScope(y, true)][1..] == [];
    OutputsOfThree(One(db, c), By(0, LeaveInner(false)), By(0, EnterScope(x)), By(0, Query(GetTenant)), []);
    var tail := [By(0, LeaveInner(false)), By(0, EnterScope(x)), By(0, Query(GetTenant))];
    assert tail + [] == tail;
    assert Next(One(db, c), By(0, LeaveInner(false))) == One(db, FRESH_CLIENT);
    assert Next(One(db, FRESH_CLIENT), By(0, EnterScope(x))) == One(db, FRESH_CLIENT);
    assert OutputOf(One(db, FRESH_CLIENT), By(0, Query(GetTenant))) == Replied(TenantRow(None));
  }
}
