/** Runs that exist: a call with nobody in its way does exactly what the sequential function says, and
    the races in which the interleaved system does not. */
module ConcurrencyRuns {
  import opened Text
  import opened Directory
  import opened Provisioning
  import opened ProvisioningLaws
  import opened Concurrency
  import opened ConcurrencyInvariant
  import opened ConcurrencyAllowlist
  import opened ConcurrencyRefusals
  import opened ConcurrencyTheorems

  // ---- A call on its own ---------------------------------------------------------------

  /** Uuids for the three inserts of a call, and one for the statements that insert nothing. */
  ghost predicate AllNew(db: Tables, ids: Ids, spare: Uuid)
  {
    && Fresh(db, Ids(ids.user, ids.user, ids.user)) && Fresh(db, Ids(ids.tenant, ids.tenant, ids.tenant))
    && Fresh(db, Ids(ids.member, ids.member, ids.member)) && Fresh(db, Ids(spare, spare, spare))
    && ids.user != ids.tenant && ids.user != ids.member && ids.tenant != ids.member
    && spare != ids.user && spare != ids.tenant && spare != ids.member
  }

  function DrawnId(c: Call, ids: Ids, spare: Uuid): Uuid
  {
    match c.pc
    case InsertUser => ids.user
    case UpsertTenant => ids.tenant
    case UpsertMember => ids.member
    case _ => spare
  }

  /** What the call holds was there before, or carries the uuid meant for it. */
  predicate DrawsFrom(db: Tables, c: Call, ids: Ids)
  {
    && (c.lockUser.Some? ==> c.lockUser.value in db.users || c.lockUser.value == ids.user)
    && (c.lockTenant.Some? ==> c.lockTenant.value in db.tenants || c.lockTenant.value == ids.tenant)
    && (c.lockMember.Some? ==> c.lockMember.value in db.members || c.lockMember.value == ids.member)
  }

  /** What the statements so far have read still holds. */
  ghost predicate Steady(db: Tables, c: Call)
  {
    && !c.pc.RereadEmail?
    && (!c.pc.CheckAllowed? ==> SignupAllowed(db.allow, c.req.norm))
    && (c.pc.FindEmail? ==> SubjectRow(db.users, c.req.subject).None?)
    && (c.pc.InsertUser? ==>
          SubjectRow(db.users, c.req.subject).None? && ByEmail(db.users, c.req.norm).None?)
    && (c.pc.MoveEmail? ==> !TakenByAnother(db.users, c.req.norm, c.user))
  }

  lemma EarlyStaysSteady(db: Tables, c: Call, ids: Ids, spare: Uuid)
    requires Valid(db) && CallOk(db, c) && c.InFlight() && Steady(db, c) && DrawsFrom(db, c, ids)
    requires c.pc in {CheckAllowed, FindSubject, TestEmail, FindEmail}
    ensures var d := Advance(db, c, DrawnId(c, ids, spare));
            d.req == c.req && (!d.pc.Failed? ==> Steady(db, d) && DrawsFrom(db, d, ids))
  {
  }

  lemma WriteStaysSteady(db: Tables, c: Call, ids: Ids, spare: Uuid)
    requires Valid(db) && CallOk(db, c) && c.InFlight() && Steady(db, c) && DrawsFrom(db, c, ids)
    requires c.pc in {MoveEmail, InsertUser}
    ensures var d := Advance(db, c, DrawnId(c, ids, spare));
            d.req == c.req && (!d.pc.Failed? ==> Steady(db, d) && DrawsFrom(db, d, ids))
  {
  }

  lemma TenantStaysSteady(db: Tables, c: Call, ids: Ids, spare: Uuid)
    requires CallOk(db, c) && Steady(db, c) && DrawsFrom(db, c, ids) && c.pc in {UpsertTenant, TestTenant}
    ensures var d := Advance(db, c, DrawnId(c, ids, spare));
            d.req == c.req && (!d.pc.Failed? ==> Steady(db, d) && DrawsFrom(db, d, ids))
  {
  }

  lemma MemberStaysSteady(db: Tables, c: Call, ids: Ids, spare: Uuid)
    requires CallOk(db, c) && Steady(db, c) && DrawsFrom(db, c, ids) && c.pc in {UpsertMember, TestMember}
    ensures var d := Advance(db, c, DrawnId(c, ids, spare));
            d.req == c.req && (!d.pc.Failed? ==> Steady(db, d) && DrawsFrom(db, d, ids))
  {
  }

  /** A call whose reads still hold is never overtaken: all its refusals are those of the whole call. */
  lemma SteadyRefusal(db: Tables, c: Call, x: Uuid, ids: Ids)
    requires Valid(db) && CallOk(db, c) && c.InFlight() && Steady(db, c) && Advance(db, c, x).pc.Failed?
    ensures Answer(db, c.req, ids) == Refused(Advance(db, c, x).pc.why)
  {
    var why := Advance(db, c, x).pc.why;
    if why == UniqueViolation {
      OnlyUserWritesViolate(db, c, x);
      assert false;
    } else if why == NotAllowed {
      OnlyTheCheckDisallows(db, c, x);
    } else {
      RefusalIffJustified(db, c, x, ids, why);
      if c.pc.CheckAllowed? {
        CheckDecides(db, c, x);
      }
    }
  }

  lemma OnlyTheCheckDisallows(db: Tables, c: Call, x: Uuid)
    requires CallOk(db, c) && c.InFlight() && Advance(db, c, x).pc == Failed(NotAllowed)
    ensures c.pc.CheckAllowed? && !SignupAllowed(db.allow, c.req.norm)
  {
  }

  lemma SteadyStep(db: Tables, c: Call, ids: Ids, spare: Uuid)
    requires Valid(db) && CallOk(db, c) && c.InFlight() && !c.pc.Commit?
    requires Steady(db, c) && DrawsFrom(db, c, ids) && AllNew(db, ids, spare)
    ensures var d := Advance(db, c, DrawnId(c, ids, spare));
            && d.req == c.req && CallOk(db, d)
            && (!d.pc.Failed? ==> Steady(db, d) && DrawsFrom(db, d, ids))
            && (d.pc.Failed? ==> Answer(db, c.req, ids) == Refused(d.pc.why))
  {
    AdvanceKeepsCall(db, c, DrawnId(c, ids, spare));
    if c.pc in {CheckAllowed, FindSubject, TestEmail, FindEmail} {
      EarlyStaysSteady(db, c, ids, spare);
    } else if c.pc in {MoveEmail, InsertUser} {
      WriteStaysSteady(db, c, ids, spare);
    } else if c.pc in {UpsertTenant, TestTenant} {
      TenantStaysSteady(db, c, ids, spare);
    } else {
      MemberStaysSteady(db, c, ids, spare);
    }
    if Advance(db, c, DrawnId(c, ids, spare)).pc.Failed? {
      SteadyRefusal(db, c, DrawnId(c, ids, spare), ids);
    }
  }

  /** The verdict does not depend on the uuids it does not use. */
  lemma VerdictOfDrawn(db: Tables, r: Request, o: Outcome, ids: Ids)
    requires Valid(db) && o.Accepted? && Legal(db, r, o) && Fresh(db, ids)
    requires o.user in db.users || o.user == ids.user
    requires o.tenant in db.tenants || o.tenant == ids.tenant
    requires o.member in db.members || o.member == ids.member
    ensures Verdict(db, r, ids) == o
  {
    LegalIsVerdict(db, r, o);
  }

  lemma CommitAnswers(db: Tables, c: Call, ids: Ids)
    requires Valid(db) && CallOk(db, c) && c.pc.Commit? && Steady(db, c) && DrawsFrom(db, c, ids) && Fresh(db, ids)
    ensures Answer(db, c.req, ids) == c.Result() && See(db, c) == Post(db, c.req, c.Result())
  {
    CommitIsLegal(db, c);
    VerdictOfDrawn(db, c.req, c.Result(), ids);
  }

  // ---- Building runs ---------------------------------------------------------------------

  /** Some run that starts in `s` passes through `t`. */
  ghost predicate Leads(s: State, t: State)
  {
    exists states, actions :: Run(states, actions) && states[0] == s && states[|actions|] == t
  }

  lemma LeadsKeepsInv(s: State, t: State)
    requires Leads(s, t)
    ensures Inv(t)
  {
    var states, actions :| Run(states, actions) && states[0] == s && states[|actions|] == t;
    RunKeepsInv(states, actions, |actions|);
  }

  lemma Starts(db: Tables) returns (s: State)
    requires Valid(db)
    ensures s == State(db, map[]) && Leads(s, s)
  {
    s := State(db, map[]);
    assert Run([s], []);
  }

  /** The run, one action longer. */
  lemma Extend(states: seq<State>, actions: seq<Action>, a: Action) returns (more: seq<State>, done: seq<Action>)
    requires Run(states, actions) && Enabled(states[|actions|], a)
    ensures Run(more, done) && more == states + [Apply(states[|actions|], a)] && done == actions + [a]
  {
    more, done := states + [Apply(states[|actions|], a)], actions + [a];
    forall k | 0 <= k < |done| ensures Enabled(more[k], done[k]) && more[k + 1] == Apply(more[k], done[k]) {
      if k < |actions| {
        assert more[k] == states[k] && more[k + 1] == states[k + 1] && done[k] == actions[k];
      }
    }
  }

  lemma LeadsOn(s: State, t: State, a: Action) returns (next: State)
    requires Leads(s, t) && Enabled(t, a)
    ensures next == Apply(t, a) && Leads(s, next)
  {
    var states, actions :| Run(states, actions) && states[0] == s && states[|actions|] == t;
    var more, done := Extend(states, actions, a);
    next := Apply(t, a);
    assert more[0] == s && more[|done|] == next;
  }

  /** Everybody but `i` holds nothing. */
  ghost predicate OnlyActive(s: State, i: CallId)
  {
    forall j :: j in s.calls && j != i ==> Idle(s.calls[j])
  }

  lemma IdleNeverBlocks(db: Tables, c: Call, d: Call)
    requires Idle(d)
    ensures !Blocks(db, c, d)
  {
  }

  /** Nobody is in the way of `i`. */
  lemma AloneIsEnabled(s: State, i: CallId, x: Uuid)
    requires OnlyActive(s, i) && i in s.calls && s.calls[i].InFlight()
    requires Fresh(s.db, Ids(x, x, x)) && Untouched(s.calls[i], x)
    ensures Enabled(s, Step(i, x))
  {
    forall j | j in s.calls && j != i ensures !Blocks(s.db, s.calls[i], s.calls[j]) && Untouched(s.calls[j], x) {
      IdleNeverBlocks(s.db, s.calls[i], s.calls[j]);
    }
  }

  /** Only `i` is under way, on tables that have not changed since its check. */
  ghost predicate Solo(s: State, i: CallId, ids: Ids, spare: Uuid)
  {
    && Inv(s) && OnlyActive(s, i) && AllNew(s.db, ids, spare)
    && i in s.calls && s.calls[i].InFlight() && Steady(s.db, s.calls[i]) && DrawsFrom(s.db, s.calls[i], ids)
  }

  /** Between `s` and `t` only `i` has moved, to its commit or to the refusal it deserves. */
  ghost predicate SoloEnd(s: State, t: State, i: CallId, ids: Ids, spare: Uuid)
    requires i in s.calls && s.calls[i].req.subject.Some?
  {
    && i in t.calls && t == State(s.db, s.calls[i := t.calls[i]]) && t.calls[i].req == s.calls[i].req
    && (if t.calls[i].pc.Commit? then Solo(t, i, ids, spare)
        else t.calls[i].pc.Failed? && Idle(t.calls[i])
             && Answer(s.db, s.calls[i].req, ids) == Refused(t.calls[i].pc.why))
  }

  /** One statement of `i`, short of its commit. */
  lemma OneStep(s: State, t: State, i: CallId, x: Uuid) returns (next: State)
    requires Leads(s, t) && OnlyActive(t, i) && i in t.calls && t.calls[i].InFlight() && !t.calls[i].pc.Commit?
    requires Fresh(t.db, Ids(x, x, x)) && Untouched(t.calls[i], x)
    ensures Leads(s, next) && next == State(t.db, t.calls[i := Advance(t.db, t.calls[i], x)])
  {
    AloneIsEnabled(t, i, x);
    next := LeadsOn(s, t, Step(i, x));
  }

  lemma DrawnIsUntouched(db: Tables, c: Call, ids: Ids, spare: Uuid)
    requires CallOk(db, c) && c.InFlight() && DrawsFrom(db, c, ids) && AllNew(db, ids, spare)
    ensures var x := DrawnId(c, ids, spare); Untouched(c, x) && Fresh(db, Ids(x, x, x))
  {
  }

  lemma SoloStep(s: State, i: CallId, ids: Ids, spare: Uuid)
    requires Solo(s, i, ids, spare)
    ensures Enabled(s, Step(i, DrawnId(s.calls[i], ids, spare)))
    ensures !s.calls[i].pc.Commit? ==>
              var t := Apply(s, Step(i, DrawnId(s.calls[i], ids, spare)));
              && s.calls[i].req.subject.Some?
              && t == State(s.db, s.calls[i := t.calls[i]]) && t.calls[i].req == s.calls[i].req
              && Remaining(t.calls[i]) < Remaining(s.calls[i])
              && (if t.calls[i].pc.Failed? then SoloEnd(s, t, i, ids, spare) else Solo(t, i, ids, spare))
  {
    var c := s.calls[i];
    var x := DrawnId(c, ids, spare);
    assert CallOk(s.db, c);
    InFlightHasSubject(s.db, c);
    DrawnIsUntouched(s.db, c, ids, spare);
    AloneIsEnabled(s, i, x);
    if !c.pc.Commit? {
      StepKeepsInv(s, i, x);
      SteadyStep(s.db, c, ids, spare);
      StepDecreases(s.db, c, x);
      NotYetDone(s.db, c, x);
      assert CallOk(s.db, Advance(s.db, c, x));
    }
  }

  lemma NotYetDone(db: Tables, c: Call, x: Uuid)
    requires c.InFlight() && !c.pc.Commit?
    ensures !Advance(db, c, x).pc.Done?
  {
  }

  lemma SoloThrough(s: State, m: State, t: State, i: CallId, ids: Ids, spare: Uuid)
    requires i in s.calls && i in m.calls && s.calls[i].req.subject.Some? && m.calls[i].req == s.calls[i].req
    requires m == State(s.db, s.calls[i := m.calls[i]]) && SoloEnd(m, t, i, ids, spare)
    ensures SoloEnd(s, t, i, ids, spare)
  {
    assert t.calls == s.calls[i := t.calls[i]];
  }

  /** From any statement to the brink of its commit, or to its refusal, without anybody else moving. */
  lemma {:induction false} RunToCommit(s0: State, s: State, i: CallId, ids: Ids, spare: Uuid) returns (t: State)
    requires Leads(s0, s) && Solo(s, i, ids, spare)
    ensures Leads(s0, t) && s.calls[i].req.subject.Some? && SoloEnd(s, t, i, ids, spare)
    decreases Remaining(s.calls[i])
  {
    SoloStep(s, i, ids, spare);
    if s.calls[i].pc.Commit? {
      t := s;
      assert s.calls == s.calls[i := s.calls[i]] && CallOk(s.db, s.calls[i]);
    } else {
      var m := LeadsOn(s0, s, Step(i, DrawnId(s.calls[i], ids, spare)));
      if m.calls[i].pc.Failed? {
        t := m;
      } else {
        t := RunToCommit(s0, m, i, ids, spare);
        SoloThrough(s, m, t, i, ids, spare);
      }
    }
  }

  /** The end of a call that got all its statements to itself. */
  ghost predicate Answered(s: State, t: State, i: CallId, o: Outcome, after: Tables)
  {
    && i in t.calls && t == State(after, s.calls[i := t.calls[i]]) && Idle(t.calls[i])
    && match o
       case Refused(why) => t.calls[i].pc == Failed(why)
       case Accepted(_, _, _, _) => t.calls[i].pc.Done? && t.calls[i].Result() == o
  }

  lemma SoloCommit(s: State, i: CallId, ids: Ids, spare: Uuid)
    requires Solo(s, i, ids, spare) && s.calls[i].pc.Commit?
    ensures var c, t := s.calls[i], Apply(s, Step(i, spare));
            && Enabled(s, Step(i, spare)) && c.req.subject.Some?
            && Answer(s.db, c.req, ids) == c.Result()
            && t == State(Post(s.db, c.req, c.Result()), s.calls[i := c.Release(Done)])
  {
    var c := s.calls[i];
    assert CallOk(s.db, c);
    SoloStep(s, i, ids, spare);
    CommitAnswers(s.db, c, ids);
  }

  lemma BeginIsSolo(s: State, i: CallId, a: Args, ids: Ids, spare: Uuid)
    requires Inv(s) && OnlyActive(s, i) && i !in s.calls && AllNew(s.db, ids, spare) && Parse(a).Good?
    ensures var b := Apply(s, Begin(i, a));
            && Solo(b, i, ids, spare)
            && b == State(s.db, s.calls[i := b.calls[i]]) && b.calls[i].req == Parse(a).req
    ensures Decide(s.db, a, ids) == Answer(s.db, Parse(a).req, ids)
  {
    BeginKeepsInv(s, i, a);
  }

  lemma AnsweredThrough(s: State, b: State, e: State, t: State, i: CallId, o: Outcome, after: Tables)
    requires i in b.calls && b == State(s.db, s.calls[i := b.calls[i]])
    requires i in e.calls && e == State(b.db, b.calls[i := e.calls[i]])
    requires i in t.calls && t == State(after, e.calls[i := t.calls[i]])
    ensures t == State(after, s.calls[i := t.calls[i]])
  {
    assert t.calls == s.calls[i := t.calls[i]];
  }

  /** The last move: the commit, if that is where the call has got to. */
  lemma SoloFinish(s: State, b: State, e: State, i: CallId, ids: Ids, spare: Uuid) returns (t: State)
    requires i in b.calls && b == State(s.db, s.calls[i := b.calls[i]]) && b.calls[i].req.subject.Some?
    requires SoloEnd(b, e, i, ids, spare)
    ensures if e.calls[i].pc.Commit? then Enabled(e, Step(i, spare)) && t == Apply(e, Step(i, spare)) else t == e
    ensures var req := b.calls[i].req;
            var o := Answer(s.db, req, ids);
            Answered(s, t, i, o, if o.Accepted? then Post(s.db, req, o) else s.db)
  {
    var req := b.calls[i].req;
    var o := Answer(s.db, req, ids);
    var after := if o.Accepted? then Post(s.db, req, o) else s.db;
    if e.calls[i].pc.Commit? {
      SoloCommit(e, i, ids, spare);
      t := Apply(e, Step(i, spare));
    } else {
      t := e;
      assert e.calls == e.calls[i := e.calls[i]];
    }
    AnsweredThrough(s, b, e, t, i, o, after);
  }

  /** Every answer of the sequential function is that of a run: where all other calls are idle, a call
      with any arguments can be executed from its start to its end, and is then answered as `Decide` says
      and leaves the tables that `After` says. */
  lemma SoloRun(s0: State, s: State, i: CallId, a: Args, ids: Ids, spare: Uuid) returns (t: State)
    requires Leads(s0, s) && OnlyActive(s, i) && i !in s.calls && AllNew(s.db, ids, spare)
    ensures Leads(s0, t) && Answered(s, t, i, Decide(s.db, a, ids), After(s.db, a, ids))
  {
    LeadsKeepsInv(s0, s);
    var b := LeadsOn(s0, s, Begin(i, a));
    if Parse(a).Good? {
      BeginIsSolo(s, i, a, ids, spare);
      var e := RunToCommit(s0, b, i, ids, spare);
      t := SoloFinish(s, b, e, i, ids, spare);
      if e.calls[i].pc.Commit? {
        t := LeadsOn(s0, e, Step(i, spare));
      }
    } else {
      t := b;
    }
  }

  // ---- Two identical calls, one refused --------------------------------------------------

  /** The request of `a` would open a new account. */
  ghost predicate OpensAccount(db: Tables, a: Args)
  {
    && Parse(a).Good? && SignupAllowed(db.allow, Parse(a).req.norm)
    && SubjectRow(db.users, Parse(a).req.subject).None? && ByEmail(db.users, Parse(a).req.norm).None?
  }

  /** The lookups of a call with nobody else active: allowlist and subject. */
  lemma RunToLookup(db: Tables, a: Args, i: CallId, spare: Uuid) returns (t: State)
    requires Valid(db) && OpensAccount(db, a) && Fresh(db, Ids(spare, spare, spare))
    ensures Leads(State(db, map[]), t) && t == State(db, map[i := NewCall(a).(pc := FindEmail)])
  {
    var s := Starts(db);
    t := LeadsOn(s, s, Begin(i, a));
    t := OneStep(s, t, i, spare);
    assert t == State(db, map[i := NewCall(a).(pc := FindSubject)]);
    t := OneStep(s, t, i, spare);
  }

  lemma OpensIsAccepted(db: Tables, a: Args, ids: Ids)
    requires OpensAccount(db, a)
    ensures Decide(db, a, ids) == Accepted(ids.user, ids.tenant, ids.member, true)
  {
  }

  lemma NewAccount(db: Tables, a: Args, ids: Ids)
    requires Valid(db) && OpensAccount(db, a) && Fresh(db, ids)
    ensures Decide(db, a, ids) == Accepted(ids.user, ids.tenant, ids.member, true)
    ensures var d := After(db, a, ids);
            && Valid(d) && d.allow == db.allow && d.users == db.users[ids.user := NewUser(Parse(a).req)]
            && Granted(d, Parse(a).req.subject, Decide(db, a, ids))
  {
    VerdictIsLegal(db, Parse(a).req, ids);
    LegalKeepsValid(db, Parse(a).req, Decide(db, a, ids));
  }

  lemma TwinFindsItsRow(db: Tables, c: Call, u: Uuid, x: Uuid)
    requires Valid(db) && c.pc.FindEmail? && c.req.subject.Some?
    requires u in db.users && db.users[u] == NewUser(c.req)
    ensures Advance(db, c, x).pc == Failed(SubjectConflict)
  {
    assert ByEmail(db.users, c.req.norm) == Some(u);
  }

  /** One call has looked for its subject in vain; its twin goes all the way, and then it reads on. */
  lemma TwinGoesFirst(s0: State, s: State, a: Args, ids: Ids, spare: Uuid) returns (t: State)
    requires Leads(s0, s) && s.calls.Keys == {1} && s.calls[1].pc.FindEmail? && Idle(s.calls[1])
    requires AllNew(s.db, ids, spare) && Decide(s.db, a, ids).Accepted? && Valid(After(s.db, a, ids))
    requires s.calls[1].req.subject.Some? && ids.user in After(s.db, a, ids).users
    requires After(s.db, a, ids).users[ids.user] == NewUser(s.calls[1].req)
    ensures Leads(s0, t) && t.db == After(s.db, a, ids) && t.calls.Keys == {0, 1}
    ensures t.calls[0].pc.Done? && t.calls[0].Result() == Decide(s.db, a, ids)
    ensures t.calls[1].pc == Failed(SubjectConflict)
  {
    SpareStaysNew(s.db, a, ids, spare);
    t := SoloRun(s0, s, 0, a, ids, spare);
    TwinFindsItsRow(t.db, t.calls[1], ids.user, spare);
    t := OneStep(s0, t, 1, spare);
  }

  /** On every database on which a request opens a new account, two identical calls of it have a run in
      which one commits the account and the other is refused with "external subject conflict", although
      asked again it would be answered with that very account. */
  lemma TwinRefused(db: Tables, a: Args, ids: Ids, spare: Uuid, again: Ids) returns (t: State)
    requires Valid(db) && OpensAccount(db, a) && AllNew(db, ids, spare)
    ensures Leads(State(db, map[]), t) && t.calls.Keys == {0, 1}
    ensures t.calls[0].pc.Done? && t.calls[0].Result() == Accepted(ids.user, ids.tenant, ids.member, true)
    ensures t.calls[1].pc == Failed(SubjectConflict)
    ensures Decide(t.db, a, again) == Accepted(ids.user, ids.tenant, ids.member, false)
  {
    NewAccount(db, a, ids);
    Idempotent(db, a, ids, again);
    t := RunToLookup(db, a, 1, spare);
    t := TwinGoesFirst(State(db, map[]), t, a, ids, spare);
  }

  lemma SpareStaysNew(db: Tables, a: Args, ids: Ids, spare: Uuid)
    requires AllNew(db, ids, spare) && Decide(db, a, ids).Accepted?
    ensures Fresh(After(db, a, ids), Ids(spare, spare, spare))
  {
  }

  // ---- A binding required that is not ------------------------------------------------------

  /** The row opened by the call of `b` moves to the address of `m`. */
  lemma MoveOfNewAccount(db: Tables, b: Args, m: Args, ids: Ids, more: Ids)
    requires Valid(db) && OpensAccount(db, b) && Fresh(db, ids)
    requires Parse(m).Good? && Parse(m).req.subject == Parse(b).req.subject
    requires Parse(m).req.norm != Parse(b).req.norm
    requires SignupAllowed(db.allow, Parse(m).req.norm) && ByEmail(db.users, Parse(m).req.norm).None?
    ensures Decide(After(db, b, ids), m, more) == Accepted(ids.user, ids.tenant, ids.member, false)
  {
    NewAccount(db, b, ids);
    var d, r := After(db, b, ids), Parse(b).req;
    assert BySubject(d.users, r.subject.value) == Some(ids.user);
    assert PersonalOf(d.tenants, ids.user) == Some(ids.tenant);
    assert LinkOf(d.members, ids.user, ids.tenant) == Some(ids.member);
    assert !TakenByAnother(d.users, Parse(m).req.norm, ids.user);
  }

  /** The users once a second call has opened an account under the address and then moved it. */
  lemma VacatedUsers(users: map<Uuid, User>, r: Request, moved: Request, u: Uuid, other: string)
    requires u !in users && ByEmail(users, r.norm).None? && moved.norm != r.norm
    requires BySubject(users, other).None? && r.subject != Some(other)
    ensures var d := users[u := NewUser(r)];
            && ByEmail(d, r.norm).Some?
            && ByEmail(UsersAfter(d, moved, u), r.norm).None?
            && BySubject(UsersAfter(d, moved, u), other).None?
  {
    assert users[u := NewUser(r)][u].norm == r.norm;
  }

  lemma InsertStopped(db: Tables, c: Call, x: Uuid)
    requires c.pc.InsertUser? && ByEmail(db.users, c.req.norm).Some?
    ensures Advance(db, c, x) == c.(pc := RereadEmail)
  {
  }

  lemma RereadFindsNothing(db: Tables, c: Call, x: Uuid)
    requires c.pc.RereadEmail? && ByEmail(db.users, c.req.norm).None?
    ensures Advance(db, c, x).pc == Failed(BindingRequired)
  {
  }

  lemma RunToInsert(db: Tables, a: Args, spare: Uuid) returns (t: State)
    requires Valid(db) && OpensAccount(db, a) && Fresh(db, Ids(spare, spare, spare))
    ensures Leads(State(db, map[]), t) && t == State(db, map[0 := NewCall(a).(pc := InsertUser)])
  {
    t := RunToLookup(db, a, 0, spare);
    t := OneStep(State(db, map[]), t, 0, spare);
  }

  /** A call about to insert finds its address taken by the account that another call opens first. */
  lemma InsertGoesSecond(s0: State, s: State, b: Args, ids: Ids, spare: Uuid, x: Uuid) returns (t: State)
    requires Leads(s0, s) && s.calls.Keys == {0} && s.calls[0].pc.InsertUser? && Idle(s.calls[0])
    requires AllNew(s.db, ids, spare) && Decide(s.db, b, ids).Accepted? && Fresh(After(s.db, b, ids), Ids(x, x, x))
    requires ByEmail(After(s.db, b, ids).users, s.calls[0].req.norm).Some?
    ensures Leads(s0, t) && t.db == After(s.db, b, ids) && t.calls.Keys == {0, 1}
    ensures t.calls[0] == s.calls[0].(pc := RereadEmail) && t.calls[1].pc.Done? && Idle(t.calls[1])
  {
    t := SoloRun(s0, s, 1, b, ids, spare);
    InsertStopped(t.db, t.calls[0], x);
    t := OneStep(s0, t, 0, x);
  }

  /** Once its row has moved on, the address is free for the first subject. */
  lemma MovedOn(db: Tables, a: Args, b: Args, m: Args, ids: Ids, ids2: Ids)
    requires Valid(db) && OpensAccount(db, a) && OpensAccount(db, b) && Fresh(db, ids)
    requires Parse(a).req.norm == Parse(b).req.norm && Parse(a).req.subject != Parse(b).req.subject
    requires Parse(m).Good? && Parse(m).req.norm != Parse(b).req.norm
    requires Decide(After(db, b, ids), m, ids2) == Accepted(ids.user, ids.tenant, ids.member, false)
    ensures ByEmail(After(db, b, ids).users, Parse(a).req.norm).Some?
    ensures OpensAccount(After(After(db, b, ids), m, ids2), a)
  {
    NewAccount(db, b, ids);
    VacatedUsers(db.users, Parse(b).req, Parse(m).req, ids.user, Parse(a).req.subject.value);
  }

  /** A call is about to read its address again; the row that stopped it moves on, and it reads. */
  lemma VacatedIsRefused(s0: State, s: State, m: Args, ids: Ids, spare: Uuid) returns (t: State)
    requires Leads(s0, s) && s.calls.Keys == {0, 1} && s.calls[0].pc.RereadEmail?
    requires Idle(s.calls[0]) && Idle(s.calls[1]) && AllNew(s.db, ids, spare)
    requires Decide(s.db, m, ids).Accepted? && ByEmail(After(s.db, m, ids).users, s.calls[0].req.norm).None?
    ensures Leads(s0, t) && t.db == After(s.db, m, ids) && t.calls.Keys == {0, 1, 2}
    ensures t.calls[0].pc == Failed(BindingRequired) && t.calls[1] == s.calls[1] && t.calls[2].pc.Done?
  {
    SpareStaysNew(s.db, m, ids, spare);
    t := SoloRun(s0, s, 2, m, ids, spare);
    RereadFindsNothing(t.db, t.calls[0], spare);
    t := OneStep(s0, t, 0, spare);
  }

  /** On every database on which `a` and `b` would open accounts of two subjects under one address, and
      the subject of `b` may move on to the free address of `m`, there is a run in which the call of `a` is
      told "subject binding required" although no row at all carries its address; asked again it would be
      accepted. */
  lemma SpuriousBindingRequired(db: Tables, a: Args, b: Args, m: Args, ids: Ids, spare: Uuid, ids2: Ids, spare2: Uuid)
    returns (t: State)
    requires Valid(db) && OpensAccount(db, a) && OpensAccount(db, b) && AllNew(db, ids, spare)
    requires AllNew(After(db, b, ids), ids2, spare2)
    requires Parse(a).req.norm == Parse(b).req.norm && Parse(a).req.subject != Parse(b).req.subject
    requires Parse(m).Good? && Parse(m).req.subject == Parse(b).req.subject
    requires Parse(m).req.norm != Parse(b).req.norm
    requires SignupAllowed(db.allow, Parse(m).req.norm) && ByEmail(db.users, Parse(m).req.norm).None?
    ensures Leads(State(db, map[]), t) && t.calls.Keys == {0, 1, 2}
    ensures t.calls[0].pc == Failed(BindingRequired) && t.calls[1].pc.Done? && t.calls[2].pc.Done?
    ensures ByEmail(t.db.users, Parse(a).req.norm).None? && Decide(t.db, a, ids2).Accepted?
  {
    NewAccount(db, b, ids);
    MoveOfNewAccount(db, b, m, ids, ids2);
    MovedOn(db, a, b, m, ids, ids2);
    OpensIsAccepted(After(After(db, b, ids), m, ids2), a, ids2);
    t := RunToInsert(db, a, spare);
    t := InsertGoesSecond(State(db, map[]), t, b, ids, spare, spare2);
    t := VacatedIsRefused(State(db, map[]), t, m, ids2, spare2);
  }

  // ---- A duplicate key -----------------------------------------------------------------------

  lemma InsertDuplicates(db: Tables, c: Call, x: Uuid)
    requires c.pc.InsertUser? && ByEmail(db.users, c.req.norm).None? && SubjectRow(db.users, c.req.subject).Some?
    ensures Advance(db, c, x).pc == Failed(UniqueViolation)
  {
  }

  /** A call about to insert is beaten to its subject by a call of the same subject under another address. */
  lemma SubjectGoesFirst(s0: State, s: State, b: Args, ids: Ids, spare: Uuid) returns (t: State)
    requires Leads(s0, s) && s.calls.Keys == {0} && s.calls[0].pc.InsertUser? && Idle(s.calls[0])
    requires AllNew(s.db, ids, spare) && Decide(s.db, b, ids).Accepted?
    requires ByEmail(After(s.db, b, ids).users, s.calls[0].req.norm).None?
    requires SubjectRow(After(s.db, b, ids).users, s.calls[0].req.subject).Some?
    ensures Leads(s0, t) && t.db == After(s.db, b, ids) && t.calls.Keys == {0, 1}
    ensures t.calls[0].pc == Failed(UniqueViolation)
    ensures t.calls[1].pc.Done? && t.calls[1].Result() == Decide(s.db, b, ids)
  {
    SpareStaysNew(s.db, b, ids, spare);
    t := SoloRun(s0, s, 1, b, ids, spare);
    InsertDuplicates(t.db, t.calls[0], spare);
    t := OneStep(s0, t, 0, spare);
  }

  /** On every database on which two requests of one subject under two addresses would each open an
      account, there is a run in which one opens it and the other ends in 23505, as a duplicate on the
      subject that its insert does not arbitrate. */
  lemma InsertRacesToDuplicate(db: Tables, a: Args, b: Args, ids: Ids, spare: Uuid) returns (t: State)
    requires Valid(db) && OpensAccount(db, a) && OpensAccount(db, b) && AllNew(db, ids, spare)
    requires Parse(a).req.subject == Parse(b).req.subject && Parse(a).req.norm != Parse(b).req.norm
    ensures Leads(State(db, map[]), t) && t.calls.Keys == {0, 1}
    ensures t.calls[0].pc == Failed(UniqueViolation)
    ensures t.calls[1].pc.Done? && t.calls[1].Result() == Accepted(ids.user, ids.tenant, ids.member, true)
  {
    NewAccount(db, b, ids);
    assert After(db, b, ids).users[ids.user].subject == Parse(a).req.subject;
    t := RunToInsert(db, a, spare);
    t := SubjectGoesFirst(State(db, map[]), t, b, ids, spare);
  }

  /** The request of `a` would move the row `u` of its subject to a free address. */
  ghost predicate MovesAddress(db: Tables, a: Args, u: Uuid)
  {
    && Parse(a).Good? && SignupAllowed(db.allow, Parse(a).req.norm)
    && SubjectRow(db.users, Parse(a).req.subject) == Some(u)
    && db.users[u].norm != Parse(a).req.norm && ByEmail(db.users, Parse(a).req.norm).None?
  }

  lemma RunToMove(db: Tables, a: Args, u: Uuid, spare: Uuid) returns (t: State)
    requires Valid(db) && MovesAddress(db, a, u) && Fresh(db, Ids(spare, spare, spare))
    ensures Leads(State(db, map[]), t)
    ensures t == State(db, map[0 := NewCall(a).(pc := MoveEmail, user := u, status := db.users[u].active,
                                               lockUser := Some(u))])
  {
    var s := Starts(db);
    t := LeadsOn(s, s, Begin(0, a));
    t := OneStep(s, t, 0, spare);
    assert t == State(db, map[0 := NewCall(a).(pc := FindSubject)]);
    t := OneStep(s, t, 0, spare);
    var found := NewCall(a).(pc := TestEmail, user := u, status := db.users[u].active, lockUser := Some(u));
    assert t == State(db, map[0 := found]);
    t := OneStep(s, t, 0, spare);
  }

  lemma MoveDuplicates(db: Tables, c: Call, x: Uuid)
    requires c.pc.MoveEmail? && TakenByAnother(db.users, c.req.norm, c.user)
    ensures Advance(db, c, x).pc == Failed(UniqueViolation)
  {
  }

  /** A call about to move its address is beaten to it by an administrator. */
  lemma AdministratorGoesFirst(s0: State, s: State, added: Uuid, spare: Uuid) returns (t: State)
    requires Leads(s0, s) && s.calls.Keys == {0} && s.calls[0].pc.MoveEmail? && s.calls[0].wroteUser.None?
    requires Normalize(s.calls[0].req.norm) == s.calls[0].req.norm && ByEmail(s.db.users, s.calls[0].req.norm).None?
    requires NewId(s, added) && NewId(s, spare) && added != spare && s.calls[0].user != added
    ensures Leads(s0, t) && t.calls.Keys == {0} && t.calls[0].pc == Failed(UniqueViolation)
  {
    t := LeadsOn(s0, s, AddUser(added, s.calls[0].req.norm));
    assert t.db.users[added].norm == s.calls[0].req.norm;
    MoveDuplicates(t.db, t.calls[0], spare);
    t := OneStep(s0, t, 0, spare);
  }

  /** On every database on which a known subject would move to a free address, there is a run in which an
      administrator adds an account under that address after the call has tested it, and the move ends in
      23505. */
  lemma MoveRacesToDuplicate(db: Tables, a: Args, u: Uuid, added: Uuid, spare: Uuid) returns (t: State)
    requires Valid(db) && MovesAddress(db, a, u) && added != spare
    requires Fresh(db, Ids(added, added, added)) && Fresh(db, Ids(spare, spare, spare))
    ensures Leads(State(db, map[]), t) && t.calls.Keys == {0} && t.calls[0].pc == Failed(UniqueViolation)
  {
    ParsedNorm(a);
    t := RunToMove(db, a, u, spare);
    t := AdministratorGoesFirst(State(db, map[]), t, added, spare);
  }

  // ---- A withdrawal that comes too late ----------------------------------------------------

  /** Every accepted call has a run that brings it to its commit. */
  lemma RunToBrink(db: Tables, a: Args, ids: Ids, spare: Uuid) returns (t: State)
    requires Valid(db) && AllNew(db, ids, spare) && Decide(db, a, ids).Accepted?
    ensures Leads(State(db, map[]), t) && t.db == db && 0 in t.calls && t.calls[0].pc.Commit? && NewId(t, spare)
    ensures t.calls[0].req == Parse(a).req && t.calls[0].Result() == Decide(db, a, ids)
  {
    var s := Starts(db);
    t := LeadsOn(s, s, Begin(0, a));
    BeginIsSolo(s, 0, a, ids, spare);
    t := RunToCommit(s, t, 0, ids, spare);
    SoloCommit(t, 0, ids, spare);
  }

  /** On every database on which a call is accepted there is a run that commits this call, with this
      answer, after its address was taken off the allowlist: a reached state with the call at its commit,
      then the withdrawal, then the commit. */
  lemma LateWithdrawal(db: Tables, a: Args, ids: Ids, spare: Uuid) returns (brink: State, t: State)
    requires Valid(db) && GeneratedColumns(db.users) && AllNew(db, ids, spare) && Decide(db, a, ids).Accepted?
    ensures Leads(State(db, map[]), brink) && 0 in brink.calls && brink.calls[0].pc.Commit?
    ensures brink.calls[0].Result() == Decide(db, a, ids)
    ensures t == Apply(Apply(brink, Disallow(Parse(a).req.norm)), Step(0, spare)) && Leads(State(db, map[]), t)
    ensures 0 in t.calls && t.calls[0].pc.Done? && !SignupAllowed(t.db.allow, Parse(a).req.norm)
    ensures var u := brink.calls[0].user; u in t.db.users && t.db.users[u].norm == Parse(a).req.norm
  {
    var s := State(db, map[]);
    brink := RunToBrink(db, a, ids, spare);
    var states, actions :| Run(states, actions) && states[0] == s && states[|actions|] == brink;
    RevocationRace(states, actions, |actions|, 0, spare);
    t := LeadsOn(s, brink, Disallow(Parse(a).req.norm));
    t := LeadsOn(s, t, Step(0, spare));
  }
}
