/** The invariant of the interleaved runs. It speaks of one call against the committed tables
    (`CallOk`) and of two calls against each other (`PairOk`), so that each step is checked
    against one other call at a time. */
module ConcurrencyInvariant {
  import opened Text
  import opened Directory
  import opened Provisioning
  import opened ProvisioningLaws
  import opened Concurrency

  /** Holds no lock and has written nothing. */
  predicate Idle(c: Call)
  {
    c == c.Release(c.pc)
  }

  predicate NoTenantYet(c: Call)
  {
    c.lockTenant == None && c.wroteTenant == None
  }

  predicate NoMemberYet(c: Call)
  {
    c.lockMember == None && c.wroteMember == None
  }

  /** The subject's row is locked and its address is about to be moved. */
  ghost predicate UserFound(db: Tables, c: Call)
  {
    && c.lockUser == Some(c.user) && c.wroteUser == None
    && c.req.subject.Some?
    && c.user in db.users && db.users[c.user].subject == c.req.subject
    && db.users[c.user].active == c.status
  }

  /** The user row is settled: locked, the subject's, active, under the presented address, and no
      committed row competes for either key. */
  ghost predicate UserHeld(db: Tables, c: Call)
  {
    && c.lockUser == Some(c.user)
    && c.req.subject.Some?
    && LegalUser(db.users, c.req, c.user)
    && match c.wroteUser
       case None => c.user in db.users && db.users[c.user].norm == c.req.norm
       case Some(row) =>
         if c.user in db.users
         then db.users[c.user].norm != c.req.norm
              && row == db.users[c.user].(email := c.req.email, norm := c.req.norm)
         else row == NewUser(c.req)
  }

  ghost predicate TenantHeld(db: Tables, c: Call)
  {
    && c.lockTenant == Some(c.tenant)
    && match c.wroteTenant
       case None => !c.created && c.tenant in db.tenants && IsPersonal(db.tenants[c.tenant], c.user)
       case Some(row) =>
         && c.created && row == Tenant(c.req.name, Personal, c.user, true)
         && c.tenant !in db.tenants
         && forall t :: t in db.tenants ==> !IsPersonal(db.tenants[t], c.user)
  }

  ghost predicate MemberHeld(db: Tables, c: Call)
  {
    && c.lockMember == Some(c.member)
    && match c.wroteMember
       case None => c.member in db.members && Links(db.members[c.member], c.user, c.tenant)
       case Some(row) =>
         && row == Membership(c.user, c.tenant, Owner, true)
         && c.member !in db.members
         && forall m :: m in db.members ==> !Links(db.members[m], c.user, c.tenant)
  }

  predicate TenantActive(db: Tables, c: Call)
  {
    c.tenant in db.tenants ==> db.tenants[c.tenant].active
  }

  predicate MemberActive(db: Tables, c: Call)
  {
    c.member in db.members ==> db.members[c.member].active
  }

  /** The triple a finished call returned is committed and belongs together under its subject. */
  ghost predicate Settled(db: Tables, c: Call)
  {
    && c.req.subject.Some?
    && c.user in db.users && db.users[c.user].subject == c.req.subject
    && c.tenant in db.tenants && IsPersonal(db.tenants[c.tenant], c.user)
    && c.member in db.members && Links(db.members[c.member], c.user, c.tenant)
  }

  ghost predicate CallOk(db: Tables, c: Call)
  {
    match c.pc
    case CheckAllowed => Idle(c) && c.req.subject.Some?
    case FindSubject => Idle(c) && c.req.subject.Some?
    case FindEmail => Idle(c) && c.req.subject.Some?
    case InsertUser => Idle(c) && c.req.subject.Some?
    case RereadEmail => Idle(c) && c.req.subject.Some?
    case TestEmail => UserFound(db, c) && NoTenantYet(c) && NoMemberYet(c) && db.users[c.user].norm != c.req.norm
    case MoveEmail => UserFound(db, c) && NoTenantYet(c) && NoMemberYet(c) && db.users[c.user].norm != c.req.norm
    case UpsertTenant => UserHeld(db, c) && NoTenantYet(c) && NoMemberYet(c)
    case TestTenant => UserHeld(db, c) && TenantHeld(db, c) && NoMemberYet(c)
    case UpsertMember => UserHeld(db, c) && TenantHeld(db, c) && TenantActive(db, c) && NoMemberYet(c)
    case TestMember => UserHeld(db, c) && TenantHeld(db, c) && TenantActive(db, c) && MemberHeld(db, c)
    case Commit =>
      && UserHeld(db, c) && TenantHeld(db, c) && TenantActive(db, c)
      && MemberHeld(db, c) && MemberActive(db, c)
    case Done => Idle(c) && Settled(db, c)
    case Failed(_) => Idle(c)
  }

  ghost predicate PairOk(c: Call, d: Call)
  {
    && (c.lockUser.Some? ==> c.lockUser != d.lockUser)
    && (c.lockTenant.Some? ==> c.lockTenant != d.lockTenant)
    && (c.lockMember.Some? ==> c.lockMember != d.lockMember)
    && (c.wroteUser.Some? && d.wroteUser.Some? ==>
          c.wroteUser.value.norm != d.wroteUser.value.norm
          && c.wroteUser.value.subject != d.wroteUser.value.subject)
    && (c.pc.Done? && d.pc.Done? && c.created && d.created ==> c.tenant != d.tenant)
  }

  ghost predicate Inv(s: State)
  {
    && Valid(s.db)
    && (forall i :: i in s.calls ==> CallOk(s.db, s.calls[i]))
    && (forall i, j :: i in s.calls && j in s.calls && i != j ==> PairOk(s.calls[i], s.calls[j]))
  }

  // ---- One statement of a call ---------------------------------------------------

  lemma FindSubjectKeepsCall(db: Tables, c: Call)
    requires Valid(db) && CallOk(db, c) && c.pc.FindSubject?
    ensures CallOk(db, FindSubjectStep(db, c))
  {
  }

  lemma MoveEmailKeepsCall(db: Tables, c: Call)
    requires Valid(db) && CallOk(db, c) && c.pc.MoveEmail?
    ensures CallOk(db, MoveEmailStep(db, c))
  {
  }

  lemma FindEmailKeepsCall(db: Tables, c: Call)
    requires Valid(db) && CallOk(db, c) && c.pc.FindEmail?
    ensures CallOk(db, FindEmailStep(db, c))
  {
  }

  lemma InsertUserKeepsCall(db: Tables, c: Call, x: Uuid)
    requires Valid(db) && CallOk(db, c) && c.pc.InsertUser? && x !in db.users
    ensures CallOk(db, InsertUserStep(db, c, x))
  {
  }

  lemma RereadEmailKeepsCall(db: Tables, c: Call)
    requires Valid(db) && CallOk(db, c) && c.pc.RereadEmail?
    ensures CallOk(db, RereadEmailStep(db, c))
  {
  }

  lemma UpsertTenantKeepsCall(db: Tables, c: Call, x: Uuid)
    requires Valid(db) && CallOk(db, c) && c.pc.UpsertTenant? && x !in db.tenants
    ensures CallOk(db, UpsertTenantStep(db, c, x))
  {
  }

  lemma UpsertMemberKeepsCall(db: Tables, c: Call, x: Uuid)
    requires Valid(db) && CallOk(db, c) && c.pc.UpsertMember? && x !in db.members
    ensures CallOk(db, UpsertMemberStep(db, c, x))
  {
  }

  // The steps that only read.

  lemma CheckAllowedKeepsCall(db: Tables, c: Call)
    requires Valid(db) && CallOk(db, c) && c.pc.CheckAllowed?
    ensures CallOk(db, CheckAllowedStep(db, c))
    ensures forall d :: PairOk(c, d) ==> PairOk(CheckAllowedStep(db, c), d)
  {
  }

  lemma TestEmailKeepsCall(db: Tables, c: Call)
    requires Valid(db) && CallOk(db, c) && c.pc.TestEmail?
    ensures CallOk(db, TestEmailStep(db, c))
    ensures forall d :: PairOk(c, d) ==> PairOk(TestEmailStep(db, c), d)
  {
  }

  lemma TestTenantKeepsCall(db: Tables, c: Call)
    requires Valid(db) && CallOk(db, c) && c.pc.TestTenant?
    ensures CallOk(db, TestTenantStep(db, c))
    ensures forall d :: PairOk(c, d) ==> PairOk(TestTenantStep(db, c), d)
  {
  }

  lemma TestMemberKeepsCall(db: Tables, c: Call)
    requires Valid(db) && CallOk(db, c) && c.pc.TestMember?
    ensures CallOk(db, TestMemberStep(db, c))
    ensures forall d :: PairOk(c, d) ==> PairOk(TestMemberStep(db, c), d)
  {
  }

  lemma AdvanceKeepsCall(db: Tables, c: Call, x: Uuid)
    requires Valid(db) && CallOk(db, c) && c.InFlight() && !c.pc.Commit?
    requires x !in db.users && x !in db.tenants && x !in db.members
    ensures CallOk(db, Advance(db, c, x))
  {
    match c.pc
    case FindSubject => FindSubjectKeepsCall(db, c);
    case MoveEmail => MoveEmailKeepsCall(db, c);
    case FindEmail => FindEmailKeepsCall(db, c);
    case InsertUser => InsertUserKeepsCall(db, c, x);
    case RereadEmail => RereadEmailKeepsCall(db, c);
    case UpsertTenant => UpsertTenantKeepsCall(db, c, x);
    case UpsertMember => UpsertMemberKeepsCall(db, c, x);
    case CheckAllowed => CheckAllowedKeepsCall(db, c);
    case TestEmail => TestEmailKeepsCall(db, c);
    case TestTenant => TestTenantKeepsCall(db, c);
    case TestMember => TestMemberKeepsCall(db, c);
  }

  // What `c` locks or writes now is no business of `d`, for which it did not have to wait.

  lemma FindSubjectKeepsPair(db: Tables, c: Call, d: Call)
    requires CallOk(db, c) && c.pc.FindSubject? && PairOk(c, d) && !Blocks(db, c, d)
    ensures PairOk(FindSubjectStep(db, c), d)
  {
  }

  lemma RereadEmailKeepsPair(db: Tables, c: Call, d: Call)
    requires CallOk(db, c) && c.pc.RereadEmail? && PairOk(c, d) && !Blocks(db, c, d)
    ensures PairOk(RereadEmailStep(db, c), d)
  {
  }

  /** An uncommitted row of another call never carries the subject of a committed row it is not. */
  lemma WrittenSubjectDiffers(db: Tables, d: Call, u: Uuid)
    requires Valid(db) && CallOk(db, d) && d.wroteUser.Some?
    requires u in db.users && u != d.user && db.users[u].subject.Some?
    ensures d.wroteUser.value.subject != db.users[u].subject
    ensures d.lockUser == Some(d.user)
  {
  }

  lemma MoveEmailKeepsPair(db: Tables, c: Call, d: Call)
    requires Valid(db) && CallOk(db, c) && CallOk(db, d) && c.pc.MoveEmail?
    requires PairOk(c, d) && !Blocks(db, c, d)
    ensures PairOk(MoveEmailStep(db, c), d)
  {
    if d.wroteUser.Some? {
      assert d.lockUser == Some(d.user);
      WrittenSubjectDiffers(db, d, c.user);
    }
  }

  lemma InsertUserKeepsPair(db: Tables, c: Call, d: Call, x: Uuid)
    requires CallOk(db, c) && c.pc.InsertUser? && PairOk(c, d) && !Blocks(db, c, d) && Untouched(d, x)
    ensures PairOk(InsertUserStep(db, c, x), d)
  {
  }

  lemma UpsertTenantKeepsPair(db: Tables, c: Call, d: Call, x: Uuid)
    requires CallOk(db, c) && c.pc.UpsertTenant? && PairOk(c, d) && !Blocks(db, c, d) && Untouched(d, x)
    ensures PairOk(UpsertTenantStep(db, c, x), d)
  {
  }

  lemma UpsertMemberKeepsPair(db: Tables, c: Call, d: Call, x: Uuid)
    requires CallOk(db, c) && c.pc.UpsertMember? && PairOk(c, d) && !Blocks(db, c, d) && Untouched(d, x)
    ensures PairOk(UpsertMemberStep(db, c, x), d)
  {
  }

  lemma FindEmailKeepsPair(db: Tables, c: Call, d: Call)
    requires CallOk(db, c) && c.pc.FindEmail? && PairOk(c, d)
    ensures PairOk(FindEmailStep(db, c), d)
  {
  }

  lemma AdvanceKeepsPair(db: Tables, c: Call, d: Call, x: Uuid)
    requires Valid(db) && CallOk(db, c) && CallOk(db, d) && PairOk(c, d)
    requires c.InFlight() && !c.pc.Commit? && !Blocks(db, c, d) && Untouched(d, x)
    ensures PairOk(Advance(db, c, x), d)
  {
    match c.pc
    case FindSubject => FindSubjectKeepsPair(db, c, d);
    case MoveEmail => MoveEmailKeepsPair(db, c, d);
    case InsertUser => InsertUserKeepsPair(db, c, d, x);
    case RereadEmail => RereadEmailKeepsPair(db, c, d);
    case UpsertTenant => UpsertTenantKeepsPair(db, c, d, x);
    case UpsertMember => UpsertMemberKeepsPair(db, c, d, x);
    case CheckAllowed => CheckAllowedKeepsCall(db, c);
    case TestEmail => TestEmailKeepsCall(db, c);
    case TestTenant => TestTenantKeepsCall(db, c);
    case TestMember => TestMemberKeepsCall(db, c);
    case FindEmail => FindEmailKeepsPair(db, c, d);
  }

  // ---- The commit ------------------------------------------------------------------

  /** At its commit a call holds a legal outcome, and what it writes is exactly what the decision
      table writes for that outcome on the tables committed at that instant. */
  lemma CommitIsLegal(db: Tables, c: Call)
    requires Valid(db) && CallOk(db, c) && c.pc.Commit?
    ensures Legal(db, c.req, c.Result())
    ensures See(db, c) == Post(db, c.req, c.Result())
  {
  }

  lemma CommitKeepsSelf(db: Tables, c: Call)
    requires Valid(db) && CallOk(db, c) && c.pc.Commit?
    ensures Valid(See(db, c)) && CallOk(See(db, c), c.Release(Done))
    ensures Granted(See(db, c), c.req.subject, c.Result())
  {
    CommitIsLegal(db, c);
    LegalKeepsValid(db, c.req, c.Result());
  }

  lemma CommitKeepsUserHeld(db: Tables, c: Call, d: Call)
    requires Valid(db) && CallOk(db, c) && c.pc.Commit? && UserHeld(db, d) && PairOk(c, d)
    ensures UserHeld(See(db, c), d)
  {
    if d.wroteUser.None? && c.wroteUser.Some? {
      assert LegalUser(db.users, c.req, c.user);
    }
  }

  lemma CommitKeepsTenantHeld(db: Tables, c: Call, d: Call)
    requires Valid(db) && CallOk(db, c) && c.pc.Commit? && PairOk(c, d)
    requires d.lockUser == Some(d.user) && TenantHeld(db, d)
    ensures TenantHeld(See(db, c), d)
    ensures TenantActive(db, d) ==> TenantActive(See(db, c), d)
  {
  }

  lemma CommitKeepsMemberHeld(db: Tables, c: Call, d: Call)
    requires Valid(db) && CallOk(db, c) && c.pc.Commit? && PairOk(c, d)
    requires d.lockUser == Some(d.user) && MemberHeld(db, d)
    ensures MemberHeld(See(db, c), d)
    ensures MemberActive(db, d) ==> MemberActive(See(db, c), d)
  {
  }

  lemma CommitKeepsEarly(db: Tables, c: Call, d: Call)
    requires Valid(db) && CallOk(db, c) && c.pc.Commit? && CallOk(db, d) && PairOk(c, d)
    requires d.pc !in {UpsertTenant, TestTenant, UpsertMember, TestMember, Commit}
    ensures CallOk(See(db, c), d)
  {
  }

  lemma CommitKeepsOther(db: Tables, c: Call, d: Call)
    requires Valid(db) && CallOk(db, c) && c.pc.Commit? && CallOk(db, d) && PairOk(c, d)
    ensures CallOk(See(db, c), d)
  {
    if d.pc !in {UpsertTenant, TestTenant, UpsertMember, TestMember, Commit} {
      CommitKeepsEarly(db, c, d);
    } else {
      CommitKeepsUserHeld(db, c, d);
      if d.pc != UpsertTenant {
        CommitKeepsTenantHeld(db, c, d);
        if d.pc in {TestMember, Commit} {
          CommitKeepsMemberHeld(db, c, d);
        }
      }
    }
  }

  /** The row a call created was in nobody's committed tables before, so no other call can have
      reported it as created. */
  lemma CommitKeepsPair(db: Tables, c: Call, d: Call)
    requires CallOk(db, c) && c.pc.Commit? && CallOk(db, d)
    ensures PairOk(c.Release(Done), d)
  {
  }

  // ---- The steps around provisioning: each against one call ------------------------

  lemma AllowKeepsCall(db: Tables, c: Call, allow: set<string>)
    requires CallOk(db, c)
    ensures CallOk(db.(allow := allow), c)
  {
  }

  lemma SetUserKeepsCall(db: Tables, c: Call, u: Uuid, b: bool)
    requires CallOk(db, c) && u in db.users && c.lockUser != Some(u)
    ensures CallOk(EnvPost(db, SetUser(u, b)), c)
  {
  }

  lemma SetTenantKeepsCall(db: Tables, c: Call, t: Uuid, b: bool)
    requires CallOk(db, c) && t in db.tenants && c.lockTenant != Some(t)
    ensures CallOk(EnvPost(db, SetTenant(t, b)), c)
  {
  }

  lemma SetMemberKeepsCall(db: Tables, c: Call, m: Uuid, b: bool)
    requires CallOk(db, c) && m in db.members && c.lockMember != Some(m)
    ensures CallOk(EnvPost(db, SetMember(m, b)), c)
  {
  }

  lemma AddUserKeepsCall(db: Tables, c: Call, u: Uuid, e: string)
    requires CallOk(db, c) && u !in db.users && Untouched(c, u)
             && !HoldsEmail(db, c, Normalize(e)) && ByEmail(db.users, Normalize(e)).None?
    ensures CallOk(EnvPost(db, AddUser(u, e)), c)
  {
  }

  lemma AddTeamKeepsCall(db: Tables, c: Call, t: Uuid, owner: Uuid, name: string)
    requires CallOk(db, c) && t !in db.tenants && Untouched(c, t)
    ensures CallOk(EnvPost(db, AddTeam(t, owner, name)), c)
  {
  }

  lemma AddMemberKeepsCall(db: Tables, c: Call, m: Uuid, u: Uuid, t: Uuid, role: Role)
    requires CallOk(db, c) && m !in db.members && Untouched(c, m)
             && (c.wroteMember.Some? ==> !Links(c.wroteMember.value, u, t))
    ensures CallOk(EnvPost(db, AddMember(m, u, t, role)), c)
  {
  }

  lemma RenameKeepsCall(db: Tables, c: Call, t: Uuid, name: string)
    requires CallOk(db, c) && t in db.tenants && c.lockTenant != Some(t)
    ensures CallOk(EnvPost(db, Rename(t, name)), c)
  {
  }

  /** Giving the unbound row `u` a subject that no uncommitted row carries. */
  lemma BindKeepsCall(db: Tables, c: Call, u: Uuid, x: string)
    requires CallOk(db, c) && u in db.users && db.users[u].subject == None
    requires c.lockUser != Some(u) && !HoldsSubject(c, Some(x)) && BySubject(db.users, x).None?
    ensures CallOk(db.(users := db.users[u := db.users[u].(subject := Some(x))]), c)
  {
  }

  ghost predicate IsEnv(a: Action)
  {
    !a.Begin? && !a.Step? && !a.Crash?
  }

  lemma UserEnvKeepsValid(s: State, a: Action)
    requires Valid(s.db) && Enabled(s, a) && (a.SetUser? || a.AddUser?)
    ensures Valid(EnvPost(s.db, a))
  {
  }

  lemma TenantEnvKeepsValid(s: State, a: Action)
    requires Valid(s.db) && Enabled(s, a) && (a.SetTenant? || a.AddTeam? || a.Rename?)
    ensures Valid(EnvPost(s.db, a))
  {
  }

  lemma SetMemberKeepsValid(s: State, m: Uuid, b: bool)
    requires Valid(s.db) && Enabled(s, SetMember(m, b))
    ensures Valid(EnvPost(s.db, SetMember(m, b)))
  {
  }

  lemma AddMemberKeepsValid(s: State, m: Uuid, u: Uuid, t: Uuid, role: Role)
    requires Valid(s.db) && Enabled(s, AddMember(m, u, t, role))
    ensures Valid(EnvPost(s.db, AddMember(m, u, t, role)))
  {
  }

  lemma EnvKeepsValid(s: State, a: Action)
    requires Valid(s.db) && Enabled(s, a) && IsEnv(a)
    ensures Valid(EnvPost(s.db, a))
  {
    if a.SetUser? || a.AddUser? {
      UserEnvKeepsValid(s, a);
    } else if a.SetTenant? || a.AddTeam? || a.Rename? {
      TenantEnvKeepsValid(s, a);
    } else if a.SetMember? {
      SetMemberKeepsValid(s, a.member, a.active);
    } else if a.AddMember? {
      AddMemberKeepsValid(s, a.member, a.user, a.tenant, a.role);
    } else if a.Bind? {
      BindingKeepsValid(s.db, a.address, a.subject);
    }
  }

  lemma EnvKeepsCall(s: State, a: Action, i: CallId)
    requires Valid(s.db) && i in s.calls && CallOk(s.db, s.calls[i]) && Enabled(s, a) && IsEnv(a)
    ensures CallOk(EnvPost(s.db, a), s.calls[i])
  {
    var c := s.calls[i];
    match a
    case Allow(e) => AllowKeepsCall(s.db, c, s.db.allow + {Normalize(e)});
    case Disallow(e) => AllowKeepsCall(s.db, c, s.db.allow - {Normalize(e)});
    case SetUser(u, b) => SetUserKeepsCall(s.db, c, u, b);
    case SetTenant(t, b) => SetTenantKeepsCall(s.db, c, t, b);
    case SetMember(m, b) => SetMemberKeepsCall(s.db, c, m, b);
    case AddUser(u, e) => AddUserKeepsCall(s.db, c, u, e);
    case AddTeam(t, owner, name) => AddTeamKeepsCall(s.db, c, t, owner, name);
    case AddMember(m, u, t, role) => AddMemberKeepsCall(s.db, c, m, u, t, role);
    case Rename(t, name) => RenameKeepsCall(s.db, c, t, name);
    case Bind(e, x) =>
      var b := DecideBinding(s.db, e, x);
      if b.Bound? {
        BindKeepsCall(s.db, c, b.user, Trim(Btrim, x));
      }
  }

  // ---- Every action ------------------------------------------------------------------

  /** What one step of `i` means for itself and for another call. */
  lemma StepKeepsOne(s: State, i: CallId, x: Uuid, j: CallId)
    requires Inv(s) && Enabled(s, Step(i, x)) && j in s.calls && j != i
    ensures var s' := Apply(s, Step(i, x));
            CallOk(s'.db, s.calls[j]) && PairOk(s'.calls[i], s.calls[j]) && PairOk(s.calls[j], s'.calls[i])
  {
    var c, d := s.calls[i], s.calls[j];
    assert CallOk(s.db, c) && CallOk(s.db, d) && PairOk(c, d) && !WaitsFor(s, i, j);
    if c.pc.Commit? {
      CommitKeepsOther(s.db, c, d);
      CommitKeepsPair(s.db, c, d);
      PairSymmetric(c.Release(Done), d);
    } else {
      AdvanceKeepsPair(s.db, c, d, x);
      PairSymmetric(Advance(s.db, c, x), d);
    }
  }

  /** What one step of `i` means for itself and for the tables. */
  lemma StepKeepsSelf(s: State, i: CallId, x: Uuid)
    requires Inv(s) && Enabled(s, Step(i, x))
    ensures var s' := Apply(s, Step(i, x)); Valid(s'.db) && CallOk(s'.db, s'.calls[i])
  {
    if s.calls[i].pc.Commit? {
      CommitKeepsSelf(s.db, s.calls[i]);
    } else {
      AdvanceKeepsCall(s.db, s.calls[i], x);
    }
  }

  lemma StepKeepsInv(s: State, i: CallId, x: Uuid)
    requires Inv(s) && Enabled(s, Step(i, x))
    ensures Inv(Apply(s, Step(i, x)))
  {
    var s' := Apply(s, Step(i, x));
    StepKeepsSelf(s, i, x);
    forall j | j in s.calls && j != i
      ensures CallOk(s'.db, s'.calls[j]) && PairOk(s'.calls[i], s'.calls[j]) && PairOk(s'.calls[j], s'.calls[i])
    {
      StepKeepsOne(s, i, x, j);
    }
    assert forall j :: j in s'.calls && j != i ==> j in s.calls && s'.calls[j] == s.calls[j];
  }

  lemma PairSymmetric(c: Call, d: Call)
    requires PairOk(c, d)
    ensures PairOk(d, c)
  {
  }

  lemma BeginKeepsInv(s: State, i: CallId, args: Args)
    requires Inv(s) && i !in s.calls
    ensures Inv(Apply(s, Begin(i, args)))
  {
    var c := NewCall(args);
    assert CallOk(s.db, c);
    forall j | j in s.calls ensures PairOk(c, s.calls[j]) && PairOk(s.calls[j], c) {
    }
  }

  lemma CrashKeepsInv(s: State, i: CallId)
    requires Inv(s) && i in s.calls
    ensures Inv(Apply(s, Crash(i)))
  {
    var c := s.calls[i].Fail(Interrupted);
    forall j | j in s.calls && j != i ensures PairOk(c, s.calls[j]) && PairOk(s.calls[j], c) {
      assert PairOk(s.calls[j], s.calls[i]);
    }
  }

  lemma EnvKeepsInv(s: State, a: Action)
    requires Inv(s) && Enabled(s, a) && IsEnv(a)
    ensures Inv(s.(db := EnvPost(s.db, a)))
  {
    EnvKeepsValid(s, a);
    forall i | i in s.calls ensures CallOk(EnvPost(s.db, a), s.calls[i]) {
      EnvKeepsCall(s, a, i);
    }
  }

  lemma ApplyKeepsInv(s: State, a: Action)
    requires Inv(s) && Enabled(s, a)
    ensures Inv(Apply(s, a))
  {
    match a
    case Step(i, x) => StepKeepsInv(s, i, x);
    case Begin(i, args) => BeginKeepsInv(s, i, args);
    case Crash(i) => CrashKeepsInv(s, i);
    case _ => EnvKeepsInv(s, a);
  }

  lemma {:induction false} RunKeepsInv(states: seq<State>, actions: seq<Action>, k: nat)
    requires Run(states, actions) && k < |states|
    ensures Inv(states[k])
  {
    if k > 0 {
      RunKeepsInv(states, actions, k - 1);
      ApplyKeepsInv(states[k - 1], actions[k - 1]);
    }
  }
}
