/** Which refusals of an interleaved call are justified: the decision of the whole call on the tables of
    that instant is the same refusal. Two statements can refuse without that, and both only in a race. */
module ConcurrencyRefusals {
  import opened Text
  import opened Directory
  import opened Provisioning
  import opened ProvisioningLaws
  import opened Concurrency
  import opened ConcurrencyInvariant

  /** The action is a statement of a call that fails it with `why`. */
  ghost predicate Refuses(s: State, a: Action, why: Refusal)
  {
    && a.Step? && a.id in s.calls && s.calls[a.id].InFlight()
    && Advance(s.db, s.calls[a.id], a.newId).pc == Failed(why)
  }

  // ---- One refusing statement --------------------------------------------------------

  /** The first lookup by address may refuse only while the subject has no row; the second only over a
      row that is there, and that is the subject's own or leaves the subject without one. */
  ghost predicate Justified(users: map<Uuid, User>, c: Call)
  {
    match c.pc
    case FindEmail => SubjectRow(users, c.req.subject).None?
    case RereadEmail =>
      var row := ByEmail(users, c.req.norm);
      row.Some? && (users[row.value].subject == c.req.subject || SubjectRow(users, c.req.subject).None?)
    case _ => true
  }

  lemma FirstLookupIffJustified(db: Tables, c: Call, ids: Ids, why: Refusal)
    requires Valid(db) && c.req.subject.Some? && c.pc.FindEmail? && FindEmailStep(db, c).pc == Failed(why)
    ensures Verdict(db, c.req, ids) == Refused(why) <==> Justified(db.users, c)
  {
  }

  lemma SecondLookupIffJustified(db: Tables, c: Call, ids: Ids, why: Refusal)
    requires Valid(db) && c.req.subject.Some? && c.pc.RereadEmail? && RereadEmailStep(db, c).pc == Failed(why)
    ensures Verdict(db, c.req, ids) == Refused(why) <==> Justified(db.users, c)
  {
  }

  lemma UserRefusalIsJustified(db: Tables, c: Call, ids: Ids, why: Refusal)
    requires Valid(db) && CallOk(db, c) && why != UniqueViolation
    requires (c.pc.FindSubject? && FindSubjectStep(db, c).pc == Failed(why))
             || (c.pc.TestEmail? && TestEmailStep(db, c).pc == Failed(why))
             || (c.pc.MoveEmail? && MoveEmailStep(db, c).pc == Failed(why))
             || (c.pc.InsertUser? && InsertUserStep(db, c, 0).pc == Failed(why))
    ensures Verdict(db, c.req, ids) == Refused(why)
  {
  }

  lemma OwnedRefusalIsJustified(db: Tables, c: Call, ids: Ids, why: Refusal)
    requires Valid(db) && CallOk(db, c)
    requires (c.pc.TestTenant? && TestTenantStep(db, c).pc == Failed(why))
             || (c.pc.TestMember? && TestMemberStep(db, c).pc == Failed(why))
    ensures Verdict(db, c.req, ids) == Refused(why)
  {
    assert BySubject(db.users, c.req.subject.value) == Some(c.user);
    assert PersonalOf(db.tenants, c.user) == Some(c.tenant);
    if c.pc.TestMember? {
      assert LinkOf(db.members, c.user, c.tenant) == Some(c.member);
    }
  }

  /** A statement behind the allowlist check that refuses, other than with 23505, gives the refusal that
      the whole call would get on the same tables if and only if it is justified. */
  lemma RefusalIffJustified(db: Tables, c: Call, x: Uuid, ids: Ids, why: Refusal)
    requires Valid(db) && CallOk(db, c) && c.InFlight() && Advance(db, c, x).pc == Failed(why)
    requires why != NotAllowed && why != UniqueViolation
    ensures Verdict(db, c.req, ids) == Refused(why) <==> Justified(db.users, c)
  {
    if c.pc.FindEmail? {
      FirstLookupIffJustified(db, c, ids, why);
    } else if c.pc.RereadEmail? {
      SecondLookupIffJustified(db, c, ids, why);
    } else if c.pc.TestTenant? || c.pc.TestMember? {
      OwnedRefusalIsJustified(db, c, ids, why);
    } else {
      UserRefusalIsJustified(db, c, ids, why);
    }
  }

  lemma OnlyUserWritesViolate(db: Tables, c: Call, x: Uuid)
    requires CallOk(db, c) && Advance(db, c, x).pc == Failed(UniqueViolation) && c.InFlight()
    ensures c.pc.MoveEmail? || c.pc.InsertUser?
  {
  }

  /** 23505 is never the decision on the tables of that instant: it stands for an address that somebody
      else has taken since it was found free, or for a subject that has got its row since. */
  lemma UniqueViolationMeans(db: Tables, c: Call, x: Uuid, ids: Ids)
    requires Valid(db) && CallOk(db, c) && c.InFlight() && Advance(db, c, x).pc == Failed(UniqueViolation)
    ensures c.pc.MoveEmail? || c.pc.InsertUser?
    ensures c.pc.MoveEmail? ==> Verdict(db, c.req, ids) == Refused(EmailConflict)
    ensures c.pc.InsertUser? ==>
              && SubjectRow(db.users, c.req.subject).Some?
              && (Verdict(db, c.req, ids).Accepted? || Verdict(db, c.req, ids) == Refused(Disabled))
  {
    OnlyUserWritesViolate(db, c, x);
    if c.pc.MoveEmail? {
      MoveViolationMeans(db, c, ids);
    } else {
      InsertViolationMeans(db, c, x, ids);
    }
  }

  lemma MoveViolationMeans(db: Tables, c: Call, ids: Ids)
    requires Valid(db) && CallOk(db, c) && c.pc.MoveEmail? && MoveEmailStep(db, c).pc == Failed(UniqueViolation)
    ensures Verdict(db, c.req, ids) == Refused(EmailConflict)
  {
    assert BySubject(db.users, c.req.subject.value) == Some(c.user);
  }

  lemma InsertViolationMeans(db: Tables, c: Call, x: Uuid, ids: Ids)
    requires CallOk(db, c) && c.pc.InsertUser? && InsertUserStep(db, c, x).pc == Failed(UniqueViolation)
    ensures SubjectRow(db.users, c.req.subject).Some?
    ensures Verdict(db, c.req, ids).Accepted? || Verdict(db, c.req, ids) == Refused(Disabled)
  {
  }

  // ---- What happened before ------------------------------------------------------------

  /** A property that fails first and holds later was switched on by some action in between. */
  lemma {:induction false} Switch(p: seq<bool>, h: nat, k: nat) returns (n: nat)
    requires h <= k < |p| && !p[h] && p[k]
    ensures h <= n < k && !p[n] && p[n + 1]
    decreases k
  {
    if p[k - 1] {
      n := Switch(p, h, k - 1);
    } else {
      n := k - 1;
    }
  }

  /** The action is a statement of the call `i` that stands at `pc`, for the request `r`. */
  ghost predicate Executes(s: State, a: Action, i: CallId, pc: Pc, r: Request)
  {
    a.Step? && a.id == i && i in s.calls && s.calls[i].pc == pc && s.calls[i].req == r
  }

  /** On the way of a subject that was not found. */
  predicate Unfound(c: Call)
  {
    c.pc.FindEmail? || c.pc.InsertUser? || c.pc.RereadEmail?
  }

  lemma UnfoundStep(db: Tables, c: Call, x: Uuid)
    requires c.InFlight() && Unfound(Advance(db, c, x))
    ensures Advance(db, c, x).req == c.req
    ensures Unfound(c) || (c.pc.FindSubject? && SubjectRow(db.users, c.req.subject).None?)
  {
  }

  lemma UnfoundBefore(s: State, a: Action, i: CallId)
    requires Enabled(s, a) && i in Apply(s, a).calls && Unfound(Apply(s, a).calls[i])
    ensures i in s.calls && s.calls[i].req == Apply(s, a).calls[i].req
    ensures Unfound(s.calls[i])
            || (Executes(s, a, i, FindSubject, s.calls[i].req)
                && SubjectRow(s.db.users, s.calls[i].req.subject).None?)
  {
    if a.Step? && a.id == i {
      UnfoundStep(s.db, s.calls[i], a.newId);
    }
  }

  /** Such a call did find its subject without a row. */
  lemma {:induction false} SubjectWasAbsent(states: seq<State>, actions: seq<Action>, k: nat, i: CallId)
    returns (h: nat)
    requires Run(states, actions) && k < |states| && i in states[k].calls && Unfound(states[k].calls[i])
    ensures h < k && Executes(states[h], actions[h], i, FindSubject, states[k].calls[i].req)
    ensures SubjectRow(states[h].db.users, states[k].calls[i].req.subject).None?
  {
    assert k > 0;
    UnfoundBefore(states[k - 1], actions[k - 1], i);
    if Unfound(states[k - 1].calls[i]) {
      h := SubjectWasAbsent(states, actions, k - 1, i);
    } else {
      h := k - 1;
    }
  }

  lemma RereadStep(db: Tables, c: Call, x: Uuid)
    requires c.InFlight() && Advance(db, c, x).pc.RereadEmail?
    ensures Advance(db, c, x).req == c.req && c.pc.InsertUser? && ByEmail(db.users, c.req.norm).Some?
  {
  }

  lemma RereadBefore(s: State, a: Action, i: CallId)
    requires Enabled(s, a) && i in Apply(s, a).calls && Apply(s, a).calls[i].pc.RereadEmail?
    ensures i in s.calls && s.calls[i].req == Apply(s, a).calls[i].req
    ensures s.calls[i].pc.RereadEmail?
            || (Executes(s, a, i, InsertUser, s.calls[i].req)
                && ByEmail(s.db.users, s.calls[i].req.norm).Some?)
  {
    if a.Step? && a.id == i {
      RereadStep(s.db, s.calls[i], a.newId);
    }
  }

  /** A call that reads its address again found it taken when it inserted. */
  lemma {:induction false} EmailWasTaken(states: seq<State>, actions: seq<Action>, k: nat, i: CallId)
    returns (h: nat)
    requires Run(states, actions) && k < |states| && i in states[k].calls && states[k].calls[i].pc.RereadEmail?
    ensures h < k && Executes(states[h], actions[h], i, InsertUser, states[k].calls[i].req)
    ensures ByEmail(states[h].db.users, states[k].calls[i].req.norm).Some?
  {
    assert k > 0;
    RereadBefore(states[k - 1], actions[k - 1], i);
    if states[k - 1].calls[i].pc.RereadEmail? {
      h := EmailWasTaken(states, actions, k - 1, i);
    } else {
      h := k - 1;
    }
  }

  /** The action gives the subject its row: a call of the same subject commits, or the script binds it. */
  ghost predicate Registers(s: State, a: Action, subject: string)
  {
    || (Commits(s, a) && s.calls[a.id].req.subject == Some(subject))
    || (a.Bind? && DecideBinding(s.db, a.address, a.subject).Bound? && Trim(Btrim, a.subject) == subject)
  }

  lemma CommitChangesUsers(s: State, a: Action)
    requires Inv(s) && Commits(s, a)
    ensures var c := s.calls[a.id];
            Apply(s, a).db.users == UsersAfter(s.db.users, c.req, c.user) && LegalUser(s.db.users, c.req, c.user)
  {
    assert CallOk(s.db, s.calls[a.id]);
    CommitIsLegal(s.db, s.calls[a.id]);
  }

  lemma CommitRegisters(s: State, a: Action, subject: string)
    requires Inv(s) && Commits(s, a)
    requires BySubject(s.db.users, subject).None? && BySubject(Apply(s, a).db.users, subject).Some?
    ensures Registers(s, a, subject)
  {
    CommitChangesUsers(s, a);
  }

  lemma EnvRegisters(s: State, a: Action, subject: string)
    requires Enabled(s, a) && !Commits(s, a)
    requires BySubject(s.db.users, subject).None? && BySubject(Apply(s, a).db.users, subject).Some?
    ensures Registers(s, a, subject)
  {
  }

  lemma SubjectAppears(s: State, a: Action, subject: string)
    requires Inv(s) && Enabled(s, a)
    requires BySubject(s.db.users, subject).None? && BySubject(Apply(s, a).db.users, subject).Some?
    ensures Registers(s, a, subject)
  {
    if Commits(s, a) {
      CommitRegisters(s, a, subject);
    } else {
      EnvRegisters(s, a, subject);
    }
  }

  /** The action moves a committed row away from the address `e`: a call commits a changed address. */
  ghost predicate MovesAway(s: State, a: Action, e: string)
  {
    && Commits(s, a)
    && var c := s.calls[a.id];
       c.user in s.db.users && s.db.users[c.user].norm == e && c.req.norm != e
  }

  lemma CommitLeavesEmail(s: State, a: Action, e: string)
    requires Inv(s) && Commits(s, a)
    requires ByEmail(s.db.users, e).Some? && ByEmail(Apply(s, a).db.users, e).None?
    ensures MovesAway(s, a, e)
  {
    CommitChangesUsers(s, a);
    var u := ByEmail(s.db.users, e).value;
    assert u in Apply(s, a).db.users && Apply(s, a).db.users[u].norm != e;
  }

  lemma EnvKeepsEmails(s: State, a: Action, u: Uuid)
    requires Enabled(s, a) && !Commits(s, a) && u in s.db.users
    ensures u in Apply(s, a).db.users && Apply(s, a).db.users[u].norm == s.db.users[u].norm
  {
  }

  lemma EmailLeaves(s: State, a: Action, e: string)
    requires Inv(s) && Enabled(s, a)
    requires ByEmail(s.db.users, e).Some? && ByEmail(Apply(s, a).db.users, e).None?
    ensures MovesAway(s, a, e)
  {
    if Commits(s, a) {
      CommitLeavesEmail(s, a, e);
    } else {
      EnvKeepsEmails(s, a, ByEmail(s.db.users, e).value);
    }
  }

  lemma RegisteredBetween(states: seq<State>, actions: seq<Action>, h: nat, k: nat, subject: string)
    returns (n: nat)
    requires Run(states, actions) && h <= k < |states|
    requires BySubject(states[h].db.users, subject).None? && BySubject(states[k].db.users, subject).Some?
    ensures h <= n < k && Registers(states[n], actions[n], subject)
  {
    n := Switch(seq(|states|, m requires 0 <= m < |states| => BySubject(states[m].db.users, subject).Some?), h, k);
    RunKeepsInv(states, actions, n);
    SubjectAppears(states[n], actions[n], subject);
  }

  lemma MovedBetween(states: seq<State>, actions: seq<Action>, h: nat, k: nat, e: string)
    returns (n: nat)
    requires Run(states, actions) && h <= k < |states|
    requires ByEmail(states[h].db.users, e).Some? && ByEmail(states[k].db.users, e).None?
    ensures h <= n < k && MovesAway(states[n], actions[n], e)
  {
    n := Switch(seq(|states|, m requires 0 <= m < |states| => ByEmail(states[m].db.users, e).None?), h, k);
    RunKeepsInv(states, actions, n);
    EmailLeaves(states[n], actions[n], e);
  }

  // ---- Refusals over whole runs ----------------------------------------------------------

  /** The subject got its row after this call had looked for it. */
  ghost predicate Overtaken(states: seq<State>, actions: seq<Action>, k: nat, i: CallId, r: Request)
    requires |states| == |actions| + 1 && k <= |actions|
  {
    exists h, n :: 0 <= h < n < k && Executes(states[h], actions[h], i, FindSubject, r)
                   && r.subject.Some? && Registers(states[n], actions[n], r.subject.value)
  }

  /** The row that stopped this call's insert moved to another address before the call read it again. */
  ghost predicate Vacated(states: seq<State>, actions: seq<Action>, k: nat, i: CallId, r: Request)
    requires |states| == |actions| + 1 && k <= |actions|
  {
    exists h, n :: 0 <= h < n < k && Executes(states[h], actions[h], i, InsertUser, r)
                   && MovesAway(states[n], actions[n], r.norm)
  }

  lemma UnjustifiedIsARace(states: seq<State>, actions: seq<Action>, k: nat, i: CallId)
    requires Run(states, actions) && k <= |actions| && i in states[k].calls
    requires states[k].calls[i].req.subject.Some? && !Justified(states[k].db.users, states[k].calls[i])
    ensures var c := states[k].calls[i];
            if c.pc.RereadEmail? && ByEmail(states[k].db.users, c.req.norm).None?
            then Vacated(states, actions, k, i, c.req)
            else Overtaken(states, actions, k, i, c.req)
  {
    var c := states[k].calls[i];
    if c.pc.RereadEmail? && ByEmail(states[k].db.users, c.req.norm).None? {
      var h := EmailWasTaken(states, actions, k, i);
      var n := MovedBetween(states, actions, h, k, c.req.norm);
      assert h != n;
    } else {
      var h := SubjectWasAbsent(states, actions, k, i);
      var n := RegisteredBetween(states, actions, h, k, c.req.subject.value);
      assert h != n;
    }
  }

  /** Soundness of refusals over every run. A call is refused by its own statement with the refusal that
      the decision table gives on the tables committed at that instant if and only if the refusal is
      justified; and one that is not is always the work of a race. */
  lemma RefusalSoundness(states: seq<State>, actions: seq<Action>, k: nat, why: Refusal, ids: Ids)
    requires Run(states, actions) && k < |actions| && Refuses(states[k], actions[k], why)
    requires why != NotAllowed && why != UniqueViolation
    ensures var db, c := states[k].db, states[k].calls[actions[k].id];
            && c.req.subject.Some?
            && (Verdict(db, c.req, ids) == Refused(why) <==> Justified(db.users, c))
            && (!Justified(db.users, c) ==>
                  || Overtaken(states, actions, k, actions[k].id, c.req)
                  || Vacated(states, actions, k, actions[k].id, c.req))
  {
    RunKeepsInv(states, actions, k);
    var db, c := states[k].db, states[k].calls[actions[k].id];
    assert CallOk(db, c);
    RefusalIffJustified(db, c, actions[k].newId, ids, why);
    if !Justified(db.users, c) {
      UnjustifiedIsARace(states, actions, k, actions[k].id);
    }
  }

  /** The same for 23505, which the decision table never gives: it is always the work of a race. */
  lemma ViolationIsARace(states: seq<State>, actions: seq<Action>, k: nat, ids: Ids)
    requires Run(states, actions) && k < |actions| && Refuses(states[k], actions[k], UniqueViolation)
    ensures var db, c := states[k].db, states[k].calls[actions[k].id];
            && c.req.subject.Some?
            && (if c.pc.MoveEmail? then Verdict(db, c.req, ids) == Refused(EmailConflict)
                else Overtaken(states, actions, k, actions[k].id, c.req))
  {
    RunKeepsInv(states, actions, k);
    var db, i := states[k].db, actions[k].id;
    var c := states[k].calls[i];
    assert CallOk(db, c);
    UniqueViolationMeans(db, c, actions[k].newId, ids);
    if c.pc.InsertUser? {
      var h := SubjectWasAbsent(states, actions, k, i);
      var n := RegisteredBetween(states, actions, h, k, c.req.subject.value);
      assert h != n;
    }
  }

  lemma ConflictStep(db: Tables, c: Call, x: Uuid, ids: Ids)
    requires Valid(db) && c.InFlight() && c.req.subject.Some? && Advance(db, c, x).pc == Failed(SubjectConflict)
    requires var row := ByEmail(db.users, c.req.norm); row.Some? && db.users[row.value].subject == c.req.subject
    ensures c.pc.FindEmail? && !Justified(db.users, c)
    ensures var again := Verdict(db, c.req, ids);
            again == Refused(Disabled) || (again.Accepted? && Some(again.user) == ByEmail(db.users, c.req.norm))
  {
    var u := ByEmail(db.users, c.req.norm).value;
    assert BySubject(db.users, c.req.subject.value) == Some(u);
    assert !TakenByAnother(db.users, c.req.norm, u);
  }

  /** Two calls for one subject converge, except that the slower one may be refused over its own row: the
      address it presents is held by a row of its own subject, which the first lookup by address takes for
      somebody else's. That row was committed while the call was under way, and asking again is answered
      for that very user, or refused only because something the subject owns is disabled. */
  lemma ConflictOverOwnRow(states: seq<State>, actions: seq<Action>, k: nat, ids: Ids)
    requires Run(states, actions) && k < |actions| && Refuses(states[k], actions[k], SubjectConflict)
    requires var db, c := states[k].db, states[k].calls[actions[k].id];
             var row := ByEmail(db.users, c.req.norm);
             row.Some? && db.users[row.value].subject == c.req.subject
    ensures var db, c := states[k].db, states[k].calls[actions[k].id];
            && c.req.subject.Some? && c.pc.FindEmail?
            && Overtaken(states, actions, k, actions[k].id, c.req)
            && var again := Verdict(db, c.req, ids);
               (again == Refused(Disabled) || (again.Accepted? && Some(again.user) == ByEmail(db.users, c.req.norm)))
  {
    RunKeepsInv(states, actions, k);
    var db, c := states[k].db, states[k].calls[actions[k].id];
    assert CallOk(db, c);
    InFlightHasSubject(db, c);
    ConflictStep(db, c, actions[k].newId, ids);
    UnjustifiedIsARace(states, actions, k, actions[k].id);
  }

  lemma InFlightHasSubject(db: Tables, c: Call)
    requires CallOk(db, c) && c.InFlight()
    ensures c.req.subject.Some?
  {
  }

  lemma BindingRequiredStep(db: Tables, c: Call, x: Uuid)
    requires c.InFlight() && Advance(db, c, x).pc == Failed(BindingRequired)
    ensures var row := ByEmail(db.users, c.req.norm);
            && (!(row.Some? && db.users[row.value].subject == None) <==> c.pc.RereadEmail? && row.None?)
            && (c.pc.RereadEmail? && row.None? ==> !Justified(db.users, c))
  {
  }

  /** "Subject binding required" is said although no unbound row carries the address if and only if the
      address has no row at all when the call reads it again; and then a call has committed the move of
      that row to another address between this call's insert and its second reading. */
  lemma BindingRequiredIffUnbound(states: seq<State>, actions: seq<Action>, k: nat)
    requires Run(states, actions) && k < |actions| && Refuses(states[k], actions[k], BindingRequired)
    ensures var db, c := states[k].db, states[k].calls[actions[k].id];
            var row := ByEmail(db.users, c.req.norm);
            && (!(row.Some? && db.users[row.value].subject == None) <==> c.pc.RereadEmail? && row.None?)
            && (c.pc.RereadEmail? && row.None? ==> Vacated(states, actions, k, actions[k].id, c.req))
  {
    RunKeepsInv(states, actions, k);
    var db, c := states[k].db, states[k].calls[actions[k].id];
    assert CallOk(db, c);
    InFlightHasSubject(db, c);
    BindingRequiredStep(db, c, actions[k].newId);
    if c.pc.RereadEmail? && ByEmail(db.users, c.req.norm).None? {
      UnjustifiedIsARace(states, actions, k, actions[k].id);
    }
  }
}
