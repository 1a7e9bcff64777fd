/** What holds in every interleaving: agreement of committed calls, grants at the commit,
    serializability, the fate of bindings, and freedom from deadlock. */
module ConcurrencyTheorems {
  import opened Text
  import opened Directory
  import opened Provisioning
  import opened ProvisioningLaws
  import opened Concurrency
  import opened ConcurrencyInvariant
  import opened ConcurrencyAllowlist

  // ---- Convergence ---------------------------------------------------------------

  lemma SettledAgree(db: Tables, c: Call, d: Call)
    requires Valid(db) && Settled(db, c) && Settled(db, d) && c.req.subject == d.req.subject
    ensures c.user == d.user && c.tenant == d.tenant && c.member == d.member
  {
  }

  /** Any two calls that have committed for the same subject returned the same user, tenant and
      membership, and at most one of them reported the tenant as created. What a call is told that does
      not commit is the matter of `ConcurrencyRefusals`. */
  lemma Convergence(states: seq<State>, actions: seq<Action>, k: nat, i: CallId, j: CallId)
    requires Run(states, actions) && k < |states|
    requires i in states[k].calls && j in states[k].calls && i != j
    requires states[k].calls[i].pc.Done? && states[k].calls[j].pc.Done?
    requires states[k].calls[i].req.subject == states[k].calls[j].req.subject
    ensures var c, d := states[k].calls[i], states[k].calls[j];
            && c.user == d.user && c.tenant == d.tenant && c.member == d.member
            && !(c.created && d.created)
  {
    RunKeepsInv(states, actions, k);
    var c, d := states[k].calls[i], states[k].calls[j];
    assert CallOk(states[k].db, c) && CallOk(states[k].db, d) && PairOk(c, d);
    SettledAgree(states[k].db, c, d);
  }

  // ---- The commit ------------------------------------------------------------------

  /** At the moment a call commits, the user it returns carries exactly the presented subject, user,
      tenant and membership are active, and `resolve_membership` finds that membership. */
  lemma CommitGrants(states: seq<State>, actions: seq<Action>, k: nat)
    requires Run(states, actions) && k < |actions| && Commits(states[k], actions[k])
    ensures var c, db := states[k].calls[actions[k].id], states[k + 1].db;
            && states[k + 1].calls[actions[k].id].pc.Done?
            && states[k + 1].calls[actions[k].id].Result() == c.Result()
            && Granted(db, c.req.subject, c.Result())
            && ResolveMembership(db, c.user, c.tenant) == Some(c.member)
  {
    RunKeepsInv(states, actions, k);
    var c := states[k].calls[actions[k].id];
    CommitKeepsSelf(states[k].db, c);
    GrantedResolves(states[k + 1].db, c.req.subject, c.Result());
  }

  /** A commit is atomic: it returns the decision of the sequential function on the tables committed
      at that instant, leaves exactly its tables, and stays within its frame. */
  lemma CommitRefines(states: seq<State>, actions: seq<Action>, k: nat)
    requires Run(states, actions) && k < |actions| && Commits(states[k], actions[k])
    ensures var c, db := states[k].calls[actions[k].id], states[k].db;
            && c.req.subject.Some?
            && Verdict(db, c.req, Ids(c.user, c.tenant, c.member)) == c.Result()
            && states[k + 1].db == Post(db, c.req, c.Result())
            && Framed(db, states[k + 1].db, c.req.subject, c.Result())
  {
    RunKeepsInv(states, actions, k);
    var c, db := states[k].calls[actions[k].id], states[k].db;
    CommitIsLegal(db, c);
    LegalIsVerdict(db, c.req, c.Result());
    LegalFrame(db, c.req, c.Result());
  }

  // ---- Serializability ---------------------------------------------------------------

  datatype Serial = Whole(req: Request, ids: Ids) | Other(action: Action)

  /** A whole call of the sequential function, or one step outside provisioning. With `check` the call
      asks the allowlist as it does on its own; without, only what follows that check is replayed. */
  ghost function SerialStep(db: Tables, op: Serial, check: bool): Tables
  {
    match op
    case Whole(r, ids) =>
      if r.subject.None? then db
      else
        var o := if check then Answer(db, r, ids) else Verdict(db, r, ids);
        if o.Accepted? then Post(db, r, o) else db
    case Other(a) => EnvPost(db, a)
  }

  ghost function SerialRun(db: Tables, ops: seq<Serial>, check: bool): Tables
  {
    if ops == [] then db else SerialStep(SerialRun(db, ops[..|ops| - 1], check), ops[|ops| - 1], check)
  }

  /** What one action contributes to the serial history: a committed call, a step outside
      provisioning, or nothing. */
  ghost function Contribution(s: State, a: Action): seq<Serial>
  {
    if Commits(s, a) then
      var c := s.calls[a.id];
      [Whole(c.req, Ids(c.user, c.tenant, c.member))]
    else if IsEnv(a) then [Other(a)]
    else []
  }

  /** The committed calls in commit order, among the steps outside provisioning. */
  ghost function CommitOrder(states: seq<State>, actions: seq<Action>, k: nat): seq<Serial>
    requires |states| == |actions| + 1 && k <= |actions|
  {
    if k == 0 then []
    else CommitOrder(states, actions, k - 1) + Contribution(states[k - 1], actions[k - 1])
  }

  /** Appending one contribution to a serial history that has led to `mid` so far. */
  lemma {:induction false} SerialAppend(db: Tables, ops: seq<Serial>, more: seq<Serial>, check: bool, mid: Tables)
    requires |more| <= 1 && mid == SerialRun(db, ops, check)
    ensures SerialRun(db, ops + more, check) == if more == [] then mid else SerialStep(mid, more[0], check)
  {
    if more == [] {
      assert ops + more == ops;
    } else {
      assert (ops + more)[..|ops + more| - 1] == ops;
    }
  }

  /** A commit returns the answer of the whole call, its allowlist check included, on the tables of that
      instant, if and only if its address was not withdrawn for good since that check. */
  lemma CommitAnswersIff(states: seq<State>, actions: seq<Action>, h: nat, k: nat)
    requires Run(states, actions) && h < k < |actions| && Commits(states[k], actions[k])
    requires Checks(states[h], actions[h], actions[k].id)
    ensures var db, c := states[k].db, states[k].calls[actions[k].id];
            && c.req.subject.Some?
            && (Answer(db, c.req, Ids(c.user, c.tenant, c.member)) == c.Result() <==>
                  !WithdrawnSince(actions, h, k, Normalize(c.req.norm)))
  {
    CommitRefines(states, actions, k);
    CommitAllowedIff(states, actions, k);
  }

  /** No committed call among the first `k` actions lost its address between its check and its commit. */
  ghost predicate NoLateWithdrawal(states: seq<State>, actions: seq<Action>, k: nat)
    requires |states| == |actions| + 1 && k <= |actions|
  {
    forall h, n :: 0 <= h < n < k && Commits(states[n], actions[n]) && Checks(states[h], actions[h], actions[n].id) ==>
      !WithdrawnSince(actions, h, n, Normalize(states[n].calls[actions[n].id].req.norm))
  }

  /** One action changes the committed tables as its contribution does. */
  lemma ActionIsSerial(states: seq<State>, actions: seq<Action>, k: nat, check: bool)
    requires Run(states, actions) && k < |actions|
    requires check ==> NoLateWithdrawal(states, actions, k + 1)
    ensures var ops := Contribution(states[k], actions[k]);
            states[k + 1].db == if ops == [] then states[k].db else SerialStep(states[k].db, ops[0], check)
  {
    if Commits(states[k], actions[k]) {
      CommitRefines(states, actions, k);
      CommitAllowedIff(states, actions, k);
    }
  }

  /** Every interleaving leaves the tables that its committed calls leave when the statements behind
      their allowlist check run alone, each at its place in the commit order; refused and crashed calls
      leave no trace. The check itself belongs to that serial history as well (`check`), and each call
      runs alone from start to end, whenever no committed address was withdrawn between its call's check
      and its commit. */
  lemma {:induction false} Serializable(states: seq<State>, actions: seq<Action>, k: nat, check: bool)
    requires Run(states, actions) && k <= |actions|
    requires check ==> NoLateWithdrawal(states, actions, k)
    ensures states[k].db == SerialRun(states[0].db, CommitOrder(states, actions, k), check)
  {
    if k > 0 {
      Serializable(states, actions, k - 1, check);
      ActionIsSerial(states, actions, k - 1, check);
      SerialAppend(states[0].db, CommitOrder(states, actions, k - 1),
                   Contribution(states[k - 1], actions[k - 1]), check, states[k - 1].db);
    }
  }

  // ---- Bindings over the whole history -----------------------------------------------

  /** What no step ever undoes: rows, bound subjects, kinds, owners and links. */
  ghost predicate Evolves(d: Tables, e: Tables)
  {
    && (forall u :: u in d.users ==> u in e.users
                                     && (d.users[u].subject.Some? ==> e.users[u].subject == d.users[u].subject))
    && (forall t :: t in d.tenants ==> t in e.tenants && e.tenants[t].kind == d.tenants[t].kind
                                       && e.tenants[t].owner == d.tenants[t].owner)
    && (forall m :: m in d.members ==> m in e.members && e.members[m].user == d.members[m].user
                                       && e.members[m].tenant == d.members[m].tenant)
  }

  lemma EvolvesTransitive(d: Tables, e: Tables, f: Tables)
    requires Evolves(d, e) && Evolves(e, f)
    ensures Evolves(d, f)
  {
  }

  lemma CommitEvolves(s: State, a: Action)
    requires Inv(s) && Enabled(s, a) && Commits(s, a)
    ensures Evolves(s.db, Apply(s, a).db)
  {
    var c := s.calls[a.id];
    assert CallOk(s.db, c);
    CommitIsLegal(s.db, c);
    LegalFrame(s.db, c.req, c.Result());
  }

  lemma BindEvolves(db: Tables, e: string, x: string)
    requires Valid(db)
    ensures Evolves(db, AfterBinding(db, e, x))
  {
    BindingKeepsValid(db, e, x);
  }

  lemma RowEnvEvolves(s: State, a: Action)
    requires Enabled(s, a) && (a.SetUser? || a.SetTenant? || a.SetMember? || a.Rename?)
    ensures Evolves(s.db, EnvPost(s.db, a))
  {
  }

  lemma InsertEnvEvolves(s: State, a: Action)
    requires Enabled(s, a) && (a.AddUser? || a.AddTeam? || a.AddMember?)
    ensures Evolves(s.db, EnvPost(s.db, a))
  {
  }

  lemma EnvEvolves(s: State, a: Action)
    requires Inv(s) && Enabled(s, a) && IsEnv(a)
    ensures Evolves(s.db, EnvPost(s.db, a))
  {
    if a.Bind? {
      BindEvolves(s.db, a.address, a.subject);
    } else if a.SetUser? || a.SetTenant? || a.SetMember? || a.Rename? {
      RowEnvEvolves(s, a);
    } else if a.AddUser? || a.AddTeam? || a.AddMember? {
      InsertEnvEvolves(s, a);
    }
  }

  lemma ApplyEvolves(s: State, a: Action)
    requires Inv(s) && Enabled(s, a)
    ensures Evolves(s.db, Apply(s, a).db)
  {
    if Commits(s, a) {
      CommitEvolves(s, a);
    } else if IsEnv(a) {
      EnvEvolves(s, a);
    }
  }

  lemma {:induction false} EvolvesAlong(dbs: seq<Tables>, h: nat, k: nat)
    requires h <= k < |dbs|
    requires forall n :: h <= n < k ==> Evolves(dbs[n], dbs[n + 1])
    ensures Evolves(dbs[h], dbs[k])
    decreases k
  {
    if h < k {
      EvolvesAlong(dbs, h, k - 1);
      EvolvesTransitive(dbs[h], dbs[k - 1], dbs[k]);
    }
  }

  lemma StepEvolves(states: seq<State>, actions: seq<Action>, n: nat)
    requires Run(states, actions) && n < |actions|
    ensures Evolves(states[n].db, states[n + 1].db)
  {
    RunKeepsInv(states, actions, n);
    ApplyEvolves(states[n], actions[n]);
  }

  lemma RunEvolves(states: seq<State>, actions: seq<Action>, h: nat, k: nat)
    requires Run(states, actions) && h <= k < |states|
    ensures Evolves(states[h].db, states[k].db)
  {
    var dbs := seq(|states|, n requires 0 <= n < |states| => states[n].db);
    forall n | h <= n < k ensures Evolves(dbs[n], dbs[n + 1]) {
      StepEvolves(states, actions, n);
    }
    EvolvesAlong(dbs, h, k);
  }

  /** A bound subject resolves to the same user id, and an owner to the same personal tenant, in every
      later state, whatever provisioning, binding, allowlist and status steps come between. */
  lemma BoundForever(states: seq<State>, actions: seq<Action>, h: nat, k: nat, x: string, u: Uuid)
    requires Run(states, actions) && h <= k < |states|
    ensures BySubject(states[h].db.users, x) == Some(u) ==> BySubject(states[k].db.users, x) == Some(u)
    ensures PersonalOf(states[h].db.tenants, u).Some? ==>
              PersonalOf(states[k].db.tenants, u) == PersonalOf(states[h].db.tenants, u)
  {
    RunEvolves(states, actions, h, k);
    RunKeepsInv(states, actions, h);
    RunKeepsInv(states, actions, k);
  }

  lemma ApplyKeepsUnbound(s: State, a: Action, u: Uuid)
    requires Inv(s) && Enabled(s, a)
    requires u in s.db.users && s.db.users[u].subject == None
    requires a.Bind? ==> DecideBinding(s.db, a.address, a.subject) != Bound(u)
    ensures var d := Apply(s, a).db;
            && u in d.users
            && d.users[u] == s.db.users[u].(active := d.users[u].active)
            && (!IsEnv(a) ==> d.users[u] == s.db.users[u])
  {
    if Commits(s, a) {
      var c := s.calls[a.id];
      assert CallOk(s.db, c);
      CommitIsLegal(s.db, c);
      LegalFrame(s.db, c.req, c.Result());
    }
  }

  /** The row `u` is still unbound and unchanged but for its status. */
  ghost predicate StillUnbound(d: Tables, e: Tables, u: Uuid)
  {
    && u in d.users && d.users[u].subject == None
    && u in e.users && e.users[u] == d.users[u].(active := e.users[u].active)
  }

  lemma StepKeepsUnbound(states: seq<State>, actions: seq<Action>, n: nat, u: Uuid)
    requires Run(states, actions) && n < |actions|
    requires u in states[n].db.users && states[n].db.users[u].subject == None
    requires actions[n].Bind? ==>
               DecideBinding(states[n].db, actions[n].address, actions[n].subject) != Bound(u)
    ensures StillUnbound(states[n].db, states[n + 1].db, u)
  {
    RunKeepsInv(states, actions, n);
    ApplyKeepsUnbound(states[n], actions[n], u);
  }

  /** An unbound row keeps its address and stays unbound through every run in which the binding script
      does not bind it; provisioning steps leave it entirely alone (`ApplyKeepsUnbound`). */
  lemma {:induction false} UnboundUntilBound(states: seq<State>, actions: seq<Action>, h: nat, k: nat, u: Uuid)
    requires Run(states, actions) && h <= k < |states|
    requires u in states[h].db.users && states[h].db.users[u].subject == None
    requires forall n :: h <= n < k && actions[n].Bind? ==>
               DecideBinding(states[n].db, actions[n].address, actions[n].subject) != Bound(u)
    ensures StillUnbound(states[h].db, states[k].db, u)
    decreases k
  {
    if h < k {
      UnboundUntilBound(states, actions, h, k - 1, u);
      StepKeepsUnbound(states, actions, k - 1, u);
    }
  }

  // ---- Waiting -------------------------------------------------------------------------

  /** 0: holds nothing. 1: has locked its user row. 2: past its own user write. */
  function Rank(c: Call): nat
  {
    match c.pc
    case TestEmail => 1
    case MoveEmail => 1
    case UpsertTenant => 2
    case TestTenant => 2
    case UpsertMember => 2
    case TestMember => 2
    case Commit => 2
    case _ => 0
  }

  /** The tenant and membership a call holds hang on the user row it has locked. */
  lemma HoldsOnlyItsOwn(db: Tables, d: Call)
    requires CallOk(db, d)
    ensures d.lockTenant.Some? ==>
              d.lockUser == Some(d.user)
              && (d.lockTenant.value in db.tenants ==> IsPersonal(db.tenants[d.lockTenant.value], d.user))
    ensures d.lockMember.Some? ==>
              d.lockUser == Some(d.user)
              && (d.lockMember.value in db.members ==> db.members[d.lockMember.value].user == d.user)
    ensures d.wroteTenant.Some? ==> d.lockUser == Some(d.user) && d.wroteTenant.value.owner == d.user
    ensures d.wroteMember.Some? ==> d.lockUser == Some(d.user) && d.wroteMember.value.user == d.user
  {
  }

  /** A call past its own user write never waits: all it still needs hangs on its own user row. */
  lemma SettledNeverWaits(s: State, i: CallId, j: CallId)
    requires Inv(s) && WaitsFor(s, i, j)
    ensures Rank(s.calls[i]) < 2
  {
    var c, d := s.calls[i], s.calls[j];
    assert CallOk(s.db, c) && CallOk(s.db, d) && PairOk(c, d);
    HoldsOnlyItsOwn(s.db, d);
    if c.pc.UpsertTenant? || c.pc.UpsertMember? {
      assert c.lockUser == Some(c.user) && d.lockUser != Some(c.user);
    }
  }

  /** Whoever is waited for is in flight and further on; a call that waits for an address or subject key
      waits only for one past its own user write, and one that waits for a row before its own user write
      holds nothing. */
  lemma WaitRaisesRank(s: State, i: CallId, j: CallId)
    requires Inv(s) && WaitsFor(s, i, j)
    ensures Rank(s.calls[i]) < Rank(s.calls[j])
    ensures s.calls[i].pc.MoveEmail? || s.calls[i].pc.InsertUser? ==> Rank(s.calls[j]) == 2
    ensures Rank(s.calls[i]) == 0 ==> Idle(s.calls[i])
    ensures s.calls[j].InFlight()
  {
    var c, d := s.calls[i], s.calls[j];
    assert CallOk(s.db, c) && CallOk(s.db, d);
    SettledNeverWaits(s, i, j);
  }

  /** A chain of waiting calls never has more than two links, and so is never a cycle. */
  lemma NoDeadlock(s: State, chain: seq<CallId>)
    requires Inv(s) && |chain| >= 2
    requires forall n :: 0 <= n < |chain| - 1 ==> WaitsFor(s, chain[n], chain[n + 1])
    ensures |chain| <= 3 && chain[0] != chain[|chain| - 1]
  {
    WaitRaisesRank(s, chain[0], chain[1]);
    if |chain| >= 3 {
      WaitRaisesRank(s, chain[1], chain[2]);
      if |chain| >= 4 {
        assert WaitsFor(s, chain[2], chain[3]);
        SettledNeverWaits(s, chain[2], chain[3]);
      }
    }
  }

  /** The statements a call has left, at most. */
  function Remaining(c: Call): nat
  {
    match c.pc
    case CheckAllowed => 10
    case FindSubject => 9
    case TestEmail => 7
    case MoveEmail => 6
    case FindEmail => 8
    case InsertUser => 7
    case RereadEmail => 6
    case UpsertTenant => 5
    case TestTenant => 4
    case UpsertMember => 3
    case TestMember => 2
    case Commit => 1
    case _ => 0
  }

  lemma StepDecreases(db: Tables, c: Call, x: Uuid)
    requires c.InFlight()
    ensures Remaining(Advance(db, c, x)) < Remaining(c)
  {
  }

  /** As long as a call is in flight, some call in flight can take its next statement at once, and
      that brings it closer to its end. */
  lemma Progress(s: State, i: CallId, x: Uuid) returns (j: CallId)
    requires Inv(s) && i in s.calls && s.calls[i].InFlight() && NewId(s, x)
    ensures j in s.calls && Enabled(s, Step(j, x))
    ensures Remaining(Apply(s, Step(j, x)).calls[j]) < Remaining(s.calls[j])
    decreases 2 - Rank(s.calls[i])
  {
    if k :| k in s.calls && WaitsFor(s, i, k) {
      WaitRaisesRank(s, i, k);
      j := Progress(s, k, x);
    } else {
      j := i;
      StepDecreases(s.db, s.calls[j], x);
    }
  }
}
