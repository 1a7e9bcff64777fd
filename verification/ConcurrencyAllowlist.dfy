/** The allowlist over interleaved runs: it is read once, without a lock, so what it says at the commit
    depends on what the administrator does after the check. */
module ConcurrencyAllowlist {
  import opened Text
  import opened Directory
  import opened Provisioning
  import opened ProvisioningLaws
  import opened Concurrency
  import opened ConcurrencyInvariant

  // ---- The check ---------------------------------------------------------------------

  /** The action is the allowlist check of the call `i`. */
  predicate Checks(s: State, a: Action, i: CallId)
  {
    a.Step? && a.id == i && i in s.calls && s.calls[i].pc.CheckAllowed?
  }

  lemma AdvanceKeepsRequest(db: Tables, c: Call, x: Uuid)
    requires !c.pc.CheckAllowed?
    ensures var d := Advance(db, c, x);
            d.req == c.req && !d.pc.CheckAllowed? && (c.pc.Failed? ==> d.pc.Failed?)
  {
  }

  lemma CheckDecides(db: Tables, c: Call, x: Uuid)
    requires c.pc.CheckAllowed?
    ensures var d := Advance(db, c, x);
            d.req == c.req && (d.pc.Failed? <==> !SignupAllowed(db.allow, c.req.norm))
  {
  }

  /** Where a call past its check comes from in one action. */
  lemma CheckedBefore(s: State, a: Action, i: CallId)
    requires Enabled(s, a) && i in Apply(s, a).calls
    requires var c := Apply(s, a).calls[i]; !c.pc.CheckAllowed? && !c.pc.Failed?
    ensures i in s.calls && s.calls[i].req == Apply(s, a).calls[i].req && !s.calls[i].pc.Failed?
    ensures s.calls[i].pc.CheckAllowed? ==> SignupAllowed(s.db.allow, s.calls[i].req.norm)
  {
    if a.Step? && a.id == i {
      if s.calls[i].pc.CheckAllowed? {
        CheckDecides(s.db, s.calls[i], a.newId);
      } else {
        AdvanceKeepsRequest(s.db, s.calls[i], a.newId);
      }
    }
  }

  /** Every call past its allowlist check, committed ones included, found its address on the allowlist
      at that check, in an earlier state of the same run. */
  lemma {:induction false} AllowedWhenChecked(states: seq<State>, actions: seq<Action>, k: nat, i: CallId)
    requires Run(states, actions) && k < |states| && i in states[k].calls
    requires !states[k].calls[i].pc.CheckAllowed? && !states[k].calls[i].pc.Failed?
    ensures exists h :: 0 <= h < k && Checks(states[h], actions[h], i)
                        && states[h].calls[i].req == states[k].calls[i].req
                        && SignupAllowed(states[h].db.allow, states[k].calls[i].req.norm)
  {
    assert k > 0;
    CheckedBefore(states[k - 1], actions[k - 1], i);
    if !states[k - 1].calls[i].pc.CheckAllowed? {
      AllowedWhenChecked(states, actions, k - 1, i);
    } else {
      assert Checks(states[k - 1], actions[k - 1], i);
    }
  }

  lemma PastCheckStep(s: State, a: Action, i: CallId)
    requires Enabled(s, a) && i in s.calls && !s.calls[i].pc.CheckAllowed?
    ensures i in Apply(s, a).calls && !Apply(s, a).calls[i].pc.CheckAllowed?
  {
    if a.Step? && a.id == i {
      AdvanceKeepsRequest(s.db, s.calls[i], a.newId);
    }
  }

  lemma {:induction false} PastCheckStays(states: seq<State>, actions: seq<Action>, n: nat, m: nat, i: CallId)
    requires Run(states, actions) && n <= m < |states|
    requires i in states[n].calls && !states[n].calls[i].pc.CheckAllowed?
    ensures i in states[m].calls && !states[m].calls[i].pc.CheckAllowed?
    decreases m
  {
    if n < m {
      PastCheckStays(states, actions, n, m - 1, i);
      PastCheckStep(states[m - 1], actions[m - 1], i);
    }
  }

  /** A call checks the allowlist once. */
  lemma ChecksOnce(states: seq<State>, actions: seq<Action>, h: nat, n: nat, i: CallId)
    requires Run(states, actions) && h < |actions| && n < |actions|
    requires Checks(states[h], actions[h], i) && Checks(states[n], actions[n], i)
    ensures h == n
  {
    var first, second := if h < n then h else n, if h < n then n else h;
    CheckDecides(states[first].db, states[first].calls[i], actions[first].newId);
    if first < second {
      PastCheckStays(states, actions, first + 1, second, i);
    }
  }

  // ---- Between the check and the commit ------------------------------------------------

  /** The administrator takes the normalized address `e` off the allowlist, or puts it on. */
  predicate Withdraws(a: Action, e: string)
  {
    a.Disallow? && Normalize(a.address) == e
  }

  predicate Restores(a: Action, e: string)
  {
    a.Allow? && Normalize(a.address) == e
  }

  /** Among the actions from `h` up to `k` the address is withdrawn, and not restored afterwards. */
  ghost predicate WithdrawnSince(actions: seq<Action>, h: nat, k: nat, e: string)
    requires h <= k <= |actions|
  {
    exists n :: h <= n < k && Withdraws(actions[n], e) && forall m :: n < m < k ==> !Restores(actions[m], e)
  }

  lemma WithdrawnByOneMore(actions: seq<Action>, h: nat, k: nat, e: string)
    requires h <= k < |actions|
    ensures WithdrawnSince(actions, h, k + 1, e) <==>
              Withdraws(actions[k], e) || (WithdrawnSince(actions, h, k, e) && !Restores(actions[k], e))
  {
    if Withdraws(actions[k], e) {
      assert WithdrawnSince(actions, h, k + 1, e);
    } else if WithdrawnSince(actions, h, k, e) && !Restores(actions[k], e) {
      var n :| h <= n < k && Withdraws(actions[n], e) && forall m :: n < m < k ==> !Restores(actions[m], e);
      assert WithdrawnSince(actions, h, k + 1, e);
    }
  }

  lemma AllowAfter(s: State, a: Action, e: string)
    ensures e in Apply(s, a).db.allow <==> Restores(a, e) || (e in s.db.allow && !Withdraws(a, e))
  {
  }

  lemma {:induction false} AllowAlong(allow: seq<set<string>>, actions: seq<Action>, h: nat, k: nat, e: string)
    requires |allow| == |actions| + 1 && h <= k < |allow| && e in allow[h]
    requires forall n :: h <= n < k ==>
               (e in allow[n + 1] <==> Restores(actions[n], e) || (e in allow[n] && !Withdraws(actions[n], e)))
    ensures e in allow[k] <==> !WithdrawnSince(actions, h, k, e)
    decreases k
  {
    if h < k {
      AllowAlong(allow, actions, h, k - 1, e);
      WithdrawnByOneMore(actions, h, k - 1, e);
      assert e in allow[k - 1 + 1] <==>
             Restores(actions[k - 1], e) || (e in allow[k - 1] && !Withdraws(actions[k - 1], e));
    }
  }

  /** An address allowed in one state is allowed in a later one unless, and only unless, it was withdrawn
      in between and not restored since. */
  lemma AllowedUnlessWithdrawn(states: seq<State>, actions: seq<Action>, h: nat, k: nat, e: string)
    requires Run(states, actions) && h <= k < |states| && e in states[h].db.allow
    ensures e in states[k].db.allow <==> !WithdrawnSince(actions, h, k, e)
  {
    var allow := seq(|states|, n requires 0 <= n < |states| => states[n].db.allow);
    forall n | h <= n < k
      ensures e in allow[n + 1] <==> Restores(actions[n], e) || (e in allow[n] && !Withdraws(actions[n], e))
    {
      AllowAfter(states[n], actions[n], e);
    }
    AllowAlong(allow, actions, h, k, e);
  }

  lemma AllowedMeans(allow: set<string>, address: string)
    ensures SignupAllowed(allow, address) <==> Normalize(address) in allow
  {
  }

  /** A committed address was allowed at the one check of its call, and it is allowed at the commit if and
      only if it was not withdrawn for good in between. */
  lemma CommitAllowedIff(states: seq<State>, actions: seq<Action>, k: nat)
    requires Run(states, actions) && k < |actions| && Commits(states[k], actions[k])
    ensures exists h :: 0 <= h < k && Checks(states[h], actions[h], actions[k].id)
    ensures var i := actions[k].id; var norm := states[k].calls[i].req.norm;
            forall h :: 0 <= h < k && Checks(states[h], actions[h], i) ==>
              && SignupAllowed(states[h].db.allow, norm)
              && (SignupAllowed(states[k].db.allow, norm) <==> !WithdrawnSince(actions, h, k, Normalize(norm)))
  {
    var i := actions[k].id;
    var norm := states[k].calls[i].req.norm;
    AllowedWhenChecked(states, actions, k, i);
    var n :| 0 <= n < k && Checks(states[n], actions[n], i) && SignupAllowed(states[n].db.allow, norm);
    assert Normalize(norm) in states[n].db.allow by {
      AllowedMeans(states[n].db.allow, norm);
    }
    AllowedUnlessWithdrawn(states, actions, n, k, Normalize(norm));
    forall h | 0 <= h < k && Checks(states[h], actions[h], i) ensures h == n {
      ChecksOnce(states, actions, h, n, i);
    }
  }

  // ---- Normal requests ---------------------------------------------------------------

  /** The request of a call is what DECLARE computed, its subject not blank, and stored addresses match
      their generated column. */
  ghost predicate Normal(s: State)
  {
    && GeneratedColumns(s.db.users)
    && forall i :: i in s.calls && !s.calls[i].pc.Failed? ==>
         && s.calls[i].req.norm == Normalize(s.calls[i].req.email) == Normalize(s.calls[i].req.norm)
         && s.calls[i].req.subject != Some("")
  }

  lemma CommitKeepsGenerated(db: Tables, c: Call)
    requires Valid(db) && CallOk(db, c) && c.pc.Commit?
    requires GeneratedColumns(db.users) && c.req.norm == Normalize(c.req.email)
    ensures GeneratedColumns(See(db, c).users)
  {
    CommitIsLegal(db, c);
    UsersAfterGenerated(db.users, c.req, c.user);
  }

  lemma StepKeepsRequests(s: State, i: CallId, x: Uuid)
    requires Normal(s) && Enabled(s, Step(i, x))
    ensures var c := Advance(s.db, s.calls[i], x); c.req == s.calls[i].req
  {
    if s.calls[i].pc.CheckAllowed? {
      CheckDecides(s.db, s.calls[i], x);
    } else {
      AdvanceKeepsRequest(s.db, s.calls[i], x);
    }
  }

  lemma StepKeepsNormal(s: State, i: CallId, x: Uuid)
    requires Inv(s) && Normal(s) && Enabled(s, Step(i, x))
    ensures Normal(Apply(s, Step(i, x)))
  {
    StepKeepsRequests(s, i, x);
    if s.calls[i].pc.Commit? {
      assert CallOk(s.db, s.calls[i]);
      CommitKeepsGenerated(s.db, s.calls[i]);
    }
  }

  lemma EnvKeepsNormal(s: State, a: Action)
    requires Normal(s) && IsEnv(a)
    ensures Normal(Apply(s, a))
  {
  }

  lemma ApplyKeepsNormal(s: State, a: Action)
    requires Inv(s) && Normal(s) && Enabled(s, a)
    ensures Normal(Apply(s, a))
  {
    if a.Begin? {
      if Parse(a.args).Good? {
        ParsedNorm(a.args);
      }
    } else if a.Step? {
      StepKeepsNormal(s, a.id, a.newId);
    } else if IsEnv(a) {
      EnvKeepsNormal(s, a);
    }
  }

  lemma {:induction false} RunKeepsNormal(states: seq<State>, actions: seq<Action>, k: nat)
    requires Run(states, actions) && k < |states| && GeneratedColumns(states[0].db.users)
    ensures Normal(states[k])
  {
    if k > 0 {
      RunKeepsNormal(states, actions, k - 1);
      RunKeepsInv(states, actions, k - 1);
      ApplyKeepsNormal(states[k - 1], actions[k - 1]);
    }
  }

  // ---- A withdrawal that comes too late ------------------------------------------------

  lemma CommitsAfterRemoval(s: State, i: CallId, x: Uuid)
    requires Inv(s) && i in s.calls && s.calls[i].pc.Commit? && NewId(s, x)
    requires Normalize(s.calls[i].req.norm) == s.calls[i].req.norm
    ensures var c := s.calls[i];
            var removed := Apply(s, Disallow(c.req.norm));
            var final := Apply(removed, Step(i, x));
            && Enabled(removed, Step(i, x))
            && final.calls[i].pc.Done?
            && c.user in final.db.users && final.db.users[c.user].norm == c.req.norm
            && !SignupAllowed(final.db.allow, c.req.norm)
  {
    var c := s.calls[i];
    var removed := Apply(s, Disallow(c.req.norm));
    assert removed.calls == s.calls && CallOk(s.db, c);
    assert UserHeld(s.db, c);
    assert forall j :: j in removed.calls ==> !WaitsFor(removed, i, j);
    assert See(removed.db, c).allow == s.db.allow - {c.req.norm};
  }

  /** The allowlist row is read without a lock, so an address removed after the check is still
      committed: from every reached state with a call about to commit, the removal and then the commit
      are possible, and the committed account's address is then not allowed. */
  lemma RevocationRace(states: seq<State>, actions: seq<Action>, k: nat, i: CallId, x: Uuid)
    requires Run(states, actions) && k < |states| && GeneratedColumns(states[0].db.users)
    requires i in states[k].calls && states[k].calls[i].pc.Commit? && NewId(states[k], x)
    ensures var s, c := states[k], states[k].calls[i];
            var removed := Apply(s, Disallow(c.req.norm));
            var final := Apply(removed, Step(i, x));
            && Enabled(s, Disallow(c.req.norm)) && Enabled(removed, Step(i, x))
            && final.calls[i].pc.Done?
            && c.user in final.db.users && final.db.users[c.user].norm == c.req.norm
            && !SignupAllowed(final.db.allow, c.req.norm)
  {
    RunKeepsInv(states, actions, k);
    RunKeepsNormal(states, actions, k);
    CommitsAfterRemoval(states[k], i, x);
  }
}
