/** What a provisioning or binding call does, spelled out in rows and fields: every early refusal, every
    column of every row an accepted call writes, and the same for the older version and the binding
    script. */
module ProvisioningRows {
  import opened Text
  import opened Directory
  import opened Provisioning
  import opened ProvisioningLaws

  /** The address and the subject of a call are given and not blank. */
  predicate HasAddress(a: Args)
  {
    a.email.Some? && Trim(Btrim, a.email.value) != ""
  }

  predicate HasSubject(a: Args)
  {
    a.subject.Some? && Trim(Btrim, a.subject.value) != ""
  }

  lemma BlankIsEmpty(s: string)
    ensures Normalize(s) == "" <==> Trim(Btrim, s) == ""
  {
    assert |Normalize(s)| == |Trim(Btrim, s)|;
  }

  lemma ParseIff(a: Args)
    ensures ParseLegacy(a) == Bad(EmailRequired) <==> !HasAddress(a)
    ensures HasAddress(a) ==> ParseLegacy(a).Good? && ParseLegacy(a).req.norm == Normalize(a.email.value)
    ensures Parse(a) == Bad(EmailRequired) <==> !HasAddress(a)
    ensures Parse(a) == Bad(SubjectRequired) <==> HasAddress(a) && !HasSubject(a)
    ensures Parse(a).Good? ==> Parse(a).req == ParseLegacy(a).req
  {
    if a.email.Some? {
      BlankIsEmpty(a.email.value);
    }
  }

  /** The refusals before any row is read: a missing address comes first, then a missing subject, then the
      allowlist. */
  lemma EarlyRefusals(db: Tables, a: Args, ids: Ids)
    requires Valid(db)
    ensures Decide(db, a, ids) == Refused(EmailRequired) <==> !HasAddress(a)
    ensures Decide(db, a, ids) == Refused(SubjectRequired) <==> HasAddress(a) && !HasSubject(a)
    ensures Decide(db, a, ids) == Refused(NotAllowed) <==>
              HasAddress(a) && HasSubject(a) && Normalize(a.email.value) !in db.allow
  {
    ParseIff(a);
    if a.email.Some? {
      NormalizeTwice(a.email.value);
    }
    if Parse(a).Good? {
      LaterRefusals(db, Parse(a).req, ids);
    }
  }

  lemma LaterRefusals(db: Tables, r: Request, ids: Ids)
    requires r.subject.Some?
    ensures Verdict(db, r, ids).Refused? ==> Verdict(db, r, ids).why !in {EmailRequired, SubjectRequired, NotAllowed}
  {
  }

  /** The same in 0003, which asks for no subject. */
  lemma EarlyLegacyRefusals(db: Tables, a: Args, ids: Ids)
    requires Valid(db)
    ensures DecideLegacy(db, a, ids) == Refused(EmailRequired) <==> !HasAddress(a)
    ensures DecideLegacy(db, a, ids) != Refused(SubjectRequired)
    ensures DecideLegacy(db, a, ids) == Refused(NotAllowed) <==> HasAddress(a) && Normalize(a.email.value) !in db.allow
  {
    ParseIff(a);
    if HasAddress(a) {
      NormalizeTwice(a.email.value);
      LaterLegacyRefusals(db, ParseLegacy(a).req, ids);
    }
  }

  lemma LaterLegacyRefusals(db: Tables, r: Request, ids: Ids)
    ensures VerdictLegacy(db, r, ids).Refused? ==>
              VerdictLegacy(db, r, ids).why !in {EmailRequired, SubjectRequired, NotAllowed}
  {
  }

  /** The name of a tenant created by the call. */
  function TenantName(a: Args): string
  {
    if a.name.Some? && Trim(Btrim, a.name.value) != "" then Trim(Btrim, a.name.value) else "Personal"
  }

  /** Every column an accepted call leaves in the rows it returns. A new user carries the trimmed address,
      the trimmed subject and an active status; a known one keeps its row, but for the address when that
      has changed. The tenant and the membership are new exactly when there were none, and a new tenant is
      the active personal tenant of the user under the given name, or "Personal" when that is blank; a new
      membership makes the user its active owner. */
  lemma AcceptedRows(db: Tables, a: Args, ids: Ids)
    requires Valid(db) && Fresh(db, ids) && Decide(db, a, ids).Accepted?
    ensures var o, d := Decide(db, a, ids), After(db, a, ids);
            && HasAddress(a) && HasSubject(a)
            && var email, subject := Trim(Btrim, a.email.value), Trim(Btrim, a.subject.value);
               && o.user in d.users && o.tenant in d.tenants && o.member in d.members
               && (o.user !in db.users ==> d.users[o.user] == User(email, Normalize(email), Some(subject), true))
               && (o.user in db.users ==>
                     && db.users[o.user].subject == Some(subject)
                     && d.users[o.user] ==
                          if db.users[o.user].norm == Normalize(a.email.value) then db.users[o.user]
                          else User(email, Normalize(email), Some(subject), db.users[o.user].active))
    ensures var o, d := Decide(db, a, ids), After(db, a, ids);
            && (o.created <==> o.tenant !in db.tenants)
            && (o.created <==>
                  forall t :: t in db.tenants ==> !(db.tenants[t].kind == Personal && db.tenants[t].owner == o.user))
            && (o.created ==> d.tenants[o.tenant] == Tenant(TenantName(a), Personal, o.user, true))
            && (!o.created ==> d.tenants[o.tenant] == db.tenants[o.tenant])
            && (o.member !in db.members ==> d.members[o.member] == Membership(o.user, o.tenant, Owner, true))
            && (o.member in db.members ==> d.members[o.member] == db.members[o.member])
  {
    VerdictIsLegal(db, Parse(a).req, ids);
    ProvisionFrame(db, a, ids);
    ParsedNorm(a);
    BlankIsEmpty(a.email.value);
    AddressRow(db, a, ids);
  }

  lemma AddressRow(db: Tables, a: Args, ids: Ids)
    requires Decide(db, a, ids).Accepted?
    ensures Parse(a).Good? && Parse(a).req.email == Trim(Btrim, a.email.value)
    ensures Parse(a).req.norm == Normalize(a.email.value) == Normalize(Trim(Btrim, a.email.value))
    ensures Parse(a).req.subject == Some(Trim(Btrim, a.subject.value)) && Parse(a).req.name == TenantName(a)
  {
    TrimIsBare(Btrim, a.email.value);
    TrimOfBare(Btrim, Trim(Btrim, a.email.value));
  }

  // ---- Migration 0003 --------------------------------------------------------------------

  /** Who 0003 takes an allowlisted request for: the user of its subject, or failing that of its address. */
  ghost predicate TakenFor(db: Tables, r: Request, u: Uuid)
  {
    && u in db.users
    && if r.subject.Some? && exists v :: v in db.users && db.users[v].subject == r.subject
       then db.users[u].subject == r.subject
       else db.users[u].norm == r.norm
  }

  /** The refusals of 0003 over the rows. */
  lemma LegacyRefusals(db: Tables, r: Request, ids: Ids)
    requires Valid(db)
    ensures var known := r.subject.Some? && exists u :: u in db.users && db.users[u].subject == r.subject;
            var verdict := VerdictLegacy(db, r, ids);
            && (verdict == Refused(EmailConflict) <==>
                  known && exists v :: v in db.users && db.users[v].norm == r.norm && db.users[v].subject != r.subject)
            && (verdict == Refused(SubjectConflict) <==>
                  !known && r.subject.Some? && exists v :: v in db.users && db.users[v].norm == r.norm
                                                           && db.users[v].subject.Some?)
            && (verdict == Refused(Disabled) <==>
                  && verdict != Refused(EmailConflict) && verdict != Refused(SubjectConflict)
                  && exists u :: TakenFor(db, r, u) && !db.users[u].active)
            && (verdict.Accepted? <==>
                  && verdict != Refused(EmailConflict) && verdict != Refused(SubjectConflict)
                  && forall u :: TakenFor(db, r, u) ==> db.users[u].active)
            && (verdict.Accepted? ==>
                  TakenFor(db, r, verdict.user) || (verdict.user == ids.user && forall u :: !TakenFor(db, r, u)))
  {
    var found := LegacyMatch(db.users, r);
    if found.Some? {
      assert TakenFor(db, r, found.value);
      assert forall u :: TakenFor(db, r, u) ==> u == found.value;
    }
  }

  /** What 0003 leaves of the user it accepts: an unbound row adopts the subject presented, and a call
      without a subject changes nothing. */
  lemma LegacyUserRow(db: Tables, r: Request, ids: Ids)
    requires Valid(db) && Fresh(db, ids) && VerdictLegacy(db, r, ids).Accepted?
    ensures var o := VerdictLegacy(db, r, ids); var d := PostLegacy(db, r, o);
            o.user in d.users && d.users[o.user] ==
              if o.user !in db.users then User(r.email, r.norm, r.subject, true)
              else if r.subject.None? then db.users[o.user]
              else if db.users[o.user].subject.None? then db.users[o.user].(subject := r.subject)
              else if db.users[o.user].norm == r.norm then db.users[o.user]
              else db.users[o.user].(email := r.email, norm := r.norm)
  {
  }

  // ---- infra/bind-subject.sql ----------------------------------------------------------------

  /** The outcome of the binding script over the rows, in the order of its checks. */
  lemma BindingIff(db: Tables, email: string, subject: string, u: Uuid)
    requires Valid(db)
    ensures var e, s := Normalize(email), Trim(Btrim, subject);
            var b := DecideBinding(db, email, subject);
            var taken := exists v :: v in db.users && db.users[v].subject == Some(s);
            var under := u in db.users && db.users[u].norm == e;
            && (b == NoEmail <==> Trim(Btrim, email) == "")
            && (b == NoSubject <==> Trim(Btrim, email) != "" && s == "")
            && (b == NoUser <==>
                  Trim(Btrim, email) != "" && s != "" && forall v :: v in db.users ==> db.users[v].norm != e)
            && (under && b == AlreadyBound ==> db.users[u].subject.Some?)
            && (under && Trim(Btrim, email) != "" && s != "" ==>
                  && (b == AlreadyBound <==> db.users[u].subject.Some?)
                  && (b == SubjectTaken <==> db.users[u].subject.None? && taken)
                  && (b == Bound(u) <==> db.users[u].subject.None? && !taken))
            && (b == Bound(u) ==> under)
  {
    BlankIsEmpty(email);
    if u in db.users && db.users[u].norm == Normalize(email) {
      assert ByEmail(db.users, Normalize(email)) == Some(u);
    }
  }

  /** The one field the script writes. */
  lemma BindingWrites(db: Tables, email: string, subject: string)
    requires Valid(db)
    ensures var b, d := DecideBinding(db, email, subject), AfterBinding(db, email, subject);
            && d.allow == db.allow && d.tenants == db.tenants && d.members == db.members
            && d.users.Keys == db.users.Keys
            && forall v :: v in db.users ==>
                 d.users[v] ==
                   if b == Bound(v) then db.users[v].(subject := Some(Trim(Btrim, subject))) else db.users[v]
  {
  }
}
