# Vespers identity and tenant protocol: a Dafny model

This project models the identity and tenant core of the Vespers backend and proves what it promises:
subject-first provisioning (sequentially and with unboundedly many interleaved calls), tenant
isolation of arbitrary programs and of interleaved sessions, per-request authorization, the in-process rate
limiter, and the request budget of the capped live transport.

Check it with `dafny verify dfyconfig.toml`.

## How the code is modelled

| file | what it holds |
|---|---|
| `Text.dfy` | SQL `lower(btrim(..))` and Python `.strip().lower()` as two different functions, exactly what each makes equal, and exactly when they agree |
| `Directory.dfy` | the four tables of migration 0002, their keys, and the exact-key lookups |
| `Provisioning.dfy` | decision tables and post-states of `provision_personal_identity` in 0004 and 0003, and of `bind-subject.sql` |
| `Database.dfy` | class `Database`: the three transactions statement by statement, mutating the tables and rolling back on a raise, each proved against its decision table |
| `ProvisioningLaws.dfy` | laws of one call: acceptance, refusals, frame, idempotence, 0004 against 0003, binding |
| `ProvisioningRows.dfy` | the same calls spelled out in rows and fields: early refusals, every column written, the older version, the binding script |
| `Concurrency.dfy` | the interleaving relation: calls with program counter, PL/pgSQL variables, row locks and uncommitted rows; administrator steps; who waits for whom |
| `ConcurrencyInvariant.dfy` | the invariant, one statement at a time |
| `ConcurrencyAllowlist.dfy` | the allowlist over runs: checked once, and exactly when a committed address is still allowed |
| `ConcurrencyTheorems.dfy` | agreement of committed calls, grants at commit, serializability, history of bindings, no deadlock, progress |
| `ConcurrencyRefusals.dfy` | which refusals of an interleaved call are justified, and what must have happened when one is not |
| `ConcurrencyRuns.dfy` | runs that exist: every sequential answer is a run, and the races |
| `ConcurrencySteps.dfy` | what the administrator's steps and a crash do, row by row |
| `RowSecurity.dfy` | the row-level security policies and the repository statements under them |
| `TenantScope.dfy` | `tenant_scope`, transactions and savepoints as session transitions; programs as a datatype with a semantics |
| `TenantIsolation.dfy` | isolation of arbitrary programs, and non-interference of units run one after another |
| `TenantTraces.dfy` | any number of sessions over shared committed tables, interleaved statement by statement; non-interference of arbitrary traces |
| `TenantPrograms.dfy` | every program is such a trace, alone and next to others |
| `SessionModel.dfy` | classes `AsyncSession` and `TenantRepository` with their invariant, and the execution of any program on them |
| `Account.dfy`, `AccountLaws.dfy` | `find_user`, `list_memberships`, `authorize_local_access`, `require_account`, `provision_account`, `describe`, and how they agree |
| `RateLimit.dfy` | class `FixedWindowLimiter` and its runs |
| `Transport.dfy` | class `BoundedTransport`, the aliased count dictionary, chains of resumed runs |

SQL NULL arguments are `None`. Rows are identified by natural numbers that inserts draw fresh. Every
PL/pgSQL statement of 0004 lines 86-177 is one step of `Concurrency`; the caller's COMMIT is a step of
its own.

### Assumptions

- PostgreSQL at READ COMMITTED: a statement is atomic, reads the committed tables and its own call's
  writes, and runs once nothing it needs is held; row locks and uncommitted rows are held to the end of
  their transaction; a duplicate on a key that is not the ON CONFLICT arbiter aborts with 23505; any
  call may abort at any time. Where PostgreSQL would make an administrator wait in more cases than the
  model does, the model allows more runs, and the theorems hold for those too.
- An administrator statement, and the whole of `bind-subject.sql`, is one step.
- SQLAlchemy and PostgreSQL sessions: the assumptions are listed at the top of `TenantScope.dfy`, and
  those about sessions that run next to each other at the top of `TenantTraces.dfy`.
- The runtime role uses only the granted functions, the policed reads and the column-limited rename.
- The limiter's clock does not run backwards between two checks.

### Where the code does less than its words

- Two calls for one subject are meant to converge (0004 lines 134-136, backend/api/account.py:242-244).
  They do not always: a call that has found its subject without a row, and then reads the address after
  a twin has committed, takes its own subject's row for somebody else's and is refused with "external
  subject conflict" (0004 lines 113-126). `ConcurrencyRefusals.RefusalSoundness` says exactly which
  refusals are those of the whole call and that any other is such a race,
  `ConcurrencyRefusals.ConflictOverOwnRow` that asking again then reaches the twin's account, and
  `ConcurrencyRuns.TwinRefused` gives the run on every database on which the request opens an account.
- A call can also end in 23505, which `_translate` hands on and the route answers as unavailable:
  `ConcurrencyRefusals.UniqueViolationMeans` says what the decision is then, and
  `ConcurrencyRuns.InsertRacesToDuplicate` and `ConcurrencyRuns.MoveRacesToDuplicate` give the runs, one
  for the insert and one for the move of an address.
- 0004 lines 133-145 can report "subject binding required" for an address that no unbound row carries:
  exactly when no row carries it at all any more (`ConcurrencyRefusals.BindingRequiredIffUnbound`), in a
  run that `ConcurrencyRuns.SpuriousBindingRequired` gives.
- The allowlist is checked on every call, but no lock is taken on its row. A committed address is allowed
  at its commit if and only if it was not withdrawn for good since the check
  (`ConcurrencyAllowlist.CommitAllowedIff`); `ConcurrencyRuns.LateWithdrawal` gives the run in which it
  is not. For the same reason committed calls are serializable without the check in every run, and with
  it in every run without such a withdrawal (`ConcurrencyTheorems.Serializable`). And the request right
  after a commit is authorized if and only if there was no such withdrawal
  (`AccountLaws.CommitThenAuthorize`).
- The limiter is documented as a fixed window. The code keeps a sliding log, and its wholesale clear
  makes it forget admissions. It never clears if and only if at most `max_keys` keys are active in each
  window (`RateLimit.NeverClearsIffFewKeys`), and then it is the naive limiter
  (`RateLimit.AgreesWithHistory`); every clear lets some key through too often
  (`RateLimit.ClearingForgets`), and every setting has a run that clears (`RateLimit.CrowdIsCleared`).
- A stored address with a tab or newline at its border normalizes differently in Python and in SQL. The
  operator's report then does not find the account (`AccountLaws.ReportFindsAccount`). Report and request
  agree on every database with a bound account under an address if and only if the address has no such
  border (`AccountLaws.ReportAgreesIff`); under every address that has one they disagree on some database
  (`AccountLaws.ReportDisagrees`).
- Between making the setting and recording the binding, and between dropping the binding and clearing the
  setting, `tenant_scope` passes through a moment in which the two differ. Both moments are observed in
  the model, they are the only ones, and no repository call is answered at either
  (`TenantIsolation.Isolation`, `TenantIsolation.Torn`).
- Deleting a repository call of one tenant can change what another is shown, in one way: a call that
  begins its session's transaction lets a following `tenant_scope` find a transaction open. Deleting a
  call is harmless to the other tenant under every continuation if and only if it does not begin its
  session's transaction (`TenantTraces.HarmlessIff`; `TenantTraces.BeginningShows` is the continuation
  that tells, `TenantTraces.PlainDeletionInterferes` a whole trace). `TenantTraces.NonInterference`
  therefore leaves an empty statement behind for such a call, and for no other.

## Model

| member | source | states |
|---|---|---|
| Text.NormalizeTwice | migrations/versions/0002_tenant_foundations.py:198-205 | normalizing a normalized address changes nothing, so the allowlist lookup of `v_email` is a lookup of exactly that value |
| Text.SqlKeepsPyNormalized | backend/identity/service.py:31-32 | SQL normalization leaves every Python-normalized address as it is |
| Text.NormalizationsAgree | backend/identity/service.py:28-32 | Python and SQL normalization agree on an address if and only if no non-space white space borders it under its plain spaces |
| Text.NormalizeIff | migrations/versions/0002_tenant_foundations.py:198-205 | two addresses have one normal form in SQL if and only if they agree, up to ASCII case, without the plain spaces around them; the normal form has no capital |
| Text.PyNormalizeIff | backend/identity/service.py:28-32 | the same in Python, without all white space around them |
| Text.TrimTakesBlanks | backend/identity/service.py:28-32 | either trim takes all its blanks off both ends and nothing else |
| Directory.ResolvesIff | migrations/versions/0002_tenant_foundations.py:243-261 | a membership resolves if and only if it links the two and membership, user and tenant are all active |
| DatabaseModel.Database.ResolveUser | migrations/versions/0004_require_verified_subject.py:91-155 | the user phase: finds the subject's row and moves its address, or inserts, or refuses, as the decision table says |
| DatabaseModel.Database.UpsertPersonalTenant | migrations/versions/0004_require_verified_subject.py:157-161 | returns the owner's one personal tenant, inserting it exactly when there is none, and reports which |
| DatabaseModel.Database.UpsertOwner | migrations/versions/0004_require_verified_subject.py:169-173 | returns the one membership of the pair, inserting it exactly when there is none |
| DatabaseModel.Database.ProvisionBody | migrations/versions/0004_require_verified_subject.py:50-184 | the statements of 0004 compute the declarative decision for every valid database; an acceptance leaves exactly its tables |
| DatabaseModel.Database.Provision | migrations/versions/0004_require_verified_subject.py:14-27 | the call in its transaction: same decision, and a refusal leaves every table as before although writes precede the last checks |
| DatabaseModel.Database.ResolveUserLegacy | migrations/versions/0003_identity_binding_and_default_grants.py:76-147 | the user phase of 0003, adoption of an unbound row included |
| DatabaseModel.Database.ProvisionLegacyBody | migrations/versions/0003_identity_binding_and_default_grants.py:64-164 | the statements of 0003 compute their decision table |
| DatabaseModel.Database.ProvisionLegacy | migrations/versions/0003_identity_binding_and_default_grants.py:42-166 | the 0003 call in its transaction, with rollback on refusal |
| DatabaseModel.Database.BindSubject | infra/bind-subject.sql:20-53 | the binding script decides and writes exactly as tabulated, and writes one subject at most |
| ProvisioningLaws.VerdictIffAcceptable | migrations/versions/0004_require_verified_subject.py:91-177 | an allowlisted request is accepted if and only if nobody else holds its address and nothing the subject owns is disabled |
| ProvisioningLaws.DecideIff | migrations/versions/0004_require_verified_subject.py:73-179 | the whole call is accepted if and only if address and subject are non-blank, the address is allowlisted, and the request is acceptable |
| ProvisioningLaws.RefusalMeaning | migrations/versions/0004_require_verified_subject.py:101-155 | exactly when each refusal is given, stated without the order of the checks |
| ProvisioningLaws.VerdictIsLegal | migrations/versions/0004_require_verified_subject.py:91-177 | an accepted decision names only rows it may name: own or fresh, active, and free of competing keys |
| ProvisioningLaws.LegalIsVerdict | migrations/versions/0004_require_verified_subject.py:91-177 | conversely, a legal outcome is the one the decision table gives |
| ProvisioningLaws.LegalKeepsValid | migrations/versions/0002_tenant_foundations.py:93-170 | writing a legal outcome keeps all unique keys and foreign keys, and grants user, tenant and membership |
| ProvisioningLaws.ProvisionKeepsValid | migrations/versions/0004_require_verified_subject.py:157-179 | any call keeps all constraints; an accepted one is granted and `resolve_membership` finds its membership |
| ProvisioningLaws.ProvisionKeepsGenerated | migrations/versions/0002_tenant_foundations.py:73-78 | `email_normalized` stays the normal form of `email` under both versions |
| ProvisioningLaws.ProvisionFrame | migrations/versions/0004_require_verified_subject.py:100-177 | atomicity and frame: refusals change nothing; acceptances add at most one row per table, delete nothing, touch no row of another subject |
| ProvisioningLaws.Idempotent | migrations/versions/0004_require_verified_subject.py:157-179 | repeating an accepted call returns the same triple with created = false and changes no table |
| ProvisioningLaws.OnlyAllowlistedAddresses | migrations/versions/0004_require_verified_subject.py:83-108 | every address a call writes is on the allowlist that call read, and an accepted subject ends under the presented address |
| ProvisioningLaws.RestrictsLegacy | migrations/versions/0004_require_verified_subject.py:11-27 | 0004 accepts only what 0003 accepts, with the same result and tables, and refuses an accepted 0003 call exactly for a blank subject, an unbound row, or a disabled tenant or membership |
| ProvisioningLaws.BindingKeepsValid | infra/bind-subject.sql:38-49 | the script keeps all keys, binds only an unbound row, touches no other, and the subject then resolves to it |
| ProvisioningLaws.BindingOpensAccount | infra/bind-subject.sql:7-14 | before the script the address is refused as needing a binding; after it the subject is accepted, as that row, if and only if neither the row nor its tenant or membership is disabled |
| ProvisioningRows.EarlyRefusals | migrations/versions/0004_require_verified_subject.py:73-88 | a blank address, then a blank subject, then an address off the allowlist: exactly when each is refused |
| ProvisioningRows.EarlyLegacyRefusals | migrations/versions/0003_identity_binding_and_default_grants.py:64-75 | the same in 0003, which asks for no subject |
| ProvisioningRows.AcceptedRows | migrations/versions/0004_require_verified_subject.py:100-173 | every column an accepted call leaves in the rows it returns, the name of a new tenant and the owner role included, and exactly when a tenant is created |
| ProvisioningRows.LegacyRefusals | migrations/versions/0003_identity_binding_and_default_grants.py:76-147 | exactly when 0003 accepts and gives each refusal, over the rows |
| ProvisioningRows.LegacyUserRow | migrations/versions/0003_identity_binding_and_default_grants.py:76-147 | every column 0003 leaves in the user row, adoption of an unbound row included |
| ProvisioningRows.BindingIff | infra/bind-subject.sql:33-49 | exactly when the script binds a row and gives each refusal, over the rows and in its order |
| ProvisioningRows.BindingWrites | infra/bind-subject.sql:49-49 | the script writes the trimmed subject of the one row it binds, and nothing else |
| ConcurrencyInvariant.AdvanceKeepsCall | migrations/versions/0004_require_verified_subject.py:86-177 | each statement of a call keeps what is known about that call |
| ConcurrencyInvariant.AdvanceKeepsPair | migrations/versions/0004_require_verified_subject.py:91-173 | a statement that did not have to wait never collides with the locks or uncommitted keys of another call |
| ConcurrencyInvariant.CommitIsLegal | migrations/versions/0004_require_verified_subject.py:128-179 | at its commit a call holds a legal outcome, and its uncommitted rows are exactly what the decision table writes |
| ConcurrencyInvariant.CommitKeepsOther | migrations/versions/0004_require_verified_subject.py:91-177 | the commit of one call invalidates nothing another call in flight has established |
| ConcurrencyInvariant.EnvKeepsCall | infra/bind-subject.sql:38-49 | no administrator step, the binding script included, invalidates what a call in flight has established |
| ConcurrencyInvariant.ApplyKeepsInv | migrations/versions/0004_require_verified_subject.py:86-177 | every action of the interleaved system keeps the invariant |
| ConcurrencyInvariant.RunKeepsInv | migrations/versions/0004_require_verified_subject.py:86-177 | the invariant holds in every state of every run |
| ConcurrencyTheorems.Convergence | migrations/versions/0004_require_verified_subject.py:91-173 | any two calls that commit for one subject return the same user, tenant and membership, and at most one reports created; a twin that is refused instead is the subject of RefusalSoundness and ConflictOverOwnRow |
| ConcurrencyTheorems.CommitGrants | migrations/versions/0004_require_verified_subject.py:133-177 | at its commit a call's user carries the presented subject, all three rows are active, and `resolve_membership` finds the membership |
| ConcurrencyTheorems.CommitRefines | migrations/versions/0004_require_verified_subject.py:91-179 | a commit is the sequential decision on the tables committed at that instant, with exactly its post-state and frame |
| ConcurrencyTheorems.Serializable | migrations/versions/0004_require_verified_subject.py:83-179 | every interleaving leaves the tables of running its committed calls one after another in commit order: without their allowlist check in every run, and whole, check included, in every run in which no committed address was withdrawn between check and commit |
| ConcurrencyTheorems.CommitAnswersIff | migrations/versions/0004_require_verified_subject.py:83-179 | a commit returns the answer of the whole call, check included, on the tables of that instant if and only if its address was not withdrawn for good since the check |
| ConcurrencyAllowlist.AllowedWhenChecked | migrations/versions/0004_require_verified_subject.py:83-88 | every call past its check found its address allowed at that check, in an earlier state of the run |
| ConcurrencyAllowlist.AllowedUnlessWithdrawn | migrations/versions/0004_require_verified_subject.py:83-88 | an address allowed in one state is allowed in a later one if and only if it was not withdrawn in between and left unrestored |
| ConcurrencyAllowlist.CommitAllowedIff | migrations/versions/0004_require_verified_subject.py:83-88 | a committed address was allowed at the one check of its call, and is allowed at the commit if and only if it was not withdrawn for good since |
| ConcurrencyAllowlist.RevocationRace | migrations/versions/0004_require_verified_subject.py:83-88 | from every reached state with a call about to commit, its address can be withdrawn and the call then still commits |
| ConcurrencyRuns.LateWithdrawal | migrations/versions/0004_require_verified_subject.py:83-88 | for every accepted call there is a run that reaches its commit, withdraws its address and commits it |
| ConcurrencyAllowlist.RunKeepsNormal | migrations/versions/0002_tenant_foundations.py:73-78 | requests stay normalized and the generated column stays correct throughout every run |
| ConcurrencyTheorems.RunEvolves | migrations/versions/0004_require_verified_subject.py:97-151 | over any run no row, bound subject, tenant kind or owner, or membership link is ever undone |
| ConcurrencyTheorems.BoundForever | infra/bind-subject.sql:16-17 | a bound subject resolves to the same user id, and an owner to the same personal tenant, in every later state |
| ConcurrencyTheorems.ApplyKeepsUnbound | migrations/versions/0004_require_verified_subject.py:110-126 | a provisioning step leaves an unbound row entirely alone, any other step but its binding changes only its status |
| ConcurrencyTheorems.UnboundUntilBound | migrations/versions/0004_require_verified_subject.py:19-24 | an unbound row keeps its address and stays unbound through every run in which the script does not bind it |
| ConcurrencyTheorems.SettledNeverWaits | migrations/versions/0004_require_verified_subject.py:157-173 | a call past its own user write never waits again |
| ConcurrencyTheorems.WaitRaisesRank | migrations/versions/0004_require_verified_subject.py:91-141 | whoever is waited for is in flight and strictly further on; a wait on an address or subject key is for a call past its own user write, and a call that waits for its first row holds nothing |
| ConcurrencyTheorems.NoDeadlock | migrations/versions/0004_require_verified_subject.py:91-173 | a chain of waiting calls has at most two links and is never a cycle |
| ConcurrencyTheorems.Progress | migrations/versions/0004_require_verified_subject.py:86-177 | while a call is in flight some call can take a statement at once, and is then closer to its end |
| ConcurrencyRefusals.RefusalIffJustified | migrations/versions/0004_require_verified_subject.py:91-177 | a statement refuses with the decision of the whole call on the tables of that instant if and only if the refusal is justified: always, except at the first reading of the address when the subject has a row by now, and at the second when the address has none, or has somebody else's while the subject has one |
| ConcurrencyRefusals.UniqueViolationMeans | migrations/versions/0004_require_verified_subject.py:106-131 | 23505 is never that decision: at the move of the address the decision is the email conflict, at the insert the subject has got its row meanwhile |
| ConcurrencyRefusals.RefusalSoundness | migrations/versions/0004_require_verified_subject.py:91-177 | the same over every run, and an unjustified refusal is always a race: since this call looked for its subject a twin has committed or the subject was bound, or since its insert the row in its way has moved to another address |
| ConcurrencyRefusals.ViolationIsARace | migrations/versions/0004_require_verified_subject.py:106-131 | 23505 at the insert likewise means that the subject has got its row since this call looked for it |
| ConcurrencyRefusals.ConflictOverOwnRow | migrations/versions/0004_require_verified_subject.py:113-136 | a call refused over a row of its own subject was overtaken by a twin, and asking again reaches that very account unless something is disabled |
| ConcurrencyRefusals.BindingRequiredIffUnbound | migrations/versions/0004_require_verified_subject.py:133-145 | over every run, a missing binding is reported without an unbound row under the address if and only if the address has no row at all at the second reading, and then its row has been moved away since the insert |
| ConcurrencyRuns.SoloRun | migrations/versions/0004_require_verified_subject.py:50-184 | every answer of the sequential function, acceptance and refusal alike, is that of a run: a call with nobody else active ends as decided and leaves the decided tables |
| ConcurrencyRuns.TwinRefused | backend/api/account.py:242-244 | on every database on which a request opens an account, two identical calls have a run in which one is refused with a subject conflict although asked again it gets the account |
| ConcurrencyRuns.InsertRacesToDuplicate | migrations/versions/0004_require_verified_subject.py:128-131 | on every database on which two requests of one subject under two addresses each open an account, a run in which one opens it and the insert of the other ends in 23505 |
| ConcurrencyRuns.MoveRacesToDuplicate | migrations/versions/0004_require_verified_subject.py:98-107 | on every database on which a known subject moves to a free address, a run in which that address is taken after the test and the move ends in 23505 |
| ConcurrencyRuns.SpuriousBindingRequired | migrations/versions/0004_require_verified_subject.py:133-145 | a run in which a call is told a binding is required though no row carries its address, on every database on which two subjects may open an account under one address and the second may move on |
| ConcurrencySteps.StatusStepsWrite | migrations/versions/0002_tenant_foundations.py:73-175 | enabling, disabling and renaming write one column of one row and nothing else |
| ConcurrencySteps.InsertStepsWrite | migrations/versions/0002_tenant_foundations.py:73-175 | the administrator's inserts add one active row: a user without a subject, a team tenant, a membership |
| ConcurrencySteps.OtherStepsWrite | infra/bind-subject.sql:20-53 | the allowlist gains or loses one normal form, the script does what it decides, and a crash ends its call, gives up its locks and leaves the tables alone |
| RowSecurity.ReadsOnlyOwnRows | migrations/versions/0002_tenant_foundations.py:330-366 | under a tenant setting every repository read is determined by that tenant's rows alone |
| RowSecurity.WritesOnlyOwnRow | migrations/versions/0002_tenant_foundations.py:337-344 | the unfiltered rename changes only the row of the tenant set |
| RowSecurity.ListsExactlyActive | backend/identity/repository.py:68-75 | the rows `list_members` lists are exactly the active memberships of the current tenant |
| RowSecurity.MemberFields | backend/identity/repository.py:68-75 | field by field: a record is listed if and only if an active membership of the tenant has its user, role and active status and the user's address is its address; without a setting nothing is |
| RowSecurity.TenantFields | backend/identity/repository.py:43-50 | field by field: `get_tenant` returns the columns of the set tenant's row, exactly when it is there |
| RowSecurity.RenameFields | backend/identity/repository.py:52-66 | the rename writes the name of the set tenant, exactly when it is there and active, and no other column or row, and reports this |
| TenantIsolation.OpIsConfined | backend/identity/repository.py:43-75 | one repository statement in a coherent session is confined to the bound tenant |
| TenantIsolation.Isolation | backend/storage/tenant_context.py:45-78 | every program leaves binding and nesting as found; at every session observed on the way the setting is empty or equal to the bound tenant unless the transaction failed, except exactly at the two torn moments inside entering and leaving, where no repository call is answered; every repository call is confined to its enclosing scope in what it shows and changes |
| TenantIsolation.OutsideSeesNothing | backend/storage/tenant_context.py:68-78 | outside every scope a repository call, also through a kept object, is shown nothing and leaves the tables as it found them |
| TenantIsolation.RefusedSwitch | backend/storage/tenant_context.py:59-64 | in every program and at every depth an attempt to switch tenant is no more than an exception: replacing it by one changes neither session nor observations |
| TenantIsolation.ScopeSeesItsTenant | backend/storage/tenant_context.py:81-87 | a fresh tenant transaction shows exactly its tenant's row |
| TenantIsolation.UnitKeeps | backend/storage/tenant_context.py:81-87 | a tenant transaction leaves the tables its body has led to if the body neither threw nor left the transaction failed, and otherwise the tables it began with |
| TenantIsolation.RenameStands | backend/identity/repository.py:52-66 | after a committed rename the tenant has the stripped name and everything else is as before; a missing or disabled tenant is left alone and a blank name raises |
| TenantIsolation.EndsOfTransaction | backend/storage/tenant_context.py:23-25 | outside blocks a commit keeps the writes unless the transaction has failed, a rollback goes back to where it began, and both discard the setting |
| TenantIsolation.EndsInsideBlock | backend/storage/tenant_context.py:81-87 | a commit or rollback inside a block stands, and no statement runs until the block is left |
| TenantIsolation.SavepointKeeps | backend/storage/tenant_context.py:68-78 | a savepoint block keeps what its body did, or takes tables and setting back and raises |
| TenantIsolation.FailurePoisons | backend/storage/tenant_context.py:72-78 | after a failed statement every call, savepoint and scope raises and changes nothing until a rollback |
| TenantIsolation.EntersIff | backend/storage/tenant_context.py:54-66 | a scope is entered if and only if a transaction is open and the same tenant is bound, or none is and the setting can be made |
| TenantIsolation.ReentryIsTransparent | backend/storage/tenant_context.py:59-64 | re-entering the scope of the bound tenant runs the body as if it stood outside |
| TenantIsolation.ScopeSetsAndClears | backend/storage/tenant_context.py:66-78 | inside an opened scope the setting is its tenant's, and after it there is none |
| TenantIsolation.DependsOnlyOnOwnRows | backend/identity/repository.py:43-75 | bound to a tenant, a program behaves and shows the same on any two databases that agree on that tenant |
| TenantIsolation.LeavesOthersAlone | backend/identity/repository.py:52-66 | bound to a tenant, a program leaves every other tenant's rows as they were, committed or rolled back |
| TenantIsolation.SerialNonInterference | backend/storage/tenant_context.py:81-87 | deleting all units of other tenants from a sequence of tenant transactions changes nothing shown to a tenant's clients |
| TenantTraces.RunKeepsSound | backend/storage/tenant_context.py:45-78 | every statement, in whatever order statements come, keeps a session's setting empty or equal to the innermost scope's tenant unless the transaction failed |
| TenantTraces.CallIsConfined | backend/identity/repository.py:43-75 | whatever all sessions have done, an answered call shows rows of the caller's innermost scope or nothing, and writes at most that tenant's name |
| TenantTraces.CommitPublishes | backend/storage/tenant_context.py:23-25 | a commit publishes exactly the names its session has written, and a failed transaction or a rollback publishes nothing |
| TenantTraces.LocksExclude | backend/identity/repository.py:61-66 | over every executable trace no tenant row has uncommitted names of two sessions |
| TenantTraces.UpsertWrites | migrations/versions/0004_require_verified_subject.py:128-173 | rows inserted or updated by others replace the committed rows of the same ids and nothing else |
| TenantTraces.NonInterference | backend/identity/repository.py:43-75 | deleting from an arbitrary interleaving of sessions every repository call made outside the scopes of a tenant leaves an executable trace in which every other statement ends as before and every call under that tenant gets the same reply |
| TenantTraces.HarmlessIff | backend/storage/tenant_context.py:54-57 | in every system whose sessions keep the invariant, deleting one repository call of another tenant leaves every continuation executable with the same replies under a tenant if and only if the call does not begin its session's transaction |
| TenantTraces.BeginningShows | backend/storage/tenant_context.py:54-57 | for every call that does begin it: a continuation whose last call is given the tenant's row after the call and nothing without it |
| TenantTraces.SameContinuation | backend/identity/repository.py:43-75 | systems that differ only in other tenants' names show a tenant the same over every continuation |
| TenantTraces.PlainDeletion | backend/identity/repository.py:43-75 | where no deleted call begins its session's transaction, all calls of other tenants can be deleted from a trace without leaving anything behind |
| TenantTraces.PlainDeletionInterferes | backend/storage/tenant_context.py:54-57 | a trace in which deleting such a call without leaving an empty statement has the next scope refused and the next call shown nothing |
| TenantPrograms.ProgramsAreTraces | backend/storage/tenant_context.py:45-87 | every program, while nobody else moves, ends where its statements lead one session of the interleaved system, with the same replies |
| TenantPrograms.StatementRaisesAlike | backend/storage/tenant_context.py:45-78 | a single statement raises in the interleaved system exactly when it does in the program |
| TenantPrograms.CallRaisesAlike | backend/identity/repository.py:43-75 | a repository call is answered in the system exactly when it does not raise in the program |
| TenantPrograms.EnteringRaisesAlike | backend/storage/tenant_context.py:54-67 | entering raises in the system exactly when the program executes no more of the scope or block, which then raises |
| TenantPrograms.LeavingRaisesAlike | backend/storage/tenant_context.py:68-87 | leaving raises in the system exactly when the whole scope or block does in the program |
| TenantPrograms.ScriptIgnoresTables | backend/storage/tenant_context.py:45-78 | what a program executes, whether it raises, and where it leaves the session does not depend on what the tables hold |
| TenantPrograms.InterleavedProgram | backend/storage/tenant_context.py:45-87 | in any interleaving with others, a fresh session that has executed a program's statements is out of all scopes and blocks and stands, but for its tables, where the program ends alone |
| TenantPrograms.UnitIsATrace | backend/storage/tenant_context.py:81-87 | a tenant transaction on a fresh session leaves the same committed tables and replies either way |
| SessionModel.AsyncSession.Apply | backend/storage/tenant_context.py:35-36 | sets the transaction-local setting, or raises and changes nothing |
| SessionModel.AsyncSession.EnterScope | backend/storage/tenant_context.py:54-67 | entering a scope: refuse, re-enter, or set and then bind, observed in between; the class invariant survives |
| SessionModel.AsyncSession.LeaveScope | backend/storage/tenant_context.py:68-78 | leaving an opened scope unbinds and then clears, observed in between; leaving a re-entered one does nothing; the class invariant survives |
| SessionModel.AsyncSession.EndTransaction | backend/storage/tenant_context.py:24-25 | commit and rollback both discard the setting; a failed transaction keeps no writes |
| SessionModel.NewRepository | backend/identity/repository.py:38-41 | a repository is refused exactly when no scope is active |
| SessionModel.TenantRepository.GetTenant | backend/identity/repository.py:43-50 | the read of the current tenant in place on the session |
| SessionModel.TenantRepository.RenameTenant | backend/identity/repository.py:52-66 | the rename in place: blank names raise before any statement, the result tells whether a row was hit |
| SessionModel.TenantRepository.ListMembers | backend/identity/repository.py:68-75 | the member listing in place on the session |
| SessionModel.Execute | backend/storage/tenant_context.py:45-78 | any program executed on the objects ends in the state, with the exception and the observations of the semantics; invariant, binding and nesting survive and every observation is good |
| SessionModel.RunTenantTransaction | backend/storage/tenant_context.py:81-87 | a tenant transaction with any body, on objects of its own, leaves every other tenant's rows as they were and is confined to its tenant |
| Account.ListExists | migrations/versions/0003_identity_binding_and_default_grants.py:174-191 | a listing of the usable rows, each once and personal tenants first, exists for every user |
| Account.FirstFor | backend/api/account.py:193-199 | the first entry for a tenant, and none only if no entry is for it |
| Account.Describe | backend/identity/access_check.py:28-56 | the report names each denial reason exactly when its condition holds, with the lines in order |
| AccountLaws.ListMatchesResolve | migrations/versions/0003_identity_binding_and_default_grants.py:174-191 | `list_memberships` has exactly one entry per tenant where `resolve_membership` finds a row, and that row |
| AccountLaws.RequestedTenantIffResolved | backend/api/account.py:190-200 | `require_account` honours a requested tenant exactly when it resolves, with that membership |
| AccountLaws.AuthorizeIff | backend/api/account.py:152-176 | a request is authorized if and only if its subject has an active user under an allowed address with some resolving tenant |
| AccountLaws.DenialsIff | backend/api/account.py:161-176 | every denial as an equivalence over the rows, in order: unknown subject, disabled user, address off the allowlist, no active membership; and `require_account` is denied for the same reason |
| AccountLaws.EntryFields | migrations/versions/0003_identity_binding_and_default_grants.py:174-191 | column by column: an entry is listed if and only if it is made of an active membership of the active user in an active tenant |
| AccountLaws.DefaultIsPersonal | backend/api/account.py:190-191 | without a requested tenant the account is in a listed tenant, and in a personal one whenever a personal tenant resolves |
| AccountLaws.FindUserIff | migrations/versions/0002_tenant_foundations.py:226-240 | a given subject is looked up alone; the address, in its Python form, only without one |
| AccountLaws.FirstSignInRows | backend/api/account.py:238-244 | what the first sign-in of a new subject leaves, column by column: the profile's address, the stripped subject, the tenant "Personal" and its owner |
| AccountLaws.RouteReplies | backend/api/account.py:238-286 | the reply of the provisioning route: missing subject, refusal, or the denial found afterwards, in this order, or else the provisioned tenant if it is listed |
| AccountLaws.ProvisionThenAuthorize | backend/api/account.py:238-286 | an accepted provisioning call that runs alone is followed by successful authorization of the same user, and the route reports exactly the provisioned tenant |
| AccountLaws.CommitThenAuthorize | backend/api/account.py:238-286 | among interleaved calls: right after a commit under a stripped address the subject is authorized, for the committed user and membership, if and only if the address was not withdrawn for good since the call's check; otherwise the answer is that it is not allowlisted |
| AccountLaws.NextRequestIffStripped | backend/auth/tokens.py:141-149 | the next request finds the account if and only if the subject arrives stripped, as token validation delivers it |
| AccountLaws.ReportedAccessIsReal | backend/api/account.py:271-286 | whatever happens in between, a reported success is access the next request grants; another tenant is reported only when the provisioned one no longer resolves |
| AccountLaws.ReadAccountSeesTenant | backend/api/account.py:203-224 | the scope opened for the resolved membership shows that tenant, under the name and kind already listed |
| AccountLaws.ReportFindsAccount | backend/identity/access_check.py:38-41 | the report on a stored address finds its account if and only if the address has no non-space white border |
| AccountLaws.ReportAgrees | backend/identity/access_check.py:10-14 | the report is empty exactly when the request is granted, and otherwise contains the request's label |
| AccountLaws.ReportDisagrees | backend/identity/access_check.py:33-41 | for every address with such a border, a database with an account under it on which the report permits and the request is refused |
| AccountLaws.ReportAgreesIff | backend/identity/access_check.py:10-14 | report and request agree on every database with a bound account under an address if and only if the address has no such border |
| AccountLaws.ReportedEntry | backend/api/account.py:271-286 | from the tables the second transaction reads: a reported entry is the one the next request grants for its tenant, and the provisioned tenant is reported whenever it resolves |
| AccountLaws.ReportPredictsFirstSignIn | backend/identity/access_check.py:38-41 | for an address without account, an empty report means a first call by an unseen subject is accepted and creates the account |
| RateLimit.FixedWindowLimiter.constructor | backend/auth/ratelimit.py:17-22 | starts empty, with a limit of at least one |
| RateLimit.FixedWindowLimiter.Check | backend/auth/ratelimit.py:24-41 | the in-place check computes the two-stage eviction, the pruning and the decision |
| RateLimit.CheckStages | backend/auth/ratelimit.py:28-41 | stage by stage over the stored queues: which keys stay, when nothing does, and what becomes of the asked key |
| RateLimit.Tracks | backend/auth/ratelimit.py:27-41 | a key's queue is its admission history since the last clear without expired entries, and any limit + 1 admissions span a window |
| RateLimit.StateBounds | backend/auth/ratelimit.py:18-41 | stored queues are non-empty, ascending and at most `limit` long, and at most `max_keys` + 1 keys are stored |
| RateLimit.AtMostLimitPerWindow | backend/auth/ratelimit.py:27-41 | between two wholesale clears no key is admitted more than `limit` times in any interval one window long |
| RateLimit.ClearsIffCrowded | backend/auth/ratelimit.py:28-34 | while nothing has been forgotten the clear branch is taken if and only if more than `max_keys` keys are active in the trailing window |
| RateLimit.NeverClearsIffFewKeys | backend/auth/ratelimit.py:28-34 | over a whole run: it never clears if and only if at most `max_keys` keys are active in each trailing window, and then its memory is the unbounded one |
| RateLimit.AgreesWithHistory | backend/auth/ratelimit.py:24-41 | then every decision is the naive rule over the full history |
| RateLimit.ClearingForgets | backend/auth/ratelimit.py:33-41 | after the first clear of any run some key, repeated within one instant, is admitted where the naive rule refuses |
| RateLimit.CrowdIsCleared | backend/auth/ratelimit.py:28-34 | for every limit, window and `max_keys`: one attempt on each of `max_keys` + 1 keys, and the next attempt clears |
| RateLimit.ForgetsAtEverySetting | backend/auth/ratelimit.py:24-41 | so every setting has a run that ends in an admission the naive rule refuses |
| Transport.BoundedTransport.Handle | backend/agent/live_spike.py:36-68 | a request is handed on exactly when its kind is approved and under its cap, and is counted before it is sent |
| Transport.HandedIff | backend/agent/live_spike.py:38-67 | which requests are handed on, over provider, host, verb, path, body and counts, with every name and number spelled out |
| Transport.Resume | backend/agent/live_spike.py:134-139 | a resumed transport starts from the recorded counts and shares one dictionary with the report |
| Transport.DriveProvider | backend/agent/live_spike.py:236-245 | whatever requests arrive, the report has counted exactly those handed on; a passed provider is skipped |
| Transport.DriveChain | backend/agent/live_spike.py:225-246 | a chain of processes, each over a report loaded from the previous one |
| Transport.RunBudget | backend/agent/live_spike.py:65-68 | in one run, counts grow by exactly the requests handed on and stay under the caps |
| Transport.ChainBudget | backend/agent/live_spike.py:33-67 | over any chain, requests handed on equal the recorded count and are at most 6 generations, 2 discoveries and 1 search |

## Left out

- Token validation, the WorkOS profile request, FastAPI wiring, logging and the dashboard: the verified subject and the profile address are inputs.
- The 0002 version of provisioning, downgrades, roles, grants and default privileges.
- Timestamps, the values of generated uuids, and case folding outside ASCII.
- Waits inside one statement (re-evaluation of a row after a lock wait, speculative insertion): a statement is atomic.
- `bind-subject.sql` interleaved with itself: it is one step, taken when its row and subject are free.
- Rows deleted by an administrator: provisioning, binding and administration only insert and update.
- The order of names in `list_memberships` and of addresses in `list_members`, which depends on the collation; listings are personal tenants first, members are a set.
- Database.ProvisionLegacy: version 0003 is modelled for a single caller only.
- `_translate` and the HTTP status codes: a fixed table of labels.
- provision_account: its two transactions are values (the outcome of the first, the tables of the second), not one method.
- The text of the report lines and the exit codes of the report command.
- Clock readings that run backwards between threads in the limiter; its only call site runs on the event loop.
- Token usage records, response size checks and provider results in the live runner: they change no count.
- DBOS and agent probes, settings validation and search result normalization, which would add only simple guard chains.
