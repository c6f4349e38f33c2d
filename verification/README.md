# Tempus, verified

Tempus is a permit protocol. A gate holds registered keys, signed policies and a hash-linked event
stream per tenant; it decides signed action intents and issues permits. An executor consumes each
permit once, acts, and reports a signed outcome that the gate records. Anybody can later ask the gate
to verify a record from its tables alone. Beside the protocol stands a ledger of signed decisions.

This project models the hard pieces and proves what they are for:

| piece | modules |
|---|---|
| canonical JSON and its parser | `Json`, `Ordering`, `Canonical`, `Parser`, `ParserProofs`, `StoredTexts` |
| policies and exact amounts | `Policy`, `PolicyStore`, `PolicyService`, `Money`, `Decimal`, `Base64` |
| event streams and checkpoints | `EventStream`, `EventStore` |
| keys, delegation and lifecycle | `Identity`, `IdentityProofs`, `IdentityOps`, `LifecycleRaces` |
| the gate and its verifier | `Permits`, `PermitProofs`, `Gate`, `GateInv`, `GateRuns`, `GateResults`, `GateService` |
| many gate processes | `Stages`, `Interleaving`, `RevocationRaces`, `LateRecords` |
| runs that show what happens | `Deployment`, `Witnesses`, `RaceWitnesses` |
| the executor | `Executor`, `ExecutorRuns`, `ExecutorService` |
| the decision ledger | `Ledger` |

`Prelude`, `Names` and `Crypto` hold what all of them share. Statements use the total forms of `Prelude`
(`Entry`, `ItemAt`, `The`, `Good`) where they speak of a row, an item or an answer under a condition that
makes it there.

Each piece that works by changing tables appears twice: as functions on table values, about which the
theorems speak, and as a class whose methods take the source's steps, loops, early exits, transactions
and rollbacks, and are proved to answer and leave exactly what the functions say. `dafny verify
dfyconfig.toml` checks everything.

## How the system is modelled

* **Documents** are JSON values (`Json.Value`) whose numbers are integers. Tables hold the values;
  `ParserProofs` says when a stored text is the value again, and `StoredTexts` what that means for the
  texts a run stores.
* **Cryptography** is abstract (`Crypto`): a digest function with 64 hexadecimal characters, and
  signatures that verify when made by a key holder. No theorem assumes that digests never collide:
  where it matters, the theorem names the texts that must not (`CollisionFree`). Where it matters that
  a signature was not forged, the theorem says so of the one signature (`GateResults.Genuine`).
  The deployment assumptions are `Crypto.Honest`.
* **Clock.** In runs each gate call reads one instant, later than all before; in `Interleaving` each
  stage of a request or commit reads its own, and the tables some time after. The end of a key's window is
  exclusive (src/b2a.rs:548-549), so with equal instants a later rotation would reach into the past
  (`IdentityOps.EqualInstantBreaksHistory`).
* **Legal calls** (`GateRuns.Legal`). Arguments are arbitrary. A call is signed by a holder of a key; a
  rotation or revocation by a key that does not depend, through registrars and signers of lifecycle
  events, on the identity it ends (`DependsOn`); a revocation by a key whose scope covers the tenant.
  The source checks neither. `IdentityOps` proves that they are exactly what keeps the registry in
  order, and what happens without them.
* **Runs.** `GateRuns.Reached` are all sequences of calls from the empty database, each succeeding
  or failing. `Interleaving` takes requests and commits apart (src/b2a.rs:1203-1376 and 1666-1890): a
  process reads the clock, then the tables, stage by stage, and writes in one transaction, and any number
  of processes interleave these moves. A check of a key is one reading of the tables, or torn: the source
  reads each row and its events in statements of their own (src/b2a.rs:429-540), and when an end is written
  in between it finds no key (`LifecycleRaces.TornCheckFails`). A torn check of the agent goes on as for an
  unknown agent (`Interleaving.Move.Miss`); one of gate or executor ends the process. `ExecutorRuns` does the same for every read and
  write of the executor, the adapter, exception handlers, crashes and recovery.
* **Recursion.** `Identity.Grounded` says that some measure falls along every call of the mutual
  recursion that verifies keys (src/b2a.rs:344-584). The methods that verify keys ask for it, since the
  recursion ends for no other registry; there the functions that specify them answer `Unending`, which is
  no answer of the source.
* `Gate.Db.signed` and `Gate.Db.issued` are no tables: they record what gates have signed, so that
  theorems can speak of it.

## What the proofs found

* **A policy for `*` never takes effect.** Installing one retires the baseline, and the next lookup
  attests the retired baseline again (src/phase3.rs:173-215); every tenant without a policy of its own
  is refused from then on (`PolicyStore.WildcardNeverActive`).
* **A revocation out of scope poisons an identity.** `revoke_agent` does not check that the gate's scope
  covers the tenant; the event it records is then rejected by every later check of every key of the
  identity, past or present (`IdentityOps.OutOfScopeRevocationBreaksHistory`, and a run in
  `Witnesses.DelegateRevokesOutOfScope`).
* **Ending an identity one depends on makes verification run for ever.** A delegate may revoke or rotate
  the key that registered it, directly or further up; exactly then the recursion that verifies keys no
  longer ends (`IdentityOps.RevocationTerminates`, `RotationTerminates`, and a run in
  `Witnesses.DelegateRevokesRoot`).
* **A record may fail to verify when another process ends a key at the wrong moment.** A request reads
  the gate's key, the time of issue and the agent's key at three instants, a commit the executor's key
  and the time of completion at two, and a check torn by an end takes an active agent for an unknown one.
  `Interleaving.AuthorizationsVerifyExactly` and `ExecutionsVerifyExactly` say which records verify, and
  `RaceWitnesses` gives histories whose records do not.
* **Revocation is final for whole calls only.** A commit that has checked its permit consumes it although
  it is revoked meanwhile, and a permit whose agent was checked before a revocation and that is written
  after it escapes it; `RevocationRaces` says exactly when a permit ends up revoked and consumed, or
  consumed after a revocation.
* **Calls that change keys check first and write later.** Their transactions insert whatever the checks
  have prepared (src/b2a.rs:729-792, 1000-1062 and 1107-1160). Two rotations of a key at once leave its
  identity two active keys, or, if the one dated first writes last, lose the key with all that rests on it,
  since events are read in order of their instants; a revocation that meets a rotation leaves the identity
  alive; the later of two first registrations replaces the root, and every key before it is lost.
  `LifecycleRaces` says exactly when a late call keeps the keys in order, `LateRecords` which records still
  verify after it, and `Witnesses` gives the runs.
* **Documents nested 126 or 127 levels are accepted and then cannot be used.** The parser takes 127
  levels; what is stored around an intent, an outcome or metadata is one level deeper, and a trace
  parses it one level deeper still. So of every run's records those with at most 126 levels are read
  back, and those with at most 125 have a trace that verifies (`StoredTexts`, and runs for each depth in
  `Witnesses.DeepIntent`). The theorems of `GateRuns` speak of the documents themselves.
* **NUL in a field makes action ids ambiguous** (`GateResults.SharedIffNul`).
* **A genesis batch forced into a ledger without a genesis forks it** (`Ledger.ForcedGenesisForks`).
  Such a ledger is an edited one: by `Ledger.BuiltIsChain` the calls build none with rows and no
  genesis.
* **Base64** refuses the empty text its encoder writes for no bytes, and accepts padding anywhere
  (`Base64.DecodeEncode`, `Base64.StrayPaddingDecodes`).

## Model

| member | source | states |
|---|---|---|
| `GateRuns.EveryTraceVerifies` | src/b2a.rs:2072-2117 | After any legal run, for every authorization ever stored and at any later instant, the trace of its action, taken as documents, is verified without a fault, in the phase its rows say: blocked, completed, expired or authorized. (On the stored texts: `StoredTexts.EveryTraceTextVerifies`.) |
| `GateRuns.EveryRecordVerifies` | src/b2a.rs:1381-1629 | After any legal run, verifying any stored authorization, and any stored execution against its authorization, finds nothing wrong in the documents, whatever has been rotated or revoked since. (On the stored texts: `StoredTexts.StoredTextsReadBack`.) |
| `GateRuns.RecordsForever` | src/b2a.rs:1326-1376 | Whatever is called later, authorizations, outcomes and revocation marks once written are still there, unchanged. |
| `GateRuns.PastIdentitiesKept` | src/b2a.rs:344-584 | For a run p continued by any q, every key and every instant up to the end of p: being active then, with delegation right and tenant, verifies the same after p and after p + q; for a key registered in p the whole answer is the same. |
| `GateRuns.OneKeyAtATime` | src/b2a.rs:902-1065 | In every reached state each identity has a succession of keys, each starting when the one before it ended, versions rising by one, and at every instant exactly one of them is in its window from first registration until the end, and none outside. |
| `GateRuns.NeverRevokedAndConsumed` | src/b2a.rs:1134-1147 | In no reached state is an authorization both revoked and consumed. |
| `GateRuns.RevocationIsFinal` | src/b2a.rs:1067-1162 | If a call of `revoke_agent` for a key succeeds inside a run, every outcome any later call leaves for a permit of that key was there before the revocation. |
| `GateRuns.ReachedInOrder` | src/b2a.rs:36-118 | Every state a legal run reaches satisfies the whole invariant: keys vouched for, successions contiguous, policies attested, streams linked, indexes exact, documents clean, nothing revoked consumed. |
| `GateRuns.RunKeeps` | src/b2a.rs:590-1890 | From any state in order, any legal run ends in one, with the registry only evolved, records only added, and no permit of a revoked key consumed. |
| `GateRuns.StepKeeps` | src/b2a.rs:590-1890 | Each of the six calls, with arbitrary arguments, keeps the whole invariant and all that is recorded. |
| `GateRuns.SettledAfterRevocation` | src/b2a.rs:1134-1147 | A revocation leaves every permit of the key blocked, revoked, consumed or expired, and unsettles no other. |
| `GateRuns.NotRevoked` | src/b2a.rs:1666-1762 | A permit that passes all checks of a commit never belongs to a revoked key: it would have expired before the revocation or been revoked by it. |
| `GateRuns.RegisterKeepsInv` | src/b2a.rs:590-802 | Registering, failing or not, keeps the invariant and evolves the registry. |
| `GateRuns.RotateKeepsInv` | src/b2a.rs:902-1065 | Rotating keeps the invariant when the gate does not depend on the identity, which `IdentityOps.RotationKeepsExactly` shows to be exactly what a successful rotation needs; the source does not check it. |
| `GateRuns.RevokeKeepsInv` | src/b2a.rs:1067-1162 | Revoking keeps the invariant when the gate does not depend on the identity and its scope covers the tenant, which `IdentityOps.RevocationKeepsExactly` shows to be exactly what a successful revocation needs; the source checks neither. |
| `GateRuns.InstallKeepsInv` | src/phase3.rs:234-355 | Installing a policy, failing or not, keeps the invariant and touches neither keys nor permits. |
| `GateInv.RequestKeepsInv` | src/b2a.rs:1203-1379 | A request, failing or not, keeps the invariant. |
| `GateInv.BeginRequestKeeps` | src/b2a.rs:1203-1324 | The read phase of a request changes no more than policies and streams; the row it prepares verifies without fault, and allows only an agent active at that instant. |
| `GateInv.CommitKeepsInv` | src/b2a.rs:1666-1890 | A commit, failing or not, keeps the invariant. |
| `GateInv.BeginCommitKeeps` | src/b2a.rs:1666-1830 | The read phase of a commit changes no table; what it prepares verifies against its permit, which is allowed, unexpired, unrevoked and unconsumed. |
| `GateInv.PermitsKept` | src/b2a.rs:1381-1629 | Documents in order under a registry stay in order under any registry it evolves into. |
| `GateInv.FinishRequestKeepsPermits` | src/b2a.rs:1326-1376 | Writing an authorization in order keeps rows, indexes and streams in order, whatever happened since it was prepared. |
| `GateInv.FinishCommitKeepsPermits` | src/b2a.rs:1833-1887 | Writing an outcome in order keeps rows, indexes and streams in order, whatever happened since it was prepared. |
| `PermitProofs.FreshAuthorizationClean` | src/b2a.rs:1246-1324 | The document built for any decision, allowed or blocked for whatever reason, passes all of `verify_authorization` at once: every reason is reproducible. |
| `PermitProofs.AuthorizationStable` | src/b2a.rs:1381-1629 | `verify_authorization` answers the same under two registries that agree on who was active at the instant of issue. |
| `PermitProofs.ExecutionStable` | src/b2a.rs:1892-2034 | `verify_execution` answers the same under two registries that agree on who was active at completion. |
| `PermitProofs.EvolutionKeepsViews` | src/b2a.rs:423-584 | A registry and any it evolves into agree on every key at every instant up to the clock. |
| `PermitProofs.DecisionAgreesWithPolicy` | src/b2a.rs:1250-1282 | A decision follows the policy unless it gives a reason of identity or time, and an invalid signature is always blocked for that reason. |
| `GateInv.FreshExecutionClean` | src/b2a.rs:1764-1830 | The execution document built for an accepted outcome passes all of `verify_execution` at once. |
| `GateResults.AllowedExactly` | src/b2a.rs:1246-1282 | After any run, a new request the gate answers is allowed exactly when the agent signed the intent, its key is registered, active, at most 17 keys from the root and scoped to the tenant, the time of request is near, and the policy cited permits it; that policy is the one last installed for a tenant with one of its own. |
| `GateResults.VerifiedAllowedMeans` | src/b2a.rs:1381-1629 | Any document at all that verifies as allowed under its policy bundle speaks the truth about the past: gate and agent were active at issue, in scope, the agent signed that fresh intent, and the policy signed by the gate permits it. |
| `GateResults.VerifiedWasIssued` | src/b2a.rs:1381-1629 | Any document that verifies, states a decision and bears a genuine signature is one the gate signed in the run, for the very intent it carries. |
| `GateResults.VerifiedExecutionMeans` | src/b2a.rs:1892-2034 | Any execution that verifies names an executor who was active and in scope at completion, is no proposer and not the agent, and signed that outcome for that permit. |
| `Deployment.GateComesUp` | src/b2a.rs:640-770 | The one-call run that registers a configured gate under its own key is legal, and after it the gate is an active delegator and the baseline policy in place. |
| `Deployment.FirstRegistrationSucceeds` | src/b2a.rs:590-802 | That call succeeds on the empty database, whatever the alias, metadata and scope. |
| `Deployment.BaselineInstalls` | src/phase3.rs:173-232 | On empty tables ensuring the baseline installs it and publishes exactly one event. |
| `GateResults.RequestIdempotent` | src/b2a.rs:1203-1244 | After any run, a stored intent sent again, by whatever gate, with whatever signature and accepted time to live, at whatever time, is answered with the identical stored authorization, and no table changes. |
| `GateResults.OtherIntentRefused` | src/b2a.rs:1239-1243 | A different intent under the tenant, agent and idempotency key of a stored one is refused as a conflict, and no table changes. |
| `GateResults.SharedIffNul` | src/b2a.rs:319-327 | A tenant, agent and idempotency key share the text their action id hashes with another triple exactly when one of them contains a NUL. |
| `GateResults.ActionIdsDistinct` | src/b2a.rs:319-327 | NUL-free triples get one action id exactly when they are the same. |
| `Interleaving.OneRecordPerAction` | src/b2a.rs:52-77 | However any number of processes interleave their readings of the clock, their readings of the tables and their write transactions, with each other, with other calls, with torn checks and with crashes, each action has at most one authorization and one outcome, and each idempotency triple one authorization. |
| `Interleaving.StreamsUnbroken` | src/events.rs:55-118 | Under the same interleavings every event is numbered by its position, hashes to its digest and links to the digest before it. |
| `Interleaving.AuthorizationsVerifyExactly` | src/b2a.rs:1246-1324 | Under the same interleavings an authorization verifies exactly when the gate key did not end between the check of the gate and the time of issue and, if the agent signed the intent, the agent key neither became active nor ceased to be between the time of issue and the instant of its check or, if that check was torn by an end written between its reading of the row and of the events, was not active at the time of issue. |
| `Interleaving.ExecutionsVerifyExactly` | src/b2a.rs:1761-1830 | ... and an execution exactly when the executor key did not end between its check and the time of completion. |
| `Interleaving.MoveKeeps` | src/b2a.rs:1833-1887 | Each move of each process keeps the invariant, what all other processes hold, and what is written. |
| `RevocationRaces.RevokedAndConsumedExactly` | src/b2a.rs:1666-1887 | In a history of any moves a permit ends up both revoked and consumed exactly when the key of its agent is revoked while some process that has checked the permit holds on to its commit, and that process finishes it afterwards. |
| `RevocationRaces.ConsumedAfterRevocationExactly` | src/b2a.rs:1134-1147 | After a revocation of a key, a permit of that key is consumed exactly when at the revocation a process that has checked it is committing its outcome, or the permit rests on a check of the key whose clock was read before the revocation and is written after it. |
| `RaceWitnesses.RevokedAndConsumed` | src/b2a.rs:1693-1759 | Such a history from the empty database: three registrations, a request, a commit whose last stage is overtaken by a revocation; the permit is revoked and consumed. |
| `RaceWitnesses.StaleAuthorization` | src/b2a.rs:586-588 | A history whose authorization does not verify: the agent key is revoked between the time of issue and the reading of its state. |
| `RaceWitnesses.TornAuthorization` | src/b2a.rs:429-540 | Another: the agent key is revoked between the reading of its row and of its events, and the request of an active agent is recorded as blocked for an unregistered one. |
| `RaceWitnesses.LateExecution` | src/b2a.rs:1790-1805 | A history whose execution does not verify: the executor key is revoked between its check and the time of completion. |
| `Stages.RequestStages` | src/b2a.rs:1203-1324 | With nothing in between, the stages of a request are its read phase: the same answer, tables and draft. |
| `Stages.CommitStages` | src/b2a.rs:1666-1830 | ... and those of a commit are its. |
| `Stages.AuthorizationExactly` | src/b2a.rs:1381-1629 | When exactly an authorization made in stages verifies under any registry in order that came after. |
| `Stages.ExecutionExactly` | src/b2a.rs:1892-2034 | When exactly an execution made in stages does. |
| `Witnesses.ActionCompleted` | src/b2a.rs:1203-1890 | The run of five calls in which a root, an agent and an executor are registered, a request is allowed and its outcome committed is legal, and leaves exactly these records. |
| `RaceWitnesses.WorkHappens` | src/b2a.rs:1203-1890 | For a concrete deployment, whose digests are computed from the texts, that run exists without further assumptions ... |
| `RaceWitnesses.PermitsRace` | src/b2a.rs:1693-1759 | ... and so does the history that leaves a permit revoked and consumed ... |
| `RaceWitnesses.RegistrarRevoked` | src/b2a.rs:1067-1162 | ... and the run after which a delegate may revoke the root that registered it. |
| `IdentityProofs.VerifyClosed` | src/b2a.rs:423-584 | In a registry in order the recursive check of a key, from any visited set, is a closed form: registered, at most 17 keys to the root, inside its window. |
| `IdentityProofs.LifecycleEndClosed` | src/b2a.rs:344-412 | In a registry in order the loop over lifecycle events succeeds for every key and finds its first end. |
| `IdentityProofs.VerifyIsClosedForm` | src/b2a.rs:414-421 | The check of a key at an instant is that closed form. |
| `IdentityProofs.HistoryKept` | src/b2a.rs:414-584 | An evolution of the registry changes what no key verifies as at any instant up to the clock. |
| `IdentityProofs.AddKeepsRegistry` | src/b2a.rs:704-770 | Adding a vouched-for key keeps every key and lifecycle event of the registry verifiable. |
| `IdentityProofs.RetireKeepsRegistry` | src/b2a.rs:1107-1132 | Ending an active key by an event of an in-scope delegator that does not depend on the identity keeps every key and event verifiable. |
| `IdentityProofs.RetiringTerminates` | src/b2a.rs:344-412 | After an event is added and its key retired, the verification of keys ends exactly when it did before and the signer of the event does not depend on the identity. |
| `IdentityOps.RegistrationIsFresh` | src/b2a.rs:590-702 | A registration that passes its checks yields an authentic row, vouched for by an active delegator of its tenant or the first of all. |
| `IdentityOps.RotateKeepsRegistry` | src/b2a.rs:902-1065 | A successful rotation keeps the registry in order and only evolves it. |
| `IdentityOps.RevokeKeepsRegistry` | src/b2a.rs:1067-1162 | A successful revocation keeps the registry in order and only evolves it. |
| `IdentityOps.ActiveMeans` | src/b2a.rs:586-588 | After the clock a key verifies as active exactly when it is registered, at most 17 keys from the root, and neither rotated nor revoked. |
| `IdentityOps.OutOfScopeRevocationBreaksHistory` | src/b2a.rs:1067-1118 | After a successful revocation by a gate whose scope does not cover the tenant, every check of every key of that identity, at any instant, is an error: `revoke_agent` lacks the scope check `rotate_agent` has. |
| `Witnesses.DelegateRevokesOutOfScope` | src/b2a.rs:1067-1118 | A run of three registrations after which such a revocation succeeds, and breaks the key it ends. |
| `IdentityOps.RevocationTerminates` | src/b2a.rs:1067-1162 | After a successful revocation in a registry in order, the mutual recursion that verifies keys ends exactly when the gate does not depend, through registrars and signers of lifecycle events however far, on the identity it revoked a key of. |
| `IdentityOps.RotationTerminates` | src/b2a.rs:902-1065 | ... and the same after a successful rotation. |
| `IdentityOps.RotationKeepsExactly` | src/b2a.rs:902-1065 | A successful rotation keeps the registry in order exactly when the gate does not depend on the identity. |
| `IdentityOps.RevocationKeepsExactly` | src/b2a.rs:1067-1162 | A successful revocation does exactly when, besides, the scope of the gate covers the tenant. |
| `Witnesses.DelegateRevokesRoot` | src/b2a.rs:1067-1162 | A run of two registrations after which a delegate revokes the root that registered it: the call succeeds, and the verification of keys no longer ends. |
| `IdentityOps.EqualInstantBreaksHistory` | src/b2a.rs:548-550 | A key active at an instant and ended at that very instant verifies as inactive at it ever after: the end of a window is exclusive. |
| `IdentityOps.IndependentUntouched` | src/b2a.rs:344-584 | Ending a key changes the answer for no key that does not depend on its identity. |
| `LifecycleRaces.NothingBetween` | src/b2a.rs:590-1162 | With nothing between their checks and their transactions, the late forms of registration, rotation and revocation are the whole calls. |
| `LifecycleRaces.LateRotationKeepsExactly` | src/b2a.rs:1000-1062 | A rotation checked on the keys as they were, and written after any calls of others, keeps the keys in order exactly when the gate does not depend on the identity and had not ended by the instant of the rotation, and the rotated key either had ended by that instant or is active and has vouched for nothing since. Events are read in order of their instants (src/b2a.rs:349-352), not of their writing. |
| `LifecycleRaces.LateRevocationKeepsExactly` | src/b2a.rs:1107-1162 | A late revocation does exactly when, besides, the scope of the gate covers the tenant. |
| `LifecycleRaces.LateRotationLoses` | src/b2a.rs:402-408 | A late rotation dated before the end its key already has loses the key: the first event no longer agrees with the row, and the key verifies at no instant, past or future. |
| `LifecycleRaces.LateRevocationLoses` | src/b2a.rs:522-538 | ... and so does a late revocation. |
| `LifecycleRaces.TornCheckFails` | src/b2a.rs:429-540 | A check that reads the row of a key before the key is ended and its events afterwards finds the key at no instant. |
| `LifecycleRaces.LateRegistrationKeepsExactly` | src/b2a.rs:729-792 | A late registration does exactly when its registrar had not ended by its instant; a late first registration exactly when it is still the first. |
| `LifecycleRaces.LateRootDisplaces` | src/b2a.rs:756-765 | When two gates start on an empty database, the later first registration replaces the root, and no key registered before verifies any more, at any instant. |
| `LifecycleRaces.LateRotationForks` | src/b2a.rs:1006-1034 | A late rotation leaves its identity one succession of keys exactly when the rotated key is still active; the count of rows the update touches is not checked, so otherwise the identity has two last keys. |
| `LifecycleRaces.LateRevocationMisses` | src/b2a.rs:1112-1132 | A late revocation leaves its identity alive exactly when the key was rotated meanwhile to one still active. |
| `IdentityProofs.RetireKeeps` | src/b2a.rs:1107-1132 | Ending a key by an event of any instant, filed in the order of instants, keeps every key and event verifiable if the key had ended by then or, still active, has vouched for nothing since. |
| `LateRecords.AuthorizationUnder` | src/b2a.rs:1381-1629 | A recorded authorization verifies under any other keys in order that keep the rows exactly when its gate was active there at the time of issue and, if the agent signed, the agent was active there just when it was before. |
| `LateRecords.ExecutionUnder` | src/b2a.rs:1892-2034 | A recorded execution does exactly when its executor was active there at completion. |
| `LateRecords.LateRotationSpares` | src/b2a.rs:1000-1062 | After a late rotation that keeps the keys in order a recorded authorization verifies exactly when it was issued before the instant of the rotation, or rests neither on the ended key nor on the new key not yet being registered; an execution when it was completed before, or by another executor. |
| `LateRecords.LateRevocationSpares` | src/b2a.rs:1107-1162 | ... and likewise after a late revocation. |
| `LateRecords.RecordsLost` | src/b2a.rs:1381-2034 | Under keys of which one verifies at no instant, no authorization its gate signed verifies, no permit of it as agent, and no execution of it as executor. |
| `LateRecords.LateRegistrationSpares` | src/b2a.rs:729-792 | After a late registration that keeps the keys in order every execution verifies, and every authorization but those of the registered agent that it signed and that were issued since. |
| `Witnesses.TwoKeysAtATime` | src/b2a.rs:902-1065 | In a reached state two rotations of one key read the same keys and write one after the other: both succeed, the keys stay in order, and both new keys are active as one identity from then on. |
| `Witnesses.RevokedAndAlive` | src/b2a.rs:1067-1162 | In a reached state a revocation reads before a rotation of its key and writes after it: it succeeds, and the identity goes on with the new key. |
| `Witnesses.KeyLost` | src/b2a.rs:349-352 | In a reached state two rotations of one key read the same keys, and the one dated first writes last: both succeed, and the key, active before the second write, verifies at no instant any more. |
| `IdentityOps.ExactlyOneKeyValid` | src/b2a.rs:548-550 | Of the keys of an identity exactly one is inside its window from registration until the end, and none outside. |
| `IdentityOps.WindowsAscend` | src/b2a.rs:1010-1052 | The window of each key of an identity ends before that of any later key begins. |
| `IdentityOps.RotateKeepsSuccessions` | src/b2a.rs:902-1065 | A rotation appends the new key to the succession of its identity and leaves the others alone. |
| `GateService.GateStorage.LifecycleEndForKey` | src/b2a.rs:344-412 | The loop over lifecycle events, calling the check of each signer, finds the first end of a key or the first error, and terminates. |
| `GateService.GateStorage.VerifyAgentStateAtInner` | src/b2a.rs:423-584 | The check of a key, mutually recursive with the loop, refines the specification and terminates by the level of the key under any measure that falls along every call. |
| `GateService.GateStorage.ConfiguredGate` | src/b2a.rs:329-342 | The gate key is an active delegator, or the call is refused. |
| `GateService.GateStorage.CheckRegistration` | src/b2a.rs:596-702 | The checks of `register_agent` in their order, and the row to insert. |
| `GateService.GateStorage.RegisterAgent` | src/b2a.rs:590-802 | The transaction leaves exactly the specified state: key, root and baseline policy for the first key, one published event; or, on any failure, the state before. |
| `GateService.GateStorage.RotateAgent` | src/b2a.rs:902-1065 | The transaction retires a key, installs its successor and records the event, or changes nothing. |
| `GateService.GateStorage.RevokeAgent` | src/b2a.rs:1067-1162 | The transaction retires a key, records the event and revokes its unused permits, or changes nothing. |
| `GateService.GateStorage.InstallPolicy` | src/phase3.rs:234-355 | The call installs a policy in the specified state, or reports why not. |
| `GateService.GateStorage.RequestActionSigned` | src/b2a.rs:1203-1379 | The call answers and leaves exactly what the specification says, the decision taken by the chain of checks. |
| `GateService.GateStorage.PrepareAuthorization` | src/b2a.rs:1203-1244 | The read phase answers a stored intent, refuses a conflict, or decides. |
| `GateService.GateStorage.DecideIntent` | src/b2a.rs:1246-1324 | The decision: signature, registration, scope, age, skew and policy, in that order. |
| `GateService.GateStorage.WriteAuthorization` | src/b2a.rs:1326-1376 | The write transaction inserts under the three UNIQUE constraints and publishes, or rolls back. |
| `GateService.GateStorage.CommitOutcomeSigned` | src/b2a.rs:1666-1890 | The call answers and leaves exactly what the specification says. |
| `GateService.GateStorage.RefusePermit` | src/b2a.rs:1671-1715 | The checks on the permit, first failure first. |
| `GateService.GateStorage.RefuseExecutor` | src/b2a.rs:1761-1802 | The checks on the executor, first failure first. |
| `GateService.GateStorage.PrepareOutcome` | src/b2a.rs:1717-1759 | The read phase answers a stored outcome, refuses another, or accepts one. |
| `GateService.GateStorage.WriteOutcome` | src/b2a.rs:1833-1887 | The write transaction inserts under the UNIQUE constraints and publishes, or rolls back. |
| `GateService.GateStorage.VerifyAuthorizationResult` | src/b2a.rs:1381-1629 | The verifier pushes exactly the specified faults, in order, with its early returns. |
| `GateService.GateStorage.VerifyExecutionResult` | src/b2a.rs:1892-2034 | The verifier pushes exactly the specified faults, in order, with its early returns. |
| `GateService.GateStorage.TraceAction` | src/b2a.rs:2072-2117 | The trace report: faults of both verifiers and the phase. |
| `EventStream.RunComplete` | src/events.rs:121-253 | For every checkpoint any run has made, the first `limit` events of the stream as it is now verify against it exactly when that export holds as many events as the checkpoint signed. |
| `EventStream.RunAcceptsRecorded` | src/events.rs:256-526 | Whatever array a checkpoint of a run accepts is the very prefix of the stream recorded when it was signed. |
| `EventStream.RunCheckpointsAgree` | src/events.rs:121-182 | Of two checkpoints of a tenant the later has the larger sequence number, and what it accepts extends what the earlier accepts. |
| `EventStream.RunKeepsInv` | src/events.rs:55-221 | After any run every stream is linked and every checkpoint signs a prefix of it. |
| `GateResults.StreamsAppendOnly` | src/events.rs:55-118 | Whatever the gate is asked later, every tenant keeps every event of its stream in its place. |
| `GateResults.CheckpointHoldsForever` | src/events.rs:121-253 | A checkpoint signed after a run p of the gate accepts an export of the stream after p + q exactly when the export holds as many events as the stream did after p. |
| `EventStream.CheckpointSound` | src/events.rs:256-526 | Two arrays accepted against one checkpoint, by whatever trusted keys, are equal as JSON values, as far as the texts hashed do not collide. |
| `EventStream.ClaimedDigestsInjective` | src/events.rs:150-175 | Concatenated digests of 64 characters decode in one way. |
| `EventStream.CheckpointComplete` | src/events.rs:256-526 | A checkpoint over the first n events accepts the first `limit` events of any extension exactly when min(limit, length) is n. |
| `EventStream.AcceptedIsRecorded` | src/events.rs:256-526 | What a checkpoint accepts is what had been recorded when it was signed. |
| `EventStream.RecordKeepsStreams` | src/events.rs:55-118 | Recording an event keeps every tenant's stream numbered, linked and without repeated ids, and adds one event to one of them. |
| `EventStream.VerifyPrefix` | src/events.rs:380-526 | On a recorded prefix the verification loop gives the one verdict its length and root call for. |
| `EventStore.EventTables.RecordEvent` | src/events.rs:55-118 | The append computes the specified row or changes nothing. |
| `EventStore.EventTables.CreateCheckpoint` | src/events.rs:121-221 | The loop with its running hash signs the checkpoint over the whole stream, or changes nothing. |
| `EventStore.EventTables.ExportEventStream` | src/events.rs:224-253 | The query gives at most `limit` events from a sequence number on. |
| `EventStore.VerifyCheckpointStream` | src/events.rs:256-526 | The checks before the loop, each with its early exit, refine the specification. |
| `EventStore.VerifyChain` | src/events.rs:380-526 | The loop updating sequence, previous digest, count and hash, with its four early exits, refines the recursive scan. |
| `GateResults.IssuedPermitConsumed` | src/executor.rs:295-464 | A permit any run of the gate has stored is consumed exactly when it is allowed, for the executor's tenant, from its gate, under a policy that lets the executor act, not expired, not objected to by the gate's database if there is one, and neither its authorization nor its action was started before. |
| `GateResults.AcceptedWasIssued` | src/executor.rs:295-392 | Whatever document an executor accepts carries a body the gate signed in the run, for an allowed decision, and the very intent that was decided on. |
| `GateResults.OutcomeAccepted` | src/executor.rs:466-512 | The outcome an executor signs passes the gate's checks of form and signature. |
| `GateResults.StoredChecked` | src/executor.rs:295-440 | The executor's checks and the gate's historical verifier agree on every clean document. |
| `ExecutorRuns.AtMostOnce` | python/tempus_ddb/executor_runtime.py:88-158 | Over every interleaving of runtimes on one database, with failing reads and writes, crashes, handlers and recovery, the adapter runs at most once per authorization and at most once per action. |
| `ExecutorRuns.EffectAfterStart` | python/tempus_ddb/executor_runtime.py:88-124 | When the adapter runs, its permit was accepted and its row is in the table already. |
| `ExecutorRuns.EffectWasIssued` | python/tempus_ddb/executor_runtime.py:88-124 | What the adapter runs for was signed by the gate, as allowed, for that very intent. |
| `ExecutorRuns.RowsFinal` | src/executor.rs:136-177 | Between any two moments of any run a row is unchanged or has passed once from started to a final status; it holds an outcome exactly when that is success or failure; no two rows share an action. |
| `ExecutorService.RuntimeIsRun` | python/tempus_ddb/executor_runtime.py:88-158 | One runtime alone, from permit to answer, is a run of that machine: the table it leaves is the machine's, and the adapter ran once if it supports the action. |
| `ExecutorService.ExecutionEnds` | python/tempus_ddb/executor_runtime.py:103-158 | A started execution ends in the status the adapter's behaviour calls for, with an outcome exactly when it succeeded or failed, and no other row changes. |
| `ExecutorRuns.StepKeeps` | src/executor.rs:109-177 | Each step of each process keeps the invariant of rows, processes and effects. |
| `ExecutorService.ExecutorStorage.StartConsumption` | src/executor.rs:109-134 | The insert succeeds exactly when neither authorization nor action is there, and then adds one started row. |
| `ExecutorService.ExecutorStorage.CompleteConsumption` | src/executor.rs:136-161 | The update completes a started row, or fails and changes nothing. |
| `ExecutorService.ExecutorStorage.MarkUnknown` | src/executor.rs:163-177 | The update gives up a started row, or fails and changes nothing. |
| `ExecutorService.ExecutorStorage.ListStartedBefore` | src/executor.rs:202-228 | The listing is exactly the started rows up to the cutoff, each once, earliest start first. |
| `ExecutorService.MediatedExecutor.VerifyAndConsumePermit` | src/executor.rs:295-464 | A permit is checked and its consumption started, or nothing changes. |
| `ExecutorService.MediatedExecutor.CompleteExecution` | src/executor.rs:466-512 | A started execution is completed with its signed outcome, or nothing changes. |
| `ExecutorService.MediatedExecutor.GiveUp` | src/executor.rs:514-530 | A started execution is marked unknown, or nothing changes. |
| `ExecutorService.MediatedExecutor.RecoverIncomplete` | src/executor.rs:532-548 | Alone on its database the loop gives up exactly the executions started before the cutoff, in order, each with its signed observation, changes no other row and never stops half way. |
| `ExecutorService.ExecutorRuntime.ExecutePermit` | python/tempus_ddb/executor_runtime.py:88-158 | A refused permit changes nothing; for an accepted one the adapter runs once on its intent if it supports the action, the table ends as specified, and the answer is what the row says. |
| `ParserProofs.CanonicalInjective` | src/b2a.rs:127-171 | Two JSON values with one canonical text are one value. |
| `ParserProofs.CanonicalTextParses` | src/b2a.rs:173-178 | Parsing canonical text gives the value back, exactly for values of at most 127 nested levels. |
| `ParserProofs.CompactTextParses` | src/b2a.rs:173-178 | A compact text with members in any order parses to its meaning, exactly when it is at most 127 levels deep. |
| `ParserProofs.MemberOrderIrrelevant` | src/b2a.rs:148-149 | Permuting the members of an object changes neither the value nor what parsing gives. |
| `ParserProofs.NumberReadsBack` | src/b2a.rs:131-131 | A number before a delimiter or the end reads back exactly. |
| `ParserProofs.StringReadsBack` | src/b2a.rs:132-135 | An escaped string reads back exactly, for every character. |
| `Canonical.Canonicalize` | src/b2a.rs:167-171 | The text built by pushing into one buffer is the canonical text. |
| `Canonical.WriteCanonical` | src/b2a.rs:127-165 | The recursion appends exactly the canonical text to the buffer. |
| `Ordering.CollectSorted` | src/b2a.rs:148-149 | Collecting and sorting the keys of an object gives each once, in ascending order. |
| `StoredTexts.StoredTextsReadBack` | src/b2a.rs:1317-1376 | In every state a run reaches, a stored authorization is read back exactly when the intent of the caller is at most 126 levels deep, a stored execution when the outcome is, a registration, rotated or not, when the metadata is; lifecycle events and policy bundles always are. |
| `StoredTexts.EveryTraceTextVerifies` | src/b2a.rs:2072-2117 | The trace of every recorded action, built and parsed as texts, verifies exactly when its intent and outcome are at most 125 levels deep, where the registrations are read back. |
| `Witnesses.DeepIntent` | src/b2a.rs:1203-1376 | For an intent of any depth up to 127 the run that submits it: the gate parses, decides and records it; it reads the record back exactly up to 126 levels and verifies its trace exactly up to 125. |
| `StoredTexts.RegistrationReadsBack` | src/b2a.rs:705-727 | What is stored for a registration is read back exactly when its metadata is nested at most 126 levels: one less than the registration was accepted with. |
| `Policy.TighteningOnlyBlocks` | src/phase3.rs:580-647 | A bundle with no wider patterns and no greater limits never allows an intent the looser one blocks. |
| `Policy.AllowsMeans` | src/phase3.rs:580-647 | An evaluation allows exactly the intents that respect every limit of a bundle that verifies. |
| `Policy.CoversExactly` | src/phase3.rs:710-718 | One pattern matches all another matches exactly when they are equal or the first is a star pattern with a shorter stem. |
| `GateResults.PolicyInForce` | src/phase3.rs:357-469 | In every reached state no tenant has two unretired bundles, and for a tenant that ever had one the policy found is the bundle last installed for it. |
| `GateResults.ActiveIsLast` | src/phase3.rs:357-469 | A lookup for such a tenant succeeds exactly when the baseline is or can be installed and the last bundle was signed by this gate, and then finds that bundle. |
| `PolicyStore.ActiveIsLastInstalled` | src/phase3.rs:357-417 | With the baseline in place the lookup finds the last bundle, or fails for another signer. |
| `PolicyStore.WildcardNeverActive` | src/phase3.rs:173-215 | A tenant without a policy of its own is served the baseline or nothing: a policy installed for `*` retires the baseline and is never found. |
| `PolicyStore.InstallKeepsStore` | src/phase3.rs:234-355 | Installing keeps versions distinct, one unretired bundle per tenant, and each tenant's attestation on its last bundle. |
| `PolicyStore.LookupKeepsStore` | src/phase3.rs:357-469 | Looking up keeps the same. |
| `PolicyService.PolicyTables.InstallPolicy` | src/phase3.rs:234-355 | The transaction retires, inserts, attests and publishes, or changes nothing; the same bundle again is answered with the stored one. |
| `PolicyService.PolicyTables.EnsureDefaultPolicy` | src/phase3.rs:173-232 | The baseline is installed if missing and attested if not, with the changes an error leaves behind. |
| `PolicyService.PolicyTables.FindActivePolicy` | src/phase3.rs:357-469 | The lookup: the tenant's own attestation, a refusal if its policy was retired, then the baseline. |
| `Money.ParsesExactly` | src/phase3.rs:774-798 | The parser returns n exactly for one or more digits, optionally a point and at most two digits, that denote n hundredths, and n at most 2^64 - 1. |
| `Money.FormatParses` | src/phase3.rs:774-798 | Every 64-bit amount written with two fraction digits parses to itself. |
| `Base64.DecodeEncode` | src/phase3.rs:1106-1166 | Decoding an encoding gives the bytes back exactly when there are any, and an encoding of n bytes has 4·ceil(n/3) characters. |
| `Base64.ChunkHoldsBits` | src/phase3.rs:1109-1125 | The four characters of a chunk hold its 24 bits as four groups of six, with padding exactly for missing bytes (section 4 of RFC 4648). |
| `Base64.StrayPaddingDecodes` | src/phase3.rs:1140-1160 | Padding is accepted anywhere: `=AAA`, which no encoder writes, decodes. |
| `Base64.Base64Encode` | src/phase3.rs:1106-1128 | The loop over chunks of three computes the encoding. |
| `Base64.Base64Decode` | src/phase3.rs:1130-1166 | The filter and the loop over chunks of four compute the decoding, or refuse. |
| `Ledger.AcceptedIsTree` | src/lib.rs:306-521 | A non-empty ledger the validator accepts is one tree: one genesis, every decision reaches it by parent links, every such way has exactly `causal_depth` steps, and time never runs backwards along it. |
| `Ledger.BuiltIsChain` | src/lib.rs:682-868 | Under a clock that never goes back, whatever inserts and batches succeed or fail, the ledger is a single chain of depths 0..n-1, and the validator accepts it. |
| `Ledger.BatchIsFold` | src/lib.rs:768-868 | A batch succeeds exactly when inserting its decisions one by one does, with the same ledger, unless a genesis is forced into a ledger that has rows and no genesis. |
| `Ledger.ForcedGenesisForks` | src/lib.rs:786-820 | In that case the two differ: the batch grows from its own genesis, the single inserts from the deepest row. |
| `Ledger.InsertKeepsChain` | src/lib.rs:682-766 | An insert extends a chain by exactly one sealed decision. |
| `Ledger.PathToGenesis` | src/lib.rs:442-476 | Every decision of a ledger without faults has a way up to a genesis, in as many steps as its depth says, on which no decision is later than the one below. |
| `Ledger.DecisionLedger.InsertDecision` | src/lib.rs:682-766 | The insert appends the specified decision or changes nothing. |
| `Ledger.DecisionLedger.InsertDecisionBatch` | src/lib.rs:768-868 | The loop carrying parent and depth appends all decisions, or rolls all of them back. |
| `Ledger.DecisionLedger.ValidateLedger` | src/lib.rs:306-521 | The loops filling the map, the counts, the error list and the warnings over the rows read by depth and time give exactly the specified report. |
| `Ledger.InOrderPermutes` | src/lib.rs:307-311 | The rows are read once each, in ascending order of depth and time. |
| `Ledger.OrderIrrelevant` | src/lib.rs:306-521 | The order of reading decides the order of the faults, and not whether there are any. |

## Left out

- GateRuns.EveryRecordVerifies: speaks of documents as values, and so does GateRuns.EveryTraceVerifies; what a run stores as texts is read back under the conditions of `StoredTexts.StoredTextsReadBack`.
- StoredTexts.EveryTraceTextVerifies: reads the registrations of keys as documents; a key registered with metadata of 127 levels has a registration the source cannot read back, and is then no longer verified.
- GateRuns.RevocationIsFinal: is about runs of whole calls; `RevocationRaces` says exactly when it fails under interleaving.
- GateRuns.PastIdentitiesKept: asks of rotations and revocations that the gate does not depend on the identity and is in scope; `IdentityOps` shows both to be necessary.
- Interleaving.AuthorizationsVerifyExactly: splits requests and commits only, as does all of `Interleaving`; registrations, rotations, revocations and installations are single moves there. `LifecycleRaces` and `LateRecords` speak of one late call at a time, written onto keys in order.
- Stages.RequestStages: takes the lookup of the policy in force, with the baseline installed or attested on the way, for one reading; the source does it in several statements of their own (src/phase3.rs:173-232 and 357-469).
- Stages.CommitStages: takes the check of a permit and its expiry for one reading; the source reads the permit and its revocation first and the clock after (src/b2a.rs:1671-1715), so what passes there passes here at the earlier instant.
- LifecycleRaces.LateRotationLoses: goes one way; that the key is not lost otherwise follows from LifecycleRaces.LateRotationKeepsExactly where the keys stay in order.
- Ledger.ForcedGenesisForks: needs a ledger edited directly, with rows and no genesis; the calls reach none.
- GateResults.AcceptedWasIssued: assumes that the presented signature is genuine and that the texts compared do not collide, since SHA-256 and Ed25519 are abstract.
- GateService.GateStorage.LifecycleEndForKey: requires a registry on which the recursion ends (`Grounded`); on any other the source's calls do not return.
- GateService.GateStorage.VerifyAgentStateAtInner: requires it likewise, and so does every method that checks a key.
- IdentityOps.RevocationTerminates: says that no measure into the natural numbers falls along every call; a stack overflow is not modelled.
- ExecutorService.MediatedExecutor.RecoverIncomplete: is about recovery alone on its database; with others at work it may stop half way, which `ExecutorRuns` covers.
- Base64.Base64Decode: works on characters; a character outside ASCII is refused here as its bytes are there.
- Floating-point JSON numbers, and with them the check for fractional amounts in an intent's input.
- Receipts from before policy bundles: the verifier's branch for a missing bundle is modelled, issuing such receipts is not.
- Column ranges beyond event and checkpoint numbers and ledger depths: instants past 2^63 microseconds cannot be stored by SQLite, and the checkpoint's event counter is 32 bits wide in the source.
- The order of SQLite rows that tie on every column of an ORDER BY, here that of insertion, and the order in which warnings about actors are listed.
- The convenience calls that build and sign an intent or outcome locally (`request_action`, `commit_outcome`), listings, `get_agent`, exports of the ledger: they add no state of their own.
- Error messages; a failed call answers with its kind of error.
- SQL text, schema migrations, connection pools, WAL settings and I/O failures of the gate's database; Vault signing, key files and key generation; command lines, bindings, the MCP server, WASM and the adapters, of which only the behaviour towards the runtime is modelled.
