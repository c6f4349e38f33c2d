/** What late registrations, rotations and revocations make of the records: which authorizations and
    executions still verify. */
module LateRecords {
  import opened Prelude
  import opened Names
  import opened Json
  import opened Crypto
  import opened Policy
  import opened Identity
  import opened IdentityProofs
  import opened Permits
  import opened PermitProofs
  import opened Gate
  import opened GateInv
  import opened Stages
  import opened LifecycleRaces
  import opened GateResults
  import Canonical

  // ---- What a record rests on ----

  /** The gate that issued an authorization. */
  function GateIn(json: Value): string {
    BodyOfPermit(json).GetStr(GATE_ID).GetOr("")
  }

  /** The agent has signed the intent. */
  predicate AgentSigned(c: Crypto, row: AuthorizationRow) {
    c.verifies(row.agentId, TextBytes(Canonical.Text(row.json.Get(INTENT).GetOr(Null))), row.json.GetStr(AGENT_SIGNATURE).GetOr(""))
  }

  /** The executor of an execution. */
  function ExecutorIn(json: Value): string {
    json.Get(RECEIPT).GetOr(Null).Without({RECEIPT_ID, GATE_SIGNATURE}).GetStr(EXECUTOR_ID).GetOr("")
  }

  // ---- Verification under changed keys ----

  /** Of everything checked of a receipt, the keys decide only the trust in the gate and the decision. */
  lemma ReceiptUnder(c: Crypto, reg: Registry, reg': Registry, result: Value, body: Value, id: string, signature: string, fields: IntentFields)
    requires Grounded(reg) && Grounded(reg') && VerifyReceipt(c, reg, result, body, id, signature) == []
    requires result.Get(INTENT).Some? && ValidateIntent(The(result.Get(INTENT)), body.GetStr(AGENT_ID).GetOr("")) == Some(fields)
    ensures var at, intent := body.U64At(ISSUED_AT), The(result.Get(INTENT));
      var signed := c.verifies(body.GetStr(AGENT_ID).GetOr(""), TextBytes(Canonical.Text(intent)), result.GetStr(AGENT_SIGNATURE).GetOr(""));
      var ttlSeconds := TtlSeconds(at, body.U64At(EXPIRES_AT));
      var gateId := body.GetStr(GATE_ID).GetOr("");
      && GateFaults(c, reg, gateId, at) == []
      && DecisionFaults(c, reg, body, result.Get(POLICY_BUNDLE), intent, fields, signed, at, ttlSeconds) == []
      && (VerifyReceipt(c, reg', result, body, id, signature) == [] <==>
            && GateFaults(c, reg', gateId, at) == []
            && DecisionFaults(c, reg', body, result.Get(POLICY_BUNDLE), intent, fields, signed, at, ttlSeconds) == [])
  {
    hide Grounded, GateFaults, BundleFaults, DecisionFaults, DigestJson, ValidateIntent, EvaluationFaults, Canonical.Text, ListsReason,
      TtlSeconds, ActionIdFor;
  }

  /** The state of a key active under both is the same. */
  lemma SameState(env: Env, reg: Registry, clock: u64, reg': Registry, now: u64, key: string, at: u64)
    requires RegistryOk(env, reg, clock) && RegistryOk(env, reg', now) && Grounded(reg) && Grounded(reg') && KeepsRows(reg, reg')
    requires ActiveAt(reg, key, at) && ActiveAt(reg', key, at)
    ensures VerifyAgentAt(env.crypto, reg', key, at) == VerifyAgentAt(env.crypto, reg, key, at)
  {
    hide RegistryOk, Grounded, VerifyAgentInner, ChainLength;
    ViewMeans(env, reg, clock, key, at);
    ViewMeans(env, reg', now, key, at);
    assert SameOrigin(reg.agents[key], reg'.agents[key]);
  }

  lemma GateUnder(env: Env, reg: Registry, clock: u64, reg': Registry, now: u64, gateId: string, at: u64)
    requires RegistryOk(env, reg, clock) && RegistryOk(env, reg', now) && Grounded(reg) && Grounded(reg') && KeepsRows(reg, reg')
    requires GateFaults(env.crypto, reg, gateId, at) == []
    ensures ActiveAt(reg, gateId, at)
    ensures GateFaults(env.crypto, reg', gateId, at) == [] <==> ActiveAt(reg', gateId, at)
  {
    hide RegistryOk, Grounded, VerifyAgentInner, ActiveAt, KeepsRows;
    CleanGate(env.crypto, reg, gateId, at);
    ViewMeans(env, reg, clock, gateId, at);
    ViewMeans(env, reg', now, gateId, at);
    if ActiveAt(reg', gateId, at) { SameState(env, reg, clock, reg', now, gateId, at); }
  }

  lemma DecisionUnder(env: Env, reg: Registry, clock: u64, reg': Registry, now: u64, body: Value, bundle: Value, intent: Value,
                      fields: IntentFields, signed: bool, at: u64, ttlSeconds: u64)
    requires RegistryOk(env, reg, clock) && RegistryOk(env, reg', now) && Grounded(reg) && Grounded(reg') && KeepsRows(reg, reg')
    requires DecisionFaults(env.crypto, reg, body, Some(bundle), intent, fields, signed, at, ttlSeconds) == []
    ensures DecisionFaults(env.crypto, reg', body, Some(bundle), intent, fields, signed, at, ttlSeconds) == []
      <==> (signed ==> (ActiveAt(reg', fields.agentId, at) <==> ActiveAt(reg, fields.agentId, at)))
  {
    hide RegistryOk, Grounded, VerifyAgentInner, ActiveAt, KeepsRows, EvaluatePolicy, Decide, TextArray;
    var agentId := fields.agentId;
    VerifyIsClosedForm(env, reg, clock, agentId, at);
    VerifyIsClosedForm(env, reg', now, agentId, at);
    ViewMeans(env, reg, clock, agentId, at);
    ViewMeans(env, reg', now, agentId, at);
    var policy := EvaluatePolicy(env.crypto, bundle, intent, ttlSeconds).value;
    var a, b := VerifyAgentAt(env.crypto, reg, agentId, at).value, VerifyAgentAt(env.crypto, reg', agentId, at).value;
    if ActiveAt(reg', agentId, at) && ActiveAt(reg, agentId, at) { SameState(env, reg, clock, reg', now, agentId, at); }
    if ActiveAt(reg', agentId, at) == ActiveAt(reg, agentId, at) {
      DecideByView(signed, a, b, fields, at, policy);
    } else if !signed {
      DecideUnsigned(a, b, fields, at, policy);
    } else if DecisionFaults(env.crypto, reg', body, Some(bundle), intent, fields, signed, at, ttlSeconds) == [] {
      TextArrayInjective(Decide(true, a, fields, at, policy).reasonCodes, Decide(true, b, fields, at, policy).reasonCodes);
      PolicyReasons(env.crypto, bundle, intent, ttlSeconds);
      DecisionTells(a, b, fields, at, policy);
    }
  }

  /** Without the agent's signature nothing rests on its key. */
  lemma DecideUnsigned(a: Option<AgentState>, b: Option<AgentState>, fields: IntentFields, issuedAt: u64, policy: PolicyDecision)
    ensures Decide(false, a, fields, issuedAt, policy) == Decide(false, b, fields, issuedAt, policy)
  {}

  /** A recorded authorization verifies under other keys in order exactly when its gate was active there and,
      if the agent has signed, its agent was active there just when it was before. */
  lemma AuthorizationUnder(env: Env, reg: Registry, clock: u64, reg': Registry, now: u64, id: string, row: AuthorizationRow)
    requires RegistryOk(env, reg, clock) && RegistryOk(env, reg', now) && Grounded(reg) && Grounded(reg') && KeepsRows(reg, reg')
    requires AuthorizationOk(env, reg, clock, id, row)
    ensures ActiveAt(reg, GateIn(row.json), row.issuedAt)
    ensures VerifyAuthorization(env.crypto, reg', row.json) == [] <==>
      && ActiveAt(reg', GateIn(row.json), row.issuedAt)
      && (AgentSigned(env.crypto, row) ==> (ActiveAt(reg', row.agentId, row.issuedAt) <==> ActiveAt(reg, row.agentId, row.issuedAt)))
  {
    hide RegistryOk, Grounded, ActiveAt, KeepsRows, VerifyReceipt, ValidateIntent, Canonical.Text, TtlSeconds, GateFaults, DecisionFaults;
    CleanAuthorization(env.crypto, reg, row.json);
    var receipt := row.json.Get(AUTHORIZATION).value;
    var body := BodyOfPermit(row.json);
    BodyReads(receipt);
    var id0, signature := receipt.GetStr(AUTHORIZATION_ID).value, receipt.GetStr(GATE_SIGNATURE).value;
    var intent := row.json.Get(INTENT).value;
    var fields := ValidateIntent(intent, row.agentId).value;
    ValidIntentAgent(intent, row.agentId);
    ReceiptUnder(env.crypto, reg, reg', row.json, body, id0, signature, fields);
    GateUnder(env, reg, clock, reg', now, GateIn(row.json), row.issuedAt);
    DecisionUnder(env, reg, clock, reg', now, body, row.json.Get(POLICY_BUNDLE).value, intent, fields, AgentSigned(env.crypto, row), row.issuedAt,
                  TtlSeconds(row.issuedAt, body.U64At(EXPIRES_AT)));
  }

  lemma BodyReads(receipt: Value)
    requires receipt.Object?
    ensures receipt.Without({AUTHORIZATION_ID, GATE_SIGNATURE}).GetStr(AGENT_ID) == receipt.GetStr(AGENT_ID)
  {}

  lemma ValidIntentAgent(intent: Value, agentId: string)
    requires ValidateIntent(intent, agentId).Some?
    ensures ValidateIntent(intent, agentId).value.agentId == agentId
  {
    hide IsBlank;
  }

  lemma ExecutorUnder(env: Env, reg: Registry, clock: u64, reg': Registry, now: u64, executorId: string, at: u64, tenantId: string)
    requires RegistryOk(env, reg, clock) && RegistryOk(env, reg', now) && Grounded(reg) && Grounded(reg') && KeepsRows(reg, reg')
    requires ExecutorFaults(env.crypto, reg, executorId, at, tenantId) == []
    ensures ActiveAt(reg, executorId, at)
    ensures ExecutorFaults(env.crypto, reg', executorId, at, tenantId) == [] <==> ActiveAt(reg', executorId, at)
  {
    hide RegistryOk, Grounded, VerifyAgentInner, ActiveAt, KeepsRows, IsProposer;
    CleanExecutor(env.crypto, reg, executorId, at, tenantId);
    ViewMeans(env, reg, clock, executorId, at);
    ViewMeans(env, reg', now, executorId, at);
    if ActiveAt(reg', executorId, at) { SameState(env, reg, clock, reg', now, executorId, at); }
    if ExecutorFaults(env.crypto, reg', executorId, at, tenantId) == [] { CleanExecutor(env.crypto, reg', executorId, at, tenantId); }
  }

  /** A recorded execution verifies under other keys in order exactly when its executor was active there. */
  lemma ExecutionUnder(env: Env, reg: Registry, clock: u64, reg': Registry, now: u64, permit: AuthorizationRow, row: OutcomeRow)
    requires RegistryOk(env, reg, clock) && RegistryOk(env, reg', now) && Grounded(reg) && Grounded(reg') && KeepsRows(reg, reg')
    requires OutcomeOk(env, reg, clock, permit, row)
    ensures ActiveAt(reg, ExecutorIn(row.json), row.completedAt)
    ensures VerifyExecution(env.crypto, reg', permit.json, row.json) == [] <==> ActiveAt(reg', ExecutorIn(row.json), row.completedAt)
  {
    hide RegistryOk, Grounded, ActiveAt, KeepsRows, ExecutorFaults, DigestJson, ValidateOutcome, Canonical.Text, OutcomeToSign;
    CleanExecution(env.crypto, reg, permit.json, row.json);
    var receipt := row.json.Get(RECEIPT).value;
    var body := receipt.Without({RECEIPT_ID, GATE_SIGNATURE});
    var doc := permit.json.Get(AUTHORIZATION).GetOr(Null);
    CleanExecutionReceipt(env.crypto, reg, doc, row.json, body, receipt.GetStr(RECEIPT_ID).value, receipt.GetStr(GATE_SIGNATURE).value);
    CleanOutcome(env.crypto, reg, doc, body, row.json.Get(OUTCOME).value);
    ExecutorUnder(env, reg, clock, reg', now, ExecutorIn(row.json), row.completedAt, doc.GetStr(TENANT_ID).GetOr("*"));
  }

  /** No document that rests on a key that verifies at no instant verifies: none its gate signed, no permit of
      its agent, and no execution of its executor. */
  lemma RecordsLost(c: Crypto, reg: Registry, key: string, authorization: Value, execution: Value)
    requires Grounded(reg) && forall t: u64 {:trigger VerifyAgentAt(c, reg, key, t)} :: !Trusted(VerifyAgentAt(c, reg, key, t))
    ensures VerifyAuthorization(c, reg, authorization) == [] ==>
      && GateIn(authorization) != key
      && (BodyOfPermit(authorization).GetStr(DECISION) == Some(ALLOWED) && authorization.Get(POLICY_BUNDLE).Some? ==>
            BodyOfPermit(authorization).GetStr(AGENT_ID).GetOr("") != key)
    ensures VerifyExecution(c, reg, authorization, execution) == [] ==> ExecutorIn(execution) != key
  {
    hide Grounded, VerifyAuthorization, VerifyExecution, VerifyReceipt, VerifyExecutionReceipt, VerifyAgentInner, IntentFaults, GateFaults,
      OutcomeFaults, ExecutorFaults, DigestJson, ValidateOutcome, Canonical.Text, OutcomeToSign, BundleFaults, ValidateIntent, IsProposer;
    if VerifyAuthorization(c, reg, authorization) == [] {
      CleanAuthorization(c, reg, authorization);
      var receipt := authorization.Get(AUTHORIZATION).value;
      var body := BodyOfPermit(authorization);
      var id, signature := receipt.GetStr(AUTHORIZATION_ID).value, receipt.GetStr(GATE_SIGNATURE).value;
      CleanReceipt(c, reg, authorization, body, id, signature);
      ReceiptTrust(c, reg, authorization, body, id, signature);
      CleanGate(c, reg, GateIn(authorization), body.U64At(ISSUED_AT));
      if body.GetStr(DECISION) == Some(ALLOWED) && authorization.Get(POLICY_BUNDLE).Some? {
        CleanDecided(c, reg, body, authorization.Get(POLICY_BUNDLE).value, authorization.Get(INTENT).value, authorization.GetStr(AGENT_SIGNATURE).GetOr(""));
      }
    }
    if VerifyExecution(c, reg, authorization, execution) == [] {
      CleanExecution(c, reg, authorization, execution);
      var receipt := execution.Get(RECEIPT).value;
      var body := receipt.Without({RECEIPT_ID, GATE_SIGNATURE});
      var permit := authorization.Get(AUTHORIZATION).GetOr(Null);
      CleanExecutionReceipt(c, reg, permit, execution, body, receipt.GetStr(RECEIPT_ID).value, receipt.GetStr(GATE_SIGNATURE).value);
      CleanOutcome(c, reg, permit, body, execution.Get(OUTCOME).value);
      CleanExecutor(c, reg, ExecutorIn(execution), body.U64At(COMPLETED_AT), permit.GetStr(TENANT_ID).GetOr("*"));
    }
  }

  // ---- What a late call changes about the past ----

  /** At an instant a key is active as it was, unless it has ended by then, or been added. */
  ghost predicate TurnedAt(reg: Registry, reg': Registry, ended: Option<string>, added: Option<string>, at: u64, key: string, t: u64) {
    ActiveAt(reg', key, t) <==> (ActiveAt(reg, key, t) && (ended == Some(key) ==> t < at)) || (added == Some(key) && at <= t)
  }

  /** From an instant on one key is no longer active, another now is, and nothing else has changed. */
  ghost predicate Turned(reg: Registry, reg': Registry, ended: Option<string>, added: Option<string>, at: u64) {
    && (added.Some? ==> added.value !in reg.agents)
    && forall key: string, t: u64 {:trigger ActiveAt(reg', key, t)} :: TurnedAt(reg, reg', ended, added, at, key, t)
  }

  /** An authorization rests on a key: its gate's, or its agent's that was active and has signed. */
  ghost predicate RestsOn(c: Crypto, reg: Registry, row: AuthorizationRow, key: string) {
    GateIn(row.json) == key || (AgentSigned(c, row) && row.agentId == key && ActiveAt(reg, key, row.issuedAt))
  }

  /** The authorizations that still verify: those issued before the instant of the late call, and those that
      rest neither on the key it ended nor, as one not registered, on the key it added. */
  ghost predicate Spared(c: Crypto, reg: Registry, row: AuthorizationRow, ended: Option<string>, added: Option<string>, at: u64) {
    || row.issuedAt < at
    || ((ended.Some? ==> !RestsOn(c, reg, row, ended.value)) && (AgentSigned(c, row) ==> added != Some(row.agentId)))
  }

  lemma AuthorizationsSpared(env: Env, reg: Registry, clock: u64, reg': Registry, now: u64, ended: Option<string>, added: Option<string>, at: u64,
                             id: string, row: AuthorizationRow)
    requires RegistryOk(env, reg, clock) && RegistryOk(env, reg', now) && Grounded(reg) && Grounded(reg') && KeepsRows(reg, reg')
    requires Turned(reg, reg', ended, added, at) && AuthorizationOk(env, reg, clock, id, row)
    ensures VerifyAuthorization(env.crypto, reg', row.json) == [] <==> Spared(env.crypto, reg, row, ended, added, at)
  {
    hide RegistryOk, Grounded, KeepsRows, GateIn, AgentSigned, VerifyAuthorization, AuthorizationOk, ChainLength;
    AuthorizationUnder(env, reg, clock, reg', now, id, row);
    assert ActiveAt(reg', GateIn(row.json), row.issuedAt) <==> row.issuedAt < at || ended != Some(GateIn(row.json));
  }

  lemma ExecutionsSpared(env: Env, reg: Registry, clock: u64, reg': Registry, now: u64, ended: Option<string>, added: Option<string>, at: u64,
                         permit: AuthorizationRow, row: OutcomeRow)
    requires RegistryOk(env, reg, clock) && RegistryOk(env, reg', now) && Grounded(reg) && Grounded(reg') && KeepsRows(reg, reg')
    requires Turned(reg, reg', ended, added, at) && OutcomeOk(env, reg, clock, permit, row)
    ensures VerifyExecution(env.crypto, reg', permit.json, row.json) == [] <==> row.completedAt < at || ended != Some(ExecutorIn(row.json))
  {
    hide RegistryOk, Grounded, KeepsRows, ExecutorIn, VerifyExecution, OutcomeOk, ChainLength;
    ExecutionUnder(env, reg, clock, reg', now, permit, row);
  }

  /** The key a late end ends, if it was still active. */
  function StillActive(reg: Registry, key: string): Option<string> {
    if key in reg.agents && reg.agents[key].status == Active then Some(key) else None
  }

  /** The key a late call adds, if it is within reach of the root. */
  ghost function WithinReach(reg: Registry, key: string): Option<string> {
    if key in reg.agents && ChainLength(reg, key) <= LONGEST_CHAIN then Some(key) else None
  }

  lemma RetiredTurns(env: Env, reg: Registry, clock: u64, reg': Registry, key: string, kind: Kind, at: u64, k: string, t: u64)
    requires RegistryOk(env, reg, clock) && Grounded(reg) && Grounded(reg') && KeepsRows(reg, reg') && key in reg.agents && k in reg.agents
    requires k in reg'.agents && Entry(reg'.agents, k) == if k == key then RetireRow(Entry(reg.agents, k), kind, at) else Entry(reg.agents, k)
    ensures ActiveAt(reg', k, t) <==> ActiveAt(reg, k, t) && (StillActive(reg, key) == Some(k) ==> t < at)
  {
    hide AgentOk, EventOk, Grounded, KeepsRows, ChainLength;
    ChainKept(env, reg, reg', clock, k);
    if k == key && reg.agents[k].status == Active { ActiveNotEnded(env, reg, clock, k); }
  }

  /** A late rotation. */
  lemma RotationTurns(env: Env, read: Registry, before: u64, reg: Registry, clock: u64, gate: string, currentKey: string, newKey: string, at: u64, reg': Registry)
    requires WentOn(env, read, before, reg, clock) && Grounded(read) && Grounded(reg) && Grounded(reg')
    requires LateRotation(env, read, reg, gate, currentKey, newKey, at) == Ok(reg')
    ensures KeepsRows(reg, reg') && Turned(reg, reg', StillActive(reg, currentKey), WithinReach(reg', newKey), at)
  {
    hide RegistryOk, Grounded, RotationFault, HasLifecycleEvent, RotatedRegistration, RotationOf, Evolves, DigestJson, RetireRow, ActiveAt,
      ChainLength, KeepsRows, SameOrigin;
    RowsAfterRotation(env, read, reg, gate, currentKey, newKey, at, reg');
    NotAddedBefore(reg, reg', newKey);
    forall k: string, t: u64 ensures TurnedAt(reg, reg', StillActive(reg, currentKey), WithinReach(reg', newKey), at, k, t) {
      if k in reg.agents {
        RetiredTurns(env, reg, clock, reg', currentKey, Rotate, at, k, t);
      } else {
        NotActive(reg, k, t);
        if k == newKey {
          NewlyActive(reg', k, at, t);
        } else {
          NotAdded(reg', newKey, k);
          NotActive(reg', k, t);
        }
      }
    }
  }

  lemma NotActive(reg: Registry, key: string, t: u64)
    requires Grounded(reg) && key !in reg.agents
    ensures !ActiveAt(reg, key, t)
  {
    hide Grounded;
  }

  lemma NewlyActive(reg: Registry, key: string, at: u64, t: u64)
    requires Grounded(reg) && key in reg.agents && reg.agents[key].validFrom == at && reg.agents[key].validUntil.None?
    ensures ActiveAt(reg, key, t) <==> WithinReach(reg, key) == Some(key) && at <= t
  {
    hide Grounded, ChainLength;
  }

  lemma RowsAfterRotation(env: Env, read: Registry, reg: Registry, gate: string, currentKey: string, newKey: string, at: u64, reg': Registry)
    requires Grounded(read) && LateRotation(env, read, reg, gate, currentKey, newKey, at) == Ok(reg')
    ensures currentKey in reg.agents && newKey !in reg.agents && newKey in reg'.agents && KeepsRows(reg, reg')
    ensures forall k :: k in reg'.agents <==> k in reg.agents || k == newKey
    ensures forall k :: k in reg.agents ==> Entry(reg'.agents, k) == if k == currentKey then RetireRow(Entry(reg.agents, k), Rotate, at) else Entry(reg.agents, k)
    ensures Entry(reg'.agents, newKey).validFrom == at && Entry(reg'.agents, newKey).validUntil.None?
  {
    hide Grounded, RotationFault, HasLifecycleEvent, RotatedRegistration, RotationOf, DigestJson;
  }

  /** Which authorizations and executions verify after a late rotation that keeps the keys in order. */
  lemma LateRotationSpares(env: Env, read: Registry, before: u64, reg: Registry, clock: u64, gate: string, currentKey: string, newKey: string,
                           at: u64, reg': Registry, now: u64, p: PermitTables, id: string)
    requires WentOn(env, read, before, reg, clock) && Grounded(read) && Grounded(reg) && Grounded(reg')
    requires LateRotation(env, read, reg, gate, currentKey, newKey, at) == Ok(reg') && RegistryOk(env, reg', now)
    requires PermitsOk(env, reg, p, clock) && id in p.authorizations
    ensures VerifyAuthorization(env.crypto, reg', Entry(p.authorizations, id).json) == []
      <==> Spared(env.crypto, reg, Entry(p.authorizations, id), StillActive(reg, currentKey), WithinReach(reg', newKey), at)
    ensures id in p.outcomes ==> (VerifyExecution(env.crypto, reg', Entry(p.authorizations, id).json, Entry(p.outcomes, id).json) == []
      <==> Entry(p.outcomes, id).completedAt < at || StillActive(reg, currentKey) != Some(ExecutorIn(Entry(p.outcomes, id).json)))
  {
    hide RegistryOk, Grounded, LateRotation, Evolves, KeepsRows, Turned, Spared, StillActive, WithinReach, ExecutorIn, VerifyAuthorization,
      VerifyExecution, AuthorizationOk, OutcomeOk, IndexesOk;
    RotationTurns(env, read, before, reg, clock, gate, currentKey, newKey, at, reg');
    RecordsSpared(env, reg, clock, reg', now, StillActive(reg, currentKey), WithinReach(reg', newKey), at, p, id);
  }

  lemma RecordsSpared(env: Env, reg: Registry, clock: u64, reg': Registry, now: u64, ended: Option<string>, added: Option<string>, at: u64,
                      p: PermitTables, id: string)
    requires RegistryOk(env, reg, clock) && RegistryOk(env, reg', now) && Grounded(reg) && Grounded(reg') && KeepsRows(reg, reg')
    requires Turned(reg, reg', ended, added, at) && PermitsOk(env, reg, p, clock) && id in p.authorizations
    ensures VerifyAuthorization(env.crypto, reg', Entry(p.authorizations, id).json) == [] <==> Spared(env.crypto, reg, Entry(p.authorizations, id), ended, added, at)
    ensures id in p.outcomes ==> (VerifyExecution(env.crypto, reg', Entry(p.authorizations, id).json, Entry(p.outcomes, id).json) == []
      <==> Entry(p.outcomes, id).completedAt < at || ended != Some(ExecutorIn(Entry(p.outcomes, id).json)))
  {
    hide RegistryOk, Grounded, KeepsRows, Turned, Spared, ExecutorIn, VerifyAuthorization, VerifyExecution, AuthorizationOk, OutcomeOk,
      IndexesOk;
    assert AuthorizationOk(env, reg, clock, id, p.authorizations[id]);
    AuthorizationsSpared(env, reg, clock, reg', now, ended, added, at, id, p.authorizations[id]);
    if id in p.outcomes { ExecutionsSpared(env, reg, clock, reg', now, ended, added, at, p.authorizations[id], p.outcomes[id]); }
  }

  /** ... and after a late revocation ... */
  lemma LateRevocationSpares(env: Env, read: Registry, before: u64, reg: Registry, clock: u64, gate: string, publicKey: string, reason: string,
                             at: u64, reg': Registry, now: u64, p: PermitTables, id: string)
    requires WentOn(env, read, before, reg, clock) && Grounded(read) && Grounded(reg) && Grounded(reg')
    requires LateRevocation(env, read, reg, gate, publicKey, reason, at) == Ok(reg') && RegistryOk(env, reg', now)
    requires PermitsOk(env, reg, p, clock) && id in p.authorizations
    ensures VerifyAuthorization(env.crypto, reg', Entry(p.authorizations, id).json) == []
      <==> Spared(env.crypto, reg, Entry(p.authorizations, id), StillActive(reg, publicKey), None, at)
    ensures id in p.outcomes ==> (VerifyExecution(env.crypto, reg', Entry(p.authorizations, id).json, Entry(p.outcomes, id).json) == []
      <==> Entry(p.outcomes, id).completedAt < at || StillActive(reg, publicKey) != Some(ExecutorIn(Entry(p.outcomes, id).json)))
  {
    hide RegistryOk, Grounded, LateRevocation, Evolves, KeepsRows, Spared, StillActive, ExecutorIn, VerifyAuthorization, VerifyExecution,
      AuthorizationOk, OutcomeOk, IndexesOk, ActiveAt, RetireRow;
    RowsAfterRevocation(env, read, reg, gate, publicKey, reason, at, reg');
    forall k: string, t: u64 ensures TurnedAt(reg, reg', StillActive(reg, publicKey), None, at, k, t) {
      if k in reg.agents {
        RetiredTurns(env, reg, clock, reg', publicKey, Revoke, at, k, t);
      } else {
        NotActive(reg, k, t);
        NotActive(reg', k, t);
      }
    }
    RecordsSpared(env, reg, clock, reg', now, StillActive(reg, publicKey), None, at, p, id);
  }

  lemma RowsAfterRevocation(env: Env, read: Registry, reg: Registry, gate: string, publicKey: string, reason: string, at: u64, reg': Registry)
    requires Grounded(read) && LateRevocation(env, read, reg, gate, publicKey, reason, at) == Ok(reg')
    ensures publicKey in reg.agents && KeepsRows(reg, reg')
    ensures forall k :: k in reg'.agents <==> k in reg.agents
    ensures forall k :: k in reg.agents ==> Entry(reg'.agents, k) == if k == publicKey then RetireRow(Entry(reg.agents, k), Revoke, at) else Entry(reg.agents, k)
  {
    hide Grounded, RevocationFault, HasLifecycleEvent, RevocationOf, DigestJson;
  }

  /** ... and after a late registration: an agent's intents refused for want of a registration cannot be
      reproduced once the registration is dated before them. */
  lemma LateRegistrationSpares(env: Env, read: Registry, before: u64, reg: Registry, clock: u64, registrar: string, publicKey: string, alias: string,
                               metadata: Option<Value>, at: u64, reg': Registry, now: u64, p: PermitTables, id: string)
    requires WentOn(env, read, before, reg, clock) && Grounded(read) && Grounded(reg) && Grounded(reg')
    requires LateRegistration(env, read, reg, registrar, publicKey, alias, metadata, at) == Ok(reg') && RegistryOk(env, reg', now)
    requires PermitsOk(env, reg, p, clock) && id in p.authorizations
    ensures VerifyAuthorization(env.crypto, reg', Entry(p.authorizations, id).json) == []
      <==> Spared(env.crypto, reg, Entry(p.authorizations, id), None, WithinReach(reg', publicKey), at)
    ensures id in p.outcomes ==> VerifyExecution(env.crypto, reg', Entry(p.authorizations, id).json, Entry(p.outcomes, id).json) == []
  {
    hide RegistryOk, Grounded, LateRegistration, Evolves, KeepsRows, Spared, WithinReach, ExecutorIn, VerifyAuthorization, VerifyExecution,
      AuthorizationOk, OutcomeOk, IndexesOk, ActiveAt;
    RowsAfterRegistration(env, read, reg, registrar, publicKey, alias, metadata, at, reg');
    forall k: string, t: u64 ensures TurnedAt(reg, reg', None, WithinReach(reg', publicKey), at, k, t) {
      if k in reg.agents {
        KeptActive(env, reg, clock, reg', k, t);
        NotAdded(reg', publicKey, k);
      } else {
        NotActive(reg, k, t);
        if k == publicKey {
          NewlyActive(reg', k, at, t);
        } else {
          NotAdded(reg', publicKey, k);
          NotActive(reg', k, t);
        }
      }
    }
    NotAddedBefore(reg, reg', publicKey);
    RecordsSpared(env, reg, clock, reg', now, None, WithinReach(reg', publicKey), at, p, id);
  }

  lemma NotAdded(reg: Registry, key: string, k: string)
    requires Grounded(reg) && k != key
    ensures WithinReach(reg, key) != Some(k)
  {
    hide Grounded, ChainLength;
  }

  lemma NotAddedBefore(reg: Registry, reg': Registry, key: string)
    requires Grounded(reg') && key !in reg.agents
    ensures WithinReach(reg', key).Some? ==> WithinReach(reg', key).value !in reg.agents
  {
    hide Grounded, ChainLength;
  }

  lemma KeptActive(env: Env, reg: Registry, clock: u64, reg': Registry, k: string, t: u64)
    requires RegistryOk(env, reg, clock) && Grounded(reg) && Grounded(reg') && KeepsRows(reg, reg') && k in reg.agents
    requires k in reg'.agents && Entry(reg'.agents, k) == Entry(reg.agents, k)
    ensures ActiveAt(reg', k, t) <==> ActiveAt(reg, k, t)
  {
    hide RegistryOk, Grounded, KeepsRows, ChainLength;
    ChainKept(env, reg, reg', clock, k);
  }

  lemma RowsAfterRegistration(env: Env, read: Registry, reg: Registry, registrar: string, publicKey: string, alias: string, metadata: Option<Value>,
                              at: u64, reg': Registry)
    requires Grounded(read) && LateRegistration(env, read, reg, registrar, publicKey, alias, metadata, at) == Ok(reg')
    ensures publicKey !in reg.agents && publicKey in reg'.agents && KeepsRows(reg, reg')
    ensures forall k :: k in reg'.agents <==> k in reg.agents || k == publicKey
    ensures forall k :: k in reg.agents ==> Entry(reg'.agents, k) == Entry(reg.agents, k)
    ensures Entry(reg'.agents, publicKey).validFrom == at && Entry(reg'.agents, publicKey).validUntil.None?
  {
    hide Grounded, VerifyAgentInner, Profile, IsBlank, RegistrarAuthority, RegistrationEvent, DigestJson;
  }
}
