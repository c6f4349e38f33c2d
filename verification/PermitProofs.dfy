/** Why a fresh document verifies, why it goes on verifying, and what it takes for the verifier to find
    nothing wrong. */
module PermitProofs {
  import opened Prelude
  import opened Names
  import opened Json
  import opened Crypto
  import opened Policy
  import opened Identity
  import opened IdentityProofs
  import opened Permits
  import opened Gate
  import Canonical

  // ---- Documents read back ----

  lemma ReceiptReadsBack(c: Crypto, body: Value, idField: string, gate: string)
    requires body.Object? && idField in {AUTHORIZATION_ID, RECEIPT_ID}
    requires idField !in body.fields && GATE_SIGNATURE !in body.fields
    ensures var receipt := Receipt(c, body, idField, gate);
      && receipt.Object?
      && receipt.GetStr(idField) == Some(DigestJson(c, body))
      && receipt.GetStr(GATE_SIGNATURE) == Some(c.sign(gate, DigestBytes(DigestJson(c, body))))
      && receipt.Without({idField, GATE_SIGNATURE}) == body
      && forall key: string :: key != idField && key != GATE_SIGNATURE ==> receipt.Get(key) == body.Get(key)
  {
    hide DigestJson;
    var receipt := Receipt(c, body, idField, gate);
    assert receipt.fields - {idField, GATE_SIGNATURE} == body.fields;
  }

  /** The members of an authorization body. */
  predicate DeclaresBody(body: Value, actionId: string, fields: IntentFields, intentHash: string, decision: Permits.Decision,
                         policyVersion: string, policyDigest: string, policy: PolicyDecision, issuedAt: u64, expiresAt: u64,
                         signer: SignerIdentity) {
    && body.Object?
    && AUTHORIZATION_ID !in body.fields && GATE_SIGNATURE !in body.fields
    && body.GetStr(SCHEMA_VERSION) == Some(AUTHORIZATION_RECEIPT_SCHEMA)
    && body.GetStr(ACTION_ID) == Some(actionId)
    && body.GetStr(TENANT_ID) == Some(fields.tenantId)
    && body.GetStr(AGENT_ID) == Some(fields.agentId)
    && body.GetStr(INTENT_HASH) == Some(intentHash)
    && body.GetStr(DECISION) == Some(decision.decision)
    && body.Get(REASON_CODES) == Some(TextArray(decision.reasonCodes))
    && body.Get(POLICY_VERSION) == Some(String(policyVersion))
    && body.Get(POLICY_DIGEST) == Some(String(policyDigest))
    && body.GetStr(EVIDENCE_DIGEST) == Some(policy.evidenceDigest)
    && body.Get(EXECUTOR_CONSTRAINTS) == Some(policy.executorConstraints)
    && body.GetU64(ISSUED_AT) == Some(issuedAt)
    && body.GetU64(EXPIRES_AT) == Some(expiresAt)
    && body.GetStr(GATE_ID) == Some(signer.publicKey)
    && body.Get(GATE_SIGNER) == Some(signer.ToJson())
  }

  lemma BodyNames(actionId: string, fields: IntentFields, intentHash: string, decision: Permits.Decision,
                  policyVersion: string, policyDigest: string, policy: PolicyDecision, issuedAt: u64, expiresAt: u64, signer: SignerIdentity)
    ensures var body := AuthorizationBody(actionId, fields, intentHash, decision, policyVersion, policyDigest, policy, issuedAt, expiresAt, signer);
      && body.Object? && AUTHORIZATION_ID !in body.fields && GATE_SIGNATURE !in body.fields
      && body.Get(SCHEMA_VERSION) == Some(String(AUTHORIZATION_RECEIPT_SCHEMA))
      && body.Get(ACTION_ID) == Some(String(actionId))
      && body.Get(TENANT_ID) == Some(String(fields.tenantId))
      && body.Get(AGENT_ID) == Some(String(fields.agentId))
      && body.Get(INTENT_HASH) == Some(String(intentHash))
      && body.Get(DECISION) == Some(String(decision.decision))
      && body.Get(GATE_ID) == Some(String(signer.publicKey))
  {
    hide TextArray, SignerIdentity.ToJson;
  }

  lemma BodyRecords(actionId: string, fields: IntentFields, intentHash: string, decision: Permits.Decision,
                    policyVersion: string, policyDigest: string, policy: PolicyDecision, issuedAt: u64, expiresAt: u64, signer: SignerIdentity)
    ensures var body := AuthorizationBody(actionId, fields, intentHash, decision, policyVersion, policyDigest, policy, issuedAt, expiresAt, signer);
      && body.Get(REASON_CODES) == Some(TextArray(decision.reasonCodes))
      && body.Get(POLICY_VERSION) == Some(String(policyVersion))
      && body.Get(POLICY_DIGEST) == Some(String(policyDigest))
      && body.Get(EVIDENCE_DIGEST) == Some(String(policy.evidenceDigest))
      && body.Get(EXECUTOR_CONSTRAINTS) == Some(policy.executorConstraints)
      && body.Get(ISSUED_AT) == Some(Number(issuedAt))
      && body.Get(EXPIRES_AT) == Some(Number(expiresAt))
      && body.Get(GATE_SIGNER) == Some(signer.ToJson())
  {
    hide TextArray, SignerIdentity.ToJson;
  }

  lemma BodyDeclares(actionId: string, fields: IntentFields, intentHash: string, decision: Permits.Decision,
                     policyVersion: string, policyDigest: string, policy: PolicyDecision, issuedAt: u64, expiresAt: u64, signer: SignerIdentity)
    ensures DeclaresBody(AuthorizationBody(actionId, fields, intentHash, decision, policyVersion, policyDigest, policy, issuedAt, expiresAt, signer),
                         actionId, fields, intentHash, decision, policyVersion, policyDigest, policy, issuedAt, expiresAt, signer)
  {
    hide AuthorizationBody, TextArray, SignerIdentity.ToJson;
    BodyNames(actionId, fields, intentHash, decision, policyVersion, policyDigest, policy, issuedAt, expiresAt, signer);
    BodyRecords(actionId, fields, intentHash, decision, policyVersion, policyDigest, policy, issuedAt, expiresAt, signer);
  }

  lemma ResultReadsBack(receipt: Value, intent: Value, agentSignature: string, bundle: Value)
    ensures var result := AuthorizationResult(receipt, intent, agentSignature, bundle);
      && result.GetStr(SCHEMA_VERSION) == Some(AUTHORIZATION_RESULT_SCHEMA)
      && result.Get(AUTHORIZATION) == Some(receipt)
      && result.Get(INTENT) == Some(intent)
      && result.GetStr(AGENT_SIGNATURE) == Some(agentSignature)
      && result.Get(POLICY_BUNDLE) == Some(bundle)
  {}

  // ---- A fresh authorization verifies ----

  /** What the gate knows when it issues a decision. */
  ghost predicate Issuing(env: Env, reg: Registry, gate: string, intent: Value, fields: IntentFields, agentSignature: string,
                          ttlSeconds: u64, bundle: Value, policy: PolicyDecision, decision: Permits.Decision, now: u64)
  {
    && env.crypto.isPublicKey(gate)
    && GateIdentity(env.crypto, reg, gate, now).Ok?
    && BundleFault(env.crypto, bundle, Some(gate)).None?
    && bundle.Get(SIGNER) == Some(env.signerFor(gate).ToJson())
    && StringField(bundle, POLICY_VERSION).Some? && StringField(bundle, POLICY_DIGEST).Some?
    && ValidateIntent(intent, fields.agentId) == Some(fields)
    && EvaluatePolicy(env.crypto, bundle, intent, ttlSeconds) == Ok(policy)
    && VerifyAgentAt(env.crypto, reg, fields.agentId, now).Ok?
    && decision == Decide(env.crypto.verifies(fields.agentId, TextBytes(Canonical.Text(intent)), agentSignature),
                          Good(VerifyAgentAt(env.crypto, reg, fields.agentId, now)), fields, now, policy)
    && now + ttlSeconds * MICROS_PER_SECOND <= U64_MAX
  }

  lemma TtlReadsBack(now: u64, ttlSeconds: u64)
    requires now + ttlSeconds * MICROS_PER_SECOND <= U64_MAX
    ensures TtlSeconds(now, Expiry(now, ttlSeconds)) == ttlSeconds
  {}

  lemma DecisionAgreesWithPolicy(signatureValid: bool, agent: Option<AgentState>, fields: IntentFields, issuedAt: u64, policy: PolicyDecision)
    ensures var d := Decide(signatureValid, agent, fields, issuedAt, policy);
      && (DeniedForIdentityOrTime(Some(TextArray(d.reasonCodes))) || d.decision == policy.Decision())
      && (!signatureValid ==> d.decision == BLOCKED && ListsReason(Some(TextArray(d.reasonCodes)), INVALID_AGENT_SIGNATURE))
  {
    var d := Decide(signatureValid, agent, fields, issuedAt, policy);
    if |d.reasonCodes| == 1 && d.reasonCodes[0] in IDENTITY_OR_TIME_DENIALS {
      assert TextArray(d.reasonCodes).items[0] == String(d.reasonCodes[0]);
      assert TextArray(d.reasonCodes).items[0] in TextArray(d.reasonCodes).items;
    }
  }

  lemma FreshIntentClean(env: Env, reg: Registry, gate: string, intent: Value, fields: IntentFields, agentSignature: string,
                         ttlSeconds: u64, bundle: Value, policy: PolicyDecision, decision: Permits.Decision, now: u64, body: Value)
    requires Grounded(reg)
    requires Issuing(env, reg, gate, intent, fields, agentSignature, ttlSeconds, bundle, policy, decision, now)
    requires DeclaresBody(body, ActionIdFor(env.crypto, fields), fields, DigestJson(env.crypto, intent), decision,
                          The(StringField(bundle, POLICY_VERSION)), The(StringField(bundle, POLICY_DIGEST)), policy,
                          now, Expiry(now, ttlSeconds), env.signerFor(gate))
    ensures IntentFaults(env.crypto, reg, body, Some(bundle), intent, agentSignature) == []
  {
    hide Grounded, VerifyAgentInner, BundleFault, EvaluatePolicy, ValidateIntent, DigestJson, StringField, GateIdentity, Decide,
      DeniedForIdentityOrTime, ListsReason, TextArray, ActionIdFor, Canonical.Text, TtlSeconds;
    TtlReadsBack(now, ttlSeconds);
    DecisionAgreesWithPolicy(env.crypto.verifies(fields.agentId, TextBytes(Canonical.Text(intent)), agentSignature),
                             VerifyAgentAt(env.crypto, reg, fields.agentId, now).value, fields, now, policy);
    assert EvaluationFaults(env.crypto, body, Some(bundle), intent, ttlSeconds) == [];
    assert DecisionFaults(env.crypto, reg, body, Some(bundle), intent, fields,
      env.crypto.verifies(fields.agentId, TextBytes(Canonical.Text(intent)), agentSignature), now, ttlSeconds) == [];
  }

  lemma FreshBundleClean(env: Env, gate: string, bundle: Value, body: Value)
    requires Honest(env)
    requires BundleFault(env.crypto, bundle, Some(gate)).None?
    requires bundle.Get(SIGNER) == Some(env.signerFor(gate).ToJson())
    requires StringField(bundle, POLICY_VERSION).Some? && StringField(bundle, POLICY_DIGEST).Some?
    requires body.Get(POLICY_VERSION) == Some(String(The(StringField(bundle, POLICY_VERSION))))
    requires body.Get(POLICY_DIGEST) == Some(String(The(StringField(bundle, POLICY_DIGEST))))
    requires body.Get(GATE_SIGNER) == Some(env.signerFor(gate).ToJson())
    ensures BundleFaults(env.crypto, body, Some(bundle), gate) == []
  {
    hide BundleFault;
  }

  /** The receipt of an authorization about to be written. */
  function DraftReceipt(env: Env, fields: IntentFields, intent: Value, gate: string, bundle: Value,
                        policy: PolicyDecision, decision: Permits.Decision, issuedAt: u64, expiresAt: u64): Value {
    AuthorizationBody(ActionIdFor(env.crypto, fields), fields, DigestJson(env.crypto, intent), decision,
                      StringField(bundle, POLICY_VERSION).GetOr(""), StringField(bundle, POLICY_DIGEST).GetOr(""),
                      policy, issuedAt, expiresAt, env.signerFor(gate))
  }

  lemma DraftReadsBack(env: Env, fields: IntentFields, intent: Value, agentSignature: string, gate: string, bundle: Value,
                       policy: PolicyDecision, decision: Permits.Decision, issuedAt: u64, expiresAt: u64)
    ensures var (id, row) := AuthorizationDraft(env, fields, intent, agentSignature, gate, bundle, policy, decision, issuedAt, expiresAt);
      var body := DraftReceipt(env, fields, intent, gate, bundle, policy, decision, issuedAt, expiresAt);
      var receipt := Receipt(env.crypto, body, AUTHORIZATION_ID, gate);
      && DeclaresBody(body, ActionIdFor(env.crypto, fields), fields, DigestJson(env.crypto, intent), decision,
                      StringField(bundle, POLICY_VERSION).GetOr(""), StringField(bundle, POLICY_DIGEST).GetOr(""), policy,
                      issuedAt, expiresAt, env.signerFor(gate))
      && id == DigestJson(env.crypto, body)
      && BodyOf(row) == body
      && row.json == AuthorizationResult(receipt, intent, agentSignature, bundle)
      && row.json.Get(AUTHORIZATION) == Some(receipt)
      && receipt.Object?
      && receipt.GetStr(AUTHORIZATION_ID) == Some(id)
      && receipt.GetStr(GATE_SIGNATURE) == Some(env.crypto.sign(gate, DigestBytes(id)))
      && receipt.Without({AUTHORIZATION_ID, GATE_SIGNATURE}) == body
  {
    hide DigestJson, ActionIdFor, StringField, AuthorizationBody, AuthorizationResult, Receipt, DeclaresBody;
    var body := DraftReceipt(env, fields, intent, gate, bundle, policy, decision, issuedAt, expiresAt);
    BodyDeclares(ActionIdFor(env.crypto, fields), fields, DigestJson(env.crypto, intent), decision,
                 StringField(bundle, POLICY_VERSION).GetOr(""), StringField(bundle, POLICY_DIGEST).GetOr(""), policy,
                 issuedAt, expiresAt, env.signerFor(gate));
    BodyLacksReceiptFields(body, ActionIdFor(env.crypto, fields), fields, DigestJson(env.crypto, intent), decision,
                 StringField(bundle, POLICY_VERSION).GetOr(""), StringField(bundle, POLICY_DIGEST).GetOr(""), policy,
                 issuedAt, expiresAt, env.signerFor(gate));
    ReceiptReadsBack(env.crypto, body, AUTHORIZATION_ID, gate);
    ResultReadsBack(Receipt(env.crypto, body, AUTHORIZATION_ID, gate), intent, agentSignature, bundle);
  }

  lemma BodyLacksReceiptFields(body: Value, actionId: string, fields: IntentFields, intentHash: string, decision: Permits.Decision,
                               policyVersion: string, policyDigest: string, policy: PolicyDecision, issuedAt: u64, expiresAt: u64,
                               signer: SignerIdentity)
    requires DeclaresBody(body, actionId, fields, intentHash, decision, policyVersion, policyDigest, policy, issuedAt, expiresAt, signer)
    ensures body.Object? && AUTHORIZATION_ID !in body.fields && GATE_SIGNATURE !in body.fields
  {}

  /** Nothing is wrong with an authorization when it is issued. */
  lemma FreshAuthorizationClean(env: Env, reg: Registry, gate: string, intent: Value, fields: IntentFields, agentSignature: string,
                                ttlSeconds: u64, bundle: Value, policy: PolicyDecision, decision: Permits.Decision, now: u64)
    requires Honest(env) && Grounded(reg)
    requires Issuing(env, reg, gate, intent, fields, agentSignature, ttlSeconds, bundle, policy, decision, now)
    ensures var (id, row) := AuthorizationDraft(env, fields, intent, agentSignature, gate, bundle, policy, decision, now,
                                                Expiry(now, ttlSeconds));
      VerifyAuthorization(env.crypto, reg, row.json) == []
  {
    hide Grounded, VerifyAgentInner, BundleFault, EvaluatePolicy, ValidateIntent, DigestJson, StringField, Decide, IntentFaults,
      BundleFaults, TextArray, ActionIdFor, AuthorizationBody, AuthorizationResult, Receipt, TtlSeconds, AuthorizationDraft, DraftReceipt,
      Canonical.Text;
    var expiresAt := Expiry(now, ttlSeconds);
    var (id, row) := AuthorizationDraft(env, fields, intent, agentSignature, gate, bundle, policy, decision, now, expiresAt);
    var body := DraftReceipt(env, fields, intent, gate, bundle, policy, decision, now, expiresAt);
    DraftReadsBack(env, fields, intent, agentSignature, gate, bundle, policy, decision, now, expiresAt);
    ResultReadsBack(Receipt(env.crypto, body, AUTHORIZATION_ID, gate), intent, agentSignature, bundle);
    FreshBundleClean(env, gate, bundle, body);
    FreshIntentClean(env, reg, gate, intent, fields, agentSignature, ttlSeconds, bundle, policy, decision, now, body);
    assert env.signerFor(gate).publicKey == gate;
    assert SignsCorrectly(env.crypto, gate);
    assert GateFaults(env.crypto, reg, gate, now) == [];
  }

  // ---- Verification is stable ----

  /** The instant an authorization is checked for. */
  function IssuedAt(result: Value): u64 {
    result.Get(AUTHORIZATION).GetOr(Null).Without({AUTHORIZATION_ID, GATE_SIGNATURE}).U64At(ISSUED_AT)
  }

  /** What decisions rest on is the same in two registries at an instant, for every key. */
  ghost predicate SameViews(c: Crypto, reg: Registry, reg': Registry, at: u64) {
    forall key: string {:trigger VerifyAgentAt(c, reg', key, at)} ::
      && VerifyAgentAt(c, reg, key, at).Ok? && VerifyAgentAt(c, reg', key, at).Ok?
      && ActiveView(VerifyAgentAt(c, reg', key, at)) == ActiveView(VerifyAgentAt(c, reg, key, at))
  }

  lemma EvolutionKeepsViews(env: Env, reg: Registry, reg': Registry, clock: u64, clock': u64, at: u64)
    requires RegistryOk(env, reg, clock) && RegistryOk(env, reg', clock') && Evolves(reg, reg', clock) && at <= clock
    ensures SameViews(env.crypto, reg, reg', at)
  {
    hide AgentOk, EventOk, Grounded, VerifyAgentInner, ClosedForm;
    forall key: string
      ensures VerifyAgentAt(env.crypto, reg, key, at).Ok? && VerifyAgentAt(env.crypto, reg', key, at).Ok?
      ensures ActiveView(VerifyAgentAt(env.crypto, reg', key, at)) == ActiveView(VerifyAgentAt(env.crypto, reg, key, at))
    {
      VerifyIsClosedForm(env, reg, clock, key, at);
      VerifyIsClosedForm(env, reg', clock', key, at);
      HistoryKept(env, reg, reg', clock, clock', key, at);
    }
  }

  lemma SameGateFaults(c: Crypto, reg: Registry, reg': Registry, gateId: string, at: u64)
    requires Grounded(reg) && Grounded(reg') && SameViews(c, reg, reg', at)
    ensures GateFaults(c, reg', gateId, at) == GateFaults(c, reg, gateId, at)
  {
    hide Grounded, VerifyAgentInner, VerifyAgentAt;
    assert VerifyAgentAt(c, reg', gateId, at).Ok?;
  }

  lemma SameDecisionFaults(c: Crypto, reg: Registry, reg': Registry, body: Value, bundle: Option<Value>, intent: Value,
                           fields: IntentFields, signatureValid: bool, at: u64, ttlSeconds: u64)
    requires Grounded(reg) && Grounded(reg') && SameViews(c, reg, reg', at)
    ensures DecisionFaults(c, reg', body, bundle, intent, fields, signatureValid, at, ttlSeconds)
      == DecisionFaults(c, reg, body, bundle, intent, fields, signatureValid, at, ttlSeconds)
  {
    hide Grounded, VerifyAgentInner, VerifyAgentAt, EvaluatePolicy, TextArray;
    assert VerifyAgentAt(c, reg', fields.agentId, at).Ok?;
  }

  /** `verify_authorization` answers the same in two registries with the same views. */
  lemma AuthorizationStable(c: Crypto, reg: Registry, reg': Registry, result: Value)
    requires Grounded(reg) && Grounded(reg') && SameViews(c, reg, reg', IssuedAt(result))
    ensures VerifyAuthorization(c, reg', result) == VerifyAuthorization(c, reg, result)
  {
    hide Grounded, SameViews, VerifyReceipt;
    match (result.Get(AUTHORIZATION))
    case Some(receipt) =>
      if receipt.Object? && receipt.GetStr(AUTHORIZATION_ID).Some? && receipt.GetStr(GATE_SIGNATURE).Some? {
        ReceiptStable(c, reg, reg', result, receipt.Without({AUTHORIZATION_ID, GATE_SIGNATURE}),
                      receipt.GetStr(AUTHORIZATION_ID).value, receipt.GetStr(GATE_SIGNATURE).value);
      }
    case None =>
  }

  lemma ReceiptStable(c: Crypto, reg: Registry, reg': Registry, result: Value, body: Value, id: string, signature: string)
    requires Grounded(reg) && Grounded(reg') && SameViews(c, reg, reg', body.U64At(ISSUED_AT))
    ensures VerifyReceipt(c, reg', result, body, id, signature) == VerifyReceipt(c, reg, result, body, id, signature)
  {
    hide Grounded, SameViews, VerifyAgentInner, BundleFaults, DecisionFaults, GateFaults, DigestJson, ValidateIntent, EvaluationFaults,
      Canonical.Text, ListsReason, TtlSeconds, ActionIdFor;
    var issuedAt := body.U64At(ISSUED_AT);
    SameGateFaults(c, reg, reg', body.GetStr(GATE_ID).GetOr(""), issuedAt);
    match result.Get(INTENT)
    case Some(intent) =>
      var agentId := body.GetStr(AGENT_ID).GetOr("");
      match ValidateIntent(intent, agentId) {
        case Some(fields) =>
          SameDecisionFaults(c, reg, reg', body, result.Get(POLICY_BUNDLE), intent, fields,
                             c.verifies(agentId, TextBytes(Canonical.Text(intent)), result.GetStr(AGENT_SIGNATURE).GetOr("")),
                             issuedAt, TtlSeconds(issuedAt, body.U64At(EXPIRES_AT)));
        case None =>
      }
    case None =>
  }

  /** The instant an execution is checked for. */
  function CompletedAt(execution: Value): u64 {
    execution.Get(RECEIPT).GetOr(Null).Without({RECEIPT_ID, GATE_SIGNATURE}).U64At(COMPLETED_AT)
  }

  lemma SameExecutorFaults(c: Crypto, reg: Registry, reg': Registry, executorId: string, at: u64, tenantId: string)
    requires Grounded(reg) && Grounded(reg') && SameViews(c, reg, reg', at)
    ensures ExecutorFaults(c, reg', executorId, at, tenantId) == ExecutorFaults(c, reg, executorId, at, tenantId)
  {
    hide Grounded, VerifyAgentInner, VerifyAgentAt, IsProposer;
    assert VerifyAgentAt(c, reg', executorId, at).Ok?;
  }

  /** `verify_execution` answers the same in two registries with the same views. */
  lemma ExecutionStable(c: Crypto, reg: Registry, reg': Registry, authorization: Value, execution: Value)
    requires Grounded(reg) && Grounded(reg') && SameViews(c, reg, reg', CompletedAt(execution))
    ensures VerifyExecution(c, reg', authorization, execution) == VerifyExecution(c, reg, authorization, execution)
  {
    hide Grounded, SameViews, VerifyAgentInner, ExecutorFaults, DigestJson, ValidateOutcome, Canonical.Text;
    match execution.Get(RECEIPT)
    case Some(receipt) =>
      var body := receipt.Without({RECEIPT_ID, GATE_SIGNATURE});
      SameExecutorFaults(c, reg, reg', body.GetStr(EXECUTOR_ID).GetOr(""), body.U64At(COMPLETED_AT),
                         authorization.Get(AUTHORIZATION).GetOr(Null).GetStr(TENANT_ID).GetOr("*"));
    case None =>
  }

  // ======== What it takes for the verifier to find nothing wrong with a document.

  // ---- Keys ----

  /** A key was registered, at most 17 keys from the root, and in its window. */
  ghost predicate ActiveAt(reg: Registry, key: string, at: u64) {
    key in reg.agents && ChainLength(reg, key) <= LONGEST_CHAIN && InWindow(reg.agents[key], at)
  }

  lemma ViewMeans(env: Env, reg: Registry, clock: u64, key: string, at: u64)
    requires RegistryOk(env, reg, clock) && Grounded(reg)
    ensures ActiveView(VerifyAgentAt(env.crypto, reg, key, at)).Some? <==> ActiveAt(reg, key, at)
    ensures ActiveAt(reg, key, at) ==> VerifyAgentAt(env.crypto, reg, key, at) == Ok(Some(StateAt(Entry(reg.agents, key), at)))
  {
    hide RegistryOk, Grounded, VerifyAgentInner;
    VerifyIsClosedForm(env, reg, clock, key, at);
  }

  // ---- Authorizations ----

  lemma CleanAuthorization(c: Crypto, reg: Registry, result: Value)
    requires Grounded(reg) && VerifyAuthorization(c, reg, result) == []
    ensures result.GetStr(SCHEMA_VERSION) == Some(AUTHORIZATION_RESULT_SCHEMA)
    ensures result.Get(AUTHORIZATION).Some? && The(result.Get(AUTHORIZATION)).Object?
    ensures var receipt := The(result.Get(AUTHORIZATION));
      && receipt.GetStr(AUTHORIZATION_ID).Some? && receipt.GetStr(GATE_SIGNATURE).Some?
      && VerifyReceipt(c, reg, result, receipt.Without({AUTHORIZATION_ID, GATE_SIGNATURE}),
                       The(receipt.GetStr(AUTHORIZATION_ID)), The(receipt.GetStr(GATE_SIGNATURE))) == []
  {
    hide Grounded, VerifyReceipt;
  }

  lemma CleanReceipt(c: Crypto, reg: Registry, result: Value, body: Value, id: string, signature: string)
    requires Grounded(reg) && VerifyReceipt(c, reg, result, body, id, signature) == []
    ensures var gateId := body.GetStr(GATE_ID).GetOr("");
      && DigestJson(c, body) == id
      && c.verifies(gateId, DigestBytes(id), signature)
      && BundleFaults(c, body, result.Get(POLICY_BUNDLE), gateId) == []
      && result.Get(INTENT).Some?
      && IntentFaults(c, reg, body, result.Get(POLICY_BUNDLE), The(result.Get(INTENT)), result.GetStr(AGENT_SIGNATURE).GetOr("")) == []
  {
    hide Grounded, GateFaults, BundleFaults, IntentFaults, DigestJson;
  }

  lemma CleanBundle(c: Crypto, body: Value, bundle: Value, gateId: string)
    requires BundleFaults(c, body, Some(bundle), gateId) == []
    ensures BundleFault(c, bundle, Some(gateId)).None?
    ensures body.Get(POLICY_VERSION) == bundle.Get(POLICY_VERSION) && body.Get(POLICY_DIGEST) == bundle.Get(POLICY_DIGEST)
  {
    hide BundleFault;
  }

  lemma CleanIntent(c: Crypto, reg: Registry, body: Value, bundle: Value, intent: Value, agentSignature: string)
    requires Grounded(reg) && IntentFaults(c, reg, body, Some(bundle), intent, agentSignature) == []
    ensures var issuedAt := body.U64At(ISSUED_AT);
      var ttlSeconds := TtlSeconds(issuedAt, body.U64At(EXPIRES_AT));
      && DigestJson(c, intent) == body.GetStr(INTENT_HASH).GetOr("")
      && EvaluatePolicy(c, bundle, intent, ttlSeconds).Ok?
      && var policy := Good(EvaluatePolicy(c, bundle, intent, ttlSeconds));
         && body.GetStr(EVIDENCE_DIGEST) == Some(policy.evidenceDigest)
         && body.Get(EXECUTOR_CONSTRAINTS) == Some(policy.executorConstraints)
         && (body.GetStr(DECISION) == Some(ALLOWED) ==> policy.allowed)
  {
    hide Grounded, DigestJson, EvaluatePolicy, ValidateIntent, VerifyAgentInner, Canonical.Text, Decide, TtlSeconds,
      DeniedForIdentityOrTime;
    var agentId := body.GetStr(AGENT_ID).GetOr("");
    if ValidateIntent(intent, agentId).Some? {
      CleanDecision(c, reg, body, bundle, intent, ValidateIntent(intent, agentId).value,
                    c.verifies(agentId, TextBytes(Canonical.Text(intent)), agentSignature), body.U64At(ISSUED_AT),
                    TtlSeconds(body.U64At(ISSUED_AT), body.U64At(EXPIRES_AT)));
    }
  }

  lemma CleanDecision(c: Crypto, reg: Registry, body: Value, bundle: Value, intent: Value, fields: IntentFields,
                      signatureValid: bool, issuedAt: u64, ttlSeconds: u64)
    requires Grounded(reg)
    ensures DecisionFaults(c, reg, body, Some(bundle), intent, fields, signatureValid, issuedAt, ttlSeconds) == [] ==>
      && EvaluatePolicy(c, bundle, intent, ttlSeconds).Ok?
      && (body.GetStr(DECISION) == Some(ALLOWED) ==> Good(EvaluatePolicy(c, bundle, intent, ttlSeconds)).allowed)
  {
    hide Grounded, EvaluatePolicy, VerifyAgentInner;
  }

  lemma CleanGate(c: Crypto, reg: Registry, gateId: string, issuedAt: u64)
    requires Grounded(reg) && GateFaults(c, reg, gateId, issuedAt) == []
    ensures var state := ActiveView(VerifyAgentAt(c, reg, gateId, issuedAt)); state.Some? && The(state).canDelegate
  {
    hide Grounded, VerifyAgentInner;
  }

  lemma ReceiptTrust(c: Crypto, reg: Registry, result: Value, body: Value, id: string, signature: string)
    requires Grounded(reg) && VerifyReceipt(c, reg, result, body, id, signature) == []
    ensures GateFaults(c, reg, body.GetStr(GATE_ID).GetOr(""), body.U64At(ISSUED_AT)) == []
  {
    hide Grounded, GateFaults, BundleFaults, IntentFaults, DigestJson;
  }

  // ---- Executions ----

  lemma CleanExecution(c: Crypto, reg: Registry, authorization: Value, execution: Value)
    requires Grounded(reg) && VerifyExecution(c, reg, authorization, execution) == []
    ensures var receipt := execution.Get(RECEIPT).GetOr(Null);
      && receipt.Object? && receipt.GetStr(RECEIPT_ID).Some? && receipt.GetStr(GATE_SIGNATURE).Some?
      && VerifyExecutionReceipt(c, reg, authorization.Get(AUTHORIZATION).GetOr(Null), execution, receipt.Without({RECEIPT_ID, GATE_SIGNATURE}),
                                The(receipt.GetStr(RECEIPT_ID)), The(receipt.GetStr(GATE_SIGNATURE))) == []
  {
    hide Grounded, VerifyExecutionReceipt;
  }

  lemma CleanExecutionReceipt(c: Crypto, reg: Registry, permit: Value, execution: Value, body: Value, id: string, signature: string)
    requires Grounded(reg) && VerifyExecutionReceipt(c, reg, permit, execution, body, id, signature) == []
    ensures execution.Get(OUTCOME).Some? && OutcomeFaults(c, reg, permit, body, The(execution.Get(OUTCOME))) == []
    ensures body.Get(EXECUTOR_ID).None? || body.Get(EXECUTOR_ID) != permit.Get(AGENT_ID)
  {
    hide Grounded, OutcomeFaults, DigestJson;
  }

  lemma CleanOutcome(c: Crypto, reg: Registry, permit: Value, body: Value, outcome: Value)
    requires Grounded(reg) && OutcomeFaults(c, reg, permit, body, outcome) == []
    ensures var executorId := body.GetStr(EXECUTOR_ID).GetOr("");
      && ExecutorFaults(c, reg, executorId, body.U64At(COMPLETED_AT), permit.GetStr(TENANT_ID).GetOr("*")) == []
      && c.verifies(executorId, TextBytes(Canonical.Text(OutcomeToSign(outcome))), outcome.GetStr(EXECUTOR_SIGNATURE).GetOr(""))
      && ValidateOutcome(outcome, permit.GetStr(AUTHORIZATION_ID).GetOr(""), permit.GetStr(ACTION_ID).GetOr("")).Some?
  {
    hide Grounded, ExecutorFaults, DigestJson, Canonical.Text, OutcomeToSign, ValidateOutcome;
  }

  lemma CleanExecutor(c: Crypto, reg: Registry, executorId: string, completedAt: u64, tenantId: string)
    requires Grounded(reg) && ExecutorFaults(c, reg, executorId, completedAt, tenantId) == []
    ensures var state := ActiveView(VerifyAgentAt(c, reg, executorId, completedAt));
      state.Some? && (tenantId == "*" || The(state).tenantId in {"*", tenantId}) && !IsProposer(The(state).metadata)
  {
    hide Grounded, VerifyAgentInner, IsProposer;
  }
}
