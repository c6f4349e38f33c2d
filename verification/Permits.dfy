/** Authorization and execution documents: how they are decided, built, and verified afterwards. */
module Permits {
  import opened Prelude
  import opened Names
  import opened Json
  import opened Crypto
  import opened Policy
  import opened Identity
  import Canonical

  const ACTION_INTENT_SCHEMA := "tempus.action-intent.v1"
  const ACTION_OUTCOME_SCHEMA := "tempus.action-outcome.v1"
  const AUTHORIZATION_RESULT_SCHEMA := "tempus.authorization-result.v1"
  const AUTHORIZATION_RECEIPT_SCHEMA := "tempus.authorization-receipt.v1"
  const EXECUTION_RESULT_SCHEMA := "tempus.execution-result.v1"
  const EXECUTION_RECEIPT_SCHEMA := "tempus.execution-receipt.v1"
  const LEGACY_POLICY_VERSION := "tempus.identity-gate.v1"

  /** What a verifier can find wrong with a document. */
  datatype Fault =
    | ResultSchemaMismatch
    | ReceiptMissing
    | ReceiptInvalid
    | IdMissing
    | GateSignatureMissing
    | IdMismatch
    | ReceiptSchemaMismatch
    | GateSignatureInvalid
    | GateIdentityNotTrusted
    | IdentityFault(identity: IdentityError)
    | PolicyFault(policy: PolicyError)
    | PolicyVersionMismatch
    | PolicyDigestMismatch
    | SignerMetadataMismatch
    | PolicyBundleMissing
    | IntentMissing
    | IntentHashMismatch
    | EvidenceDigestMismatch
    | ExecutorConstraintsMismatch
    | PolicyDecisionMismatch
    | AgentSignatureInvalid
    | IntentInvalid
    | ActionIdMismatch
    | TenantIdMismatch
    | DecisionNotReproducible
    | ReasonCodesNotReproducible
    | LinkMismatch(field: string)
    | ExecutorAgentCollusion
    | OutcomeMissing
    | OutcomeHashMismatch
    | ExecutorSignatureInvalid
    | ExecutorTenantScopeMismatch
    | ExecutorRoleInvalid
    | ExecutorIdentityNotTrusted
    | OutcomeInvalid
    | StatusMismatch

  function FaultIf(wrong: bool, fault: Fault): seq<Fault> {
    if wrong then [fault] else []
  }

  // ---- Intents ----

  datatype IntentFields = IntentFields(tenantId: string, agentId: string, idempotencyKey: string, requestedAt: u64)

  /** `validate_intent`. */
  function ValidateIntent(intent: Value, expectedAgent: string): Option<IntentFields> {
    if !intent.Object? then None
    else if StringField(intent, SCHEMA_VERSION) != Some(ACTION_INTENT_SCHEMA) then None
    else if StringField(intent, AGENT_ID) != Some(expectedAgent) then None
    else if StringField(intent, ACTION_TYPE).None? || StringField(intent, RESOURCE).None? then None
    else if MoneyMalformed(intent.Get(MONEY)) then None
    else Identified(expectedAgent, StringField(intent, TENANT_ID), StringField(intent, "idempotency_key"), intent.GetU64("requested_at"))
  }

  predicate MoneyMalformed(money: Option<Value>) {
    money.Some? && !money.value.Null? && !money.value.Object?
  }

  function Identified(agentId: string, tenantId: Option<string>, key: Option<string>, requestedAt: Option<u64>): Option<IntentFields> {
    if tenantId.Some? && key.Some? && requestedAt.Some? then Some(IntentFields(tenantId.value, agentId, key.value, requestedAt.value)) else None
  }

  /** What `action_id_for` hashes. */
  function ActionText(tenantId: string, agentId: string, idempotencyKey: string): string {
    "tempus.action.v1" + "\0" + tenantId + "\0" + agentId + "\0" + idempotencyKey
  }

  function ActionIdFor(c: Crypto, fields: IntentFields): string {
    c.sha256(ActionText(fields.tenantId, fields.agentId, fields.idempotencyKey))
  }

  // ---- The decision ----

  datatype Decision = Decision(decision: string, reasonCodes: seq<string>)

  /** The reasons that speak of identity or time rather than of policy. */
  const IDENTITY_OR_TIME_DENIALS: set<string> := {
    INVALID_AGENT_SIGNATURE, AGENT_NOT_REGISTERED, AGENT_TENANT_SCOPE_DENIED, REQUEST_STALE, REQUEST_FROM_FUTURE
  }

  const MAX_AGE_MICROS := 300_000_000
  const MAX_SKEW_MICROS := 60_000_000

  /** The decision on a request, and how the verifier reproduces it. */
  function Decide(signatureValid: bool, agent: Option<AgentState>, fields: IntentFields, issuedAt: u64, policy: PolicyDecision): Decision {
    if !signatureValid then Decision(BLOCKED, [INVALID_AGENT_SIGNATURE])
    else if agent.None? || !agent.value.active then Decision(BLOCKED, [AGENT_NOT_REGISTERED])
    else if agent.value.tenantId != "*" && agent.value.tenantId != fields.tenantId then Decision(BLOCKED, [AGENT_TENANT_SCOPE_DENIED])
    else if SaturatingSub(issuedAt, fields.requestedAt) > MAX_AGE_MICROS then Decision(BLOCKED, [REQUEST_STALE])
    else if SaturatingSub(fields.requestedAt, issuedAt) > MAX_SKEW_MICROS then Decision(BLOCKED, [REQUEST_FROM_FUTURE])
    else if !policy.allowed then Decision(BLOCKED, policy.reasonCodes)
    else Decision(ALLOWED, ["IDENTITY_VERIFIED", POLICY_ALLOWED])
  }

  // ---- Authorization documents ----

  function TextArray(texts: seq<string>): Value {
    Array(seq(|texts|, i requires 0 <= i < |texts| => String(texts[i])))
  }

  /** The signed part of an authorization receipt. */
  function AuthorizationBody(actionId: string, fields: IntentFields, intentHash: string, decision: Decision,
                             policyVersion: string, policyDigest: string, policy: PolicyDecision,
                             issuedAt: u64, expiresAt: u64, signer: SignerIdentity): Value {
    Object(map[
      SCHEMA_VERSION := String(AUTHORIZATION_RECEIPT_SCHEMA),
      ACTION_ID := String(actionId),
      TENANT_ID := String(fields.tenantId),
      AGENT_ID := String(fields.agentId),
      INTENT_HASH := String(intentHash),
      DECISION := String(decision.decision),
      REASON_CODES := TextArray(decision.reasonCodes),
      POLICY_VERSION := String(policyVersion),
      POLICY_DIGEST := String(policyDigest),
      EVIDENCE_DIGEST := String(policy.evidenceDigest),
      EXECUTOR_CONSTRAINTS := policy.executorConstraints,
      ISSUED_AT := Number(issuedAt),
      EXPIRES_AT := Number(expiresAt),
      GATE_ID := String(signer.publicKey),
      GATE_SIGNER := signer.ToJson()
    ])
  }

  /** A body with its digest under `idField` and the gate's signature of the digest. */
  function Receipt(c: Crypto, body: Value, idField: string, gate: string): Value {
    var id := DigestJson(c, body);
    body.With(idField, String(id)).With(GATE_SIGNATURE, String(c.sign(gate, DigestBytes(id))))
  }

  function AuthorizationResult(receipt: Value, intent: Value, agentSignature: string, bundle: Value): Value {
    Object(map[
      SCHEMA_VERSION := String(AUTHORIZATION_RESULT_SCHEMA),
      AUTHORIZATION := receipt,
      INTENT := intent,
      AGENT_SIGNATURE := String(agentSignature),
      POLICY_BUNDLE := bundle
    ])
  }

  /** The receipt of an authorization document ... */
  function PermitOf(json: Value): Value {
    json.Get(AUTHORIZATION).GetOr(Null)
  }

  /** ... and what its gate signed. */
  function BodyOfPermit(json: Value): Value {
    PermitOf(json).Without({AUTHORIZATION_ID, GATE_SIGNATURE})
  }

  const MICROS_PER_SECOND := 1_000_000

  /** When a permit expires; a time beyond the last instant is refused before. */
  function Expiry(issuedAt: u64, ttlSeconds: u64): u64 {
    var at := issuedAt + ttlSeconds * MICROS_PER_SECOND;
    if at <= U64_MAX then at else U64_MAX
  }

  /** Whole seconds from issue to expiry. */
  function TtlSeconds(issuedAt: u64, expiresAt: u64): u64 {
    SaturatingSub(expiresAt, issuedAt) / MICROS_PER_SECOND
  }

  predicate DeniedForIdentityOrTime(reasonCodes: Option<Value>) {
    match reasonCodes
    case Some(Array(reasons)) => exists r <- reasons :: r.String? && r.text in IDENTITY_OR_TIME_DENIALS
    case _ => false
  }

  predicate ListsReason(reasonCodes: Option<Value>, reason: string) {
    match reasonCodes
    case Some(Array(reasons)) => String(reason) in reasons
    case _ => false
  }

  /** What the verifier finds wrong with the trust in the gate that signed. */
  ghost function GateFaults(c: Crypto, reg: Registry, gateId: string, issuedAt: u64): seq<Fault> {
    match VerifyAgentAt(c, reg, gateId, issuedAt)
    case Err(e) => [IdentityFault(e)]
    case Ok(None) => [GateIdentityNotTrusted]
    case Ok(Some(state)) => FaultIf(!state.active || !state.canDelegate, GateIdentityNotTrusted)
  }

  /** ... with the policy bundle a receipt refers to. */
  function BundleFaults(c: Crypto, body: Value, bundle: Option<Value>, gateId: string): seq<Fault> {
    match bundle
    case None => FaultIf(body.GetStr(POLICY_VERSION) != Some(LEGACY_POLICY_VERSION), PolicyBundleMissing)
    case Some(b) =>
      (match BundleFault(c, b, Some(gateId))
       case Some(e) => [PolicyFault(e)]
       case None => [])
      + FaultIf(body.Get(POLICY_VERSION) != b.Get(POLICY_VERSION), PolicyVersionMismatch)
      + FaultIf(body.Get(POLICY_DIGEST) != b.Get(POLICY_DIGEST), PolicyDigestMismatch)
      + FaultIf(body.Get(GATE_SIGNER) != b.Get(SIGNER), SignerMetadataMismatch)
  }

  /** ... with the policy evaluation a receipt records. */
  function EvaluationFaults(c: Crypto, body: Value, bundle: Option<Value>, intent: Value, ttlSeconds: u64): seq<Fault> {
    match bundle
    case None => []
    case Some(b) =>
      match EvaluatePolicy(c, b, intent, ttlSeconds)
      case Err(e) => [PolicyFault(e)]
      case Ok(policy) =>
        FaultIf(body.GetStr(EVIDENCE_DIGEST) != Some(policy.evidenceDigest), EvidenceDigestMismatch)
        + FaultIf(body.Get(EXECUTOR_CONSTRAINTS) != Some(policy.executorConstraints), ExecutorConstraintsMismatch)
        + FaultIf(!DeniedForIdentityOrTime(body.Get(REASON_CODES)) && body.GetStr(DECISION) != Some(policy.Decision()), PolicyDecisionMismatch)
  }

  /** ... with the decision a receipt records. */
  ghost function DecisionFaults(c: Crypto, reg: Registry, body: Value, bundle: Option<Value>, intent: Value, fields: IntentFields,
                          signatureValid: bool, issuedAt: u64, ttlSeconds: u64): seq<Fault>
  {
    match bundle
    case None => []
    case Some(b) =>
      match (VerifyAgentAt(c, reg, fields.agentId, issuedAt), EvaluatePolicy(c, b, intent, ttlSeconds))
      case (Err(e), _) => [IdentityFault(e)]
      case (_, Err(e)) => [PolicyFault(e)]
      case (Ok(agent), Ok(policy)) => OtherDecision(body, Decide(signatureValid, agent, fields, issuedAt, policy))
  }

  function OtherDecision(body: Value, expected: Decision): seq<Fault> {
    FaultIf(body.GetStr(DECISION) != Some(expected.decision), DecisionNotReproducible)
    + FaultIf(body.Get(REASON_CODES) != Some(TextArray(expected.reasonCodes)), ReasonCodesNotReproducible)
  }

  /** ... with the intent a receipt authorizes. */
  ghost function IntentFaults(c: Crypto, reg: Registry, body: Value, bundle: Option<Value>, intent: Value, agentSignature: string): seq<Fault> {
    var issuedAt := body.U64At(ISSUED_AT);
    var ttlSeconds := TtlSeconds(issuedAt, body.U64At(EXPIRES_AT));
    var agentId := body.GetStr(AGENT_ID).GetOr("");
    var signatureValid := c.verifies(agentId, TextBytes(Canonical.Text(intent)), agentSignature);
    var expectedDenial := body.GetStr(DECISION) == Some(BLOCKED) && ListsReason(body.Get(REASON_CODES), INVALID_AGENT_SIGNATURE);
    FaultIf(DigestJson(c, intent) != body.GetStr(INTENT_HASH).GetOr(""), IntentHashMismatch)
    + EvaluationFaults(c, body, bundle, intent, ttlSeconds)
    + FaultIf(!signatureValid && !expectedDenial, AgentSignatureInvalid)
    + (match ValidateIntent(intent, agentId)
       case None => [IntentInvalid]
       case Some(fields) =>
         FaultIf(body.GetStr(ACTION_ID) != Some(ActionIdFor(c, fields)), ActionIdMismatch)
         + FaultIf(body.GetStr(TENANT_ID) != Some(fields.tenantId), TenantIdMismatch)
         + DecisionFaults(c, reg, body, bundle, intent, fields, signatureValid, issuedAt, ttlSeconds))
  }

  /** `verify_authorization`: everything wrong with an authorization result, now. */
  ghost function VerifyAuthorization(c: Crypto, reg: Registry, result: Value): seq<Fault> {
    FaultIf(result.GetStr(SCHEMA_VERSION) != Some(AUTHORIZATION_RESULT_SCHEMA), ResultSchemaMismatch)
    + match result.Get(AUTHORIZATION)
      case None => [ReceiptMissing]
      case Some(receipt) =>
        if !receipt.Object? then [ReceiptInvalid]
        else match (receipt.GetStr(AUTHORIZATION_ID), receipt.GetStr(GATE_SIGNATURE))
          case (None, _) => [IdMissing]
          case (Some(_), None) => [GateSignatureMissing]
          case (Some(id), Some(signature)) =>
            VerifyReceipt(c, reg, result, receipt.Without({AUTHORIZATION_ID, GATE_SIGNATURE}), id, signature)
  }

  ghost function VerifyReceipt(c: Crypto, reg: Registry, result: Value, body: Value, id: string, signature: string): seq<Fault> {
    var gateId := body.GetStr(GATE_ID).GetOr("");
    FaultIf(DigestJson(c, body) != id, IdMismatch)
    + FaultIf(body.GetStr(SCHEMA_VERSION) != Some(AUTHORIZATION_RECEIPT_SCHEMA), ReceiptSchemaMismatch)
    + FaultIf(!c.verifies(gateId, DigestBytes(id), signature), GateSignatureInvalid)
    + GateFaults(c, reg, gateId, body.U64At(ISSUED_AT))
    + BundleFaults(c, body, result.Get(POLICY_BUNDLE), gateId)
    + match result.Get(INTENT)
      case None => [IntentMissing]
      case Some(intent) => IntentFaults(c, reg, body, result.Get(POLICY_BUNDLE), intent, result.GetStr(AGENT_SIGNATURE).GetOr(""))
  }

  // ---- Execution documents ----

  /** `validate_outcome`: the status of a well-formed outcome. */
  function ValidateOutcome(outcome: Value, authorizationId: string, actionId: string): Option<string> {
    if !outcome.Object? then None
    else if StringField(outcome, SCHEMA_VERSION) != Some(ACTION_OUTCOME_SCHEMA) then None
    else if StringField(outcome, AUTHORIZATION_ID) != Some(authorizationId) then None
    else if StringField(outcome, ACTION_ID) != Some(actionId) then None
    else if StringField(outcome, STATUS) in {Some("SUCCEEDED"), Some("FAILED")} then StringField(outcome, STATUS)
    else None
  }

  /** The part of an outcome its executor signs. */
  function OutcomeToSign(outcome: Value): Value {
    outcome.Without({EXECUTOR_SIGNATURE})
  }

  function ExecutionBody(authorizationId: string, actionId: string, intentHash: string, outcomeHash: string, executorId: string,
                         status: string, completedAt: u64, gateId: string): Value {
    Object(map[
      SCHEMA_VERSION := String(EXECUTION_RECEIPT_SCHEMA),
      AUTHORIZATION_ID := String(authorizationId),
      ACTION_ID := String(actionId),
      INTENT_HASH := String(intentHash),
      OUTCOME_HASH := String(outcomeHash),
      EXECUTOR_ID := String(executorId),
      STATUS := String(status),
      COMPLETED_AT := Number(completedAt),
      GATE_ID := String(gateId)
    ])
  }

  function ExecutionResult(receipt: Value, outcome: Value): Value {
    Object(map[
      SCHEMA_VERSION := String(EXECUTION_RESULT_SCHEMA),
      RECEIPT := receipt,
      OUTCOME := outcome
    ])
  }

  /** The metadata marks a key as one that only proposes actions. */
  predicate IsProposer(metadata: Value) {
    metadata.GetStr("role") == Some("proposer")
  }

  /** What the verifier finds wrong with the executor that signed an outcome. */
  ghost function ExecutorFaults(c: Crypto, reg: Registry, executorId: string, completedAt: u64, tenantId: string): seq<Fault> {
    match VerifyAgentAt(c, reg, executorId, completedAt)
    case Err(e) => [IdentityFault(e)]
    case Ok(None) => [ExecutorIdentityNotTrusted]
    case Ok(Some(state)) =>
      if !state.active then [ExecutorIdentityNotTrusted]
      else
        FaultIf(state.tenantId != "*" && tenantId != "*" && state.tenantId != tenantId, ExecutorTenantScopeMismatch)
        + FaultIf(IsProposer(state.metadata), ExecutorRoleInvalid)
  }

  /** `verify_execution`: everything wrong with an execution result, now. */
  ghost function VerifyExecution(c: Crypto, reg: Registry, authorization: Value, execution: Value): seq<Fault> {
    FaultIf(execution.GetStr(SCHEMA_VERSION) != Some(EXECUTION_RESULT_SCHEMA), ResultSchemaMismatch)
    + match execution.Get(RECEIPT)
      case None => [ReceiptMissing]
      case Some(receipt) =>
        if !receipt.Object? then [ReceiptInvalid]
        else match (receipt.GetStr(RECEIPT_ID), receipt.GetStr(GATE_SIGNATURE))
          case (None, _) => [IdMissing]
          case (Some(_), None) => [GateSignatureMissing]
          case (Some(id), Some(signature)) =>
            VerifyExecutionReceipt(c, reg, authorization.Get(AUTHORIZATION).GetOr(Null), execution,
                                   receipt.Without({RECEIPT_ID, GATE_SIGNATURE}), id, signature)
  }

  ghost function VerifyExecutionReceipt(c: Crypto, reg: Registry, permit: Value, execution: Value, body: Value, id: string, signature: string): seq<Fault> {
    var gateId := body.GetStr(GATE_ID).GetOr("");
    FaultIf(DigestJson(c, body) != id, IdMismatch)
    + FaultIf(body.GetStr(SCHEMA_VERSION) != Some(EXECUTION_RECEIPT_SCHEMA), ReceiptSchemaMismatch)
    + FaultIf(!c.verifies(gateId, DigestBytes(id), signature), GateSignatureInvalid)
    + FaultIf(body.Get(AUTHORIZATION_ID) != permit.Get(AUTHORIZATION_ID), LinkMismatch(AUTHORIZATION_ID))
    + FaultIf(body.Get(ACTION_ID) != permit.Get(ACTION_ID), LinkMismatch(ACTION_ID))
    + FaultIf(body.Get(INTENT_HASH) != permit.Get(INTENT_HASH), LinkMismatch(INTENT_HASH))
    + FaultIf(body.Get(EXECUTOR_ID).Some? && body.Get(EXECUTOR_ID) == permit.Get(AGENT_ID), ExecutorAgentCollusion)
    + match execution.Get(OUTCOME)
      case None => [OutcomeMissing]
      case Some(outcome) => OutcomeFaults(c, reg, permit, body, outcome)
  }

  ghost function OutcomeFaults(c: Crypto, reg: Registry, permit: Value, body: Value, outcome: Value): seq<Fault> {
    var toSign := OutcomeToSign(outcome);
    var executorId := body.GetStr(EXECUTOR_ID).GetOr("");
    FaultIf(DigestJson(c, toSign) != body.GetStr(OUTCOME_HASH).GetOr(""), OutcomeHashMismatch)
    + FaultIf(!c.verifies(executorId, TextBytes(Canonical.Text(toSign)), outcome.GetStr(EXECUTOR_SIGNATURE).GetOr("")), ExecutorSignatureInvalid)
    + ExecutorFaults(c, reg, executorId, body.U64At(COMPLETED_AT), permit.GetStr(TENANT_ID).GetOr("*"))
    + FaultIf(ValidateOutcome(outcome, permit.GetStr(AUTHORIZATION_ID).GetOr(""), permit.GetStr(ACTION_ID).GetOr("")).None?, OutcomeInvalid)
    + FaultIf(body.Get(STATUS) != outcome.Get(STATUS), StatusMismatch)
  }
}
