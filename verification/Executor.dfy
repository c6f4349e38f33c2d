/** The mediated executor: its table of consumed permits, the check of a permit, and its calls. */
module Executor {
  import opened Prelude
  import opened Names
  import opened Json
  import opened Crypto
  import opened Policy
  import opened Permits
  import Canonical
  import Gate

  // ---- The table ----

  const STARTED := "STARTED"
  const SUCCEEDED := "SUCCEEDED"
  const FAILED := "FAILED"
  const UNKNOWN := "UNKNOWN"

  /** A row of the table `consumed_permits`, whose primary key is the authorization id. */
  datatype ConsumedRow = ConsumedRow(actionId: string, status: string, startedAt: u64, completedAt: Option<u64>,
                                     outcome: Option<string>, observation: string)

  type Consumptions = map<string, ConsumedRow>

  datatype ExecutorError =
    | InvalidPermit
    | CrossTenant
    | UntrustedGate
    | PermitIdMismatch
    | InvalidGateSignature
    | NotAllowed
    | InvalidBundle(fault: PolicyError)
    | BindingMismatch
    | PolicyFailure(policy: PolicyError)
    | ExecutorDenied
    | IntentMismatch
    | PermitExpired
    | NotReproducible
    | PermitRevoked
    | CommittedAtGate
    | AlreadyConsumed
    | NotStarted
    | ConsumptionNotFound
    | ConsumptionMismatch
    | InvalidStatus

  predicate ActionStarted(t: Consumptions, actionId: string) {
    exists id <- t :: t[id].actionId == actionId
  }

  /** `start_consumption`: both the authorization and the action are UNIQUE. */
  function Start(t: Consumptions, id: string, actionId: string, observation: string, now: u64): Result<Consumptions, ExecutorError> {
    if id in t || ActionStarted(t, actionId) then Err(AlreadyConsumed)
    else Ok(t[id := ConsumedRow(actionId, STARTED, now, None, None, observation)])
  }

  /** `complete_consumption`. */
  function Complete(t: Consumptions, id: string, status: string, outcome: string, observation: string, now: u64): Result<Consumptions, ExecutorError> {
    if id !in t || t[id].status != STARTED then Err(NotStarted)
    else Ok(t[id := t[id].(status := status, completedAt := Some(now), outcome := Some(outcome), observation := observation)])
  }

  /** `mark_unknown` of the table. */
  function MarkUnknown(t: Consumptions, id: string, observation: string, now: u64): Result<Consumptions, ExecutorError> {
    if id !in t || t[id].status != STARTED then Err(NotStarted)
    else Ok(t[id := t[id].(status := UNKNOWN, completedAt := Some(now), observation := observation)])
  }

  // ---- The executor ----

  /** An executor: the key it signs with, and the gate and tenant it serves. */
  datatype Config = Config(executorId: string, trustedGate: string, trustedTenant: string)

  /** `sign_observation`. */
  function SignedObservation(c: Crypto, executorId: string, id: string, actionId: string, status: string, observedAt: u64, details: Value): string {
    var observation := Object(map[
      SCHEMA_VERSION := String("tempus.executor-observation.v1"),
      AUTHORIZATION_ID := String(id),
      ACTION_ID := String(actionId),
      EXECUTOR_ID := String(executorId),
      STATUS := String(status),
      "observed_at" := Number(observedAt),
      "details" := details
    ]);
    Canonical.Text(observation.With(EXECUTOR_SIGNATURE, String(c.sign(executorId, TextBytes(Canonical.Text(observation))))))
  }

  /** What the gate's database says against a permit. */
  function GateObjection(db: Gate.Db, id: string, agentId: string): Option<ExecutorError> {
    if id in db.permits.revoked then Some(PermitRevoked)
    else if exists row <- db.registry.lifecycle :: row.publicKey == agentId && row.eventType == REVOKE then Some(PermitRevoked)
    else if id in db.permits.outcomes then Some(CommittedAtGate)
    else None
  }

  /** What is wrong with the signature of a permit. */
  function SignatureObjection(c: Crypto, config: Config, authorization: Value): Option<ExecutorError> {
    if authorization.GetStr(GATE_SIGNATURE).None? || authorization.GetStr(GATE_ID).None? then Some(InvalidPermit)
    else
      var signature, gateId := authorization.GetStr(GATE_SIGNATURE).value, authorization.GetStr(GATE_ID).value;
      if gateId != config.trustedGate then Some(UntrustedGate)
      else if !c.isPublicKey(gateId) || !c.isSignature(signature) then Some(InvalidPermit)
      else match authorization.GetStr(AUTHORIZATION_ID)
        case None => Some(InvalidPermit)
        case Some(id) =>
          if !authorization.Object? then Some(InvalidPermit)
          else if DigestJson(c, authorization.Without({AUTHORIZATION_ID, GATE_SIGNATURE})) != id then Some(PermitIdMismatch)
          else if !c.verifies(gateId, DigestBytes(id), signature) then Some(InvalidGateSignature)
          else None
  }

  /** ... with the policy it was decided under. */
  function PolicyObjection(c: Crypto, config: Config, authorization: Value, bundle: Value): Option<ExecutorError> {
    match BundleFault(c, bundle, Some(authorization.GetStr(GATE_ID).GetOr("")))
    case Some(fault) => Some(InvalidBundle(fault))
    case None =>
      if authorization.Get(POLICY_VERSION) != bundle.Get(POLICY_VERSION)
         || authorization.Get(POLICY_DIGEST) != bundle.Get(POLICY_DIGEST) then Some(BindingMismatch)
      else match ExecutorAllowed(c, bundle, config.executorId)
        case Err(e) => Some(PolicyFailure(e))
        case Ok(false) => Some(ExecutorDenied)
        case Ok(true) => None
  }

  /** ... with what it permits, and until when. */
  function IntentObjection(c: Crypto, authorization: Value, bundle: Value, intent: Value, now: u64): Option<ExecutorError> {
    if authorization.GetStr(INTENT_HASH).None? then Some(InvalidPermit)
    else if DigestJson(c, intent) != authorization.GetStr(INTENT_HASH).value then Some(IntentMismatch)
    else if authorization.GetU64(EXPIRES_AT).None? then Some(InvalidPermit)
    else if now > authorization.GetU64(EXPIRES_AT).value then Some(PermitExpired)
    else if authorization.GetU64(ISSUED_AT).None? then Some(InvalidPermit)
    else
      var ttlSeconds := TtlSeconds(authorization.GetU64(ISSUED_AT).value, authorization.GetU64(EXPIRES_AT).value);
      match EvaluatePolicy(c, bundle, intent, ttlSeconds)
      case Err(e) => Some(PolicyFailure(e))
      case Ok(policy) =>
        if !policy.allowed
           || authorization.GetStr(EVIDENCE_DIGEST) != Some(policy.evidenceDigest)
           || authorization.Get(EXECUTOR_CONSTRAINTS) != Some(policy.executorConstraints) then Some(NotReproducible)
        else None
  }

  /** Everything `verify_and_consume_permit` checks before it consumes: the authorization, or an error. */
  function CheckPermit(c: Crypto, config: Config, gateDb: Option<Gate.Db>, permit: Value, now: u64): Result<Value, ExecutorError> {
    if permit.GetStr(SCHEMA_VERSION) != Some(AUTHORIZATION_RESULT_SCHEMA) then Err(InvalidPermit)
    else if permit.Get(AUTHORIZATION).None? || permit.Get(INTENT).None? then Err(InvalidPermit)
    else
      var authorization, intent := permit.Get(AUTHORIZATION).value, permit.Get(INTENT).value;
      if intent.GetStr(TENANT_ID).None? then Err(InvalidPermit)
      else if intent.GetStr(TENANT_ID).value != config.trustedTenant then Err(CrossTenant)
      else match SignatureObjection(c, config, authorization)
        case Some(e) => Err(e)
        case None =>
          if authorization.GetStr(DECISION) != Some(ALLOWED) then Err(NotAllowed)
          else if permit.Get(POLICY_BUNDLE).None? then Err(InvalidPermit)
          else match PolicyObjection(c, config, authorization, permit.Get(POLICY_BUNDLE).value)
            case Some(e) => Err(e)
            case None =>
              match IntentObjection(c, authorization, permit.Get(POLICY_BUNDLE).value, intent, now)
              case Some(e) => Err(e)
              case None => CheckAtGate(authorization, gateDb)
  }

  /** ... the part that asks the gate's database, if the executor has one. */
  function CheckAtGate(authorization: Value, gateDb: Option<Gate.Db>): Result<Value, ExecutorError> {
    var id, agentId := authorization.GetStr(AUTHORIZATION_ID).GetOr(""), authorization.GetStr(AGENT_ID).GetOr("");
    if gateDb.Some? && GateObjection(gateDb.value, id, agentId).Some? then Err(GateObjection(gateDb.value, id, agentId).value)
    else if authorization.GetStr(ACTION_ID).None? then Err(InvalidPermit)
    else Ok(authorization)
  }

  /** What a started consumption records of the policy; a missing member is null. */
  function StartDetails(authorization: Value): Value {
    Object(map[
      POLICY_VERSION := authorization.Get(POLICY_VERSION).GetOr(Null),
      POLICY_DIGEST := authorization.Get(POLICY_DIGEST).GetOr(Null)
    ])
  }

  /** The instants one call reads from the clock: to judge it, to date the observation, to date the row. */
  datatype Instants = Instants(checked: u64, observed: u64, written: u64)

  /** `verify_and_consume_permit`. */
  function Consume(c: Crypto, config: Config, gateDb: Option<Gate.Db>, t: Consumptions, permit: Value, at: Instants)
    : Result<(Consumptions, Value), ExecutorError>
  {
    match CheckPermit(c, config, gateDb, permit, at.checked)
    case Err(e) => Err(e)
    case Ok(authorization) =>
      var id, actionId := authorization.GetStr(AUTHORIZATION_ID).GetOr(""), authorization.GetStr(ACTION_ID).GetOr("");
      match Start(t, id, actionId, SignedObservation(c, config.executorId, id, actionId, STARTED, at.observed, StartDetails(authorization)), at.written)
      case Err(e) => Err(e)
      case Ok(t') => Ok((t', authorization))
  }

  // ---- Outcomes ----

  function OutcomeBody(executorId: string, id: string, actionId: string, status: string, output: Value): Value {
    Object(map[
      SCHEMA_VERSION := String(ACTION_OUTCOME_SCHEMA),
      AUTHORIZATION_ID := String(id),
      ACTION_ID := String(actionId),
      STATUS := String(status),
      EXECUTOR_ID := String(executorId),
      "output" := output
    ])
  }

  /** The outcome document an executor signs. */
  function SignedOutcome(c: Crypto, executorId: string, id: string, actionId: string, status: string, output: Value): Value {
    var body := OutcomeBody(executorId, id, actionId, status, output);
    body.With(EXECUTOR_SIGNATURE, String(c.sign(executorId, TextBytes(Canonical.Text(body)))))
  }

  /** The read phase of `complete_execution`: what is wrong, if anything. */
  function CompletionFault(t: Consumptions, id: string, actionId: string, status: string): Option<ExecutorError> {
    if status !in {SUCCEEDED, FAILED} then Some(InvalidStatus)
    else if id !in t then Some(ConsumptionNotFound)
    else if t[id].actionId != actionId || t[id].status != STARTED then Some(ConsumptionMismatch)
    else None
  }

  /** The write phase of `complete_execution`. */
  function WriteOutcome(c: Crypto, config: Config, t: Consumptions, id: string, actionId: string, status: string, output: Value, at: Instants)
    : Result<(Consumptions, string), ExecutorError>
  {
    var text := Canonical.Text(SignedOutcome(c, config.executorId, id, actionId, status, output));
    var observation := SignedObservation(c, config.executorId, id, actionId, status, at.observed, Object(map[OUTCOME_HASH := String(c.sha256(text))]));
    match Complete(t, id, status, text, observation, at.written)
    case Err(e) => Err(e)
    case Ok(t') => Ok((t', text))
  }

  /** `complete_execution` without another call in between. */
  function CompleteExecution(c: Crypto, config: Config, t: Consumptions, id: string, actionId: string, status: string, output: Value, at: Instants)
    : Result<(Consumptions, string), ExecutorError>
  {
    match CompletionFault(t, id, actionId, status)
    case Some(e) => Err(e)
    case None => WriteOutcome(c, config, t, id, actionId, status, output, at)
  }

  function UnknownObservation(c: Crypto, config: Config, id: string, actionId: string, reason: string, observedAt: u64): string {
    SignedObservation(c, config.executorId, id, actionId, UNKNOWN, observedAt, Object(map["reason" := String(reason)]))
  }

  /** `mark_unknown` of the executor, without another call in between. */
  function GiveUp(c: Crypto, config: Config, t: Consumptions, id: string, reason: string, at: Instants): Result<(Consumptions, string), ExecutorError> {
    if id !in t then Err(ConsumptionNotFound)
    else if t[id].status != STARTED then Err(NotStarted)
    else
      var observation := UnknownObservation(c, config, id, t[id].actionId, reason, at.observed);
      match MarkUnknown(t, id, observation, at.written)
      case Err(e) => Err(e)
      case Ok(t') => Ok((t', observation))
  }

  const RECOVERY_REASON := "EXECUTOR_RECOVERY_TIMEOUT"

  /** `list_started_before` lists these. */
  function StartedBefore(t: Consumptions, cutoff: u64): set<string> {
    set id <- t | t[id].status == STARTED && t[id].startedAt <= cutoff
  }

  /** The rows `list_started_before` returns, in its order. */
  ghost predicate Lists(t: Consumptions, cutoff: u64, order: seq<string>) {
    && (forall id :: id in order <==> id in StartedBefore(t, cutoff))
    && (forall i, j | 0 <= i < j < |order| :: order[i] != order[j])
    && (forall i, j | 0 <= i < j < |order| && order[i] in t && order[j] in t :: t[order[i]].startedAt <= t[order[j]].startedAt)
  }

  /** The instant before which `recover_incomplete` recovers. */
  function Cutoff(now: u64, olderThanSeconds: u64): u64 {
    SaturatingSub(now, if olderThanSeconds * 1_000_000 > U64_MAX then U64_MAX else olderThanSeconds * 1_000_000)
  }
}
