/** The gate: its tables, and its calls as transitions on them. */
module Gate {
  import opened Prelude
  import opened Names
  import opened Json
  import opened Crypto
  import opened Identity
  import opened Permits
  import opened Policy
  import PolicyStore
  import EventStream
  import Canonical

  // ---- Tables ----

  datatype AuthorizationRow = AuthorizationRow(
    actionId: string, tenantId: string, agentId: string, idempotencyKey: string, intentHash: string,
    decision: string, issuedAt: u64, expiresAt: u64, json: Value)

  datatype OutcomeRow = OutcomeRow(receiptId: string, actionId: string, executorId: string, outcomeHash: string,
                                   completedAt: u64, json: Value)

  datatype RevokedRow = RevokedRow(revokedAt: u64, reason: string, identityEventId: string)

  /** The tables `action_authorizations` (by authorization id), `action_outcomes` (by authorization
      id) and `revoked_authorizations`, with the indexes behind their UNIQUE constraints. */
  datatype PermitTables = PermitTables(
    authorizations: map<string, AuthorizationRow>,
    byAction: map<string, string>,
    byRequest: map<(string, string, string), string>,
    outcomes: map<string, OutcomeRow>,
    outcomeByAction: map<string, string>,
    receipts: set<string>,
    revoked: map<string, RevokedRow>)

  /** The gate's database. The last two fields are no table: they record every document whose digest
      a gate has signed, and the intent each authorization body was signed for. */
  datatype Db = Db(registry: Registry, policies: PolicyStore.Store, streams: EventStream.Tables, permits: PermitTables,
                   signed: set<Value>, issued: map<Value, Value>)

  const EMPTY := Db(Identity.EMPTY, PolicyStore.EMPTY, EventStream.EMPTY,
                    PermitTables(map[], map[], map[], map[], map[], {}, map[]), {}, map[])

  datatype GateError =
    | Refused(identity: IdentityError)
    | PolicyRefused(store: PolicyStore.StoreError)
    | EvaluationFailed(policy: PolicyError)
    | StreamFailure
    | InvalidTtl
    | InvalidJson
    | ContractInvalid
    | StoredAuthorizationInvalid(faults: seq<Fault>)
    | IdempotencyConflict
    | ConstraintViolated
    | AuthorizationNotFound
    | AuthorizationInvalid(faults: seq<Fault>)
    | ActionBlocked
    | PermitRevoked
    | PermitExpired
    | MissingSignature
    | StoredExecutionInvalid(faults: seq<Fault>)
    | AlreadyConsumed
    | ExecutorInvalid
    | ExecutorPolicyDenied
    | ExecutorNotActive
    | ExecutorTenantScopeDenied
    | ExecutorSignatureRejected
    | ActionNotFound

  /** What a call leaves and answers. A call that fails may still have changed the policy tables. */
  datatype Reply<T> = Reply(db: Db, answer: Result<T, GateError>)

  // ---- Agents and policies ----

  /** The documents a policy lookup signs. */
  function LookupSigns(c: Crypto, store: PolicyStore.Store, signer: SignerIdentity, now: u64): set<Value> {
    match PolicyStore.ByVersion(store.bundles, PolicyStore.DEFAULT_POLICY_VERSION)
    case None => SpecSigns(c, PolicyStore.DEFAULT_SPEC, signer, now)
    case Some(existing) =>
      {PolicyStore.AttestationToSign(PolicyStore.DEFAULT_POLICY_VERSION, "*", StringField(existing.bundle, POLICY_DIGEST).GetOr(""), now, signer)}
  }

  /** The documents installing a specification signs. */
  function SpecSigns(c: Crypto, spec: Value, signer: SignerIdentity, now: u64): set<Value> {
    var body := PolicyStore.SpecBody(spec, now, signer);
    {body, PolicyStore.AttestationToSign(StringField(spec, POLICY_VERSION).GetOr(""), StringField(spec, TENANT_ID).GetOr(""),
                                         DigestJson(c, body), now, signer)}
  }

  /** `register_agent`. */
  ghost function Register(env: Env, db: Db, registrar: string, publicKey: string, alias: string, metadata: Option<Value>, now: u64): Reply<Value> {
    match PrepareRegistration(env, db.registry, registrar, publicKey, alias, metadata, now)
    case Err(e) => Reply(db, Err(Refused(e)))
    case Ok(row) =>
      var signer := env.signerFor(registrar);
      var first := db.registry.agents == map[];
      var signed := db.signed + {row.event} + (if first then LookupSigns(env.crypto, db.policies, signer, now) else {});
      var lookup := PolicyStore.EnsureDefault(env.crypto, db.policies, db.streams, signer, now);
      if first && lookup.bundle.Err? then Reply(db.(signed := signed), Err(PolicyRefused(lookup.bundle.error)))
      else
        var policies, streams := if first then lookup.store else db.policies, if first then lookup.events else db.streams;
        match EventStream.RecordEvent(env.crypto, streams, row.tenantId, AGENT_REGISTERED, row.eventId, Canonical.Text(row.event), now)
        case Err(_) => Reply(db.(signed := signed), Err(StreamFailure))
        case Ok(streams') =>
          Reply(db.(registry := AddAgent(db.registry, publicKey, row), policies := policies, streams := streams', signed := signed),
                Ok(row.event))
  }

  /** `rotate_agent`. */
  ghost function Rotate(env: Env, db: Db, gate: string, currentKey: string, newKey: string, now: u64): Reply<()> {
    match RotateAgent(env, db.registry, gate, currentKey, newKey, now)
    case Err(e) => Reply(db, Err(Refused(e)))
    case Ok(registry) =>
      if currentKey !in db.registry.agents || Entry(db.registry.agents, currentKey).keyVersion == U64_MAX then Reply(db, Err(Refused(RotationInvalid)))
      else
        var row := Entry(db.registry.agents, currentKey);
        Reply(db.(registry := registry,
                  signed := db.signed + {RotationOf(env, row, gate, currentKey, newKey, now),
                                         RotatedRegistration(env, row, gate, currentKey, newKey, now)}),
              Ok(()))
  }

  /** The permits a revocation invalidates: allowed, unexpired, without an outcome. */
  function RevocablePermits(permits: PermitTables, agentId: string, now: u64): set<string> {
    set id <- permits.authorizations |
      && permits.authorizations[id].agentId == agentId
      && permits.authorizations[id].decision == ALLOWED
      && permits.authorizations[id].expiresAt > now
      && id !in permits.outcomes
  }

  /** `INSERT OR IGNORE INTO revoked_authorizations ...`. */
  function RevokePermits(permits: PermitTables, agentId: string, now: u64, reason: string, eventId: string): PermitTables {
    var ids := RevocablePermits(permits, agentId, now);
    permits.(revoked := (map id <- ids :: RevokedRow(now, reason, eventId)) + permits.revoked)
  }

  /** `revoke_agent`. */
  ghost function Revoke(env: Env, db: Db, gate: string, publicKey: string, reason: string, now: u64): Reply<()> {
    match RevokeAgent(env, db.registry, gate, publicKey, reason, now)
    case Err(e) => Reply(db, Err(Refused(e)))
    case Ok(registry) =>
      if publicKey !in db.registry.agents then Reply(db, Err(Refused(RevocationInvalid)))
      else
        var event := RevocationOf(env, Entry(db.registry.agents, publicKey), gate, publicKey, reason, now);
        Reply(db.(registry := registry,
                  permits := RevokePermits(db.permits, publicKey, now, reason, DigestJson(env.crypto, event)),
                  signed := db.signed + {event}),
              Ok(()))
  }

  /** `install_policy`. */
  function InstallPolicy(env: Env, db: Db, gate: string, spec: Option<Value>, now: u64): Reply<Value> {
    match spec
    case None => Reply(db, Err(InvalidJson))
    case Some(spec) =>
      var signed := db.signed + SpecSigns(env.crypto, spec, env.signerFor(gate), now);
      match PolicyStore.Install(env.crypto, db.policies, db.streams, env.signerFor(gate), spec, now)
      case Err(e) => Reply(db.(signed := signed), Err(PolicyRefused(e)))
      case Ok(done) => Reply(db.(policies := done.store, streams := done.events, signed := signed), Ok(done.bundle))
  }

  // ---- Requests ----

  /** A call that found its answer, or still has a row to write. */
  datatype Draft<Row> = Stored(json: Value) | ToWrite(id: string, row: Row)

  /** The row a request will insert. */
  function AuthorizationDraft(env: Env, fields: IntentFields, intent: Value, agentSignature: string, gate: string, bundle: Value,
                              policy: PolicyDecision, decision: Decision, issuedAt: u64, expiresAt: u64): (string, AuthorizationRow)
  {
    var intentHash := DigestJson(env.crypto, intent);
    var actionId := ActionIdFor(env.crypto, fields);
    var body := AuthorizationBody(actionId, fields, intentHash, decision, StringField(bundle, POLICY_VERSION).GetOr(""),
                                  StringField(bundle, POLICY_DIGEST).GetOr(""), policy, issuedAt, expiresAt, env.signerFor(gate));
    (DigestJson(env.crypto, body),
     AuthorizationRow(actionId, fields.tenantId, fields.agentId, fields.idempotencyKey, intentHash, decision.decision, issuedAt, expiresAt,
                      AuthorizationResult(Receipt(env.crypto, body, AUTHORIZATION_ID, gate), intent, agentSignature, bundle)))
  }

  /** The body of an authorization row. */
  function BodyOf(row: AuthorizationRow): Value {
    row.json.Get(AUTHORIZATION).GetOr(Null).Without({AUTHORIZATION_ID, GATE_SIGNATURE})
  }

  /** The answer to an intent already decided. */
  ghost function AnswerStored(env: Env, db: Db, row: AuthorizationRow, intentHash: string): Result<Draft<AuthorizationRow>, GateError> {
    if row.intentHash != intentHash then Err(IdempotencyConflict)
    else
      var faults := VerifyAuthorization(env.crypto, db.registry, row.json);
      if faults != [] then Err(StoredAuthorizationInvalid(faults)) else Ok(Stored(row.json))
  }

  /** The read phase of `request_action_signed`: everything before its write transaction. */
  ghost function BeginRequest(env: Env, db: Db, gate: string, intent: Option<Value>, agentId: string, agentSignature: string,
                        ttlSeconds: u64, now: u64): Reply<Draft<AuthorizationRow>>
  {
    if !(1 <= ttlSeconds <= 86_400) then Reply(db, Err(InvalidTtl))
    else if intent.None? then Reply(db, Err(InvalidJson))
    else match ValidateIntent(The(intent), agentId)
      case None => Reply(db, Err(ContractInvalid))
      case Some(fields) =>
        var actionId := ActionIdFor(env.crypto, fields);
        if actionId in db.permits.byAction && Entry(db.permits.byAction, actionId) in db.permits.authorizations then
          Reply(db, AnswerStored(env, db, Entry(db.permits.authorizations, Entry(db.permits.byAction, actionId)), DigestJson(env.crypto, The(intent))))
        else DecideRequest(env, db, gate, The(intent), fields, agentSignature, ttlSeconds, now)
  }

  /** ... for an action not decided yet. */
  ghost function DecideRequest(env: Env, db: Db, gate: string, intent: Value, fields: IntentFields, agentSignature: string,
                         ttlSeconds: u64, now: u64): Reply<Draft<AuthorizationRow>>
  {
    match GateIdentity(env.crypto, db.registry, gate, now)
    case Err(e) => Reply(db, Err(Refused(e)))
    case Ok(_) =>
      var signer := env.signerFor(gate);
      var lookup := PolicyStore.ActivePolicy(env.crypto, db.policies, db.streams, signer, fields.tenantId, now);
      var db1 := db.(policies := lookup.store, streams := lookup.events,
                     signed := db.signed + LookupSigns(env.crypto, db.policies, signer, now));
      match lookup.bundle
      case Err(e) => Reply(db1, Err(PolicyRefused(e)))
      case Ok(bundle) => IssueDecision(env, db1, gate, intent, fields, agentSignature, ttlSeconds, bundle, now)
  }

  /** ... under the policy found. */
  ghost function IssueDecision(env: Env, db: Db, gate: string, intent: Value, fields: IntentFields, agentSignature: string,
                         ttlSeconds: u64, bundle: Value, now: u64): Reply<Draft<AuthorizationRow>>
  {
    match (EvaluatePolicy(env.crypto, bundle, intent, ttlSeconds), VerifyAgentAt(env.crypto, db.registry, fields.agentId, now))
    case (Err(e), _) => Reply(db, Err(EvaluationFailed(e)))
    case (_, Err(e)) => Reply(db, Err(Refused(e)))
    case (Ok(policy), Ok(agent)) =>
      if now + ttlSeconds * MICROS_PER_SECOND > U64_MAX then Reply(db, Err(InvalidTtl))
      else
        var signatureValid := env.crypto.verifies(fields.agentId, TextBytes(Canonical.Text(intent)), agentSignature);
        Drafting(db, intent, AuthorizationDraft(env, fields, intent, agentSignature, gate, bundle, policy,
                                                Decide(signatureValid, agent, fields, now, policy), now, Expiry(now, ttlSeconds)))
  }

  /** The gate has signed what it is about to write. */
  function Drafting(db: Db, intent: Value, draft: (string, AuthorizationRow)): Reply<Draft<AuthorizationRow>> {
    Reply(db.(signed := db.signed + {BodyOf(draft.1)}, issued := db.issued[BodyOf(draft.1) := intent]), Ok(ToWrite(draft.0, draft.1)))
  }

  /** The write transaction of `request_action_signed`. */
  function FinishRequest(env: Env, db: Db, id: string, row: AuthorizationRow): Reply<Value> {
    var request := (row.tenantId, row.agentId, row.idempotencyKey);
    if id in db.permits.authorizations || row.actionId in db.permits.byAction || request in db.permits.byRequest
    then Reply(db, Err(ConstraintViolated))
    else match EventStream.RecordEvent(env.crypto, db.streams, row.tenantId, ACTION_AUTHORIZED, id, Canonical.Text(row.json), row.issuedAt)
      case Err(_) => Reply(db, Err(StreamFailure))
      case Ok(streams) =>
        Reply(db.(permits := db.permits.(authorizations := db.permits.authorizations[id := row],
                                         byAction := db.permits.byAction[row.actionId := id],
                                         byRequest := db.permits.byRequest[request := id]),
                  streams := streams),
              Ok(row.json))
  }

  /** `request_action_signed` without another call in between. */
  ghost function Request(env: Env, db: Db, gate: string, intent: Option<Value>, agentId: string, agentSignature: string,
                   ttlSeconds: u64, now: u64): Reply<Value>
  {
    var begun := BeginRequest(env, db, gate, intent, agentId, agentSignature, ttlSeconds, now);
    match begun.answer
    case Err(e) => Reply(begun.db, Err(e))
    case Ok(Stored(json)) => Reply(begun.db, Ok(json))
    case Ok(ToWrite(id, row)) => FinishRequest(env, begun.db, id, row)
  }

  // ---- Outcomes ----

  /** The checks of `commit_outcome_signed` on the permit itself: the first failure, if any. */
  ghost function PermitRefusal(env: Env, db: Db, id: string, now: u64): Option<GateError> {
    if id !in db.permits.authorizations then Some(AuthorizationNotFound)
    else
      var json := Entry(db.permits.authorizations, id).json;
      var faults := VerifyAuthorization(env.crypto, db.registry, json);
      if faults != [] then Some(AuthorizationInvalid(faults))
      else if json.Get(AUTHORIZATION).None? then Some(AuthorizationInvalid([]))
      else
        var permit := The(json.Get(AUTHORIZATION));
        if permit.GetStr(DECISION) != Some(ALLOWED) then Some(ActionBlocked)
        else if id in db.permits.revoked then Some(PermitRevoked)
        else if permit.GetU64(EXPIRES_AT).None? then Some(ContractInvalid)
        else if now > The(permit.GetU64(EXPIRES_AT)) then Some(PermitExpired)
        else if StringField(permit, ACTION_ID).None? then Some(ContractInvalid)
        else None
  }

  /** The answer when the permit has been consumed already. */
  ghost function AnswerConsumed(env: Env, db: Db, permitJson: Value, existing: OutcomeRow, outcomeHash: string): Result<Draft<OutcomeRow>, GateError> {
    if existing.outcomeHash != outcomeHash then Err(AlreadyConsumed)
    else
      var faults := VerifyExecution(env.crypto, db.registry, permitJson, existing.json);
      if faults != [] then Err(StoredExecutionInvalid(faults)) else Ok(Stored(existing.json))
  }

  /** The checks on the executor: the first failure, if any. */
  ghost function ExecutorRefusal(env: Env, db: Db, permitJson: Value, permit: Value, executorId: string, toSign: Value, signature: string, now: u64)
    : Option<GateError>
  {
    if StringField(permit, AGENT_ID).None? then Some(ContractInvalid)
    else if Some(executorId) == StringField(permit, AGENT_ID) then Some(ExecutorInvalid)
    else if permitJson.Get(POLICY_BUNDLE).None? then Some(ContractInvalid)
    else match ExecutorAllowed(env.crypto, permitJson.Get(POLICY_BUNDLE).value, executorId)
      case Err(e) => Some(EvaluationFailed(e))
      case Ok(false) => Some(ExecutorPolicyDenied)
      case Ok(true) =>
        IdentityRefusal(env, db, permit, executorId, toSign, signature, now)
  }

  /** ... on its identity and signature. */
  ghost function IdentityRefusal(env: Env, db: Db, permit: Value, executorId: string, toSign: Value, signature: string, now: u64): Option<GateError> {
    match VerifyAgentAt(env.crypto, db.registry, executorId, now)
    case Err(e) => Some(Refused(e))
    case Ok(None) => Some(ExecutorNotActive)
    case Ok(Some(state)) =>
      if !state.active then Some(ExecutorNotActive)
      else if StringField(permit, TENANT_ID).None? then Some(ContractInvalid)
      else if state.tenantId != "*" && Some(state.tenantId) != StringField(permit, TENANT_ID) then Some(ExecutorTenantScopeDenied)
      else if IsProposer(state.metadata) then Some(ExecutorInvalid)
      else if !env.crypto.verifies(executorId, TextBytes(Canonical.Text(toSign)), signature) then Some(ExecutorSignatureRejected)
      else None
  }

  /** The row an outcome will insert. */
  function OutcomeDraft(env: Env, id: string, permit: Value, outcome: Value, executorId: string, status: string, gate: string, now: u64): OutcomeRow {
    var actionId := StringField(permit, ACTION_ID).GetOr("");
    var outcomeHash := DigestJson(env.crypto, OutcomeToSign(outcome));
    var body := ExecutionBody(id, actionId, StringField(permit, INTENT_HASH).GetOr(""), outcomeHash, executorId, status, now, gate);
    OutcomeRow(DigestJson(env.crypto, body), actionId, executorId, outcomeHash, now,
               ExecutionResult(Receipt(env.crypto, body, RECEIPT_ID, gate), outcome))
  }

  function ExecutionBodyOf(row: OutcomeRow): Value {
    row.json.Get(RECEIPT).GetOr(Null).Without({RECEIPT_ID, GATE_SIGNATURE})
  }

  /** The read phase of `commit_outcome_signed`. */
  ghost function BeginCommit(env: Env, db: Db, gate: string, id: string, outcome: Option<Value>, now: u64): Reply<Draft<OutcomeRow>> {
    match PermitRefusal(env, db, id, now)
    case Some(e) => Reply(db, Err(e))
    case None =>
      if id !in db.permits.authorizations then Reply(db, Err(AuthorizationNotFound))
      else
        var json := Entry(db.permits.authorizations, id).json;
        var permit := json.Get(AUTHORIZATION).GetOr(Null);
        if outcome.None? then Reply(db, Err(InvalidJson))
        else if The(outcome).GetStr(EXECUTOR_SIGNATURE).None? then Reply(db, Err(MissingSignature))
        else
          var toSign := OutcomeToSign(The(outcome));
          match ValidateOutcome(toSign, id, StringField(permit, ACTION_ID).GetOr(""))
          case None => Reply(db, Err(ContractInvalid))
          case Some(status) =>
            if id in db.permits.outcomes then
              Reply(db, AnswerConsumed(env, db, json, Entry(db.permits.outcomes, id), DigestJson(env.crypto, toSign)))
            else DecideOutcome(env, db, gate, id, json, permit, The(outcome), status, now)
  }

  /** ... for a permit not consumed yet. */
  ghost function DecideOutcome(env: Env, db: Db, gate: string, id: string, json: Value, permit: Value, outcome: Value, status: string, now: u64)
    : Reply<Draft<OutcomeRow>>
  {
    match StringField(OutcomeToSign(outcome), EXECUTOR_ID)
    case None => Reply(db, Err(ContractInvalid))
    case Some(executorId) =>
      match ExecutorRefusal(env, db, json, permit, executorId, OutcomeToSign(outcome), outcome.GetStr(EXECUTOR_SIGNATURE).GetOr(""), now)
      case Some(e) => Reply(db, Err(e))
      case None =>
        match GateIdentity(env.crypto, db.registry, gate, now)
        case Err(e) => Reply(db, Err(Refused(e)))
        case Ok(_) =>
          if StringField(permit, INTENT_HASH).None? then Reply(db, Err(ContractInvalid))
          else
            var row := OutcomeDraft(env, id, permit, outcome, executorId, status, gate, now);
            Reply(db.(signed := db.signed + {ExecutionBodyOf(row)}), Ok(ToWrite(id, row)))
  }

  /** The tenant whose stream an outcome is published in, and the kind of event it is. */
  function OutcomeEvent(db: Db, id: string, row: OutcomeRow): (string, string) {
    (if id !in db.permits.authorizations then "*"
     else StringField(db.permits.authorizations[id].json.Get(AUTHORIZATION).GetOr(Null), TENANT_ID).GetOr("*"),
     if row.json.Get(RECEIPT).GetOr(Null).GetStr(STATUS) == Some("SUCCEEDED") then ACTION_EXECUTED else ACTION_FAILED)
  }

  /** The write transaction of `commit_outcome_signed`. */
  function FinishCommit(env: Env, db: Db, id: string, row: OutcomeRow): Reply<Value> {
    if id !in db.permits.authorizations then Reply(db, Err(AuthorizationNotFound))
    else if id in db.permits.outcomes || row.actionId in db.permits.outcomeByAction || row.receiptId in db.permits.receipts
    then Reply(db, Err(ConstraintViolated))
    else
      var (tenant, eventType) := OutcomeEvent(db, id, row);
      match EventStream.RecordEvent(env.crypto, db.streams, tenant, eventType, row.receiptId, Canonical.Text(row.json), row.completedAt)
      case Err(_) => Reply(db, Err(StreamFailure))
      case Ok(streams) =>
        Reply(db.(permits := db.permits.(outcomes := db.permits.outcomes[id := row],
                                         outcomeByAction := db.permits.outcomeByAction[row.actionId := id],
                                         receipts := db.permits.receipts + {row.receiptId}),
                  streams := streams),
              Ok(row.json))
  }

  /** `commit_outcome_signed` without another call in between. */
  ghost function Commit(env: Env, db: Db, gate: string, id: string, outcome: Option<Value>, now: u64): Reply<Value> {
    var begun := BeginCommit(env, db, gate, id, outcome, now);
    match begun.answer
    case Err(e) => Reply(begun.db, Err(e))
    case Ok(Stored(json)) => Reply(begun.db, Ok(json))
    case Ok(ToWrite(id', row)) => FinishCommit(env, begun.db, id', row)
  }

  // ---- Traces ----

  datatype Phase = Blocked | Completed | Expired | Authorized

  datatype TraceReport = TraceReport(verified: bool, phase: Phase, faults: seq<Fault>)

  /** The execution stored for an action. */
  function ExecutionFor(db: Db, actionId: string): Option<Value> {
    if actionId in db.permits.outcomeByAction && db.permits.outcomeByAction[actionId] in db.permits.outcomes
    then Some(db.permits.outcomes[db.permits.outcomeByAction[actionId]].json) else None
  }

  /** What is wrong with an authorization and its execution, and where the action stands. */
  ghost function Report(env: Env, reg: Registry, json: Value, execution: Option<Value>, now: u64): TraceReport {
    var faults := VerifyAuthorization(env.crypto, reg, json)
      + (if execution.Some? then VerifyExecution(env.crypto, reg, json, The(execution)) else []);
    var receipt := json.Get(AUTHORIZATION).GetOr(Null);
    var phase :=
      if receipt.GetStr(DECISION) == Some(BLOCKED) then Blocked
      else if execution.Some? then Completed
      else if now > receipt.U64At(EXPIRES_AT) then Expired
      else Authorized;
    TraceReport(faults == [], phase, faults)
  }

  /** `verify_trace`, on the documents stored. */
  ghost function VerifyTrace(env: Env, db: Db, actionId: string, now: u64): Result<TraceReport, GateError> {
    if actionId !in db.permits.byAction || Entry(db.permits.byAction, actionId) !in db.permits.authorizations then Err(ActionNotFound)
    else Ok(Report(env, db.registry, Entry(db.permits.authorizations, Entry(db.permits.byAction, actionId)).json, ExecutionFor(db, actionId), now))
  }
}
