/** The gate as an object over its tables: the checks of keys and documents step by step, and every
    call as a transaction. */
module GateService {
  import opened Prelude
  import opened Names
  import opened Json
  import opened Crypto
  import opened Policy
  import opened Identity
  import opened Permits
  import opened Gate
  import Canonical
  import EventStream
  import PolicyStore
  import opened EventStore
  import opened PolicyService

  class GateStorage {
    const env: Env
    const policies: PolicyTables
    var registry: Registry
    var permits: PermitTables
    ghost var signed: set<Value>
    ghost var issued: map<Value, Value>

    constructor (env: Env)
      ensures this.env == env && Wired() && fresh(policies) && fresh(policies.events)
      ensures State() == Gate.EMPTY
    {
      var events := new EventTables(env.crypto);
      this.env := env;
      this.policies := new PolicyTables(events);
      this.registry := Identity.EMPTY;
      this.permits := Gate.EMPTY.permits;
      this.signed := {};
      this.issued := map[];
    }

    /** The objects speak of one deployment. */
    ghost predicate Wired() {
      policies.events.crypto == env.crypto
    }

    ghost function State(): Db
      reads this, policies, policies.events
    {
      Db(registry, policies.store, policies.events.tables, permits, signed, issued)
    }

    // ---- Keys ----

    /** `lifecycle_end_for_key`: the loop over an identity's events. */
    method LifecycleEndForKey(identityId: string, publicKey: string) returns (r: Result<Option<End>, IdentityError>)
      requires Grounded(registry)
      requires publicKey in registry.agents && registry.agents[publicKey].identityId == identityId
      ensures r == LifecycleEnd(env.crypto, registry, identityId, publicKey, 0, None)
      decreases Level(registry, publicKey), 0
    {
      hide Grounded, Level, EventAuthentic, Effect, VerifyAgentInner;
      var end: Option<End> := None;
      var i := 0;
      while i < |registry.lifecycle|
        invariant 0 <= i <= |registry.lifecycle|
        invariant LifecycleEnd(env.crypto, registry, identityId, publicKey, i, end) == LifecycleEnd(env.crypto, registry, identityId, publicKey, 0, None)
      {
        var row := registry.lifecycle[i];
        i := i + 1;
        if row.identityId != identityId { continue; }
        if !EventAuthentic(env.crypto, identityId, row) { return Err(EventInvalid); }
        AuthenticHasEvent(env.crypto, identityId, row);
        SignerFalls(registry, publicKey, i - 1);
        var event := row.json.Get(EVENT).value;
        var authority := VerifyAgentStateAtInner(SignerOf(row), event.GetU64(EFFECTIVE_AT).value, {});
        if authority.Err? { return Err(authority.error); }
        if authority.value.None? || !authority.value.value.active || !authority.value.value.canDelegate { return Err(EventInvalid); }
        var tenant := StringField(event, TENANT_ID);
        if tenant.None? { return Err(EventInvalid); }
        if authority.value.value.tenantId != "*" && authority.value.value.tenantId != tenant.value { return Err(EventInvalid); }
        var effect := Effect(row, publicKey);
        if effect.None? { return Err(EventInvalid); }
        if end.None? { end := effect.value; }
      }
      return Ok(end);
    }

    /** `verify_agent_state_at_inner`. */
    method VerifyAgentStateAtInner(publicKey: string, at: u64, visited: set<string>) returns (r: Result<Option<AgentState>, IdentityError>)
      requires Grounded(registry)
      ensures r == VerifyAgentInner(env.crypto, registry, publicKey, at, visited)
      decreases Level(registry, publicKey), 1
    {
      hide Grounded, Level, Authentic, LifecycleEnd, EndMatches, ValidAt;
      if |visited| > MAX_VISITED || publicKey in visited { return Ok(None); }
      if publicKey !in registry.agents { return Ok(None); }
      var row := registry.agents[publicKey];
      if !Authentic(env.crypto, publicKey, row) { return Ok(None); }
      var end := LifecycleEndForKey(row.identityId, publicKey);
      if end.Err? { return Err(end.error); }
      if !EndMatches(row, end.value) { return Ok(None); }
      if row.registeredBy == publicKey {
        if registry.trustedRoot != Some(publicKey) { return Ok(None); }
      } else {
        RegistrarFalls(registry, publicKey);
        var registrar := VerifyAgentStateAtInner(row.registeredBy, row.registeredAt, visited + {publicKey});
        if registrar.Err? { return Err(registrar.error); }
        if registrar.value.None? { return Ok(None); }
        if !registrar.value.value.active || !registrar.value.value.canDelegate { return Ok(None); }
        if registrar.value.value.tenantId != "*" && registrar.value.value.tenantId != row.tenantId { return Ok(None); }
      }
      return Ok(Some(AgentState(ValidAt(row, end.value, at), row.canDelegate, row.tenantId, row.identityId, row.metadata)));
    }

    /** `gate_identity`. */
    method ConfiguredGate(gate: string, now: u64) returns (r: Result<AgentState, IdentityError>)
      requires Grounded(registry)
      ensures r == GateIdentity(env.crypto, registry, gate, now)
    {
      hide Grounded, VerifyAgentInner;
      var state := VerifyAgentStateAtInner(gate, now, {});
      if state.Err? { return Err(state.error); }
      if state.value.None? { return Err(GateNotBootstrapped); }
      if !state.value.value.active || !state.value.value.canDelegate { return Err(GateNotAuthorized); }
      return Ok(state.value.value);
    }

    // ---- Registering ----

    /** The checks of `register_agent`, and the row it will insert. */
    method CheckRegistration(registrar: string, publicKey: string, alias: string, metadata: Option<Value>, now: u64)
      returns (r: Result<AgentRow, IdentityError>)
      requires Grounded(registry)
      ensures r == PrepareRegistration(env, registry, registrar, publicKey, alias, metadata, now)
    {
      hide Grounded, VerifyAgentInner, Profile, RegistrationRow;
      if !env.crypto.isPublicKey(publicKey) { return Err(InvalidKey); }
      if IsBlank(alias) { return Err(InvalidAgent); }
      if metadata.None? || !metadata.value.Object? { return Err(InvalidAgent); }
      var profile := Profile(env, publicKey, registrar, metadata.value);
      if profile.None? { return Err(InvalidAgent); }
      if IsBlank(profile.value.signerUri) || profile.value.keyVersion == 0 || profile.value.algorithm != SIGNATURE_ALGORITHM {
        return Err(InvalidAgent);
      }
      var scope := "*";
      if registry.agents == map[] {
        if publicKey != registrar { return Err(RootMismatch); }
      } else {
        var authority := VerifyAgentStateAtInner(registrar, now, {});
        if authority.Err? { return Err(authority.error); }
        if authority.value.None? { return Err(RegistrarNotAuthorized); }
        if !authority.value.value.active || !authority.value.value.canDelegate { return Err(RegistrarNotAuthorized); }
        scope := authority.value.value.tenantId;
      }
      var tenantId := metadata.value.GetStr(TENANT_ID).GetOr("*");
      if IsBlank(tenantId) { return Err(InvalidAgent); }
      if scope != "*" && scope != tenantId { return Err(DelegationScopeDenied); }
      if publicKey in registry.agents { return Err(AlreadyRegistered); }
      return Ok(RegistrationRow(env, registry, registrar, publicKey, alias, metadata.value, profile.value, tenantId, now));
    }

    /** Inserts a key, makes the first one the root under the baseline policy, and publishes it; or
        changes nothing. */
    method RegisterAgent(registrar: string, publicKey: string, alias: string, metadata: Option<Value>, now: u64)
      returns (r: Result<Value, GateError>)
      requires Wired() && Grounded(registry)
      modifies this, policies, policies.events
      ensures Reply(State(), r) == Register(env, old(State()), registrar, publicKey, alias, metadata, now)
    {
      hide Grounded, PrepareRegistration, LookupSigns, PolicyStore.EnsureDefault, EventStream.RecordEvent, Canonical.Text;
      var prepared := CheckRegistration(registrar, publicKey, alias, metadata, now);
      if prepared.Err? { return Err(Refused(prepared.error)); }
      var row := prepared.value;
      var signer := env.signerFor(registrar);
      var first := registry.agents == map[];
      signed := signed + {row.event} + (if first then LookupSigns(env.crypto, policies.store, signer, now) else {});
      var registryBefore, storeBefore, eventsBefore := registry, policies.store, policies.events.tables;
      registry := registry.(agents := registry.agents[publicKey := row]);
      if first {
        registry := registry.(trustedRoot := Some(publicKey));
        var ensured := policies.EnsureDefaultPolicy(signer, now);
        if ensured.Err? {
          registry, policies.store, policies.events.tables := registryBefore, storeBefore, eventsBefore;
          return Err(PolicyRefused(ensured.error));
        }
      }
      var recorded := policies.events.RecordEvent(row.tenantId, AGENT_REGISTERED, row.eventId, Canonical.Text(row.event), now);
      if recorded.Err? {
        registry, policies.store, policies.events.tables := registryBefore, storeBefore, eventsBefore;
        return Err(StreamFailure);
      }
      return Ok(row.event);
    }

    // ---- Rotating and revoking ----

    /** Retires a key, installs its successor and records the event; or changes nothing. */
    method RotateAgent(gate: string, currentKey: string, newKey: string, now: u64) returns (r: Result<(), GateError>)
      requires Grounded(registry)
      modifies this
      ensures Reply(State(), r) == Gate.Rotate(env, old(State()), gate, currentKey, newKey, now)
    {
      hide Grounded, VerifyAgentInner, GateIdentity, RotationOf, RotatedRegistration, NewAgentRow, LifecycleRowFor, RetireRow,
        HasLifecycleEvent, DigestJson;
      if !env.crypto.isPublicKey(newKey) { return Err(Refused(InvalidKey)); }
      if currentKey == newKey { return Err(Refused(RotationInvalid)); }
      var current := VerifyAgentStateAtInner(currentKey, now, {});
      if current.Err? { return Err(Refused(current.error)); }
      if current.value.None? || !current.value.value.active { return Err(Refused(RotationInvalid)); }
      var authority := ConfiguredGate(gate, now);
      if authority.Err? { return Err(Refused(authority.error)); }
      if currentKey == gate { return Err(Refused(RotationInvalid)); }
      if authority.value.tenantId != "*" && authority.value.tenantId != current.value.value.tenantId { return Err(Refused(DelegationScopeDenied)); }
      if newKey in registry.agents { return Err(Refused(AlreadyRegistered)); }
      if currentKey !in registry.agents || registry.agents[currentKey].keyVersion == U64_MAX { return Err(Refused(RotationInvalid)); }
      var row := registry.agents[currentKey];
      var event := RotationOf(env, row, gate, currentKey, newKey, now);
      var registration := RotatedRegistration(env, row, gate, currentKey, newKey, now);
      var before := registry;
      registry := registry.(agents := registry.agents[currentKey := RetireRow(row, Rotate, now)]);
      var profile := KeyProfile("local-ed25519://" + newKey, NextVersion(row.keyVersion), SIGNATURE_ALGORITHM);
      registry := registry.(agents := registry.agents[newKey :=
        NewAgentRow(env, registration, newKey, row.alias, row.metadata, row.canDelegate, now, gate, row.identityId, row.tenantId, profile)]);
      if HasLifecycleEvent(before, DigestJson(env.crypto, event)) {
        registry := before;
        return Err(Refused(IdentityError.UniqueViolation));
      }
      registry := registry.(lifecycle := Filed(registry.lifecycle, LifecycleRowFor(env, event, gate, row.identityId, newKey, ROTATE, now)));
      signed := signed + {event, registration};
      return Ok(());
    }

    /** Retires a key for good, records the event and revokes the key's unused permits; or changes nothing. */
    method RevokeAgent(gate: string, publicKey: string, reason: string, now: u64) returns (r: Result<(), GateError>)
      requires Grounded(registry)
      modifies this
      ensures Reply(State(), r) == Gate.Revoke(env, old(State()), gate, publicKey, reason, now)
    {
      hide Grounded, VerifyAgentInner, GateIdentity, RevocationOf, LifecycleRowFor, RetireRow, HasLifecycleEvent, DigestJson,
        RevocablePermits;
      if IsBlank(reason) { return Err(Refused(RevocationInvalid)); }
      var state := VerifyAgentStateAtInner(publicKey, now, {});
      if state.Err? { return Err(Refused(state.error)); }
      if state.value.None? || !state.value.value.active { return Err(Refused(RevocationInvalid)); }
      var authority := ConfiguredGate(gate, now);
      if authority.Err? { return Err(Refused(authority.error)); }
      if publicKey == gate || publicKey !in registry.agents { return Err(Refused(RevocationInvalid)); }
      var row := registry.agents[publicKey];
      var event := RevocationOf(env, row, gate, publicKey, reason, now);
      var eventId := DigestJson(env.crypto, event);
      var before := registry;
      registry := registry.(agents := registry.agents[publicKey := RetireRow(row, Revoke, now)]);
      if HasLifecycleEvent(before, eventId) {
        registry := before;
        return Err(Refused(IdentityError.UniqueViolation));
      }
      registry := registry.(lifecycle := Filed(registry.lifecycle, LifecycleRowFor(env, event, gate, row.identityId, publicKey, REVOKE, now)));
      var ids := RevocablePermits(permits, publicKey, now);
      permits := permits.(revoked := (map id <- ids :: RevokedRow(now, reason, eventId)) + permits.revoked);
      signed := signed + {event};
      return Ok(());
    }

    /** Installs a policy from its specification. */
    method InstallPolicy(gate: string, spec: Option<Value>, now: u64) returns (r: Result<Value, GateError>)
      requires Wired()
      modifies this, policies, policies.events
      ensures Reply(State(), r) == Gate.InstallPolicy(env, old(State()), gate, spec, now)
    {
      hide SpecSigns, PolicyStore.Install;
      if spec.None? { return Err(InvalidJson); }
      signed := signed + SpecSigns(env.crypto, spec.value, env.signerFor(gate), now);
      var bundle := policies.InstallPolicy(env.signerFor(gate), spec.value, now);
      return if bundle.Err? then Err(PolicyRefused(bundle.error)) else Ok(bundle.value);
    }

    // ---- Documents ----

    /** `verify_authorization`: everything wrong with an authorization result, in the order found. */
    method VerifyAuthorizationResult(result: Value) returns (faults: seq<Fault>)
      requires Grounded(registry)
      ensures faults == VerifyAuthorization(env.crypto, registry, result)
    {
      hide Grounded, VerifyReceipt;
      faults := FaultIf(result.GetStr(SCHEMA_VERSION) != Some(AUTHORIZATION_RESULT_SCHEMA), ResultSchemaMismatch);
      var receipt := result.Get(AUTHORIZATION);
      if receipt.None? { return faults + [ReceiptMissing]; }
      if !receipt.value.Object? { return faults + [ReceiptInvalid]; }
      var id, signature := receipt.value.GetStr(AUTHORIZATION_ID), receipt.value.GetStr(GATE_SIGNATURE);
      if id.None? { return faults + [IdMissing]; }
      if signature.None? { return faults + [GateSignatureMissing]; }
      var more := CheckReceipt(result, receipt.value.Without({AUTHORIZATION_ID, GATE_SIGNATURE}), id.value, signature.value);
      return faults + more;
    }

    method CheckReceipt(result: Value, body: Value, id: string, signature: string) returns (faults: seq<Fault>)
      requires Grounded(registry)
      ensures faults == VerifyReceipt(env.crypto, registry, result, body, id, signature)
    {
      hide Grounded, VerifyAgentInner, BundleFaults, IntentFaults, DigestJson, FaultIf;
      var gateId := body.GetStr(GATE_ID).GetOr("");
      faults := FaultIf(DigestJson(env.crypto, body) != id, IdMismatch);
      faults := faults + FaultIf(body.GetStr(SCHEMA_VERSION) != Some(AUTHORIZATION_RECEIPT_SCHEMA), ReceiptSchemaMismatch);
      faults := faults + FaultIf(!env.crypto.verifies(gateId, DigestBytes(id), signature), GateSignatureInvalid);
      var trust := VerifyAgentStateAtInner(gateId, body.U64At(ISSUED_AT), {});
      faults := faults + match trust
        case Err(e) => [IdentityFault(e)]
        case Ok(None) => [GateIdentityNotTrusted]
        case Ok(Some(state)) => FaultIf(!state.active || !state.canDelegate, GateIdentityNotTrusted);
      faults := faults + BundleFaults(env.crypto, body, result.Get(POLICY_BUNDLE), gateId);
      match result.Get(INTENT)
      case None => faults := faults + [IntentMissing];
      case Some(intent) =>
        var more := CheckIntent(body, result.Get(POLICY_BUNDLE), intent, result.GetStr(AGENT_SIGNATURE).GetOr(""));
        faults := faults + more;
    }

    method CheckIntent(body: Value, bundle: Option<Value>, intent: Value, agentSignature: string) returns (faults: seq<Fault>)
      requires Grounded(registry)
      ensures faults == IntentFaults(env.crypto, registry, body, bundle, intent, agentSignature)
    {
      hide Grounded, EvaluationFaults, DecisionFaults, DigestJson, FaultIf, Canonical.Text, ValidateIntent, TtlSeconds, ListsReason;
      var issuedAt := body.U64At(ISSUED_AT);
      var ttlSeconds := TtlSeconds(issuedAt, body.U64At(EXPIRES_AT));
      var agentId := body.GetStr(AGENT_ID).GetOr("");
      faults := FaultIf(DigestJson(env.crypto, intent) != body.GetStr(INTENT_HASH).GetOr(""), IntentHashMismatch);
      faults := faults + EvaluationFaults(env.crypto, body, bundle, intent, ttlSeconds);
      var signatureValid := env.crypto.verifies(agentId, TextBytes(Canonical.Text(intent)), agentSignature);
      var expectedDenial := body.GetStr(DECISION) == Some(BLOCKED) && ListsReason(body.Get(REASON_CODES), INVALID_AGENT_SIGNATURE);
      faults := faults + FaultIf(!signatureValid && !expectedDenial, AgentSignatureInvalid);
      match ValidateIntent(intent, agentId)
      case None => faults := faults + [IntentInvalid];
      case Some(fields) =>
        var more := FaultIf(body.GetStr(ACTION_ID) != Some(ActionIdFor(env.crypto, fields)), ActionIdMismatch);
        more := more + FaultIf(body.GetStr(TENANT_ID) != Some(fields.tenantId), TenantIdMismatch);
        var decided := CheckDecision(body, bundle, intent, fields, signatureValid, issuedAt, ttlSeconds);
        faults := faults + (more + decided);
    }

    method CheckDecision(body: Value, bundle: Option<Value>, intent: Value, fields: IntentFields, signatureValid: bool, issuedAt: u64, ttlSeconds: u64)
      returns (faults: seq<Fault>)
      requires Grounded(registry)
      ensures faults == DecisionFaults(env.crypto, registry, body, bundle, intent, fields, signatureValid, issuedAt, ttlSeconds)
    {
      hide Grounded, VerifyAgentInner, EvaluatePolicy, Decide, TextArray, FaultIf;
      if bundle.None? { return []; }
      var agent := VerifyAgentStateAtInner(fields.agentId, issuedAt, {});
      if agent.Err? { return [IdentityFault(agent.error)]; }
      var policy := EvaluatePolicy(env.crypto, bundle.value, intent, ttlSeconds);
      if policy.Err? { return [PolicyFault(policy.error)]; }
      var expected := Decide(signatureValid, agent.value, fields, issuedAt, policy.value);
      faults := FaultIf(body.GetStr(DECISION) != Some(expected.decision), DecisionNotReproducible);
      faults := faults + FaultIf(body.Get(REASON_CODES) != Some(TextArray(expected.reasonCodes)), ReasonCodesNotReproducible);
    }

    /** `verify_execution`: everything wrong with an execution result, in the order found. */
    method VerifyExecutionResult(authorization: Value, execution: Value) returns (faults: seq<Fault>)
      requires Grounded(registry)
      ensures faults == VerifyExecution(env.crypto, registry, authorization, execution)
    {
      hide Grounded, VerifyExecutionReceipt;
      faults := FaultIf(execution.GetStr(SCHEMA_VERSION) != Some(EXECUTION_RESULT_SCHEMA), ResultSchemaMismatch);
      var receipt := execution.Get(RECEIPT);
      if receipt.None? { return faults + [ReceiptMissing]; }
      if !receipt.value.Object? { return faults + [ReceiptInvalid]; }
      var id, signature := receipt.value.GetStr(RECEIPT_ID), receipt.value.GetStr(GATE_SIGNATURE);
      if id.None? { return faults + [IdMissing]; }
      if signature.None? { return faults + [GateSignatureMissing]; }
      var more := CheckExecutionReceipt(authorization.Get(AUTHORIZATION).GetOr(Null), execution,
                                        receipt.value.Without({RECEIPT_ID, GATE_SIGNATURE}), id.value, signature.value);
      return faults + more;
    }

    method CheckExecutionReceipt(permit: Value, execution: Value, body: Value, id: string, signature: string) returns (faults: seq<Fault>)
      requires Grounded(registry)
      ensures faults == VerifyExecutionReceipt(env.crypto, registry, permit, execution, body, id, signature)
    {
      hide Grounded, OutcomeFaults, DigestJson, FaultIf;
      var gateId := body.GetStr(GATE_ID).GetOr("");
      faults := FaultIf(DigestJson(env.crypto, body) != id, IdMismatch);
      faults := faults + FaultIf(body.GetStr(SCHEMA_VERSION) != Some(EXECUTION_RECEIPT_SCHEMA), ReceiptSchemaMismatch);
      faults := faults + FaultIf(!env.crypto.verifies(gateId, DigestBytes(id), signature), GateSignatureInvalid);
      faults := faults + FaultIf(body.Get(AUTHORIZATION_ID) != permit.Get(AUTHORIZATION_ID), LinkMismatch(AUTHORIZATION_ID));
      faults := faults + FaultIf(body.Get(ACTION_ID) != permit.Get(ACTION_ID), LinkMismatch(ACTION_ID));
      faults := faults + FaultIf(body.Get(INTENT_HASH) != permit.Get(INTENT_HASH), LinkMismatch(INTENT_HASH));
      faults := faults + FaultIf(body.Get(EXECUTOR_ID).Some? && body.Get(EXECUTOR_ID) == permit.Get(AGENT_ID), ExecutorAgentCollusion);
      match execution.Get(OUTCOME)
      case None => faults := faults + [OutcomeMissing];
      case Some(outcome) =>
        var more := CheckOutcome(permit, body, outcome);
        faults := faults + more;
    }

    method CheckOutcome(permit: Value, body: Value, outcome: Value) returns (faults: seq<Fault>)
      requires Grounded(registry)
      ensures faults == OutcomeFaults(env.crypto, registry, permit, body, outcome)
    {
      hide Grounded, VerifyAgentInner, DigestJson, FaultIf, Canonical.Text, OutcomeToSign, ValidateOutcome, IsProposer;
      var toSign := OutcomeToSign(outcome);
      var executorId, tenantId := body.GetStr(EXECUTOR_ID).GetOr(""), permit.GetStr(TENANT_ID).GetOr("*");
      faults := FaultIf(DigestJson(env.crypto, toSign) != body.GetStr(OUTCOME_HASH).GetOr(""), OutcomeHashMismatch);
      faults := faults + FaultIf(!env.crypto.verifies(executorId, TextBytes(Canonical.Text(toSign)), outcome.GetStr(EXECUTOR_SIGNATURE).GetOr("")),
                                 ExecutorSignatureInvalid);
      var executor := VerifyAgentStateAtInner(executorId, body.U64At(COMPLETED_AT), {});
      var trust := match executor
        case Err(e) => [IdentityFault(e)]
        case Ok(None) => [ExecutorIdentityNotTrusted]
        case Ok(Some(state)) =>
          if !state.active then [ExecutorIdentityNotTrusted]
          else FaultIf(state.tenantId != "*" && tenantId != "*" && state.tenantId != tenantId, ExecutorTenantScopeMismatch)
               + FaultIf(IsProposer(state.metadata), ExecutorRoleInvalid);
      faults := faults + trust;
      faults := faults + FaultIf(ValidateOutcome(outcome, permit.GetStr(AUTHORIZATION_ID).GetOr(""), permit.GetStr(ACTION_ID).GetOr("")).None?, OutcomeInvalid);
      faults := faults + FaultIf(body.Get(STATUS) != outcome.Get(STATUS), StatusMismatch);
    }

    /** `verify_trace`. */
    method TraceAction(actionId: string, now: u64) returns (r: Result<TraceReport, GateError>)
      requires Grounded(registry)
      ensures r == VerifyTrace(env, State(), actionId, now)
    {
      hide Grounded, VerifyAuthorization, VerifyExecution;
      if actionId !in permits.byAction || permits.byAction[actionId] !in permits.authorizations { return Err(ActionNotFound); }
      var json := permits.authorizations[permits.byAction[actionId]].json;
      var faults := VerifyAuthorizationResult(json);
      var execution: Option<Value> := None;
      if actionId in permits.outcomeByAction && permits.outcomeByAction[actionId] in permits.outcomes {
        execution := Some(permits.outcomes[permits.outcomeByAction[actionId]].json);
      }
      var more: seq<Fault> := [];
      if execution.Some? { more := VerifyExecutionResult(json, execution.value); }
      faults := faults + more;
      var receipt := json.Get(AUTHORIZATION).GetOr(Null);
      var phase := Authorized;
      if receipt.GetStr(DECISION) == Some(BLOCKED) {
        phase := Blocked;
      } else if execution.Some? {
        phase := Completed;
      } else if now > receipt.U64At(EXPIRES_AT) {
        phase := Expired;
      }
      return Ok(TraceReport(faults == [], phase, faults));
    }

    // ---- Requests ----

    /** The read phase of `request_action_signed`. */
    method PrepareAuthorization(gate: string, intent: Option<Value>, agentId: string, agentSignature: string, ttlSeconds: u64, now: u64)
      returns (r: Result<Draft<AuthorizationRow>, GateError>)
      requires Wired() && Grounded(registry)
      modifies this`signed, this`issued, policies, policies.events
      ensures Reply(State(), r) == BeginRequest(env, old(State()), gate, intent, agentId, agentSignature, ttlSeconds, now)
    {
      hide Grounded, VerifyAuthorization, ValidateIntent, DigestJson, DecideRequest, ActionText;
      if !(1 <= ttlSeconds <= 86_400) { return Err(InvalidTtl); }
      if intent.None? { return Err(InvalidJson); }
      var fields := ValidateIntent(intent.value, agentId);
      if fields.None? { return Err(ContractInvalid); }
      var intentHash := DigestJson(env.crypto, intent.value);
      var actionId := ActionIdFor(env.crypto, fields.value);
      if actionId in permits.byAction && permits.byAction[actionId] in permits.authorizations {
        var row := permits.authorizations[permits.byAction[actionId]];
        if row.intentHash != intentHash { return Err(IdempotencyConflict); }
        var faults := VerifyAuthorizationResult(row.json);
        if faults != [] { return Err(StoredAuthorizationInvalid(faults)); }
        return Ok(Stored(row.json));
      }
      r := DecideIntent(gate, intent.value, fields.value, agentSignature, ttlSeconds, now);
    }

    /** ... for an action not decided yet. */
    method DecideIntent(gate: string, intent: Value, fields: IntentFields, agentSignature: string, ttlSeconds: u64, now: u64)
      returns (r: Result<Draft<AuthorizationRow>, GateError>)
      requires Wired() && Grounded(registry)
      modifies this`signed, this`issued, policies, policies.events
      ensures Reply(State(), r) == DecideRequest(env, old(State()), gate, intent, fields, agentSignature, ttlSeconds, now)
    {
      hide Grounded, VerifyAgentInner, GateIdentity, LookupSigns, PolicyStore.ActivePolicy, EvaluatePolicy, AuthorizationDraft, BodyOf,
        Canonical.Text;
      var authority := ConfiguredGate(gate, now);
      if authority.Err? { return Err(Refused(authority.error)); }
      var signer := env.signerFor(gate);
      signed := signed + LookupSigns(env.crypto, policies.store, signer, now);
      var bundle := policies.FindActivePolicy(signer, fields.tenantId, now);
      if bundle.Err? { return Err(PolicyRefused(bundle.error)); }
      var policy := EvaluatePolicy(env.crypto, bundle.value, intent, ttlSeconds);
      if policy.Err? { return Err(EvaluationFailed(policy.error)); }
      var signatureValid := env.crypto.verifies(fields.agentId, TextBytes(Canonical.Text(intent)), agentSignature);
      var agent := VerifyAgentStateAtInner(fields.agentId, now, {});
      if agent.Err? { return Err(Refused(agent.error)); }
      var decision: Permits.Decision;
      if !signatureValid {
        decision := Permits.Decision(BLOCKED, [INVALID_AGENT_SIGNATURE]);
      } else if agent.value.None? || !agent.value.value.active {
        decision := Permits.Decision(BLOCKED, [AGENT_NOT_REGISTERED]);
      } else if agent.value.value.tenantId != "*" && agent.value.value.tenantId != fields.tenantId {
        decision := Permits.Decision(BLOCKED, [AGENT_TENANT_SCOPE_DENIED]);
      } else if SaturatingSub(now, fields.requestedAt) > MAX_AGE_MICROS {
        decision := Permits.Decision(BLOCKED, [REQUEST_STALE]);
      } else if SaturatingSub(fields.requestedAt, now) > MAX_SKEW_MICROS {
        decision := Permits.Decision(BLOCKED, [REQUEST_FROM_FUTURE]);
      } else if !policy.value.allowed {
        decision := Permits.Decision(BLOCKED, policy.value.reasonCodes);
      } else {
        decision := Permits.Decision(ALLOWED, ["IDENTITY_VERIFIED", POLICY_ALLOWED]);
      }
      if now + ttlSeconds * MICROS_PER_SECOND > U64_MAX { return Err(InvalidTtl); }
      var (id, row) := AuthorizationDraft(env, fields, intent, agentSignature, gate, bundle.value, policy.value, decision, now,
                                          Expiry(now, ttlSeconds));
      signed := signed + {BodyOf(row)};
      issued := issued[BodyOf(row) := intent];
      return Ok(ToWrite(id, row));
    }

    /** The write transaction of `request_action_signed`. */
    method WriteAuthorization(id: string, row: AuthorizationRow) returns (r: Result<Value, GateError>)
      requires Wired()
      modifies this`permits, policies.events
      ensures Reply(State(), r) == FinishRequest(env, old(State()), id, row)
    {
      hide EventStream.RecordEvent, Canonical.Text;
      var request := (row.tenantId, row.agentId, row.idempotencyKey);
      var before := permits;
      if id in permits.authorizations || row.actionId in permits.byAction || request in permits.byRequest { return Err(ConstraintViolated); }
      permits := permits.(authorizations := permits.authorizations[id := row],
                          byAction := permits.byAction[row.actionId := id],
                          byRequest := permits.byRequest[request := id]);
      var recorded := policies.events.RecordEvent(row.tenantId, ACTION_AUTHORIZED, id, Canonical.Text(row.json), row.issuedAt);
      if recorded.Err? {
        permits := before;
        return Err(StreamFailure);
      }
      return Ok(row.json);
    }

    /** `request_action_signed`. */
    method RequestActionSigned(gate: string, intent: Option<Value>, agentId: string, agentSignature: string, ttlSeconds: u64, now: u64)
      returns (r: Result<Value, GateError>)
      requires Wired() && Grounded(registry)
      modifies this, policies, policies.events
      ensures Reply(State(), r) == Request(env, old(State()), gate, intent, agentId, agentSignature, ttlSeconds, now)
    {
      hide Grounded, BeginRequest, FinishRequest;
      var begun := PrepareAuthorization(gate, intent, agentId, agentSignature, ttlSeconds, now);
      if begun.Err? { return Err(begun.error); }
      match begun.value
      case Stored(json) => return Ok(json);
      case ToWrite(id, row) => r := WriteAuthorization(id, row);
    }

    // ---- Outcomes ----

    /** The checks on the permit: the first failure, if any. */
    method RefusePermit(id: string, now: u64) returns (r: Option<GateError>)
      requires Grounded(registry)
      ensures r == PermitRefusal(env, State(), id, now)
    {
      hide Grounded, VerifyAuthorization, StringField;
      if id !in permits.authorizations { return Some(AuthorizationNotFound); }
      var json := permits.authorizations[id].json;
      var faults := VerifyAuthorizationResult(json);
      if faults != [] { return Some(AuthorizationInvalid(faults)); }
      var permit := json.Get(AUTHORIZATION);
      if permit.None? { return Some(AuthorizationInvalid([])); }
      if permit.value.GetStr(DECISION) != Some(ALLOWED) { return Some(ActionBlocked); }
      if id in permits.revoked { return Some(PermitRevoked); }
      if permit.value.GetU64(EXPIRES_AT).None? { return Some(ContractInvalid); }
      if now > permit.value.GetU64(EXPIRES_AT).value { return Some(PermitExpired); }
      if StringField(permit.value, ACTION_ID).None? { return Some(ContractInvalid); }
      return None;
    }

    /** The checks on the executor: the first failure, if any. */
    method RefuseExecutor(json: Value, permit: Value, executorId: string, toSign: Value, signature: string, now: u64) returns (r: Option<GateError>)
      requires Grounded(registry)
      ensures r == ExecutorRefusal(env, State(), json, permit, executorId, toSign, signature, now)
    {
      hide Grounded, StringField, ExecutorAllowed, IdentityRefusal;
      var agentId := StringField(permit, AGENT_ID);
      if agentId.None? { return Some(ContractInvalid); }
      if executorId == agentId.value { return Some(ExecutorInvalid); }
      var bundle := json.Get(POLICY_BUNDLE);
      if bundle.None? { return Some(ContractInvalid); }
      var allowed := ExecutorAllowed(env.crypto, bundle.value, executorId);
      if allowed.Err? { return Some(EvaluationFailed(allowed.error)); }
      if !allowed.value { return Some(ExecutorPolicyDenied); }
      r := RefuseIdentity(permit, executorId, toSign, signature, now);
    }

    /** ... on its identity and signature. */
    method RefuseIdentity(permit: Value, executorId: string, toSign: Value, signature: string, now: u64) returns (r: Option<GateError>)
      requires Grounded(registry)
      ensures r == IdentityRefusal(env, State(), permit, executorId, toSign, signature, now)
    {
      hide Grounded, VerifyAgentInner, StringField, IsProposer, Canonical.Text;
      var executor := VerifyAgentStateAtInner(executorId, now, {});
      if executor.Err? { return Some(Refused(executor.error)); }
      if executor.value.None? || !executor.value.value.active { return Some(ExecutorNotActive); }
      var tenantId := StringField(permit, TENANT_ID);
      if tenantId.None? { return Some(ContractInvalid); }
      if executor.value.value.tenantId != "*" && executor.value.value.tenantId != tenantId.value { return Some(ExecutorTenantScopeDenied); }
      if IsProposer(executor.value.value.metadata) { return Some(ExecutorInvalid); }
      if !env.crypto.verifies(executorId, TextBytes(Canonical.Text(toSign)), signature) { return Some(ExecutorSignatureRejected); }
      return None;
    }

    /** The read phase of `commit_outcome_signed`. */
    method PrepareOutcome(gate: string, id: string, outcome: Option<Value>, now: u64) returns (r: Result<Draft<OutcomeRow>, GateError>)
      requires Grounded(registry)
      modifies this`signed
      ensures Reply(State(), r) == BeginCommit(env, old(State()), gate, id, outcome, now)
    {
      hide Grounded, PermitRefusal, VerifyExecution, DecideOutcome, StringField, OutcomeToSign, ValidateOutcome, DigestJson;
      var refusal := RefusePermit(id, now);
      if refusal.Some? { return Err(refusal.value); }
      if id !in permits.authorizations { return Err(AuthorizationNotFound); }
      var json := permits.authorizations[id].json;
      var permit := json.Get(AUTHORIZATION).GetOr(Null);
      if outcome.None? { return Err(InvalidJson); }
      if outcome.value.GetStr(EXECUTOR_SIGNATURE).None? { return Err(MissingSignature); }
      var toSign := OutcomeToSign(outcome.value);
      var status := ValidateOutcome(toSign, id, StringField(permit, ACTION_ID).GetOr(""));
      if status.None? { return Err(ContractInvalid); }
      if id in permits.outcomes {
        var existing := permits.outcomes[id];
        if existing.outcomeHash != DigestJson(env.crypto, toSign) { return Err(AlreadyConsumed); }
        var faults := VerifyExecutionResult(json, existing.json);
        if faults != [] { return Err(StoredExecutionInvalid(faults)); }
        return Ok(Stored(existing.json));
      }
      r := AcceptOutcome(gate, id, json, permit, outcome.value, status.value, now);
    }

    /** ... for a permit not consumed yet. */
    method AcceptOutcome(gate: string, id: string, json: Value, permit: Value, outcome: Value, status: string, now: u64)
      returns (r: Result<Draft<OutcomeRow>, GateError>)
      requires Grounded(registry)
      modifies this`signed
      ensures Reply(State(), r) == DecideOutcome(env, old(State()), gate, id, json, permit, outcome, status, now)
    {
      hide Grounded, ExecutorRefusal, GateIdentity, StringField, OutcomeToSign, OutcomeDraft, ExecutionBodyOf;
      var executorId := StringField(OutcomeToSign(outcome), EXECUTOR_ID);
      if executorId.None? { return Err(ContractInvalid); }
      var refusal := RefuseExecutor(json, permit, executorId.value, OutcomeToSign(outcome), outcome.GetStr(EXECUTOR_SIGNATURE).GetOr(""), now);
      if refusal.Some? { return Err(refusal.value); }
      var authority := ConfiguredGate(gate, now);
      if authority.Err? { return Err(Refused(authority.error)); }
      if StringField(permit, INTENT_HASH).None? { return Err(ContractInvalid); }
      var row := OutcomeDraft(env, id, permit, outcome, executorId.value, status, gate, now);
      signed := signed + {ExecutionBodyOf(row)};
      return Ok(ToWrite(id, row));
    }

    /** The write transaction of `commit_outcome_signed`. */
    method WriteOutcome(id: string, row: OutcomeRow) returns (r: Result<Value, GateError>)
      requires Wired()
      modifies this`permits, policies.events
      ensures Reply(State(), r) == FinishCommit(env, old(State()), id, row)
    {
      hide EventStream.RecordEvent, Canonical.Text, OutcomeEvent;
      if id !in permits.authorizations { return Err(AuthorizationNotFound); }
      if id in permits.outcomes || row.actionId in permits.outcomeByAction || row.receiptId in permits.receipts { return Err(ConstraintViolated); }
      var before := permits;
      ghost var db := State();
      var tenant := StringField(permits.authorizations[id].json.Get(AUTHORIZATION).GetOr(Null), TENANT_ID).GetOr("*");
      var succeeded := row.json.Get(RECEIPT).GetOr(Null).GetStr(STATUS) == Some("SUCCEEDED");
      var eventType := if succeeded then ACTION_EXECUTED else ACTION_FAILED;
      EventOfOutcome(db, id, row);
      permits := permits.(outcomes := permits.outcomes[id := row],
                          outcomeByAction := permits.outcomeByAction[row.actionId := id],
                          receipts := permits.receipts + {row.receiptId});
      var recorded := policies.events.RecordEvent(tenant, eventType, row.receiptId, Canonical.Text(row.json), row.completedAt);
      if recorded.Err? {
        permits := before;
        return Err(StreamFailure);
      }
      return Ok(row.json);
    }

    /** `commit_outcome_signed`. */
    method CommitOutcomeSigned(gate: string, id: string, outcome: Option<Value>, now: u64) returns (r: Result<Value, GateError>)
      requires Wired() && Grounded(registry)
      modifies this, policies.events
      ensures Reply(State(), r) == Commit(env, old(State()), gate, id, outcome, now)
    {
      hide Grounded, BeginCommit, FinishCommit;
      var begun := PrepareOutcome(gate, id, outcome, now);
      if begun.Err? { return Err(begun.error); }
      match begun.value
      case Stored(json) => return Ok(json);
      case ToWrite(id', row) => r := WriteOutcome(id', row);
    }
  }

  lemma EventOfOutcome(db: Db, id: string, row: OutcomeRow)
    requires id in db.permits.authorizations
    ensures OutcomeEvent(db, id, row) ==
      (StringField(db.permits.authorizations[id].json.Get(AUTHORIZATION).GetOr(Null), TENANT_ID).GetOr("*"),
       if row.json.Get(RECEIPT).GetOr(Null).GetStr(STATUS) == Some("SUCCEEDED") then ACTION_EXECUTED else ACTION_FAILED)
  {}

  lemma AuthenticHasEvent(c: Crypto, identityId: string, row: LifecycleRow)
    requires EventAuthentic(c, identityId, row)
    ensures row.json.Get(EVENT).Some? && row.json.Get(EVENT).value.GetU64(EFFECTIVE_AT).Some?
  {}
}
