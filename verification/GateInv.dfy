/** The invariant of the gate's tables: documents in order, indexes that list them, and requests and commits
    that keep both. */
module GateInv {
  import opened Prelude
  import opened Names
  import opened Json
  import opened Crypto
  import opened Policy
  import opened Identity
  import opened IdentityProofs
  import opened Permits
  import opened PermitProofs
  import opened Gate
  import Canonical
  import EventStream
  import PolicyStore
  import IdentityOps

  // ---- The invariant ----

  /** The columns of an authorization are those of its document. */
  predicate AuthorizationColumnsOk(c: Crypto, id: string, row: AuthorizationRow) {
    var permit := PermitOf(row.json);
    && row.json.Get(AUTHORIZATION).Some?
    && permit.GetStr(AUTHORIZATION_ID) == Some(id)
    && permit.GetStr(ACTION_ID) == Some(row.actionId)
    && permit.GetStr(TENANT_ID) == Some(row.tenantId)
    && permit.GetStr(AGENT_ID) == Some(row.agentId)
    && permit.GetStr(INTENT_HASH) == Some(row.intentHash)
    && permit.GetStr(DECISION) == Some(row.decision)
    && permit.GetU64(EXPIRES_AT) == Some(row.expiresAt)
    && permit.GetU64(ISSUED_AT) == Some(row.issuedAt)
    && IssuedAt(row.json) == row.issuedAt
    && row.actionId == c.sha256(ActionText(row.tenantId, row.agentId, row.idempotencyKey))
    && row.json.Get(INTENT).Some?
    && ValidateIntent(row.json.Get(INTENT).value, row.agentId).Some?
    && ValidateIntent(row.json.Get(INTENT).value, row.agentId).value.tenantId == row.tenantId
    && ValidateIntent(row.json.Get(INTENT).value, row.agentId).value.idempotencyKey == row.idempotencyKey
    && row.intentHash == DigestJson(c, row.json.Get(INTENT).value)
    && row.json.Get(POLICY_BUNDLE).Some?
  }

  /** An authorization in order: its columns are its own and nothing is wrong with its document. */
  ghost predicate AuthorizationOk(env: Env, reg: Registry, clock: u64, id: string, row: AuthorizationRow) {
    && Grounded(reg)
    && AuthorizationColumnsOk(env.crypto, id, row)
    && row.issuedAt <= clock
    && VerifyAuthorization(env.crypto, reg, row.json) == []
  }

  /** An outcome in order for a permit. */
  ghost predicate OutcomeOk(env: Env, reg: Registry, clock: u64, permit: AuthorizationRow, row: OutcomeRow) {
    && Grounded(reg)
    && row.actionId == permit.actionId
    && permit.decision == ALLOWED
    && CompletedAt(row.json) == row.completedAt <= clock
    && VerifyExecution(env.crypto, reg, permit.json, row.json) == []
  }

  function RequestOf(row: AuthorizationRow): (string, string, string) {
    (row.tenantId, row.agentId, row.idempotencyKey)
  }

  /** The indexes list exactly the rows. */
  ghost predicate IndexesOk(p: PermitTables) {
    && (forall id <- p.authorizations :: p.authorizations[id].actionId in p.byAction && p.byAction[p.authorizations[id].actionId] == id)
    && (forall a <- p.byAction :: p.byAction[a] in p.authorizations && p.authorizations[p.byAction[a]].actionId == a)
    && (forall id <- p.authorizations :: RequestOf(p.authorizations[id]) in p.byRequest && p.byRequest[RequestOf(p.authorizations[id])] == id)
    && (forall id <- p.outcomes :: id in p.authorizations)
    && (forall id <- p.outcomes :: p.outcomes[id].actionId in p.outcomeByAction && p.outcomeByAction[p.outcomes[id].actionId] == id)
    && (forall a <- p.outcomeByAction :: p.outcomeByAction[a] in p.outcomes && p.outcomes[p.outcomeByAction[a]].actionId == a)
    && (forall id <- p.outcomes :: p.outcomes[id].receiptId in p.receipts)
  }

  ghost predicate PermitsOk(env: Env, reg: Registry, p: PermitTables, clock: u64) {
    && Grounded(reg)
    && IndexesOk(p)
    && (forall id {:trigger AuthorizationOk(env, reg, clock, id, p.authorizations[id])} ::
          id in p.authorizations ==> AuthorizationOk(env, reg, clock, id, p.authorizations[id]))
    && (forall id {:trigger id in p.outcomes} ::
          id in p.outcomes ==> id in p.authorizations && OutcomeOk(env, reg, clock, p.authorizations[id], p.outcomes[id]))
  }

  /** Only an authorization body among the signed documents speaks of a decision, and it was signed
      for an intent with the digest it records. */
  ghost predicate HistoryOk(env: Env, signed: set<Value>, issued: map<Value, Value>) {
    && (forall doc <- signed :: doc.Get(DECISION).Some? ==> doc in issued)
    && (forall body <- issued :: body in signed && body.GetStr(INTENT_HASH) == Some(DigestJson(env.crypto, issued[body])))
  }

  ghost predicate Inv(env: Env, db: Db, clock: u64) {
    && RegistryOk(env, db.registry, clock)
    && IdentityOps.SuccessionsOk(db.registry)
    && PolicyStore.StoreOk(env, db.policies)
    && EventStream.StreamsOk(env.crypto, db.streams)
    && PermitsOk(env, db.registry, db.permits, clock)
    && HistoryOk(env, db.signed, db.issued)
  }

  // ---- Time passes ----

  lemma RegistryLater(env: Env, reg: Registry, clock: u64, now: u64)
    requires RegistryOk(env, reg, clock) && clock <= now
    ensures RegistryOk(env, reg, now)
  {
    hide Grounded, EndFrom, Authentic, Vouches, EventAuthentic, EventColumnsOk, EndMatches;
    forall key | key in reg.agents ensures AgentOk(env, reg, now, key) { assert AgentOk(env, reg, clock, key); }
    forall i | 0 <= i < |reg.lifecycle| ensures EventOk(env, reg, now, reg.lifecycle[i]) { assert EventOk(env, reg, clock, reg.lifecycle[i]); }
  }

  lemma SameRegistryEvolves(reg: Registry, clock: u64)
    ensures Evolves(reg, reg, clock)
  {}

  /** Documents in order stay in order as the registry evolves. */
  lemma PermitsKept(env: Env, reg: Registry, reg': Registry, p: PermitTables, clock: u64, now: u64)
    requires RegistryOk(env, reg, clock) && RegistryOk(env, reg', now) && Evolves(reg, reg', clock) && clock <= now
    requires PermitsOk(env, reg, p, clock)
    ensures PermitsOk(env, reg', p, now)
  {
    hide RegistryOk, Grounded, Evolves, AuthorizationColumnsOk, VerifyAuthorization, VerifyExecution, IndexesOk, IssuedAt, CompletedAt;
    RegistryGrounded(env, reg, clock);
    RegistryGrounded(env, reg', now);
    forall id | id in p.authorizations ensures AuthorizationOk(env, reg', now, id, p.authorizations[id]) {
      assert AuthorizationOk(env, reg, clock, id, p.authorizations[id]);
      AuthorizationKept(env, reg, reg', clock, now, id, p.authorizations[id]);
    }
    forall id | id in p.outcomes ensures id in p.authorizations && OutcomeOk(env, reg', now, p.authorizations[id], p.outcomes[id]) {
      assert OutcomeOk(env, reg, clock, p.authorizations[id], p.outcomes[id]);
      OutcomeKept(env, reg, reg', clock, now, p.authorizations[id], p.outcomes[id]);
    }
  }

  lemma AuthorizationKept(env: Env, reg: Registry, reg': Registry, clock: u64, now: u64, id: string, row: AuthorizationRow)
    requires RegistryOk(env, reg, clock) && RegistryOk(env, reg', now) && Evolves(reg, reg', clock) && clock <= now
    requires AuthorizationOk(env, reg, clock, id, row)
    ensures AuthorizationOk(env, reg', now, id, row)
  {
    hide AgentOk, EventOk, Grounded, Evolves, VerifyAuthorization, SameViews, IssuedAt, DigestJson, ValidateIntent, ActionText;
    EvolutionKeepsViews(env, reg, reg', clock, now, row.issuedAt);
    AuthorizationStable(env.crypto, reg, reg', row.json);
  }

  lemma OutcomeKept(env: Env, reg: Registry, reg': Registry, clock: u64, now: u64, permit: AuthorizationRow, row: OutcomeRow)
    requires RegistryOk(env, reg, clock) && RegistryOk(env, reg', now) && Evolves(reg, reg', clock) && clock <= now
    requires OutcomeOk(env, reg, clock, permit, row)
    ensures OutcomeOk(env, reg', now, permit, row)
  {
    hide AgentOk, EventOk, Grounded, Evolves, VerifyExecution, SameViews, CompletedAt;
    EvolutionKeepsViews(env, reg, reg', clock, now, row.completedAt);
    ExecutionStable(env.crypto, reg, reg', permit.json, row.json);
  }

  // ---- Writing rows ----

  /** `FinishRequest` keeps the tables when the row is in order. */
  lemma FinishRequestKeepsPermits(env: Env, db: Db, clock: u64, id: string, row: AuthorizationRow)
    requires Grounded(db.registry) && PermitsOk(env, db.registry, db.permits, clock)
    requires EventStream.StreamsOk(env.crypto, db.streams)
    requires AuthorizationOk(env, db.registry, clock, id, row)
    ensures var db' := FinishRequest(env, db, id, row).db;
      && PermitsOk(env, db.registry, db'.permits, clock)
      && EventStream.StreamsOk(env.crypto, db'.streams)
      && db' == db.(permits := db'.permits, streams := db'.streams)
  {
    hide Grounded, AuthorizationOk, OutcomeOk, EventStream.StreamsOk, EventStream.RecordEvent, IndexesOk;
    EventStream.RecordKeepsStreams(env.crypto, db.streams, row.tenantId, ACTION_AUTHORIZED, id, Canonical.Text(row.json), row.issuedAt);
    var r := FinishRequest(env, db, id, row);
    if r.answer.Ok? {
      IndexesAfterRequest(db.permits, id, row);
      var p := r.db.permits;
      forall i | i in p.authorizations ensures AuthorizationOk(env, db.registry, clock, i, p.authorizations[i]) {
        if i != id { assert AuthorizationOk(env, db.registry, clock, i, db.permits.authorizations[i]); }
      }
      forall i | i in p.outcomes ensures i in p.authorizations && OutcomeOk(env, db.registry, clock, p.authorizations[i], p.outcomes[i]) {
        assert OutcomeOk(env, db.registry, clock, db.permits.authorizations[i], db.permits.outcomes[i]);
      }
    }
  }

  lemma IndexesAfterRequest(p: PermitTables, id: string, row: AuthorizationRow)
    requires IndexesOk(p)
    requires id !in p.authorizations && row.actionId !in p.byAction && RequestOf(row) !in p.byRequest
    ensures IndexesOk(p.(authorizations := p.authorizations[id := row], byAction := p.byAction[row.actionId := id],
                         byRequest := p.byRequest[RequestOf(row) := id]))
  {}

  lemma FinishCommitKeepsPermits(env: Env, db: Db, clock: u64, id: string, row: OutcomeRow)
    requires Grounded(db.registry) && PermitsOk(env, db.registry, db.permits, clock)
    requires EventStream.StreamsOk(env.crypto, db.streams)
    requires id in db.permits.authorizations ==> OutcomeOk(env, db.registry, clock, Entry(db.permits.authorizations, id), row)
    ensures var db' := FinishCommit(env, db, id, row).db;
      && PermitsOk(env, db.registry, db'.permits, clock)
      && EventStream.StreamsOk(env.crypto, db'.streams)
      && db' == db.(permits := db'.permits, streams := db'.streams)
  {
    hide Grounded, AuthorizationOk, OutcomeOk, EventStream.StreamsOk, EventStream.RecordEvent, IndexesOk, OutcomeEvent;
    var r := FinishCommit(env, db, id, row);
    if id in db.permits.authorizations {
      var (tenant, eventType) := OutcomeEvent(db, id, row);
      EventStream.RecordKeepsStreams(env.crypto, db.streams, tenant, eventType, row.receiptId, Canonical.Text(row.json), row.completedAt);
    }
    if r.answer.Ok? {
      IndexesAfterCommit(db.permits, id, row);
      var p := r.db.permits;
      forall i | i in p.authorizations ensures AuthorizationOk(env, db.registry, clock, i, p.authorizations[i]) {
        assert AuthorizationOk(env, db.registry, clock, i, db.permits.authorizations[i]);
      }
      forall i | i in p.outcomes ensures i in p.authorizations && OutcomeOk(env, db.registry, clock, p.authorizations[i], p.outcomes[i]) {
        if i != id { assert OutcomeOk(env, db.registry, clock, db.permits.authorizations[i], db.permits.outcomes[i]); }
      }
    }
  }

  lemma IndexesAfterCommit(p: PermitTables, id: string, row: OutcomeRow)
    requires IndexesOk(p)
    requires id in p.authorizations && id !in p.outcomes && row.actionId !in p.outcomeByAction
    ensures IndexesOk(p.(outcomes := p.outcomes[id := row], outcomeByAction := p.outcomeByAction[row.actionId := id],
                         receipts := p.receipts + {row.receiptId}))
  {}

  // ======== Every call of the gate keeps the invariant.

  // ---- Policies and streams ----

  lemma InstallKeepsStreams(c: Crypto, store: PolicyStore.Store, events: EventStream.Tables, signer: SignerIdentity, spec: Value, now: u64)
    requires EventStream.StreamsOk(c, events)
    ensures var r := PolicyStore.Install(c, store, events, signer, spec, now); r.Ok? ==> EventStream.StreamsOk(c, Good(r).events)
  {
    hide EventStream.StreamsOk, BundleFault, SpecFault, StringField, PolicyStore.SignBundle, DigestJson, EventStream.RecordEvent,
      PolicyStore.ByVersion, PolicyStore.Retire, PolicyStore.Attest, Canonical.Text;
    var body := PolicyStore.SpecBody(spec, now, signer);
    EventStream.RecordKeepsStreams(c, events, StringField(spec, TENANT_ID).GetOr(""), POLICY_PUBLISHED, DigestJson(c, body),
                                    Canonical.Text(PolicyStore.SignBundle(c, signer, body)), now);
    if SpecFault(spec).None? { PolicyStore.SpecHasFields(spec); }
  }

  lemma LookupKeepsStreams(c: Crypto, store: PolicyStore.Store, events: EventStream.Tables, signer: SignerIdentity, tenant: string, now: u64)
    requires EventStream.StreamsOk(c, events)
    ensures EventStream.StreamsOk(c, PolicyStore.EnsureDefault(c, store, events, signer, now).events)
    ensures EventStream.StreamsOk(c, PolicyStore.ActivePolicy(c, store, events, signer, tenant, now).events)
  {
    hide EventStream.StreamsOk, PolicyStore.Install, BundleFault, StringField, PolicyStore.Resolve, PolicyStore.Attest;
    InstallKeepsStreams(c, store, events, signer, PolicyStore.DEFAULT_SPEC, now);
  }

  // ---- Signed documents ----

  /** Policies, attestations and identity events say nothing of a decision. */
  lemma SpecSignsNoDecision(c: Crypto, spec: Value, signer: SignerIdentity, now: u64)
    ensures forall doc <- SpecSigns(c, spec, signer, now) :: doc.Get(DECISION).None?
  {
    hide DigestJson, StringField;
  }

  lemma LookupSignsNoDecision(c: Crypto, store: PolicyStore.Store, signer: SignerIdentity, now: u64)
    ensures forall doc <- LookupSigns(c, store, signer, now) :: doc.Get(DECISION).None?
  {
    hide SpecSigns, StringField, PolicyStore.ByVersion;
    SpecSignsNoDecision(c, PolicyStore.DEFAULT_SPEC, signer, now);
  }

  lemma MoreSigned(env: Env, signed: set<Value>, issued: map<Value, Value>, more: set<Value>)
    requires HistoryOk(env, signed, issued)
    requires forall doc <- more :: doc.Get(DECISION).None?
    ensures HistoryOk(env, signed + more, issued)
  {
    hide DigestJson;
  }

  lemma IssueSigned(env: Env, signed: set<Value>, issued: map<Value, Value>, body: Value, intent: Value)
    requires HistoryOk(env, signed, issued)
    requires body.GetStr(INTENT_HASH) == Some(DigestJson(env.crypto, intent))
    ensures HistoryOk(env, signed + {body}, issued[body := intent])
  {
    hide DigestJson;
  }

  // ---- Requests ----

  /** The row a request will write is in order. */
  lemma DraftColumns(env: Env, fields: IntentFields, intent: Value, agentSignature: string, gate: string, bundle: Value,
                     policy: PolicyDecision, decision: Permits.Decision, issuedAt: u64, expiresAt: u64)
    requires ValidateIntent(intent, fields.agentId) == Some(fields)
    ensures var (id, row) := AuthorizationDraft(env, fields, intent, agentSignature, gate, bundle, policy, decision, issuedAt, expiresAt);
      && AuthorizationColumnsOk(env.crypto, id, row)
      && BodyOf(row).GetStr(INTENT_HASH) == Some(DigestJson(env.crypto, intent))
      && row.issuedAt == issuedAt && row.decision == decision.decision && row.agentId == fields.agentId
      && row.json.Get(INTENT) == Some(intent)
  {
    hide DigestJson, ValidateIntent, ActionText, AuthorizationBody, StringField, TextArray;
    var body := DraftReceipt(env, fields, intent, gate, bundle, policy, decision, issuedAt, expiresAt);
    DraftReadsBack(env, fields, intent, agentSignature, gate, bundle, policy, decision, issuedAt, expiresAt);
    ResultReadsBack(Receipt(env.crypto, body, AUTHORIZATION_ID, gate), intent, agentSignature, bundle);
    BodyLacksReceiptFields(body, ActionIdFor(env.crypto, fields), fields, DigestJson(env.crypto, intent), decision,
      StringField(bundle, POLICY_VERSION).GetOr(""), StringField(bundle, POLICY_DIGEST).GetOr(""), policy, issuedAt, expiresAt, env.signerFor(gate));
    ReceiptReadsBack(env.crypto, body, AUTHORIZATION_ID, gate);
    DraftColumnsFromParts(env, fields, intent, agentSignature, gate, bundle, policy, decision, issuedAt, expiresAt, body);
  }

  lemma DraftColumnsFromParts(env: Env, fields: IntentFields, intent: Value, agentSignature: string, gate: string, bundle: Value,
                     policy: PolicyDecision, decision: Permits.Decision, issuedAt: u64, expiresAt: u64, body: Value)
    requires ValidateIntent(intent, fields.agentId) == Some(fields)
    requires body.Object?
    requires DeclaresBody(body, ActionIdFor(env.crypto, fields), fields, DigestJson(env.crypto, intent), decision,
      StringField(bundle, POLICY_VERSION).GetOr(""), StringField(bundle, POLICY_DIGEST).GetOr(""), policy, issuedAt, expiresAt, env.signerFor(gate))
    requires var receipt := Receipt(env.crypto, body, AUTHORIZATION_ID, gate);
      && receipt.GetStr(AUTHORIZATION_ID) == Some(DigestJson(env.crypto, body))
      && receipt.Without({AUTHORIZATION_ID, GATE_SIGNATURE}) == body
      && forall key: string :: key != AUTHORIZATION_ID && key != GATE_SIGNATURE ==> receipt.Get(key) == body.Get(key)
    ensures var row := AuthorizationRow(ActionIdFor(env.crypto, fields), fields.tenantId, fields.agentId, fields.idempotencyKey,
        DigestJson(env.crypto, intent), decision.decision, issuedAt, expiresAt,
        AuthorizationResult(Receipt(env.crypto, body, AUTHORIZATION_ID, gate), intent, agentSignature, bundle));
      AuthorizationColumnsOk(env.crypto, DigestJson(env.crypto, body), row)
  {
    hide DigestJson, ValidateIntent, ActionText, AuthorizationBody, StringField, TextArray, Receipt;
    var receipt := Receipt(env.crypto, body, AUTHORIZATION_ID, gate);
    ResultReadsBack(receipt, intent, agentSignature, bundle);
    assert receipt.Get(ACTION_ID) == body.Get(ACTION_ID);
    assert receipt.Get(TENANT_ID) == body.Get(TENANT_ID);
    assert receipt.Get(AGENT_ID) == body.Get(AGENT_ID);
    assert receipt.Get(INTENT_HASH) == body.Get(INTENT_HASH);
    assert receipt.Get(DECISION) == body.Get(DECISION);
    assert receipt.Get(EXPIRES_AT) == body.Get(EXPIRES_AT);
    assert receipt.Get(ISSUED_AT) == body.Get(ISSUED_AT);
  }

  /** An allowed decision needs an active agent. */
  lemma AllowedNeedsActive(signatureValid: bool, agent: Option<AgentState>, fields: IntentFields, issuedAt: u64, policy: PolicyDecision)
    ensures Decide(signatureValid, agent, fields, issuedAt, policy).decision == ALLOWED ==> agent.Some? && agent.value.active
  {}

  /** What the read phase of a request leaves and answers. */
  ghost predicate RequestBegun(env: Env, db: Db, r: Reply<Draft<AuthorizationRow>>, now: u64) {
    && Grounded(db.registry)
    && r.db.registry == db.registry && r.db.permits == db.permits
    && PolicyStore.StoreOk(env, r.db.policies)
    && EventStream.StreamsOk(env.crypto, r.db.streams)
    && HistoryOk(env, r.db.signed, r.db.issued)
    && (r.answer.Ok? && r.answer.value.ToWrite? ==>
          && AuthorizationOk(env, db.registry, now, r.answer.value.id, r.answer.value.row)
          && r.answer.value.row.issuedAt == now
          && (r.answer.value.row.decision == ALLOWED ==> ActiveView(VerifyAgentAt(env.crypto, db.registry, r.answer.value.row.agentId, now)).Some?))
  }

  lemma IssueKeeps(env: Env, db: Db, clock: u64, gate: string, intent: Value, fields: IntentFields, agentSignature: string,
                   ttlSeconds: u64, bundle: Value, now: u64)
    requires Honest(env) && env.crypto.isPublicKey(gate)
    requires Grounded(db.registry) && HistoryOk(env, db.signed, db.issued)
    requires PolicyStore.StoreOk(env, db.policies) && EventStream.StreamsOk(env.crypto, db.streams)
    requires GateIdentity(env.crypto, db.registry, gate, now).Ok?
    requires ValidateIntent(intent, fields.agentId) == Some(fields)
    requires BundleFault(env.crypto, bundle, Some(gate)).None? && bundle.Get(SIGNER) == Some(env.signerFor(gate).ToJson())
    requires StringField(bundle, POLICY_VERSION).Some? && StringField(bundle, POLICY_DIGEST).Some?
    ensures RequestBegun(env, db, IssueDecision(env, db, gate, intent, fields, agentSignature, ttlSeconds, bundle, now), now)
  {
    hide Grounded, HistoryOk, GateIdentity, VerifyAgentInner, BundleFault, EvaluatePolicy, ValidateIntent, StringField, DigestJson,
      Canonical.Text, AuthorizationDraft, VerifyAuthorization, Decide, PolicyStore.StoreOk, EventStream.StreamsOk, BodyOf,
      AuthorizationColumnsOk;
    var r := IssueDecision(env, db, gate, intent, fields, agentSignature, ttlSeconds, bundle, now);
    if r.answer.Ok? {
      var policy := EvaluatePolicy(env.crypto, bundle, intent, ttlSeconds).value;
      var agent := VerifyAgentAt(env.crypto, db.registry, fields.agentId, now).value;
      var signatureValid := env.crypto.verifies(fields.agentId, TextBytes(Canonical.Text(intent)), agentSignature);
      var decision := Decide(signatureValid, agent, fields, now, policy);
      var expiresAt := Expiry(now, ttlSeconds);
      FreshAuthorizationClean(env, db.registry, gate, intent, fields, agentSignature, ttlSeconds, bundle, policy, decision, now);
      DraftColumns(env, fields, intent, agentSignature, gate, bundle, policy, decision, now, expiresAt);
      AllowedNeedsActive(signatureValid, agent, fields, now, policy);
      var (id, row) := AuthorizationDraft(env, fields, intent, agentSignature, gate, bundle, policy, decision, now, expiresAt);
      IssueSigned(env, db.signed, db.issued, BodyOf(row), intent);
    }
  }

  lemma FoundBundleFields(env: Env, bundle: Value, key: string)
    requires BundleFault(env.crypto, bundle, Some(key)).None?
    ensures StringField(bundle, POLICY_VERSION).Some? && StringField(bundle, POLICY_DIGEST).Some?
  {
    hide DigestJson, ConstraintsFault, IsBlank;
    var body := BundleBody(bundle);
    assert bundle.Object? ==> body.Get(POLICY_VERSION) == bundle.Get(POLICY_VERSION);
  }

  lemma DecideRequestKeeps(env: Env, db: Db, clock: u64, gate: string, intent: Value, fields: IntentFields, agentSignature: string,
                           ttlSeconds: u64, now: u64)
    requires Honest(env) && env.crypto.isPublicKey(gate)
    requires Grounded(db.registry) && Inv(env, db, clock) && clock < now
    requires ValidateIntent(intent, fields.agentId) == Some(fields)
    ensures RequestBegun(env, db, DecideRequest(env, db, gate, intent, fields, agentSignature, ttlSeconds, now), now)
  {
    hide RegistryOk, Grounded, HistoryOk, GateIdentity, VerifyAgentInner, BundleFault, ValidateIntent, StringField, IssueDecision,
      PolicyStore.ActivePolicy, PolicyStore.StoreOk, EventStream.StreamsOk, LookupSigns, PermitsOk, AuthorizationOk,
      IdentityOps.SuccessionsOk;
    RegistryGrounded(env, db.registry, clock);
    var signer := env.signerFor(gate);
    if GateIdentity(env.crypto, db.registry, gate, now).Ok? {
      var lookup := PolicyStore.ActivePolicy(env.crypto, db.policies, db.streams, signer, fields.tenantId, now);
      PolicyStore.LookupKeepsStore(env, db.policies, db.streams, gate, fields.tenantId, now);
      LookupKeepsStreams(env.crypto, db.policies, db.streams, signer, fields.tenantId, now);
      LookupSignsNoDecision(env.crypto, db.policies, signer, now);
      MoreSigned(env, db.signed, db.issued, LookupSigns(env.crypto, db.policies, signer, now));
      if lookup.bundle.Ok? {
        PolicyStore.FoundBundleOk(env, db.policies, db.streams, gate, fields.tenantId, now);
        FoundBundleFields(env, lookup.bundle.value, gate);
        var db1 := db.(policies := lookup.store, streams := lookup.events,
                       signed := db.signed + LookupSigns(env.crypto, db.policies, signer, now));
        IssueKeeps(env, db1, clock, gate, intent, fields, agentSignature, ttlSeconds, lookup.bundle.value, now);
      }
    }
  }

  lemma ValidatedAgent(intent: Value, agentId: string)
    requires ValidateIntent(intent, agentId).Some?
    ensures ValidateIntent(intent, agentId).value.agentId == agentId
  {}

  /** The read phase of a request changes no more than the policy tables, and what it would write is in order. */
  lemma BeginRequestKeeps(env: Env, db: Db, clock: u64, gate: string, intent: Option<Value>, agentId: string, agentSignature: string,
                          ttlSeconds: u64, now: u64)
    requires Honest(env) && env.crypto.isPublicKey(gate)
    requires Grounded(db.registry) && Inv(env, db, clock) && clock < now
    ensures RequestBegun(env, db, BeginRequest(env, db, gate, intent, agentId, agentSignature, ttlSeconds, now), now)
  {
    hide RegistryOk, Grounded, HistoryOk, ValidateIntent, DecideRequest, PolicyStore.StoreOk, EventStream.StreamsOk, PermitsOk,
      AuthorizationOk, IdentityOps.SuccessionsOk, VerifyAuthorization, ActionIdFor, DigestJson;
    RegistryGrounded(env, db.registry, clock);
    if intent.Some? && ValidateIntent(intent.value, agentId).Some? {
      ValidatedAgent(intent.value, agentId);
      DecideRequestKeeps(env, db, clock, gate, intent.value, ValidateIntent(intent.value, agentId).value, agentSignature, ttlSeconds, now);
    }
  }

  /** A database with another registry in order, or the same, keeps the invariant. */
  lemma InvLater(env: Env, db: Db, db': Db, clock: u64, now: u64)
    requires Inv(env, db, clock) && clock <= now
    requires db'.registry == db.registry && db'.permits == db.permits
    requires PolicyStore.StoreOk(env, db'.policies) && EventStream.StreamsOk(env.crypto, db'.streams) && HistoryOk(env, db'.signed, db'.issued)
    ensures Inv(env, db', now)
  {
    hide RegistryOk, Grounded, HistoryOk, PolicyStore.StoreOk, EventStream.StreamsOk, PermitsOk, IdentityOps.SuccessionsOk, Evolves;
    RegistryLater(env, db.registry, clock, now);
    SameRegistryEvolves(db.registry, clock);
    PermitsKept(env, db.registry, db.registry, db.permits, clock, now);
  }

  /** `request_action_signed` keeps the invariant. */
  lemma RequestKeepsInv(env: Env, db: Db, clock: u64, gate: string, intent: Option<Value>, agentId: string, agentSignature: string,
                        ttlSeconds: u64, now: u64)
    requires Honest(env) && env.crypto.isPublicKey(gate)
    requires Grounded(db.registry) && Inv(env, db, clock) && clock < now
    ensures Inv(env, Request(env, db, gate, intent, agentId, agentSignature, ttlSeconds, now).db, now)
  {
    hide RegistryOk, Grounded, HistoryOk, PolicyStore.StoreOk, EventStream.StreamsOk, PermitsOk, IdentityOps.SuccessionsOk, BeginRequest,
      FinishRequest, AuthorizationOk, VerifyAgentAt;
    BeginRequestKeeps(env, db, clock, gate, intent, agentId, agentSignature, ttlSeconds, now);
    var begun := BeginRequest(env, db, gate, intent, agentId, agentSignature, ttlSeconds, now);
    InvLater(env, db, begun.db, clock, now);
    if begun.answer.Ok? && begun.answer.value.ToWrite? {
      FinishRequestKeepsPermits(env, begun.db, now, begun.answer.value.id, begun.answer.value.row);
    }
  }

  // ======== Committing an outcome keeps the invariant.

  // ---- Execution documents read back ----

  predicate DeclaresExecution(body: Value, id: string, actionId: string, intentHash: string, outcomeHash: string, executorId: string,
                              status: string, completedAt: u64, gateId: string) {
    && body.Object?
    && RECEIPT_ID !in body.fields && GATE_SIGNATURE !in body.fields
    && body.GetStr(SCHEMA_VERSION) == Some(EXECUTION_RECEIPT_SCHEMA)
    && body.Get(AUTHORIZATION_ID) == Some(String(id))
    && body.Get(ACTION_ID) == Some(String(actionId))
    && body.Get(INTENT_HASH) == Some(String(intentHash))
    && body.GetStr(OUTCOME_HASH) == Some(outcomeHash)
    && body.Get(EXECUTOR_ID) == Some(String(executorId))
    && body.Get(STATUS) == Some(String(status))
    && body.GetU64(COMPLETED_AT) == Some(completedAt)
    && body.GetStr(GATE_ID) == Some(gateId)
    && body.Get(DECISION).None?
  }

  lemma ExecutionDeclares(id: string, actionId: string, intentHash: string, outcomeHash: string, executorId: string,
                          status: string, completedAt: u64, gateId: string)
    ensures DeclaresExecution(ExecutionBody(id, actionId, intentHash, outcomeHash, executorId, status, completedAt, gateId),
                              id, actionId, intentHash, outcomeHash, executorId, status, completedAt, gateId)
  {}

  lemma ExecutionResultReadsBack(receipt: Value, outcome: Value)
    ensures var result := ExecutionResult(receipt, outcome);
      && result.GetStr(SCHEMA_VERSION) == Some(EXECUTION_RESULT_SCHEMA)
      && result.Get(RECEIPT) == Some(receipt)
      && result.Get(OUTCOME) == Some(outcome)
  {}

  /** The signature of an outcome is not among the members its validation reads. */
  lemma SignatureNotValidated(outcome: Value, id: string, actionId: string)
    ensures ValidateOutcome(outcome, id, actionId) == ValidateOutcome(OutcomeToSign(outcome), id, actionId)
    ensures outcome.Get(STATUS) == OutcomeToSign(outcome).Get(STATUS)
  {
    hide IsBlank;
  }

  lemma ValidStatus(outcome: Value, id: string, actionId: string)
    requires ValidateOutcome(outcome, id, actionId).Some?
    ensures outcome.Get(STATUS) == Some(String(ValidateOutcome(outcome, id, actionId).value))
  {
    hide IsBlank;
  }

  // ---- A fresh execution verifies ----

  /** What the gate knows when it accepts an outcome. */
  ghost predicate Accepting(env: Env, db: Db, id: string, permit: Value, json: Value, outcome: Value, executorId: string, status: string,
                            gate: string, now: u64)
  {
    && env.crypto.isPublicKey(gate)
    && json.Get(AUTHORIZATION) == Some(permit)
    && permit.GetStr(AUTHORIZATION_ID) == Some(id)
    && StringField(permit, ACTION_ID).Some? && StringField(permit, INTENT_HASH).Some?
    && ValidateOutcome(OutcomeToSign(outcome), id, The(StringField(permit, ACTION_ID))) == Some(status)
    && ExecutorRefusal(env, db, json, permit, executorId, OutcomeToSign(outcome), outcome.GetStr(EXECUTOR_SIGNATURE).GetOr(""), now).None?
  }

  lemma AcceptedExecutorClean(env: Env, db: Db, id: string, permit: Value, json: Value, outcome: Value, executorId: string, status: string,
                              gate: string, now: u64)
    requires Grounded(db.registry) && Accepting(env, db, id, permit, json, outcome, executorId, status, gate, now)
    ensures ExecutorFaults(env.crypto, db.registry, executorId, now, permit.GetStr(TENANT_ID).GetOr("*")) == []
    ensures env.crypto.verifies(executorId, TextBytes(Canonical.Text(OutcomeToSign(outcome))), outcome.GetStr(EXECUTOR_SIGNATURE).GetOr(""))
    ensures permit.Get(AGENT_ID) != Some(String(executorId))
  {
    hide Grounded, VerifyAgentInner, ExecutorAllowed, IsProposer, Canonical.Text, OutcomeToSign, ValidateOutcome, IsBlank;
  }

  lemma FreshOutcomeClean(env: Env, db: Db, id: string, permit: Value, json: Value, outcome: Value, executorId: string, status: string,
                          gate: string, now: u64, body: Value)
    requires Grounded(db.registry) && Accepting(env, db, id, permit, json, outcome, executorId, status, gate, now)
    requires DeclaresExecution(body, id, The(StringField(permit, ACTION_ID)), The(StringField(permit, INTENT_HASH)),
                               DigestJson(env.crypto, OutcomeToSign(outcome)), executorId, status, now, gate)
    ensures OutcomeFaults(env.crypto, db.registry, permit, body, outcome) == []
  {
    AcceptedExecutorClean(env, db, id, permit, json, outcome, executorId, status, gate, now);
    SignatureNotValidated(outcome, id, StringField(permit, ACTION_ID).value);
    ValidStatus(outcome, id, StringField(permit, ACTION_ID).value);
    FieldsAsStrings(permit, ACTION_ID);
    hide Grounded, VerifyAgentInner, ExecutorRefusal, ExecutorFaults, Canonical.Text, OutcomeToSign, ValidateOutcome, DigestJson,
      StringField;
  }

  lemma FieldsAsStrings(value: Value, field: string)
    ensures StringField(value, field).Some? ==> value.Get(field) == Some(String(StringField(value, field).value))
  {
    hide IsBlank;
  }

  /** The body of the receipt an outcome will get. */
  function OutcomeBody(env: Env, id: string, permit: Value, outcome: Value, executorId: string, status: string, gate: string, now: u64): Value {
    ExecutionBody(id, StringField(permit, ACTION_ID).GetOr(""), StringField(permit, INTENT_HASH).GetOr(""),
                  DigestJson(env.crypto, OutcomeToSign(outcome)), executorId, status, now, gate)
  }

  lemma OutcomeReadsBack(env: Env, id: string, permit: Value, outcome: Value, executorId: string, status: string, gate: string, now: u64)
    ensures var row := OutcomeDraft(env, id, permit, outcome, executorId, status, gate, now);
      var body := OutcomeBody(env, id, permit, outcome, executorId, status, gate, now);
      var receipt := Receipt(env.crypto, body, RECEIPT_ID, gate);
      && DeclaresExecution(body, id, StringField(permit, ACTION_ID).GetOr(""), StringField(permit, INTENT_HASH).GetOr(""),
                           DigestJson(env.crypto, OutcomeToSign(outcome)), executorId, status, now, gate)
      && row.json == ExecutionResult(receipt, outcome)
      && receipt.Object?
      && receipt.GetStr(RECEIPT_ID) == Some(DigestJson(env.crypto, body))
      && receipt.GetStr(GATE_SIGNATURE) == Some(env.crypto.sign(gate, DigestBytes(DigestJson(env.crypto, body))))
      && receipt.Without({RECEIPT_ID, GATE_SIGNATURE}) == body
      && ExecutionBodyOf(row) == body
      && row.completedAt == now && row.actionId == StringField(permit, ACTION_ID).GetOr("")
  {
    hide DigestJson, StringField, OutcomeToSign, ExecutionBody, Receipt, DeclaresExecution;
    var body := OutcomeBody(env, id, permit, outcome, executorId, status, gate, now);
    ExecutionDeclares(id, StringField(permit, ACTION_ID).GetOr(""), StringField(permit, INTENT_HASH).GetOr(""),
                      DigestJson(env.crypto, OutcomeToSign(outcome)), executorId, status, now, gate);
    LacksReceiptFields(body, id, StringField(permit, ACTION_ID).GetOr(""), StringField(permit, INTENT_HASH).GetOr(""),
                      DigestJson(env.crypto, OutcomeToSign(outcome)), executorId, status, now, gate);
    ReceiptReadsBack(env.crypto, body, RECEIPT_ID, gate);
    ExecutionResultReadsBack(Receipt(env.crypto, body, RECEIPT_ID, gate), outcome);
  }

  lemma LacksReceiptFields(body: Value, id: string, actionId: string, intentHash: string, outcomeHash: string, executorId: string,
                           status: string, completedAt: u64, gateId: string)
    requires DeclaresExecution(body, id, actionId, intentHash, outcomeHash, executorId, status, completedAt, gateId)
    ensures body.Object? && RECEIPT_ID !in body.fields && GATE_SIGNATURE !in body.fields
    ensures body.Get(DECISION).None? && body.GetU64(COMPLETED_AT) == Some(completedAt)
  {}

  /** Nothing is wrong with an execution when it is accepted. */
  lemma FreshExecutionClean(env: Env, db: Db, id: string, permit: Value, json: Value, outcome: Value, executorId: string, status: string,
                            gate: string, now: u64)
    requires Honest(env) && Grounded(db.registry)
    requires Accepting(env, db, id, permit, json, outcome, executorId, status, gate, now)
    ensures VerifyExecution(env.crypto, db.registry, json, OutcomeDraft(env, id, permit, outcome, executorId, status, gate, now).json) == []
    ensures CompletedAt(OutcomeDraft(env, id, permit, outcome, executorId, status, gate, now).json) == now
  {
    hide Grounded, VerifyAgentInner, ExecutorRefusal, OutcomeFaults, Canonical.Text, OutcomeToSign, ValidateOutcome, DigestJson,
      StringField, OutcomeDraft, OutcomeBody, ExecutionResult, Receipt;
    var row := OutcomeDraft(env, id, permit, outcome, executorId, status, gate, now);
    var body := OutcomeBody(env, id, permit, outcome, executorId, status, gate, now);
    OutcomeReadsBack(env, id, permit, outcome, executorId, status, gate, now);
    ExecutionResultReadsBack(Receipt(env.crypto, body, RECEIPT_ID, gate), outcome);
    FreshOutcomeClean(env, db, id, permit, json, outcome, executorId, status, gate, now, body);
    AcceptedExecutorClean(env, db, id, permit, json, outcome, executorId, status, gate, now);
    FieldsAsStrings(permit, ACTION_ID);
    FieldsAsStrings(permit, INTENT_HASH);
    assert SignsCorrectly(env.crypto, gate);
  }

  // ---- The read phase ----

  /** What the read phase of a commit leaves and answers. */
  ghost predicate CommitBegun(env: Env, db: Db, id: string, r: Reply<Draft<OutcomeRow>>, now: u64) {
    && Grounded(db.registry)
    && r.db == db.(signed := r.db.signed)
    && HistoryOk(env, r.db.signed, r.db.issued)
    && (r.answer.Ok? && r.answer.value.ToWrite? ==>
          && r.answer.value.id == id && id in db.permits.authorizations
          && OutcomeOk(env, db.registry, now, db.permits.authorizations[id], r.answer.value.row)
          && id !in db.permits.revoked && id !in db.permits.outcomes
          && now <= db.permits.authorizations[id].expiresAt)
  }

  lemma PermitUsable(env: Env, db: Db, clock: u64, id: string, now: u64)
    requires Grounded(db.registry) && PermitsOk(env, db.registry, db.permits, clock)
    requires PermitRefusal(env, db, id, now).None?
    ensures id in db.permits.authorizations
    ensures var row := Entry(db.permits.authorizations, id);
      && row.decision == ALLOWED && id !in db.permits.revoked && now <= row.expiresAt
      && row.json.Get(AUTHORIZATION) == Some(PermitOf(row.json))
      && PermitOf(row.json).GetStr(AUTHORIZATION_ID) == Some(id)
      && StringField(PermitOf(row.json), ACTION_ID) == Some(row.actionId)
  {
    hide Grounded, VerifyAuthorization, IndexesOk, OutcomeOk, DigestJson, ActionText, ValidateIntent, IssuedAt;
    assert AuthorizationOk(env, db.registry, clock, id, db.permits.authorizations[id]);
  }

  lemma DecideOutcomeKeeps(env: Env, db: Db, clock: u64, gate: string, id: string, outcome: Value, status: string, now: u64)
    requires Honest(env) && env.crypto.isPublicKey(gate)
    requires Grounded(db.registry) && PermitsOk(env, db.registry, db.permits, clock) && HistoryOk(env, db.signed, db.issued)
    requires PermitRefusal(env, db, id, now).None? && id in db.permits.authorizations && id !in db.permits.outcomes
    requires ValidateOutcome(OutcomeToSign(outcome), id, StringField(PermitOf(Entry(db.permits.authorizations, id).json), ACTION_ID).GetOr("")) == Some(status)
    ensures var json := Entry(db.permits.authorizations, id).json;
      CommitBegun(env, db, id, DecideOutcome(env, db, gate, id, json, PermitOf(json), outcome, status, now), now)
  {
    hide Grounded, PermitsOk, HistoryOk, PermitRefusal, ExecutorRefusal, VerifyAgentInner, VerifyExecution, OutcomeDraft, OutcomeToSign,
      ValidateOutcome, StringField, CompletedAt, ExecutionBodyOf, DeclaresExecution, OutcomeBody, DigestJson, GateIdentity, ExecutionResult,
      Receipt;
    PermitUsable(env, db, clock, id, now);
    var json := db.permits.authorizations[id].json;
    var permit := PermitOf(json);
    var r := DecideOutcome(env, db, gate, id, json, permit, outcome, status, now);
    if r.answer.Ok? {
      var executorId := StringField(OutcomeToSign(outcome), EXECUTOR_ID).value;
      FreshExecutionClean(env, db, id, permit, json, outcome, executorId, status, gate, now);
      OutcomeReadsBack(env, id, permit, outcome, executorId, status, gate, now);
      var body := OutcomeBody(env, id, permit, outcome, executorId, status, gate, now);
      LacksReceiptFields(body, id, StringField(permit, ACTION_ID).GetOr(""), StringField(permit, INTENT_HASH).GetOr(""),
                         DigestJson(env.crypto, OutcomeToSign(outcome)), executorId, status, now, gate);
      MoreSigned(env, db.signed, db.issued, {body});
    }
  }

  /** The read phase of a commit changes no table, and what it would write is in order. */
  lemma BeginCommitKeeps(env: Env, db: Db, clock: u64, gate: string, id: string, outcome: Option<Value>, now: u64)
    requires Honest(env) && env.crypto.isPublicKey(gate)
    requires Grounded(db.registry) && PermitsOk(env, db.registry, db.permits, clock) && HistoryOk(env, db.signed, db.issued)
    ensures CommitBegun(env, db, id, BeginCommit(env, db, gate, id, outcome, now), now)
  {
    hide Grounded, PermitsOk, HistoryOk, PermitRefusal, DecideOutcome, VerifyExecution, OutcomeToSign, ValidateOutcome, StringField,
      OutcomeOk, DigestJson;
    var r := BeginCommit(env, db, gate, id, outcome, now);
    if PermitRefusal(env, db, id, now).None? && id in db.permits.authorizations && outcome.Some? && id !in db.permits.outcomes {
      var actionId := StringField(PermitOf(db.permits.authorizations[id].json), ACTION_ID).GetOr("");
      match ValidateOutcome(OutcomeToSign(outcome.value), id, actionId)
      case Some(status) => DecideOutcomeKeeps(env, db, clock, gate, id, outcome.value, status, now);
      case None =>
    }
  }

  /** `commit_outcome_signed` keeps the invariant. */
  lemma CommitKeepsInv(env: Env, db: Db, clock: u64, gate: string, id: string, outcome: Option<Value>, now: u64)
    requires Honest(env) && env.crypto.isPublicKey(gate)
    requires Grounded(db.registry) && Inv(env, db, clock) && clock < now
    ensures Inv(env, Commit(env, db, gate, id, outcome, now).db, now)
  {
    hide RegistryOk, Grounded, HistoryOk, PolicyStore.StoreOk, EventStream.StreamsOk, PermitsOk, IdentityOps.SuccessionsOk, BeginCommit,
      FinishCommit, OutcomeOk;
    BeginCommitKeeps(env, db, clock, gate, id, outcome, now);
    var begun := BeginCommit(env, db, gate, id, outcome, now);
    InvLater(env, db, begun.db, clock, now);
    if begun.answer.Ok? && begun.answer.value.ToWrite? {
      FinishCommitKeepsPermits(env, begun.db, now, id, begun.answer.value.row);
    }
  }
}
