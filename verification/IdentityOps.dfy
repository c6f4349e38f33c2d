/** Registration, rotation and revocation on keys in order: what an accepted call rests on, when exactly it
    keeps the keys in order, and the succession of an identity's keys. */
module IdentityOps {
  import opened Prelude
  import opened Names
  import opened Json
  import opened Crypto
  import opened Identity
  import opened IdentityProofs
  import Canonical
  import Decimal

  lemma NotBlank(text: string)
    requires text != "" && !IsWhiteSpace(text[0])
    ensures !IsBlank(text)
  {}

  // ---- Registration events ----

  /** The members of a registration event that verification reads. */
  predicate DeclaresRow(event: Value, publicKey: string, row: AgentRow) {
    && event.GetStr(SCHEMA_VERSION) == Some(AGENT_REGISTRATION_SCHEMA)
    && event.GetStr(AGENT_ID) == Some(publicKey)
    && event.GetStr("alias") == Some(row.alias)
    && event.GetStr(REGISTERED_BY) == Some(row.registeredBy)
    && event.GetU64(REGISTERED_AT) == Some(row.registeredAt)
    && event.Get(METADATA) == Some(row.metadata)
    && event.Get(CAN_DELEGATE) == Some(Bool(row.canDelegate))
    && event.GetStr(IDENTITY_ID) == Some(row.identityId)
    && event.GetStr(TENANT_ID) == Some(row.tenantId)
    && event.GetU64(KEY_VERSION) == Some(row.keyVersion)
    && event.Get(SIGNER) == Some(SignerIdentity(row.signerUri, Decimal.Numeral(row.keyVersion), row.algorithm, publicKey).ToJson())
  }

  lemma RegistrationDeclares(publicKey: string, row: AgentRow)
    ensures var event := RegistrationEvent(publicKey, row.alias, row.metadata, row.canDelegate, row.registeredAt, row.registeredBy,
                                           row.identityId, row.tenantId, row.keyVersion, row.signerUri, row.algorithm);
      && event.Object?
      && DeclaresRow(event, publicKey, row)
  {
    hide Decimal.Numeral, Decimal.AllDigits;
  }

  lemma RotationIdIrrelevant(event: Value, id: string, publicKey: string, row: AgentRow)
    requires event.Object? && DeclaresRow(event, publicKey, row)
    ensures DeclaresRow(event.With(ROTATION_EVENT_ID, String(id)), publicKey, row)
  {
    hide Decimal.Numeral;
  }

  lemma DeclaredMatches(publicKey: string, row: AgentRow)
    requires DeclaresRow(row.event, publicKey, row)
    requires !IsBlank(publicKey) && !IsBlank(row.alias) && !IsBlank(row.registeredBy)
    ensures MatchesColumns(publicKey, row)
  {
    hide Decimal.Numeral, IsBlank;
    NotBlank(AGENT_REGISTRATION_SCHEMA);
  }

  lemma BlankEmpty(text: string)
    requires !IsBlank(text)
    ensures text != ""
  {}

  /** A row signed over an event that declares it is authentic. */
  lemma SignedRowAuthentic(env: Env, publicKey: string, row: AgentRow)
    requires Honest(env) && env.crypto.isPublicKey(publicKey) && env.crypto.isPublicKey(row.registeredBy)
    requires !IsBlank(row.alias) && DeclaresRow(row.event, publicKey, row)
    requires row.eventId == DigestJson(env.crypto, row.event)
    requires row.signature == env.crypto.sign(row.registeredBy, DigestBytes(row.eventId))
    ensures Authentic(env.crypto, publicKey, row)
  {
    hide DeclaresRow, MatchesColumns, IsBlank;
    DeclaredMatches(publicKey, row);
    assert env.crypto.isPublicKey(row.registeredBy);
    assert SignsCorrectly(env.crypto, row.registeredBy);
    assert env.crypto.isSignature(row.signature);
    BlankEmpty(row.signature);
    BlankEmpty(row.registeredBy);
    assert |row.eventId| == DIGEST_LENGTH;
  }

  // ---- Lifecycle events ----

  /** The members of a lifecycle event that verification reads. */
  predicate DeclaresEvent(event: Value, row: LifecycleRow, tenantId: string, signer: SignerIdentity) {
    && event.GetStr(SCHEMA_VERSION) == Some(IDENTITY_EVENT_SCHEMA)
    && event.GetStr(IDENTITY_ID) == Some(row.identityId)
    && event.GetStr(EVENT_TYPE) == Some(row.eventType)
    && event.GetU64(EFFECTIVE_AT) == Some(row.effectiveAt)
    && event.GetStr(TENANT_ID) == Some(tenantId)
    && event.GetStr(AUTHORIZED_BY) == Some(signer.publicKey)
    && event.Get(SIGNER) == Some(signer.ToJson())
  }

  lemma RotationDeclares(identityId: string, tenantId: string, previousKey: string, publicKey: string, version: u64, next: u64,
                         at: u64, signer: SignerIdentity, row: LifecycleRow)
    requires row.identityId == identityId && row.eventType == ROTATE && row.effectiveAt == at
    ensures var event := RotationEvent(identityId, tenantId, previousKey, publicKey, version, next, at, signer);
      DeclaresEvent(event, row, tenantId, signer) && event.GetStr(PREVIOUS_PUBLIC_KEY) == Some(previousKey)
  {}

  lemma RevocationDeclares(identityId: string, tenantId: string, publicKey: string, at: u64, reason: string,
                           signer: SignerIdentity, row: LifecycleRow)
    requires row.identityId == identityId && row.eventType == REVOKE && row.effectiveAt == at
    ensures var event := RevocationEvent(identityId, tenantId, publicKey, at, reason, signer);
      DeclaresEvent(event, row, tenantId, signer) && event.GetStr(PUBLIC_KEY) == Some(publicKey)
  {}

  /** A signed event that declares its row is authentic and its columns are its own. */
  lemma SignedEventOk(env: Env, reg: Registry, gate: string, event: Value, identityId: string, publicKey: string,
                      eventType: string, at: u64, tenantId: string, subject: string)
    requires Honest(env) && env.crypto.isPublicKey(gate)
    requires eventType in {ROTATE, REVOKE} && !IsBlank(tenantId)
    requires identityId in reg.agents && subject in reg.agents
    requires var row := LifecycleRowFor(env, event, gate, identityId, publicKey, eventType, at);
      DeclaresEvent(event, row, tenantId, env.signerFor(gate))
    requires (if eventType == ROTATE then event.GetStr(PREVIOUS_PUBLIC_KEY) else event.GetStr(PUBLIC_KEY)) == Some(subject)
    ensures var row := LifecycleRowFor(env, event, gate, identityId, publicKey, eventType, at);
      && EventColumnsOk(reg, row)
      && EventAuthentic(env.crypto, identityId, row)
      && Subject(row) == Some(subject)
      && SignerOf(row) == gate
      && EventTenant(row) == tenantId
      && row.json.Get(EVENT) == Some(event)
      && StringField(event, TENANT_ID) == Some(tenantId)
  {
    hide IsBlank, DigestJson;
    var row := LifecycleRowFor(env, event, gate, identityId, publicKey, eventType, at);
    SignedEventFields(env.crypto, event, env.signerFor(gate));
    var id := DigestJson(env.crypto, event);
    var signature := env.crypto.sign(gate, DigestBytes(id));
    assert env.signerFor(gate).publicKey == gate;
    assert env.crypto.isPublicKey(gate) && SignsCorrectly(env.crypto, gate);
    assert env.crypto.isSignature(signature);
    JsonDigestNotBlank(env.crypto, event);
    NotBlank(ROTATE);
    NotBlank(REVOKE);
  }

  lemma JsonDigestNotBlank(c: Crypto, value: Value)
    requires DigestsAreHex(c)
    ensures !IsBlank(DigestJson(c, value))
  {
    DigestNotBlank(c, Canonical.Text(value));
  }

  lemma SignedEventFields(c: Crypto, event: Value, signer: SignerIdentity)
    ensures var json := SignedEvent(c, event, signer);
      && json.Get(EVENT) == Some(event)
      && json.GetStr(EVENT_ID) == Some(DigestJson(c, event))
      && json.GetStr(SIGNATURE) == Some(c.sign(signer.publicKey, DigestBytes(DigestJson(c, event))))
  {
    hide DigestJson;
  }

  // ---- Who is active ----

  /** An active state means a registered, unretired key with a short enough chain. */
  lemma ActiveMeans(env: Env, reg: Registry, clock: u64, key: string, now: u64)
    requires RegistryOk(env, reg, clock) && clock < now
    ensures ActiveView(VerifyAgentAt(env.crypto, reg, key, now)).Some? <==>
      key in reg.agents && ChainLength(reg, key) <= LONGEST_CHAIN && Entry(reg.agents, key).status == Active
    ensures ActiveView(VerifyAgentAt(env.crypto, reg, key, now)).Some? ==>
      The(ActiveView(VerifyAgentAt(env.crypto, reg, key, now))) == StateAt(Entry(reg.agents, key), now)
  {
    hide AgentOk, EventOk, ChainLength, VerifyAgentInner;
    VerifyIsClosedForm(env, reg, clock, key, now);
    if key in reg.agents {
      assert AgentOk(env, reg, clock, key);
      AgentWindow(env, reg, clock, key);
    }
  }

  lemma AgentWindow(env: Env, reg: Registry, clock: u64, key: string)
    requires Grounded(reg) && key in reg.agents && AgentOk(env, reg, clock, key)
    ensures WindowOk(Entry(reg.agents, key), clock)
    ensures !IsBlank(Entry(reg.agents, key).tenantId) && !IsBlank(Entry(reg.agents, key).alias)
    ensures Entry(reg.agents, key).identityId in reg.agents
  {
    hide Authentic, EndFrom, ChainLength;
  }

  /** An active delegator in scope vouches. */
  lemma ActiveVouches(env: Env, reg: Registry, clock: u64, key: string, now: u64, tenantId: string)
    requires RegistryOk(env, reg, clock) && clock < now
    requires VerifyAgentAt(env.crypto, reg, key, now).Ok? && Good(VerifyAgentAt(env.crypto, reg, key, now)).Some?
    requires var state := The(Good(VerifyAgentAt(env.crypto, reg, key, now)));
      state.active && state.canDelegate && (state.tenantId == "*" || state.tenantId == tenantId)
    ensures Vouches(reg, key, now, tenantId)
  {
    hide AgentOk, EventOk, ChainLength, VerifyAgentInner;
    VerifyIsClosedForm(env, reg, clock, key, now);
  }

  // ---- Registration ----

  /** What a prepared registration rests on. */
  lemma PreparedMeans(env: Env, reg: Registry, registrar: string, publicKey: string, alias: string, metadata: Option<Value>, now: u64)
    requires Grounded(reg)
    requires PrepareRegistration(env, reg, registrar, publicKey, alias, metadata, now).Ok?
    ensures env.crypto.isPublicKey(publicKey) && !IsBlank(alias) && metadata.Some? && publicKey !in reg.agents
    ensures Profile(env, publicKey, registrar, The(metadata)).Some?
    ensures var tenantId := The(metadata).GetStr(TENANT_ID).GetOr("*");
      && !IsBlank(tenantId)
      && Good(PrepareRegistration(env, reg, registrar, publicKey, alias, metadata, now))
        == RegistrationRow(env, reg, registrar, publicKey, alias, The(metadata), The(Profile(env, publicKey, registrar, The(metadata))), tenantId, now)
      && (reg.agents == map[] ==> publicKey == registrar)
      && (reg.agents != map[] ==>
            && VerifyAgentAt(env.crypto, reg, registrar, now).Ok? && Good(VerifyAgentAt(env.crypto, reg, registrar, now)).Some?
            && var state := The(Good(VerifyAgentAt(env.crypto, reg, registrar, now)));
               state.active && state.canDelegate && (state.tenantId == "*" || state.tenantId == tenantId))
  {
    hide Profile, RegistrationRow, VerifyAgentInner, IsBlank, Grounded;
  }

  /** `register_agent` inserts a row in order. */
  lemma RegistrationIsFresh(env: Env, reg: Registry, clock: u64, registrar: string, publicKey: string, alias: string,
                            metadata: Option<Value>, now: u64)
    requires Honest(env) && env.crypto.isPublicKey(registrar)
    requires RegistryOk(env, reg, clock) && clock < now
    requires PrepareRegistration(env, reg, registrar, publicKey, alias, metadata, now).Ok?
    ensures FreshRow(env, reg, publicKey, Good(PrepareRegistration(env, reg, registrar, publicKey, alias, metadata, now)))
    ensures var row := Good(PrepareRegistration(env, reg, registrar, publicKey, alias, metadata, now));
      row.registeredAt == now && row.registeredBy == registrar && row.identityId == publicKey && row.eventId == DigestJson(env.crypto, row.event)
  {
    hide AgentOk, EventOk, ChainLength, VerifyAgentInner, Profile, PrepareRegistration, DigestJson, IsBlank, Authentic, DeclaresRow,
      Vouches, RegistrationEvent, InWindow;
    PreparedMeans(env, reg, registrar, publicKey, alias, metadata, now);
    var row := PrepareRegistration(env, reg, registrar, publicKey, alias, metadata, now).value;
    RegistrationDeclares(publicKey, row);
    SignedRowAuthentic(env, publicKey, row);
    if reg.agents != map[] {
      ActiveVouches(env, reg, clock, registrar, now, row.tenantId);
      VouchingRegistered(reg, registrar, now, row.tenantId);
    }
  }

  lemma VouchingRegistered(reg: Registry, key: string, at: u64, tenantId: string)
    requires Grounded(reg) && Vouches(reg, key, at, tenantId)
    ensures key in reg.agents && InWindow(reg.agents[key], at)
  {}

  // ---- Rotation ----

  /** What an accepted rotation rests on. */
  lemma RotationMeans(env: Env, reg: Registry, gate: string, currentKey: string, newKey: string, now: u64)
    requires Grounded(reg) && RotationFault(env, reg, gate, currentKey, newKey, now).None?
    ensures env.crypto.isPublicKey(newKey) && currentKey != newKey && currentKey != gate
    ensures ActiveView(VerifyAgentAt(env.crypto, reg, currentKey, now)).Some?
    ensures GateIdentity(env.crypto, reg, gate, now).Ok?
    ensures var scope := Good(GateIdentity(env.crypto, reg, gate, now)).tenantId;
      scope == "*" || scope == The(ActiveView(VerifyAgentAt(env.crypto, reg, currentKey, now))).tenantId
  {
    hide VerifyAgentInner, Grounded, HasLifecycleEvent, DigestJson, RotationOf;
  }

  /** The rows a rotation writes. */
  function RotatedRow(env: Env, row: AgentRow, gate: string, currentKey: string, newKey: string, now: u64): AgentRow {
    NewAgentRow(env, RotatedRegistration(env, row, gate, currentKey, newKey, now), newKey, row.alias, row.metadata,
                row.canDelegate, now, gate, row.identityId, row.tenantId,
                KeyProfile("local-ed25519://" + newKey, NextVersion(row.keyVersion), SIGNATURE_ALGORITHM))
  }

  function RotationRow(env: Env, row: AgentRow, gate: string, currentKey: string, newKey: string, now: u64): LifecycleRow {
    LifecycleRowFor(env, RotationOf(env, row, gate, currentKey, newKey, now), gate, row.identityId, newKey, ROTATE, now)
  }

  lemma RotationSplits(env: Env, reg: Registry, gate: string, currentKey: string, newKey: string, now: u64)
    requires Grounded(reg) && RotationFault(env, reg, gate, currentKey, newKey, now).None?
    ensures var row := Entry(reg.agents, currentKey);
      RotateAgent(env, reg, gate, currentKey, newKey, now)
        == Ok(AddAgent(RetireKey(reg, currentKey, Rotate, RotationRow(env, row, gate, currentKey, newKey, now), now),
                       newKey, RotatedRow(env, row, gate, currentKey, newKey, now)))
  {
    hide RotationFault, RotationOf, RotatedRegistration, NewAgentRow, LifecycleRowFor, RetireRow, Grounded;
    var reg1 := RetireKey(reg, currentKey, Rotate, RotationRow(env, reg.agents[currentKey], gate, currentKey, newKey, now), now);
    assert currentKey in reg1.agents;
  }

  /** The event of a rotation ends the current key. */
  lemma RotationEnds(env: Env, reg: Registry, clock: u64, gate: string, currentKey: string, newKey: string, now: u64)
    requires Honest(env) && env.crypto.isPublicKey(gate)
    requires RegistryOk(env, reg, clock) && clock < now
    requires RotationFault(env, reg, gate, currentKey, newKey, now).None?
    requires !DependsOn(reg, gate, Entry(reg.agents, currentKey).identityId)
    ensures EndingEvent(env, reg, currentKey, Rotate, RotationRow(env, Entry(reg.agents, currentKey), gate, currentKey, newKey, now), now)
    ensures Vouches(reg, gate, now, Entry(reg.agents, currentKey).tenantId)
  {
    hide AgentOk, EventOk, ChainLength, VerifyAgentInner, RotationFault, DigestJson, IsBlank, RotationEvent, DeclaresEvent, EventColumnsOk,
      EventAuthentic, Subject, SignerOf, EventTenant, Vouches, DependsOn, Grounded, LifecycleRowFor;
    var row := reg.agents[currentKey];
    RotationMeans(env, reg, gate, currentKey, newKey, now);
    ActiveMeans(env, reg, clock, currentKey, now);
    AgentWindow(env, reg, clock, currentKey);
    ActiveVouches(env, reg, clock, gate, now, row.tenantId);
    var e := RotationRow(env, row, gate, currentKey, newKey, now);
    RowForColumns(env, RotationOf(env, row, gate, currentKey, newKey, now), gate, row.identityId, newKey, ROTATE, now);
    RotationDeclares(row.identityId, row.tenantId, currentKey, newKey, row.keyVersion, NextVersion(row.keyVersion), now, env.signerFor(gate), e);
    SignedEventOk(env, reg, gate, RotationOf(env, row, gate, currentKey, newKey, now), row.identityId, newKey, ROTATE, now, row.tenantId, currentKey);
  }

  lemma RowForColumns(env: Env, event: Value, gate: string, identityId: string, publicKey: string, eventType: string, at: u64)
    ensures var row := LifecycleRowFor(env, event, gate, identityId, publicKey, eventType, at);
      row.identityId == identityId && row.eventType == eventType && row.effectiveAt == at && row.publicKey == publicKey
  {}

  lemma RotatedRowAuthentic(env: Env, row: AgentRow, gate: string, currentKey: string, newKey: string, now: u64)
    requires Honest(env) && env.crypto.isPublicKey(gate) && env.crypto.isPublicKey(newKey)
    requires row.keyVersion < U64_MAX && !IsBlank(row.alias)
    ensures Authentic(env.crypto, newKey, RotatedRow(env, row, gate, currentKey, newKey, now))
  {
    hide DigestJson, IsBlank, Authentic, DeclaresRow, RegistrationEvent;
    var added := RotatedRow(env, row, gate, currentKey, newKey, now);
    RegistrationDeclares(newKey, added);
    var event := RegistrationEvent(newKey, added.alias, added.metadata, added.canDelegate, added.registeredAt, added.registeredBy,
                                   added.identityId, added.tenantId, added.keyVersion, added.signerUri, added.algorithm);
    RotationIdIrrelevant(event, DigestJson(env.crypto, RotationOf(env, row, gate, currentKey, newKey, now)), newKey, added);
    SignedRowAuthentic(env, newKey, added);
  }

  /** `rotate_agent` keeps the registry in order and its past unchanged. */
  lemma RotateKeepsRegistry(env: Env, reg: Registry, clock: u64, gate: string, currentKey: string, newKey: string, now: u64)
    requires Honest(env) && env.crypto.isPublicKey(gate)
    requires RegistryOk(env, reg, clock) && clock < now
    requires RotateAgent(env, reg, gate, currentKey, newKey, now).Ok?
    requires currentKey in reg.agents && !DependsOn(reg, gate, Entry(reg.agents, currentKey).identityId)
    ensures var reg' := Good(RotateAgent(env, reg, gate, currentKey, newKey, now));
      RegistryOk(env, reg', now) && Evolves(reg, reg', clock)
  {
    hide AgentOk, EventOk, Grounded, RotateAgent, RotationFault, RotatedRow, RotationRow, RetireKey, AddAgent, EndingEvent, DependsOn,
      Vouches, FreshRow, Evolves;
    RotateOkMeans(env, reg, gate, currentKey, newKey, now);
    RotationSplits(env, reg, gate, currentKey, newKey, now);
    RotationEnds(env, reg, clock, gate, currentKey, newKey, now);
    var e := RotationRow(env, reg.agents[currentKey], gate, currentKey, newKey, now);
    var reg1 := RetireKey(reg, currentKey, Rotate, e, now);
    var row := RotatedRow(env, reg.agents[currentKey], gate, currentKey, newKey, now);
    RetireKeepsRegistry(env, reg, clock, currentKey, Rotate, e, now);
    RotatedIsFresh(env, reg, clock, gate, currentKey, newKey, now);
    AddKeepsRegistry(env, reg1, now, newKey, row, now);
    FreshMeans(env, reg1, newKey, row);
    AddEvolves(reg, reg1, clock, newKey, row, now);
  }

  lemma RotateOkMeans(env: Env, reg: Registry, gate: string, currentKey: string, newKey: string, now: u64)
    requires Grounded(reg) && RotateAgent(env, reg, gate, currentKey, newKey, now).Ok?
    ensures RotationFault(env, reg, gate, currentKey, newKey, now).None?
  {
    hide RotationFault, Grounded;
  }

  lemma FreshMeans(env: Env, reg: Registry, key: string, row: AgentRow)
    requires Grounded(reg) && FreshRow(env, reg, key, row)
    ensures key !in reg.agents
  {
    hide Vouches, Authentic, Grounded;
  }

  lemma RotatedIsFresh(env: Env, reg: Registry, clock: u64, gate: string, currentKey: string, newKey: string, now: u64)
    requires Honest(env) && env.crypto.isPublicKey(gate)
    requires RegistryOk(env, reg, clock) && clock < now
    requires RotationFault(env, reg, gate, currentKey, newKey, now).None?
    requires Vouches(reg, gate, now, Entry(reg.agents, currentKey).tenantId)
    requires var reg1 := RetireKey(reg, currentKey, Rotate, RotationRow(env, Entry(reg.agents, currentKey), gate, currentKey, newKey, now), now);
      RegistryOk(env, reg1, now)
    ensures var reg1 := RetireKey(reg, currentKey, Rotate, RotationRow(env, Entry(reg.agents, currentKey), gate, currentKey, newKey, now), now);
      var row := RotatedRow(env, Entry(reg.agents, currentKey), gate, currentKey, newKey, now);
      FreshRow(env, reg1, newKey, row) && row.registeredAt == now && reg1.agents != map[]
  {
    hide AgentOk, EventOk, ChainLength, RotationFault, DigestJson, IsBlank, Authentic, RotatedRegistration, RotationRow, Vouches, DependsOn,
      Grounded;
    var row := reg.agents[currentKey];
    var reg1 := RetireKey(reg, currentKey, Rotate, RotationRow(env, row, gate, currentKey, newKey, now), now);
    RotationMeans(env, reg, gate, currentKey, newKey, now);
    ActiveMeans(env, reg, clock, currentKey, now);
    assert AgentOk(env, reg, clock, currentKey);
    AgentWindow(env, reg, clock, currentKey);
    RotatedRowAuthentic(env, row, gate, currentKey, newKey, now);
    VouchingRegistered(reg, gate, now, row.tenantId);
    RetiredEvolves(env, reg, clock, currentKey, Rotate, RotationRow(env, row, gate, currentKey, newKey, now), now);
    VouchesKept(env, reg, reg1, clock, gate, now, row.tenantId);
    assert currentKey in reg1.agents;
  }

  lemma AddEvolves(reg: Registry, reg1: Registry, clock: u64, key: string, row: AgentRow, now: u64)
    requires Evolves(reg, reg1, clock) && clock < now && row.registeredAt == now
    requires key !in reg1.agents && reg1.agents != map[]
    ensures Evolves(reg, AddAgent(reg1, key, row), clock)
  {
    hide RowEvolves;
  }

  // ---- Revocation ----

  function RevocationRow(env: Env, row: AgentRow, gate: string, publicKey: string, reason: string, now: u64): LifecycleRow {
    LifecycleRowFor(env, RevocationOf(env, row, gate, publicKey, reason, now), gate, row.identityId, publicKey, REVOKE, now)
  }

  lemma RevocationMeans(env: Env, reg: Registry, gate: string, publicKey: string, reason: string, now: u64)
    requires Grounded(reg) && RevocationFault(env, reg, gate, publicKey, reason, now).None?
    ensures publicKey != gate
    ensures ActiveView(VerifyAgentAt(env.crypto, reg, publicKey, now)).Some?
    ensures GateIdentity(env.crypto, reg, gate, now).Ok?
    ensures RevokeAgent(env, reg, gate, publicKey, reason, now)
      == Ok(RetireKey(reg, publicKey, Revoke, RevocationRow(env, Entry(reg.agents, publicKey), gate, publicKey, reason, now), now))
  {
    hide VerifyAgentInner, Grounded, HasLifecycleEvent, DigestJson, RevocationOf, IsBlank, LifecycleRowFor;
  }

  /** `revoke_agent` keeps the registry in order and its past unchanged. The gate's scope covers the
      tenant of the revoked key; `revoke_agent` does not check that itself. */
  lemma RevokeKeepsRegistry(env: Env, reg: Registry, clock: u64, gate: string, publicKey: string, reason: string, now: u64)
    requires Honest(env) && env.crypto.isPublicKey(gate)
    requires RegistryOk(env, reg, clock) && clock < now
    requires RevokeAgent(env, reg, gate, publicKey, reason, now).Ok?
    requires publicKey in reg.agents && !DependsOn(reg, gate, Entry(reg.agents, publicKey).identityId)
    requires gate in reg.agents && Entry(reg.agents, gate).tenantId in {"*", Entry(reg.agents, publicKey).tenantId}
    ensures var reg' := Good(RevokeAgent(env, reg, gate, publicKey, reason, now));
      RegistryOk(env, reg', now) && Evolves(reg, reg', clock)
  {
    hide AgentOk, EventOk, ChainLength, VerifyAgentInner, RevocationFault, DigestJson, IsBlank, RevocationEvent, DeclaresEvent,
      EventColumnsOk, EventAuthentic, Subject, SignerOf, EventTenant, DependsOn, Grounded, LifecycleRowFor, RetireKey, Evolves;
    var row := reg.agents[publicKey];
    RevocationMeans(env, reg, gate, publicKey, reason, now);
    ActiveMeans(env, reg, clock, publicKey, now);
    assert AgentOk(env, reg, clock, publicKey);
    AgentWindow(env, reg, clock, publicKey);
    VerifyIsClosedForm(env, reg, clock, gate, now);
    ActiveVouches(env, reg, clock, gate, now, row.tenantId);
    var e := RevocationRow(env, row, gate, publicKey, reason, now);
    RowForColumns(env, RevocationOf(env, row, gate, publicKey, reason, now), gate, row.identityId, publicKey, REVOKE, now);
    RevocationDeclares(row.identityId, row.tenantId, publicKey, now, reason, env.signerFor(gate), e);
    SignedEventOk(env, reg, gate, RevocationOf(env, row, gate, publicKey, reason, now), row.identityId, publicKey, REVOKE, now, row.tenantId, publicKey);
    RetireKeepsRegistry(env, reg, clock, publicKey, Revoke, e, now);
  }

  // ======== When exactly retiring a key keeps the registry in order: what happens when a gate retires a key it
  //          depends on, or revokes one outside its tenant scope.

  // ---- Keys that do not depend on an identity ----

  /** Verifying a key that does not depend on an identity is blind to what ends that identity. */
  lemma {:induction false} IndependentUntouched(c: Crypto, reg: Registry, subject: string, kind: Kind, e: LifecycleRow, now: u64,
                                           key: string, at: u64, visited: set<string>)
    requires subject in reg.agents && e.identityId == Entry(reg.agents, subject).identityId
    requires Grounded(reg) && Grounded(RetireKey(reg, subject, kind, e, now))
    requires !DependsOn(reg, key, e.identityId)
    ensures VerifyAgentInner(c, RetireKey(reg, subject, kind, e, now), key, at, visited) == VerifyAgentInner(c, reg, key, at, visited)
    decreases Level(reg, key), 1, 0
  {
    hide Authentic, LifecycleEnd, EndMatches, Grounded, RetireRow, DependsOn, Level;
    var reg' := RetireKey(reg, subject, kind, e, now);
    if key in reg.agents {
      OtherIdentity(reg, key, e.identityId);
      assert key != subject;
      IndependentScan(c, reg, subject, kind, e, now, key, 0, false, None);
      var registrar := reg.agents[key].registeredBy;
      if registrar != key {
        RegistrarFalls(reg, key);
        RegistrarIndependent(reg, key, e.identityId);
        IndependentUntouched(c, reg, subject, kind, e, now, registrar, reg.agents[key].registeredAt, visited + {key});
      }
    }
  }

  lemma RegistrarIndependent(reg: Registry, key: string, identityId: string)
    requires Grounded(reg) && key in reg.agents && reg.agents[key].registeredBy != key && !DependsOn(reg, key, identityId)
    ensures !DependsOn(reg, reg.agents[key].registeredBy, identityId)
  {
    hide Grounded, Level, SignerOf;
  }

  lemma SignerIndependent(reg: Registry, key: string, i: nat, identityId: string)
    requires Grounded(reg) && key in reg.agents && !DependsOn(reg, key, identityId)
    requires i < |reg.lifecycle| && reg.lifecycle[i].identityId == reg.agents[key].identityId
    ensures !DependsOn(reg, SignerOf(reg.lifecycle[i]), identityId)
  {
    hide Grounded, Level, SignerOf;
  }

  lemma OtherIdentity(reg: Registry, key: string, identityId: string)
    requires Grounded(reg) && key in reg.agents && !DependsOn(reg, key, identityId)
    ensures reg.agents[key].identityId != identityId
  {
    hide Grounded, Level, SignerOf;
  }

  lemma AuthenticParts(c: Crypto, identityId: string, row: LifecycleRow)
    ensures EventAuthentic(c, identityId, row) ==>
      row.json.Get(EVENT).Some? && row.json.Get(EVENT).value.GetU64(EFFECTIVE_AT).Some?
  {
    hide DigestJson, IsBlank, SignerOf;
  }

  /** The scan of another identity's events passes over the filed one: `passed` tells whether it has. */
  lemma {:induction false} IndependentScan(c: Crypto, reg: Registry, subject: string, kind: Kind, e: LifecycleRow, now: u64,
                                      key: string, i: nat, passed: bool, end: Option<End>)
    requires subject in reg.agents && e.identityId == reg.agents[subject].identityId
    requires Grounded(reg) && Grounded(RetireKey(reg, subject, kind, e, now))
    requires key in reg.agents && !DependsOn(reg, key, e.identityId) && i <= |reg.lifecycle|
    requires if passed then PlaceOf(reg.lifecycle, e.effectiveAt) <= i else i <= PlaceOf(reg.lifecycle, e.effectiveAt)
    ensures var reg' := RetireKey(reg, subject, kind, e, now);
      && key in reg'.agents && reg'.agents[key] == reg.agents[key] && |reg'.lifecycle| == |reg.lifecycle| + 1
      && LifecycleEnd(c, reg', reg.agents[key].identityId, key, if passed then i + 1 else i, end)
        == LifecycleEnd(c, reg, reg.agents[key].identityId, key, i, end)
    decreases Level(reg, key), 0, |reg.lifecycle| - i, !passed
  {
    hide EventAuthentic, VerifyAgentInner, Effect, Grounded, RetireRow, SignerOf, DependsOn, Level, Filed, PlaceOf, IsBlank, Height;
    var reg' := RetireKey(reg, subject, kind, e, now);
    FiledRows(reg.lifecycle, e);
    OtherIdentity(reg, key, e.identityId);
    if !passed && i == PlaceOf(reg.lifecycle, e.effectiveAt) {
      assert reg'.lifecycle[i] == e;
      IndependentScan(c, reg, subject, kind, e, now, key, i, true, end);
    } else if i < |reg.lifecycle| {
      var row := reg.lifecycle[i];
      assert reg'.lifecycle[if passed then i + 1 else i] == row;
      if row.identityId == reg.agents[key].identityId {
        SignerFalls(reg, key, i);
        SignerIndependent(reg, key, i, e.identityId);
        AuthenticParts(c, row.identityId, row);
        IndependentUntouched(c, reg, subject, kind, e, now, SignerOf(row), row.json.Get(EVENT).GetOr(Null).U64At(EFFECTIVE_AT), {});
        IndependentScan(c, reg, subject, kind, e, now, key, i + 1, passed, if end.Some? then end else Effect(row, key).GetOr(None));
      } else {
        IndependentScan(c, reg, subject, kind, e, now, key, i + 1, passed, end);
      }
    }
  }

  // ---- Out-of-scope revocation ----

  /** The scan of an identity's events fails at an event whose signer's scope does not cover the
      event's tenant. */
  lemma {:induction false} OutOfScopeScan(env: Env, reg: Registry, clock: u64, subject: string, kind: Kind, e: LifecycleRow, now: u64,
                                          key: string, i: nat, end: Option<End>)
    requires RegistryOk(env, reg, clock)
    requires subject in reg.agents && e.identityId == reg.agents[subject].identityId
    requires Grounded(RetireKey(reg, subject, kind, e, now))
    requires !DependsOn(reg, SignerOf(e), e.identityId)
    requires key in reg.agents && reg.agents[key].identityId == e.identityId && i <= PlaceOf(reg.lifecycle, e.effectiveAt)
    requires EventAuthentic(env.crypto, e.identityId, e)
    requires e.json.Get(EVENT).Some? && e.json.Get(EVENT).value.GetU64(EFFECTIVE_AT) == Some(now)
    requires StringField(e.json.Get(EVENT).value, TENANT_ID).Some?
    requires var r := VerifyAgentInner(env.crypto, reg, SignerOf(e), now, {});
      r.Ok? && r.value.Some? && r.value.value.tenantId !in {"*", StringField(e.json.Get(EVENT).value, TENANT_ID).value}
    ensures key in RetireKey(reg, subject, kind, e, now).agents
      && RetireKey(reg, subject, kind, e, now).agents[key].identityId == e.identityId
      && i <= |RetireKey(reg, subject, kind, e, now).lifecycle|
      && LifecycleEnd(env.crypto, RetireKey(reg, subject, kind, e, now), e.identityId, key, i, end).Err?
    decreases |reg.lifecycle| - i
  {
    hide EventAuthentic, VerifyAgentInner, Effect, AgentOk, EventOk, SignerOf, Grounded, DependsOn, Filed, PlaceOf;
    var reg' := RetireKey(reg, subject, kind, e, now);
    FiledRows(reg.lifecycle, e);
    if i < PlaceOf(reg.lifecycle, e.effectiveAt) {
      var row := reg.lifecycle[i];
      assert reg'.lifecycle[i] == row;
      if row.identityId == e.identityId {
        SignerVerifies(env, reg, clock, key, i);
        SignersIndependent(reg, e.identityId, key, i);
        IndependentUntouched(env.crypto, reg, subject, kind, e, now, SignerOf(row), row.effectiveAt, {});
        OutOfScopeScan(env, reg, clock, subject, kind, e, now, key, i + 1, if end.Some? then end else Effect(row, key).GetOr(None));
      } else {
        OutOfScopeScan(env, reg, clock, subject, kind, e, now, key, i + 1, end);
      }
    } else {
      assert reg'.lifecycle[i] == e;
      IndependentUntouched(env.crypto, reg, subject, kind, e, now, SignerOf(e), now, {});
    }
  }

  /** The signers of the events of an identity do not depend on it. */
  lemma SignersIndependent(reg: Registry, identityId: string, key: string, i: nat)
    requires Grounded(reg) && key in reg.agents && reg.agents[key].identityId == identityId
    requires i < |reg.lifecycle| && reg.lifecycle[i].identityId == identityId
    ensures !DependsOn(reg, SignerOf(reg.lifecycle[i]), identityId)
  {
    hide Grounded, Level, SignerOf, DependsOn;
    if DependsOn(reg, SignerOf(reg.lifecycle[i]), identityId) {
      var k := DependedOn(reg, SignerOf(reg.lifecycle[i]), identityId);
      SignerFalls(reg, k, i);
    }
  }

  /** Below a key that depends on an identity, or at it, there is a key of the identity. */
  lemma {:induction false} DependedOn(reg: Registry, key: string, identityId: string) returns (k: string)
    requires Grounded(reg) && DependsOn(reg, key, identityId)
    ensures k in reg.agents && reg.agents[k].identityId == identityId && Level(reg, k) <= Level(reg, key)
    decreases Level(reg, key)
  {
    hide Grounded, Level, SignerOf;
    if reg.agents[key].identityId == identityId {
      k := key;
    } else if reg.agents[key].registeredBy != key && (RegistrarFalls(reg, key); DependsOn(reg, reg.agents[key].registeredBy, identityId)) {
      k := DependedOn(reg, reg.agents[key].registeredBy, identityId);
    } else {
      var i :| 0 <= i < |reg.lifecycle| && reg.lifecycle[i].identityId == reg.agents[key].identityId
        && (SignerFalls(reg, key, i); DependsOn(reg, SignerOf(reg.lifecycle[i]), identityId));
      SignerFalls(reg, key, i);
      k := DependedOn(reg, SignerOf(reg.lifecycle[i]), identityId);
    }
  }

  /** `revoke_agent` does not compare the gate's scope with the tenant of the key it revokes. When
      the scope does not cover that tenant, the revocation is stored all the same, and from then on
      no key of the identity can be verified at any instant, past or future. */
  lemma OutOfScopeRevocationBreaksHistory(env: Env, reg: Registry, clock: u64, gate: string, publicKey: string, reason: string,
                                          now: u64, key: string, at: u64)
    requires Honest(env) && env.crypto.isPublicKey(gate)
    requires RegistryOk(env, reg, clock) && clock < now
    requires RevokeAgent(env, reg, gate, publicKey, reason, now).Ok?
    requires publicKey in reg.agents && !DependsOn(reg, gate, Entry(reg.agents, publicKey).identityId)
    requires gate in reg.agents && Entry(reg.agents, gate).tenantId !in {"*", Entry(reg.agents, publicKey).tenantId}
    requires key in reg.agents && Entry(reg.agents, key).identityId == Entry(reg.agents, publicKey).identityId
    ensures var reg' := Good(RevokeAgent(env, reg, gate, publicKey, reason, now));
      Grounded(reg') && VerifyAgentAt(env.crypto, reg', key, at).Err?
  {
    hide AgentOk, EventOk, ChainLength, RevocationFault, DigestJson, IsBlank, RevocationEvent, DeclaresEvent, LifecycleEnd, EventColumnsOk,
      EventAuthentic, Subject, SignerOf, EventTenant, DependsOn, Grounded, LifecycleRowFor, RetireRow, VerifyAgentInner;
    var row := reg.agents[publicKey];
    RevocationMeans(env, reg, gate, publicKey, reason, now);
    ActiveMeans(env, reg, clock, publicKey, now);
    assert AgentOk(env, reg, clock, publicKey);
    AgentWindow(env, reg, clock, publicKey);
    VerifyIsClosedForm(env, reg, clock, gate, now);
    var e := RevocationRow(env, row, gate, publicKey, reason, now);
    RowForColumns(env, RevocationOf(env, row, gate, publicKey, reason, now), gate, row.identityId, publicKey, REVOKE, now);
    RevocationDeclares(row.identityId, row.tenantId, publicKey, now, reason, env.signerFor(gate), e);
    SignedEventOk(env, reg, gate, RevocationOf(env, row, gate, publicKey, reason, now), row.identityId, publicKey, REVOKE, now, row.tenantId, publicKey);
    RetiringTerminates(reg, publicKey, Revoke, e, now);
    OutOfScopeScan(env, reg, clock, publicKey, Revoke, e, now, key, 0, None);
    FailedScanFails(env, reg, clock, publicKey, e, now, key, at);
  }

  lemma FailedScanFails(env: Env, reg: Registry, clock: u64, subject: string, e: LifecycleRow, now: u64, key: string, at: u64)
    requires RegistryOk(env, reg, clock) && subject in reg.agents && key in reg.agents
    requires var reg' := RetireKey(reg, subject, Revoke, e, now);
      Grounded(reg') && reg'.agents[key].identityId == reg.agents[key].identityId
      && LifecycleEnd(env.crypto, reg', reg.agents[key].identityId, key, 0, None).Err?
    ensures VerifyAgentAt(env.crypto, RetireKey(reg, subject, Revoke, e, now), key, at).Err?
  {
    hide EventOk, ChainLength, LifecycleEnd, Grounded, MatchesColumns, EndFrom;
    var reg' := RetireKey(reg, subject, Revoke, e, now);
    assert AgentOk(env, reg, clock, key);
    OriginAuthentic(env.crypto, key, reg.agents[key], reg'.agents[key]);
  }

  // ---- Retiring a key the gate depends on ----

  lemma RevocationSigner(env: Env, reg: Registry, clock: u64, gate: string, publicKey: string, reason: string, now: u64)
    requires Honest(env) && env.crypto.isPublicKey(gate)
    requires RegistryOk(env, reg, clock) && clock < now
    requires RevocationFault(env, reg, gate, publicKey, reason, now).None?
    ensures SignerOf(RevocationRow(env, Entry(reg.agents, publicKey), gate, publicKey, reason, now)) == gate
  {
    hide AgentOk, EventOk, ChainLength, RevocationFault, DigestJson, IsBlank, RevocationEvent, DeclaresEvent, EventColumnsOk,
      EventAuthentic, Subject, SignerOf, EventTenant, Grounded, LifecycleRowFor, VerifyAgentInner;
    var row := reg.agents[publicKey];
    RevocationMeans(env, reg, gate, publicKey, reason, now);
    ActiveMeans(env, reg, clock, publicKey, now);
    assert AgentOk(env, reg, clock, publicKey);
    AgentWindow(env, reg, clock, publicKey);
    var e := RevocationRow(env, row, gate, publicKey, reason, now);
    RowForColumns(env, RevocationOf(env, row, gate, publicKey, reason, now), gate, row.identityId, publicKey, REVOKE, now);
    RevocationDeclares(row.identityId, row.tenantId, publicKey, now, reason, env.signerFor(gate), e);
    SignedEventOk(env, reg, gate, RevocationOf(env, row, gate, publicKey, reason, now), row.identityId, publicKey, REVOKE, now, row.tenantId, publicKey);
  }

  lemma RotationSigner(env: Env, reg: Registry, clock: u64, gate: string, currentKey: string, newKey: string, now: u64)
    requires Honest(env) && env.crypto.isPublicKey(gate)
    requires RegistryOk(env, reg, clock) && clock < now
    requires RotationFault(env, reg, gate, currentKey, newKey, now).None?
    ensures SignerOf(RotationRow(env, Entry(reg.agents, currentKey), gate, currentKey, newKey, now)) == gate
    ensures gate in reg.agents
  {
    hide AgentOk, EventOk, ChainLength, RotationFault, DigestJson, IsBlank, RotationEvent, DeclaresEvent, EventColumnsOk, EventAuthentic,
      Subject, SignerOf, EventTenant, Grounded, LifecycleRowFor, VerifyAgentInner;
    var row := reg.agents[currentKey];
    RotationMeans(env, reg, gate, currentKey, newKey, now);
    ActiveMeans(env, reg, clock, currentKey, now);
    ActiveMeans(env, reg, clock, gate, now);
    AgentWindow(env, reg, clock, currentKey);
    var e := RotationRow(env, row, gate, currentKey, newKey, now);
    RowForColumns(env, RotationOf(env, row, gate, currentKey, newKey, now), gate, row.identityId, newKey, ROTATE, now);
    RotationDeclares(row.identityId, row.tenantId, currentKey, newKey, row.keyVersion, NextVersion(row.keyVersion), now, env.signerFor(gate), e);
    SignedEventOk(env, reg, gate, RotationOf(env, row, gate, currentKey, newKey, now), row.identityId, newKey, ROTATE, now, row.tenantId, currentKey);
  }

  /** A successful `revoke_agent` leaves keys whose verification ends exactly when the gate does not
      depend, through registrars and signers of events, on the identity it revokes a key of. The
      source checks only that the gate does not revoke its own key. */
  lemma RevocationTerminates(env: Env, reg: Registry, clock: u64, gate: string, publicKey: string, reason: string, now: u64)
    requires Honest(env) && env.crypto.isPublicKey(gate)
    requires RegistryOk(env, reg, clock) && clock < now
    requires RevokeAgent(env, reg, gate, publicKey, reason, now).Ok?
    ensures publicKey in reg.agents
    ensures Grounded(Good(RevokeAgent(env, reg, gate, publicKey, reason, now))) <==> !DependsOn(reg, gate, Entry(reg.agents, publicKey).identityId)
  {
    hide AgentOk, EventOk, RevocationFault, RevokeAgent, RetireRow, Grounded, DependsOn, SignerOf, VerifyAgentInner, RevocationRow, Honest;
    RevokeOkMeans(env, reg, gate, publicKey, reason, now);
    RevocationMeans(env, reg, gate, publicKey, reason, now);
    RevocationSigner(env, reg, clock, gate, publicKey, reason, now);
    var e := RevocationRow(env, reg.agents[publicKey], gate, publicKey, reason, now);
    RevokedIdentity(env, reg.agents[publicKey], gate, publicKey, reason, now);
    RetiringTerminates(reg, publicKey, Revoke, e, now);
  }

  lemma RevokedIdentity(env: Env, row: AgentRow, gate: string, publicKey: string, reason: string, now: u64)
    ensures RevocationRow(env, row, gate, publicKey, reason, now).identityId == row.identityId
  {}

  lemma RevokeOkMeans(env: Env, reg: Registry, gate: string, publicKey: string, reason: string, now: u64)
    requires Grounded(reg) && RevokeAgent(env, reg, gate, publicKey, reason, now).Ok?
    ensures RevocationFault(env, reg, gate, publicKey, reason, now).None?
  {
    hide RevocationFault, Grounded;
  }

  /** ... and so does a successful `rotate_agent`. */
  lemma RotationTerminates(env: Env, reg: Registry, clock: u64, gate: string, currentKey: string, newKey: string, now: u64)
    requires Honest(env) && env.crypto.isPublicKey(gate)
    requires RegistryOk(env, reg, clock) && clock < now
    requires RotateAgent(env, reg, gate, currentKey, newKey, now).Ok?
    ensures currentKey in reg.agents
    ensures Grounded(Good(RotateAgent(env, reg, gate, currentKey, newKey, now))) <==> !DependsOn(reg, gate, Entry(reg.agents, currentKey).identityId)
  {
    hide AgentOk, EventOk, RotationFault, RotateAgent, Grounded, DependsOn, SignerOf, VerifyAgentInner, RotationRow, Honest, RotatedRow,
      RetireRow;
    RotateOkMeans(env, reg, gate, currentKey, newKey, now);
    RotationSplits(env, reg, gate, currentKey, newKey, now);
    RotationSigner(env, reg, clock, gate, currentKey, newKey, now);
    var e := RotationRow(env, reg.agents[currentKey], gate, currentKey, newKey, now);
    RotatedIdentity(env, reg.agents[currentKey], gate, currentKey, newKey, now);
    RetiringTerminates(reg, currentKey, Rotate, e, now);
    var reg1 := RetireKey(reg, currentKey, Rotate, e, now);
    forall k | k in reg1.agents ensures reg1.agents[k].registeredBy != newKey {
      RegistrarRegistered(env, reg, clock, k);
      RetireKeepsOrigin(reg.agents[currentKey], Rotate, now);
    }
    FiledRows(reg.lifecycle, e);
    forall i | 0 <= i < |reg1.lifecycle| ensures SignerOf(reg1.lifecycle[i]) != newKey {
      assert reg1.lifecycle[i] in Filed(reg.lifecycle, e);
      if reg1.lifecycle[i] != e { SignerRegistered(env, reg, clock, reg1.lifecycle[i]); }
    }
    AddGrounds(reg1, newKey, RotatedRow(env, reg.agents[currentKey], gate, currentKey, newKey, now));
  }

  lemma RetireKeepsOrigin(row: AgentRow, kind: Kind, now: u64)
    ensures SameOrigin(row, RetireRow(row, kind, now))
    ensures RetireRow(row, kind, now).registeredBy == row.registeredBy
  {}

  lemma RotatedIdentity(env: Env, row: AgentRow, gate: string, currentKey: string, newKey: string, now: u64)
    requires row.keyVersion < U64_MAX
    ensures RotationRow(env, row, gate, currentKey, newKey, now).identityId == row.identityId
  {}

  // ---- What keeps the registry in order ----

  /** A successful rotation keeps the registry in order exactly when the gate does not depend on the identity. */
  lemma RotationKeepsExactly(env: Env, reg: Registry, clock: u64, gate: string, currentKey: string, newKey: string, now: u64)
    requires Honest(env) && env.crypto.isPublicKey(gate)
    requires RegistryOk(env, reg, clock) && clock < now
    requires RotateAgent(env, reg, gate, currentKey, newKey, now).Ok?
    ensures currentKey in reg.agents
    ensures RegistryOk(env, Good(RotateAgent(env, reg, gate, currentKey, newKey, now)), now)
      <==> !DependsOn(reg, gate, Entry(reg.agents, currentKey).identityId)
  {
    hide AgentOk, EventOk, RotateAgent, Grounded, DependsOn, Evolves;
    RotationTerminates(env, reg, clock, gate, currentKey, newKey, now);
    if !DependsOn(reg, gate, reg.agents[currentKey].identityId) {
      RotateKeepsRegistry(env, reg, clock, gate, currentKey, newKey, now);
    }
  }

  /** A successful revocation keeps the registry in order exactly when, besides, the gate's scope covers
      the tenant of the key. */
  lemma RevocationKeepsExactly(env: Env, reg: Registry, clock: u64, gate: string, publicKey: string, reason: string, now: u64)
    requires Honest(env) && env.crypto.isPublicKey(gate)
    requires RegistryOk(env, reg, clock) && clock < now
    requires RevokeAgent(env, reg, gate, publicKey, reason, now).Ok?
    ensures publicKey in reg.agents && gate in reg.agents
    ensures RegistryOk(env, Good(RevokeAgent(env, reg, gate, publicKey, reason, now)), now)
      <==> !DependsOn(reg, gate, Entry(reg.agents, publicKey).identityId) && Entry(reg.agents, gate).tenantId in {"*", Entry(reg.agents, publicKey).tenantId}
  {
    hide AgentOk, EventOk, RevokeAgent, RevocationFault, Grounded, DependsOn, Evolves, VerifyAgentInner, ChainLength;
    RevocationTerminates(env, reg, clock, gate, publicKey, reason, now);
    RevokeOkMeans(env, reg, gate, publicKey, reason, now);
    RevocationMeans(env, reg, gate, publicKey, reason, now);
    ActiveMeans(env, reg, clock, gate, now);
    if !DependsOn(reg, gate, reg.agents[publicKey].identityId) {
      if reg.agents[gate].tenantId in {"*", reg.agents[publicKey].tenantId} {
        RevokeKeepsRegistry(env, reg, clock, gate, publicKey, reason, now);
      } else {
        OutOfScopeRevocationBreaksHistory(env, reg, clock, gate, publicKey, reason, now, publicKey, now);
        if RegistryOk(env, RevokeAgent(env, reg, gate, publicKey, reason, now).value, now) {
          VerifyIsClosedForm(env, RevokeAgent(env, reg, gate, publicKey, reason, now).value, now, publicKey, now);
        }
      }
    }
  }

  /** Why the clock must advance: a key that acts and is ended at one and the same instant was active
      when it acted, and verifies as inactive at that instant ever after. */
  lemma EqualInstantBreaksHistory(env: Env, reg: Registry, clock: u64, key: string, kind: Kind, e: LifecycleRow, now: u64)
    requires RegistryOk(env, reg, clock) && Grounded(reg) && clock < now && key in reg.agents && EndingEvent(env, reg, key, kind, e, now)
    requires ChainLength(reg, key) <= LONGEST_CHAIN
    ensures Grounded(RetireKey(reg, key, kind, e, now))
    ensures ActiveView(VerifyAgentAt(env.crypto, reg, key, now)).Some?
    ensures ActiveView(VerifyAgentAt(env.crypto, RetireKey(reg, key, kind, e, now), key, now)).None?
  {
    hide RegistryOk, Grounded, EndingEvent, VerifyAgentInner, Evolves, ChainLength;
    EndsActive(env, reg, key, kind, e, now);
    ActiveMeans(env, reg, clock, key, now);
    RetireKeepsRegistry(env, reg, clock, key, kind, e, now);
    RetireKeepsGrounded(env, reg, key, kind, e, now);
    VerifyIsClosedForm(env, RetireKey(reg, key, kind, e, now), now, key, now);
  }

  // ======== The keys of one identity succeed one another without gap or overlap.

  /** `keys` are all the keys of an identity in order: versions go up by one, and each key but the
      last was rotated away at the instant the next became valid. */
  predicate Succession(reg: Registry, identityId: string, keys: seq<string>) {
    && keys != [] && keys[0] == identityId
    && (forall i | 0 <= i < |keys| :: keys[i] in reg.agents && reg.agents[keys[i]].identityId == identityId)
    && (forall key <- reg.agents | reg.agents[key].identityId == identityId :: key in keys)
    && (forall i | 0 < i < |keys| :: Follows(reg, keys, i))
    && reg.agents[keys[|keys| - 1]].status != Rotated
  }

  predicate Follows(reg: Registry, keys: seq<string>, i: nat) {
    && 0 < i < |keys| && keys[i - 1] in reg.agents && keys[i] in reg.agents
    && var before, after := reg.agents[keys[i - 1]], reg.agents[keys[i]];
    && before.status == Rotated
    && before.validUntil == Some(after.validFrom)
    && after.keyVersion == before.keyVersion + 1
  }

  ghost predicate SuccessionsOk(reg: Registry) {
    forall key <- reg.agents :: HasSuccession(reg, reg.agents[key].identityId)
  }

  ghost predicate HasSuccession(reg: Registry, identityId: string) {
    exists keys :: Succession(reg, identityId, keys)
  }

  // ---- Steps keep the succession ----

  /** The succession of an identity depends only on the rows of its keys. */
  lemma SuccessionLocal(reg: Registry, reg': Registry, identityId: string)
    requires HasSuccession(reg, identityId)
    requires forall key :: key in reg.agents && reg.agents[key].identityId == identityId ==> key in reg'.agents && reg'.agents[key] == reg.agents[key]
    requires forall key :: key in reg'.agents && reg'.agents[key].identityId == identityId ==> key in reg.agents && reg.agents[key].identityId == identityId
    ensures HasSuccession(reg', identityId)
  {
    var keys :| Succession(reg, identityId, keys);
    forall i | 0 < i < |keys| ensures Follows(reg', keys, i) { assert Follows(reg, keys, i); }
    assert Succession(reg', identityId, keys);
  }

  /** A newly registered identity has one key. */
  lemma RegisterKeepsSuccessions(reg: Registry, key: string, row: AgentRow)
    requires SuccessionsOk(reg) && key !in reg.agents && row.identityId == key && row.status == Active
    requires forall k <- reg.agents :: reg.agents[k].identityId in reg.agents
    ensures SuccessionsOk(AddAgent(reg, key, row))
  {
    hide HasSuccession;
    var reg' := AddAgent(reg, key, row);
    assert forall k :: k in reg.agents ==> k in reg'.agents && reg'.agents[k] == reg.agents[k];
    assert forall k :: k in reg'.agents ==> k in reg.agents || k == key;
    assert reg'.agents[key] == row;
    forall k <- reg'.agents ensures HasSuccession(reg', reg'.agents[k].identityId) {
      RegisteredSuccession(reg, reg', key, k);
    }
  }

  lemma RegisteredSuccession(reg: Registry, reg': Registry, key: string, k: string)
    requires SuccessionsOk(reg) && key !in reg.agents && key in reg'.agents
    requires reg'.agents[key].identityId == key && reg'.agents[key].status == Active
    requires forall j :: j in reg.agents ==> j in reg'.agents && reg'.agents[j] == reg.agents[j]
    requires forall j :: j in reg'.agents ==> j in reg.agents || j == key
    requires forall j <- reg.agents :: reg.agents[j].identityId in reg.agents
    requires k in reg'.agents
    ensures HasSuccession(reg', reg'.agents[k].identityId)
  {
    hide HasSuccession, Succession;
    if k == key {
      OneKey(reg', key);
    } else {
      SuccessionLocal(reg, reg', reg.agents[k].identityId);
    }
  }

  lemma OneKey(reg: Registry, key: string)
    requires key in reg.agents && reg.agents[key].identityId == key && reg.agents[key].status == Active
    requires forall k <- reg.agents | reg.agents[k].identityId == key :: k == key
    ensures HasSuccession(reg, key)
  {
    assert Succession(reg, key, [key]);
  }

  /** Only the last key of an identity is not rotated. */
  lemma ActiveIsLast(reg: Registry, identityId: string, keys: seq<string>, key: string)
    requires Succession(reg, identityId, keys) && key in reg.agents && reg.agents[key].identityId == identityId
    requires reg.agents[key].status != Rotated
    ensures key == keys[|keys| - 1]
  {
    var i :| 0 <= i < |keys| && keys[i] == key;
    assert i + 1 < |keys| ==> Follows(reg, keys, i + 1);
  }

  lemma RevokeKeepsSuccessions(reg: Registry, key: string, e: LifecycleRow, now: u64)
    requires SuccessionsOk(reg) && key in reg.agents && reg.agents[key].status == Active
    ensures SuccessionsOk(RetireKey(reg, key, Revoke, e, now))
  {
    hide Succession;
    var reg' := RetireKey(reg, key, Revoke, e, now);
    forall k <- reg'.agents ensures HasSuccession(reg', reg'.agents[k].identityId) {
      assert HasSuccession(reg, reg.agents[k].identityId);
      if reg.agents[k].identityId == reg.agents[key].identityId {
        var keys :| Succession(reg, reg.agents[key].identityId, keys);
        RevokedSuccession(reg, key, e, now, keys);
      } else {
        SuccessionLocal(reg, reg', reg.agents[k].identityId);
      }
    }
  }

  lemma RevokedSuccession(reg: Registry, key: string, e: LifecycleRow, now: u64, keys: seq<string>)
    requires key in reg.agents && reg.agents[key].status == Active
    requires Succession(reg, reg.agents[key].identityId, keys)
    ensures Succession(RetireKey(reg, key, Revoke, e, now), reg.agents[key].identityId, keys)
  {
    var reg' := RetireKey(reg, key, Revoke, e, now);
    ActiveIsLast(reg, reg.agents[key].identityId, keys, key);
    forall i | 0 < i < |keys| ensures Follows(reg', keys, i) { assert Follows(reg, keys, i); }
  }

  /** A rotation appends the new key to its identity. */
  lemma RotateKeepsSuccessions(reg: Registry, key: string, e: LifecycleRow, now: u64, newKey: string, row: AgentRow)
    requires SuccessionsOk(reg) && key in reg.agents && reg.agents[key].status == Active
    requires newKey !in reg.agents
    requires row.identityId == reg.agents[key].identityId && row.status == Active && row.validFrom == now
    requires row.keyVersion == reg.agents[key].keyVersion + 1
    ensures SuccessionsOk(AddAgent(RetireKey(reg, key, Rotate, e, now), newKey, row))
  {
    hide Succession;
    var reg' := AddAgent(RetireKey(reg, key, Rotate, e, now), newKey, row);
    var identityId := reg.agents[key].identityId;
    forall k <- reg'.agents ensures HasSuccession(reg', reg'.agents[k].identityId) {
      assert k != newKey ==> HasSuccession(reg, reg.agents[k].identityId);
      if reg'.agents[k].identityId == identityId {
        assert HasSuccession(reg, identityId);
        var keys :| Succession(reg, identityId, keys);
        RotatedSuccession(reg, key, e, now, newKey, row, keys);
      } else {
        SuccessionLocal(reg, reg', reg.agents[k].identityId);
      }
    }
  }

  lemma RotatedSuccession(reg: Registry, key: string, e: LifecycleRow, now: u64, newKey: string, row: AgentRow, keys: seq<string>)
    requires key in reg.agents && reg.agents[key].status == Active && newKey !in reg.agents
    requires row.identityId == reg.agents[key].identityId && row.status == Active && row.validFrom == now
    requires row.keyVersion == reg.agents[key].keyVersion + 1
    requires Succession(reg, reg.agents[key].identityId, keys)
    ensures Succession(AddAgent(RetireKey(reg, key, Rotate, e, now), newKey, row), row.identityId, keys + [newKey])
  {
    var reg' := AddAgent(RetireKey(reg, key, Rotate, e, now), newKey, row);
    ActiveIsLast(reg, reg.agents[key].identityId, keys, key);
    var all := keys + [newKey];
    forall i | 0 <= i < |all| ensures all[i] in reg'.agents && reg'.agents[all[i]].identityId == row.identityId {}
    forall i | 0 < i < |all| ensures Follows(reg', all, i) {
      assert i < |keys| ==> Follows(reg, keys, i);
      assert i < |keys| ==> keys[i - 1] != key by { if i < |keys| { assert Follows(reg, keys, i); } }
    }
  }

  // ---- Main result ----

  /** The keys of an identity whose window contains an instant. */
  function KeysValidAt(reg: Registry, keys: seq<string>, at: u64): set<string> {
    set k <- keys | k in reg.agents && InWindow(reg.agents[k], at)
  }

  /** When an identity's last key ends. */
  function IdentityEnd(reg: Registry, keys: seq<string>): Option<u64> {
    if keys == [] || keys[|keys| - 1] !in reg.agents then None else reg.agents[keys[|keys| - 1]].validUntil
  }

  lemma {:induction false} WindowsAscend(env: Env, reg: Registry, clock: u64, identityId: string, keys: seq<string>, i: nat, j: nat)
    requires RegistryOk(env, reg, clock) && Succession(reg, identityId, keys) && i < j < |keys|
    ensures Entry(reg.agents, ItemAt(keys, i)).validUntil.Some?
    ensures The(Entry(reg.agents, ItemAt(keys, i)).validUntil) <= Entry(reg.agents, ItemAt(keys, j)).validFrom
    decreases j - i
  {
    hide Authentic, EndFrom, ChainLength, EventOk;
    assert Follows(reg, keys, i + 1);
    if i + 1 < j {
      assert AgentOk(env, reg, clock, keys[i + 1]);
      WindowsAscend(env, reg, clock, identityId, keys, i + 1, j);
    }
  }

  /** Some key is valid at every instant from the first registration to the end of the last key. */
  lemma {:induction false} SomeKeyValid(env: Env, reg: Registry, clock: u64, identityId: string, keys: seq<string>, at: u64, n: nat)
    requires RegistryOk(env, reg, clock) && Succession(reg, identityId, keys) && n < |keys|
    requires Entry(reg.agents, ItemAt(keys, 0)).validFrom <= at
    requires n + 1 == |keys| ==> IdentityEnd(reg, keys).None? || at < The(IdentityEnd(reg, keys))
    requires n + 1 < |keys| ==> at < Entry(reg.agents, ItemAt(keys, n + 1)).validFrom
    ensures exists i :: 0 <= i < |keys| && InWindow(Entry(reg.agents, ItemAt(keys, i)), at)
  {
    hide AgentOk, EventOk;
    if n + 1 < |keys| { assert Follows(reg, keys, n + 1); }
    if reg.agents[keys[n]].validFrom <= at {
      assert InWindow(Entry(reg.agents, ItemAt(keys, n)), at);
    } else {
      SomeKeyValid(env, reg, clock, identityId, keys, at, n - 1);
    }
  }

  /** From its first registration until its last key ends, exactly one key of an identity is inside
      its window; outside that period none is. */
  lemma ExactlyOneKeyValid(env: Env, reg: Registry, clock: u64, identityId: string, keys: seq<string>, at: u64)
    requires RegistryOk(env, reg, clock) && Succession(reg, identityId, keys)
    ensures |KeysValidAt(reg, keys, at)| ==
      if Entry(reg.agents, identityId).validFrom <= at && (IdentityEnd(reg, keys).None? || at < The(IdentityEnd(reg, keys))) then 1 else 0
  {
    hide AgentOk, EventOk, Succession;
    SuccessionMembers(reg, identityId, keys);
    var valid := KeysValidAt(reg, keys, at);
    forall i, j | 0 <= i < j < |keys| ensures !(InWindow(reg.agents[keys[i]], at) && InWindow(reg.agents[keys[j]], at)) {
      WindowsAscend(env, reg, clock, identityId, keys, i, j);
    }
    var last := |keys| - 1;
    if reg.agents[identityId].validFrom <= at && (IdentityEnd(reg, keys).None? || at < IdentityEnd(reg, keys).value) {
      SomeKeyValid(env, reg, clock, identityId, keys, at, last);
      var i :| 0 <= i < |keys| && InWindow(reg.agents[keys[i]], at);
      assert valid == {keys[i]};
    } else {
      forall i | 0 <= i < |keys| ensures !InWindow(reg.agents[keys[i]], at) {
        if i < last { WindowsAscend(env, reg, clock, identityId, keys, i, last); LastEnds(env, reg, clock, keys); }
        if i > 0 { WindowsAscend(env, reg, clock, identityId, keys, 0, i); FirstStarts(env, reg, clock, keys); }
      }
      assert valid == {};
    }
  }

  lemma SuccessionMembers(reg: Registry, identityId: string, keys: seq<string>)
    requires Succession(reg, identityId, keys)
    ensures keys != [] && keys[0] == identityId && forall k <- keys :: k in reg.agents
  {}

  lemma LastEnds(env: Env, reg: Registry, clock: u64, keys: seq<string>)
    requires RegistryOk(env, reg, clock) && keys != [] && ItemAt(keys, |keys| - 1) in reg.agents
    ensures IdentityEnd(reg, keys).Some? ==> Entry(reg.agents, ItemAt(keys, |keys| - 1)).validFrom < The(IdentityEnd(reg, keys))
  {
    hide Authentic, EndFrom, ChainLength, EventOk;
    assert AgentOk(env, reg, clock, keys[|keys| - 1]);
  }

  lemma FirstStarts(env: Env, reg: Registry, clock: u64, keys: seq<string>)
    requires RegistryOk(env, reg, clock) && keys != [] && keys[0] in reg.agents
    ensures reg.agents[keys[0]].validUntil.Some? ==> reg.agents[keys[0]].validFrom < reg.agents[keys[0]].validUntil.value
  {
    hide Authentic, EndFrom, ChainLength, EventOk;
    assert AgentOk(env, reg, clock, keys[0]);
  }
}
