/** Registered keys, their lifecycle events, and the verification of a key at an instant. */
module Identity {
  import opened Prelude
  import opened Names
  import opened Json
  import opened Crypto
  import Decimal

  const AGENT_REGISTRATION_SCHEMA := "tempus.agent-registration.v1"
  const IDENTITY_EVENT_SCHEMA := "tempus.identity-lifecycle-event.v1"

  datatype Status = Active | Rotated | Revoked

  /** A row of the table `agents`, whose primary key is the public key. */
  datatype AgentRow = AgentRow(
    alias: string, registeredAt: u64, metadata: Value, status: Status, canDelegate: bool, registeredBy: string,
    eventId: string, event: Value, signature: string,
    identityId: string, tenantId: string, validFrom: u64, validUntil: Option<u64>, revokedAt: Option<u64>,
    keyVersion: u64, signerUri: string, algorithm: string)

  datatype LifecycleRow = LifecycleRow(eventId: string, identityId: string, publicKey: string, eventType: string,
                                       effectiveAt: u64, json: Value)

  /** The tables `agents`, `identity_lifecycle_events` (in order of `effective_at`) and `trusted_roots`. */
  datatype Registry = Registry(agents: map<string, AgentRow>, lifecycle: seq<LifecycleRow>, trustedRoot: Option<string>)

  const EMPTY := Registry(map[], [], None)

  datatype AgentState = AgentState(active: bool, canDelegate: bool, tenantId: string, identityId: string, metadata: Value)

  datatype IdentityError =
    | InvalidKey
    | InvalidAgent
    | RootMismatch
    | RegistrarNotAuthorized
    | DelegationScopeDenied
    | AlreadyRegistered
    | GateNotBootstrapped
    | GateNotAuthorized
    | RotationInvalid
    | RevocationInvalid
    | UniqueViolation
    | EventInvalid
    | Unending                     // no error of the source, whose calls do not return

  // ---- Signed documents ----

  function RegistrationEvent(publicKey: string, alias: string, metadata: Value, canDelegate: bool, registeredAt: u64,
                             registeredBy: string, identityId: string, tenantId: string, keyVersion: u64,
                             signerUri: string, algorithm: string): Value {
    Object(map[
      SCHEMA_VERSION := String(AGENT_REGISTRATION_SCHEMA),
      AGENT_ID := String(publicKey),
      "alias" := String(alias),
      METADATA := metadata,
      STATUS := String("active"),
      CAN_DELEGATE := Bool(canDelegate),
      REGISTERED_AT := Number(registeredAt),
      REGISTERED_BY := String(registeredBy),
      IDENTITY_ID := String(identityId),
      TENANT_ID := String(tenantId),
      KEY_VERSION := Number(keyVersion),
      SIGNER := SignerIdentity(signerUri, Decimal.Numeral(keyVersion), algorithm, publicKey).ToJson()
    ])
  }

  function RotationEvent(identityId: string, tenantId: string, previousKey: string, publicKey: string,
                         previousVersion: u64, keyVersion: u64, effectiveAt: u64, signer: SignerIdentity): Value {
    Object(map[
      SCHEMA_VERSION := String(IDENTITY_EVENT_SCHEMA),
      EVENT_TYPE := String(ROTATE),
      IDENTITY_ID := String(identityId),
      TENANT_ID := String(tenantId),
      PREVIOUS_PUBLIC_KEY := String(previousKey),
      PUBLIC_KEY := String(publicKey),
      "previous_key_version" := Number(previousVersion),
      KEY_VERSION := Number(keyVersion),
      EFFECTIVE_AT := Number(effectiveAt),
      AUTHORIZED_BY := String(signer.publicKey),
      SIGNER := signer.ToJson()
    ])
  }

  function RevocationEvent(identityId: string, tenantId: string, publicKey: string, effectiveAt: u64,
                           reason: string, signer: SignerIdentity): Value {
    Object(map[
      SCHEMA_VERSION := String(IDENTITY_EVENT_SCHEMA),
      EVENT_TYPE := String(REVOKE),
      IDENTITY_ID := String(identityId),
      TENANT_ID := String(tenantId),
      PUBLIC_KEY := String(publicKey),
      EFFECTIVE_AT := Number(effectiveAt),
      "reason" := String(reason),
      AUTHORIZED_BY := String(signer.publicKey),
      SIGNER := signer.ToJson()
    ])
  }

  /** A signed event as it is stored and returned. */
  function SignedEvent(c: Crypto, event: Value, signer: SignerIdentity): Value {
    var id := DigestJson(c, event);
    Object(map[
      EVENT := event,
      EVENT_ID := String(id),
      SIGNATURE := String(c.sign(signer.publicKey, DigestBytes(id)))
    ])
  }

  // ---- Verification of a key at an instant ----

  /** A claim that may be missing from an old event. */
  predicate Unclaimed<T(==)>(claim: Option<T>, value: T) {
    claim.None? || claim.value == value
  }

  /** The columns of a row are those its signed event declares. */
  predicate MatchesColumns(publicKey: string, row: AgentRow) {
    && StringField(row.event, SCHEMA_VERSION) == Some(AGENT_REGISTRATION_SCHEMA)
    && StringField(row.event, AGENT_ID) == Some(publicKey)
    && StringField(row.event, "alias") == Some(row.alias)
    && StringField(row.event, REGISTERED_BY) == Some(row.registeredBy)
    && row.event.GetU64(REGISTERED_AT) == Some(row.registeredAt)
    && row.event.Get(METADATA) == Some(row.metadata)
    && row.event.Get(CAN_DELEGATE).GetOr(Null).AsBool() == Some(row.canDelegate)
    && Unclaimed(row.event.GetStr(IDENTITY_ID), row.identityId)
    && Unclaimed(row.event.GetStr(TENANT_ID), row.tenantId)
    && Unclaimed(row.event.GetU64(KEY_VERSION), row.keyVersion)
    && (row.event.Get(SIGNER).Some? ==>
          && row.event.Get(SIGNER).value.GetStr(SIGNER_URI) == Some(row.signerUri)
          && row.event.Get(SIGNER).value.GetStr(ALGORITHM) == Some(row.algorithm)
          && row.event.Get(SIGNER).value.GetStr(PUBLIC_KEY) == Some(publicKey))
  }

  /** The row carries a registration event signed by its registrar, and says what the event says. */
  predicate Authentic(c: Crypto, publicKey: string, row: AgentRow) {
    && row.eventId != "" && row.signature != "" && row.registeredBy != ""
    && DigestJson(c, row.event) == row.eventId
    && c.verifies(row.registeredBy, DigestBytes(row.eventId), row.signature)
    && MatchesColumns(publicKey, row)
  }

  datatype Kind = Rotate | Revoke
  datatype End = End(at: u64, kind: Kind)

  /** The key an event was signed with, according to the event. */
  function SignerOf(row: LifecycleRow): string {
    StringField(row.json.Get(EVENT).GetOr(Null), AUTHORIZED_BY).GetOr("")
  }

  /** Everything `lifecycle_end_for_key` checks of an event before it looks up the signer. */
  predicate EventAuthentic(c: Crypto, identityId: string, row: LifecycleRow) {
    && row.json.Get(EVENT).Some?
    && var event := row.json.Get(EVENT).value;
    && event.GetStr(SCHEMA_VERSION) == Some(IDENTITY_EVENT_SCHEMA)
    && event.GetStr(IDENTITY_ID) == Some(identityId)
    && StringField(row.json, EVENT_ID).Some?
    && StringField(row.json, SIGNATURE).Some?
    && DigestJson(c, event) == StringField(row.json, EVENT_ID).value
    && StringField(event, AUTHORIZED_BY).Some?
    && c.verifies(SignerOf(row), DigestBytes(StringField(row.json, EVENT_ID).value), StringField(row.json, SIGNATURE).value)
    && event.Get(SIGNER).Some?
    && event.Get(SIGNER).value.GetStr(PUBLIC_KEY) == Some(SignerOf(row))
    && event.GetU64(EFFECTIVE_AT).Some?
  }

  /** What an event does to a key: `None` for an event of unknown type. */
  function Effect(row: LifecycleRow, publicKey: string): Option<Option<End>> {
    var event := row.json.Get(EVENT).GetOr(Null);
    var at := event.U64At(EFFECTIVE_AT);
    match StringField(event, EVENT_TYPE)
    case Some(kind) =>
      if kind == ROTATE then
        Some(if event.GetStr(PREVIOUS_PUBLIC_KEY) == Some(publicKey) then Some(End(at, Rotate)) else None)
      else if kind == REVOKE then
        Some(if event.GetStr(PUBLIC_KEY) == Some(publicKey) then Some(End(at, Revoke)) else None)
      else None
    case None => None
  }

  // Verifying a key calls for verifying its registrar, and the signer of every event of its identity
  // with a fresh record of the keys visited. Nothing in the tables makes these calls end.

  /** Verifying one key calls for verifying another. */
  predicate CallsFor(reg: Registry, key: string, other: string) {
    && key in reg.agents
    && ((reg.agents[key].registeredBy == other && other != key)
        || exists i | 0 <= i < |reg.lifecycle| :: reg.lifecycle[i].identityId == reg.agents[key].identityId && SignerOf(reg.lifecycle[i]) == other)
  }

  function Height(measure: map<string, nat>, key: string): nat {
    if key in measure then measure[key] else 0
  }

  /** The measure falls along every call. */
  ghost predicate Terminates(reg: Registry, measure: map<string, nat>) {
    forall key: string, other: string {:trigger CallsFor(reg, key, other)} :: CallsFor(reg, key, other) ==> Height(measure, other) < Height(measure, key)
  }

  /** The calls end: some measure falls along every one of them. */
  ghost predicate Grounded(reg: Registry) {
    exists measure: map<string, nat> :: Terminates(reg, measure)
  }

  ghost function Level(reg: Registry, key: string): nat {
    if Grounded(reg) then
      var measure: map<string, nat> :| Terminates(reg, measure);
      Height(measure, key)
    else 0
  }

  lemma CallsFall(reg: Registry, key: string, other: string)
    requires Grounded(reg) && CallsFor(reg, key, other)
    ensures Level(reg, other) < Level(reg, key)
  {
    hide CallsFor, Height;
  }

  lemma RegistrarFalls(reg: Registry, key: string)
    requires Grounded(reg) && key in reg.agents && reg.agents[key].registeredBy != key
    ensures Level(reg, reg.agents[key].registeredBy) < Level(reg, key)
  {
    hide Grounded, Level, SignerOf;
    CallsFall(reg, key, reg.agents[key].registeredBy);
  }

  lemma SignerFalls(reg: Registry, key: string, i: nat)
    requires Grounded(reg) && key in reg.agents && i < |reg.lifecycle| && reg.lifecycle[i].identityId == reg.agents[key].identityId
    ensures Level(reg, SignerOf(reg.lifecycle[i])) < Level(reg, key)
  {
    hide Grounded, Level, SignerOf;
    CallsFall(reg, key, SignerOf(reg.lifecycle[i]));
  }

  /** `lifecycle_end_for_key`, from the `i`-th event on. */
  ghost function LifecycleEnd(c: Crypto, reg: Registry, identityId: string, publicKey: string, i: nat, end: Option<End>)
    : Result<Option<End>, IdentityError>
    requires i <= |reg.lifecycle|
    requires publicKey in reg.agents && reg.agents[publicKey].identityId == identityId
    decreases Level(reg, publicKey), 0, |reg.lifecycle| - i
  {
    if !Grounded(reg) then Err(Unending)
    else if i == |reg.lifecycle| then Ok(end)
    else if reg.lifecycle[i].identityId != identityId then LifecycleEnd(c, reg, identityId, publicKey, i + 1, end)
    else
      var row := reg.lifecycle[i];
      if !EventAuthentic(c, identityId, row) then Err(EventInvalid)
      else
        var event := row.json.Get(EVENT).value;
        SignerFalls(reg, publicKey, i);
        match VerifyAgentInner(c, reg, SignerOf(row), event.GetU64(EFFECTIVE_AT).value, {})
        case Err(e) => Err(e)
        case Ok(None) => Err(EventInvalid)
        case Ok(Some(authority)) =>
          if !authority.active || !authority.canDelegate then Err(EventInvalid)
          else match StringField(event, TENANT_ID)
            case None => Err(EventInvalid)
            case Some(tenant) =>
              if authority.tenantId != "*" && authority.tenantId != tenant then Err(EventInvalid)
              else match Effect(row, publicKey)
                case None => Err(EventInvalid)
                case Some(effect) =>
                  LifecycleEnd(c, reg, identityId, publicKey, i + 1, if end.Some? then end else effect)
  }

  /** The status columns of a row agree with the event that ended it. */
  predicate EndMatches(row: AgentRow, end: Option<End>) {
    match end
    case Some(End(at, kind)) =>
      && row.validUntil == Some(at)
      && row.status == (if kind == Rotate then Rotated else Revoked)
      && (kind == Revoke ==> row.revokedAt == Some(at))
    case None => row.status == Active && row.validUntil.None? && row.revokedAt.None?
  }

  predicate ValidAt(row: AgentRow, end: Option<End>, at: u64) {
    && row.validFrom <= at
    && (end.Some? ==> at < end.value.at)
    && (row.revokedAt.Some? ==> at < row.revokedAt.value)
  }

  /** The longest delegation chain that verifies is one longer. */
  const MAX_VISITED := 16

  /** `verify_agent_state_at_inner`. */
  ghost function VerifyAgentInner(c: Crypto, reg: Registry, publicKey: string, at: u64, visited: set<string>)
    : Result<Option<AgentState>, IdentityError>
    decreases Level(reg, publicKey), 1, 0
  {
    if !Grounded(reg) then Err(Unending)
    else if |visited| > MAX_VISITED || publicKey in visited || publicKey !in reg.agents then Ok(None)
    else
      var row := reg.agents[publicKey];
      if !Authentic(c, publicKey, row) then Ok(None)
      else match LifecycleEnd(c, reg, row.identityId, publicKey, 0, None)
        case Err(e) => Err(e)
        case Ok(end) =>
          if !EndMatches(row, end) then Ok(None)
          else
            var state := AgentState(ValidAt(row, end, at), row.canDelegate, row.tenantId, row.identityId, row.metadata);
            if row.registeredBy == publicKey then
              Ok(if reg.trustedRoot == Some(publicKey) then Some(state) else None)
            else
              RegistrarFalls(reg, publicKey);
              match VerifyAgentInner(c, reg, row.registeredBy, row.registeredAt, visited + {publicKey})
              case Err(e) => Err(e)
              case Ok(None) => Ok(None)
              case Ok(Some(registrar)) =>
                if !registrar.active || !registrar.canDelegate then Ok(None)
                else if registrar.tenantId != "*" && registrar.tenantId != row.tenantId then Ok(None)
                else Ok(Some(state))
  }

  /** `verify_agent_state_at`. */
  ghost function VerifyAgentAt(c: Crypto, reg: Registry, publicKey: string, at: u64): Result<Option<AgentState>, IdentityError> {
    VerifyAgentInner(c, reg, publicKey, at, {})
  }

  /** `gate_identity`: the configured key is an active delegator. */
  ghost function GateIdentity(c: Crypto, reg: Registry, gate: string, now: u64): Result<AgentState, IdentityError> {
    match VerifyAgentAt(c, reg, gate, now)
    case Err(e) => Err(e)
    case Ok(None) => Err(GateNotBootstrapped)
    case Ok(Some(state)) => if state.active && state.canDelegate then Ok(state) else Err(GateNotAuthorized)
  }

  // ---- Registration ----

  /** How a new key signs: `signer_uri`, `key_version` and `algorithm`. */
  datatype KeyProfile = KeyProfile(signerUri: string, keyVersion: u64, algorithm: string)

  /** The key version a registration's metadata asks for. */
  function MetadataKeyVersion(metadata: Value): u64 {
    match metadata.Get(KEY_VERSION)
    case None => 1
    case Some(v) =>
      match v.AsU64()
      case Some(n) => n
      case None =>
        match v.AsStr()
        case Some(text) => Decimal.ParseU64(text).GetOr(1)
        case None => 1
  }

  function Profile(env: Env, publicKey: string, registrar: string, metadata: Value): Option<KeyProfile> {
    if publicKey == registrar then
      var signer := env.signerFor(registrar);
      match Decimal.ParseU64(signer.keyVersion)
      case None => None
      case Some(version) => Some(KeyProfile(signer.signerUri, version, signer.algorithm))
    else
      Some(KeyProfile(metadata.GetStr(SIGNER_URI).GetOr("local-ed25519://" + publicKey),
                      MetadataKeyVersion(metadata),
                      metadata.GetStr(ALGORITHM).GetOr(SIGNATURE_ALGORITHM)))
  }

  /** The registrar's state: the first key authorizes itself, any other needs an active delegator. */
  ghost function RegistrarAuthority(env: Env, reg: Registry, registrar: string, publicKey: string, now: u64)
    : Result<Option<AgentState>, IdentityError>
  {
    if reg.agents == map[] then
      if publicKey != registrar then Err(RootMismatch) else Ok(None)
    else match VerifyAgentAt(env.crypto, reg, registrar, now)
      case Err(e) => Err(e)
      case Ok(None) => Err(RegistrarNotAuthorized)
      case Ok(Some(state)) =>
        if !state.active || !state.canDelegate then Err(RegistrarNotAuthorized) else Ok(Some(state))
  }

  /** The checks of `register_agent` and the row it inserts. */
  ghost function PrepareRegistration(env: Env, reg: Registry, registrar: string, publicKey: string, alias: string,
                               metadata: Option<Value>, now: u64): Result<AgentRow, IdentityError>
  {
    if !env.crypto.isPublicKey(publicKey) then Err(InvalidKey)
    else if IsBlank(alias) then Err(InvalidAgent)
    else if metadata.None? || !The(metadata).Object? then Err(InvalidAgent)
    else match Profile(env, publicKey, registrar, The(metadata))
      case None => Err(InvalidAgent)
      case Some(profile) =>
        if IsBlank(profile.signerUri) || profile.keyVersion == 0 || profile.algorithm != SIGNATURE_ALGORITHM then Err(InvalidAgent)
        else match RegistrarAuthority(env, reg, registrar, publicKey, now)
          case Err(e) => Err(e)
          case Ok(authority) =>
            var tenantId := The(metadata).GetStr(TENANT_ID).GetOr("*");
            if IsBlank(tenantId) then Err(InvalidAgent)
            else if authority.Some? && The(authority).tenantId != "*" && The(authority).tenantId != tenantId then Err(DelegationScopeDenied)
            else if publicKey in reg.agents then Err(AlreadyRegistered)
            else Ok(RegistrationRow(env, reg, registrar, publicKey, alias, The(metadata), profile, tenantId, now))
  }

  function RegistrationRow(env: Env, reg: Registry, registrar: string, publicKey: string, alias: string,
                           metadata: Value, profile: KeyProfile, tenantId: string, now: u64): AgentRow {
    var canDelegate := if reg.agents == map[] then true else metadata.Get(CAN_DELEGATE).GetOr(Null).AsBool().GetOr(false);
    var event := RegistrationEvent(publicKey, alias, metadata, canDelegate, now, registrar, publicKey, tenantId,
                                   profile.keyVersion, profile.signerUri, profile.algorithm);
    NewAgentRow(env, event, publicKey, alias, metadata, canDelegate, now, registrar, publicKey, tenantId, profile)
  }

  /** An active row with its signed event. */
  function NewAgentRow(env: Env, event: Value, publicKey: string, alias: string, metadata: Value, canDelegate: bool,
                       now: u64, registrar: string, identityId: string, tenantId: string, profile: KeyProfile): AgentRow {
    var id := DigestJson(env.crypto, event);
    AgentRow(alias, now, metadata, Active, canDelegate, registrar,
             id, event, env.crypto.sign(registrar, DigestBytes(id)),
             identityId, tenantId, now, None, None,
             profile.keyVersion, profile.signerUri, profile.algorithm)
  }

  /** The row inserted, and the first key made the trusted root. */
  function AddAgent(reg: Registry, publicKey: string, row: AgentRow): Registry {
    reg.(agents := reg.agents[publicKey := row],
         trustedRoot := if reg.agents == map[] then Some(publicKey) else reg.trustedRoot)
  }

  // ---- Rotation and revocation ----

  /** Where an event of an instant comes among events read `ORDER BY effective_at`: before the first later one. */
  function PlaceOf(events: seq<LifecycleRow>, at: u64): (p: nat)
    ensures p <= |events|
    ensures forall i | 0 <= i < p :: events[i].effectiveAt <= at
    ensures p < |events| ==> at < events[p].effectiveAt
  {
    if events == [] || at < events[0].effectiveAt then 0 else 1 + PlaceOf(events[1..], at)
  }

  /** The events as they are read after one more is inserted. */
  function Filed(events: seq<LifecycleRow>, e: LifecycleRow): seq<LifecycleRow> {
    var p := PlaceOf(events, e.effectiveAt);
    events[..p] + [e] + events[p..]
  }

  predicate HasLifecycleEvent(reg: Registry, eventId: string) {
    exists row <- reg.lifecycle :: row.eventId == eventId
  }

  /** `UPDATE agents SET status = ..., valid_until = ... WHERE public_key = ... AND status = 'active'`. */
  function RetireRow(row: AgentRow, kind: Kind, at: u64): AgentRow {
    if row.status != Active then row
    else if kind == Rotate then row.(status := Rotated, validUntil := Some(at))
    else row.(status := Revoked, validUntil := Some(at), revokedAt := Some(at))
  }

  function LifecycleRowFor(env: Env, event: Value, gate: string, identityId: string, publicKey: string,
                           eventType: string, at: u64): LifecycleRow {
    LifecycleRow(DigestJson(env.crypto, event), identityId, publicKey, eventType, at, SignedEvent(env.crypto, event, env.signerFor(gate)))
  }

  /** The version of the key a rotation installs; the last version is refused before. */
  function NextVersion(version: u64): u64 {
    if version < U64_MAX then version + 1 else version
  }

  /** The event a rotation signs. */
  function RotationOf(env: Env, row: AgentRow, gate: string, currentKey: string, newKey: string, now: u64): Value {
    RotationEvent(row.identityId, row.tenantId, currentKey, newKey, row.keyVersion, NextVersion(row.keyVersion), now, env.signerFor(gate))
  }

  /** The registration event of the key a rotation installs. */
  function RotatedRegistration(env: Env, row: AgentRow, gate: string, currentKey: string, newKey: string, now: u64): Value {
    RegistrationEvent(newKey, row.alias, row.metadata, row.canDelegate, now, gate, row.identityId, row.tenantId,
                      NextVersion(row.keyVersion), "local-ed25519://" + newKey, SIGNATURE_ALGORITHM)
      .With(ROTATION_EVENT_ID, String(DigestJson(env.crypto, RotationOf(env, row, gate, currentKey, newKey, now))))
  }

  /** The checks of `rotate_agent`: what is wrong, if anything. */
  ghost function RotationFault(env: Env, reg: Registry, gate: string, currentKey: string, newKey: string, now: u64): (r: Option<IdentityError>)
    ensures r.None? ==> currentKey in reg.agents && reg.agents[currentKey].keyVersion < U64_MAX && newKey !in reg.agents
  {
    if !env.crypto.isPublicKey(newKey) then Some(InvalidKey)
    else if currentKey == newKey then Some(RotationInvalid)
    else match VerifyAgentAt(env.crypto, reg, currentKey, now)
      case Err(e) => Some(e)
      case Ok(None) => Some(RotationInvalid)
      case Ok(Some(current)) =>
        if !current.active then Some(RotationInvalid)
        else match GateIdentity(env.crypto, reg, gate, now)
          case Err(e) => Some(e)
          case Ok(registrar) =>
            if currentKey == gate then Some(RotationInvalid)
            else if registrar.tenantId != "*" && registrar.tenantId != current.tenantId then Some(DelegationScopeDenied)
            else if newKey in reg.agents then Some(AlreadyRegistered)
            else if currentKey !in reg.agents || reg.agents[currentKey].keyVersion == U64_MAX then Some(RotationInvalid)
            else if HasLifecycleEvent(reg, DigestJson(env.crypto, RotationOf(env, reg.agents[currentKey], gate, currentKey, newKey, now)))
              then Some(UniqueViolation)
            else None
  }

  /** `rotate_agent`: retire the current key, install the new one, record the event. */
  ghost function RotateAgent(env: Env, reg: Registry, gate: string, currentKey: string, newKey: string, now: u64): Result<Registry, IdentityError> {
    match RotationFault(env, reg, gate, currentKey, newKey, now)
    case Some(e) => Err(e)
    case None =>
      var row := Entry(reg.agents, currentKey);
      var profile := KeyProfile("local-ed25519://" + newKey, NextVersion(row.keyVersion), SIGNATURE_ALGORITHM);
      var newRow := NewAgentRow(env, RotatedRegistration(env, row, gate, currentKey, newKey, now), newKey, row.alias, row.metadata,
                                row.canDelegate, now, gate, row.identityId, row.tenantId, profile);
      var event := LifecycleRowFor(env, RotationOf(env, row, gate, currentKey, newKey, now), gate, row.identityId, newKey, ROTATE, now);
      Ok(reg.(agents := reg.agents[currentKey := RetireRow(row, Rotate, now)][newKey := newRow],
              lifecycle := Filed(reg.lifecycle, event)))
  }

  /** The event a revocation signs. */
  function RevocationOf(env: Env, row: AgentRow, gate: string, publicKey: string, reason: string, now: u64): Value {
    RevocationEvent(row.identityId, row.tenantId, publicKey, now, reason, env.signerFor(gate))
  }

  ghost function RevocationFault(env: Env, reg: Registry, gate: string, publicKey: string, reason: string, now: u64): (r: Option<IdentityError>)
    ensures r.None? ==> publicKey in reg.agents
  {
    if IsBlank(reason) then Some(RevocationInvalid)
    else match VerifyAgentAt(env.crypto, reg, publicKey, now)
      case Err(e) => Some(e)
      case Ok(None) => Some(RevocationInvalid)
      case Ok(Some(state)) =>
        if !state.active then Some(RevocationInvalid)
        else match GateIdentity(env.crypto, reg, gate, now)
          case Err(e) => Some(e)
          case Ok(_) =>
            if publicKey == gate || publicKey !in reg.agents then Some(RevocationInvalid)
            else if HasLifecycleEvent(reg, DigestJson(env.crypto, RevocationOf(env, reg.agents[publicKey], gate, publicKey, reason, now)))
              then Some(UniqueViolation)
            else None
  }

  /** `revoke_agent`, as far as it concerns the key. */
  ghost function RevokeAgent(env: Env, reg: Registry, gate: string, publicKey: string, reason: string, now: u64): Result<Registry, IdentityError> {
    match RevocationFault(env, reg, gate, publicKey, reason, now)
    case Some(e) => Err(e)
    case None =>
      var row := Entry(reg.agents, publicKey);
      var event := LifecycleRowFor(env, RevocationOf(env, row, gate, publicKey, reason, now), gate, row.identityId, publicKey, REVOKE, now);
      Ok(reg.(agents := reg.agents[publicKey := RetireRow(row, Revoke, now)], lifecycle := Filed(reg.lifecycle, event)))
  }
}
