/** Every call of the gate keeps the invariant, and what follows for every run: sequences of calls, each at a
    later instant than the one before. */
module GateRuns {
  import opened Prelude
  import opened Names
  import opened Json
  import opened Crypto
  import opened Identity
  import opened IdentityProofs
  import opened Permits
  import opened PermitProofs
  import opened Gate
  import opened GateInv
  import Canonical
  import EventStream
  import PolicyStore
  import IdentityOps

  /** A step that moves the registry on and leaves the permits alone keeps the invariant. */
  lemma InvEvolves(env: Env, db: Db, db': Db, clock: u64, now: u64)
    requires Inv(env, db, clock) && clock <= now
    requires RegistryOk(env, db'.registry, now) && Evolves(db.registry, db'.registry, clock)
    requires IdentityOps.SuccessionsOk(db'.registry) && db'.permits == db.permits
    requires PolicyStore.StoreOk(env, db'.policies) && EventStream.StreamsOk(env.crypto, db'.streams) && HistoryOk(env, db'.signed, db'.issued)
    ensures Inv(env, db', now)
  {
    hide RegistryOk, Grounded, HistoryOk, PolicyStore.StoreOk, EventStream.StreamsOk, PermitsOk, IdentityOps.SuccessionsOk, Evolves;
    RegistryGrounded(env, db.registry, clock);
    RegistryGrounded(env, db'.registry, now);
    PermitsKept(env, db.registry, db'.registry, db.permits, clock, now);
  }

  lemma InvParts(env: Env, db: Db, clock: u64)
    requires Inv(env, db, clock)
    ensures RegistryOk(env, db.registry, clock) && Grounded(db.registry) && IdentityOps.SuccessionsOk(db.registry)
    ensures PolicyStore.StoreOk(env, db.policies) && EventStream.StreamsOk(env.crypto, db.streams) && HistoryOk(env, db.signed, db.issued)
    ensures PermitsOk(env, db.registry, db.permits, clock)
  {
    hide AgentOk, EventOk, HistoryOk, PolicyStore.StoreOk, EventStream.StreamsOk, PermitsOk, IdentityOps.SuccessionsOk;
  }

  // ---- Registration ----

  lemma IdentitiesRegistered(env: Env, reg: Registry, clock: u64)
    requires RegistryOk(env, reg, clock)
    ensures forall k <- reg.agents :: reg.agents[k].identityId in reg.agents
  {
    hide AgentOk, EventOk;
    forall k | k in reg.agents ensures reg.agents[k].identityId in reg.agents {
      IdentityOps.AgentWindow(env, reg, clock, k);
    }
  }

  lemma AddEvolves(reg: Registry, clock: u64, key: string, row: AgentRow)
    requires key !in reg.agents && clock < row.registeredAt
    ensures Evolves(reg, AddAgent(reg, key, row), clock)
  {}

  lemma FreshIsActive(env: Env, reg: Registry, key: string, row: AgentRow)
    requires Grounded(reg) && FreshRow(env, reg, key, row)
    ensures row.status == Active && key !in reg.agents
  {}

  /** What a registration does to the registry. */
  lemma RegistrationSteps(env: Env, reg: Registry, clock: u64, registrar: string, publicKey: string, alias: string,
                          metadata: Option<Value>, now: u64)
    requires Honest(env) && env.crypto.isPublicKey(registrar)
    requires RegistryOk(env, reg, clock) && IdentityOps.SuccessionsOk(reg) && clock < now
    requires PrepareRegistration(env, reg, registrar, publicKey, alias, metadata, now).Ok?
    ensures var row := Good(PrepareRegistration(env, reg, registrar, publicKey, alias, metadata, now));
      var reg' := AddAgent(reg, publicKey, row);
      && RegistryOk(env, reg', now) && Evolves(reg, reg', clock) && IdentityOps.SuccessionsOk(reg')
      && publicKey !in reg.agents && row.status == Active
  {
    hide AgentOk, EventOk, FreshRow, IdentityOps.SuccessionsOk, Evolves, PrepareRegistration, AddAgent, Honest;
    var row := PrepareRegistration(env, reg, registrar, publicKey, alias, metadata, now).value;
    IdentityOps.RegistrationIsFresh(env, reg, clock, registrar, publicKey, alias, metadata, now);
    EmptyHasNoEvents(env, reg, clock);
    AddKeepsRegistry(env, reg, clock, publicKey, row, now);
    FreshIsActive(env, reg, publicKey, row);
    AddEvolves(reg, clock, publicKey, row);
    IdentitiesRegistered(env, reg, clock);
    IdentityOps.RegisterKeepsSuccessions(reg, publicKey, row);
  }

  lemma RegistrationNoDecision(env: Env, reg: Registry, registrar: string, publicKey: string, alias: string, metadata: Option<Value>, now: u64)
    requires Grounded(reg)
    requires PrepareRegistration(env, reg, registrar, publicKey, alias, metadata, now).Ok?
    ensures Good(PrepareRegistration(env, reg, registrar, publicKey, alias, metadata, now)).event.Get(DECISION).None?
  {
    hide PrepareRegistration, Grounded, Profile, DigestJson;
    IdentityOps.PreparedMeans(env, reg, registrar, publicKey, alias, metadata, now);
  }

  /** `register_agent` keeps the invariant. */
  lemma RegisterKeepsInv(env: Env, db: Db, clock: u64, registrar: string, publicKey: string, alias: string, metadata: Option<Value>, now: u64)
    requires Honest(env) && env.crypto.isPublicKey(registrar)
    requires Grounded(db.registry) && Inv(env, db, clock) && clock < now
    ensures var db' := Register(env, db, registrar, publicKey, alias, metadata, now).db;
      Inv(env, db', now) && Evolves(db.registry, db'.registry, clock) && db'.permits == db.permits
  {
    hide Inv, Honest, RegistryOk, Grounded, HistoryOk, PolicyStore.StoreOk, EventStream.StreamsOk, PermitsOk, IdentityOps.SuccessionsOk,
      Evolves, PrepareRegistration, AddAgent, LookupSigns, PolicyStore.EnsureDefault, EventStream.RecordEvent, Canonical.Text;
    InvParts(env, db, clock);
    var r := Register(env, db, registrar, publicKey, alias, metadata, now);
    SameRegistryEvolves(db.registry, clock);
    if PrepareRegistration(env, db.registry, registrar, publicKey, alias, metadata, now).Ok? {
      var row := PrepareRegistration(env, db.registry, registrar, publicKey, alias, metadata, now).value;
      var signer := env.signerFor(registrar);
      var first := db.registry.agents == map[];
      RegistrationNoDecision(env, db.registry, registrar, publicKey, alias, metadata, now);
      LookupSignsNoDecision(env.crypto, db.policies, signer, now);
      var more := {row.event} + (if first then LookupSigns(env.crypto, db.policies, signer, now) else {});
      MoreSigned(env, db.signed, db.issued, more);
      assert r.db.signed == db.signed + more;
      PolicyStore.EnsureKeepsStore(env, db.policies, db.streams, registrar, now);
      LookupKeepsStreams(env.crypto, db.policies, db.streams, signer, "*", now);
      var lookup := PolicyStore.EnsureDefault(env.crypto, db.policies, db.streams, signer, now);
      var streams := if first then lookup.events else db.streams;
      EventStream.RecordKeepsStreams(env.crypto, streams, row.tenantId, AGENT_REGISTERED, row.eventId, Canonical.Text(row.event), now);
      if r.answer.Ok? {
        RegistrationSteps(env, db.registry, clock, registrar, publicKey, alias, metadata, now);
        InvEvolves(env, db, r.db, clock, now);
      } else {
        InvLater(env, db, r.db, clock, now);
      }
    } else {
      InvLater(env, db, db, clock, now);
    }
  }

  // ---- Rotation ----

  /** What a rotation does to the registry. */
  lemma RotationSteps(env: Env, reg: Registry, clock: u64, gate: string, currentKey: string, newKey: string, now: u64)
    requires Honest(env) && env.crypto.isPublicKey(gate)
    requires RegistryOk(env, reg, clock) && IdentityOps.SuccessionsOk(reg) && clock < now
    requires RotateAgent(env, reg, gate, currentKey, newKey, now).Ok?
    requires currentKey in reg.agents && !DependsOn(reg, gate, Entry(reg.agents, currentKey).identityId)
    ensures var reg' := Good(RotateAgent(env, reg, gate, currentKey, newKey, now));
      && RegistryOk(env, reg', now) && Evolves(reg, reg', clock) && IdentityOps.SuccessionsOk(reg')
      && forall key :: key in reg.agents && key != currentKey ==> key in reg'.agents && Entry(reg'.agents, key) == Entry(reg.agents, key)
    ensures var reg' := Good(RotateAgent(env, reg, gate, currentKey, newKey, now));
      && newKey in reg'.agents && Entry(reg'.agents, newKey).status == Active && newKey !in reg.agents
      && currentKey in reg'.agents && Entry(reg'.agents, currentKey).status == Rotated
      && (forall key :: key in reg'.agents ==> key in reg.agents || key == newKey)
  {
    hide AgentOk, EventOk, IdentityOps.SuccessionsOk, Evolves, Honest, RotationFault, Grounded, DependsOn, VerifyAgentInner,
      LifecycleRowFor, GateIdentity, DigestJson;
    IdentityOps.RotateKeepsRegistry(env, reg, clock, gate, currentKey, newKey, now);
    IdentityOps.RotateOkMeans(env, reg, gate, currentKey, newKey, now);
    IdentityOps.RotationMeans(env, reg, gate, currentKey, newKey, now);
    IdentityOps.RotationSplits(env, reg, gate, currentKey, newKey, now);
    IdentityOps.ActiveMeans(env, reg, clock, currentKey, now);
    var row := reg.agents[currentKey];
    IdentityOps.RotateKeepsSuccessions(reg, currentKey, IdentityOps.RotationRow(env, row, gate, currentKey, newKey, now), now, newKey,
                                           IdentityOps.RotatedRow(env, row, gate, currentKey, newKey, now));
  }

  lemma RotationNoDecision(env: Env, row: AgentRow, gate: string, currentKey: string, newKey: string, now: u64)
    requires row.keyVersion < U64_MAX
    ensures RotationOf(env, row, gate, currentKey, newKey, now).Get(DECISION).None?
    ensures RotatedRegistration(env, row, gate, currentKey, newKey, now).Get(DECISION).None?
  {
    hide DigestJson;
  }

  /** What a rotation asks of the deployment: a gate that does not depend on the identity. The source
      does not check it, and it is exactly what keeps the registry in order. */
  ghost predicate MayRotate(reg: Registry, gate: string, currentKey: string) {
    Grounded(reg) && (currentKey in reg.agents ==> !DependsOn(reg, gate, Entry(reg.agents, currentKey).identityId))
  }

  /** `rotate_agent` keeps the invariant. */
  lemma RotateKeepsInv(env: Env, db: Db, clock: u64, gate: string, currentKey: string, newKey: string, now: u64)
    requires Honest(env) && env.crypto.isPublicKey(gate)
    requires Grounded(db.registry) && Inv(env, db, clock) && clock < now
    requires MayRotate(db.registry, gate, currentKey)
    ensures var db' := Gate.Rotate(env, db, gate, currentKey, newKey, now).db;
      Inv(env, db', now) && Evolves(db.registry, db'.registry, clock) && db'.permits == db.permits
  {
    hide Inv, Honest, RegistryOk, Grounded, HistoryOk, PolicyStore.StoreOk, EventStream.StreamsOk, PermitsOk, IdentityOps.SuccessionsOk,
      Evolves, RotateAgent, DependsOn, RotationOf, RotatedRegistration;
    InvParts(env, db, clock);
    SameRegistryEvolves(db.registry, clock);
    var r := Gate.Rotate(env, db, gate, currentKey, newKey, now);
    if r.answer.Ok? {
      RotationSteps(env, db.registry, clock, gate, currentKey, newKey, now);
      var row := db.registry.agents[currentKey];
      RotationNoDecision(env, row, gate, currentKey, newKey, now);
      MoreSigned(env, db.signed, db.issued, {RotationOf(env, row, gate, currentKey, newKey, now),
                                             RotatedRegistration(env, row, gate, currentKey, newKey, now)});
      InvEvolves(env, db, r.db, clock, now);
    } else {
      InvLater(env, db, db, clock, now);
    }
  }

  // ---- Revocation ----

  /** What a revocation does to the registry. */
  lemma RevocationSteps(env: Env, reg: Registry, clock: u64, gate: string, publicKey: string, reason: string, now: u64)
    requires Honest(env) && env.crypto.isPublicKey(gate)
    requires RegistryOk(env, reg, clock) && IdentityOps.SuccessionsOk(reg) && clock < now
    requires RevokeAgent(env, reg, gate, publicKey, reason, now).Ok?
    requires publicKey in reg.agents && !DependsOn(reg, gate, Entry(reg.agents, publicKey).identityId)
    requires gate in reg.agents ==> Entry(reg.agents, gate).tenantId in {"*", Entry(reg.agents, publicKey).tenantId}
    ensures var reg' := Good(RevokeAgent(env, reg, gate, publicKey, reason, now));
      && RegistryOk(env, reg', now) && Evolves(reg, reg', clock) && IdentityOps.SuccessionsOk(reg')
      && reg'.agents == reg.agents[publicKey := RetireRow(Entry(reg.agents, publicKey), Revoke, now)]
      && Entry(reg.agents, publicKey).status == Active
  {
    hide AgentOk, EventOk, IdentityOps.SuccessionsOk, Evolves, Honest, RevocationFault, Grounded, DependsOn, VerifyAgentInner,
      LifecycleRowFor, DigestJson;
    RevocationFaultNone(env, reg, gate, publicKey, reason, now);
    IdentityOps.RevocationMeans(env, reg, gate, publicKey, reason, now);
    IdentityOps.ActiveMeans(env, reg, clock, gate, now);
    IdentityOps.RevokeKeepsRegistry(env, reg, clock, gate, publicKey, reason, now);
    IdentityOps.ActiveMeans(env, reg, clock, publicKey, now);
    IdentityOps.RevokeKeepsSuccessions(reg, publicKey, IdentityOps.RevocationRow(env, reg.agents[publicKey], gate, publicKey, reason, now), now);
  }

  lemma RevocationFaultNone(env: Env, reg: Registry, gate: string, publicKey: string, reason: string, now: u64)
    requires Grounded(reg) && RevokeAgent(env, reg, gate, publicKey, reason, now).Ok?
    ensures RevocationFault(env, reg, gate, publicKey, reason, now).None?
  {
    hide RevocationFault, Grounded;
  }

  lemma RevocationNoDecision(env: Env, row: AgentRow, gate: string, publicKey: string, reason: string, now: u64)
    ensures RevocationOf(env, row, gate, publicKey, reason, now).Get(DECISION).None?
  {}

  /** Which permits are revoked is no part of what `PermitsOk` says. */
  lemma RevokedIrrelevant(env: Env, reg: Registry, p: PermitTables, revoked: map<string, RevokedRow>, clock: u64)
    requires Grounded(reg) && PermitsOk(env, reg, p, clock)
    ensures PermitsOk(env, reg, p.(revoked := revoked), clock)
  {
    hide Grounded, AuthorizationOk, OutcomeOk;
    var p' := p.(revoked := revoked);
    forall id | id in p'.authorizations ensures AuthorizationOk(env, reg, clock, id, p'.authorizations[id]) {
      assert AuthorizationOk(env, reg, clock, id, p.authorizations[id]);
    }
  }

  /** What a revocation asks of the deployment: a gate that does not depend on the identity, with
      authority over its tenant. The source checks neither, and the two are exactly what keeps the
      registry in order. */
  ghost predicate MayRevoke(reg: Registry, gate: string, publicKey: string) {
    && Grounded(reg)
    && (publicKey in reg.agents ==>
          && !DependsOn(reg, gate, reg.agents[publicKey].identityId)
          && (gate in reg.agents ==> reg.agents[gate].tenantId in {"*", reg.agents[publicKey].tenantId}))
  }

  /** `revoke_agent` keeps the invariant. */
  lemma RevokeKeepsInv(env: Env, db: Db, clock: u64, gate: string, publicKey: string, reason: string, now: u64)
    requires Honest(env) && env.crypto.isPublicKey(gate)
    requires Grounded(db.registry) && Inv(env, db, clock) && clock < now
    requires MayRevoke(db.registry, gate, publicKey)
    ensures var db' := Gate.Revoke(env, db, gate, publicKey, reason, now).db;
      Inv(env, db', now) && Evolves(db.registry, db'.registry, clock)
  {
    hide Inv, Honest, RegistryOk, Grounded, HistoryOk, PolicyStore.StoreOk, EventStream.StreamsOk, PermitsOk, IdentityOps.SuccessionsOk,
      Evolves, RevokeAgent, DependsOn, RevocationOf, RevocablePermits, DigestJson;
    InvParts(env, db, clock);
    SameRegistryEvolves(db.registry, clock);
    var r := Gate.Revoke(env, db, gate, publicKey, reason, now);
    if r.answer.Ok? {
      RevocationSteps(env, db.registry, clock, gate, publicKey, reason, now);
      var event := RevocationOf(env, db.registry.agents[publicKey], gate, publicKey, reason, now);
      RevocationNoDecision(env, db.registry.agents[publicKey], gate, publicKey, reason, now);
      MoreSigned(env, db.signed, db.issued, {event});
      InvEvolves(env, db, r.db.(permits := db.permits), clock, now);
      InvParts(env, r.db.(permits := db.permits), now);
      RevokedIrrelevant(env, r.db.registry, db.permits, r.db.permits.revoked, now);
      InvFromParts(env, r.db, now);
    } else {
      InvLater(env, db, db, clock, now);
    }
  }

  lemma InvFromParts(env: Env, db: Db, clock: u64)
    requires RegistryOk(env, db.registry, clock) && Grounded(db.registry) && IdentityOps.SuccessionsOk(db.registry)
    requires PolicyStore.StoreOk(env, db.policies) && EventStream.StreamsOk(env.crypto, db.streams) && HistoryOk(env, db.signed, db.issued)
    requires PermitsOk(env, db.registry, db.permits, clock)
    ensures Inv(env, db, clock)
  {
    hide RegistryOk, Grounded, HistoryOk, PolicyStore.StoreOk, EventStream.StreamsOk, PermitsOk, IdentityOps.SuccessionsOk;
  }

  // ---- Policies ----

  /** `install_policy` keeps the invariant. */
  lemma InstallKeepsInv(env: Env, db: Db, clock: u64, gate: string, spec: Option<Value>, now: u64)
    requires Honest(env) && env.crypto.isPublicKey(gate)
    requires Inv(env, db, clock) && clock < now
    ensures var db' := InstallPolicy(env, db, gate, spec, now).db;
      Inv(env, db', now) && db'.registry == db.registry && db'.permits == db.permits
  {
    hide Inv, Honest, RegistryOk, Grounded, HistoryOk, PolicyStore.StoreOk, EventStream.StreamsOk, PermitsOk, IdentityOps.SuccessionsOk,
      PolicyStore.Install, SpecSigns;
    InvParts(env, db, clock);
    var r := InstallPolicy(env, db, gate, spec, now);
    if spec.Some? {
      SpecSignsNoDecision(env.crypto, spec.value, env.signerFor(gate), now);
      MoreSigned(env, db.signed, db.issued, SpecSigns(env.crypto, spec.value, env.signerFor(gate), now));
      PolicyStore.InstallKeepsStore(env, db.policies, db.streams, gate, spec.value, now);
      InstallKeepsStreams(env.crypto, db.policies, db.streams, env.signerFor(gate), spec.value, now);
    }
    InvLater(env, db, r.db, clock, now);
  }

  // ======== Runs of the gate: sequences of calls, each at a later instant than the one before.

  // ---- Calls ----

  datatype Call =
    | RegisterCall(registrar: string, publicKey: string, alias: string, metadata: Option<Value>)
    | RotateCall(gate: string, currentKey: string, newKey: string)
    | RevokeCall(gate: string, publicKey: string, reason: string)
    | InstallCall(gate: string, spec: Option<Value>)
    | RequestCall(gate: string, intent: Option<Value>, agentId: string, agentSignature: string, ttlSeconds: u64)
    | CommitCall(gate: string, id: string, outcome: Option<Value>)
  {
    /** The key whose holder signs for the call. */
    function Signer(): string {
      match this
      case RegisterCall(registrar, _, _, _) => registrar
      case RotateCall(gate, _, _) => gate
      case RevokeCall(gate, _, _) => gate
      case InstallCall(gate, _) => gate
      case RequestCall(gate, _, _, _, _) => gate
      case CommitCall(gate, _, _) => gate
    }
  }

  /** The database after a call, whether it succeeded or not. */
  ghost function Step(env: Env, db: Db, call: Call, now: u64): Db {
    if !Grounded(db.registry) then db else
    match call
    case RegisterCall(registrar, publicKey, alias, metadata) => Register(env, db, registrar, publicKey, alias, metadata, now).db
    case RotateCall(gate, currentKey, newKey) => Gate.Rotate(env, db, gate, currentKey, newKey, now).db
    case RevokeCall(gate, publicKey, reason) => Gate.Revoke(env, db, gate, publicKey, reason, now).db
    case InstallCall(gate, spec) => InstallPolicy(env, db, gate, spec, now).db
    case RequestCall(gate, intent, agentId, agentSignature, ttlSeconds) => Request(env, db, gate, intent, agentId, agentSignature, ttlSeconds, now).db
    case CommitCall(gate, id, outcome) => Commit(env, db, gate, id, outcome, now).db
  }

  /** What a call asks of its deployment: a signer with a key, keys whose verification ends, and to
      retire a key a gate that does not depend on it and, to revoke one, has authority over its tenant.
      Arguments are otherwise arbitrary. */
  ghost predicate Legal(env: Env, db: Db, call: Call) {
    && Grounded(db.registry)
    && env.crypto.isPublicKey(call.Signer())
    && (call.RotateCall? ==> MayRotate(db.registry, call.gate, call.currentKey))
    && (call.RevokeCall? ==> MayRevoke(db.registry, call.gate, call.publicKey))
  }

  // ---- The invariant of a step ----

  /** A revoked permit was never consumed, and every permit of a revoked key is blocked, revoked,
      consumed, or expired. */
  predicate Settled(reg: Registry, p: PermitTables, id: string) {
    id in p.authorizations ==>
    var row := p.authorizations[id];
    row.agentId in reg.agents && reg.agents[row.agentId].status == Revoked ==>
      || row.decision != ALLOWED || id in p.revoked || id in p.outcomes
      || (reg.agents[row.agentId].validUntil.Some? && row.expiresAt <= reg.agents[row.agentId].validUntil.value)
  }

  ghost predicate RevocationOk(reg: Registry, p: PermitTables) {
    && (forall id {:trigger id in p.revoked} :: id in p.revoked ==> id in p.authorizations && id !in p.outcomes)
    && (forall id {:trigger Settled(reg, p, id)} :: id in p.authorizations ==> Settled(reg, p, id))
  }

  /** Rows once written stay as they are. */
  ghost predicate RecordsKept(p: PermitTables, p': PermitTables) {
    && (forall id {:trigger id in p.authorizations} :: id in p.authorizations ==> id in p'.authorizations && p'.authorizations[id] == p.authorizations[id])
    && (forall id {:trigger id in p.outcomes} :: id in p.outcomes ==> id in p'.outcomes && p'.outcomes[id] == p.outcomes[id])
    && (forall id {:trigger id in p.revoked} :: id in p.revoked ==> id in p'.revoked && p'.revoked[id] == p.revoked[id])
  }

  /** No permit of a revoked key is consumed. */
  ghost predicate NoneConsumed(reg: Registry, p: PermitTables, p': PermitTables) {
    forall id {:trigger id in p'.outcomes} ::
      id in p'.outcomes && id !in p.outcomes ==>
        && id in p'.authorizations
        && !(p'.authorizations[id].agentId in reg.agents && reg.agents[p'.authorizations[id].agentId].status == Revoked)
  }

  /** What every call keeps. */
  ghost predicate Kept(env: Env, db: Db, clock: u64, db': Db, now: u64) {
    && Inv(env, db', now)
    && RevocationOk(db'.registry, db'.permits)
    && Evolves(db.registry, db'.registry, clock)
    && RecordsKept(db.permits, db'.permits)
    && NoneConsumed(db.registry, db.permits, db'.permits)
  }

  /** A key once revoked stays revoked, and its row unchanged. */
  lemma RevocationKept(env: Env, reg: Registry, reg': Registry, p: PermitTables, clock: u64)
    requires Evolves(reg, reg', clock)
    requires forall key {:trigger key in reg'.agents} :: key in reg'.agents && reg'.agents[key].status == Revoked ==>
      key in reg.agents && reg'.agents[key] == reg.agents[key]
    requires RevocationOk(reg, p)
    ensures RevocationOk(reg', p)
  {
    forall id | id in p.authorizations ensures Settled(reg', p, id) {
      assert Settled(reg, p, id);
    }
  }

  lemma NothingRecorded(reg: Registry, p: PermitTables)
    ensures RecordsKept(p, p) && NoneConsumed(reg, p, p)
  {}

  lemma RequestRecords(env: Env, db: Db, clock: u64, call: Call, now: u64)
    requires Honest(env) && Legal(env, db, call) && call.RequestCall?
    requires Inv(env, db, clock) && RevocationOk(db.registry, db.permits) && clock < now
    ensures Kept(env, db, clock, Step(env, db, call, now), now)
  {
    hide Inv, Honest, RegistryOk, Grounded, BeginRequest, AuthorizationOk, VerifyAgentInner, Evolves, EventStream.StreamsOk,
      PolicyStore.StoreOk, HistoryOk, FinishRequest, ActiveView, Register, Gate.Rotate, Gate.Revoke, InstallPolicy, Commit;
    var RequestCall(gate, intent, agentId, agentSignature, ttlSeconds) := call;
    InvParts(env, db, clock);
    RequestKeepsInv(env, db, clock, gate, intent, agentId, agentSignature, ttlSeconds, now);
    BeginRequestKeeps(env, db, clock, gate, intent, agentId, agentSignature, ttlSeconds, now);
    SameRegistryEvolves(db.registry, clock);
    var begun := BeginRequest(env, db, gate, intent, agentId, agentSignature, ttlSeconds, now);
    if begun.answer.Ok? && begun.answer.value.ToWrite? {
      var row := begun.answer.value.row;
      FinishRequestWrites(env, begun.db, begun.answer.value.id, row);
      IdentityOps.ActiveMeans(env, db.registry, clock, row.agentId, now);
      SettledAfterRequest(db.registry, db.permits, FinishRequest(env, begun.db, begun.answer.value.id, row).db.permits, begun.answer.value.id, row);
    }
  }

  /** An allowed permit goes to a key that is not revoked. */
  lemma SettledAfterRequest(reg: Registry, p: PermitTables, p': PermitTables, id: string, row: AuthorizationRow)
    requires RevocationOk(reg, p)
    requires p' == p || (id !in p.authorizations && p'.authorizations == p.authorizations[id := row])
    requires p'.outcomes == p.outcomes && p'.revoked == p.revoked
    requires row.decision == ALLOWED ==> row.agentId in reg.agents && reg.agents[row.agentId].status == Active
    ensures RevocationOk(reg, p') && RecordsKept(p, p') && NoneConsumed(reg, p, p')
  {
    forall i | i in p'.authorizations ensures Settled(reg, p', i) {
      if i in p.authorizations { assert Settled(reg, p, i); }
    }
  }

  lemma FinishRequestWrites(env: Env, db: Db, id: string, row: AuthorizationRow)
    ensures var p := FinishRequest(env, db, id, row).db.permits;
      && (p == db.permits || (id !in db.permits.authorizations && p.authorizations == db.permits.authorizations[id := row]))
      && p.outcomes == db.permits.outcomes && p.revoked == db.permits.revoked
    ensures FinishRequest(env, db, id, row).db.registry == db.registry
  {
    hide EventStream.RecordEvent;
  }
  lemma FinishCommitWrites(env: Env, db: Db, id: string, row: OutcomeRow)
    ensures var p := FinishCommit(env, db, id, row).db.permits;
      && (p == db.permits || (id !in db.permits.outcomes && p.outcomes == db.permits.outcomes[id := row]))
      && p.authorizations == db.permits.authorizations && p.revoked == db.permits.revoked
    ensures FinishCommit(env, db, id, row).db.registry == db.registry
  {
    hide EventStream.RecordEvent, OutcomeEvent;
  }

  /** A permit of a revoked key that could be consumed would have expired before it was revoked. */
  lemma NotRevoked(env: Env, db: Db, clock: u64, id: string, row: OutcomeRow, now: u64)
    requires RegistryOk(env, db.registry, clock) && Grounded(db.registry) && RevocationOk(db.registry, db.permits) && clock < now
    requires id in db.permits.authorizations && OutcomeOk(env, db.registry, now, Entry(db.permits.authorizations, id), row)
    requires id !in db.permits.revoked && id !in db.permits.outcomes && now <= Entry(db.permits.authorizations, id).expiresAt
    ensures var agentId := Entry(db.permits.authorizations, id).agentId;
      !(agentId in db.registry.agents && Entry(db.registry.agents, agentId).status == Revoked)
  {
    hide Grounded, VerifyExecution, Authentic, EndMatches, Vouches, EndFrom, EventOk, RegistryOk, CompletedAt;
    var agentId := db.permits.authorizations[id].agentId;
    assert Settled(db.registry, db.permits, id);
    if agentId in db.registry.agents { RegisteredWindow(env, db.registry, clock, agentId); }
  }

  lemma RegisteredWindow(env: Env, reg: Registry, clock: u64, key: string)
    requires RegistryOk(env, reg, clock) && key in reg.agents
    ensures WindowOk(reg.agents[key], clock)
  {
    hide AgentOk, EventOk, WindowOk;
    IdentityOps.AgentWindow(env, reg, clock, key);
  }

  lemma CommitRecords(env: Env, db: Db, clock: u64, call: Call, now: u64)
    requires Honest(env) && Legal(env, db, call) && call.CommitCall?
    requires Inv(env, db, clock) && RevocationOk(db.registry, db.permits) && clock < now
    ensures Kept(env, db, clock, Step(env, db, call, now), now)
  {
    hide Inv, Honest, RegistryOk, Grounded, BeginCommit, PermitsOk, OutcomeOk, VerifyAgentInner, Evolves, EventStream.StreamsOk,
      PolicyStore.StoreOk, HistoryOk, FinishCommit, Register, Gate.Rotate, Gate.Revoke, InstallPolicy, Request;
    var CommitCall(gate, id, outcome) := call;
    InvParts(env, db, clock);
    CommitKeepsInv(env, db, clock, gate, id, outcome, now);
    BeginCommitKeeps(env, db, clock, gate, id, outcome, now);
    SameRegistryEvolves(db.registry, clock);
    var begun := BeginCommit(env, db, gate, id, outcome, now);
    if begun.answer.Ok? && begun.answer.value.ToWrite? {
      FinishCommitWrites(env, begun.db, id, begun.answer.value.row);
      NotRevoked(env, db, clock, id, begun.answer.value.row, now);
      var p := FinishCommit(env, begun.db, id, begun.answer.value.row).db.permits;
      forall i | i in p.authorizations ensures Settled(db.registry, p, i) {
        assert Settled(db.registry, db.permits, i);
      }
    }
  }

  lemma RegisterRecords(env: Env, db: Db, clock: u64, call: Call, now: u64)
    requires Honest(env) && Legal(env, db, call) && call.RegisterCall?
    requires Inv(env, db, clock) && RevocationOk(db.registry, db.permits) && clock < now
    ensures Kept(env, db, clock, Step(env, db, call, now), now)
  {
    hide Inv, Honest, RegistryOk, Grounded, PrepareRegistration, Evolves, EventStream.StreamsOk, PolicyStore.StoreOk, HistoryOk,
      RevocationOk, IdentityOps.SuccessionsOk, PolicyStore.EnsureDefault, EventStream.RecordEvent, LookupSigns, PermitsOk, NoneConsumed,
      RecordsKept, Gate.Rotate, Gate.Revoke, InstallPolicy, Request, Commit;
    var RegisterCall(registrar, publicKey, alias, metadata) := call;
    InvParts(env, db, clock);
    RegisterKeepsInv(env, db, clock, registrar, publicKey, alias, metadata, now);
    NothingRecorded(db.registry, db.permits);
    var db' := Register(env, db, registrar, publicKey, alias, metadata, now).db;
    if db'.registry != db.registry {
      RegistrationSteps(env, db.registry, clock, registrar, publicKey, alias, metadata, now);
    }
    RevocationKept(env, db.registry, db'.registry, db.permits, clock);
  }

  lemma RotateRecords(env: Env, db: Db, clock: u64, call: Call, now: u64)
    requires Honest(env) && Legal(env, db, call) && call.RotateCall?
    requires Inv(env, db, clock) && RevocationOk(db.registry, db.permits) && clock < now
    ensures Kept(env, db, clock, Step(env, db, call, now), now)
  {
    hide Inv, Honest, RegistryOk, Grounded, RotateAgent, Evolves, EventStream.StreamsOk, PolicyStore.StoreOk, HistoryOk, RevocationOk,
      IdentityOps.SuccessionsOk, PermitsOk, NoneConsumed, RecordsKept, RotationOf, RotatedRegistration, Register, Gate.Revoke,
      InstallPolicy, Request, Commit;
    var RotateCall(gate, currentKey, newKey) := call;
    InvParts(env, db, clock);
    RotateKeepsInv(env, db, clock, gate, currentKey, newKey, now);
    NothingRecorded(db.registry, db.permits);
    var db' := Gate.Rotate(env, db, gate, currentKey, newKey, now).db;
    if db' != db {
      RotationSteps(env, db.registry, clock, gate, currentKey, newKey, now);
    }
    RevocationKept(env, db.registry, db'.registry, db.permits, clock);
  }

  lemma InstallRecords(env: Env, db: Db, clock: u64, call: Call, now: u64)
    requires Honest(env) && Legal(env, db, call) && call.InstallCall?
    requires Inv(env, db, clock) && RevocationOk(db.registry, db.permits) && clock < now
    ensures Kept(env, db, clock, Step(env, db, call, now), now)
  {
    hide Inv, Honest, InstallPolicy, Evolves, RevocationOk, NoneConsumed, RecordsKept, Register, Gate.Rotate, Gate.Revoke, Request, Commit;
    var InstallCall(gate, spec) := call;
    InstallKeepsInv(env, db, clock, gate, spec, now);
    SameRegistryEvolves(db.registry, clock);
    NothingRecorded(db.registry, db.permits);
  }

  lemma RevokeRecords(env: Env, db: Db, clock: u64, call: Call, now: u64)
    requires Honest(env) && Legal(env, db, call) && call.RevokeCall?
    requires Inv(env, db, clock) && RevocationOk(db.registry, db.permits) && clock < now
    ensures Kept(env, db, clock, Step(env, db, call, now), now)
  {
    hide Inv, Honest, RegistryOk, Grounded, RevokeAgent, Evolves, EventStream.StreamsOk, PolicyStore.StoreOk, HistoryOk, RevocationOk,
      IdentityOps.SuccessionsOk, PermitsOk, NoneConsumed, RecordsKept, RevocationOf, RevokePermits, RetireRow, Register, Gate.Rotate,
      InstallPolicy, Request, Commit;
    var RevokeCall(gate, publicKey, reason) := call;
    InvParts(env, db, clock);
    RevokeKeepsInv(env, db, clock, gate, publicKey, reason, now);
    NothingRecorded(db.registry, db.permits);
    var db' := Gate.Revoke(env, db, gate, publicKey, reason, now).db;
    if db' != db {
      RevocationSteps(env, db.registry, clock, gate, publicKey, reason, now);
      var event := RevocationOf(env, db.registry.agents[publicKey], gate, publicKey, reason, now);
      SettledAfterRevocation(db.registry, db'.registry, db.permits, publicKey, now, reason, DigestJson(env.crypto, event));
    }
  }

  /** A revocation settles every permit of the key, and unsettles none. */
  lemma SettledAfterRevocation(reg: Registry, reg': Registry, p: PermitTables, key: string, now: u64, reason: string, eventId: string)
    requires RevocationOk(reg, p)
    requires key in reg.agents && Entry(reg.agents, key).status == Active
    requires reg'.agents == reg.agents[key := RetireRow(Entry(reg.agents, key), Revoke, now)]
    ensures var p' := RevokePermits(p, key, now, reason, eventId);
      RevocationOk(reg', p') && RecordsKept(p, p') && NoneConsumed(reg, p, p')
  {
    var p' := RevokePermits(p, key, now, reason, eventId);
    forall id | id in p'.authorizations ensures Settled(reg', p', id) {
      assert Settled(reg, p, id);
    }
  }

  /** Every call keeps the invariants, and all that is recorded. */
  lemma StepKeeps(env: Env, db: Db, clock: u64, call: Call, now: u64)
    requires Honest(env) && Legal(env, db, call)
    requires Inv(env, db, clock) && RevocationOk(db.registry, db.permits) && clock < now
    ensures Kept(env, db, clock, Step(env, db, call, now), now)
  {
    hide Inv, Honest, Kept, Grounded, RevocationOk, Legal, Step, Register, Gate.Rotate, Gate.Revoke, InstallPolicy, Request, Commit;
    match call
    case RegisterCall(_, _, _, _) => RegisterRecords(env, db, clock, call, now);
    case RotateCall(_, _, _) => RotateRecords(env, db, clock, call, now);
    case RevokeCall(_, _, _) => RevokeRecords(env, db, clock, call, now);
    case InstallCall(_, _) => InstallRecords(env, db, clock, call, now);
    case RequestCall(_, _, _, _, _) => RequestRecords(env, db, clock, call, now);
    case CommitCall(_, _, _) => CommitRecords(env, db, clock, call, now);
  }

  // ======== What holds over every run of the gate.

  // ---- Runs ----

  datatype Timed = Timed(call: Call, at: u64)

  /** Every call is legal where it happens, and later than what happened before. */
  ghost predicate LegalRun(env: Env, db: Db, clock: u64, run: seq<Timed>)
    decreases |run|
  {
    run == [] ||
      (clock < run[0].at && Legal(env, db, run[0].call)
       && LegalRun(env, Step(env, db, run[0].call, run[0].at), run[0].at, run[1..]))
  }

  ghost function RunFrom(env: Env, db: Db, run: seq<Timed>): Db
    decreases |run|
  {
    if run == [] then db else RunFrom(env, Step(env, db, run[0].call, run[0].at), run[1..])
  }

  function LastInstant(clock: u64, run: seq<Timed>): u64 {
    if run == [] then clock else run[|run| - 1].at
  }

  /** The instant of the last call of a run. */
  function Clock(run: seq<Timed>): u64 {
    LastInstant(EPOCH, run)
  }

  /** A state some run from the empty database reaches. */
  ghost predicate Reached(env: Env, run: seq<Timed>) {
    LegalRun(env, Gate.EMPTY, EPOCH, run)
  }

  ghost function State(env: Env, run: seq<Timed>): Db {
    RunFrom(env, Gate.EMPTY, run)
  }

  lemma EvolvesTransitively(a: Registry, b: Registry, c: Registry, clock: u64, later: u64)
    requires Evolves(a, b, clock) && Evolves(b, c, later) && clock <= later
    ensures Evolves(a, c, clock)
  {
    hide SameOrigin;
    forall key | key in a.agents ensures key in c.agents && RowEvolves(a.agents[key], c.agents[key], clock) {
      RowEvolvesTransitively(a.agents[key], b.agents[key], c.agents[key], clock, later);
    }
    forall key | key in c.agents && key !in a.agents ensures c.agents[key].registeredAt > clock {
      if key in b.agents { SameOriginTime(b.agents[key], c.agents[key]); }
    }
  }

  lemma RowEvolvesTransitively(a: AgentRow, b: AgentRow, c: AgentRow, clock: u64, later: u64)
    requires RowEvolves(a, b, clock) && RowEvolves(b, c, later) && clock <= later
    ensures RowEvolves(a, c, clock)
  {}

  lemma SameOriginTime(a: AgentRow, b: AgentRow)
    requires SameOrigin(a, b)
    ensures b.registeredAt == a.registeredAt
  {}

  /** A revoked key is never anything else again. */
  lemma RevokedForever(reg: Registry, reg': Registry, clock: u64, key: string)
    requires Evolves(reg, reg', clock) && key in reg.agents && reg.agents[key].status == Revoked
    ensures key in reg'.agents && reg'.agents[key] == reg.agents[key]
  {}

  lemma KeptTogether(env: Env, a: Db, b: Db, c: Db, clock: u64, now: u64, later: u64)
    requires Kept(env, a, clock, b, now) && Kept(env, b, now, c, later) && clock <= now
    ensures Kept(env, a, clock, c, later)
  {
    hide Inv, Evolves, RevocationOk;
    EvolvesTransitively(a.registry, b.registry, c.registry, clock, now);
    forall id | id in c.permits.outcomes && id !in a.permits.outcomes
      ensures id in c.permits.authorizations
      ensures var agentId := c.permits.authorizations[id].agentId;
        !(agentId in a.registry.agents && a.registry.agents[agentId].status == Revoked)
    {
      var agentId := c.permits.authorizations[id].agentId;
      if agentId in a.registry.agents && a.registry.agents[agentId].status == Revoked {
        RevokedForever(a.registry, b.registry, clock, agentId);
      }
    }
  }

  /** A run from a state in order ends in one. */
  lemma {:induction false} RunKeeps(env: Env, db: Db, clock: u64, run: seq<Timed>)
    requires Honest(env) && Inv(env, db, clock) && RevocationOk(db.registry, db.permits)
    requires LegalRun(env, db, clock, run)
    ensures Kept(env, db, clock, RunFrom(env, db, run), LastInstant(clock, run)) && clock <= LastInstant(clock, run)
    decreases |run|
  {
    hide Inv, Honest, RevocationOk, Grounded, Kept, Step, Legal, RegistryOk, PermitsOk, IdentityOps.SuccessionsOk, PolicyStore.StoreOk,
      EventStream.StreamsOk, HistoryOk;
    InvParts(env, db, clock);
    if run == [] {
      KeptFromStart(env, db, clock);
    } else {
      var db1 := Step(env, db, run[0].call, run[0].at);
      StepKeeps(env, db, clock, run[0].call, run[0].at);
      KeptParts(env, db, clock, db1, run[0].at);
      RunKeeps(env, db1, run[0].at, run[1..]);
      KeptTogether(env, db, db1, RunFrom(env, db1, run[1..]), clock, run[0].at, LastInstant(run[0].at, run[1..]));
    }
  }

  lemma KeptFromStart(env: Env, db: Db, clock: u64)
    requires Inv(env, db, clock) && RevocationOk(db.registry, db.permits)
    ensures Kept(env, db, clock, db, clock)
  {
    hide Inv, RevocationOk;
    SameRegistryEvolves(db.registry, clock);
    NothingRecorded(db.registry, db.permits);
  }

  lemma KeptParts(env: Env, db: Db, clock: u64, db': Db, now: u64)
    requires Kept(env, db, clock, db', now)
    ensures Inv(env, db', now) && RevocationOk(db'.registry, db'.permits) && Evolves(db.registry, db'.registry, clock)
    ensures RecordsKept(db.permits, db'.permits) && NoneConsumed(db.registry, db.permits, db'.permits)
  {
    hide Inv, RevocationOk, Evolves, RecordsKept, NoneConsumed;
  }

  lemma EmptyInOrder(env: Env)
    ensures Inv(env, Gate.EMPTY, EPOCH) && RevocationOk(Gate.EMPTY.registry, Gate.EMPTY.permits)
  {
    assert Terminates(Gate.EMPTY.registry, map[]);
    forall tenant: string ensures EventStream.ChainOk(env.crypto, tenant, Gate.EMPTY.streams.Events(tenant)) {}
  }

  /** Every state a run reaches is in order. */
  lemma ReachedInOrder(env: Env, run: seq<Timed>)
    requires Honest(env) && Reached(env, run)
    ensures Inv(env, State(env, run), Clock(run)) && RevocationOk(State(env, run).registry, State(env, run).permits)
    ensures Grounded(State(env, run).registry)
  {
    hide Inv, Honest, RevocationOk, Kept, LegalRun, RunFrom, Grounded;
    EmptyInOrder(env);
    RunKeeps(env, Gate.EMPTY, EPOCH, run);
    KeptParts(env, Gate.EMPTY, EPOCH, State(env, run), Clock(run));
    InvParts(env, State(env, run), Clock(run));
  }

  /** A run can be cut anywhere. */
  lemma {:induction false} RunSplits(env: Env, db: Db, clock: u64, p: seq<Timed>, q: seq<Timed>)
    requires LegalRun(env, db, clock, p + q)
    ensures LegalRun(env, db, clock, p)
    ensures LegalRun(env, RunFrom(env, db, p), LastInstant(clock, p), q)
    ensures RunFrom(env, db, p + q) == RunFrom(env, RunFrom(env, db, p), q)
    decreases |p|
  {
    hide Step, Grounded, Legal;
    if p == [] {
      assert p + q == q;
    } else {
      assert (p + q)[0] == p[0] && (p + q)[1..] == p[1..] + q;
      RunSplits(env, Step(env, db, p[0].call, p[0].at), p[0].at, p[1..], q);
      assert LastInstant(p[0].at, p[1..]) == LastInstant(clock, p);
    }
  }

  /** A run can go on with any legal call at a later instant. */
  lemma {:induction false} RunGoesOn(env: Env, db: Db, clock: u64, run: seq<Timed>, call: Call, at: u64)
    requires LegalRun(env, db, clock, run) && LastInstant(clock, run) < at && Legal(env, RunFrom(env, db, run), call)
    ensures LegalRun(env, db, clock, run + [Timed(call, at)])
    ensures RunFrom(env, db, run + [Timed(call, at)]) == Step(env, RunFrom(env, db, run), call, at)
    decreases |run|
  {
    hide Step, Legal;
    var more := run + [Timed(call, at)];
    if run == [] {
      assert more[1..] == [];
    } else {
      assert more[0] == run[0] && more[1..] == run[1..] + [Timed(call, at)];
      assert LastInstant(run[0].at, run[1..]) == LastInstant(clock, run);
      RunGoesOn(env, Step(env, db, run[0].call, run[0].at), run[0].at, run[1..], call, at);
    }
  }

  lemma ReachedNext(env: Env, run: seq<Timed>, call: Call, at: u64)
    requires Reached(env, run) && Clock(run) < at && Legal(env, State(env, run), call)
    ensures Reached(env, run + [Timed(call, at)]) && Clock(run + [Timed(call, at)]) == at
    ensures State(env, run + [Timed(call, at)]) == Step(env, State(env, run), call, at)
  {
    hide Step, Legal, LegalRun, RunFrom;
    RunGoesOn(env, Gate.EMPTY, EPOCH, run, call, at);
  }

  // ---- What is recorded verifies, for ever ----

  /** Nothing is wrong with any record in a reached state. */
  lemma EveryRecordVerifies(env: Env, run: seq<Timed>)
    requires Honest(env) && Reached(env, run)
    ensures var db := State(env, run);
      && Grounded(db.registry)
      && (forall id <- db.permits.authorizations :: VerifyAuthorization(env.crypto, db.registry, Entry(db.permits.authorizations, id).json) == [])
      && (forall id <- db.permits.outcomes :: id in db.permits.authorizations
            && VerifyExecution(env.crypto, db.registry, Entry(db.permits.authorizations, id).json, Entry(db.permits.outcomes, id).json) == [])
  {
    hide Inv, Honest, RevocationOk, Reached, State, Grounded, IndexesOk, AuthorizationColumnsOk, CompletedAt, RegistryOk;
    ReachedInOrder(env, run);
    var db := State(env, run);
    InvParts(env, db, Clock(run));
    forall id | id in db.permits.authorizations
      ensures VerifyAuthorization(env.crypto, db.registry, db.permits.authorizations[id].json) == []
    {
      assert AuthorizationOk(env, db.registry, Clock(run), id, db.permits.authorizations[id]);
    }
  }

  /** Where an action stands, from its rows. */
  function PhaseOf(p: PermitTables, id: string, now: u64): Phase {
    if id !in p.authorizations || p.authorizations[id].decision == BLOCKED then Blocked
    else if id in p.outcomes then Completed
    else if now > p.authorizations[id].expiresAt then Expired
    else Authorized
  }

  lemma TraceClean(env: Env, db: Db, clock: u64, actionId: string, now: u64)
    requires Grounded(db.registry) && PermitsOk(env, db.registry, db.permits, clock)
    requires actionId in db.permits.byAction
    ensures Entry(db.permits.byAction, actionId) in db.permits.authorizations
    ensures VerifyTrace(env, db, actionId, now) == Ok(TraceReport(true, PhaseOf(db.permits, Entry(db.permits.byAction, actionId), now), []))
  {
    hide Grounded, VerifyAuthorization, VerifyExecution, IssuedAt, CompletedAt, ValidateIntent, ActionText, DigestJson, RequestOf;
    var id := db.permits.byAction[actionId];
    assert AuthorizationOk(env, db.registry, clock, id, db.permits.authorizations[id]);
    assert id in db.permits.outcomes ==> OutcomeOk(env, db.registry, clock, db.permits.authorizations[id], db.permits.outcomes[id]);
    ExecutionForAction(env, db, clock, actionId);
  }

  /** The execution found for an action is that of its permit. */
  lemma ExecutionForAction(env: Env, db: Db, clock: u64, actionId: string)
    requires Grounded(db.registry) && PermitsOk(env, db.registry, db.permits, clock)
    requires actionId in db.permits.byAction
    ensures var id := Entry(db.permits.byAction, actionId);
      ExecutionFor(db, actionId) == if id in db.permits.outcomes then Some(Entry(db.permits.outcomes, id).json) else None
  {
    hide Grounded, AuthorizationOk, VerifyExecution, CompletedAt;
    var p := db.permits;
    var id := p.byAction[actionId];
    if actionId in p.outcomeByAction {
      var other := p.outcomeByAction[actionId];
      assert OutcomeOk(env, db.registry, clock, p.authorizations[other], p.outcomes[other]);
      assert other == id;
    }
    if id in p.outcomes {
      assert OutcomeOk(env, db.registry, clock, p.authorizations[id], p.outcomes[id]);
    }
  }

  /** The trace of every action ever recorded verifies, in the phase its rows say. */
  lemma EveryTraceVerifies(env: Env, run: seq<Timed>, id: string, now: u64)
    requires Honest(env) && Reached(env, run)
    requires id in State(env, run).permits.authorizations
    ensures var db := State(env, run);
      && Grounded(db.registry)
      && VerifyTrace(env, db, Entry(db.permits.authorizations, id).actionId, now) == Ok(TraceReport(true, PhaseOf(db.permits, id, now), []))
  {
    hide Inv, Honest, RevocationOk, Reached, State, Grounded, RegistryOk, VerifyTrace, AuthorizationOk, OutcomeOk, PhaseOf;
    ReachedInOrder(env, run);
    var db := State(env, run);
    InvParts(env, db, Clock(run));
    TraceClean(env, db, Clock(run), db.permits.authorizations[id].actionId, now);
  }

  /** What later calls leave of a state. */
  lemma LaterCalls(env: Env, p: seq<Timed>, q: seq<Timed>)
    requires Honest(env) && Reached(env, p + q)
    ensures Reached(env, p)
    ensures Clock(p) <= Clock(p + q)
    ensures Kept(env, State(env, p), Clock(p), State(env, p + q), Clock(p + q))
  {
    hide Inv, Honest, RevocationOk, Kept, LegalRun, RunFrom, Grounded;
    RunSplits(env, Gate.EMPTY, EPOCH, p, q);
    ReachedInOrder(env, p);
    RunKeeps(env, State(env, p), Clock(p), q);
    assert LastInstant(Clock(p), q) == Clock(p + q);
  }

  /** Records stay as they were written, and go on verifying, whatever is called later. */
  lemma RecordsForever(env: Env, p: seq<Timed>, q: seq<Timed>)
    requires Honest(env) && Reached(env, p + q)
    ensures Reached(env, p)
    ensures RecordsKept(State(env, p).permits, State(env, p + q).permits)
  {
    hide Inv, Honest, RevocationOk, Reached, State, Evolves, NoneConsumed, RecordsKept;
    LaterCalls(env, p, q);
  }

  /** Nothing done later changes what a key verifies as at a past instant. */
  lemma PastIdentitiesKept(env: Env, p: seq<Timed>, q: seq<Timed>, key: string, at: u64)
    requires Honest(env) && Reached(env, p + q) && at <= Clock(p)
    ensures Reached(env, p)
    ensures Grounded(State(env, p).registry) && Grounded(State(env, p + q).registry)
    ensures ActiveView(VerifyAgentAt(env.crypto, State(env, p + q).registry, key, at)) == ActiveView(VerifyAgentAt(env.crypto, State(env, p).registry, key, at))
    ensures key in State(env, p).registry.agents ==>
      VerifyAgentAt(env.crypto, State(env, p + q).registry, key, at) == VerifyAgentAt(env.crypto, State(env, p).registry, key, at)
  {
    hide Inv, Honest, RevocationOk, Reached, State, Grounded, Evolves, NoneConsumed, RecordsKept, RegistryOk, VerifyAgentInner;
    LaterCalls(env, p, q);
    ReachedInOrder(env, p);
    ReachedInOrder(env, p + q);
    InvParts(env, State(env, p), Clock(p));
    InvParts(env, State(env, p + q), Clock(p + q));
    HistoryKept(env, State(env, p).registry, State(env, p + q).registry, Clock(p), Clock(p + q), key, at);
  }

  // ---- Identities ----

  /** Every identity has its succession of keys, each starting where the one before it ended, their
      versions rising by one, and at every instant from its registration to its end exactly one of
      them is valid. */
  lemma OneKeyAtATime(env: Env, run: seq<Timed>, key: string) returns (keys: seq<string>)
    requires Honest(env) && Reached(env, run) && key in State(env, run).registry.agents
    ensures var reg := State(env, run).registry;
      var identityId := Entry(reg.agents, key).identityId;
      && IdentityOps.Succession(reg, identityId, keys) && identityId in reg.agents
      && forall at: u64 {:trigger IdentityOps.KeysValidAt(reg, keys, at)} :: |IdentityOps.KeysValidAt(reg, keys, at)| ==
           if Entry(reg.agents, identityId).validFrom <= at
              && (IdentityOps.IdentityEnd(reg, keys).None? || at < The(IdentityOps.IdentityEnd(reg, keys))) then 1 else 0
  {
    hide Inv, Honest, RevocationOk, Reached, State, Grounded, RegistryOk, VerifyAgentInner, IdentityOps.Succession, IdentityOps.KeysValidAt,
      IdentityOps.IdentityEnd, PermitsOk;
    ReachedInOrder(env, run);
    var reg := State(env, run).registry;
    InvParts(env, State(env, run), Clock(run));
    var identityId := reg.agents[key].identityId;
    assert IdentityOps.HasSuccession(reg, identityId);
    keys :| IdentityOps.Succession(reg, identityId, keys);
    IdentityOps.SuccessionMembers(reg, identityId, keys);
    forall at: u64
      ensures |IdentityOps.KeysValidAt(reg, keys, at)| ==
        if reg.agents[identityId].validFrom <= at
           && (IdentityOps.IdentityEnd(reg, keys).None? || at < IdentityOps.IdentityEnd(reg, keys).value) then 1 else 0
    {
      IdentityOps.ExactlyOneKeyValid(env, reg, Clock(run), identityId, keys, at);
    }
  }

  // ---- Revocation ----

  /** No authorization is both revoked and consumed. */
  lemma NeverRevokedAndConsumed(env: Env, run: seq<Timed>, id: string)
    requires Honest(env) && Reached(env, run)
    ensures !(id in State(env, run).permits.revoked && id in State(env, run).permits.outcomes)
  {
    hide Inv, Honest, Reached, State, Grounded, Settled;
    ReachedInOrder(env, run);
  }

  lemma RevokedAfterwards(env: Env, db: Db, clock: u64, gate: string, key: string, reason: string, now: u64)
    requires Honest(env) && env.crypto.isPublicKey(gate)
    requires Grounded(db.registry) && Inv(env, db, clock) && clock < now
    requires MayRevoke(db.registry, gate, key)
    requires Gate.Revoke(env, db, gate, key, reason, now).answer.Ok?
    ensures var db' := Gate.Revoke(env, db, gate, key, reason, now).db;
      key in db'.registry.agents && Entry(db'.registry.agents, key).status == Revoked && db'.permits.outcomes == db.permits.outcomes
  {
    hide Inv, Honest, RegistryOk, Grounded, RevokeAgent, RevocationOf, PermitsOk, DigestJson, RevocablePermits, EventStream.RecordEvent,
      IdentityOps.SuccessionsOk, PolicyStore.StoreOk, EventStream.StreamsOk, DependsOn, HistoryOk;
    InvParts(env, db, clock);
    RevocationSteps(env, db.registry, clock, gate, key, reason, now);
  }

  /** Once `revoke_agent` has succeeded for a key, no permit of the key is ever consumed. */
  lemma RevocationIsFinal(env: Env, p: seq<Timed>, gate: string, key: string, reason: string, now: u64, q: seq<Timed>, id: string)
    requires Honest(env) && Reached(env, p + [Timed(RevokeCall(gate, key, reason), now)] + q)
    requires Reached(env, p) && Grounded(State(env, p).registry) && Gate.Revoke(env, State(env, p), gate, key, reason, now).answer.Ok?
    requires var after := State(env, p + [Timed(RevokeCall(gate, key, reason), now)] + q).permits;
      id in after.outcomes && id in after.authorizations && Entry(after.authorizations, id).agentId == key
    ensures id in State(env, p).permits.outcomes
  {
    hide Inv, Honest, RevocationOk, LegalRun, RunFrom, Grounded, Evolves, RecordsKept, MayRevoke, Gate.Revoke, Register, Gate.Rotate,
      InstallPolicy, Request, Commit;
    var revoke := [Timed(RevokeCall(gate, key, reason), now)];
    LaterCalls(env, p + revoke, q);
    RunSplits(env, Gate.EMPTY, EPOCH, p, revoke);
    ReachedInOrder(env, p);
    OneCall(env, State(env, p), Clock(p), revoke);
    RevokedAfterwards(env, State(env, p), Clock(p), gate, key, reason, now);
  }

  lemma OneCall(env: Env, db: Db, clock: u64, run: seq<Timed>)
    requires |run| == 1 && LegalRun(env, db, clock, run)
    ensures clock < ItemAt(run, 0).at && Legal(env, db, ItemAt(run, 0).call)
    ensures RunFrom(env, db, run) == Step(env, db, ItemAt(run, 0).call, ItemAt(run, 0).at)
  {
    hide Step, Grounded, Legal;
  }
}
