/** A small deployment: how a first gate comes up, the baseline policy, further keys, and each stage of a
    request and of a commit at work. */
module Deployment {
  import opened Prelude
  import opened Names
  import opened Json
  import opened Crypto
  import opened Policy
  import opened Identity
  import opened IdentityProofs
  import opened Gate
  import opened GateInv
  import opened GateRuns
  import opened Permits
  import opened PermitProofs
  import opened Stages
  import Canonical
  import Decimal
  import EventStream
  import IdentityOps
  import ParserProofs
  import GateResults
  import PolicyStore

  /** A signer whose metadata the gate accepts. */
  predicate ProperSigner(signer: SignerIdentity) {
    && !IsBlank(signer.signerUri) && !IsBlank(signer.keyVersion)
    && Decimal.ParseU64(signer.keyVersion).Some? && Decimal.ParseU64(signer.keyVersion).value > 0
    && signer.algorithm == SIGNATURE_ALGORITHM
  }

  // ---- The baseline ----

  lemma BaselineSpecFine()
    ensures SpecFault(PolicyStore.DEFAULT_SPEC).None?
    ensures PolicyStore.DEFAULT_SPEC.Get(CONSTRAINTS).Some? && PolicyStore.DEFAULT_SPEC.Get(CONSTRAINTS).value.Object?
    ensures ConstraintsFault(PolicyStore.DEFAULT_SPEC.Get(CONSTRAINTS).value).None?
  {
    GateResults.DefaultSpecNames();
    var constraints := PolicyStore.DEFAULT_SPEC.Get(CONSTRAINTS).value;
    OneStar(ALLOWED_ACTION_TYPES);
    OneStar(ALLOWED_RESOURCES);
    OneStar(ALLOWED_EXECUTORS);
    OneStar(ALLOWED_CURRENCIES);
    hide PatternList, IsBlank;
    assert constraints.fields.Keys == {ALLOWED_ACTION_TYPES, ALLOWED_RESOURCES, ALLOWED_EXECUTORS, MAX_TTL_SECONDS, MAX_INPUT_BYTES, ALLOWED_CURRENCIES};
    assert constraints.Get(ALLOWED_ACTION_TYPES) == Some(Array([String("*")]));
  }

  lemma OneStar(field: string)
    ensures PatternList(Some(Array([String("*")])), field).Ok?
  {
    assert Texts([String("*")][1..]) == Some([]);
  }

  /** A bundle signed over sound constraints by a configured signer verifies. */
  lemma SignedBundleFine(env: Env, key: string, version: string, tenant: string, constraints: Value, issuedAt: u64)
    requires Honest(env) && env.crypto.isPublicKey(key) && ProperSigner(env.signerFor(key))
    requires !IsBlank(version) && !IsBlank(tenant) && constraints.Object? && ConstraintsFault(constraints).None?
    ensures BundleFault(env.crypto, PolicyStore.SignBundle(env.crypto, env.signerFor(key),
                        PolicyStore.BundleToSign(version, tenant, constraints, issuedAt, env.signerFor(key))),
                        Some(key)).None?
  {
    hide Honest, PolicyStore.SignBundle, PolicyStore.BundleToSign, DigestJson, SpecFault, ConstraintsFault, IsBlank, SignerIdentity.ToJson,
      BundleBody;
    var signer := env.signerFor(key);
    var body := PolicyStore.BundleToSign(version, tenant, constraints, issuedAt, signer);
    BodyFine(version, tenant, constraints, issuedAt, signer);
    PolicyStore.SignedBundleFields(env.crypto, signer, version, tenant, constraints, issuedAt);
    SignedMembers(env.crypto, signer, body);
    SignerMembers(signer);
    HonestSignature(env, key, DigestBytes(DigestJson(env.crypto, body)));
    BodyDigestNotBlank(env, body);
    AlgorithmNotBlank();
  }

  lemma AlgorithmNotBlank()
    ensures !IsBlank(SIGNATURE_ALGORITHM)
  {
    assert !IsWhiteSpace(SIGNATURE_ALGORITHM[0]);
  }

  lemma BodyDigestNotBlank(env: Env, body: Value)
    requires Honest(env)
    ensures !IsBlank(DigestJson(env.crypto, body))
  {
    IdentityOps.JsonDigestNotBlank(env.crypto, body);
  }

  lemma HonestSignature(env: Env, key: string, m: Message)
    requires Honest(env) && env.crypto.isPublicKey(key)
    ensures var signature := env.crypto.sign(key, m);
      env.crypto.verifies(key, m, signature) && !IsBlank(signature)
    ensures env.signerFor(key).publicKey == key && !IsBlank(key)
  {
    assert SignsCorrectly(env.crypto, key);
    assert env.crypto.isSignature(env.crypto.sign(key, m));
  }

  lemma BodyFine(version: string, tenant: string, constraints: Value, issuedAt: u64, signer: SignerIdentity)
    requires !IsBlank(version) && !IsBlank(tenant) && constraints.Object? && ConstraintsFault(constraints).None?
    ensures var body := PolicyStore.BundleToSign(version, tenant, constraints, issuedAt, signer);
      && body.Object? && POLICY_DIGEST !in body.fields && SIGNATURE !in body.fields
      && body.GetStr(SCHEMA_VERSION) == Some(POLICY_BUNDLE_SCHEMA) && SpecFault(body).None?
  {
    hide ConstraintsFault, IsBlank, SignerIdentity.ToJson;
  }

  lemma SignedMembers(c: Crypto, signer: SignerIdentity, body: Value)
    requires body.Object? && body.GetStr(SCHEMA_VERSION) == Some(POLICY_BUNDLE_SCHEMA)
    ensures var bundle := PolicyStore.SignBundle(c, signer, body);
      && bundle.GetStr(SCHEMA_VERSION) == Some(POLICY_BUNDLE_SCHEMA)
      && bundle.GetStr(POLICY_DIGEST) == Some(DigestJson(c, body))
      && bundle.GetStr(SIGNATURE) == Some(c.sign(signer.publicKey, DigestBytes(DigestJson(c, body))))
  {
    hide DigestJson;
  }

  lemma SignerMembers(signer: SignerIdentity)
    ensures var json := signer.ToJson();
      && json.GetStr(SIGNER_URI) == Some(signer.signerUri) && json.GetStr(KEY_VERSION) == Some(signer.keyVersion)
      && json.GetStr(ALGORITHM) == Some(signer.algorithm) && json.GetStr(PUBLIC_KEY) == Some(signer.publicKey)
  {}

  /** On empty tables the baseline is installed, with one event published. */
  lemma BaselineInstalls(env: Env, key: string, now: u64)
    requires Honest(env) && env.crypto.isPublicKey(key) && ProperSigner(env.signerFor(key))
    ensures var signer := env.signerFor(key);
      var e := PolicyStore.EnsureDefault(env.crypto, PolicyStore.EMPTY, EventStream.EMPTY, signer, now);
      && e.bundle.Ok? && PolicyStore.Bootstrapped(e.store)
      && |e.events.Events("*")| == 1 && ItemAt(e.events.Events("*"), 0).sequence == 1
      && ItemAt(e.events.Events("*"), 0).eventId == DigestJson(env.crypto, PolicyStore.SpecBody(PolicyStore.DEFAULT_SPEC, now, signer))
      && forall tenant :: tenant != "*" ==> e.events.Events(tenant) == []
  {
    hide BundleFault, SpecFault, PolicyStore.SignBundle, DigestJson, ConstraintsFault, IsBlank, ProperSigner, Canonical.Text,
      PolicyStore.Attest, PolicyStore.BundleToSign, EventStream.EventBody;
    GateResults.DefaultSpecNames();
    BaselineSpecFine();
    NamesNotBlank();
    var signer := env.signerFor(key);
    SignedBundleFine(env, key, PolicyStore.DEFAULT_POLICY_VERSION, "*", PolicyStore.DEFAULT_SPEC.Get(CONSTRAINTS).value, now);
    assert PolicyStore.SpecBody(PolicyStore.DEFAULT_SPEC, now, signer)
        == PolicyStore.BundleToSign(PolicyStore.DEFAULT_POLICY_VERSION, "*", PolicyStore.DEFAULT_SPEC.Get(CONSTRAINTS).value, now, signer);
    assert PolicyStore.Retire([], "*", now) == [];
  }

  lemma NamesNotBlank()
    ensures !IsBlank(PolicyStore.DEFAULT_POLICY_VERSION) && !IsBlank("*")
  {
    assert !IsWhiteSpace(PolicyStore.DEFAULT_POLICY_VERSION[0]);
    assert !IsWhiteSpace("*"[0]);
  }

  // ---- The first registration ----

  lemma FirstRow(env: Env, gate: string, alias: string, metadata: Value, now: u64)
    requires Honest(env) && env.crypto.isPublicKey(gate) && ProperSigner(env.signerFor(gate))
    requires !IsBlank(alias) && metadata.Object? && !IsBlank(metadata.GetStr(TENANT_ID).GetOr("*"))
    ensures Grounded(Identity.EMPTY)
    ensures var r := PrepareRegistration(env, Identity.EMPTY, gate, gate, alias, Some(metadata), now);
      && r.Ok? && Good(r).canDelegate && Good(r).registeredBy == gate && Good(r).status == Active
      && Good(r).tenantId == metadata.GetStr(TENANT_ID).GetOr("*")
      && Good(r).event.GetStr(SCHEMA_VERSION) == Some(AGENT_REGISTRATION_SCHEMA)
      && Good(r).eventId == DigestJson(env.crypto, Good(r).event)
  {
    hide DigestJson, IsBlank, Honest;
    assert Terminates(Identity.EMPTY, map[]);
  }

  /** The two events the first registration publishes differ. */
  lemma FirstEventsDiffer(env: Env, signer: SignerIdentity, event: Value, now: u64)
    requires event.GetStr(SCHEMA_VERSION) == Some(AGENT_REGISTRATION_SCHEMA)
    requires var body := PolicyStore.SpecBody(PolicyStore.DEFAULT_SPEC, now, signer);
      CollisionFree(env.crypto, {Canonical.Text(body), Canonical.Text(event)})
    ensures DigestJson(env.crypto, PolicyStore.SpecBody(PolicyStore.DEFAULT_SPEC, now, signer)) != DigestJson(env.crypto, event)
  {
    hide Canonical.Text, PolicyStore.DEFAULT_SPEC;
    var body := PolicyStore.SpecBody(PolicyStore.DEFAULT_SPEC, now, signer);
    assert body.GetStr(SCHEMA_VERSION) == Some(POLICY_BUNDLE_SCHEMA);
    if DigestJson(env.crypto, body) == DigestJson(env.crypto, event) {
      ParserProofs.CanonicalInjective(body, event);
    }
  }

  /** The first registration of a configured gate succeeds, whatever its alias, metadata and scope. */
  lemma FirstRegistrationSucceeds(env: Env, gate: string, alias: string, metadata: Value, now: u64)
    requires Honest(env) && env.crypto.isPublicKey(gate) && ProperSigner(env.signerFor(gate))
    requires !IsBlank(alias) && metadata.Object? && !IsBlank(metadata.GetStr(TENANT_ID).GetOr("*"))
    requires Grounded(Identity.EMPTY)
    requires var r := PrepareRegistration(env, Identity.EMPTY, gate, gate, alias, Some(metadata), now);
      r.Ok? ==> CollisionFree(env.crypto, {Canonical.Text(PolicyStore.SpecBody(PolicyStore.DEFAULT_SPEC, now, env.signerFor(gate))), Canonical.Text(Good(r).event)})
    ensures var r := Register(env, Gate.EMPTY, gate, gate, alias, Some(metadata), now);
      && r.answer.Ok?
      && r.db.registry.agents.Keys == {gate} && Entry(r.db.registry.agents, gate).canDelegate && Entry(r.db.registry.agents, gate).status == Active
      && Entry(r.db.registry.agents, gate).registeredBy == gate
      && PolicyStore.Bootstrapped(r.db.policies)
  {
    hide Honest, ProperSigner, IsBlank, PrepareRegistration, PolicyStore.EnsureDefault, DigestJson, Canonical.Text, LookupSigns,
      EventStream.NewRow, PolicyStore.Bootstrapped, PolicyStore.SpecBody;
    FirstRow(env, gate, alias, metadata, now);
    BaselineInstalls(env, gate, now);
    var row := PrepareRegistration(env, Identity.EMPTY, gate, gate, alias, Some(metadata), now).value;
    FirstEventsDiffer(env, env.signerFor(gate), row.event, now);
  }

  /** After it the gate is a delegator at every later instant, until something else is called. */
  lemma GateComesUp(env: Env, gate: string, alias: string, metadata: Value, now: u64, later: u64)
    requires Honest(env) && env.crypto.isPublicKey(gate) && ProperSigner(env.signerFor(gate))
    requires !IsBlank(alias) && metadata.Object? && !IsBlank(metadata.GetStr(TENANT_ID).GetOr("*"))
    requires Grounded(Identity.EMPTY) && 0 < now < later
    requires var r := PrepareRegistration(env, Identity.EMPTY, gate, gate, alias, Some(metadata), now);
      r.Ok? ==> CollisionFree(env.crypto, {Canonical.Text(PolicyStore.SpecBody(PolicyStore.DEFAULT_SPEC, now, env.signerFor(gate))), Canonical.Text(Good(r).event)})
    ensures var run := [Timed(RegisterCall(gate, gate, alias, Some(metadata)), now)];
      && Reached(env, run) && Grounded(State(env, run).registry)
      && GateIdentity(env.crypto, State(env, run).registry, gate, later).Ok?
      && PolicyStore.Bootstrapped(State(env, run).policies)
  {
    hide Honest, ProperSigner, IsBlank, PrepareRegistration, Register, Gate.Rotate, Gate.Revoke, Request, Commit, InstallPolicy, Inv,
      RegistryOk, RevocationOk, Grounded, PolicyStore.Bootstrapped, VerifyAgentInner, Canonical.Text, CollisionFree, PolicyStore.SpecBody,
      PermitsOk, AuthorizationOk, IdentityOps.SuccessionsOk, PolicyStore.StoreOk, EventStream.ChainOk, Reached, EventStream.StreamsOk,
      Legal;
    FirstRegistrationSucceeds(env, gate, alias, metadata, now);
    var run := [Timed(RegisterCall(gate, gate, alias, Some(metadata)), now)];
    RegisteredOnce(env, gate, alias, metadata, now);
    ReachedInOrder(env, run);
    InvParts(env, State(env, run), now);
    IdentityOps.ActiveMeans(env, State(env, run).registry, now, gate, later);
    RootChain(State(env, run).registry, gate);
  }

  lemma RegisteredOnce(env: Env, gate: string, alias: string, metadata: Value, now: u64)
    requires env.crypto.isPublicKey(gate) && 0 < now && Grounded(Identity.EMPTY)
    ensures var run := [Timed(RegisterCall(gate, gate, alias, Some(metadata)), now)];
      Reached(env, run) && State(env, run) == Register(env, Gate.EMPTY, gate, gate, alias, Some(metadata), now).db
  {
    hide Register, Gate.Rotate, Gate.Revoke, Request, Commit, InstallPolicy, Grounded;
    var run := [Timed(RegisterCall(gate, gate, alias, Some(metadata)), now)];
    assert run[1..] == [];
    var db := Step(env, Gate.EMPTY, run[0].call, now);
    assert LegalRun(env, db, now, []) && RunFrom(env, db, []) == db;
    assert LegalRun(env, Gate.EMPTY, 0, run);
  }

  lemma RootChain(reg: Registry, key: string)
    requires Grounded(reg) && key in reg.agents && reg.agents[key].registeredBy == key
    ensures ChainLength(reg, key) == 1
  {
    hide Grounded;
  }

  // ======== A small deployment, call by call: a root gate under the baseline policy, further keys, a request
  //          that is allowed, an outcome that is recorded.

  // ---- The baseline policy ----

  function BaselineBody(env: Env, gate: string, at: u64): Value {
    PolicyStore.SpecBody(PolicyStore.DEFAULT_SPEC, at, env.signerFor(gate))
  }

  function BaselineBundle(env: Env, gate: string, at: u64): Value {
    PolicyStore.SignBundle(env.crypto, env.signerFor(gate), BaselineBody(env, gate, at))
  }

  /** The policy tables after the first registration. */
  function BaselineStore(env: Env, gate: string, at: u64): PolicyStore.Store {
    var digest := DigestJson(env.crypto, BaselineBody(env, gate, at));
    PolicyStore.Store(
      [PolicyStore.PolicyRow(PolicyStore.DEFAULT_POLICY_VERSION, "*", digest, at, None, BaselineBundle(env, gate, at))],
      map["*" := PolicyStore.Attest(env.crypto, env.signerFor(gate), PolicyStore.DEFAULT_POLICY_VERSION, "*", digest, at)])
  }

  ghost predicate Configured(env: Env, gate: string) {
    Honest(env) && env.crypto.isPublicKey(gate) && ProperSigner(env.signerFor(gate))
  }

  lemma BaselineFine(env: Env, gate: string, at: u64)
    requires Configured(env, gate)
    ensures BundleFault(env.crypto, BaselineBundle(env, gate, at), Some(gate)).None?
    ensures BundleFault(env.crypto, BaselineBundle(env, gate, at), None).None?
  {
    hide Honest, BundleFault, PolicyStore.SignBundle, PolicyStore.BundleToSign, DigestJson, ConstraintsFault, IsBlank, ProperSigner;
    BaselineSpecFine();
    NamesNotBlank();
    GateResults.DefaultSpecNames();
    SignedBundleFine(env, gate, PolicyStore.DEFAULT_POLICY_VERSION, "*", PolicyStore.DEFAULT_SPEC.Get(CONSTRAINTS).value, at);
    PolicyStore.FaultFree(env.crypto, BaselineBundle(env, gate, at), gate);
  }

  /** The members of the baseline bundle. */
  lemma BaselineMembers(env: Env, gate: string, at: u64)
    ensures var bundle := BaselineBundle(env, gate, at);
      && bundle.GetStr(POLICY_DIGEST) == Some(DigestJson(env.crypto, BaselineBody(env, gate, at)))
      && bundle.GetStr(TENANT_ID) == Some("*")
      && bundle.Get(CONSTRAINTS) == PolicyStore.DEFAULT_SPEC.Get(CONSTRAINTS)
  {
    hide DigestJson, IsBlank, SignerIdentity.ToJson;
    GateResults.DefaultSpecNames();
  }

  /** Every tenant is served the baseline, and nothing changes. */
  lemma BaselineFound(env: Env, gate: string, at: u64, events: EventStream.Tables, tenant: string, now: u64)
    requires Configured(env, gate)
    ensures PolicyStore.ActivePolicy(env.crypto, BaselineStore(env, gate, at), events, env.signerFor(gate), tenant, now)
      == PolicyStore.Lookup(BaselineStore(env, gate, at), events, Ok(BaselineBundle(env, gate, at)))
  {
    hide BundleFault, BaselineBundle, BaselineBody, DigestJson, StringField, ProperSigner;
    BaselineFine(env, gate, at);
    BaselineMembers(env, gate, at);
    var store := BaselineStore(env, gate, at);
    assert store.bundles[0].version == PolicyStore.DEFAULT_POLICY_VERSION;
    assert SignsCorrectly(env.crypto, gate) && env.signerFor(gate).publicKey == gate;
  }

  /** An intent whose policy evaluation asks for nothing special. */
  predicate Plain(intent: Value) {
    && StringField(intent, TENANT_ID).Some? && StringField(intent, ACTION_TYPE).Some? && StringField(intent, RESOURCE).Some?
    && intent.Get(MONEY).None? && intent.Get("input").None?
  }

  /** The baseline allows it, and lets anyone execute it. */
  lemma BaselineAllows(env: Env, gate: string, at: u64, intent: Value, ttlSeconds: u64)
    requires Configured(env, gate) && Plain(intent) && ttlSeconds <= 86_400
    ensures var r := EvaluatePolicy(env.crypto, BaselineBundle(env, gate, at), intent, ttlSeconds); r.Ok? && Good(r).allowed
  {
    hide Honest, BundleFault, BaselineBundle, DigestJson, IsBlank, BaselineBody, PatternList, MatchesPatterns, Canonical.Text, Utf8Length,
      EvaluatePolicy, ProperSigner;
    BaselineFine(env, gate, at);
    BaselineMembers(env, gate, at);
    BodyDigestNotBlank(env, BaselineBody(env, gate, at));
    NamesNotBlank();
    StarMatches(StringField(intent, ACTION_TYPE).value);
    StarMatches(StringField(intent, RESOURCE).value);
    EmptyInput(intent);
    Policy.AllowsMeans(env.crypto, BaselineBundle(env, gate, at), intent, ttlSeconds);
  }

  lemma BaselineExecutes(env: Env, gate: string, at: u64, executorId: string)
    requires Configured(env, gate)
    ensures ExecutorAllowed(env.crypto, BaselineBundle(env, gate, at), executorId) == Ok(true)
  {
    hide Honest, BundleFault, BaselineBundle, DigestJson, IsBlank, BaselineBody, PatternList, MatchesPatterns, ProperSigner;
    BaselineFine(env, gate, at);
    BaselineMembers(env, gate, at);
    StarMatches(executorId);
  }

  lemma StarMatches(candidate: string)
    ensures MatchesPatterns(Some(Array([String("*")])), candidate) == Ok(true)
  {
    assert Texts([String("*")][1..]) == Some([]);
    assert Matches("*", candidate);
    assert "*" in ["*"];
  }

  lemma EmptyInput(intent: Value)
    requires intent.Get("input").None?
    ensures Utf8Length(Canonical.Text(IntentInput(intent))) <= 65_536
  {
    assert Canonical.Text(Object(map[])) == "{}";
    assert "{}"[1..] == "}" && "}"[1..] == "";
    assert Utf8Length("}") == 1;
  }

  // ---- Keys ----

  /** All keys were registered by the root gate, each as an identity of its own, and none has ended. */
  ghost predicate Star(reg: Registry, gate: string) {
    && gate in reg.agents && reg.agents[gate].canDelegate && reg.agents[gate].tenantId == "*"
    && reg.lifecycle == []
    && forall key <- reg.agents :: reg.agents[key].registeredBy == gate && reg.agents[key].identityId == key && reg.agents[key].status == Active
  }

  lemma StarChain(reg: Registry, gate: string, key: string)
    requires Grounded(reg) && Star(reg, gate) && key in reg.agents
    ensures ChainLength(reg, key) <= 2
  {
    hide Grounded;
    assert ChainLength(reg, gate) == 1;
  }

  /** Every key is active from now on. */
  lemma StarActive(env: Env, reg: Registry, clock: u64, gate: string, key: string, now: u64)
    requires RegistryOk(env, reg, clock) && Grounded(reg) && Star(reg, gate) && key in reg.agents && clock < now
    ensures VerifyAgentAt(env.crypto, reg, key, now) == Ok(Some(StateAt(Entry(reg.agents, key), now))) && StateAt(Entry(reg.agents, key), now).active
    ensures key == gate ==> GateIdentity(env.crypto, reg, gate, now).Ok?
  {
    hide RegistryOk, Grounded, VerifyAgentInner, ChainLength;
    StarChain(reg, gate, key);
    VerifyIsClosedForm(env, reg, clock, key, now);
    StarWindow(env, reg, clock, key);
  }

  lemma StarWindow(env: Env, reg: Registry, clock: u64, key: string)
    requires RegistryOk(env, reg, clock) && key in reg.agents
    ensures WindowOk(Entry(reg.agents, key), clock)
  {
    hide AgentOk, EventOk, WindowOk, Grounded;
    IdentityOps.AgentWindow(env, reg, clock, key);
  }

  /** The deployment between calls: keys under a root gate, the baseline policy, no permits yet. */
  ghost predicate Site(env: Env, db: Db, gate: string, since: u64) {
    Star(db.registry, gate) && db.policies == BaselineStore(env, gate, since) && db.permits == Gate.EMPTY.permits
  }

  // ---- The first registration ----

  const NO_METADATA := Object(map[])

  function RootEvent(env: Env, gate: string, at: u64): Value {
    var signer := env.signerFor(gate);
    RegistrationEvent(gate, "gate", NO_METADATA, true, at, gate, gate, "*", Decimal.ParseU64(signer.keyVersion).GetOr(0), signer.signerUri, signer.algorithm)
  }

  /** The ids of the events of a stream. */
  function Ids(t: EventStream.Tables, tenant: string): set<string> {
    set row <- t.Events(tenant) :: row.eventId
  }

  /** A stream that can take another event. */
  predicate Open(t: EventStream.Tables, tenant: string, n: int) {
    EventStream.NextLink(t.Events(tenant)).0 == n + 1
  }

  lemma IdsMeans(rows: seq<EventStream.EventRow>, t: EventStream.Tables, tenant: string, id: string)
    requires rows == t.Events(tenant)
    ensures EventStream.HasEventId(rows, id) <==> id in Ids(t, tenant)
  {}

  /** An event with a new id is published. */
  lemma Publishes(c: Crypto, t: EventStream.Tables, tenant: string, eventType: string, id: string, payload: string, at: u64, n: int)
    requires Open(t, tenant, n) && id !in Ids(t, tenant) && n < 1000
    ensures var r := EventStream.RecordEvent(c, t, tenant, eventType, id, payload, at);
      && r.Ok? && Ids(r.value, tenant) == Ids(t, tenant) + {id} && Open(r.value, tenant, n + 1)
      && forall other :: other != tenant ==> r.value.Events(other) == t.Events(other)
  {
    hide EventStream.EventBody, DigestJson;
    var rows := t.Events(tenant);
    IdsMeans(rows, t, tenant, id);
    var row := EventStream.NewRow(c, tenant, rows, eventType, id, payload, at);
    var r := EventStream.RecordEvent(c, t, tenant, eventType, id, payload, at);
    assert r.value.Events(tenant) == rows + [row];
    forall x ensures x in Ids(r.value, tenant) <==> x in Ids(t, tenant) + {id} {
      if x in Ids(t, tenant) {
        var r0 :| r0 in rows && r0.eventId == x;
        assert r0 in rows + [row];
      }
      if x == id { assert row in rows + [row] && row.eventId == id; }
    }
  }

  lemma AliasesNotBlank()
    ensures !IsBlank("gate") && !IsBlank("key")
  {
    assert !IsWhiteSpace("gate"[0]);
    assert !IsWhiteSpace("key"[0]);
  }

  /** The row of the root, and the event it is registered with. */
  lemma RootRow(env: Env, gate: string, at: u64)
    requires Configured(env, gate)
    ensures Grounded(Identity.EMPTY)
    ensures var r := PrepareRegistration(env, Identity.EMPTY, gate, gate, "gate", Some(NO_METADATA), at);
      && r.Ok? && Good(r).canDelegate && Good(r).registeredBy == gate && Good(r).status == Active && Good(r).identityId == gate
      && Good(r).tenantId == "*" && Good(r).metadata == NO_METADATA
      && Good(r).event == RootEvent(env, gate, at) && Good(r).eventId == DigestJson(env.crypto, Good(r).event)
  {
    hide DigestJson, IsBlank, Honest, RegistrationEvent;
    assert Terminates(Identity.EMPTY, map[]);
    AliasesNotBlank();
    NamesNotBlank();
  }

  /** The policy tables and streams after the baseline is installed on empty ones. */
  lemma BaselineStored(env: Env, gate: string, at: u64)
    requires Configured(env, gate)
    ensures var e := PolicyStore.EnsureDefault(env.crypto, PolicyStore.EMPTY, EventStream.EMPTY, env.signerFor(gate), at);
      && e.bundle.Ok? && e.store == BaselineStore(env, gate, at)
      && Open(e.events, "*", 1) && Ids(e.events, "*") == {DigestJson(env.crypto, BaselineBody(env, gate, at))}
      && forall tenant :: tenant != "*" ==> e.events.Events(tenant) == []
  {
    hide BundleFault, SpecFault, PolicyStore.SignBundle, DigestJson, ConstraintsFault, IsBlank, Canonical.Text, PolicyStore.Attest,
      PolicyStore.BundleToSign, EventStream.RecordEvent, ProperSigner;
    GateResults.DefaultSpecNames();
    BaselineSpecFine();
    NamesNotBlank();
    BaselineFine(env, gate, at);
    assert PolicyStore.Retire([], "*", at) == [];
    Publishes(env.crypto, EventStream.EMPTY, "*", POLICY_PUBLISHED, DigestJson(env.crypto, BaselineBody(env, gate, at)),
              Canonical.Text(BaselineBundle(env, gate, at)), at, 0);
  }

  function RegisterRoot(gate: string): Call {
    RegisterCall(gate, gate, "gate", Some(NO_METADATA))
  }

  /** The first registration makes a site. */
  lemma RootRegistered(env: Env, gate: string, at: u64)
    requires Configured(env, gate)
    requires DigestJson(env.crypto, BaselineBody(env, gate, at)) != DigestJson(env.crypto, RootEvent(env, gate, at))
    ensures var db := Step(env, Gate.EMPTY, RegisterRoot(gate), at);
      && Site(env, db, gate, at) && db.registry.agents.Keys == {gate} && Entry(db.registry.agents, gate).metadata == NO_METADATA
      && Open(db.streams, "*", 2)
      && Ids(db.streams, "*") == {DigestJson(env.crypto, BaselineBody(env, gate, at)), DigestJson(env.crypto, RootEvent(env, gate, at))}
      && forall tenant :: tenant != "*" ==> db.streams.Events(tenant) == []
  {
    hide Honest, ProperSigner, IsBlank, PrepareRegistration, PolicyStore.EnsureDefault, DigestJson, Canonical.Text, LookupSigns,
      EventStream.RecordEvent, BaselineStore, BaselineBody, RootEvent, Gate.Rotate, Gate.Revoke, InstallPolicy, Request, Commit, Open, Ids,
      NO_METADATA;
    RootRow(env, gate, at);
    BaselineStored(env, gate, at);
    var row := PrepareRegistration(env, Identity.EMPTY, gate, gate, "gate", Some(NO_METADATA), at).value;
    var e := PolicyStore.EnsureDefault(env.crypto, PolicyStore.EMPTY, EventStream.EMPTY, env.signerFor(gate), at);
    Publishes(env.crypto, e.events, "*", AGENT_REGISTERED, row.eventId, Canonical.Text(row.event), at, 1);
  }

  // ---- Further registrations ----

  /** Metadata that leaves the key's profile to its defaults. */
  predicate Simple(metadata: Value) {
    && metadata.Object? && metadata.Get(SIGNER_URI).None? && metadata.Get(KEY_VERSION).None? && metadata.Get(ALGORITHM).None?
    && !IsBlank(TenantOf(metadata))
  }

  function TenantOf(metadata: Value): string {
    metadata.GetStr(TENANT_ID).GetOr("*")
  }

  function MayDelegate(metadata: Value): bool {
    metadata.Get(CAN_DELEGATE).GetOr(Null).AsBool().GetOr(false)
  }

  function KeyEvent(gate: string, key: string, metadata: Value, at: u64): Value {
    RegistrationEvent(key, "key", metadata, MayDelegate(metadata), at, gate, key, TenantOf(metadata), 1, "local-ed25519://" + key, SIGNATURE_ALGORITHM)
  }

  function RegisterKey(gate: string, key: string, metadata: Value): Call {
    RegisterCall(gate, key, "key", Some(metadata))
  }

  lemma KeyRow(env: Env, reg: Registry, clock: u64, gate: string, key: string, metadata: Value, at: u64)
    requires Configured(env, gate) && RegistryOk(env, reg, clock) && Grounded(reg) && Star(reg, gate) && clock < at
    requires env.crypto.isPublicKey(key) && key !in reg.agents && Simple(metadata)
    ensures var r := PrepareRegistration(env, reg, gate, key, "key", Some(metadata), at);
      && r.Ok? && Good(r).canDelegate == MayDelegate(metadata) && Good(r).registeredBy == gate && Good(r).status == Active && Good(r).identityId == key
      && Good(r).tenantId == TenantOf(metadata) && Good(r).metadata == metadata && Good(r).keyVersion == 1
      && Good(r).event == KeyEvent(gate, key, metadata, at) && Good(r).eventId == DigestJson(env.crypto, Good(r).event)
  {
    hide DigestJson, Honest, RegistrationEvent, RegistryOk, Grounded, VerifyAgentInner, IsBlank, ProperSigner;
    StarActive(env, reg, clock, gate, gate, at);
    AliasesNotBlank();
    UriNotBlank(key);
  }

  lemma UriNotBlank(key: string)
    ensures !IsBlank("local-ed25519://" + key)
  {
    assert ("local-ed25519://" + key)[0] == 'l';
    assert !IsWhiteSpace('l');
  }

  /** A further registration adds one key to the site. */
  lemma KeyRegistered(env: Env, db: Db, clock: u64, gate: string, since: u64, key: string, metadata: Value, at: u64, n: int)
    requires Configured(env, gate) && RegistryOk(env, db.registry, clock) && Grounded(db.registry) && Site(env, db, gate, since) && clock < at
    requires env.crypto.isPublicKey(key) && key !in db.registry.agents && Simple(metadata)
    requires Open(db.streams, TenantOf(metadata), n) && n < 1000
    requires DigestJson(env.crypto, KeyEvent(gate, key, metadata, at)) !in Ids(db.streams, TenantOf(metadata))
    ensures var db' := Step(env, db, RegisterKey(gate, key, metadata), at);
      && Site(env, db', gate, since) && db'.registry.agents.Keys == db.registry.agents.Keys + {key}
      && Entry(db'.registry.agents, key).tenantId == TenantOf(metadata) && Entry(db'.registry.agents, key).canDelegate == MayDelegate(metadata)
      && Entry(db'.registry.agents, key).metadata == metadata && Entry(db'.registry.agents, key).keyVersion == 1
      && (forall k <- db.registry.agents.Keys :: Entry(db'.registry.agents, k) == Entry(db.registry.agents, k))
      && Open(db'.streams, TenantOf(metadata), n + 1)
      && Ids(db'.streams, TenantOf(metadata)) == Ids(db.streams, TenantOf(metadata)) + {DigestJson(env.crypto, KeyEvent(gate, key, metadata, at))}
      && forall tenant :: tenant != TenantOf(metadata) ==> db'.streams.Events(tenant) == db.streams.Events(tenant)
  {
    hide Honest, ProperSigner, Simple, PrepareRegistration, PolicyStore.EnsureDefault, DigestJson, Canonical.Text, LookupSigns,
      EventStream.RecordEvent, BaselineStore, KeyEvent, Gate.Rotate, Gate.Revoke, InstallPolicy, Request, Commit, Open, Ids, RegistryOk,
      Grounded, TenantOf, MayDelegate;
    KeyRow(env, db.registry, clock, gate, key, metadata, at);
    var row := PrepareRegistration(env, db.registry, gate, key, "key", Some(metadata), at).value;
    Publishes(env.crypto, db.streams, TenantOf(metadata), AGENT_REGISTERED, row.eventId, Canonical.Text(row.event), at, n);
  }

  // ======== A small deployment at work: each stage of a request and of a commit goes through.

  const TTL: u64 := 3_600

  /** An intent, with a note nobody reads. */
  function Intent(agent: string, at: u64, note: Value): Value {
    Object(map[
      SCHEMA_VERSION := String(ACTION_INTENT_SCHEMA),
      AGENT_ID := String(agent),
      TENANT_ID := String("acme"),
      ACTION_TYPE := String("pay"),
      RESOURCE := String("invoice"),
      "idempotency_key" := String("1"),
      "requested_at" := Number(at),
      "note" := note
    ])
  }

  function Fields(agent: string, at: u64): IntentFields {
    IntentFields("acme", agent, "1", at)
  }

  function Ask(gate: string, agent: string, at: u64, note: Value, agentSignature: string): Asked {
    Asked(gate, Intent(agent, at, note), Fields(agent, at), agentSignature, TTL)
  }

  lemma WordsNotBlank()
    ensures !IsBlank("acme") && !IsBlank("pay") && !IsBlank("invoice") && !IsBlank("1")
    ensures !IsBlank(ACTION_INTENT_SCHEMA) && !IsBlank(ACTION_OUTCOME_SCHEMA) && !IsBlank("SUCCEEDED")
  {
    assert !IsWhiteSpace("acme"[0]) && !IsWhiteSpace("pay"[0]) && !IsWhiteSpace("invoice"[0]) && !IsWhiteSpace("1"[0]);
    assert !IsWhiteSpace(ACTION_INTENT_SCHEMA[0]) && !IsWhiteSpace(ACTION_OUTCOME_SCHEMA[0]) && !IsWhiteSpace("SUCCEEDED"[0]);
  }

  lemma IntentReads(agent: string, at: u64, note: Value)
    requires !IsBlank(agent)
    ensures ValidateIntent(Intent(agent, at, note), agent) == Some(Fields(agent, at))
    ensures Plain(Intent(agent, at, note))
  {
    hide IsBlank;
    WordsNotBlank();
  }

  // ---- A request, stage by stage ----

  lemma SeekWorks(env: Env, db: Db, gate: string, agent: string, at: u64, note: Value, agentSignature: string)
    requires !IsBlank(agent) && db.permits == Gate.EMPTY.permits
    ensures Seek(env, db, gate, Some(Intent(agent, at, note)), agent, agentSignature, TTL) == Some(Ask(gate, agent, at, note, agentSignature))
  {
    hide ValidateIntent, Intent, ActionIdFor;
    IntentReads(agent, at, note);
  }

  lemma AdmitWorks(env: Env, db: Db, clock: u64, asked: Asked, at: u64)
    requires RegistryOk(env, db.registry, clock) && Grounded(db.registry) && Star(db.registry, asked.gate) && clock < at
    ensures Next(env, db, Sought(asked), at) == (db, Some(Admitted(asked, at)))
  {
    hide RegistryOk, Grounded, VerifyAgentInner, GateIdentity;
    StarActive(env, db.registry, clock, asked.gate, asked.gate, at);
  }

  /** What the baseline makes of an intent. */
  function Evaluated(env: Env, asked: Asked, since: u64): PolicyDecision
  {
    var r := EvaluatePolicy(env.crypto, BaselineBundle(env, asked.gate, since), asked.intent, asked.ttlSeconds);
    if r.Ok? then r.value else PolicyDecision(false, [], "", Null)
  }

  /** Dating leaves the tables alone: only what is signed is recorded. */
  lemma DateWorks(env: Env, db: Db, asked: Asked, since: u64, gateAt: u64, at: u64)
    requires Configured(env, asked.gate) && Grounded(db.registry) && db.policies == BaselineStore(env, asked.gate, since)
    requires Plain(asked.intent) && asked.ttlSeconds <= 86_400
    ensures var next := Next(env, db, Admitted(asked, gateAt), at);
      && next.0 == db.(signed := next.0.signed)
      && next.1 == Some(Dated(asked, gateAt, at, BaselineBundle(env, asked.gate, since), Evaluated(env, asked, since)))
    ensures Evaluated(env, asked, since).allowed
    ensures EvaluatePolicy(env.crypto, BaselineBundle(env, asked.gate, since), asked.intent, asked.ttlSeconds) == Ok(Evaluated(env, asked, since))
  {
    hide Configured, Grounded, BaselineStore, BaselineBundle, PolicyStore.ActivePolicy, EvaluatePolicy, LookupSigns, Plain;
    BaselineFound(env, asked.gate, since, db.streams, asked.fields.tenantId, at);
    BaselineAllows(env, asked.gate, since, asked.intent, asked.ttlSeconds);
  }

  /** The recipe of a decision made on a closed view of the agent. */
  function Cooked(asked: Asked, gateAt: u64, issuedAt: u64, bundle: Value, policy: PolicyDecision, agent: Option<AgentState>, agentAt: u64): Recipe {
    Recipe(asked, gateAt, issuedAt, Expiry(issuedAt, asked.ttlSeconds), bundle, policy, agent, agentAt)
  }

  lemma DraftWorks(env: Env, db: Db, clock: u64, asked: Asked, gateAt: u64, issuedAt: u64, bundle: Value, policy: PolicyDecision, at: u64)
    requires RegistryOk(env, db.registry, clock) && Grounded(db.registry)
    requires issuedAt + asked.ttlSeconds * MICROS_PER_SECOND <= U64_MAX
    ensures var next := Next(env, db, Dated(asked, gateAt, issuedAt, bundle, policy), at);
      && next.0 == db.(signed := next.0.signed, issued := next.0.issued)
      && next.1 == Some(Drafted(Cooked(asked, gateAt, issuedAt, bundle, policy, ClosedForm(db.registry, asked.fields.agentId, at), at)))
  {
    hide RegistryOk, Grounded, VerifyAgentInner, ClosedForm, RowOf, BodyOf;
    VerifyIsClosedForm(env, db.registry, clock, asked.fields.agentId, at);
  }

  /** The write of an authorization into empty tables succeeds. */
  lemma WriteWorks(env: Env, db: Db, id: string, row: AuthorizationRow, n: int)
    requires db.permits == Gate.EMPTY.permits && Open(db.streams, row.tenantId, n) && n < 1000 && id !in Ids(db.streams, row.tenantId)
    ensures var reply := FinishRequest(env, db, id, row);
      && reply.answer == Ok(row.json)
      && reply.db == db.(permits := reply.db.permits, streams := reply.db.streams)
      && reply.db.permits.authorizations == map[id := row] && reply.db.permits.outcomes == map[] && reply.db.permits.revoked == map[]
      && reply.db.permits.outcomeByAction == map[] && reply.db.permits.receipts == {}
      && Open(reply.db.streams, row.tenantId, n + 1) && Ids(reply.db.streams, row.tenantId) == Ids(db.streams, row.tenantId) + {id}
  {
    hide Open, Ids, EventStream.RecordEvent, Canonical.Text;
    Publishes(env.crypto, db.streams, row.tenantId, ACTION_AUTHORIZED, id, Canonical.Text(row.json), row.issuedAt, n);
  }

  /** A fresh, signed request of an active agent is allowed. */
  lemma RecipeAllows(env: Env, r: Recipe)
    requires SignatureValid(env, r.asked) && r.policy.allowed
    requires r.agent.Some? && The(r.agent).active && The(r.agent).tenantId == "*"
    requires r.asked.fields.requestedAt <= r.issuedAt <= r.asked.fields.requestedAt + MAX_AGE_MICROS
    ensures DecisionOf(env, r).decision == ALLOWED
  {
    hide SignatureValid;
  }

  // ---- An outcome, stage by stage ----

  function BareOutcome(id: string, actionId: string, executor: string): Value {
    Object(map[
      SCHEMA_VERSION := String(ACTION_OUTCOME_SCHEMA),
      AUTHORIZATION_ID := String(id),
      ACTION_ID := String(actionId),
      STATUS := String("SUCCEEDED"),
      EXECUTOR_ID := String(executor)
    ])
  }

  function Outcome(env: Env, id: string, actionId: string, executor: string): Value {
    BareOutcome(id, actionId, executor)
      .With(EXECUTOR_SIGNATURE, String(env.crypto.sign(executor, TextBytes(Canonical.Text(BareOutcome(id, actionId, executor))))))
  }

  lemma OutcomeReads(env: Env, id: string, actionId: string, executor: string)
    requires !IsBlank(id) && !IsBlank(actionId) && !IsBlank(executor)
    ensures var outcome := Outcome(env, id, actionId, executor);
      && OutcomeToSign(outcome) == BareOutcome(id, actionId, executor)
      && outcome.GetStr(EXECUTOR_SIGNATURE) == Some(env.crypto.sign(executor, TextBytes(Canonical.Text(BareOutcome(id, actionId, executor)))))
      && ValidateOutcome(OutcomeToSign(outcome), id, actionId) == Some("SUCCEEDED")
      && StringField(OutcomeToSign(outcome), EXECUTOR_ID) == Some(executor)
  {
    hide IsBlank, Canonical.Text;
    WordsNotBlank();
    var outcome := Outcome(env, id, actionId, executor);
    assert OutcomeToSign(outcome).fields == BareOutcome(id, actionId, executor).fields;
  }

  /** A permit as a commit finds it. */
  ghost predicate Usable(env: Env, db: Db, gate: string, since: u64, id: string, agent: string, at: u64) {
    && Grounded(db.registry)
    && id in db.permits.authorizations && id !in db.permits.revoked && id !in db.permits.outcomes
    && var row := Entry(db.permits.authorizations, id);
    && AuthorizationColumnsOk(env.crypto, id, row) && VerifyAuthorization(env.crypto, db.registry, row.json) == []
    && row.decision == ALLOWED && at <= row.expiresAt && row.agentId == agent && row.tenantId == "acme"
    && row.json.Get(POLICY_BUNDLE) == Some(BaselineBundle(env, gate, since))
    && !IsBlank(id) && !IsBlank(row.actionId) && !IsBlank(row.agentId) && !IsBlank(row.intentHash)
  }

  function OfferOf(env: Env, db: Db, gate: string, id: string, executor: string): Offered
    requires id in db.permits.authorizations
  {
    var row := db.permits.authorizations[id];
    Offered(gate, id, row.json, Outcome(env, id, row.actionId, executor), executor, "SUCCEEDED")
  }

  lemma PermitPasses(env: Env, db: Db, gate: string, since: u64, id: string, agent: string, at: u64)
    requires Usable(env, db, gate, since, id, agent, at)
    ensures PermitRefusal(env, db, id, at).None?
    ensures var permit := PermitOf(Entry(db.permits.authorizations, id).json);
      && StringField(permit, ACTION_ID) == Some(Entry(db.permits.authorizations, id).actionId)
      && StringField(permit, AGENT_ID) == Some(agent) && StringField(permit, TENANT_ID) == Some("acme")
      && StringField(permit, INTENT_HASH).Some?
  {
    hide Grounded, VerifyAuthorization, DigestJson, ActionText, ValidateIntent, IssuedAt, BaselineBundle, IsBlank;
    WordsNotBlank();
  }

  lemma OfferWorks(env: Env, db: Db, gate: string, since: u64, id: string, agent: string, executor: string, at: u64)
    requires Configured(env, gate) && Usable(env, db, gate, since, id, agent, at) && !IsBlank(executor) && executor != agent
    ensures Offer(env, db, gate, id, Some(Outcome(env, id, db.permits.authorizations[id].actionId, executor)), at)
      == Some(OfferOf(env, db, gate, id, executor))
  {
    hide Configured, Grounded, VerifyAuthorization, DigestJson, BaselineBundle, IsBlank, PermitRefusal, Outcome, BareOutcome, OutcomeToSign,
      ValidateOutcome, StringField, ExecutorAllowed, AuthorizationColumnsOk;
    PermitPasses(env, db, gate, since, id, agent, at);
    OutcomeReads(env, id, db.permits.authorizations[id].actionId, executor);
    BaselineExecutes(env, gate, since, executor);
  }

  lemma ClearWorks(env: Env, db: Db, clock: u64, gate: string, o: Offered, at: u64)
    requires Honest(env) && env.crypto.isPublicKey(o.executorId)
    requires RegistryOk(env, db.registry, clock) && Grounded(db.registry) && Star(db.registry, gate) && clock < at
    requires o.executorId in db.registry.agents && Entry(db.registry.agents, o.executorId).tenantId == "*"
    requires Entry(db.registry.agents, o.executorId).metadata == NO_METADATA
    requires StringField(PermitOf(o.json), TENANT_ID).Some?
    requires Signature(o) == env.crypto.sign(o.executorId, TextBytes(Canonical.Text(OutcomeToSign(o.outcome))))
    ensures Next(env, db, Checked(o), at) == (db, Some(Cleared(o, at)))
  {
    hide RegistryOk, Grounded, VerifyAgentInner, StringField, OutcomeToSign, Canonical.Text, Signature, IdentityRefusal;
    StarActive(env, db.registry, clock, gate, o.executorId, at);
    ActiveExecutor(env, db, PermitOf(o.json), o.executorId, OutcomeToSign(o.outcome), Signature(o), at);
  }

  lemma ActiveExecutor(env: Env, db: Db, permit: Value, executorId: string, toSign: Value, signature: string, at: u64)
    requires Honest(env) && env.crypto.isPublicKey(executorId) && Grounded(db.registry)
    requires var r := VerifyAgentAt(env.crypto, db.registry, executorId, at);
      r.Ok? && Good(r).Some? && The(Good(r)).active && The(Good(r)).tenantId == "*" && The(Good(r)).metadata == NO_METADATA
    requires StringField(permit, TENANT_ID).Some? && signature == env.crypto.sign(executorId, TextBytes(Canonical.Text(toSign)))
    ensures IdentityRefusal(env, db, permit, executorId, toSign, signature, at).None?
  {
    hide Grounded, VerifyAgentInner, StringField, Canonical.Text;
    assert SignsCorrectly(env.crypto, executorId);
  }

  lemma ConfirmWorks(env: Env, db: Db, clock: u64, o: Offered, executorAt: u64, at: u64)
    requires RegistryOk(env, db.registry, clock) && Grounded(db.registry) && Star(db.registry, o.gate) && clock < at
    ensures Next(env, db, Cleared(o, executorAt), at) == (db, Some(Confirmed(o, executorAt)))
  {
    hide RegistryOk, Grounded, VerifyAgentInner, GateIdentity;
    StarActive(env, db.registry, clock, o.gate, o.gate, at);
  }

  lemma SealWorks(env: Env, db: Db, o: Offered, executorAt: u64, at: u64)
    requires Grounded(db.registry) && StringField(PermitOf(o.json), INTENT_HASH).Some?
    ensures var next := Next(env, db, Confirmed(o, executorAt), at);
      next.0 == db.(signed := next.0.signed) && next.1 == Some(Sealed(Completion(o, executorAt, at)))
  {
    hide Grounded, StringField, OutcomeOf, ExecutionBodyOf;
  }

  /** The write of the first outcome succeeds. */
  lemma CommitWorks(env: Env, db: Db, id: string, row: OutcomeRow, n: int)
    requires id in db.permits.authorizations && db.permits.outcomes == map[] && db.permits.outcomeByAction == map[] && db.permits.receipts == {}
    requires StringField(PermitOf(Entry(db.permits.authorizations, id).json), TENANT_ID) == Some("acme")
    requires Open(db.streams, "acme", n) && n < 1000 && row.receiptId !in Ids(db.streams, "acme")
    ensures var reply := FinishCommit(env, db, id, row);
      && reply.answer == Ok(row.json)
      && reply.db == db.(permits := reply.db.permits, streams := reply.db.streams)
      && reply.db.permits.outcomes == map[id := row] && reply.db.permits.revoked == db.permits.revoked
      && reply.db.permits.authorizations == db.permits.authorizations
  {
    hide Open, Ids, EventStream.RecordEvent, Canonical.Text, StringField;
    var (tenant, eventType) := OutcomeEvent(db, id, row);
    assert tenant == "acme";
    Publishes(env.crypto, db.streams, "acme", eventType, row.receiptId, Canonical.Text(row.json), row.completedAt, n);
  }
}
