/** Runs that end well, and runs that do not: an action completed, delegates that break their own keys, late
    calls that fork, lose or miss one, intents at the parser's limit. */
module Witnesses {
  import opened Prelude
  import opened Names
  import opened Json
  import opened Crypto
  import opened Identity
  import opened IdentityProofs
  import opened Gate
  import opened GateInv
  import opened GateRuns
  import opened Deployment
  import opened IdentityOps
  import opened Policy
  import opened Permits
  import opened PermitProofs
  import opened Stages
  import opened LifecycleRaces
  import opened Parser
  import opened ParserProofs
  import opened StoredTexts
  import Canonical
  import Interleaving
  import Ordering

  const FIRST: u64 := 1
  const SECOND: u64 := 2
  const THIRD: u64 := 3
  const FOURTH: u64 := 4

  const DELEGATE := Object(map[CAN_DELEGATE := Bool(true)])
  const DELEGATE_IN_A := Object(map[TENANT_ID := String("a"), CAN_DELEGATE := Bool(true)])
  const AGENT_IN_B := Object(map[TENANT_ID := String("b")])

  lemma MetadataRead()
    ensures Simple(DELEGATE) && TenantOf(DELEGATE) == "*" && MayDelegate(DELEGATE)
    ensures Simple(DELEGATE_IN_A) && TenantOf(DELEGATE_IN_A) == "a" && MayDelegate(DELEGATE_IN_A)
    ensures Simple(AGENT_IN_B) && TenantOf(AGENT_IN_B) == "b" && !MayDelegate(AGENT_IN_B)
    ensures Simple(NO_METADATA) && TenantOf(NO_METADATA) == "*" && !MayDelegate(NO_METADATA)
  {
    assert !IsBlank("a") by { assert !IsWhiteSpace("a"[0]); }
    assert !IsBlank("b") by { assert !IsWhiteSpace("b"[0]); }
    assert !IsBlank("*") by { assert !IsWhiteSpace("*"[0]); }
  }

  function RootRun(root: string): seq<Timed> {
    [Timed(RegisterRoot(root), FIRST)]
  }

  /** The root is up. */
  lemma RootUp(env: Env, root: string)
    requires Configured(env, root)
    requires DigestJson(env.crypto, BaselineBody(env, root, FIRST)) != DigestJson(env.crypto, RootEvent(env, root, FIRST))
    ensures Reached(env, RootRun(root)) && Clock(RootRun(root)) == FIRST && Site(env, State(env, RootRun(root)), root, FIRST)
    ensures var db := State(env, RootRun(root));
      && db.registry.agents.Keys == {root} && Entry(db.registry.agents, root).metadata == NO_METADATA && Open(db.streams, "*", 2)
      && Ids(db.streams, "*") == {DigestJson(env.crypto, BaselineBody(env, root, FIRST)), DigestJson(env.crypto, RootEvent(env, root, FIRST))}
      && forall tenant :: tenant != "*" ==> db.streams.Events(tenant) == []
  {
    hide Step, LegalRun, Site, DigestJson, BaselineBody, RootEvent, Open, Ids, Deployment.ProperSigner, Honest;
    RootRegistered(env, root, FIRST);
    StartLegal(env, root);
    assert [] + [Timed(RegisterRoot(root), FIRST)] == RootRun(root);
    ReachedNext(env, [], RegisterRoot(root), FIRST);
  }

  lemma StartLegal(env: Env, root: string)
    requires env.crypto.isPublicKey(root)
    ensures Reached(env, []) && Clock([]) == 0 && State(env, []) == Gate.EMPTY && Legal(env, Gate.EMPTY, RegisterRoot(root))
  {
    hide Step;
    assert Terminates(Gate.EMPTY.registry, map[]);
  }

  /** A further key is up. */
  lemma KeyUp(env: Env, run: seq<Timed>, root: string, key: string, metadata: Value, at: u64, n: int)
    requires Configured(env, root) && Reached(env, run) && Clock(run) < at && Site(env, State(env, run), root, FIRST)
    requires env.crypto.isPublicKey(key) && key !in State(env, run).registry.agents && Simple(metadata)
    requires Open(State(env, run).streams, TenantOf(metadata), n) && n < 1000
    requires DigestJson(env.crypto, KeyEvent(root, key, metadata, at)) !in Ids(State(env, run).streams, TenantOf(metadata))
    ensures var run' := run + [Timed(RegisterKey(root, key, metadata), at)];
      var db, db' := State(env, run), State(env, run');
      && Reached(env, run') && Clock(run') == at && Site(env, db', root, FIRST)
      && db'.registry.agents.Keys == db.registry.agents.Keys + {key}
      && Entry(db'.registry.agents, key).tenantId == TenantOf(metadata) && Entry(db'.registry.agents, key).canDelegate == MayDelegate(metadata)
      && Entry(db'.registry.agents, key).metadata == metadata && Entry(db'.registry.agents, key).keyVersion == 1
      && (forall k <- db.registry.agents.Keys :: Entry(db'.registry.agents, k) == Entry(db.registry.agents, k))
      && Open(db'.streams, TenantOf(metadata), n + 1)
      && Ids(db'.streams, TenantOf(metadata)) == Ids(db.streams, TenantOf(metadata)) + {DigestJson(env.crypto, KeyEvent(root, key, metadata, at))}
      && forall tenant :: tenant != TenantOf(metadata) ==> db'.streams.Events(tenant) == db.streams.Events(tenant)
  {
    hide Step, Reached, State, Site, DigestJson, KeyEvent, Open, Ids, Deployment.ProperSigner, Honest, Inv, RegistryOk, Grounded,
      RevocationOk, Simple, TenantOf, MayDelegate, Clock, PermitsOk, SuccessionsOk;
    ReachedInOrder(env, run);
    InvParts(env, State(env, run), Clock(run));
    KeyRegistered(env, State(env, run), Clock(run), root, FIRST, key, metadata, at, n);
    ReachedNext(env, run, RegisterKey(root, key, metadata), at);
  }

  // ---- A delegate retires its own registrar ----

  lemma ReasonGiven()
    ensures !IsBlank("left")
  {
    assert !IsWhiteSpace("left"[0]);
  }

  /** Any active delegator may revoke any other active key. */
  lemma RevocationAccepted(env: Env, reg: Registry, clock: u64, root: string, gate: string, key: string, now: u64)
    requires RegistryOk(env, reg, clock) && Grounded(reg) && Star(reg, root) && clock < now
    requires gate in reg.agents && key in reg.agents && gate != key && Entry(reg.agents, gate).canDelegate
    ensures RevokeAgent(env, reg, gate, key, "left", now).Ok?
  {
    hide RegistryOk, Grounded, VerifyAgentInner, DigestJson, RevocationOf, IsBlank, ChainLength, RetireRow, LifecycleRowFor;
    StarActive(env, reg, clock, root, gate, now);
    StarActive(env, reg, clock, root, key, now);
    ReasonGiven();
  }

  lemma DependsOnRoot(reg: Registry, root: string, key: string)
    requires Grounded(reg) && Star(reg, root) && key in reg.agents
    ensures DependsOn(reg, key, root)
    ensures forall other <- reg.agents.Keys :: other != root && other != key ==> !DependsOn(reg, key, other)
  {
    hide Grounded, Level, SignerOf;
    if key != root {
      RegistrarFalls(reg, key);
      assert DependsOn(reg, root, root);
    }
  }

  /** In a reached state a delegate may revoke the root that registered it: the call succeeds, and from
      then on the verification of keys does not end. */
  lemma DelegateRevokesRoot(env: Env, root: string, delegate: string)
    requires Configured(env, root) && env.crypto.isPublicKey(delegate) && delegate != root
    requires DigestJson(env.crypto, BaselineBody(env, root, FIRST)) != DigestJson(env.crypto, RootEvent(env, root, FIRST))
    requires DigestJson(env.crypto, KeyEvent(root, delegate, DELEGATE, SECOND)) !in
      {DigestJson(env.crypto, BaselineBody(env, root, FIRST)), DigestJson(env.crypto, RootEvent(env, root, FIRST))}
    ensures var run := RootRun(root) + [Timed(RegisterKey(root, delegate, DELEGATE), SECOND)];
      && Reached(env, run)
      && Grounded(State(env, run).registry)
      && RevokeAgent(env, State(env, run).registry, delegate, root, "left", THIRD).Ok?
      && !Grounded(Good(RevokeAgent(env, State(env, run).registry, delegate, root, "left", THIRD)))
  {
    hide Reached, State, BaselineBody, RootEvent, KeyEvent, DigestJson, Deployment.ProperSigner, Honest, Inv, RegistryOk, Grounded,
      RevocationOk, Simple, TenantOf, MayDelegate, Clock, Open, Ids, RevokeAgent, DependsOn, BaselineStore, RegisterRoot, RegisterKey;
    MetadataRead();
    RootUp(env, root);
    var run := RootRun(root) + [Timed(RegisterKey(root, delegate, DELEGATE), SECOND)];
    KeyUp(env, RootRun(root), root, delegate, DELEGATE, SECOND, 2);
    ReachedInOrder(env, run);
    InvParts(env, State(env, run), Clock(run));
    var reg := State(env, run).registry;
    RevocationAccepted(env, reg, Clock(run), root, delegate, root, THIRD);
    DependsOnRoot(reg, root, delegate);
    IdentityOps.RevocationTerminates(env, reg, Clock(run), delegate, root, "left", THIRD);
  }

  // ---- A revocation out of scope ----

  /** In a reached state a delegate of one tenant may revoke a key of another: the call succeeds, and
      from then on the key cannot be verified at any instant. */
  lemma DelegateRevokesOutOfScope(env: Env, root: string, delegate: string, key: string, at: u64)
    requires Configured(env, root) && env.crypto.isPublicKey(delegate) && env.crypto.isPublicKey(key)
    requires delegate != root && key != root && key != delegate
    requires DigestJson(env.crypto, BaselineBody(env, root, FIRST)) != DigestJson(env.crypto, RootEvent(env, root, FIRST))
    ensures var run := RootRun(root) + [Timed(RegisterKey(root, delegate, DELEGATE_IN_A), SECOND)] + [Timed(RegisterKey(root, key, AGENT_IN_B), THIRD)];
      && Reached(env, run)
      && Grounded(State(env, run).registry)
      && RevokeAgent(env, State(env, run).registry, delegate, key, "left", FOURTH).Ok?
      && var after := Good(RevokeAgent(env, State(env, run).registry, delegate, key, "left", FOURTH));
         Grounded(after) && VerifyAgentAt(env.crypto, after, key, at).Err?
  {
    hide Reached, State, BaselineBody, RootEvent, KeyEvent, DigestJson, Deployment.ProperSigner, Honest, Inv, RegistryOk, Grounded,
      RevocationOk, Simple, TenantOf, MayDelegate, Clock, RevokeAgent, DependsOn, BaselineStore, RegisterRoot, RegisterKey,
      VerifyAgentInner, PermitsOk, AuthorizationOk, SuccessionsOk;
    MetadataRead();
    RootUp(env, root);
    var run1 := RootRun(root) + [Timed(RegisterKey(root, delegate, DELEGATE_IN_A), SECOND)];
    KeyUp(env, RootRun(root), root, delegate, DELEGATE_IN_A, SECOND, 0);
    var run := run1 + [Timed(RegisterKey(root, key, AGENT_IN_B), THIRD)];
    KeyUp(env, run1, root, key, AGENT_IN_B, THIRD, 0);
    ReachedInOrder(env, run);
    InvParts(env, State(env, run), Clock(run));
    var reg := State(env, run).registry;
    RevocationAccepted(env, reg, Clock(run), root, delegate, key, FOURTH);
    DependsOnRoot(reg, root, delegate);
    IdentityOps.OutOfScopeRevocationBreaksHistory(env, reg, Clock(run), delegate, key, "left", FOURTH, key, at);
  }

  // ======== Runs that end well: an action allowed, and its outcome recorded.

  const FIFTH: u64 := 5

  /** The agent's signature over its intent. */
  function AgentSignature(env: Env, agent: string, at: u64, note: Value): string {
    env.crypto.sign(agent, TextBytes(Canonical.Text(Intent(agent, at, note))))
  }

  function AskCall(gate: string, agent: string, at: u64, note: Value, agentSignature: string): Call {
    RequestCall(gate, Some(Intent(agent, at, note)), agent, agentSignature, TTL)
  }

  /** The recipe of a request whose stages fall on the given instants. */
  ghost function RecipeFor(env: Env, reg: Registry, gate: string, agent: string, note: Value, agentSignature: string,
                     requestedAt: u64, gateAt: u64, issuedAt: u64, agentAt: u64): Recipe {
    var asked := Ask(gate, agent, requestedAt, note, agentSignature);
    Cooked(asked, gateAt, issuedAt, BaselineBundle(env, gate, FIRST), Evaluated(env, asked, FIRST), ClosedForm(reg, agent, agentAt), agentAt)
  }

  /** One permit is recorded, and nothing else about permits. */
  ghost predicate OnePermit(db: Db, id: string, row: AuthorizationRow) {
    && db.permits.authorizations == map[id := row]
    && db.permits.outcomes == map[] && db.permits.revoked == map[] && db.permits.outcomeByAction == map[] && db.permits.receipts == {}
    && Open(db.streams, "acme", 1) && Ids(db.streams, "acme") == {id}
  }

  // ---- A request in one go ----

  /** A request of any agent, with any note, is decided and recorded. */
  lemma RequestRecorded(env: Env, run: seq<Timed>, gate: string, agent: string, note: Value, agentSignature: string, at: u64)
    requires Configured(env, gate) && Reached(env, run) && Clock(run) < at <= 1_000_000 && Site(env, State(env, run), gate, FIRST)
    requires !IsBlank(agent) && State(env, run).streams.Events("acme") == []
    requires Grounded(State(env, run).registry)
    ensures var run' := run + [Timed(AskCall(gate, agent, at, note, agentSignature), at)];
      var (db, db') := (State(env, run), State(env, run'));
      var r := RecipeFor(env, db.registry, gate, agent, note, agentSignature, at, at, at, at);
      var (id, row) := RowOf(env, r);
      && Reached(env, run') && Clock(run') == at
      && db'.registry == db.registry && OnePermit(db', id, row)
  {
    hide Step, Reached, State, DigestJson, Honest, Inv, RegistryOk, Grounded, RevocationOk, Clock, BaselineStore, BaselineBundle,
      Configured, Plain, EvaluatePolicy, Intent, Star, Ids, PermitsOk;
    GateKnown(env, gate);
    ReachedInOrder(env, run);
    var db := State(env, run);
    InvParts(env, db, Clock(run));
    IntentReads(agent, at, note);
    RequestStep(env, db, Clock(run), gate, agent, note, agentSignature, at);
    RequestLegal(env, db, gate, agent, note, agentSignature, at);
    ReachedNext(env, run, AskCall(gate, agent, at, note, agentSignature), at);
  }

  lemma GateKnown(env: Env, gate: string)
    requires Configured(env, gate)
    ensures env.crypto.isPublicKey(gate) && Honest(env)
  {
    hide Honest, Deployment.ProperSigner;
  }

  lemma RequestLegal(env: Env, db: Db, gate: string, agent: string, note: Value, agentSignature: string, at: u64)
    requires Grounded(db.registry) && env.crypto.isPublicKey(gate)
    ensures Legal(env, db, AskCall(gate, agent, at, note, agentSignature))
  {
    hide Grounded, Intent;
  }

  lemma RequestStep(env: Env, db: Db, clock: u64, gate: string, agent: string, note: Value, agentSignature: string, at: u64)
    requires Configured(env, gate) && RegistryOk(env, db.registry, clock) && Grounded(db.registry) && Site(env, db, gate, FIRST)
    requires !IsBlank(agent) && db.streams.Events("acme") == [] && clock < at <= 1_000_000
    ensures var db' := Step(env, db, AskCall(gate, agent, at, note, agentSignature), at);
      var r := RecipeFor(env, db.registry, gate, agent, note, agentSignature, at, at, at, at);
      var (id, row) := RowOf(env, r);
      && db'.registry == db.registry && OnePermit(db', id, row)
  {
    hide RegistryOk, Grounded, Configured, IsBlank, Next, Seek, FinishRequest, BeginRequest, BaselineStore, BaselineBundle, Evaluated,
      RowOf, Intent, Star, Plain, ClosedForm, Register, Gate.Rotate, Gate.Revoke, InstallPolicy, Commit, EvaluatePolicy;
    var asked := Ask(gate, agent, at, note, agentSignature);
    var bundle, policy := BaselineBundle(env, gate, FIRST), Evaluated(env, asked, FIRST);
    IntentReads(agent, at, note);
    RequestStages(env, db, gate, Some(Intent(agent, at, note)), agent, agentSignature, TTL, at);
    SeekWorks(env, db, gate, agent, at, note, agentSignature);
    AdmitWorks(env, db, clock, asked, at);
    DateWorks(env, db, asked, FIRST, at, at);
    var db1 := Next(env, db, Admitted(asked, at), at).0;
    DraftWorks(env, db1, clock, asked, at, at, bundle, policy, at);
    var db2 := Next(env, db1, Dated(asked, at, at, bundle, policy), at).0;
    var r := RecipeFor(env, db.registry, gate, agent, note, agentSignature, at, at, at, at);
    RowTenant(env, r);
    WriteWorks(env, db2, RowOf(env, r).0, RowOf(env, r).1, 0);
  }

  lemma RowTenant(env: Env, r: Recipe)
    ensures RowOf(env, r).1.tenantId == r.asked.fields.tenantId
  {
    hide DecisionOf, DigestJson, Receipt, AuthorizationBody, StringField, AuthorizationResult;
  }

  // ---- A commit in one go ----

  /** The commit of an outcome by another key goes through. */
  lemma CommitStep(env: Env, db: Db, clock: u64, gate: string, id: string, agent: string, executor: string, at: u64)
    requires Configured(env, gate) && RegistryOk(env, db.registry, clock) && Grounded(db.registry) && Star(db.registry, gate) && clock < at
    requires env.crypto.isPublicKey(executor) && executor != agent && executor in db.registry.agents
    requires db.registry.agents[executor].tenantId == "*" && db.registry.agents[executor].metadata == NO_METADATA
    requires Usable(env, db, gate, FIRST, id, agent, at) && OnePermit(db, id, db.permits.authorizations[id])
    requires OutcomeOf(env, Completion(OfferOf(env, db, gate, id, executor), at, at)).receiptId != id
    ensures var db' := Step(env, db, CommitCall(gate, id, Some(OfferOf(env, db, gate, id, executor).outcome)), at);
      && db'.permits.outcomes == map[id := OutcomeOf(env, Completion(OfferOf(env, db, gate, id, executor), at, at))]
      && db'.permits.authorizations == db.permits.authorizations
  {
    hide RegistryOk, Grounded, Deployment.ProperSigner, IsBlank, Next, Offer, FinishCommit, BeginCommit, Star, Register, Gate.Rotate,
      Gate.Revoke, InstallPolicy, Request, Outcome, OutcomeOf, Honest, VerifyAuthorization, AuthorizationColumnsOk, BaselineBundle,
      StringField, PermitRefusal, OutcomeToSign, Open, Ids, Canonical.Text, ValidateOutcome;
    NotBlankKey(env, executor);
    var o := OfferOf(env, db, gate, id, executor);
    CommitStages(env, db, gate, id, Some(o.outcome), at);
    OfferWorks(env, db, gate, FIRST, id, agent, executor, at);
    PermitPasses(env, db, gate, FIRST, id, agent, at);
    OutcomeReads(env, id, db.permits.authorizations[id].actionId, executor);
    ClearWorks(env, db, clock, gate, o, at);
    ConfirmWorks(env, db, clock, o, at, at);
    SealWorks(env, db, o, at, at);
    var db1 := Next(env, db, Confirmed(o, at), at).0;
    CommitWorks(env, db1, id, OutcomeOf(env, Completion(o, at, at)), 1);
  }

  lemma NotBlankKey(env: Env, key: string)
    requires Honest(env) && env.crypto.isPublicKey(key)
    ensures !IsBlank(key)
  {}

  // ---- One action, from its request to its outcome ----

  /** The keys of the deployment, and the digests it publishes. */
  ghost predicate Cast(env: Env, root: string, agent: string, executor: string) {
    && Configured(env, root) && env.crypto.isPublicKey(agent) && env.crypto.isPublicKey(executor)
    && root != agent && root != executor && agent != executor
    && var baseline := DigestJson(env.crypto, BaselineBody(env, root, FIRST));
       var first := DigestJson(env.crypto, RootEvent(env, root, FIRST));
       var second := DigestJson(env.crypto, KeyEvent(root, agent, NO_METADATA, SECOND));
       var third := DigestJson(env.crypto, KeyEvent(root, executor, NO_METADATA, THIRD));
       first != baseline && second !in {baseline, first} && third !in {baseline, first, second}
  }

  function CastRun(root: string, agent: string, executor: string): seq<Timed> {
    RootRun(root) + [Timed(RegisterKey(root, agent, NO_METADATA), SECOND)] + [Timed(RegisterKey(root, executor, NO_METADATA), THIRD)]
  }

  /** The three keys are up. */
  lemma CastUp(env: Env, root: string, agent: string, executor: string)
    requires Cast(env, root, agent, executor)
    ensures var run := CastRun(root, agent, executor);
      && Reached(env, run) && Clock(run) == THIRD && Site(env, State(env, run), root, FIRST)
      && State(env, run).streams.Events("acme") == []
      && KnownAs(State(env, run).registry, agent) && KnownAs(State(env, run).registry, executor)
  {
    hide Reached, State, Site, BaselineBody, RootEvent, KeyEvent, DigestJson, Configured, Honest, Simple, TenantOf, MayDelegate, Clock,
      Open, RegisterRoot, RegisterKey, Ids;
    MetadataRead();
    RootUp(env, root);
    var run1 := RootRun(root) + [Timed(RegisterKey(root, agent, NO_METADATA), SECOND)];
    KeyUp(env, RootRun(root), root, agent, NO_METADATA, SECOND, 2);
    KeyUp(env, run1, root, executor, NO_METADATA, THIRD, 3);
  }

  /** A key without metadata. */
  predicate KnownAs(reg: Registry, key: string) {
    key in reg.agents && reg.agents[key].tenantId == "*" && reg.agents[key].metadata == NO_METADATA && !reg.agents[key].canDelegate
  }

  /** Who an active key without metadata of its own identity is found to be. */
  function Plainly(key: string): AgentState {
    AgentState(true, false, "*", key, NO_METADATA)
  }

  lemma FoundPlainly(env: Env, reg: Registry, clock: u64, gate: string, key: string, at: u64)
    requires RegistryOk(env, reg, clock) && Grounded(reg) && Star(reg, gate) && KnownAs(reg, key) && clock < at
    ensures ClosedForm(reg, key, at) == Some(Plainly(key))
  {
    hide RegistryOk, Grounded, VerifyAgentInner, ChainLength;
    StarActive(env, reg, clock, gate, key, at);
    VerifyIsClosedForm(env, reg, clock, key, at);
  }

  /** The recipe of the agent's request, whose stages fall on the given instants. */
  function AllowedRecipe(env: Env, root: string, agent: string, gateAt: u64, issuedAt: u64, agentAt: u64): Recipe {
    var asked := Ask(root, agent, issuedAt, Null, AgentSignature(env, agent, issuedAt, Null));
    Cooked(asked, gateAt, issuedAt, BaselineBundle(env, root, FIRST), Evaluated(env, asked, FIRST), Some(Plainly(agent)), agentAt)
  }

  /** What a permit made from a recipe says. */
  lemma PermitReads(env: Env, r: Recipe)
    requires Honest(env) && AskedOk(env, r.asked)
    ensures var (id, row) := RowOf(env, r);
      && AuthorizationColumnsOk(env.crypto, id, row)
      && row.agentId == r.asked.fields.agentId && row.tenantId == r.asked.fields.tenantId && row.expiresAt == r.expiresAt
      && row.decision == DecisionOf(env, r).decision && row.json.Get(POLICY_BUNDLE) == Some(r.bundle) && row.json.Get(INTENT) == Some(r.asked.intent)
      && !IsBlank(id) && !IsBlank(row.actionId) && !IsBlank(row.intentHash)
  {
    hide AuthorizationColumnsOk, ValidateIntent, BodyOf, DecisionOf, DigestJson, Receipt, AuthorizationBody, StringField, ActionText,
      IsBlank, DraftReceipt, DeclaresBody, AuthorizationResult;
    var asked := r.asked;
    Interleaving.RecipeColumns(env, r);
    RowTenant(env, r);
    DraftReadsBack(env, asked.fields, asked.intent, asked.agentSignature, asked.gate, r.bundle, r.policy, DecisionOf(env, r), r.issuedAt, r.expiresAt);
    var body := DraftReceipt(env, asked.fields, asked.intent, asked.gate, r.bundle, r.policy, DecisionOf(env, r), r.issuedAt, r.expiresAt);
    ResultReadsBack(Receipt(env.crypto, body, AUTHORIZATION_ID, asked.gate), asked.intent, asked.agentSignature, r.bundle);
    IdentityOps.JsonDigestNotBlank(env.crypto, body);
    IdentityOps.JsonDigestNotBlank(env.crypto, asked.intent);
    DigestNotBlank(env.crypto, ActionText(asked.fields.tenantId, asked.fields.agentId, asked.fields.idempotencyKey));
  }

  /** The permit of the agent's request is allowed. */
  lemma RecipeAllowed(env: Env, root: string, agent: string, gateAt: u64, issuedAt: u64, agentAt: u64)
    requires Configured(env, root) && env.crypto.isPublicKey(agent) && issuedAt <= 1_000_000
    ensures var r := AllowedRecipe(env, root, agent, gateAt, issuedAt, agentAt);
      && AskedOk(env, r.asked) && SignatureValid(env, r.asked) && DecisionOf(env, r).decision == ALLOWED
      && r.policy == Evaluated(env, r.asked, FIRST) && Plain(r.asked.intent)
  {
    hide Deployment.ProperSigner, Intent, ValidateIntent, BaselineBundle, EvaluatePolicy, IsBlank, Canonical.Text, Plain, DecisionOf;
    NotBlankKey(env, agent);
    IntentReads(agent, issuedAt, Null);
    var r := AllowedRecipe(env, root, agent, gateAt, issuedAt, agentAt);
    BaselineAllows(env, root, FIRST, r.asked.intent, TTL);
    SignedIntent(env, agent, issuedAt);
    RecipeAllows(env, r);
  }

  lemma SignedIntent(env: Env, agent: string, at: u64)
    requires Honest(env) && env.crypto.isPublicKey(agent)
    ensures env.crypto.verifies(agent, TextBytes(Canonical.Text(Intent(agent, at, Null))), AgentSignature(env, agent, at, Null))
  {
    hide Intent, Canonical.Text;
    assert SignsCorrectly(env.crypto, agent);
  }

  /** The executor's commit for the permit of a recipe, whose stages fall on the given instants. */
  function CompletionFor(env: Env, root: string, r: Recipe, executor: string, executorAt: u64, completedAt: u64): Completion {
    var (id, row) := RowOf(env, r);
    Completion(Offered(root, id, row.json, Outcome(env, id, row.actionId, executor), executor, "SUCCEEDED"), executorAt, completedAt)
  }

  function WorkRun(env: Env, root: string, agent: string, executor: string): seq<Timed> {
    var r := AllowedRecipe(env, root, agent, FOURTH, FOURTH, FOURTH);
    CastRun(root, agent, executor)
      + [Timed(AskCall(root, agent, FOURTH, Null, AgentSignature(env, agent, FOURTH, Null)), FOURTH)]
      + [Timed(CommitCall(root, RowOf(env, r).0, Some(CompletionFor(env, root, r, executor, FIFTH, FIFTH).offered.outcome)), FIFTH)]
  }

  lemma CastNames(env: Env, root: string, agent: string, executor: string)
    requires Cast(env, root, agent, executor)
    ensures Configured(env, root) && Honest(env) && env.crypto.isPublicKey(root) && env.crypto.isPublicKey(agent) && env.crypto.isPublicKey(executor)
    ensures root != agent && root != executor && agent != executor && !IsBlank(agent) && !IsBlank(executor)
  {
    hide Deployment.ProperSigner, DigestJson, IsBlank, BaselineBody, RootEvent, KeyEvent;
    NotBlankKey(env, agent);
    NotBlankKey(env, executor);
  }

  /** The agent's request is allowed and recorded. */
  lemma ActionAllowed(env: Env, root: string, agent: string, executor: string)
    requires Cast(env, root, agent, executor)
    ensures var r := AllowedRecipe(env, root, agent, FOURTH, FOURTH, FOURTH);
      var run := CastRun(root, agent, executor) + [Timed(AskCall(root, agent, FOURTH, Null, AgentSignature(env, agent, FOURTH, Null)), FOURTH)];
      && Reached(env, run) && Clock(run) == FOURTH
      && State(env, run).registry == State(env, CastRun(root, agent, executor)).registry
      && OnePermit(State(env, run), RowOf(env, r).0, RowOf(env, r).1)
  {
    hide Reached, State, Site, DigestJson, Configured, Honest, Inv, RegistryOk, Grounded, RevocationOk, Clock, Intent, Star, BaselineStore,
      OnePermit, RowOf, CastRun, Cast, AgentSignature, Evaluated, BaselineBundle, KnownAs, ClosedForm, PermitsOk;
    CastNames(env, root, agent, executor);
    CastUp(env, root, agent, executor);
    var run := CastRun(root, agent, executor);
    ReachedInOrder(env, run);
    InvParts(env, State(env, run), Clock(run));
    SiteIsStar(env, State(env, run), root);
    FoundPlainly(env, State(env, run).registry, Clock(run), root, agent, FOURTH);
    RequestRecorded(env, run, root, agent, Null, AgentSignature(env, agent, FOURTH, Null), FOURTH);
  }

  lemma SiteIsStar(env: Env, db: Db, root: string)
    requires Site(env, db, root, FIRST)
    ensures Star(db.registry, root)
  {
    hide Star, BaselineStore;
  }

  /** One action from its request to its outcome: the run is legal, the request is allowed, and the
      outcome is recorded. */
  lemma ActionCompleted(env: Env, root: string, agent: string, executor: string)
    requires Cast(env, root, agent, executor)
    requires var r := AllowedRecipe(env, root, agent, FOURTH, FOURTH, FOURTH);
      OutcomeOf(env, CompletionFor(env, root, r, executor, FIFTH, FIFTH)).receiptId != RowOf(env, r).0
    ensures var run := WorkRun(env, root, agent, executor);
      var r := AllowedRecipe(env, root, agent, FOURTH, FOURTH, FOURTH);
      var (id, row) := RowOf(env, r);
      && Reached(env, run) && row.decision == ALLOWED
      && id in State(env, run).permits.authorizations && Entry(State(env, run).permits.authorizations, id) == row
      && State(env, run).permits.outcomes == map[id := OutcomeOf(env, CompletionFor(env, root, r, executor, FIFTH, FIFTH))]
  {
    hide Reached, State, Site, DigestJson, Configured, Honest, Inv, RegistryOk, Grounded, RevocationOk, Clock, Intent, Star, OnePermit,
      RowOf, OutcomeOf, Step, CastRun, Cast, AgentSignature, Evaluated, BaselineBundle, KnownAs, AllowedRecipe, Usable, PermitsOk, Outcome;
    var r := AllowedRecipe(env, root, agent, FOURTH, FOURTH, FOURTH);
    var (id, row) := RowOf(env, r);
    var run := CastRun(root, agent, executor) + [Timed(AskCall(root, agent, FOURTH, Null, AgentSignature(env, agent, FOURTH, Null)), FOURTH)];
    CastNames(env, root, agent, executor);
    CastUp(env, root, agent, executor);
    ActionAllowed(env, root, agent, executor);
    ReachedInOrder(env, run);
    var db := State(env, run);
    InvParts(env, db, Clock(run));
    SiteIsStar(env, State(env, CastRun(root, agent, executor)), root);
    PermitUsable(env, db, Clock(run), root, agent);
    PermitThere(db, id, row);
    KnownMeans(db.registry, executor);
    CommitStep(env, db, Clock(run), root, id, agent, executor, FIFTH);
    var call := CommitCall(root, id, Some(CompletionFor(env, root, r, executor, FIFTH, FIFTH).offered.outcome));
    CommitLegal(env, db, root, id, CompletionFor(env, root, r, executor, FIFTH, FIFTH).offered.outcome);
    ReachedNext(env, run, call, FIFTH);
  }

  lemma CommitLegal(env: Env, db: Db, gate: string, id: string, outcome: Value)
    requires Grounded(db.registry) && env.crypto.isPublicKey(gate)
    ensures Legal(env, db, CommitCall(gate, id, Some(outcome)))
  {
    hide Grounded;
  }

  lemma PermitUsable(env: Env, db: Db, clock: u64, root: string, agent: string)
    requires Configured(env, root) && env.crypto.isPublicKey(agent) && Grounded(db.registry) && PermitsOk(env, db.registry, db.permits, clock)
    requires var r := AllowedRecipe(env, root, agent, FOURTH, FOURTH, FOURTH); OnePermit(db, RowOf(env, r).0, RowOf(env, r).1)
    ensures var r := AllowedRecipe(env, root, agent, FOURTH, FOURTH, FOURTH);
      Usable(env, db, root, FIRST, RowOf(env, r).0, agent, FIFTH) && RowOf(env, r).1.decision == ALLOWED
  {
    hide Deployment.ProperSigner, Honest, Grounded, RowOf, DecisionOf, AuthorizationColumnsOk, VerifyAuthorization, IsBlank, BaselineBundle,
      Evaluated, Intent, IndexesOk, OutcomeOk, AgentSignature, IssuedAt, Open, Ids, AskedOk, SignatureValid, Plain;
    var r := AllowedRecipe(env, root, agent, FOURTH, FOURTH, FOURTH);
    var (id, row) := RowOf(env, r);
    RecipeAllowed(env, root, agent, FOURTH, FOURTH, FOURTH);
    PermitReads(env, r);
    NotBlankKey(env, agent);
    assert AuthorizationOk(env, db.registry, clock, id, db.permits.authorizations[id]);
  }

  lemma PermitThere(db: Db, id: string, row: AuthorizationRow)
    requires OnePermit(db, id, row)
    ensures id in db.permits.authorizations && db.permits.authorizations[id] == row
  {
    hide Open, Ids;
  }

  lemma KnownMeans(reg: Registry, key: string)
    requires KnownAs(reg, key)
    ensures key in reg.agents && reg.agents[key].tenantId == "*" && reg.agents[key].metadata == NO_METADATA
  {}

  // ======== Late rotations and revocations that do happen: an identity with two keys at a time, and one that
  //          outlives its revocation.

  function KeyRun(root: string, key: string): seq<Timed> {
    RootRun(root) + [Timed(RegisterKey(root, key, NO_METADATA), SECOND)]
  }

  /** The digests of what a root and a key publish differ. */
  ghost predicate Apart(env: Env, root: string, key: string) {
    && DigestJson(env.crypto, BaselineBody(env, root, FIRST)) != DigestJson(env.crypto, RootEvent(env, root, FIRST))
    && DigestJson(env.crypto, KeyEvent(root, key, NO_METADATA, SECOND)) !in
         {DigestJson(env.crypto, BaselineBody(env, root, FIRST)), DigestJson(env.crypto, RootEvent(env, root, FIRST))}
  }

  /** A root and a key it registered. */
  ghost predicate Pair(env: Env, reg: Registry, root: string, key: string) {
    && RegistryOk(env, reg, SECOND) && Grounded(reg) && Star(reg, root) && reg.agents.Keys == {root, key} && root != key
    && Entry(reg.agents, key).keyVersion == 1 && Entry(reg.agents, key).tenantId == "*" && IdentityOps.SuccessionsOk(reg)
  }

  lemma PairUp(env: Env, root: string, key: string)
    requires Configured(env, root) && env.crypto.isPublicKey(key) && key != root && Apart(env, root, key)
    ensures Reached(env, KeyRun(root, key)) && Pair(env, State(env, KeyRun(root, key)).registry, root, key)
  {
    hide Reached, State, BaselineBody, RootEvent, KeyEvent, DigestJson, Deployment.ProperSigner, Honest, Inv, RegistryOk, Grounded,
      GateRuns.RevocationOk, Simple, TenantOf, MayDelegate, Clock, Open, Ids, BaselineStore, RegisterRoot, RegisterKey, Star,
      IdentityOps.SuccessionsOk, PermitsOk, HistoryOk, IsBlank;
    MetadataRead();
    RootUp(env, root);
    KeyUp(env, RootRun(root), root, key, NO_METADATA, SECOND, 2);
    ReachedInOrder(env, KeyRun(root, key));
    InvParts(env, State(env, KeyRun(root, key)), Clock(KeyRun(root, key)));
  }

  /** The root may rotate the key. */
  lemma RotationAccepted(env: Env, reg: Registry, root: string, key: string, newKey: string, now: u64)
    requires Pair(env, reg, root, key) && env.crypto.isPublicKey(newKey) && newKey !in {root, key} && SECOND < now
    ensures Grounded(reg) && RotationFault(env, reg, root, key, newKey, now).None?
    ensures RotateAgent(env, reg, root, key, newKey, now).Ok?
    ensures key in reg.agents && !DependsOn(reg, root, Entry(reg.agents, key).identityId)
  {
    hide RegistryOk, Grounded, VerifyAgentInner, DigestJson, RotationOf, IsBlank, ChainLength, RetireRow, RotatedRegistration, NewAgentRow,
      LifecycleRowFor, IdentityOps.SuccessionsOk;
    StarActive(env, reg, SECOND, root, root, now);
    StarActive(env, reg, SECOND, root, key, now);
    DependsOnRoot(reg, root, root);
    assert !HasLifecycleEvent(reg, DigestJson(env.crypto, RotationOf(env, reg.agents[key], root, key, newKey, now)));
  }

  /** What a rotation of the key leaves. */
  lemma RotatedPair(env: Env, reg: Registry, root: string, key: string, newKey: string, now: u64)
    requires Honest(env) && env.crypto.isPublicKey(root)
    requires Pair(env, reg, root, key) && env.crypto.isPublicKey(newKey) && newKey !in {root, key} && SECOND < now
    ensures Grounded(reg) && RotateAgent(env, reg, root, key, newKey, now).Ok?
    ensures var reg' := Good(RotateAgent(env, reg, root, key, newKey, now));
      && WentOn(env, reg, SECOND, reg', now) && Grounded(reg')
      && reg'.agents.Keys == {root, key, newKey} && Entry(reg'.agents, key).status == Rotated && Entry(reg'.agents, key).validUntil == Some(now)
      && Entry(reg'.agents, newKey).status == Active
      && Entry(reg'.agents, newKey).identityId == Entry(reg.agents, key).identityId && Entry(reg'.agents, newKey).registeredBy == root
      && Entry(reg'.agents, newKey).validFrom == now && Entry(reg'.agents, newKey).validUntil.None?
      && Entry(reg'.agents, root) == Entry(reg.agents, root) && Entry(reg'.agents, key).registeredBy == root
      && Entry(reg'.agents, key).identityId == Entry(reg.agents, key).identityId
      && (forall row <- reg'.lifecycle :: row.identityId == Entry(reg.agents, key).identityId
            && row.eventId == DigestJson(env.crypto, RotationOf(env, Entry(reg.agents, key), root, key, newKey, now)))
  {
    hide RegistryOk, Grounded, RotationFault, DigestJson, RotationOf, RotatedRegistration, Evolves, IdentityOps.SuccessionsOk, DependsOn,
      Honest;
    RotationAccepted(env, reg, root, key, newKey, now);
    RotateKeepsRegistry(env, reg, SECOND, root, key, newKey, now);
    RegistryGrounded(env, RotateAgent(env, reg, root, key, newKey, now).value, now);
  }

  /** The events signed to rotate and to revoke the key. */
  function RotationDoc(env: Env, root: string, key: string, newKey: string, at: u64): Value {
    RotationEvent(key, "*", key, newKey, 1, 2, at, env.signerFor(root))
  }

  function RevocationDoc(env: Env, root: string, key: string, at: u64): Value {
    RevocationEvent(key, "*", key, at, "left", env.signerFor(root))
  }

  lemma DocsSigned(env: Env, reg: Registry, root: string, key: string, newKey: string, at: u64)
    requires Pair(env, reg, root, key)
    ensures key in reg.agents && Entry(reg.agents, key).keyVersion < U64_MAX && Entry(reg.agents, key).identityId == key
    ensures RotationOf(env, Entry(reg.agents, key), root, key, newKey, at) == RotationDoc(env, root, key, newKey, at)
    ensures RevocationOf(env, Entry(reg.agents, key), root, key, "left", at) == RevocationDoc(env, root, key, at)
  {
    hide RegistryOk, Grounded, IdentityOps.SuccessionsOk, RotationEvent, RevocationEvent;
  }

  /** A key the root registered itself is within reach. */
  lemma NearRoot(reg: Registry, root: string, key: string)
    requires Grounded(reg) && root in reg.agents && reg.agents[root].registeredBy == root && key in reg.agents && reg.agents[key].registeredBy == root
    ensures ChainLength(reg, key) <= LONGEST_CHAIN
  {
    hide Grounded;
    assert ChainLength(reg, root) == 1;
  }

  lemma ActiveNow(reg: Registry, root: string, key: string, from: u64, now: u64)
    requires Grounded(reg) && root in reg.agents && reg.agents[root].registeredBy == root && key in reg.agents && reg.agents[key].registeredBy == root
    requires reg.agents[key].validFrom == from <= now && reg.agents[key].validUntil.None?
    ensures ActiveAt(reg, key, now)
  {
    hide Grounded, ChainLength;
    NearRoot(reg, root, key);
  }

  /** Two rotations of one key read the same keys and write one after the other: the second succeeds, the
      keys stay in order, and both new keys are active from then on as the same identity. */
  lemma TwoKeysAtATime(env: Env, root: string, key: string, first: string, second: string, now: u64) returns (reg1: Registry, reg2: Registry)
    requires Configured(env, root) && env.crypto.isPublicKey(key) && env.crypto.isPublicKey(first) && env.crypto.isPublicKey(second)
    requires root != key && first !in {root, key} && second !in {root, key, first} && Apart(env, root, key)
    requires DigestJson(env.crypto, RotationDoc(env, root, key, first, THIRD)) != DigestJson(env.crypto, RotationDoc(env, root, key, second, FOURTH))
    requires FOURTH <= now
    ensures Reached(env, KeyRun(root, key))
    ensures var reg := State(env, KeyRun(root, key)).registry;
      && Grounded(reg) && RotateAgent(env, reg, root, key, first, THIRD) == Ok(reg1)
      && LateRotation(env, reg, reg1, root, key, second, FOURTH) == Ok(reg2)
    ensures RegistryOk(env, reg2, FOURTH) && Grounded(reg2) && ActiveAt(reg2, first, now) && ActiveAt(reg2, second, now)
    ensures Entry(reg2.agents, first).identityId == Entry(reg2.agents, second).identityId
  {
    hide Reached, State, KeyRun, Apart, Deployment.ProperSigner, Honest, RegistryOk, Grounded, DigestJson, RotateAgent, RotationDoc,
      Evolves, Pair, DependsOn, RotationOf, RotationFault, WentOn, ActiveAt, RetireRow, RotatedRegistration, Lasts, NothingSince;
    PairUp(env, root, key);
    var reg := State(env, KeyRun(root, key)).registry;
    PairMeans(env, reg, root, key);
    RotatedPair(env, reg, root, key, first, THIRD);
    reg1 := RotateAgent(env, reg, root, key, first, THIRD).value;
    DocsSigned(env, reg, root, key, first, THIRD);
    SecondRotation(env, reg, reg1, root, key, first, THIRD, second, FOURTH);
    reg2 := LateRotation(env, reg, reg1, root, key, second, FOURTH).value;
    RootStays(reg1, root, key);
    LateRotationKeepsExactly(env, reg, SECOND, reg1, THIRD, root, key, second, FOURTH, FOURTH);
    RegistryGrounded(env, reg2, FOURTH);
    ActiveNow(reg2, root, first, THIRD, now);
    ActiveNow(reg2, root, second, FOURTH, now);
  }

  lemma PairMeans(env: Env, reg: Registry, root: string, key: string)
    requires Pair(env, reg, root, key)
    ensures RegistryOk(env, reg, SECOND) && Grounded(reg) && reg.agents.Keys == {root, key} && root in reg.agents && Entry(reg.agents, root).registeredBy == root
    ensures Entry(reg.agents, root).validUntil.None? && Entry(reg.agents, root).identityId == root
    ensures IdentityOps.SuccessionsOk(reg)
  {
    hide AgentOk, EventOk, Grounded, IdentityOps.SuccessionsOk;
    ActiveNotEnded(env, reg, SECOND, root);
  }

  /** A root whose identity has no lifecycle events lasts, and depends on no other. */
  lemma RootStays(reg: Registry, root: string, identityId: string)
    requires Grounded(reg) && root in reg.agents && reg.agents[root].registeredBy == root && reg.agents[root].identityId != identityId
    requires reg.agents[root].validUntil.None? && forall row <- reg.lifecycle :: row.identityId != reg.agents[root].identityId
    ensures !DependsOn(reg, root, identityId) && forall at: u64 {:trigger Lasts(reg, root, at)} :: Lasts(reg, root, at)
  {
    hide Grounded, SignerOf, Level;
  }

  lemma SecondRotation(env: Env, reg: Registry, reg1: Registry, root: string, key: string, first: string, at: u64, second: string, late: u64)
    requires Pair(env, reg, root, key) && env.crypto.isPublicKey(second) && second !in {root, key, first} && SECOND < late
    requires reg1.agents.Keys == {root, key, first}
    requires forall row <- reg1.lifecycle :: row.eventId == DigestJson(env.crypto, RotationDoc(env, root, key, first, at))
    requires DigestJson(env.crypto, RotationDoc(env, root, key, first, at)) != DigestJson(env.crypto, RotationDoc(env, root, key, second, late))
    ensures Grounded(reg) && RotationFault(env, reg, root, key, second, late).None?
    ensures LateRotation(env, reg, reg1, root, key, second, late).Ok?
  {
    hide Pair, DigestJson, RotationDoc, RotationFault, RotationOf, Grounded, RotatedRegistration, DependsOn, RotateAgent;
    RotationAccepted(env, reg, root, key, second, late);
    DocsSigned(env, reg, root, key, second, late);
    RotationReads(env, reg, root, key, second, late);
  }

  lemma RotationReads(env: Env, reg: Registry, root: string, key: string, newKey: string, at: u64)
    requires key in reg.agents && reg.agents[key].keyVersion < U64_MAX
    ensures RotationRow(env, reg.agents[key], root, key, newKey, at).eventId == DigestJson(env.crypto, RotationOf(env, reg.agents[key], root, key, newKey, at))
  {
    hide DigestJson, RotationOf;
  }

  /** Two rotations of one key read the same keys, and the one dated first writes last: it succeeds, and the
      key, found active at THIRD while one rotation was written, verifies at no instant any more. */
  lemma KeyLost(env: Env, root: string, key: string, first: string, second: string, t: u64) returns (reg1: Registry, reg2: Registry)
    requires Configured(env, root) && env.crypto.isPublicKey(key) && env.crypto.isPublicKey(first) && env.crypto.isPublicKey(second)
    requires root != key && first !in {root, key} && second !in {root, key, first} && Apart(env, root, key)
    requires DigestJson(env.crypto, RotationDoc(env, root, key, first, FOURTH)) != DigestJson(env.crypto, RotationDoc(env, root, key, second, THIRD))
    ensures Reached(env, KeyRun(root, key))
    ensures var reg := State(env, KeyRun(root, key)).registry;
      && Grounded(reg) && RotateAgent(env, reg, root, key, first, FOURTH) == Ok(reg1)
      && LateRotation(env, reg, reg1, root, key, second, THIRD) == Ok(reg2)
    ensures RegistryOk(env, reg1, FOURTH) && ActiveAt(reg1, key, THIRD)
    ensures !Trusted(VerifyAgentAt(env.crypto, reg2, key, t))
  {
    hide Reached, State, KeyRun, Apart, Deployment.ProperSigner, Honest, RegistryOk, Grounded, DigestJson, RotateAgent, RotationDoc,
      Evolves, Pair, DependsOn, RotationOf, RotationFault, ActiveAt, RetireRow, RotatedRegistration, VerifyAgentInner;
    PairUp(env, root, key);
    var reg := State(env, KeyRun(root, key)).registry;
    PairMeans(env, reg, root, key);
    RotatedPair(env, reg, root, key, first, FOURTH);
    reg1 := RotateAgent(env, reg, root, key, first, FOURTH).value;
    DocsSigned(env, reg, root, key, first, FOURTH);
    SecondRotation(env, reg, reg1, root, key, first, FOURTH, second, THIRD);
    reg2 := LateRotation(env, reg, reg1, root, key, second, THIRD).value;
    LateRotationLoses(env, reg, SECOND, reg1, FOURTH, root, key, second, THIRD, t);
    ActiveBefore(env, reg, reg1, root, key);
  }

  lemma ActiveBefore(env: Env, reg: Registry, reg1: Registry, root: string, key: string)
    requires Pair(env, reg, root, key) && WentOn(env, reg, SECOND, reg1, FOURTH) && Grounded(reg1) && root in reg1.agents && key in reg1.agents
    requires Entry(reg1.agents, root).registeredBy == root && Entry(reg1.agents, key).registeredBy == root
    requires Entry(reg1.agents, key).validUntil == Some(FOURTH)
    ensures RegistryOk(env, reg1, FOURTH) && ActiveAt(reg1, key, THIRD)
  {
    hide AgentOk, EventOk, Grounded, ChainLength, IdentityOps.SuccessionsOk, Star, Evolves, SameOrigin;
    NearRoot(reg1, root, key);
    SameStart(reg, reg1, SECOND, key);
    AgentWindow(env, reg, SECOND, key);
  }

  /** A revocation reads the keys before a rotation of its key and writes after it: it succeeds, the keys
      stay in order, and the identity goes on with the new key. */
  lemma RevokedAndAlive(env: Env, root: string, key: string, first: string, now: u64) returns (reg1: Registry, reg2: Registry)
    requires Configured(env, root) && env.crypto.isPublicKey(key) && env.crypto.isPublicKey(first)
    requires root != key && first !in {root, key} && Apart(env, root, key)
    requires DigestJson(env.crypto, RotationDoc(env, root, key, first, THIRD)) != DigestJson(env.crypto, RevocationDoc(env, root, key, FOURTH))
    requires FOURTH <= now
    ensures Reached(env, KeyRun(root, key))
    ensures var reg := State(env, KeyRun(root, key)).registry;
      && Grounded(reg) && RotateAgent(env, reg, root, key, first, THIRD) == Ok(reg1)
      && LateRevocation(env, reg, reg1, root, key, "left", FOURTH) == Ok(reg2)
    ensures RegistryOk(env, reg2, FOURTH) && Grounded(reg2) && ActiveAt(reg2, first, now)
    ensures key in reg2.agents && Entry(reg2.agents, first).identityId == Entry(reg2.agents, key).identityId
  {
    hide Reached, State, KeyRun, Apart, Deployment.ProperSigner, Honest, RegistryOk, Grounded, DigestJson, RotateAgent, RotationDoc,
      Evolves, Pair, DependsOn, RotationOf, RevocationOf, RevocationDoc, RevocationFault, WentOn, ActiveAt, RetireRow, Lasts, NothingSince,
      Star;
    PairUp(env, root, key);
    var reg := State(env, KeyRun(root, key)).registry;
    PairMeans(env, reg, root, key);
    RotatedPair(env, reg, root, key, first, THIRD);
    reg1 := RotateAgent(env, reg, root, key, first, THIRD).value;
    DocsSigned(env, reg, root, key, first, THIRD);
    PairRevocable(env, reg, root, key);
    SecondRevocation(env, reg, reg1, root, key, first);
    reg2 := LateRevocation(env, reg, reg1, root, key, "left", FOURTH).value;
    RootStays(reg1, root, key);
    LateRevocationKeepsExactly(env, reg, SECOND, reg1, THIRD, root, key, "left", FOURTH, FOURTH);
    RegistryGrounded(env, reg2, FOURTH);
    StaysRotated(reg1.agents[key], FOURTH);
    ActiveNow(reg2, root, first, THIRD, now);
  }

  lemma StaysRotated(row: AgentRow, at: u64)
    requires row.status == Rotated
    ensures RetireRow(row, Revoke, at) == row
  {}

  lemma PairRevocable(env: Env, reg: Registry, root: string, key: string)
    requires Pair(env, reg, root, key)
    ensures Grounded(reg) && RevocationFault(env, reg, root, key, "left", FOURTH).None?
    ensures root in reg.agents && Entry(reg.agents, root).tenantId == "*"
  {
    hide RegistryOk, Grounded, RevocationFault, IdentityOps.SuccessionsOk;
    RevocationAccepted(env, reg, SECOND, root, root, key, FOURTH);
    IdentityOps.RevokeOkMeans(env, reg, root, key, "left", FOURTH);
  }

  lemma SecondRevocation(env: Env, reg: Registry, reg1: Registry, root: string, key: string, first: string)
    requires Pair(env, reg, root, key) && Grounded(reg) && RevocationFault(env, reg, root, key, "left", FOURTH).None?
    requires key in reg1.agents
    requires forall row <- reg1.lifecycle :: row.eventId == DigestJson(env.crypto, RotationDoc(env, root, key, first, THIRD))
    requires DigestJson(env.crypto, RotationDoc(env, root, key, first, THIRD)) != DigestJson(env.crypto, RevocationDoc(env, root, key, FOURTH))
    ensures LateRevocation(env, reg, reg1, root, key, "left", FOURTH).Ok?
  {
    hide Pair, DigestJson, RotationDoc, RevocationDoc, RevocationFault, RevocationOf, Grounded, DependsOn;
    DocsSigned(env, reg, root, key, first, FOURTH);
  }

  // ======== Intents at the parser's limit: accepted, recorded, and never read again.

  /** Arrays within arrays. */
  function Nest(n: nat): Value {
    if n == 0 then Null else Array([Nest(n - 1)])
  }

  lemma {:induction false} NestIsDeep(n: nat)
    ensures Depth(Nest(n)) == n
  {
    hide Depth;
    if n == 0 {
      FlatIsFlat(Null);
    } else {
      NestIsDeep(n - 1);
      ArrayWithin([Nest(n - 1)], n - 1);
      assert Nest(n - 1) in [Nest(n - 1)];
      if n >= 2 { ArrayWithin([Nest(n - 1)], n - 2); } else { ArrayIsDeep([Nest(n - 1)]); }
    }
  }

  lemma ArrayIsDeep(items: seq<Value>)
    ensures Depth(Array(items)) >= 1
  {
    hide ItemsNesting, ArrangeItems;
  }

  /** An intent is one level deeper than its note. */
  lemma IntentIsDeep(agent: string, at: u64, n: nat)
    ensures Depth(Intent(agent, at, Nest(n))) == n + 1
  {
    hide Depth, Nest;
    var intent := Intent(agent, at, Nest(n));
    NestIsDeep(n);
    assert intent.fields["note"] == Nest(n);
    forall k | k in intent.fields && k != "note" ensures Depth(intent.fields[k]) == 0 { FlatIsFlat(intent.fields[k]); }
    ObjectWithin(intent, n);
    if n >= 1 { ObjectWithin(intent, n - 1); } else { ObjectIsDeep(intent); }
  }

  lemma ObjectIsDeep(value: Value)
    requires value.Object?
    ensures Depth(value) >= 1
  {
    hide ArrangeMembers, Ordering.SortedKeys;
  }

  function DeepRun(root: string, n: nat): seq<Timed> {
    RootRun(root) + [Timed(AskCall(root, "nobody", SECOND, Nest(n), ""), SECOND)]
  }

  lemma NobodyNotBlank()
    ensures !IsBlank("nobody")
  {
    assert !IsWhiteSpace("nobody"[0]);
  }

  /** A request of nobody, with an intent of `n + 1` levels. */
  lemma DeepRecorded(env: Env, root: string, n: nat) returns (id: string)
    requires Configured(env, root)
    requires DigestJson(env.crypto, BaselineBody(env, root, FIRST)) != DigestJson(env.crypto, RootEvent(env, root, FIRST))
    ensures Reached(env, DeepRun(root, n))
    ensures var db := State(env, DeepRun(root, n));
      && Grounded(db.registry)
      && id in db.permits.authorizations && id !in db.permits.outcomes
      && Entry(db.permits.authorizations, id).json.Get(INTENT) == Some(Intent("nobody", SECOND, Nest(n)))
      && db.registry.agents.Keys == {root} && Entry(db.registry.agents, root).metadata == NO_METADATA
  {
    hide Reached, State, DigestJson, Honest, Inv, IdentityProofs.RegistryOk, Grounded, GateRuns.RevocationOk, Clock, Intent, BaselineBody,
      RootEvent, Configured, IsBlank, Nest, RootRun, OnePermit, RowOf, Evaluated, BaselineBundle, IdentityProofs.ClosedForm, Star,
      PermitsOk, SuccessionsOk, BundleFault, Canonical.Text, AskCall;
    NobodyNotBlank();
    RootUp(env, root);
    GateKnown(env, root);
    ReachedInOrder(env, RootRun(root));
    InvParts(env, State(env, RootRun(root)), Clock(RootRun(root)));
    RequestRecorded(env, RootRun(root), root, "nobody", Nest(n), "", SECOND);
    ReachedInOrder(env, DeepRun(root, n));
    InvParts(env, State(env, DeepRun(root, n)), Clock(DeepRun(root, n)));
    var reg := State(env, RootRun(root)).registry;
    var r := RecipeFor(env, reg, root, "nobody", Nest(n), "", SECOND, SECOND, SECOND, SECOND);
    id := RowOf(env, r).0;
    IntentReads("nobody", SECOND, Nest(n));
    PermitReads(env, r);
    PermitThere(State(env, DeepRun(root, n)), id, RowOf(env, r).1);
    NoOutcome(State(env, DeepRun(root, n)), id, RowOf(env, r).1);
  }

  lemma NoOutcome(db: Db, id: string, row: AuthorizationRow)
    requires OnePermit(db, id, row)
    ensures id !in db.permits.outcomes
  {
    hide Open, Ids;
  }

  /** The gate accepts the text of an intent of up to 127 levels, decides and records it. It reads its
      record again exactly up to 126 levels, and verifies its trace exactly up to 125. */
  lemma DeepIntent(env: Env, root: string, n: nat, now: u64) returns (id: string)
    requires Configured(env, root)
    requires DigestJson(env.crypto, BaselineBody(env, root, FIRST)) != DigestJson(env.crypto, RootEvent(env, root, FIRST))
    requires n < MAX_NESTING
    ensures Parse(Canonical.Text(Intent("nobody", SECOND, Nest(n)))) == Some(Intent("nobody", SECOND, Nest(n)))
    ensures Reached(env, DeepRun(root, n))
    ensures var db := State(env, DeepRun(root, n));
      && Grounded(db.registry) && id in db.permits.authorizations
      && Entry(db.permits.authorizations, id).json.Get(INTENT) == Some(Intent("nobody", SECOND, Nest(n)))
      && (StoredTexts.ReadsBack(Entry(db.permits.authorizations, id).json) <==> n + 1 <= 126)
      && (StoredTexts.VerifyTraceText(env, db, Entry(db.permits.authorizations, id).actionId, now).Ok? <==> n + 1 <= 125)
  {
    hide Reached, State, DigestJson, Honest, Grounded, Intent, BaselineBody, RootEvent, Configured, Nest, Parse, Canonical.Text, Depth,
      DeepRun, StoredTexts.VerifyTraceText, StoredTexts.ReadsBack, PhaseOf;
    IntentIsDeep("nobody", SECOND, n);
    StoredReadsBack(Intent("nobody", SECOND, Nest(n)));
    id := DeepRecorded(env, root, n);
    GateKnown(env, root);
    StoredTexts.StoredTextsReadBack(env, DeepRun(root, n));
    NoMetadataIsShallow();
    StoredTexts.EveryTraceTextVerifies(env, DeepRun(root, n), id, now);
  }

  lemma NoMetadataIsShallow()
    ensures Depth(NO_METADATA) <= 126
  {
    hide Depth;
    ObjectWithin(NO_METADATA, 0);
  }
}
