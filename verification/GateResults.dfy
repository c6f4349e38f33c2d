/** What the gate promises over every run: which requests are allowed, which policy is in force, what a
    document the verifier accepts means, what the executor accepts, and that streams only grow. */
module GateResults {
  import opened Prelude
  import opened Names
  import opened Json
  import opened Crypto
  import opened Policy
  import opened Identity
  import opened IdentityProofs
  import opened Permits
  import opened PermitProofs
  import opened Gate
  import opened GateInv
  import opened GateRuns
  import opened EventStream
  import opened PolicyStore
  import Canonical
  import IdentityOps
  import ParserProofs
  import Executor

  /** What a request must have to be allowed: the agent's signature over the intent, an active key at
      most 17 keys from the root, a scope that covers the tenant, a time of request near now, and a
      policy that permits it. */
  ghost predicate Deserves(env: Env, reg: Registry, intent: Value, fields: IntentFields, agentSignature: string, ttlSeconds: u64, bundle: Value, now: u64) {
    && env.crypto.verifies(fields.agentId, TextBytes(Canonical.Text(intent)), agentSignature)
    && fields.agentId in reg.agents
    && ChainLength(reg, fields.agentId) <= LONGEST_CHAIN
    && reg.agents[fields.agentId].status == Active
    && reg.agents[fields.agentId].tenantId in {"*", fields.tenantId}
    && SaturatingSub(now, fields.requestedAt) <= MAX_AGE_MICROS
    && SaturatingSub(fields.requestedAt, now) <= MAX_SKEW_MICROS
    && Policy.Permits(bundle, intent, ttlSeconds)
  }

  lemma DecideMeans(signatureValid: bool, agent: Option<AgentState>, fields: IntentFields, issuedAt: u64, policy: PolicyDecision)
    ensures Decide(signatureValid, agent, fields, issuedAt, policy).decision ==
      if signatureValid && agent.Some? && agent.value.active && agent.value.tenantId in {"*", fields.tenantId}
         && SaturatingSub(issuedAt, fields.requestedAt) <= MAX_AGE_MICROS && SaturatingSub(fields.requestedAt, issuedAt) <= MAX_SKEW_MICROS
         && policy.allowed then ALLOWED else BLOCKED
  {}

  /** A row to be written carries the intent, the policy and the decision it is made from. */
  lemma DraftCarries(env: Env, fields: IntentFields, intent: Value, agentSignature: string, gate: string, bundle: Value,
                     policy: PolicyDecision, decision: Permits.Decision, issuedAt: u64, expiresAt: u64)
    requires ValidateIntent(intent, fields.agentId) == Some(fields)
    ensures var (id, row) := AuthorizationDraft(env, fields, intent, agentSignature, gate, bundle, policy, decision, issuedAt, expiresAt);
      && row.json.Get(INTENT) == Some(intent) && row.json.Get(POLICY_BUNDLE) == Some(bundle)
      && PermitOf(row.json).GetStr(DECISION) == Some(decision.decision)
  {
    hide ValidateIntent, DigestJson, AuthorizationDraft, BodyOf, Receipt, DraftReceipt, DeclaresBody, AuthorizationResult, ActionText,
      IssuedAt, StringField;
    DraftColumns(env, fields, intent, agentSignature, gate, bundle, policy, decision, issuedAt, expiresAt);
    DraftReadsBack(env, fields, intent, agentSignature, gate, bundle, policy, decision, issuedAt, expiresAt);
    DraftIsObject(env, fields, intent, gate, bundle, policy, decision, issuedAt, expiresAt);
    ResultReadsBack(Receipt(env.crypto, DraftReceipt(env, fields, intent, gate, bundle, policy, decision, issuedAt, expiresAt), AUTHORIZATION_ID, gate),
                    intent, agentSignature, bundle);
  }

  /** What a decision under a policy writes. */
  lemma IssueWrites(env: Env, db: Db, gate: string, intent: Value, fields: IntentFields, agentSignature: string, ttlSeconds: u64, bundle: Value, now: u64)
    requires Grounded(db.registry) && ValidateIntent(intent, fields.agentId) == Some(fields)
    requires IssueDecision(env, db, gate, intent, fields, agentSignature, ttlSeconds, bundle, now).answer.Ok?
    ensures EvaluatePolicy(env.crypto, bundle, intent, ttlSeconds).Ok? && VerifyAgentAt(env.crypto, db.registry, fields.agentId, now).Ok?
    ensures var draft := IssueDecision(env, db, gate, intent, fields, agentSignature, ttlSeconds, bundle, now).answer.value;
      var signatureValid := env.crypto.verifies(fields.agentId, TextBytes(Canonical.Text(intent)), agentSignature);
      && draft.ToWrite?
      && draft.row.json.Get(INTENT) == Some(intent)
      && draft.row.json.Get(POLICY_BUNDLE) == Some(bundle)
      && PermitOf(draft.row.json).GetStr(DECISION) == Some(Decide(signatureValid, VerifyAgentAt(env.crypto, db.registry, fields.agentId, now).value,
                                                                   fields, now, EvaluatePolicy(env.crypto, bundle, intent, ttlSeconds).value).decision)
  {
    hide Grounded, VerifyAgentInner, EvaluatePolicy, ValidateIntent, Canonical.Text, AuthorizationDraft, Decide, BodyOf, PermitOf;
    var policy := EvaluatePolicy(env.crypto, bundle, intent, ttlSeconds).value;
    var agent := VerifyAgentAt(env.crypto, db.registry, fields.agentId, now).value;
    var decision := Decide(env.crypto.verifies(fields.agentId, TextBytes(Canonical.Text(intent)), agentSignature), agent, fields, now, policy);
    DraftCarries(env, fields, intent, agentSignature, gate, bundle, policy, decision, now, Expiry(now, ttlSeconds));
  }

  lemma DraftIsObject(env: Env, fields: IntentFields, intent: Value, gate: string, bundle: Value,
                      policy: PolicyDecision, decision: Permits.Decision, issuedAt: u64, expiresAt: u64)
    ensures DraftReceipt(env, fields, intent, gate, bundle, policy, decision, issuedAt, expiresAt).Object?
  {}

  /** ... in a registry in order. */
  lemma IssueDecides(env: Env, db: Db, clock: u64, gate: string, intent: Value, fields: IntentFields, agentSignature: string, ttlSeconds: u64,
                     bundle: Value, now: u64)
    requires RegistryOk(env, db.registry, clock) && Grounded(db.registry) && clock < now
    requires ValidateIntent(intent, fields.agentId) == Some(fields)
    requires IssueDecision(env, db, gate, intent, fields, agentSignature, ttlSeconds, bundle, now).answer.Ok?
    ensures var draft := IssueDecision(env, db, gate, intent, fields, agentSignature, ttlSeconds, bundle, now).answer.value;
      && draft.ToWrite?
      && draft.row.json.Get(INTENT) == Some(intent)
      && draft.row.json.Get(POLICY_BUNDLE) == Some(bundle)
      && PermitOf(draft.row.json).GetStr(DECISION)
        == Some(if Deserves(env, db.registry, intent, fields, agentSignature, ttlSeconds, bundle, now) then ALLOWED else BLOCKED)
  {
    hide RegistryOk, Grounded, VerifyAgentInner, EvaluatePolicy, ValidateIntent, Canonical.Text, Decide, IssueDecision, Policy.Permits,
      ChainLength, BundleFault, DigestJson;
    IssueWrites(env, db, gate, intent, fields, agentSignature, ttlSeconds, bundle, now);
    var policy := EvaluatePolicy(env.crypto, bundle, intent, ttlSeconds).value;
    var agent := VerifyAgentAt(env.crypto, db.registry, fields.agentId, now);
    DecideMeans(env.crypto.verifies(fields.agentId, TextBytes(Canonical.Text(intent)), agentSignature), agent.value, fields, now, policy);
    IdentityOps.ActiveMeans(env, db.registry, clock, fields.agentId, now);
    Policy.AllowsMeans(env.crypto, bundle, intent, ttlSeconds);
    EvaluatedBundle(env.crypto, bundle, intent, ttlSeconds);
  }

  lemma EvaluatedBundle(c: Crypto, bundle: Value, intent: Value, ttlSeconds: u64)
    requires EvaluatePolicy(c, bundle, intent, ttlSeconds).Ok?
    ensures BundleFault(c, bundle, None).None? && StringField(bundle, POLICY_DIGEST).Some?
  {
    hide BundleFault, DenialReasons, DigestJson;
  }

  /** The request reaches its decision, and answers with what it writes. */
  lemma RequestReaches(env: Env, db: Db, gate: string, intent: Value, agentId: string, agentSignature: string, ttlSeconds: u64, now: u64)
    requires Grounded(db.registry)
    requires Request(env, db, gate, Some(intent), agentId, agentSignature, ttlSeconds, now).answer.Ok?
    requires ValidateIntent(intent, agentId).Some? && ActionIdFor(env.crypto, ValidateIntent(intent, agentId).value) !in db.permits.byAction
    ensures var fields := ValidateIntent(intent, agentId).value;
      var lookup := PolicyStore.ActivePolicy(env.crypto, db.policies, db.streams, env.signerFor(gate), fields.tenantId, now);
      && lookup.bundle.Ok?
      && var db1 := db.(policies := lookup.store, streams := lookup.events, signed := db.signed + LookupSigns(env.crypto, db.policies, env.signerFor(gate), now));
         var r := IssueDecision(env, db1, gate, intent, fields, agentSignature, ttlSeconds, lookup.bundle.value, now).answer;
         && r.Ok?
         && (r.value.ToWrite? ==> Request(env, db, gate, Some(intent), agentId, agentSignature, ttlSeconds, now).answer == Ok(r.value.row.json))
  {
    hide Grounded, GateIdentity, PolicyStore.ActivePolicy, LookupSigns, IssueDecision, ValidateIntent, ActionIdFor, EventStream.RecordEvent,
      Canonical.Text, DigestJson, VerifyAuthorization;
  }

  /** A new request the gate answers at all, it allows exactly when the request deserves it, under the
      policy it cites: for a tenant with a policy of its own, the one last installed for it. */
  lemma AllowedExactly(env: Env, run: seq<Timed>, gate: string, intent: Value, agentId: string, agentSignature: string, ttlSeconds: u64, now: u64)
    requires Honest(env) && env.crypto.isPublicKey(gate) && Reached(env, run) && Clock(run) < now
    requires Grounded(State(env, run).registry)
    requires Request(env, State(env, run), gate, Some(intent), agentId, agentSignature, ttlSeconds, now).answer.Ok?
    requires ValidateIntent(intent, agentId).Some?
    requires ActionIdFor(env.crypto, The(ValidateIntent(intent, agentId))) !in State(env, run).permits.byAction
    ensures var db := State(env, run);
      var fields := The(ValidateIntent(intent, agentId));
      var json := Good(Request(env, db, gate, Some(intent), agentId, agentSignature, ttlSeconds, now).answer);
      && json.Get(INTENT) == Some(intent) && json.Get(POLICY_BUNDLE).Some?
      && var bundle := The(json.Get(POLICY_BUNDLE));
      && PermitOf(json).GetStr(DECISION)
           == Some(if Deserves(env, db.registry, intent, fields, agentSignature, ttlSeconds, bundle, now) then ALLOWED else BLOCKED)
      && (fields.tenantId != "*" && PolicyStore.HadPolicy(db.policies, fields.tenantId) ==>
            PolicyStore.LastFor(db.policies.bundles, fields.tenantId).Some?
            && bundle == The(PolicyStore.LastFor(db.policies.bundles, fields.tenantId)).bundle)
  {
    hide Inv, Honest, RevocationOk, Reached, State, Grounded, RegistryOk, Request, IssueDecision, ValidateIntent, ActionIdFor,
      PolicyStore.ActivePolicy, LookupSigns, PolicyStore.StoreOk, PolicyStore.LastFor, Deserves, PermitsOk, HistoryOk,
      EventStream.StreamsOk, PolicyStore.BundleKey, PolicyStore.EnsureDefault;
    ReachedInOrder(env, run);
    var db := State(env, run);
    InvParts(env, db, Clock(run));
    RequestReaches(env, db, gate, intent, agentId, agentSignature, ttlSeconds, now);
    var fields := ValidateIntent(intent, agentId).value;
    ValidatedAgent(intent, agentId);
    var lookup := PolicyStore.ActivePolicy(env.crypto, db.policies, db.streams, env.signerFor(gate), fields.tenantId, now);
    var db1 := db.(policies := lookup.store, streams := lookup.events, signed := db.signed + LookupSigns(env.crypto, db.policies, env.signerFor(gate), now));
    IssueDecides(env, db1, Clock(run), gate, intent, fields, agentSignature, ttlSeconds, lookup.bundle.value, now);
    if fields.tenantId != "*" && PolicyStore.HadPolicy(db.policies, fields.tenantId) {
      ActiveIsLast(env, db.policies, db.streams, gate, fields.tenantId, now);
    }
  }

  // ======== Requests are decided once: an intent sent again gets the stored answer, another intent under the
  //          same key is refused, and action ids do not clash.

  // ---- Action ids ----

  predicate HasNul(text: string) {
    '\0' in text
  }

  lemma NulAfter(a: string, b: string, a': string, b': string)
    requires !HasNul(a') && a + "\0" + b == a' + "\0" + b'
    ensures |a'| <= |a|
  {
    var s := a + "\0" + b;
    forall i | 0 <= i < |a'| ensures s[i] != '\0' {
      assert s[i] == a'[i] && a'[i] in a';
    }
    assert s[|a|] == '\0';
  }

  /** A text is cut at its first NUL in one way. */
  lemma SplitAtNul(a: string, b: string, a': string, b': string)
    requires !HasNul(a) && !HasNul(a')
    requires a + "\0" + b == a' + "\0" + b'
    ensures a == a' && b == b'
  {
    var s := a + "\0" + b;
    NulAfter(a, b, a', b');
    NulAfter(a', b', a, b);
    assert a == s[..|a|] && a' == s[..|a|];
    assert b == s[|a| + 1..] && b' == s[|a| + 1..];
  }

  /** Triples without NUL have texts of their own. */
  lemma ActionTextInjective(t: string, a: string, k: string, t': string, a': string, k': string)
    requires !HasNul(t) && !HasNul(a) && !HasNul(k) && !HasNul(t') && !HasNul(a') && !HasNul(k')
    requires ActionText(t, a, k) == ActionText(t', a', k')
    ensures t == t' && a == a' && k == k'
  {
    var tag := "tempus.action.v1" + "\0";
    var rest, rest' := t + "\0" + (a + "\0" + k), t' + "\0" + (a' + "\0" + k');
    assert ActionText(t, a, k) == tag + rest && ActionText(t', a', k') == tag + rest';
    assert rest == ActionText(t, a, k)[|tag|..] && rest' == ActionText(t', a', k')[|tag|..];
    SplitAtNul(t, a + "\0" + k, t', a' + "\0" + k');
    SplitAtNul(a, k, a', k');
  }

  function Nuls(text: string): nat {
    if text == "" then 0 else (if text[0] == '\0' then 1 else 0) + Nuls(text[1..])
  }

  lemma {:induction false} NulsAdd(a: string, b: string)
    ensures Nuls(a + b) == Nuls(a) + Nuls(b)
  {
    if a == "" {
      assert a + b == b;
    } else {
      assert (a + b)[0] == a[0] && (a + b)[1..] == a[1..] + b;
      NulsAdd(a[1..], b);
    }
  }

  lemma {:induction false} NulsCount(text: string)
    ensures HasNul(text) <==> Nuls(text) > 0
  {
    if text != "" {
      assert text == [text[0]] + text[1..];
      NulsCount(text[1..]);
    }
  }

  lemma ActionTextNuls(t: string, a: string, k: string)
    ensures Nuls(ActionText(t, a, k)) == Nuls("tempus.action.v1") + Nuls(t) + Nuls(a) + Nuls(k) + 3
  {
    var tag := "tempus.action.v1";
    NulsAdd(tag + "\0" + t + "\0" + a + "\0", k);
    NulsAdd(tag + "\0" + t + "\0" + a, "\0");
    NulsAdd(tag + "\0" + t + "\0", a);
    NulsAdd(tag + "\0" + t, "\0");
    NulsAdd(tag + "\0", t);
    NulsAdd(tag, "\0");
  }

  ghost predicate Shared(t: string, a: string, k: string) {
    exists t', a', k' :: (t', a', k') != (t, a, k) && ActionText(t', a', k') == ActionText(t, a, k)
  }

  lemma CutAtNul(text: string) returns (x: string, y: string)
    requires HasNul(text)
    ensures text == x + "\0" + y
  {
    var i :| 0 <= i < |text| && text[i] == '\0';
    x, y := text[..i], text[i + 1..];
  }

  lemma ShiftLeft(x: string, y: string, a: string, k: string)
    ensures ActionText(x, y, a + "\0" + k) == ActionText(x + "\0" + y, a, k)
    ensures ActionText(x, y, a + "\0" + k) == ActionText(x, y + "\0" + a, k)
  {
    var tag := "tempus.action.v1" + "\0";
    assert ActionText(x, y, a + "\0" + k) == tag + (x + "\0" + y + "\0" + a + "\0" + k);
    assert ActionText(x + "\0" + y, a, k) == tag + (x + "\0" + y + "\0" + a + "\0" + k);
    assert ActionText(x, y + "\0" + a, k) == tag + (x + "\0" + y + "\0" + a + "\0" + k);
  }

  lemma UnsharedWithoutNul(t: string, a: string, k: string, t': string, a': string, k': string)
    requires !HasNul(t) && !HasNul(a) && !HasNul(k)
    requires ActionText(t', a', k') == ActionText(t, a, k)
    ensures (t', a', k') == (t, a, k)
  {
    hide ActionText;
    ActionTextNuls(t, a, k);
    ActionTextNuls(t', a', k');
    NulsCount(t); NulsCount(a); NulsCount(k);
    NulsCount(t'); NulsCount(a'); NulsCount(k');
    ActionTextInjective(t, a, k, t', a', k');
  }

  /** A triple shares its text with another one exactly when some field holds a NUL: the source
      promises distinct ids without excluding it. */
  lemma SharedIffNul(t: string, a: string, k: string)
    ensures Shared(t, a, k) <==> HasNul(t) || HasNul(a) || HasNul(k)
  {
    hide ActionText;
    if HasNul(t) {
      var x, y := CutAtNul(t);
      ShiftLeft(x, y, a, k);
      assert |x| < |t|;
    } else if HasNul(a) {
      var x, y := CutAtNul(a);
      ShiftLeft(t, x, y, k);
      assert |x| < |a|;
    } else if HasNul(k) {
      var x, y := CutAtNul(k);
      ShiftLeft(t, a, x, y);
      assert |y| < |k|;
    } else {
      forall t', a', k' | ActionText(t', a', k') == ActionText(t, a, k) ensures (t', a', k') == (t, a, k) {
        UnsharedWithoutNul(t, a, k, t', a', k');
      }
    }
  }

  /** Two requests NUL-free in every field get one action id only if they name the same tenant, agent
      and idempotency key. */
  lemma ActionIdsDistinct(c: Crypto, x: IntentFields, y: IntentFields)
    requires !HasNul(x.tenantId) && !HasNul(x.agentId) && !HasNul(x.idempotencyKey)
    requires !HasNul(y.tenantId) && !HasNul(y.agentId) && !HasNul(y.idempotencyKey)
    requires CollisionFree(c, {ActionText(x.tenantId, x.agentId, x.idempotencyKey), ActionText(y.tenantId, y.agentId, y.idempotencyKey)})
    ensures ActionIdFor(c, x) == ActionIdFor(c, y) <==>
      x.tenantId == y.tenantId && x.agentId == y.agentId && x.idempotencyKey == y.idempotencyKey
  {
    hide ActionText;
    if ActionIdFor(c, x) == ActionIdFor(c, y) {
      ActionTextInjective(x.tenantId, x.agentId, x.idempotencyKey, y.tenantId, y.agentId, y.idempotencyKey);
    }
  }

  // ---- Sending an intent again ----

  lemma StoredAnswer(env: Env, db: Db, clock: u64, id: string, gate: string, intent: Value, agentSignature: string, ttlSeconds: u64, now: u64)
    requires Grounded(db.registry) && PermitsOk(env, db.registry, db.permits, clock)
    requires id in db.permits.authorizations && 1 <= ttlSeconds <= 86_400
    requires var row := Entry(db.permits.authorizations, id);
      ValidateIntent(intent, row.agentId).Some?
      && ActionIdFor(env.crypto, The(ValidateIntent(intent, row.agentId))) == row.actionId
    ensures var row := Entry(db.permits.authorizations, id);
      Request(env, db, gate, Some(intent), row.agentId, agentSignature, ttlSeconds, now)
      == Reply(db, if row.intentHash == DigestJson(env.crypto, intent) then Ok(row.json) else Err(IdempotencyConflict))
  {
    hide Grounded, VerifyAuthorization, ValidateIntent, ActionIdFor, DigestJson, DecideRequest, FinishRequest, OutcomeOk, ActionText,
      IssuedAt;
    assert AuthorizationOk(env, db.registry, clock, id, db.permits.authorizations[id]);
  }
  /** A stored intent sent again, with whatever signature, time to live and gate, is answered with the
      stored authorization, and nothing changes. */
  lemma RequestIdempotent(env: Env, run: seq<Timed>, id: string, gate: string, agentSignature: string, ttlSeconds: u64, now: u64)
    requires Honest(env) && Reached(env, run)
    requires id in State(env, run).permits.authorizations && 1 <= ttlSeconds <= 86_400
    ensures var db := State(env, run);
      var row := Entry(db.permits.authorizations, id);
      && Grounded(db.registry) && row.json.Get(INTENT).Some?
      && Request(env, db, gate, row.json.Get(INTENT), row.agentId, agentSignature, ttlSeconds, now) == Reply(db, Ok(row.json))
  {
    hide Inv, Honest, RevocationOk, Reached, State, Grounded, RegistryOk, Request, VerifyAuthorization, ValidateIntent, ActionText,
      DigestJson, IssuedAt, IndexesOk, OutcomeOk;
    ReachedInOrder(env, run);
    var db := State(env, run);
    InvParts(env, db, Clock(run));
    var row := db.permits.authorizations[id];
    assert AuthorizationOk(env, db.registry, Clock(run), id, row);
    var intent := row.json.Get(INTENT).value;
    ValidatedFields(intent, row.agentId);
    StoredAnswer(env, db, Clock(run), id, gate, intent, agentSignature, ttlSeconds, now);
  }

  lemma ValidatedFields(intent: Value, agentId: string)
    requires ValidateIntent(intent, agentId).Some?
    ensures ValidateIntent(intent, agentId).value.agentId == agentId
  {}

  /** Another intent under the tenant, agent and idempotency key of a stored one is refused, and
      nothing changes. */
  lemma OtherIntentRefused(env: Env, run: seq<Timed>, id: string, other: Value, gate: string, agentSignature: string, ttlSeconds: u64, now: u64)
    requires Honest(env) && Reached(env, run)
    requires id in State(env, run).permits.authorizations && 1 <= ttlSeconds <= 86_400
    requires var row := Entry(State(env, run).permits.authorizations, id);
      && ValidateIntent(other, row.agentId).Some?
      && The(ValidateIntent(other, row.agentId)).tenantId == row.tenantId
      && The(ValidateIntent(other, row.agentId)).idempotencyKey == row.idempotencyKey
      && row.json.Get(INTENT) != Some(other)
      && CollisionFree(env.crypto, {Canonical.Text(other), Canonical.Text(row.json.Get(INTENT).GetOr(Null))})
    ensures var db := State(env, run);
      && Grounded(db.registry)
      && Request(env, db, gate, Some(other), Entry(db.permits.authorizations, id).agentId, agentSignature, ttlSeconds, now) == Reply(db, Err(IdempotencyConflict))
  {
    hide Inv, Honest, RevocationOk, Reached, State, Grounded, RegistryOk, Request, VerifyAuthorization, ValidateIntent, ActionText,
      IssuedAt, IndexesOk, OutcomeOk, Canonical.Text;
    ReachedInOrder(env, run);
    var db := State(env, run);
    InvParts(env, db, Clock(run));
    var row := db.permits.authorizations[id];
    assert AuthorizationOk(env, db.registry, Clock(run), id, row);
    ValidatedFields(other, row.agentId);
    StoredAnswer(env, db, Clock(run), id, gate, other, agentSignature, ttlSeconds, now);
    if row.intentHash == DigestJson(env.crypto, other) {
      ParserProofs.CanonicalInjective(other, row.json.Get(INTENT).value);
    }
  }

  // ======== Which policy is in force in the states that runs of the gate reach.

  /** Installing for one tenant leaves the last bundle of another alone. */
  lemma {:induction false} RetireKeepsLast(bundles: seq<PolicyRow>, other: string, at: u64, tenant: string)
    requires other != tenant
    ensures LastFor(Retire(bundles, other, at), tenant) == LastFor(bundles, tenant)
  {
    if bundles != [] {
      var n := |bundles| - 1;
      assert Retire(bundles, other, at)[..n] == Retire(bundles[..n], other, at);
      RetireKeepsLast(bundles[..n], other, at, tenant);
    }
  }

  lemma InsertKeepsLast(bundles: seq<PolicyRow>, row: PolicyRow, at: u64, tenant: string)
    requires row.tenant != tenant
    ensures LastFor(Retire(bundles, row.tenant, at) + [row], tenant) == LastFor(bundles, tenant)
  {
    var all := Retire(bundles, row.tenant, at) + [row];
    assert all[..|all| - 1] == Retire(bundles, row.tenant, at);
    RetireKeepsLast(bundles, row.tenant, at, tenant);
  }

  /** Where the baseline is missing, ensuring it installs it, and no other tenant's policy changes. */
  lemma EnsureInstalls(env: Env, store: Store, events: EventStream.Tables, key: string, tenant: string, now: u64)
    requires Honest(env) && env.crypto.isPublicKey(key)
    requires StoreOk(env, store) && !Bootstrapped(store) && tenant != "*" && HadPolicy(store, tenant)
    requires EnsureDefault(env.crypto, store, events, env.signerFor(key), now).bundle.Ok?
    ensures var e := EnsureDefault(env.crypto, store, events, env.signerFor(key), now);
      && StoreOk(env, e.store) && Bootstrapped(e.store) && DefaultAttested(e.store)
      && HadPolicy(e.store, tenant) && LastFor(e.store.bundles, tenant) == LastFor(store.bundles, tenant)
  {
    hide StoreOk, BundleFault, SpecFault, SignBundle, DigestJson, HasDigest, StringField, Retire, ByVersion, EventStream.RecordEvent,
      BundleKey, PolicyRowOk, Install, LastFor, Attested;
    EnsureKeepsStore(env, store, events, key, now);
    InstallCases(env, store, events, key, DEFAULT_SPEC, now);
    DefaultSpecNames();
    var e := EnsureDefault(env.crypto, store, events, env.signerFor(key), now);
    var digest := DigestJson(env.crypto, SpecBody(DEFAULT_SPEC, now, env.signerFor(key)));
    var row := PolicyRow(DEFAULT_POLICY_VERSION, "*", digest, now, None,
                         SignBundle(env.crypto, env.signerFor(key), SpecBody(DEFAULT_SPEC, now, env.signerFor(key))));
    assert e.store.bundles == Retire(store.bundles, "*", now) + [row];
    InsertKeepsLast(store.bundles, row, now, tenant);
    FoundAtEnd(Retire(store.bundles, "*", now), row);
    StillHasPolicy(store.bundles, row, now, tenant);
  }

  lemma DefaultSpecNames()
    ensures StringField(DEFAULT_SPEC, POLICY_VERSION) == Some(DEFAULT_POLICY_VERSION)
    ensures StringField(DEFAULT_SPEC, TENANT_ID) == Some("*")
  {
    assert !IsWhiteSpace(DEFAULT_POLICY_VERSION[0]);
    assert !IsWhiteSpace("*"[0]);
  }

  lemma FoundAtEnd(bundles: seq<PolicyRow>, row: PolicyRow)
    ensures ByVersion(bundles + [row], row.version) == Some(row)
  {}

  lemma StillHasPolicy(bundles: seq<PolicyRow>, row: PolicyRow, at: u64, tenant: string)
    requires exists r <- bundles :: r.tenant == tenant
    ensures exists r <- Retire(bundles, row.tenant, at) + [row] :: r.tenant == tenant
  {
    var i :| 0 <= i < |bundles| && bundles[i].tenant == tenant;
    RetireKeepsColumns(bundles, row.tenant, at);
    assert (Retire(bundles, row.tenant, at) + [row])[i].tenant == tenant;
  }

  /** A lookup for a tenant with a policy of its own finds the bundle last installed for it, exactly
      when the baseline is or can be installed and the gate's signer installed that bundle. */
  lemma ActiveIsLast(env: Env, store: Store, events: EventStream.Tables, key: string, tenant: string, now: u64)
    requires Honest(env) && env.crypto.isPublicKey(key)
    requires StoreOk(env, store) && tenant != "*" && HadPolicy(store, tenant)
    ensures var ensured := EnsureDefault(env.crypto, store, events, env.signerFor(key), now);
      var found := ActivePolicy(env.crypto, store, events, env.signerFor(key), tenant, now).bundle;
      && LastFor(store.bundles, tenant).Some?
      && var last := The(LastFor(store.bundles, tenant)).bundle;
         && (found.Ok? <==> ensured.bundle.Ok? && BundleKey(last) == key)
         && (found.Ok? ==> Good(found) == last)
  {
    hide StoreOk, EnsureDefault, BundleKey, Resolve, LastFor, Attested, ByVersion;
    AttestedIsLast(env, store, tenant);
    var ensured := EnsureDefault(env.crypto, store, events, env.signerFor(key), now);
    if Bootstrapped(store) {
      EnsureWhenBootstrapped(env, store, events, key, now);
      ActiveIsLastInstalled(env, store, events, key, tenant, now);
    } else if ensured.bundle.Ok? {
      EnsureInstalls(env, store, events, key, tenant, now);
      EnsureWhenAttested(env, ensured.store, ensured.events, key, now);
      ActiveIsLastInstalled(env, ensured.store, ensured.events, key, tenant, now);
    }
  }

  lemma EnsureWhenAttested(env: Env, store: Store, events: EventStream.Tables, key: string, now: u64)
    requires StoreOk(env, store) && Bootstrapped(store) && DefaultAttested(store)
    ensures EnsureDefault(env.crypto, store, events, env.signerFor(key), now).store == store
    ensures EnsureDefault(env.crypto, store, events, env.signerFor(key), now).bundle.Ok?
  {
    hide StoreOk, BundleFault, ByVersion;
    EnsureWhenBootstrapped(env, store, events, key, now);
  }

  /** In every state a run reaches, no tenant has two unretired bundles, and the policy in force for a
      tenant that ever had one is the bundle last installed for it. */
  lemma PolicyInForce(env: Env, run: seq<Timed>, gate: string, tenant: string, now: u64)
    requires Honest(env) && env.crypto.isPublicKey(gate) && Reached(env, run)
    requires tenant != "*" && HadPolicy(State(env, run).policies, tenant)
    ensures var db := State(env, run);
      && (forall i, j | 0 <= i < j < |db.policies.bundles| && ItemAt(db.policies.bundles, i).tenant == ItemAt(db.policies.bundles, j).tenant ::
            ItemAt(db.policies.bundles, i).retiredAt.Some? || ItemAt(db.policies.bundles, j).retiredAt.Some?)
      && var found := ActivePolicy(env.crypto, db.policies, db.streams, env.signerFor(gate), tenant, now).bundle;
         found.Ok? ==> LastFor(db.policies.bundles, tenant).Some? && Good(found) == The(LastFor(db.policies.bundles, tenant)).bundle
  {
    hide Honest, GateInv.Inv, Reached, State, StoreOk, ActivePolicy, EnsureDefault, LastFor, BundleKey;
    ReachedInOrder(env, run);
    var db := State(env, run);
    GateRuns.InvParts(env, db, Clock(run));
    forall i, j | 0 <= i < j < |db.policies.bundles| && db.policies.bundles[i].tenant == db.policies.bundles[j].tenant
      ensures db.policies.bundles[i].retiredAt.Some? || db.policies.bundles[j].retiredAt.Some?
    {
      OneUnretired(env, db.policies, i, j);
    }
    ActiveIsLast(env, db.policies, db.streams, gate, tenant, now);
  }

  // ======== The executor accepts what the gate issued, and only that.

  /** Only keys and signatures that decode verify. */
  ghost predicate OnlyDecodedVerify(c: Crypto) {
    forall key: string, m: Message, signature: string {:trigger c.verifies(key, m, signature)} ::
      c.verifies(key, m, signature) ==> c.isPublicKey(key) && c.isSignature(signature)
  }

  // ---- A stored permit at the executor ----

  function BundleOf(json: Value): Value {
    json.Get(POLICY_BUNDLE).GetOr(Null)
  }

  /** When an executor accepts a stored permit: it allows, it is for the executor's tenant, from its
      gate, under a policy that lets the executor act, not expired, and the gate's database, if the
      executor reads one, says nothing against it. */
  predicate Usable(c: Crypto, config: Executor.Config, gateDb: Option<Db>, id: string, row: AuthorizationRow, now: u64) {
    && row.decision == ALLOWED
    && row.tenantId == config.trustedTenant
    && PermitOf(row.json).GetStr(GATE_ID) == Some(config.trustedGate)
    && ExecutorAllowed(c, BundleOf(row.json), config.executorId) == Ok(true)
    && now <= row.expiresAt
    && (gateDb.Some? ==> Executor.GateObjection(gateDb.value, id, row.agentId).None?)
  }

  lemma BodyAgrees(receipt: Value)
    requires receipt.Object?
    ensures var body := receipt.Without({AUTHORIZATION_ID, GATE_SIGNATURE});
      forall key: string :: key != AUTHORIZATION_ID && key != GATE_SIGNATURE ==> body.Get(key) == receipt.Get(key)
  {}

  lemma NoKeyBlank(env: Env, key: string)
    requires Honest(env) && env.crypto.isPublicKey(key)
    ensures key != ""
  {}

  /** The signature of a stored permit convinces every executor that trusts its gate. */
  lemma StoredSignature(env: Env, reg: Registry, clock: u64, config: Executor.Config, id: string, row: AuthorizationRow)
    requires Honest(env) && OnlyDecodedVerify(env.crypto)
    requires Grounded(reg) && AuthorizationOk(env, reg, clock, id, row)
    ensures Executor.SignatureObjection(env.crypto, config, PermitOf(row.json)).None? <==> PermitOf(row.json).GetStr(GATE_ID) == Some(config.trustedGate)
    ensures PermitOf(row.json).GetStr(GATE_ID).Some?
  {
    hide Grounded, VerifyAuthorization, VerifyReceipt, ValidateIntent, ActionText, DigestJson, IssuedAt, Honest, BundleFaults, IntentFaults;
    CleanAuthorization(env.crypto, reg, row.json);
    var receipt := PermitOf(row.json);
    var body := receipt.Without({AUTHORIZATION_ID, GATE_SIGNATURE});
    CleanReceipt(env.crypto, reg, row.json, body, id, receipt.GetStr(GATE_SIGNATURE).value);
    BodyAgrees(receipt);
    assert body.Get(GATE_ID) == receipt.Get(GATE_ID);
    var gateId := body.GetStr(GATE_ID).GetOr("");
    assert env.crypto.verifies(gateId, DigestBytes(id), receipt.GetStr(GATE_SIGNATURE).value);
    NoKeyBlank(env, gateId);
  }

  /** ... so does its policy, as far as it lets the executor act ... */
  lemma StoredPolicy(env: Env, reg: Registry, clock: u64, config: Executor.Config, id: string, row: AuthorizationRow)
    requires Grounded(reg) && AuthorizationOk(env, reg, clock, id, row)
    requires PermitOf(row.json).GetStr(GATE_ID).Some?
    ensures Executor.PolicyObjection(env.crypto, config, PermitOf(row.json), BundleOf(row.json)).None?
      <==> ExecutorAllowed(env.crypto, BundleOf(row.json), config.executorId) == Ok(true)
  {
    hide Grounded, VerifyAuthorization, VerifyReceipt, ValidateIntent, ActionText, DigestJson, IssuedAt, BundleFaults, IntentFaults,
      BundleFault, ExecutorAllowed;
    CleanAuthorization(env.crypto, reg, row.json);
    var receipt := PermitOf(row.json);
    var body := receipt.Without({AUTHORIZATION_ID, GATE_SIGNATURE});
    CleanReceipt(env.crypto, reg, row.json, body, id, receipt.GetStr(GATE_SIGNATURE).value);
    BodyAgrees(receipt);
    assert body.Get(GATE_ID) == receipt.Get(GATE_ID);
    assert body.Get(POLICY_VERSION) == receipt.Get(POLICY_VERSION);
    assert body.Get(POLICY_DIGEST) == receipt.Get(POLICY_DIGEST);
    CleanBundle(env.crypto, body, BundleOf(row.json), receipt.GetStr(GATE_ID).value);
  }

  /** ... and its intent, until it expires. */
  lemma StoredIntent(env: Env, reg: Registry, clock: u64, id: string, row: AuthorizationRow, now: u64)
    requires Grounded(reg) && AuthorizationOk(env, reg, clock, id, row)
    requires row.decision == ALLOWED
    ensures Executor.IntentObjection(env.crypto, PermitOf(row.json), BundleOf(row.json), The(row.json.Get(INTENT)), now).None? <==> now <= row.expiresAt
  {
    hide Grounded, VerifyAuthorization, VerifyReceipt, ValidateIntent, ActionText, DigestJson, BundleFaults, IntentFaults, BundleFault,
      EvaluatePolicy, TtlSeconds;
    CleanAuthorization(env.crypto, reg, row.json);
    var receipt := PermitOf(row.json);
    var body := receipt.Without({AUTHORIZATION_ID, GATE_SIGNATURE});
    CleanReceipt(env.crypto, reg, row.json, body, id, receipt.GetStr(GATE_SIGNATURE).value);
    BodyAgrees(receipt);
    assert body.Get(ISSUED_AT) == receipt.Get(ISSUED_AT);
    assert body.Get(EXPIRES_AT) == receipt.Get(EXPIRES_AT);
    assert body.Get(INTENT_HASH) == receipt.Get(INTENT_HASH);
    assert body.Get(EVIDENCE_DIGEST) == receipt.Get(EVIDENCE_DIGEST);
    assert body.Get(EXECUTOR_CONSTRAINTS) == receipt.Get(EXECUTOR_CONSTRAINTS);
    assert body.Get(DECISION) == receipt.Get(DECISION);
    CleanIntent(env.crypto, reg, body, BundleOf(row.json), row.json.Get(INTENT).value, row.json.GetStr(AGENT_SIGNATURE).GetOr(""));
  }

  lemma StoredChecked(env: Env, reg: Registry, clock: u64, config: Executor.Config, gateDb: Option<Db>, id: string, row: AuthorizationRow, now: u64)
    requires Honest(env) && OnlyDecodedVerify(env.crypto)
    requires Grounded(reg) && AuthorizationOk(env, reg, clock, id, row)
    ensures Executor.CheckPermit(env.crypto, config, gateDb, row.json, now).Ok? <==> Usable(env.crypto, config, gateDb, id, row, now)
    ensures Executor.CheckPermit(env.crypto, config, gateDb, row.json, now).Ok? ==>
      Good(Executor.CheckPermit(env.crypto, config, gateDb, row.json, now)) == PermitOf(row.json)
  {
    hide Grounded, Honest, AuthorizationOk, DigestJson, ExecutorAllowed, Executor.SignatureObjection, Executor.PolicyObjection,
      Executor.IntentObjection, Executor.GateObjection, OnlyDecodedVerify;
    StoredColumns(env, reg, clock, id, row);
    StoredSignature(env, reg, clock, config, id, row);
    StoredPolicy(env, reg, clock, config, id, row);
    if row.decision == ALLOWED { StoredIntent(env, reg, clock, id, row, now); }
  }

  lemma StoredColumns(env: Env, reg: Registry, clock: u64, id: string, row: AuthorizationRow)
    requires Grounded(reg) && AuthorizationOk(env, reg, clock, id, row)
    ensures row.json.GetStr(SCHEMA_VERSION) == Some(AUTHORIZATION_RESULT_SCHEMA)
    ensures row.json.Get(AUTHORIZATION) == Some(PermitOf(row.json)) && row.json.Get(POLICY_BUNDLE) == Some(BundleOf(row.json))
    ensures row.json.Get(INTENT).Some? && The(row.json.Get(INTENT)).GetStr(TENANT_ID) == Some(row.tenantId)
    ensures var permit := PermitOf(row.json);
      && permit.GetStr(AUTHORIZATION_ID) == Some(id)
      && permit.GetStr(ACTION_ID) == Some(row.actionId)
      && permit.GetStr(AGENT_ID) == Some(row.agentId)
      && permit.GetStr(DECISION) == Some(row.decision)
  {
    hide Grounded, VerifyAuthorization, ActionText, DigestJson, IssuedAt, ValidateIntent;
    CleanAuthorization(env.crypto, reg, row.json);
    ValidatedTenant(row.json.Get(INTENT).value, row.agentId);
  }

  lemma ValidatedTenant(intent: Value, agentId: string)
    requires ValidateIntent(intent, agentId).Some?
    ensures intent.GetStr(TENANT_ID) == Some(ValidateIntent(intent, agentId).value.tenantId)
  {}

  /** An executor accepts a permit the gate has issued exactly when it is usable, and consumes it
      exactly when, besides, neither the authorization nor its action has been started before. */
  lemma IssuedPermitConsumed(env: Env, run: seq<Timed>, config: Executor.Config, gateDb: Option<Db>, t: Executor.Consumptions,
                             id: string, at: Executor.Instants)
    requires Honest(env) && OnlyDecodedVerify(env.crypto) && Reached(env, run)
    requires id in State(env, run).permits.authorizations
    ensures var row := Entry(State(env, run).permits.authorizations, id);
      var r := Executor.Consume(env.crypto, config, gateDb, t, row.json, at);
      && (r.Ok? <==> Usable(env.crypto, config, gateDb, id, row, at.checked) && id !in t && !Executor.ActionStarted(t, row.actionId))
      && (r.Ok? ==> Good(r).1 == PermitOf(row.json) && Good(r).0.Keys == t.Keys + {id}
                    && Entry(Good(r).0, id).status == Executor.STARTED && Entry(Good(r).0, id).actionId == row.actionId)
  {
    hide Inv, Honest, RevocationOk, Reached, State, Grounded, RegistryOk, AuthorizationOk, IndexesOk, OutcomeOk, Usable, Executor.Consume,
      OnlyDecodedVerify, Executor.ActionStarted;
    ReachedInOrder(env, run);
    var db := State(env, run);
    InvParts(env, db, Clock(run));
    assert AuthorizationOk(env, db.registry, Clock(run), id, db.permits.authorizations[id]);
    StoredConsumed(env, db.registry, Clock(run), config, gateDb, t, id, db.permits.authorizations[id], at);
  }

  lemma StoredConsumed(env: Env, reg: Registry, clock: u64, config: Executor.Config, gateDb: Option<Db>, t: Executor.Consumptions, id: string,
                       row: AuthorizationRow, at: Executor.Instants)
    requires Honest(env) && OnlyDecodedVerify(env.crypto)
    requires Grounded(reg) && AuthorizationOk(env, reg, clock, id, row)
    ensures var r := Executor.Consume(env.crypto, config, gateDb, t, row.json, at);
      && (r.Ok? <==> Usable(env.crypto, config, gateDb, id, row, at.checked) && id !in t && !Executor.ActionStarted(t, row.actionId))
      && (r.Ok? ==> Good(r).1 == PermitOf(row.json) && Good(r).0.Keys == t.Keys + {id}
                    && Entry(Good(r).0, id).status == Executor.STARTED && Entry(Good(r).0, id).actionId == row.actionId)
  {
    hide Honest, Grounded, AuthorizationOk, Usable, Executor.CheckPermit, Executor.SignedObservation, OnlyDecodedVerify,
      Executor.ActionStarted;
    StoredColumns(env, reg, clock, id, row);
    StoredChecked(env, reg, clock, config, gateDb, id, row, at.checked);
  }

  // ---- Whatever is accepted was issued ----

  /** The signature on a permit was made by the gate, if it verifies. */
  ghost predicate Genuine(c: Crypto, gateId: string, signed: set<Value>, authorization: Value) {
    var id := authorization.GetStr(AUTHORIZATION_ID).GetOr("");
    c.verifies(gateId, DigestBytes(id), authorization.GetStr(GATE_SIGNATURE).GetOr("")) ==>
      exists doc <- signed :: DigestJson(c, doc) == id
  }

  /** The texts whose digests are compared when a permit is traced back to what was signed. */
  function TracedTexts(db: Db, permit: Value): set<string> {
    (set doc <- db.signed :: Canonical.Text(doc)) + {Canonical.Text(BodyOfPermit(permit)), Canonical.Text(permit.Get(INTENT).GetOr(Null))}
    + (set body <- db.issued :: Canonical.Text(db.issued[body]))
  }

  /** What the check of a permit establishes of its signature, decision and intent. */
  lemma AcceptedMeans(c: Crypto, config: Executor.Config, gateDb: Option<Db>, permit: Value, now: u64)
    requires Executor.CheckPermit(c, config, gateDb, permit, now).Ok?
    ensures Good(Executor.CheckPermit(c, config, gateDb, permit, now)) == PermitOf(permit)
    ensures PermitOf(permit).Object? && permit.Get(INTENT).Some?
    ensures var authorization := PermitOf(permit);
      && authorization.GetStr(AUTHORIZATION_ID).Some? && authorization.GetStr(GATE_SIGNATURE).Some?
      && DigestJson(c, BodyOfPermit(permit)) == The(authorization.GetStr(AUTHORIZATION_ID))
      && c.verifies(config.trustedGate, DigestBytes(The(authorization.GetStr(AUTHORIZATION_ID))), The(authorization.GetStr(GATE_SIGNATURE)))
      && authorization.GetStr(DECISION) == Some(ALLOWED)
      && authorization.GetStr(INTENT_HASH) == Some(DigestJson(c, The(permit.Get(INTENT))))
      && The(permit.Get(INTENT)).GetStr(TENANT_ID) == Some(config.trustedTenant)
  {
    hide DigestJson, Executor.PolicyObjection, Executor.GateObjection, EvaluatePolicy;
  }

  /** Whatever document an executor accepts carries a body that the gate signed for an allowed
      decision, and the very intent it was decided on. */
  lemma AcceptedWasIssued(env: Env, run: seq<Timed>, config: Executor.Config, gateDb: Option<Db>, permit: Value, now: u64)
    requires Honest(env) && Reached(env, run)
    requires Executor.CheckPermit(env.crypto, config, gateDb, permit, now).Ok?
    requires Genuine(env.crypto, config.trustedGate, State(env, run).signed, PermitOf(permit))
    requires CollisionFree(env.crypto, TracedTexts(State(env, run), permit))
    ensures var db := State(env, run);
      && BodyOfPermit(permit) in db.signed && BodyOfPermit(permit) in db.issued
      && BodyOfPermit(permit).GetStr(DECISION) == Some(ALLOWED)
      && permit.Get(INTENT) == Some(Entry(db.issued, BodyOfPermit(permit)))
  {
    hide Inv, Honest, RevocationOk, Reached, State, Grounded, Executor.CheckPermit, Canonical.Text, PermitsOk;
    ReachedInOrder(env, run);
    var db := State(env, run);
    InvParts(env, db, Clock(run));
    AcceptedMeans(env.crypto, config, gateDb, permit, now);
    BodyAgrees(PermitOf(permit));
    var body := BodyOfPermit(permit);
    assert body.Get(DECISION) == PermitOf(permit).Get(DECISION);
    assert body.Get(INTENT_HASH) == PermitOf(permit).Get(INTENT_HASH);
    var doc :| doc in db.signed && DigestJson(env.crypto, doc) == PermitOf(permit).GetStr(AUTHORIZATION_ID).value;
    ParserProofs.CanonicalInjective(doc, body);
    ParserProofs.CanonicalInjective(db.issued[body], permit.Get(INTENT).value);
  }

  // ---- And the gate accepts what the executor reports ----

  /** The outcome an executor signs passes the gate's checks of form and signature. */
  lemma OutcomeAccepted(env: Env, executorId: string, id: string, actionId: string, status: string, output: Value)
    requires Honest(env) && env.crypto.isPublicKey(executorId)
    requires status in {Executor.SUCCEEDED, Executor.FAILED} && !IsBlank(id) && !IsBlank(actionId)
    ensures var outcome := Executor.SignedOutcome(env.crypto, executorId, id, actionId, status, output);
      && ValidateOutcome(OutcomeToSign(outcome), id, actionId) == Some(status)
      && StringField(OutcomeToSign(outcome), EXECUTOR_ID) == Some(executorId)
      && outcome.GetStr(EXECUTOR_SIGNATURE).Some?
      && env.crypto.verifies(executorId, TextBytes(Canonical.Text(OutcomeToSign(outcome))), outcome.GetStr(EXECUTOR_SIGNATURE).value)
  {
    hide Canonical.Text, Executor.OutcomeBody, ValidateOutcome, IsBlank;
    var body := Executor.OutcomeBody(executorId, id, actionId, status, output);
    SignedOutcomeReads(executorId, id, actionId, status, output);
    var outcome := Executor.SignedOutcome(env.crypto, executorId, id, actionId, status, output);
    assert outcome.fields - {EXECUTOR_SIGNATURE} == body.fields;
    assert OutcomeToSign(outcome) == body;
    assert SignsCorrectly(env.crypto, executorId);
  }

  lemma SignedOutcomeReads(executorId: string, id: string, actionId: string, status: string, output: Value)
    requires status in {Executor.SUCCEEDED, Executor.FAILED} && !IsBlank(id) && !IsBlank(actionId) && !IsBlank(executorId)
    ensures var body := Executor.OutcomeBody(executorId, id, actionId, status, output);
      && body.Object? && EXECUTOR_SIGNATURE !in body.fields
      && ValidateOutcome(body, id, actionId) == Some(status)
      && StringField(body, EXECUTOR_ID) == Some(executorId)
  {
    hide IsBlank;
    StatusNotBlank(status);
  }

  lemma StatusNotBlank(status: string)
    requires status in {Executor.SUCCEEDED, Executor.FAILED}
    ensures !IsBlank(status) && !IsBlank(ACTION_OUTCOME_SCHEMA)
  {
    assert !IsWhiteSpace(status[0]);
    assert !IsWhiteSpace(ACTION_OUTCOME_SCHEMA[0]);
  }

  // ======== What it means that the historical verifier finds nothing wrong with a document, whoever made it.

  // ---- Authorizations ----

  /** What was true when an authorization that verifies was issued as allowed. */
  ghost predicate WasAllowed(c: Crypto, reg: Registry, result: Value, gateId: string, agentId: string, issuedAt: u64, ttlSeconds: u64) {
    && result.Get(INTENT).Some? && result.Get(POLICY_BUNDLE).Some?
    && var intent, bundle := The(result.Get(INTENT)), The(result.Get(POLICY_BUNDLE));
    && ActiveAt(reg, gateId, issuedAt) && Entry(reg.agents, gateId).canDelegate
    && ActiveAt(reg, agentId, issuedAt)
    && ValidateIntent(intent, agentId).Some?
    && var fields := The(ValidateIntent(intent, agentId));
    && Entry(reg.agents, agentId).tenantId in {"*", fields.tenantId}
    && SaturatingSub(issuedAt, fields.requestedAt) <= MAX_AGE_MICROS && SaturatingSub(fields.requestedAt, issuedAt) <= MAX_SKEW_MICROS
    && c.verifies(agentId, TextBytes(Canonical.Text(intent)), result.GetStr(AGENT_SIGNATURE).GetOr(""))
    && BundleFault(c, bundle, Some(gateId)).None?
    && Policy.Permits(bundle, intent, ttlSeconds)
  }

  /** The decision recorded is the one the checks give. */
  lemma CleanDecided(c: Crypto, reg: Registry, body: Value, bundle: Value, intent: Value, agentSignature: string)
    requires Grounded(reg) && IntentFaults(c, reg, body, Some(bundle), intent, agentSignature) == []
    requires body.GetStr(DECISION) == Some(ALLOWED)
    ensures var agentId, issuedAt := body.GetStr(AGENT_ID).GetOr(""), body.U64At(ISSUED_AT);
      && ValidateIntent(intent, agentId).Some?
      && var agent := ActiveView(VerifyAgentAt(c, reg, agentId, issuedAt));
      && agent.Some?
      && The(agent).tenantId in {"*", The(ValidateIntent(intent, agentId)).tenantId}
      && SaturatingSub(issuedAt, The(ValidateIntent(intent, agentId)).requestedAt) <= MAX_AGE_MICROS
      && SaturatingSub(The(ValidateIntent(intent, agentId)).requestedAt, issuedAt) <= MAX_SKEW_MICROS
      && c.verifies(agentId, TextBytes(Canonical.Text(intent)), agentSignature)
  {
    hide Grounded, DigestJson, EvaluatePolicy, ValidateIntent, VerifyAgentInner, Canonical.Text, TtlSeconds, DeniedForIdentityOrTime;
    var agentId := body.GetStr(AGENT_ID).GetOr("");
    if ValidateIntent(intent, agentId).Some? {
      DecidedMeans(c, reg, body, bundle, intent, ValidateIntent(intent, agentId).value,
                   c.verifies(agentId, TextBytes(Canonical.Text(intent)), agentSignature), body.U64At(ISSUED_AT),
                   TtlSeconds(body.U64At(ISSUED_AT), body.U64At(EXPIRES_AT)));
      ValidatedNames(intent, agentId);
    }
  }

  lemma ValidatedNames(intent: Value, agentId: string)
    requires ValidateIntent(intent, agentId).Some?
    ensures ValidateIntent(intent, agentId).value.agentId == agentId
  {}

  lemma DecidedMeans(c: Crypto, reg: Registry, body: Value, bundle: Value, intent: Value, fields: IntentFields,
                     signatureValid: bool, issuedAt: u64, ttlSeconds: u64)
    requires Grounded(reg) && DecisionFaults(c, reg, body, Some(bundle), intent, fields, signatureValid, issuedAt, ttlSeconds) == []
    requires body.GetStr(DECISION) == Some(ALLOWED)
    ensures signatureValid
    ensures var agent := ActiveView(VerifyAgentAt(c, reg, fields.agentId, issuedAt));
      && agent.Some? && The(agent).tenantId in {"*", fields.tenantId}
    ensures SaturatingSub(issuedAt, fields.requestedAt) <= MAX_AGE_MICROS && SaturatingSub(fields.requestedAt, issuedAt) <= MAX_SKEW_MICROS
  {
    hide Grounded, EvaluatePolicy, VerifyAgentInner;
  }

  /** Any document the verifier finds nothing wrong with, if it says allowed and carries its policy,
      speaks the truth about the past: the gate that signed it was a delegator and the agent was active
      and in scope when it was issued, the agent signed that fresh intent, and the policy, signed by the
      gate, permits it. */
  lemma VerifiedAllowedMeans(env: Env, run: seq<Timed>, result: Value)
    requires Honest(env) && Reached(env, run)
    requires Grounded(State(env, run).registry) && VerifyAuthorization(env.crypto, State(env, run).registry, result) == []
    requires result.Get(POLICY_BUNDLE).Some? && BodyOfPermit(result).GetStr(DECISION) == Some(ALLOWED)
    ensures var body := BodyOfPermit(result);
      var issuedAt := body.U64At(ISSUED_AT);
      WasAllowed(env.crypto, State(env, run).registry, result, body.GetStr(GATE_ID).GetOr(""), body.GetStr(AGENT_ID).GetOr(""), issuedAt,
                 TtlSeconds(issuedAt, body.U64At(EXPIRES_AT)))
  {
    hide Inv, Honest, RevocationOk, Reached, State, Grounded, RegistryOk, VerifyAuthorization, VerifyReceipt, IntentFaults, BundleFaults,
      GateFaults, DigestJson, BundleFault, EvaluatePolicy, ValidateIntent, Policy.Permits, TtlSeconds, ActiveAt, Canonical.Text,
      VerifyAgentInner;
    ReachedInOrder(env, run);
    var reg := State(env, run).registry;
    InvParts(env, State(env, run), Clock(run));
    CleanAuthorization(env.crypto, reg, result);
    var receipt := PermitOf(result);
    var body := BodyOfPermit(result);
    CleanReceipt(env.crypto, reg, result, body, receipt.GetStr(AUTHORIZATION_ID).value, receipt.GetStr(GATE_SIGNATURE).value);
    ReceiptTrust(env.crypto, reg, result, body, receipt.GetStr(AUTHORIZATION_ID).value, receipt.GetStr(GATE_SIGNATURE).value);
    var gateId, agentId := body.GetStr(GATE_ID).GetOr(""), body.GetStr(AGENT_ID).GetOr("");
    var issuedAt := body.U64At(ISSUED_AT);
    var bundle, intent := result.Get(POLICY_BUNDLE).value, result.Get(INTENT).value;
    CleanGate(env.crypto, reg, gateId, issuedAt);
    ViewMeans(env, reg, Clock(run), gateId, issuedAt);
    CleanBundle(env.crypto, body, bundle, gateId);
    CleanIntent(env.crypto, reg, body, bundle, intent, result.GetStr(AGENT_SIGNATURE).GetOr(""));
    CleanDecided(env.crypto, reg, body, bundle, intent, result.GetStr(AGENT_SIGNATURE).GetOr(""));
    ViewMeans(env, reg, Clock(run), agentId, issuedAt);
    Policy.AllowsMeans(env.crypto, bundle, intent, TtlSeconds(issuedAt, body.U64At(EXPIRES_AT)));
  }

  /** Any document the verifier finds nothing wrong with, that states a decision under a signature the
      gate made, is one the gate signed for the very intent it carries. */
  lemma VerifiedWasIssued(env: Env, run: seq<Timed>, result: Value)
    requires Honest(env) && Reached(env, run)
    requires Grounded(State(env, run).registry) && VerifyAuthorization(env.crypto, State(env, run).registry, result) == []
    requires BodyOfPermit(result).Get(DECISION).Some?
    requires Genuine(env.crypto, BodyOfPermit(result).GetStr(GATE_ID).GetOr(""), State(env, run).signed, PermitOf(result))
    requires CollisionFree(env.crypto, TracedTexts(State(env, run), result))
    ensures var db := State(env, run);
      && BodyOfPermit(result) in db.signed && BodyOfPermit(result) in db.issued
      && result.Get(INTENT) == Some(Entry(db.issued, BodyOfPermit(result)))
  {
    hide Inv, Honest, RevocationOk, Reached, State, Grounded, RegistryOk, VerifyAuthorization, VerifyReceipt, BundleFaults, Canonical.Text,
      PermitsOk, VerifyAgentInner;
    ReachedInOrder(env, run);
    var db := State(env, run);
    InvParts(env, db, Clock(run));
    CleanAuthorization(env.crypto, db.registry, result);
    var receipt := PermitOf(result);
    var body := BodyOfPermit(result);
    CleanReceipt(env.crypto, db.registry, result, body, receipt.GetStr(AUTHORIZATION_ID).value, receipt.GetStr(GATE_SIGNATURE).value);
    CleanHash(env.crypto, db.registry, body, result.Get(POLICY_BUNDLE), result.Get(INTENT).value, result.GetStr(AGENT_SIGNATURE).GetOr(""));
    var doc :| doc in db.signed && DigestJson(env.crypto, doc) == receipt.GetStr(AUTHORIZATION_ID).value;
    ParserProofs.CanonicalInjective(doc, body);
    ParserProofs.CanonicalInjective(db.issued[body], result.Get(INTENT).value);
  }

  lemma CleanHash(c: Crypto, reg: Registry, body: Value, bundle: Option<Value>, intent: Value, agentSignature: string)
    requires Grounded(reg) && IntentFaults(c, reg, body, bundle, intent, agentSignature) == []
    ensures DigestJson(c, intent) == body.GetStr(INTENT_HASH).GetOr("")
  {
    hide Grounded, DigestJson, EvaluationFaults, DecisionFaults, ValidateIntent, Canonical.Text;
  }

  // ---- Executions ----

  /** What was true when an execution that verifies against a permit was recorded. */
  ghost predicate WasExecuted(c: Crypto, reg: Registry, permit: Value, execution: Value, executorId: string, completedAt: u64) {
    && execution.Get(OUTCOME).Some?
    && var outcome := execution.Get(OUTCOME).value;
    && ActiveAt(reg, executorId, completedAt)
    && (permit.GetStr(TENANT_ID).GetOr("*") == "*" || reg.agents[executorId].tenantId in {"*", permit.GetStr(TENANT_ID).GetOr("*")})
    && !IsProposer(reg.agents[executorId].metadata)
    && permit.Get(AGENT_ID) != Some(String(executorId))
    && c.verifies(executorId, TextBytes(Canonical.Text(OutcomeToSign(outcome))), outcome.GetStr(EXECUTOR_SIGNATURE).GetOr(""))
    && ValidateOutcome(outcome, permit.GetStr(AUTHORIZATION_ID).GetOr(""), permit.GetStr(ACTION_ID).GetOr("")).Some?
  }

  lemma ActiveNotBlank(env: Env, reg: Registry, clock: u64, key: string, at: u64)
    requires Honest(env) && RegistryOk(env, reg, clock) && Grounded(reg) && ActiveAt(reg, key, at)
    ensures key != ""
  {
    hide Grounded, EventOk, Vouches, EndFrom, EndMatches, ChainLength, DigestJson;
    assert AgentOk(env, reg, clock, key);
    assert StringField(reg.agents[key].event, AGENT_ID) == Some(key);
  }

  /** Any execution the verifier finds nothing wrong with speaks the truth too: whoever it names as
      executor was active and in scope at completion, no proposer and not the agent of the permit, and
      signed that outcome for that permit. */
  lemma VerifiedExecutionMeans(env: Env, run: seq<Timed>, authorization: Value, execution: Value)
    requires Honest(env) && Reached(env, run)
    requires Grounded(State(env, run).registry) && VerifyExecution(env.crypto, State(env, run).registry, authorization, execution) == []
    ensures var body := execution.Get(RECEIPT).GetOr(Null).Without({RECEIPT_ID, GATE_SIGNATURE});
      WasExecuted(env.crypto, State(env, run).registry, PermitOf(authorization), execution, body.GetStr(EXECUTOR_ID).GetOr(""),
                  body.U64At(COMPLETED_AT))
  {
    hide Inv, Honest, RevocationOk, Reached, State, Grounded, RegistryOk, VerifyExecution, VerifyExecutionReceipt, OutcomeFaults,
      ExecutorFaults, DigestJson, Canonical.Text, VerifyAgentInner, IsProposer, ValidateOutcome, OutcomeToSign;
    ReachedInOrder(env, run);
    var reg := State(env, run).registry;
    InvParts(env, State(env, run), Clock(run));
    CleanExecution(env.crypto, reg, authorization, execution);
    var receipt := execution.Get(RECEIPT).GetOr(Null);
    var body := receipt.Without({RECEIPT_ID, GATE_SIGNATURE});
    var permit := PermitOf(authorization);
    CleanExecutionReceipt(env.crypto, reg, permit, execution, body, receipt.GetStr(RECEIPT_ID).value, receipt.GetStr(GATE_SIGNATURE).value);
    var outcome := execution.Get(OUTCOME).value;
    CleanOutcome(env.crypto, reg, permit, body, outcome);
    var executorId, completedAt := body.GetStr(EXECUTOR_ID).GetOr(""), body.U64At(COMPLETED_AT);
    CleanExecutor(env.crypto, reg, executorId, completedAt, permit.GetStr(TENANT_ID).GetOr("*"));
    ViewMeans(env, reg, Clock(run), executorId, completedAt);
    ActiveNotBlank(env, reg, Clock(run), executorId, completedAt);
  }

  // ======== The streams of the gate only grow, and its checkpoints hold for ever.

  /** Every tenant's stream is a prefix of what it becomes. */
  ghost predicate Grows(t: Tables, t': Tables) {
    forall tenant: string {:trigger t'.Events(tenant)} :: t.Events(tenant) <= t'.Events(tenant)
  }

  lemma GrowsTogether(a: Tables, b: Tables, t: Tables)
    requires Grows(a, b) && Grows(b, t)
    ensures Grows(a, t)
  {
    forall tenant: string ensures a.Events(tenant) <= t.Events(tenant) {
      assert a.Events(tenant) <= b.Events(tenant);
    }
  }

  lemma RecordGrows(c: Crypto, t: Tables, tenant: string, eventType: string, eventId: string, payload: string, timestamp: u64)
    ensures var r := RecordEvent(c, t, tenant, eventType, eventId, payload, timestamp); r.Ok? ==> Grows(t, r.value)
  {
    hide NewRow, HasEventId, NextLink;
  }

  lemma InstallGrows(c: Crypto, store: PolicyStore.Store, events: Tables, signer: SignerIdentity, spec: Value, now: u64)
    ensures var r := PolicyStore.Install(c, store, events, signer, spec, now); r.Ok? ==> Grows(events, Good(r).events)
  {
    hide Grows, BundleFault, SpecFault, StringField, PolicyStore.SignBundle, DigestJson, RecordEvent, PolicyStore.ByVersion,
      PolicyStore.Retire, PolicyStore.Attest, Canonical.Text;
    var body := PolicyStore.SpecBody(spec, now, signer);
    RecordGrows(c, events, StringField(spec, TENANT_ID).GetOr(""), POLICY_PUBLISHED, DigestJson(c, body),
                Canonical.Text(PolicyStore.SignBundle(c, signer, body)), now);
    SameGrows(events);
    if SpecFault(spec).None? { PolicyStore.SpecHasFields(spec); }
  }

  lemma SameGrows(t: Tables)
    ensures Grows(t, t)
  {}

  lemma LookupGrows(c: Crypto, store: PolicyStore.Store, events: Tables, signer: SignerIdentity, tenant: string, now: u64)
    ensures Grows(events, PolicyStore.EnsureDefault(c, store, events, signer, now).events)
    ensures Grows(events, PolicyStore.ActivePolicy(c, store, events, signer, tenant, now).events)
  {
    hide Grows, PolicyStore.Install, BundleFault, StringField, PolicyStore.Resolve, PolicyStore.Attest, PolicyStore.ByVersion;
    SameGrows(events);
    InstallGrows(c, store, events, signer, PolicyStore.DEFAULT_SPEC, now);
  }

  lemma RegisterGrows(env: Env, db: Db, registrar: string, publicKey: string, alias: string, metadata: Option<Value>, now: u64)
    requires Grounded(db.registry)
    ensures Grows(db.streams, Register(env, db, registrar, publicKey, alias, metadata, now).db.streams)
  {
    hide Grows, Grounded, PrepareRegistration, AddAgent, LookupSigns, PolicyStore.EnsureDefault, RecordEvent, Canonical.Text;
    SameGrows(db.streams);
    if PrepareRegistration(env, db.registry, registrar, publicKey, alias, metadata, now).Ok? {
      var row := PrepareRegistration(env, db.registry, registrar, publicKey, alias, metadata, now).value;
      var lookup := PolicyStore.EnsureDefault(env.crypto, db.policies, db.streams, env.signerFor(registrar), now);
      LookupGrows(env.crypto, db.policies, db.streams, env.signerFor(registrar), "*", now);
      var streams := if db.registry.agents == map[] then lookup.events else db.streams;
      RecordGrows(env.crypto, streams, row.tenantId, AGENT_REGISTERED, row.eventId, Canonical.Text(row.event), now);
      var recorded := RecordEvent(env.crypto, streams, row.tenantId, AGENT_REGISTERED, row.eventId, Canonical.Text(row.event), now);
      if recorded.Ok? { GrowsTogether(db.streams, streams, recorded.value); }
    }
  }

  lemma DecideGrows(env: Env, db: Db, gate: string, intent: Value, fields: IntentFields, agentSignature: string, ttlSeconds: u64, now: u64)
    requires Grounded(db.registry)
    ensures Grows(db.streams, DecideRequest(env, db, gate, intent, fields, agentSignature, ttlSeconds, now).db.streams)
  {
    hide Grows, Grounded, GateIdentity, LookupSigns, PolicyStore.ActivePolicy, EvaluatePolicy, VerifyAgentInner, AuthorizationDraft, Decide,
      BodyOf, Canonical.Text;
    SameGrows(db.streams);
    LookupGrows(env.crypto, db.policies, db.streams, env.signerFor(gate), fields.tenantId, now);
  }

  lemma RequestGrows(env: Env, db: Db, gate: string, intent: Option<Value>, agentId: string, agentSignature: string, ttlSeconds: u64, now: u64)
    requires Grounded(db.registry)
    ensures Grows(db.streams, Request(env, db, gate, intent, agentId, agentSignature, ttlSeconds, now).db.streams)
  {
    hide Grows, Grounded, DecideRequest, ValidateIntent, VerifyAuthorization, ActionIdFor, DigestJson, RecordEvent, Canonical.Text;
    SameGrows(db.streams);
    var begun := BeginRequest(env, db, gate, intent, agentId, agentSignature, ttlSeconds, now);
    if intent.Some? && ValidateIntent(intent.value, agentId).Some? {
      DecideGrows(env, db, gate, intent.value, ValidateIntent(intent.value, agentId).value, agentSignature, ttlSeconds, now);
    }
    if begun.answer.Ok? && begun.answer.value.ToWrite? {
      var id, row := begun.answer.value.id, begun.answer.value.row;
      FinishRequestGrows(env, begun.db, id, row);
      GrowsTogether(db.streams, begun.db.streams, FinishRequest(env, begun.db, id, row).db.streams);
    }
  }

  lemma FinishRequestGrows(env: Env, db: Db, id: string, row: AuthorizationRow)
    ensures Grows(db.streams, FinishRequest(env, db, id, row).db.streams)
  {
    hide Grows, RecordEvent, Canonical.Text;
    SameGrows(db.streams);
    RecordGrows(env.crypto, db.streams, row.tenantId, ACTION_AUTHORIZED, id, Canonical.Text(row.json), row.issuedAt);
  }

  lemma FinishCommitGrows(env: Env, db: Db, id: string, row: OutcomeRow)
    ensures Grows(db.streams, FinishCommit(env, db, id, row).db.streams)
  {
    hide Grows, RecordEvent, Canonical.Text, OutcomeEvent;
    SameGrows(db.streams);
    if id in db.permits.authorizations {
      var (tenant, eventType) := OutcomeEvent(db, id, row);
      RecordGrows(env.crypto, db.streams, tenant, eventType, row.receiptId, Canonical.Text(row.json), row.completedAt);
    }
  }

  lemma CommitGrows(env: Env, db: Db, gate: string, id: string, outcome: Option<Value>, now: u64)
    requires Grounded(db.registry)
    ensures Grows(db.streams, Commit(env, db, gate, id, outcome, now).db.streams)
  {
    hide Grows, Grounded, FinishCommit, PermitRefusal, ExecutorRefusal, GateIdentity, OutcomeDraft, ValidateOutcome, OutcomeToSign,
      StringField, VerifyExecution, DigestJson, ExecutionBodyOf;
    SameGrows(db.streams);
    var begun := BeginCommit(env, db, gate, id, outcome, now);
    assert begun.db.streams == db.streams;
    if begun.answer.Ok? && begun.answer.value.ToWrite? {
      FinishCommitGrows(env, begun.db, begun.answer.value.id, begun.answer.value.row);
    }
  }

  lemma StepGrows(env: Env, db: Db, call: Call, now: u64)
    ensures Grows(db.streams, Step(env, db, call, now).streams)
  {
    hide Grows, Grounded, Register, RotateAgent, RevokeAgent, PolicyStore.Install, SpecSigns, Request, Commit, RevokePermits, RotationOf,
      RotatedRegistration, RevocationOf, DigestJson;
    SameGrows(db.streams);
    if !Grounded(db.registry) { return; }
    match call
    case RegisterCall(registrar, publicKey, alias, metadata) => RegisterGrows(env, db, registrar, publicKey, alias, metadata, now);
    case InstallCall(gate, spec) =>
      if spec.Some? { InstallGrows(env.crypto, db.policies, db.streams, env.signerFor(gate), spec.value, now); }
    case RequestCall(gate, intent, agentId, agentSignature, ttlSeconds) => RequestGrows(env, db, gate, intent, agentId, agentSignature, ttlSeconds, now);
    case CommitCall(gate, id, outcome) => CommitGrows(env, db, gate, id, outcome, now);
    case _ =>
  }

  lemma {:induction false} RunGrows(env: Env, db: Db, clock: u64, run: seq<Timed>)
    requires LegalRun(env, db, clock, run)
    ensures Grows(db.streams, RunFrom(env, db, run).streams)
    decreases |run|
  {
    hide Grows, Grounded, Step, Legal;
    SameGrows(db.streams);
    if run != [] {
      var db1 := Step(env, db, run[0].call, run[0].at);
      StepGrows(env, db, run[0].call, run[0].at);
      RunGrows(env, db1, run[0].at, run[1..]);
      GrowsTogether(db.streams, db1.streams, RunFrom(env, db1, run[1..]).streams);
    }
  }

  /** Whatever is called later, a tenant's stream keeps every event in its place. */
  lemma StreamsAppendOnly(env: Env, p: seq<Timed>, q: seq<Timed>, tenant: string)
    requires Reached(env, p + q)
    ensures Reached(env, p)
    ensures State(env, p).streams.Events(tenant) <= State(env, p + q).streams.Events(tenant)
  {
    hide LegalRun, RunFrom;
    RunSplits(env, Gate.EMPTY, EPOCH, p, q);
    RunGrows(env, State(env, p), Clock(p), q);
  }

  /** A checkpoint the gate signed after p verifies against an export from the stream after p + q exactly
      when the export holds as many events as the stream did when it was signed. */
  lemma CheckpointHoldsForever(env: Env, p: seq<Timed>, q: seq<Timed>, gate: string, tenant: string, sequence: u64, createdAt: u64, limit: nat)
    requires Honest(env) && env.crypto.isPublicKey(gate) && Reached(env, p + q)
    requires Reached(env, p) && 0 < |State(env, p).streams.Events(tenant)| <= I64_MAX
    ensures var rows, later := State(env, p).streams.Events(tenant), State(env, p + q).streams.Events(tenant);
      var checkpoint := CheckpointOver(env.crypto, env.signerFor(gate), tenant, sequence, rows, |rows|, createdAt);
      VerifyCheckpoint(env.crypto, checkpoint, Array(Export(later, 1, limit)), Some(gate)) == Ok(Verified(|rows|)) <==> Min(limit, |later|) == |rows|
  {
    hide Inv, Reached, State, Grounded, VerifyCheckpoint, Export, ChainOk, CheckpointOver, PermitsOk, RegistryOk, RevocationOk;
    StreamsAppendOnly(env, p, q, tenant);
    ReachedInOrder(env, p + q);
    InvParts(env, State(env, p + q), Clock(p + q));
    var rows, later := State(env, p).streams.Events(tenant), State(env, p + q).streams.Events(tenant);
    assert ChainOk(env.crypto, tenant, later);
    ChainLength64(env.crypto, tenant, later);
    SameCheckpoint(env.crypto, env.signerFor(gate), tenant, sequence, rows, later, createdAt);
    assert SignsCorrectly(env.crypto, gate);
    CheckpointComplete(env.crypto, env.signerFor(gate), tenant, sequence, later, |rows|, createdAt, limit);
  }

  lemma ChainLength64(c: Crypto, tenant: string, rows: seq<EventRow>)
    requires ChainOk(c, tenant, rows)
    ensures |rows| <= I64_MAX
  {}

  /** A checkpoint says the same of a stream and of what it has become. */
  lemma SameCheckpoint(c: Crypto, signer: SignerIdentity, tenant: string, sequence: u64, rows: seq<EventRow>, later: seq<EventRow>, createdAt: u64)
    requires rows <= later && 0 < |rows| && |later| <= I64_MAX
    ensures CheckpointOver(c, signer, tenant, sequence, later, |rows|, createdAt) == CheckpointOver(c, signer, tenant, sequence, rows, |rows|, createdAt)
  {
    hide Envelope, Sign, DigestText;
    assert later[..|rows|] == rows[..|rows|];
  }
}
