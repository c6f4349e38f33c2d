/** Requests and outcomes answered in stages. Each stage reads the clock and the tables once; between its
    stages a process holds what it has read, while others go on. When exactly a document made in stages
    verifies. */
module Stages {
  import opened Prelude
  import opened Names
  import opened Json
  import opened Crypto
  import opened Identity
  import opened Policy
  import opened Permits
  import opened Gate
  import opened IdentityProofs
  import opened PermitProofs
  import opened GateInv
  import Canonical
  import PolicyStore
  import IdentityOps

  // ---- What a process holds ----

  /** A request as it was asked. */
  datatype Asked = Asked(gate: string, intent: Value, fields: IntentFields, agentSignature: string, ttlSeconds: u64)

  /** How an authorization comes about: when its gate was found active, when it was dated and under
      which policy, and what its agent was found to be, when. */
  datatype Recipe = Recipe(asked: Asked, gateAt: u64, issuedAt: u64, expiresAt: u64, bundle: Value, policy: PolicyDecision,
                           agent: Option<AgentState>, agentAt: u64)

  /** An outcome offered for a permit that was found usable. */
  datatype Offered = Offered(gate: string, id: string, json: Value, outcome: Value, executorId: string, status: string)

  /** How an execution comes about: when its executor was found active, and when it was completed. */
  datatype Completion = Completion(offered: Offered, executorAt: u64, completedAt: u64)

  datatype Process =
    | Sought(asked: Asked)
    | Admitted(asked: Asked, gateAt: u64)
    | Dated(asked: Asked, gateAt: u64, issuedAt: u64, bundle: Value, policy: PolicyDecision)
    | Drafted(recipe: Recipe)
    | Checked(offered: Offered)
    | Cleared(offered: Offered, executorAt: u64)
    | Confirmed(offered: Offered, executorAt: u64)
    | Sealed(completion: Completion)
    | Reading(stage: Process, at: u64)      // the clock has been read for the stage, the tables not yet

  // ---- Requests ----

  function SignatureValid(env: Env, asked: Asked): bool {
    env.crypto.verifies(asked.fields.agentId, TextBytes(Canonical.Text(asked.intent)), asked.agentSignature)
  }

  function DecisionOf(env: Env, r: Recipe): Permits.Decision {
    Decide(SignatureValid(env, r.asked), r.agent, r.asked.fields, r.issuedAt, r.policy)
  }

  /** The row a recipe makes, and its id. */
  function RowOf(env: Env, r: Recipe): (string, AuthorizationRow) {
    AuthorizationDraft(env, r.asked.fields, r.asked.intent, r.asked.agentSignature, r.asked.gate, r.bundle, r.policy,
                       DecisionOf(env, r), r.issuedAt, r.expiresAt)
  }

  /** The checks that need no clock: a valid intent whose action has not been decided. */
  function Seek(env: Env, db: Db, gate: string, intent: Option<Value>, agentId: string, agentSignature: string, ttlSeconds: u64): Option<Asked> {
    if !(1 <= ttlSeconds <= 86_400) || intent.None? then None
    else match ValidateIntent(intent.value, agentId)
      case None => None
      case Some(fields) =>
        var actionId := ActionIdFor(env.crypto, fields);
        if actionId in db.permits.byAction && db.permits.byAction[actionId] in db.permits.authorizations then None
        else Some(Asked(gate, intent.value, fields, agentSignature, ttlSeconds))
  }

  /** The gate's key is an active delegator. */
  ghost function Admit(env: Env, db: Db, asked: Asked, at: u64): (Db, Option<Process>) {
    (db, if GateIdentity(env.crypto, db.registry, asked.gate, at).Ok? then Some(Admitted(asked, at)) else None)
  }

  /** The time of issue, and the policy in force. */
  function Date(env: Env, db: Db, asked: Asked, gateAt: u64, at: u64): (Db, Option<Process>) {
    var signer := env.signerFor(asked.gate);
    var lookup := PolicyStore.ActivePolicy(env.crypto, db.policies, db.streams, signer, asked.fields.tenantId, at);
    (db.(policies := lookup.store, streams := lookup.events, signed := db.signed + LookupSigns(env.crypto, db.policies, signer, at)),
     match lookup.bundle
     case Err(_) => None
     case Ok(bundle) =>
       match EvaluatePolicy(env.crypto, bundle, asked.intent, asked.ttlSeconds)
       case Err(_) => None
       case Ok(policy) => Some(Dated(asked, gateAt, at, bundle, policy)))
  }

  /** What the agent's key is now, and the decision. */
  ghost function DraftDecision(env: Env, db: Db, asked: Asked, gateAt: u64, issuedAt: u64, bundle: Value, policy: PolicyDecision, at: u64): (Db, Option<Process>) {
    match VerifyAgentAt(env.crypto, db.registry, asked.fields.agentId, at)
    case Err(_) => (db, None)
    case Ok(agent) => DraftFor(env, db, asked, gateAt, issuedAt, bundle, policy, agent, at)
  }

  /** ... on what it was found to be. */
  function DraftFor(env: Env, db: Db, asked: Asked, gateAt: u64, issuedAt: u64, bundle: Value, policy: PolicyDecision, agent: Option<AgentState>, at: u64)
    : (Db, Option<Process>)
  {
    if issuedAt + asked.ttlSeconds * MICROS_PER_SECOND > U64_MAX then (db, None)
    else
      var recipe := Recipe(asked, gateAt, issuedAt, Expiry(issuedAt, asked.ttlSeconds), bundle, policy, agent, at);
      var body := BodyOf(RowOf(env, recipe).1);
      (db.(signed := db.signed + {body}, issued := db.issued[body := asked.intent]), Some(Drafted(recipe)))
  }

  // ---- Outcomes ----

  function OutcomeOf(env: Env, c: Completion): OutcomeRow {
    OutcomeDraft(env, c.offered.id, PermitOf(c.offered.json), c.offered.outcome, c.offered.executorId, c.offered.status, c.offered.gate, c.completedAt)
  }

  /** What the policy and the permit say against an executor, whatever its key. */
  function ExecutorObjection(env: Env, json: Value, executorId: string): Option<GateError> {
    if StringField(PermitOf(json), AGENT_ID).None? then Some(ContractInvalid)
    else if Some(executorId) == StringField(PermitOf(json), AGENT_ID) then Some(ExecutorInvalid)
    else if json.Get(POLICY_BUNDLE).None? then Some(ContractInvalid)
    else match ExecutorAllowed(env.crypto, json.Get(POLICY_BUNDLE).value, executorId)
      case Err(e) => Some(EvaluationFailed(e))
      case Ok(allowed) => if allowed then None else Some(ExecutorPolicyDenied)
  }

  /** The permit is usable and not consumed, and the outcome is well formed. */
  ghost function Offer(env: Env, db: Db, gate: string, id: string, outcome: Option<Value>, at: u64): Option<Offered> {
    if !Grounded(db.registry) then None
    else if PermitRefusal(env, db, id, at).Some? || id !in db.permits.authorizations || id in db.permits.outcomes then None
    else if outcome.None? || The(outcome).GetStr(EXECUTOR_SIGNATURE).None? then None
    else
      var json := Entry(db.permits.authorizations, id).json;
      var toSign := OutcomeToSign(The(outcome));
      match (ValidateOutcome(toSign, id, StringField(PermitOf(json), ACTION_ID).GetOr("")), StringField(toSign, EXECUTOR_ID))
      case (Some(status), Some(executorId)) =>
        if ExecutorObjection(env, json, executorId).Some? then None
        else Some(Offered(gate, id, json, The(outcome), executorId, status))
      case _ => None
  }

  function Signature(o: Offered): string {
    o.outcome.GetStr(EXECUTOR_SIGNATURE).GetOr("")
  }

  /** The executor's key is active and in scope, and has signed the outcome. */
  ghost function Clear(env: Env, db: Db, o: Offered, at: u64): (Db, Option<Process>) {
    (db, if IdentityRefusal(env, db, PermitOf(o.json), o.executorId, OutcomeToSign(o.outcome), Signature(o), at).None?
         then Some(Cleared(o, at)) else None)
  }

  /** The gate's key is an active delegator. */
  ghost function Confirm(env: Env, db: Db, o: Offered, executorAt: u64, at: u64): (Db, Option<Process>) {
    (db, if GateIdentity(env.crypto, db.registry, o.gate, at).Ok? then Some(Confirmed(o, executorAt)) else None)
  }

  /** The time of completion, and the receipt. */
  function Seal(env: Env, db: Db, o: Offered, executorAt: u64, at: u64): (Db, Option<Process>) {
    if StringField(PermitOf(o.json), INTENT_HASH).None? then (db, None)
    else
      var done := Completion(o, executorAt, at);
      (db.(signed := db.signed + {ExecutionBodyOf(OutcomeOf(env, done))}), Some(Sealed(done)))
  }

  // ---- One stage after another ----

  /** The next stage of a process: what it leaves, and the process if it goes on. */
  ghost function Next(env: Env, db: Db, process: Process, at: u64): (Db, Option<Process>) {
    if !Grounded(db.registry) then (db, None) else
    match process
    case Sought(asked) => Admit(env, db, asked, at)
    case Admitted(asked, gateAt) => Date(env, db, asked, gateAt, at)
    case Dated(asked, gateAt, issuedAt, bundle, policy) => DraftDecision(env, db, asked, gateAt, issuedAt, bundle, policy, at)
    case Checked(offered) => Clear(env, db, offered, at)
    case Cleared(offered, executorAt) => Confirm(env, db, offered, executorAt, at)
    case Confirmed(offered, executorAt) => Seal(env, db, offered, executorAt, at)
    case Drafted(_) => (db, Some(process))
    case Sealed(_) => (db, Some(process))
    case Reading(_, _) => (db, Some(process))
  }

  /** The stage of a process that has read the clock for it. */
  ghost function Onward(env: Env, db: Db, process: Process): (Db, Option<Process>) {
    match process
    case Reading(stage, at) => Next(env, db, stage, at)
    case _ => (db, Some(process))
  }

  /** The decision of a process whose check of the agent's key was torn: the key's row was read before an end
      of the key was written, its events after. Such a check finds no key. */
  ghost function Unfound(env: Env, db: Db, process: Process): (Db, Option<Process>) {
    match process
    case Reading(Dated(asked, gateAt, issuedAt, bundle, policy), at) => DraftFor(env, db, asked, gateAt, issuedAt, bundle, policy, None, at)
    case _ => (db, Some(process))
  }

  /** Stages leave keys and permits alone. */
  lemma NextReads(env: Env, db: Db, process: Process, at: u64)
    ensures Next(env, db, process, at).0.registry == db.registry && Next(env, db, process, at).0.permits == db.permits
  {
    hide Grounded, GateIdentity, PolicyStore.ActivePolicy, LookupSigns, EvaluatePolicy, VerifyAgentInner, RowOf, BodyOf, IdentityRefusal,
      OutcomeOf, ExecutionBodyOf, OutcomeToSign, Signature, StringField;
  }

  /** Three stages at one instant. */
  ghost function Thrice(env: Env, db: Db, process: Process, at: u64): (Db, Option<Process>) {
    var first := Next(env, db, process, at);
    if first.1.None? then first
    else
      var second := Next(env, first.0, The(first.1), at);
      if second.1.None? then second else Next(env, second.0, The(second.1), at)
  }

  /** With nothing in between, the stages of a request are its read phase. */
  lemma RequestStages(env: Env, db: Db, gate: string, intent: Option<Value>, agentId: string, agentSignature: string, ttlSeconds: u64, now: u64)
    requires Grounded(db.registry)
    ensures var begun := BeginRequest(env, db, gate, intent, agentId, agentSignature, ttlSeconds, now);
      var asked := Seek(env, db, gate, intent, agentId, agentSignature, ttlSeconds);
      && (asked.None? ==> begun.db == db && (begun.answer.Err? || begun.answer.value.Stored?))
      && (asked.Some? ==>
            var done := Thrice(env, db, Sought(asked.value), now);
            && begun.db == done.0
            && (begun.answer.Ok? <==> done.1.Some?)
            && (done.1.Some? ==>
                  && done.1.value.Drafted?
                  && begun.answer.value == ToWrite(RowOf(env, done.1.value.recipe).0, RowOf(env, done.1.value.recipe).1)))
  {
    hide Grounded, VerifyAgentInner, VerifyAuthorization, ValidateIntent, ActionIdFor, DigestJson, PolicyStore.ActivePolicy, LookupSigns,
      EvaluatePolicy, AuthorizationDraft, BodyOf, Decide, Canonical.Text;
  }

  lemma ObjectionFirst(env: Env, db: Db, json: Value, executorId: string, toSign: Value, signature: string, now: u64)
    requires Grounded(db.registry)
    ensures ExecutorRefusal(env, db, json, PermitOf(json), executorId, toSign, signature, now)
      == if ExecutorObjection(env, json, executorId).Some? then ExecutorObjection(env, json, executorId)
         else IdentityRefusal(env, db, PermitOf(json), executorId, toSign, signature, now)
  {
    hide Grounded, IdentityRefusal, ExecutorAllowed, StringField;
  }

  /** ... and those of an outcome are its. */
  lemma CommitStages(env: Env, db: Db, gate: string, id: string, outcome: Option<Value>, now: u64)
    requires Grounded(db.registry)
    ensures var begun := BeginCommit(env, db, gate, id, outcome, now);
      var offered := Offer(env, db, gate, id, outcome, now);
      && (offered.None? ==> begun.db == db && (begun.answer.Err? || begun.answer.value.Stored?))
      && (offered.Some? ==>
            var done := Thrice(env, db, Checked(offered.value), now);
            && begun.db == done.0
            && (begun.answer.Ok? <==> done.1.Some?)
            && (done.1.Some? ==> done.1.value.Sealed? && begun.answer.value == ToWrite(id, OutcomeOf(env, done.1.value.completion))))
  {
    hide Grounded, VerifyAgentInner, VerifyExecution, PermitRefusal, ExecutorRefusal, IdentityRefusal, ExecutorObjection, ValidateOutcome,
      OutcomeToSign, StringField, DigestJson, GateIdentity, OutcomeDraft, ExecutionBodyOf, Date, DraftDecision, Canonical.Text;
    if id in db.permits.authorizations && outcome.Some? {
      var json := db.permits.authorizations[id].json;
      var toSign := OutcomeToSign(outcome.value);
      ObjectionFirst(env, db, json, StringField(toSign, EXECUTOR_ID).GetOr(""), toSign, outcome.value.GetStr(EXECUTOR_SIGNATURE).GetOr(""), now);
    }
  }

  // ======== When exactly a document made in stages verifies: what may not happen between its stages.

  // ---- What the stages have established ----

  /** A key was an active delegator. */
  ghost predicate Delegates(env: Env, reg: Registry, key: string, at: u64) {
    Grounded(reg) && var state := ActiveView(VerifyAgentAt(env.crypto, reg, key, at)); state.Some? && The(state).canDelegate
  }

  ghost predicate AskedOk(env: Env, asked: Asked) {
    env.crypto.isPublicKey(asked.gate) && ValidateIntent(asked.intent, asked.fields.agentId) == Some(asked.fields)
  }

  /** The policy is the gate's own, intact, and evaluated. */
  ghost predicate GovernedBy(env: Env, asked: Asked, bundle: Value, policy: PolicyDecision) {
    && BundleFault(env.crypto, bundle, Some(asked.gate)).None?
    && bundle.Get(SIGNER) == Some(env.signerFor(asked.gate).ToJson())
    && StringField(bundle, POLICY_VERSION).Some? && StringField(bundle, POLICY_DIGEST).Some?
    && EvaluatePolicy(env.crypto, bundle, asked.intent, asked.ttlSeconds) == Ok(policy)
  }

  /** The agent was found to be what it was, or not found. */
  ghost predicate AgentWas(env: Env, reg: Registry, r: Recipe) {
    Grounded(reg) && (r.agent.None? || ActiveView(VerifyAgentAt(env.crypto, reg, r.asked.fields.agentId, r.agentAt)) == ActiveView(Ok(r.agent)))
  }

  /** The check of the agent's key was torn: it found no key, though the key was active. */
  ghost predicate Torn(reg: Registry, r: Recipe) {
    r.agent.None? && ActiveAt(reg, r.asked.fields.agentId, r.agentAt)
  }

  /** The agent was found to be at its check what it was at the time of issue. */
  ghost predicate FoundSame(reg: Registry, r: Recipe) {
    if Torn(reg, r) then !ActiveAt(reg, r.asked.fields.agentId, r.issuedAt) else !Changed(reg, r.asked.fields.agentId, r.issuedAt, r.agentAt)
  }

  ghost predicate RecipeOk(env: Env, reg: Registry, clock: u64, r: Recipe) {
    && AskedOk(env, r.asked) && GovernedBy(env, r.asked, r.bundle, r.policy)
    && r.gateAt < r.issuedAt < r.agentAt <= clock
    && r.expiresAt == r.issuedAt + r.asked.ttlSeconds * MICROS_PER_SECOND
    && Delegates(env, reg, r.asked.gate, r.gateAt)
    && AgentWas(env, reg, r)
  }

  ghost predicate OfferedOk(env: Env, permit: AuthorizationRow, o: Offered) {
    && env.crypto.isPublicKey(o.gate)
    && o.json == permit.json && o.json.Get(AUTHORIZATION).Some?
    && PermitOf(o.json).GetStr(AUTHORIZATION_ID) == Some(o.id)
    && StringField(PermitOf(o.json), ACTION_ID) == Some(permit.actionId)
    && ExecutorObjection(env, o.json, o.executorId).None?
    && ValidateOutcome(OutcomeToSign(o.outcome), o.id, permit.actionId) == Some(o.status)
  }

  /** The executor was active, in scope and no proposer, and has signed the outcome. */
  ghost predicate Acts(env: Env, reg: Registry, o: Offered, at: u64) {
    && Grounded(reg)
    && StringField(PermitOf(o.json), TENANT_ID).Some?
    && env.crypto.verifies(o.executorId, TextBytes(Canonical.Text(OutcomeToSign(o.outcome))), Signature(o))
    && var state := ActiveView(VerifyAgentAt(env.crypto, reg, o.executorId, at));
    && state.Some?
    && The(state).tenantId in {"*", The(StringField(PermitOf(o.json), TENANT_ID))}
    && !IsProposer(The(state).metadata)
  }

  ghost predicate CompletionOk(env: Env, reg: Registry, clock: u64, permit: AuthorizationRow, c: Completion) {
    && OfferedOk(env, permit, c.offered)
    && Acts(env, reg, c.offered, c.executorAt)
    && StringField(PermitOf(c.offered.json), INTENT_HASH).Some?
    && c.executorAt < c.completedAt <= clock
  }

  // ---- What was established stays so ----

  lemma DelegatesKept(env: Env, reg: Registry, reg': Registry, clock: u64, now: u64, key: string, at: u64)
    requires RegistryOk(env, reg, clock) && RegistryOk(env, reg', now) && Evolves(reg, reg', clock) && at <= clock
    ensures Delegates(env, reg, key, at) ==> Delegates(env, reg', key, at)
  {
    hide AgentOk, EventOk, Grounded, Evolves, VerifyAgentInner;
    EvolutionKeepsViews(env, reg, reg', clock, now, at);
    if Delegates(env, reg, key, at) { assert VerifyAgentAt(env.crypto, reg', key, at).Ok?; }
  }

  lemma RecipeKept(env: Env, reg: Registry, reg': Registry, clock: u64, now: u64, r: Recipe)
    requires RegistryOk(env, reg, clock) && RegistryOk(env, reg', now) && Evolves(reg, reg', clock) && clock <= now
    requires RecipeOk(env, reg, clock, r)
    ensures RecipeOk(env, reg', now, r)
  {
    hide AgentOk, EventOk, Grounded, Evolves, VerifyAgentInner, GovernedBy, AskedOk, Delegates;
    DelegatesKept(env, reg, reg', clock, now, r.asked.gate, r.gateAt);
    EvolutionKeepsViews(env, reg, reg', clock, now, r.agentAt);
    assert VerifyAgentAt(env.crypto, reg', r.asked.fields.agentId, r.agentAt).Ok?;
  }

  lemma ActsKept(env: Env, reg: Registry, reg': Registry, clock: u64, now: u64, o: Offered, at: u64)
    requires RegistryOk(env, reg, clock) && RegistryOk(env, reg', now) && Evolves(reg, reg', clock) && at <= clock
    ensures Acts(env, reg, o, at) ==> Acts(env, reg', o, at)
  {
    hide AgentOk, EventOk, Grounded, Evolves, VerifyAgentInner, IsProposer, OutcomeToSign, Canonical.Text, Signature, StringField;
    EvolutionKeepsViews(env, reg, reg', clock, now, at);
    if Acts(env, reg, o, at) { assert VerifyAgentAt(env.crypto, reg', o.executorId, at).Ok?; }
  }

  lemma CompletionKept(env: Env, reg: Registry, reg': Registry, clock: u64, now: u64, permit: AuthorizationRow, c: Completion)
    requires RegistryOk(env, reg, clock) && RegistryOk(env, reg', now) && Evolves(reg, reg', clock) && clock <= now
    requires CompletionOk(env, reg, clock, permit, c)
    ensures CompletionOk(env, reg', now, permit, c)
  {
    hide RegistryOk, Evolves, OfferedOk, Acts, StringField;
    ActsKept(env, reg, reg', clock, now, c.offered, c.executorAt);
  }

  // ---- Events between two instants ----

  /** The key ended after one instant, and not after the other. */
  predicate Ended(reg: Registry, key: string, start: u64, end: u64) {
    key in reg.agents && reg.agents[key].validUntil.Some? && start < reg.agents[key].validUntil.value <= end
  }

  /** The key was registered after one instant, and not after the other. */
  predicate Began(reg: Registry, key: string, start: u64, end: u64) {
    key in reg.agents && start < reg.agents[key].registeredAt <= end
  }

  /** A key within reach of the root became active between two instants, or ceased to be: its
      registration or its end falls between them, and not both. */
  ghost predicate Changed(reg: Registry, key: string, start: u64, end: u64) {
    key in reg.agents && ChainLength(reg, key) <= LONGEST_CHAIN && Began(reg, key, start, end) != Ended(reg, key, start, end)
  }

  lemma ChangedMeans(env: Env, reg: Registry, clock: u64, key: string, start: u64, end: u64)
    requires RegistryOk(env, reg, clock) && Grounded(reg) && start <= end
    ensures Changed(reg, key, start, end) <==> (ActiveAt(reg, key, start) != ActiveAt(reg, key, end))
  {
    hide AgentOk, EventOk, Grounded, ChainLength;
    if key in reg.agents {
      assert AgentOk(env, reg, clock, key);
      IdentityOps.AgentWindow(env, reg, clock, key);
    }
  }

  lemma EndedMeans(env: Env, reg: Registry, clock: u64, key: string, start: u64, end: u64)
    requires RegistryOk(env, reg, clock) && Grounded(reg) && start <= end
    requires ActiveAt(reg, key, start)
    ensures Ended(reg, key, start, end) <==> !ActiveAt(reg, key, end)
  {
    hide AgentOk, EventOk, Grounded, ChainLength;
  }

  // ---- Authorizations ----

  /** A decision rests on the agent's state only if that is an active one. */
  lemma DecideByView(signatureValid: bool, a: Option<AgentState>, b: Option<AgentState>, fields: IntentFields, issuedAt: u64, policy: PolicyDecision)
    requires ActiveView(Ok(a)) == ActiveView(Ok(b))
    ensures Decide(signatureValid, a, fields, issuedAt, policy) == Decide(signatureValid, b, fields, issuedAt, policy)
  {}

  /** The reasons of a policy are its own. */
  lemma PolicyReasons(c: Crypto, bundle: Value, intent: Value, ttlSeconds: u64)
    requires EvaluatePolicy(c, bundle, intent, ttlSeconds).Ok?
    ensures Good(EvaluatePolicy(c, bundle, intent, ttlSeconds)).reasonCodes != [AGENT_NOT_REGISTERED]
  {
    hide BundleFault, DigestJson, MoneyReasons, Utf8Length, MatchesPatterns, Canonical.Text, StringField;
    var constraints := MemberObject(bundle, CONSTRAINTS).value;
    if DenialReasons(bundle, constraints, intent, ttlSeconds).Ok? {
      ReasonsKnown(bundle, constraints, intent, ttlSeconds);
      assert AGENT_NOT_REGISTERED in [AGENT_NOT_REGISTERED];
    }
  }

  lemma ReasonsKnown(bundle: Value, constraints: Value, intent: Value, ttlSeconds: u64)
    requires DenialReasons(bundle, constraints, intent, ttlSeconds).Ok?
    ensures AGENT_NOT_REGISTERED !in Good(DenialReasons(bundle, constraints, intent, ttlSeconds))
  {
    hide MoneyAllowed, Utf8Length, MatchesPatterns, Canonical.Text, StringField;
  }

  /** With a valid signature the decision tells whether the agent was active. */
  lemma DecisionTells(a: Option<AgentState>, b: Option<AgentState>, fields: IntentFields, issuedAt: u64, policy: PolicyDecision)
    requires policy.reasonCodes != [AGENT_NOT_REGISTERED]
    requires Decide(true, a, fields, issuedAt, policy).reasonCodes == Decide(true, b, fields, issuedAt, policy).reasonCodes
    ensures ActiveView(Ok(a)).Some? <==> ActiveView(Ok(b)).Some?
  {
    hide SaturatingSub;
  }

  lemma TextArrayInjective(a: seq<string>, b: seq<string>)
    requires TextArray(a) == TextArray(b)
    ensures a == b
  {
    assert |TextArray(a).items| == |a| && |TextArray(b).items| == |b|;
    forall i | 0 <= i < |a| ensures a[i] == b[i] {
      assert TextArray(a).items[i] == String(a[i]);
      assert TextArray(b).items[i] == String(b[i]);
    }
  }

  /** What the verifier makes of the decision when it finds nothing wrong. */
  lemma CleanDecide(c: Crypto, reg: Registry, body: Value, bundle: Value, intent: Value, agentSignature: string)
    requires Grounded(reg) && IntentFaults(c, reg, body, Some(bundle), intent, agentSignature) == []
    ensures var issuedAt, agentId := body.U64At(ISSUED_AT), body.GetStr(AGENT_ID).GetOr("");
      var ttlSeconds := TtlSeconds(issuedAt, body.U64At(EXPIRES_AT));
      && ValidateIntent(intent, agentId).Some?
      && EvaluatePolicy(c, bundle, intent, ttlSeconds).Ok?
      && VerifyAgentAt(c, reg, The(ValidateIntent(intent, agentId)).agentId, issuedAt).Ok?
      && var fields := The(ValidateIntent(intent, agentId));
         body.Get(REASON_CODES) == Some(TextArray(Decide(c.verifies(agentId, TextBytes(Canonical.Text(intent)), agentSignature),
           Good(VerifyAgentAt(c, reg, fields.agentId, issuedAt)), fields, issuedAt, Good(EvaluatePolicy(c, bundle, intent, ttlSeconds))).reasonCodes))
  {
    hide Grounded, DigestJson, EvaluatePolicy, ValidateIntent, VerifyAgentInner, Canonical.Text, TtlSeconds, DeniedForIdentityOrTime,
      Decide, TextArray, ListsReason, EvaluationFaults;
  }

  /** Which agent state the verifier decides on. */
  lemma SameDecision(env: Env, reg: Registry, clock: u64, r: Recipe)
    requires RegistryOk(env, reg, clock) && Grounded(reg) && RecipeOk(env, reg, clock, r)
    ensures VerifyAgentAt(env.crypto, reg, r.asked.fields.agentId, r.issuedAt).Ok?
    ensures !SignatureValid(env, r.asked) || FoundSame(reg, r) ==>
      DecisionOf(env, r) == Decide(SignatureValid(env, r.asked), Good(VerifyAgentAt(env.crypto, reg, r.asked.fields.agentId, r.issuedAt)),
                                   r.asked.fields, r.issuedAt, r.policy)
  {
    hide RegistryOk, Grounded, GovernedBy, AskedOk, Delegates, VerifyAgentInner, ChainLength, SignatureValid, Changed, ClosedForm;
    var agentId := r.asked.fields.agentId;
    ChangedMeans(env, reg, clock, agentId, r.issuedAt, r.agentAt);
    ViewMeans(env, reg, clock, agentId, r.issuedAt);
    ViewMeans(env, reg, clock, agentId, r.agentAt);
    VerifyIsClosedForm(env, reg, clock, agentId, r.issuedAt);
    if FoundSame(reg, r) {
      DecideByView(SignatureValid(env, r.asked), r.agent, VerifyAgentAt(env.crypto, reg, agentId, r.issuedAt).value, r.asked.fields, r.issuedAt, r.policy);
    }
  }

  lemma GateStillActive(env: Env, reg: Registry, clock: u64, r: Recipe)
    requires RegistryOk(env, reg, clock) && Grounded(reg) && RecipeOk(env, reg, clock, r)
    ensures !Ended(reg, r.asked.gate, r.gateAt, r.issuedAt) <==> GateIdentity(env.crypto, reg, r.asked.gate, r.issuedAt).Ok?
    ensures GateIdentity(env.crypto, reg, r.asked.gate, r.issuedAt).Ok? <==> GateFaults(env.crypto, reg, r.asked.gate, r.issuedAt) == []
  {
    hide RegistryOk, Grounded, GovernedBy, AskedOk, AgentWas, VerifyAgentInner, ChainLength;
    ViewMeans(env, reg, clock, r.asked.gate, r.gateAt);
    ViewMeans(env, reg, clock, r.asked.gate, r.issuedAt);
    EndedMeans(env, reg, clock, r.asked.gate, r.gateAt, r.issuedAt);
    VerifyIsClosedForm(env, reg, clock, r.asked.gate, r.issuedAt);
  }

  /** An authorization verifies when the gate's key had not ended by the time of issue, and the agent's
      key was at the time of issue what it was when the decision was made. */
  lemma SteadyVerifies(env: Env, reg: Registry, clock: u64, r: Recipe)
    requires Honest(env) && RegistryOk(env, reg, clock) && Grounded(reg) && RecipeOk(env, reg, clock, r)
    requires !Ended(reg, r.asked.gate, r.gateAt, r.issuedAt)
    requires !SignatureValid(env, r.asked) || FoundSame(reg, r)
    ensures VerifyAuthorization(env.crypto, reg, RowOf(env, r).1.json) == []
  {
    hide RegistryOk, Grounded, GateIdentity, VerifyAgentInner, ChainLength, VerifyAuthorization, Changed, Ended, EvaluatePolicy,
      BundleFault, ValidateIntent, StringField, Decide, Canonical.Text, AuthorizationDraft, AgentWas, Delegates;
    GateStillActive(env, reg, clock, r);
    SameDecision(env, reg, clock, r);
    FreshAuthorizationClean(env, reg, r.asked.gate, r.asked.intent, r.asked.fields, r.asked.agentSignature, r.asked.ttlSeconds, r.bundle, r.policy,
                            DecisionOf(env, r), r.issuedAt);
  }

  /** What verifying a recipe's document checks of its gate and agent. */
  lemma VerifiedRecipe(env: Env, reg: Registry, clock: u64, r: Recipe)
    requires Honest(env) && Grounded(reg) && RecipeOk(env, reg, clock, r)
    requires VerifyAuthorization(env.crypto, reg, RowOf(env, r).1.json) == []
    ensures GateFaults(env.crypto, reg, r.asked.gate, r.issuedAt) == []
    ensures VerifyAgentAt(env.crypto, reg, r.asked.fields.agentId, r.issuedAt).Ok?
    ensures DecisionOf(env, r).reasonCodes == Decide(SignatureValid(env, r.asked),
      Good(VerifyAgentAt(env.crypto, reg, r.asked.fields.agentId, r.issuedAt)), r.asked.fields, r.issuedAt, r.policy).reasonCodes
  {
    hide Grounded, VerifyAgentInner, VerifyAuthorization, EvaluatePolicy, BundleFault, ValidateIntent, StringField, Decide, Canonical.Text,
      AuthorizationDraft, AgentWas, Delegates, DigestJson, VerifyReceipt, IntentFaults, GateFaults, TextArray, AuthorizationResult, Receipt,
      DraftReceipt, ActionIdFor, TtlSeconds;
    var json := RowOf(env, r).1.json;
    var fields := r.asked.fields;
    DraftReadsBack(env, fields, r.asked.intent, r.asked.agentSignature, r.asked.gate, r.bundle, r.policy, DecisionOf(env, r), r.issuedAt, r.expiresAt);
    var body := DraftReceipt(env, fields, r.asked.intent, r.asked.gate, r.bundle, r.policy, DecisionOf(env, r), r.issuedAt, r.expiresAt);
    var receipt := Receipt(env.crypto, body, AUTHORIZATION_ID, r.asked.gate);
    ResultReadsBack(receipt, r.asked.intent, r.asked.agentSignature, r.bundle);
    CleanAuthorization(env.crypto, reg, json);
    var id, signature := receipt.GetStr(AUTHORIZATION_ID).value, receipt.GetStr(GATE_SIGNATURE).value;
    CleanReceipt(env.crypto, reg, json, body, id, signature);
    ReceiptTrust(env.crypto, reg, json, body, id, signature);
    CleanDecide(env.crypto, reg, body, r.bundle, r.asked.intent, r.asked.agentSignature);
    TtlReadsBack(r.issuedAt, r.asked.ttlSeconds);
    assert env.signerFor(r.asked.gate).publicKey == r.asked.gate;
    TextArrayInjective(DecisionOf(env, r).reasonCodes, Decide(SignatureValid(env, r.asked),
      VerifyAgentAt(env.crypto, reg, fields.agentId, r.issuedAt).value, fields, r.issuedAt, r.policy).reasonCodes);
  }

  /** An authorization made in stages verifies exactly when the gate's key did not end between the
      check of the gate and the time of issue and, if the agent's signature is valid, the agent's key
      neither became active nor ceased to be between the time of issue and the decision. */
  lemma AuthorizationExactly(env: Env, reg: Registry, clock: u64, r: Recipe)
    requires Honest(env) && RegistryOk(env, reg, clock) && Grounded(reg) && RecipeOk(env, reg, clock, r)
    ensures VerifyAuthorization(env.crypto, reg, RowOf(env, r).1.json) == [] <==>
      && !Ended(reg, r.asked.gate, r.gateAt, r.issuedAt)
      && (SignatureValid(env, r.asked) ==> FoundSame(reg, r))
  {
    hide RegistryOk, Grounded, GateIdentity, VerifyAgentInner, ChainLength, VerifyAuthorization, Changed, Ended, EvaluatePolicy,
      BundleFault, ValidateIntent, StringField, Decide, Canonical.Text, RowOf, Delegates, GateFaults, SignatureValid, ActiveAt;
    if VerifyAuthorization(env.crypto, reg, RowOf(env, r).1.json) == [] {
      VerifiedRecipe(env, reg, clock, r);
      GateStillActive(env, reg, clock, r);
      if SignatureValid(env, r.asked) {
        var agentId := r.asked.fields.agentId;
        PolicyReasons(env.crypto, r.bundle, r.asked.intent, r.asked.ttlSeconds);
        DecisionTells(r.agent, VerifyAgentAt(env.crypto, reg, agentId, r.issuedAt).value, r.asked.fields, r.issuedAt, r.policy);
        ViewMeans(env, reg, clock, agentId, r.issuedAt);
        ViewMeans(env, reg, clock, agentId, r.agentAt);
        ChangedMeans(env, reg, clock, agentId, r.issuedAt, r.agentAt);
      }
    } else if !Ended(reg, r.asked.gate, r.gateAt, r.issuedAt)
              && (SignatureValid(env, r.asked) ==> FoundSame(reg, r)) {
      SteadyVerifies(env, reg, clock, r);
    }
  }

  // ---- Executions ----

  lemma ExecutorStillActive(env: Env, reg: Registry, clock: u64, permit: AuthorizationRow, c: Completion)
    requires RegistryOk(env, reg, clock) && Grounded(reg) && CompletionOk(env, reg, clock, permit, c)
    requires !Ended(reg, c.offered.executorId, c.executorAt, c.completedAt)
    ensures IdentityRefusal(env, Gate.EMPTY.(registry := reg), PermitOf(c.offered.json), c.offered.executorId, OutcomeToSign(c.offered.outcome),
                            Signature(c.offered), c.completedAt).None?
  {
    hide RegistryOk, Grounded, OfferedOk, VerifyAgentInner, ChainLength, StringField, IsProposer, Canonical.Text, OutcomeToSign, Signature;
    ViewMeans(env, reg, clock, c.offered.executorId, c.executorAt);
    ViewMeans(env, reg, clock, c.offered.executorId, c.completedAt);
    EndedMeans(env, reg, clock, c.offered.executorId, c.executorAt, c.completedAt);
    VerifyIsClosedForm(env, reg, clock, c.offered.executorId, c.completedAt);
  }

  lemma SteadyExecution(env: Env, reg: Registry, clock: u64, permit: AuthorizationRow, c: Completion)
    requires Honest(env) && RegistryOk(env, reg, clock) && Grounded(reg) && CompletionOk(env, reg, clock, permit, c)
    requires !Ended(reg, c.offered.executorId, c.executorAt, c.completedAt)
    ensures VerifyExecution(env.crypto, reg, c.offered.json, OutcomeOf(env, c).json) == []
  {
    hide RegistryOk, Grounded, Acts, VerifyAgentInner, ChainLength, StringField, Ended, VerifyExecution, IdentityRefusal, ExecutorObjection,
      OutcomeDraft, OutcomeToSign, ValidateOutcome, ExecutorRefusal, Canonical.Text, CompletedAt;
    var o := c.offered;
    var db := Gate.EMPTY.(registry := reg);
    ExecutorStillActive(env, reg, clock, permit, c);
    ObjectionFirst(env, db, o.json, o.executorId, OutcomeToSign(o.outcome), Signature(o), c.completedAt);
    FreshExecutionClean(env, db, o.id, PermitOf(o.json), o.json, o.outcome, o.executorId, o.status, o.gate, c.completedAt);
  }

  lemma VerifiedCompletion(env: Env, reg: Registry, clock: u64, permit: AuthorizationRow, c: Completion)
    requires Grounded(reg) && CompletionOk(env, reg, clock, permit, c)
    requires VerifyExecution(env.crypto, reg, c.offered.json, OutcomeOf(env, c).json) == []
    ensures ActiveView(VerifyAgentAt(env.crypto, reg, c.offered.executorId, c.completedAt)).Some?
  {
    hide Grounded, Acts, VerifyAgentInner, StringField, VerifyExecution, VerifyExecutionReceipt, OutcomeFaults, ExecutorFaults, OfferedOk,
      ExecutorObjection, OutcomeDraft, OutcomeToSign, OutcomeBody, Receipt, ExecutionResult, DigestJson, IsProposer;
    var o := c.offered;
    var permitDoc := PermitOf(o.json);
    OutcomeReadsBack(env, o.id, permitDoc, o.outcome, o.executorId, o.status, o.gate, c.completedAt);
    var body := OutcomeBody(env, o.id, permitDoc, o.outcome, o.executorId, o.status, o.gate, c.completedAt);
    var receipt := Receipt(env.crypto, body, RECEIPT_ID, o.gate);
    ExecutionResultReadsBack(receipt, o.outcome);
    var json := OutcomeOf(env, c).json;
    CleanExecution(env.crypto, reg, o.json, json);
    CleanExecutionReceipt(env.crypto, reg, permitDoc, json, body, receipt.GetStr(RECEIPT_ID).value, receipt.GetStr(GATE_SIGNATURE).value);
    CleanOutcome(env.crypto, reg, permitDoc, body, o.outcome);
    CleanExecutor(env.crypto, reg, o.executorId, c.completedAt, permitDoc.GetStr(TENANT_ID).GetOr("*"));
  }

  /** An execution made in stages verifies exactly when the executor's key did not end between its
      check and the time of completion. */
  lemma ExecutionExactly(env: Env, reg: Registry, clock: u64, permit: AuthorizationRow, c: Completion)
    requires Honest(env) && RegistryOk(env, reg, clock) && Grounded(reg) && CompletionOk(env, reg, clock, permit, c)
    ensures VerifyExecution(env.crypto, reg, c.offered.json, OutcomeOf(env, c).json) == [] <==> !Ended(reg, c.offered.executorId, c.executorAt, c.completedAt)
  {
    hide RegistryOk, Grounded, VerifyAgentInner, ChainLength, StringField, Ended, VerifyExecution, OfferedOk, OutcomeOf, IsProposer,
      OutcomeToSign, Canonical.Text, ActiveAt;
    if VerifyExecution(env.crypto, reg, c.offered.json, OutcomeOf(env, c).json) == [] {
      VerifiedCompletion(env, reg, clock, permit, c);
      ViewMeans(env, reg, clock, c.offered.executorId, c.executorAt);
      ViewMeans(env, reg, clock, c.offered.executorId, c.completedAt);
      EndedMeans(env, reg, clock, c.offered.executorId, c.executorAt, c.completedAt);
    } else if !Ended(reg, c.offered.executorId, c.executorAt, c.completedAt) {
      SteadyExecution(env, reg, clock, permit, c);
    }
  }
}
