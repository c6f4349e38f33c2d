/** Many gate processes on one database. Each answers requests and outcomes in stages, and writes in one
    transaction; between its stages the others go on, keys are registered, rotated and revoked, and
    policies installed. */
module Interleaving {
  import opened Prelude
  import opened Names
  import opened Json
  import opened Crypto
  import opened Policy
  import opened Identity
  import opened IdentityProofs
  import opened Permits
  import opened PermitProofs
  import opened Gate
  import opened GateInv
  import opened GateRuns
  import opened Stages
  import EventStream
  import IdentityOps
  import PolicyStore
  import Canonical

  // ---- The machine ----

  /** The database, what each process holds, and, for the record, how each authorization and each
      execution came about. */
  datatype System = System(db: Db, processes: map<int, Process>, recipes: map<string, Recipe>, completions: map<string, Completion>)

  const INITIAL := System(Gate.EMPTY, map[], map[], map[])

  datatype Move =
    | Whole(call: Call, at: u64)
    | StartRequest(process: int, gate: string, intent: Option<Value>, agentId: string, agentSignature: string, ttlSeconds: u64)
    | StartCommit(process: int, gate: string, id: string, outcome: Option<Value>, at: u64)
    | Look(process: int, at: u64)       // a process reads the clock for its next stage
    | Advance(process: int)             // ... and the tables
    | Miss(process: int)                // ... or its check of the agent's key is torn
    | Finish(process: int)
    | Crash(process: int)
  {
    /** The instant a move reads from the clock, if it does. */
    function Instant(): Option<u64> {
      match this
      case Whole(_, at) => Some(at)
      case StartRequest(_, _, _, _, _, _) => None
      case StartCommit(_, _, _, _, at) => Some(at)
      case Look(_, at) => Some(at)
      case Advance(_) => None
      case Miss(_) => None
      case Finish(_) => None
      case Crash(_) => None
    }
  }

  /** Nothing is left to do but to write. */
  predicate Ready(process: Process) {
    process.Drafted? || process.Sealed?
  }

  /** The clock is to be read for the next stage. */
  predicate Waits(process: Process) {
    !Ready(process) && !process.Reading?
  }

  /** The agent's key is to be checked for a decision. */
  predicate Deciding(process: Process) {
    match process
    case Reading(stage, _) => stage.Dated?
    case _ => false
  }

  ghost predicate MoveLegal(env: Env, s: System, clock: u64, m: Move) {
    && Grounded(s.db.registry)
    && (m.Instant().Some? ==> clock < m.Instant().value)
    && match m
       case Whole(call, _) => !call.RequestCall? && !call.CommitCall? && Legal(env, s.db, call)
       case StartRequest(process, gate, _, _, _, _) => process !in s.processes && env.crypto.isPublicKey(gate)
       case StartCommit(process, gate, _, _, _) => process !in s.processes && env.crypto.isPublicKey(gate)
       case Look(process, _) => process in s.processes && Waits(Entry(s.processes, process))
       case Advance(process) => process in s.processes && Entry(s.processes, process).Reading?
       case Miss(process) => process in s.processes && Deciding(Entry(s.processes, process))
       case Finish(process) => process in s.processes && Ready(Entry(s.processes, process))
       case Crash(_) => true
  }

  /** What the processes hold after one of them has gone on, or given up. */
  function Goes(processes: map<int, Process>, process: int, next: Option<Process>): map<int, Process> {
    if next.Some? then processes[process := next.value] else processes - {process}
  }

  ghost function MoveTo(env: Env, s: System, m: Move): System {
    if !Grounded(s.db.registry) then s else
    match m
    case Whole(call, at) => s.(db := Step(env, s.db, call, at))
    case StartRequest(process, gate, intent, agentId, agentSignature, ttlSeconds) =>
      var asked := Seek(env, s.db, gate, intent, agentId, agentSignature, ttlSeconds);
      if asked.Some? then s.(processes := s.processes[process := Sought(The(asked))]) else s
    case StartCommit(process, gate, id, outcome, at) =>
      var offered := Offer(env, s.db, gate, id, outcome, at);
      if offered.Some? then s.(processes := s.processes[process := Checked(The(offered))]) else s
    case Look(process, at) =>
      if process !in s.processes then s else s.(processes := s.processes[process := Reading(Entry(s.processes, process), at)])
    case Advance(process) =>
      if process !in s.processes then s
      else
        var next := Onward(env, s.db, Entry(s.processes, process));
        s.(db := next.0, processes := Goes(s.processes, process, next.1))
    case Miss(process) =>
      if process !in s.processes then s
      else
        var next := Unfound(env, s.db, Entry(s.processes, process));
        s.(db := next.0, processes := Goes(s.processes, process, next.1))
    case Finish(process) =>
      if process !in s.processes then s else Write(env, s.(processes := s.processes - {process}), Entry(s.processes, process))
    case Crash(process) => s.(processes := s.processes - {process})
  }

  /** The write transaction of a process. */
  function Write(env: Env, s: System, process: Process): System {
    match process
    case Drafted(recipe) =>
      var reply := FinishRequest(env, s.db, RowOf(env, recipe).0, RowOf(env, recipe).1);
      if reply.answer.Ok? then s.(db := reply.db, recipes := s.recipes[RowOf(env, recipe).0 := recipe]) else s
    case Sealed(done) =>
      var reply := FinishCommit(env, s.db, done.offered.id, OutcomeOf(env, done));
      if reply.answer.Ok? then s.(db := reply.db, completions := s.completions[done.offered.id := done]) else s
    case _ => s
  }

  // ---- Histories ----

  /** The system after some moves. */
  ghost function After(env: Env, moves: seq<Move>): System
    decreases |moves|
  {
    if moves == [] then INITIAL else MoveTo(env, After(env, moves[..|moves| - 1]), moves[|moves| - 1])
  }

  /** The last instant read. */
  function Now(moves: seq<Move>): u64
    decreases |moves|
  {
    if moves == [] then 0 else moves[|moves| - 1].Instant().GetOr(Now(moves[..|moves| - 1]))
  }

  ghost predicate LegalMoves(env: Env, moves: seq<Move>)
    decreases |moves|
  {
    moves == [] ||
      (LegalMoves(env, moves[..|moves| - 1])
       && MoveLegal(env, After(env, moves[..|moves| - 1]), Now(moves[..|moves| - 1]), moves[|moves| - 1]))
  }

  /** The database the processes share after some moves. */
  ghost function Shared(env: Env, moves: seq<Move>): Db {
    After(env, moves).db
  }

  // ---- The invariant ----

  /** The database but for the permits, and the record of what was signed. */
  function Bare(db: Db): Db {
    db.(permits := Gate.EMPTY.permits, signed := {}, issued := map[])
  }

  ghost predicate AuthorizationFrom(env: Env, reg: Registry, clock: u64, id: string, row: AuthorizationRow, r: Recipe) {
    RowOf(env, r) == (id, row) && RecipeOk(env, reg, clock, r)
  }

  ghost predicate OutcomeFrom(env: Env, reg: Registry, clock: u64, permit: AuthorizationRow, id: string, row: OutcomeRow, c: Completion) {
    c.offered.id == id && OutcomeOf(env, c) == row && CompletionOk(env, reg, clock, permit, c)
  }

  ghost predicate AuthorizationsFrom(env: Env, reg: Registry, clock: u64, rows: map<string, AuthorizationRow>, recipes: map<string, Recipe>) {
    forall id {:trigger id in rows} :: id in rows ==> id in recipes && AuthorizationFrom(env, reg, clock, id, Entry(rows, id), Entry(recipes, id))
  }

  ghost predicate OutcomesFrom(env: Env, reg: Registry, clock: u64, permits: map<string, AuthorizationRow>, rows: map<string, OutcomeRow>,
                               completions: map<string, Completion>) {
    forall id {:trigger id in rows} :: id in rows ==>
      id in permits && id in completions && OutcomeFrom(env, reg, clock, Entry(permits, id), id, Entry(rows, id), Entry(completions, id))
  }

  /** Every row is in the indexes and comes from its recipe. */
  ghost predicate RecordsOk(env: Env, reg: Registry, p: PermitTables, recipes: map<string, Recipe>, completions: map<string, Completion>, clock: u64) {
    && IndexesOk(p)
    && AuthorizationsFrom(env, reg, clock, p.authorizations, recipes)
    && OutcomesFrom(env, reg, clock, p.authorizations, p.outcomes, completions)
  }

  /** The last instant a process has taken down. */
  function LastRead(process: Process): u64 {
    match process
    case Admitted(_, gateAt) => gateAt
    case Dated(_, _, issuedAt, _, _) => issuedAt
    case Cleared(_, executorAt) => executorAt
    case Confirmed(_, executorAt) => executorAt
    case _ => EPOCH
  }

  /** A process holds what its stages have established. */
  ghost predicate ProcessOk(env: Env, reg: Registry, p: PermitTables, clock: u64, process: Process) {
    match process
    case Sought(asked) => AskedOk(env, asked)
    case Admitted(asked, gateAt) => AskedOk(env, asked) && Delegates(env, reg, asked.gate, gateAt) && gateAt <= clock
    case Dated(asked, gateAt, issuedAt, bundle, policy) =>
      && AskedOk(env, asked) && Delegates(env, reg, asked.gate, gateAt) && gateAt < issuedAt <= clock
      && GovernedBy(env, asked, bundle, policy)
    case Drafted(recipe) => RecipeOk(env, reg, clock, recipe)
    case Checked(o) => o.id in p.authorizations && OfferedOk(env, Entry(p.authorizations, o.id), o)
    case Cleared(o, executorAt) =>
      o.id in p.authorizations && OfferedOk(env, Entry(p.authorizations, o.id), o) && Acts(env, reg, o, executorAt) && executorAt <= clock
    case Confirmed(o, executorAt) =>
      o.id in p.authorizations && OfferedOk(env, Entry(p.authorizations, o.id), o) && Acts(env, reg, o, executorAt) && executorAt <= clock
    case Sealed(done) => done.offered.id in p.authorizations && CompletionOk(env, reg, clock, Entry(p.authorizations, done.offered.id), done)
    case Reading(stage, at) => Waits(stage) && ProcessOk(env, reg, p, clock, stage) && LastRead(stage) < at <= clock
  }

  ghost predicate ProcessesOk(env: Env, reg: Registry, p: PermitTables, clock: u64, processes: map<int, Process>) {
    forall process {:trigger process in processes} :: process in processes ==> ProcessOk(env, reg, p, clock, Entry(processes, process))
  }

  ghost predicate SystemOk(env: Env, s: System, clock: u64) {
    && Inv(env, Bare(s.db), clock)
    && RecordsOk(env, s.db.registry, s.db.permits, s.recipes, s.completions, clock)
    && ProcessesOk(env, s.db.registry, s.db.permits, clock, s.processes)
  }

  /** What is written stays, and how it came about. */
  ghost predicate WrittenKept(s: System, s': System) {
    && (forall id {:trigger id in s.db.permits.authorizations} :: id in s.db.permits.authorizations ==>
          id in s'.db.permits.authorizations && s'.db.permits.authorizations[id] == s.db.permits.authorizations[id])
    && (forall id {:trigger id in s.db.permits.outcomes} :: id in s.db.permits.outcomes ==>
          id in s'.db.permits.outcomes && s'.db.permits.outcomes[id] == s.db.permits.outcomes[id])
    && (forall id {:trigger id in s.db.permits.revoked} :: id in s.db.permits.revoked ==> id in s'.db.permits.revoked)
  }

  lemma BareParts(env: Env, db: Db, clock: u64)
    requires Inv(env, Bare(db), clock)
    ensures RegistryOk(env, db.registry, clock) && Grounded(db.registry) && IdentityOps.SuccessionsOk(db.registry)
    ensures PolicyStore.StoreOk(env, db.policies) && EventStream.StreamsOk(env.crypto, db.streams)
  {
    hide AgentOk, EventOk, PolicyStore.StoreOk, EventStream.StreamsOk, PermitsOk, IdentityOps.SuccessionsOk, HistoryOk, Grounded;
  }

  lemma BareFrom(env: Env, db: Db, clock: u64)
    requires RegistryOk(env, db.registry, clock) && Grounded(db.registry) && IdentityOps.SuccessionsOk(db.registry)
    requires PolicyStore.StoreOk(env, db.policies) && EventStream.StreamsOk(env.crypto, db.streams)
    ensures Inv(env, Bare(db), clock)
  {
    hide RegistryOk, PolicyStore.StoreOk, EventStream.StreamsOk, IdentityOps.SuccessionsOk, Grounded, AuthorizationOk, OutcomeOk;
  }

  /** Only time has passed, or streams and policies have changed. */
  lemma BareLater(env: Env, db: Db, db': Db, clock: u64, now: u64)
    requires Inv(env, Bare(db), clock) && clock <= now && db'.registry == db.registry
    requires PolicyStore.StoreOk(env, db'.policies) && EventStream.StreamsOk(env.crypto, db'.streams)
    ensures Inv(env, Bare(db'), now)
    ensures RegistryOk(env, db.registry, clock) && RegistryOk(env, db'.registry, now) && Evolves(db.registry, db'.registry, clock)
  {
    hide Inv, RegistryOk, PolicyStore.StoreOk, EventStream.StreamsOk, IdentityOps.SuccessionsOk, Grounded, Evolves;
    BareParts(env, db, clock);
    RegistryLater(env, db.registry, clock, now);
    SameRegistryEvolves(db.registry, clock);
    BareFrom(env, db', now);
  }

  // ---- What others do leaves records and processes in order ----

  lemma RecordsKeptOn(env: Env, reg: Registry, reg': Registry, p: PermitTables, p': PermitTables, recipes: map<string, Recipe>,
                      completions: map<string, Completion>, clock: u64, now: u64)
    requires RegistryOk(env, reg, clock) && RegistryOk(env, reg', now) && Evolves(reg, reg', clock) && clock <= now
    requires p' == p.(revoked := p'.revoked)
    requires RecordsOk(env, reg, p, recipes, completions, clock)
    ensures RecordsOk(env, reg', p', recipes, completions, now)
  {
    hide RegistryOk, Evolves, RecipeOk, CompletionOk, RowOf, OutcomeOf;
    forall id | id in p'.authorizations ensures id in recipes && AuthorizationFrom(env, reg', now, id, p'.authorizations[id], recipes[id]) {
      assert id in p.authorizations;
      RecipeKept(env, reg, reg', clock, now, recipes[id]);
    }
    forall id | id in p'.outcomes
      ensures id in p'.authorizations && id in completions && OutcomeFrom(env, reg', now, p'.authorizations[id], id, p'.outcomes[id], completions[id])
    {
      assert id in p.outcomes;
      CompletionKept(env, reg, reg', clock, now, p.authorizations[id], completions[id]);
    }
  }

  lemma {:induction false} ProcessKept(env: Env, reg: Registry, reg': Registry, p: PermitTables, p': PermitTables, clock: u64, now: u64, process: Process)
    requires RegistryOk(env, reg, clock) && RegistryOk(env, reg', now) && Evolves(reg, reg', clock) && clock <= now
    requires forall id {:trigger id in p.authorizations} :: id in p.authorizations ==>
      id in p'.authorizations && Entry(p'.authorizations, id) == Entry(p.authorizations, id)
    requires ProcessOk(env, reg, p, clock, process)
    ensures ProcessOk(env, reg', p', now, process)
    decreases process
  {
    hide RegistryOk, Evolves, RecipeOk, CompletionOk, AskedOk, Delegates, GovernedBy, OfferedOk, Acts;
    match process
    case Sought(_) =>
    case Admitted(asked, gateAt) => DelegatesKept(env, reg, reg', clock, now, asked.gate, gateAt);
    case Dated(asked, gateAt, _, _, _) => DelegatesKept(env, reg, reg', clock, now, asked.gate, gateAt);
    case Drafted(recipe) => RecipeKept(env, reg, reg', clock, now, recipe);
    case Checked(_) =>
    case Cleared(o, executorAt) => ActsKept(env, reg, reg', clock, now, o, executorAt);
    case Confirmed(o, executorAt) => ActsKept(env, reg, reg', clock, now, o, executorAt);
    case Sealed(done) => CompletionKept(env, reg, reg', clock, now, p.authorizations[done.offered.id], done);
    case Reading(stage, _) => ProcessKept(env, reg, reg', p, p', clock, now, stage);
  }

  lemma ProcessesKept(env: Env, reg: Registry, reg': Registry, p: PermitTables, p': PermitTables, clock: u64, now: u64, processes: map<int, Process>)
    requires RegistryOk(env, reg, clock) && RegistryOk(env, reg', now) && Evolves(reg, reg', clock) && clock <= now
    requires forall id {:trigger id in p.authorizations} :: id in p.authorizations ==>
      id in p'.authorizations && Entry(p'.authorizations, id) == Entry(p.authorizations, id)
    requires ProcessesOk(env, reg, p, clock, processes)
    ensures ProcessesOk(env, reg', p', now, processes)
  {
    hide RegistryOk, Evolves, ProcessOk;
    forall process | process in processes ensures ProcessOk(env, reg', p', now, processes[process]) {
      ProcessKept(env, reg, reg', p, p', clock, now, processes[process]);
    }
  }

  // ---- Keys and policies ----

  /** A call on keys or policies does the same to a bare database. */
  lemma BareStep(env: Env, db: Db, call: Call, now: u64)
    requires Grounded(db.registry) && !call.RequestCall? && !call.CommitCall?
    ensures var a, b := Step(env, db, call, now), Step(env, Bare(db), call, now);
      && a.registry == b.registry && a.policies == b.policies && a.streams == b.streams
      && a.permits == db.permits.(revoked := a.permits.revoked)
      && (forall id {:trigger id in db.permits.revoked} :: id in db.permits.revoked ==> id in a.permits.revoked)
  {
    hide Grounded, PrepareRegistration, RotateAgent, RevokeAgent, PolicyStore.Install, PolicyStore.EnsureDefault, EventStream.RecordEvent,
      LookupSigns, SpecSigns, Request, Commit, RotationOf, RotatedRegistration, RevocationOf, RevocablePermits, DigestJson, Canonical.Text;
  }

  lemma WholeKeeps(env: Env, s: System, clock: u64, m: Move)
    requires Honest(env) && SystemOk(env, s, clock) && MoveLegal(env, s, clock, m) && m.Whole?
    ensures SystemOk(env, MoveTo(env, s, m), m.Instant().GetOr(clock)) && WrittenKept(s, MoveTo(env, s, m))
  {
    hide Inv, Honest, Grounded, Evolves, RegistryOk, RecordsOk, ProcessesOk, Step, Legal, PolicyStore.StoreOk, EventStream.StreamsOk,
      IdentityOps.SuccessionsOk, RecordsKept, NoneConsumed, PermitsOk, HistoryOk, Seek, Offer, Next, Write;
    var db := Step(env, s.db, m.call, m.at);
    BareStep(env, s.db, m.call, m.at);
    BareLegal(env, s.db, m.call);
    StepKeeps(env, Bare(s.db), clock, m.call, m.at);
    InvParts(env, Step(env, Bare(s.db), m.call, m.at), m.at);
    BareParts(env, s.db, clock);
    BareFrom(env, db, m.at);
    RecordsKeptOn(env, s.db.registry, db.registry, s.db.permits, db.permits, s.recipes, s.completions, clock, m.at);
    ProcessesKept(env, s.db.registry, db.registry, s.db.permits, db.permits, clock, m.at, s.processes);
  }

  lemma BareLegal(env: Env, db: Db, call: Call)
    ensures Legal(env, Bare(db), call) == Legal(env, db, call)
    ensures RevocationOk(Bare(db).registry, Bare(db).permits)
  {
    hide Grounded, MayRotate, MayRevoke;
  }

  // ---- Stages ----

  lemma SeekFinds(env: Env, db: Db, gate: string, intent: Option<Value>, agentId: string, agentSignature: string, ttlSeconds: u64)
    requires env.crypto.isPublicKey(gate)
    ensures var asked := Seek(env, db, gate, intent, agentId, agentSignature, ttlSeconds); asked.Some? ==> AskedOk(env, asked.value)
  {
    hide ValidateIntent, ActionIdFor;
    if intent.Some? && ValidateIntent(intent.value, agentId).Some? { ValidatedAgent(intent.value, agentId); }
  }

  lemma AdmitFinds(env: Env, db: Db, asked: Asked, at: u64)
    requires Grounded(db.registry)
    ensures var next := Admit(env, db, asked, at).1;
      next.Some? ==> next == Some(Admitted(asked, at)) && Delegates(env, db.registry, asked.gate, at)
  {
    hide Grounded, VerifyAgentInner;
  }

  lemma DateFinds(env: Env, db: Db, asked: Asked, gateAt: u64, at: u64)
    requires Honest(env) && AskedOk(env, asked)
    requires PolicyStore.StoreOk(env, db.policies) && EventStream.StreamsOk(env.crypto, db.streams)
    ensures var next := Date(env, db, asked, gateAt, at);
      && PolicyStore.StoreOk(env, next.0.policies) && EventStream.StreamsOk(env.crypto, next.0.streams)
      && (next.1.Some? ==>
            && next.1.value.Dated? && next.1.value == Dated(asked, gateAt, at, next.1.value.bundle, next.1.value.policy)
            && GovernedBy(env, asked, next.1.value.bundle, next.1.value.policy))
  {
    hide BundleFault, EvaluatePolicy, StringField, PolicyStore.ActivePolicy, PolicyStore.StoreOk, EventStream.StreamsOk, LookupSigns,
      ValidateIntent;
    var signer := env.signerFor(asked.gate);
    PolicyStore.LookupKeepsStore(env, db.policies, db.streams, asked.gate, asked.fields.tenantId, at);
    LookupKeepsStreams(env.crypto, db.policies, db.streams, signer, asked.fields.tenantId, at);
    var lookup := PolicyStore.ActivePolicy(env.crypto, db.policies, db.streams, signer, asked.fields.tenantId, at);
    if lookup.bundle.Ok? {
      PolicyStore.FoundBundleOk(env, db.policies, db.streams, asked.gate, asked.fields.tenantId, at);
      FoundBundleFields(env, lookup.bundle.value, asked.gate);
    }
  }

  /** What a process holds after a stage, if it goes on. */
  ghost predicate HoldsOk(env: Env, reg: Registry, p: PermitTables, clock: u64, next: Option<Process>) {
    next.Some? ==> ProcessOk(env, reg, p, clock, The(next))
  }

  lemma DraftFinds(env: Env, db: Db, clock: u64, asked: Asked, gateAt: u64, issuedAt: u64, bundle: Value, policy: PolicyDecision, at: u64)
    requires AskedOk(env, asked) && Delegates(env, db.registry, asked.gate, gateAt) && GovernedBy(env, asked, bundle, policy)
    requires gateAt < issuedAt < at <= clock && Grounded(db.registry)
    ensures HoldsOk(env, db.registry, db.permits, clock, DraftDecision(env, db, asked, gateAt, issuedAt, bundle, policy, at).1)
    ensures HoldsOk(env, db.registry, db.permits, clock, DraftFor(env, db, asked, gateAt, issuedAt, bundle, policy, None, at).1)
  {
    hide Grounded, VerifyAgentInner, AskedOk, GovernedBy, Delegates, RowOf, BodyOf;
  }

  lemma OfferFinds(env: Env, db: Db, gate: string, id: string, outcome: Option<Value>, at: u64)
    requires env.crypto.isPublicKey(gate)
    requires id in db.permits.authorizations ==> AuthorizationColumnsOk(env.crypto, id, Entry(db.permits.authorizations, id))
    ensures var offered := Offer(env, db, gate, id, outcome, at);
      offered.Some? ==>
        && The(offered).id == id && id in db.permits.authorizations && OfferedOk(env, Entry(db.permits.authorizations, id), The(offered))
        && id !in db.permits.revoked && id !in db.permits.outcomes
        && Grounded(db.registry) && VerifyAuthorization(env.crypto, db.registry, Entry(db.permits.authorizations, id).json) == []
        && at <= Entry(db.permits.authorizations, id).expiresAt && Entry(db.permits.authorizations, id).decision == ALLOWED
  {
    hide Grounded, VerifyAuthorization, ExecutorObjection, ValidateOutcome, OutcomeToSign, DigestJson, ActionText, ValidateIntent, IssuedAt;
    OfferedActions(env, db, gate, id, outcome, at);
  }

  lemma OfferedActions(env: Env, db: Db, gate: string, id: string, outcome: Option<Value>, at: u64)
    ensures Offer(env, db, gate, id, outcome, at).Some? ==>
      id in db.permits.authorizations && StringField(PermitOf(Entry(db.permits.authorizations, id).json), ACTION_ID).Some?
  {
    hide Grounded, VerifyAuthorization, ExecutorObjection, ValidateOutcome, OutcomeToSign, StringField;
  }

  lemma ClearFinds(env: Env, db: Db, o: Offered, at: u64)
    requires Grounded(db.registry)
    ensures var next := Clear(env, db, o, at).1; next.Some? ==> next == Some(Cleared(o, at)) && Acts(env, db.registry, o, at)
  {
    hide Grounded, VerifyAgentInner, IsProposer, OutcomeToSign, Canonical.Text, Signature, StringField;
  }

  lemma ConfirmFinds(env: Env, db: Db, o: Offered, executorAt: u64, at: u64)
    requires Grounded(db.registry)
    ensures var next := Confirm(env, db, o, executorAt, at).1; next.Some? ==> next == Some(Confirmed(o, executorAt))
  {
    hide Grounded, GateIdentity;
  }

  lemma SealFinds(env: Env, db: Db, o: Offered, executorAt: u64, at: u64)
    ensures var next := Seal(env, db, o, executorAt, at).1;
      next.Some? ==> next == Some(Sealed(Completion(o, executorAt, at))) && StringField(PermitOf(o.json), INTENT_HASH).Some?
  {
    hide StringField, OutcomeOf, ExecutionBodyOf;
  }

  /** Stages leave policies and streams in order. */
  lemma NextBare(env: Env, db: Db, clock: u64, process: Process, at: u64)
    requires Honest(env) && Inv(env, Bare(db), clock) && ProcessOk(env, db.registry, db.permits, clock, process)
    ensures Inv(env, Bare(Next(env, db, process, at).0), clock)
  {
    hide Inv, Honest, Grounded, Admit, Date, DraftDecision, Clear, Confirm, Seal, AskedOk, Delegates, GovernedBy, RecipeOk, CompletionOk,
      OfferedOk, Acts, PolicyStore.StoreOk, EventStream.StreamsOk, RegistryOk, IdentityOps.SuccessionsOk, Evolves;
    BareParts(env, db, clock);
    NextReads(env, db, process, at);
    if process.Admitted? {
      DateFinds(env, db, process.asked, process.gateAt, at);
    } else {
      OtherStages(env, db, process, at);
    }
    BareLater(env, db, Next(env, db, process, at).0, clock, clock);
  }

  /** A stage establishes what it says, though the clock was read before the tables. */
  lemma NextKeeps(env: Env, db: Db, clock: u64, process: Process, at: u64)
    requires Honest(env) && Inv(env, Bare(db), clock) && ProcessOk(env, db.registry, db.permits, clock, process)
    requires Waits(process) && LastRead(process) < at <= clock
    ensures Inv(env, Bare(Next(env, db, process, at).0), clock)
    ensures HoldsOk(env, db.registry, db.permits, clock, Next(env, db, process, at).1)
  {
    hide Inv, Honest, Grounded, Admit, Date, DraftDecision, Clear, Confirm, Seal, AskedOk, Delegates, GovernedBy, RecipeOk, CompletionOk,
      OfferedOk, Acts, PolicyStore.StoreOk, EventStream.StreamsOk, RegistryOk, IdentityOps.SuccessionsOk, Evolves;
    BareParts(env, db, clock);
    NextBare(env, db, clock, process, at);
    match process
    case Sought(asked) => AdmitFinds(env, db, asked, at);
    case Admitted(asked, gateAt) => DateFinds(env, db, asked, gateAt, at);
    case Dated(asked, gateAt, issuedAt, bundle, policy) => DraftFinds(env, db, clock, asked, gateAt, issuedAt, bundle, policy, at);
    case Checked(o) => ClearFinds(env, db, o, at);
    case Cleared(o, executorAt) => ConfirmFinds(env, db, o, executorAt, at);
    case Confirmed(o, executorAt) =>
      SealFinds(env, db, o, executorAt, at);
      if Seal(env, db, o, executorAt, at).1.Some? { Completes(env, db, clock, o, executorAt, at); }
    case _ =>
  }

  lemma Completes(env: Env, db: Db, clock: u64, o: Offered, executorAt: u64, at: u64)
    requires ProcessOk(env, db.registry, db.permits, clock, Confirmed(o, executorAt)) && executorAt < at <= clock
    requires StringField(PermitOf(o.json), INTENT_HASH).Some?
    ensures ProcessOk(env, db.registry, db.permits, clock, Sealed(Completion(o, executorAt, at)))
  {
    hide OfferedOk, Acts, StringField;
  }

  lemma OtherStages(env: Env, db: Db, process: Process, at: u64)
    requires !process.Admitted?
    ensures Next(env, db, process, at).0.policies == db.policies && Next(env, db, process, at).0.streams == db.streams
  {
    hide Grounded, GateIdentity, VerifyAgentInner, RowOf, BodyOf, IdentityRefusal, OutcomeOf, ExecutionBodyOf, OutcomeToSign, Signature,
      StringField;
  }

  /** A process reads the clock. */
  lemma LookKeeps(env: Env, s: System, clock: u64, m: Move)
    requires Honest(env) && SystemOk(env, s, clock) && MoveLegal(env, s, clock, m) && m.Look?
    ensures SystemOk(env, MoveTo(env, s, m), m.Instant().GetOr(clock)) && WrittenKept(s, MoveTo(env, s, m))
  {
    hide Inv, Honest, Grounded, RegistryOk, Evolves, RecordsOk, ProcessOk, PolicyStore.StoreOk, EventStream.StreamsOk,
      IdentityOps.SuccessionsOk, Step, Seek, Offer, Write, Legal, Onward, Unfound, Waits, LastRead;
    BareParts(env, s.db, clock);
    BareLater(env, s.db, s.db, clock, m.at);
    RecordsKeptOn(env, s.db.registry, s.db.registry, s.db.permits, s.db.permits, s.recipes, s.completions, clock, m.at);
    ProcessesKept(env, s.db.registry, s.db.registry, s.db.permits, s.db.permits, clock, m.at, s.processes);
    LooksOn(env, s.db.registry, s.db.permits, clock, s.processes[m.process], m.at);
  }

  lemma LooksOn(env: Env, reg: Registry, p: PermitTables, clock: u64, process: Process, at: u64)
    requires ProcessOk(env, reg, p, clock, process) && ProcessOk(env, reg, p, at, process) && Waits(process) && clock < at
    ensures ProcessOk(env, reg, p, at, Reading(process, at))
  {
    hide AskedOk, Delegates, GovernedBy, RecipeOk, CompletionOk, OfferedOk, Acts;
  }

  /** A process goes on with what it reads from the tables. */
  lemma AdvanceKeeps(env: Env, s: System, clock: u64, m: Move)
    requires Honest(env) && SystemOk(env, s, clock) && MoveLegal(env, s, clock, m) && (m.Advance? || m.Miss?)
    ensures SystemOk(env, MoveTo(env, s, m), clock) && WrittenKept(s, MoveTo(env, s, m))
  {
    hide Inv, Honest, Grounded, RegistryOk, Evolves, RecordsOk, ProcessOk, Next, PolicyStore.StoreOk, EventStream.StreamsOk,
      IdentityOps.SuccessionsOk, Step, Seek, Offer, Write, Legal, Onward, Unfound;
    var process := s.processes[m.process];
    var next := if m.Advance? then Onward(env, s.db, process) else Unfound(env, s.db, process);
    OnwardKeeps(env, s.db, clock, process);
    if m.Miss? { UnfoundKeeps(env, s.db, clock, process); }
    BareParts(env, s.db, clock);
    BareLater(env, s.db, s.db, clock, clock);
    RecordsKeptOn(env, s.db.registry, s.db.registry, s.db.permits, s.db.permits, s.recipes, s.completions, clock, clock);
    assert next.0.permits == s.db.permits && next.0.registry == s.db.registry;
  }

  lemma OnwardKeeps(env: Env, db: Db, clock: u64, process: Process)
    requires Honest(env) && Inv(env, Bare(db), clock) && ProcessOk(env, db.registry, db.permits, clock, process) && process.Reading?
    ensures Inv(env, Bare(Onward(env, db, process).0), clock)
    ensures Onward(env, db, process).0.registry == db.registry && Onward(env, db, process).0.permits == db.permits
    ensures HoldsOk(env, db.registry, db.permits, clock, Onward(env, db, process).1)
  {
    hide Inv, Honest, Grounded, Next, Waits, LastRead, HoldsOk, AskedOk, Delegates, GovernedBy, RecipeOk, CompletionOk, OfferedOk, Acts;
    NextKeeps(env, db, clock, process.stage, process.at);
    NextReads(env, db, process.stage, process.at);
  }

  lemma UnfoundKeeps(env: Env, db: Db, clock: u64, process: Process)
    requires Honest(env) && Inv(env, Bare(db), clock) && ProcessOk(env, db.registry, db.permits, clock, process) && Deciding(process)
    ensures Inv(env, Bare(Unfound(env, db, process).0), clock)
    ensures Unfound(env, db, process).0.registry == db.registry && Unfound(env, db, process).0.permits == db.permits
    ensures HoldsOk(env, db.registry, db.permits, clock, Unfound(env, db, process).1)
  {
    hide Inv, Honest, Grounded, HoldsOk, AskedOk, Delegates, GovernedBy, RecipeOk, CompletionOk, OfferedOk, Acts, RowOf, BodyOf,
      DraftDecision;
    BareParts(env, db, clock);
    var Dated(asked, gateAt, issuedAt, bundle, policy) := process.stage;
    DraftFinds(env, db, clock, asked, gateAt, issuedAt, bundle, policy, process.at);
    assert Bare(Unfound(env, db, process).0) == Bare(db);
  }

  /** The columns of a row made from a recipe are those of its document. */
  lemma RecipeColumns(env: Env, r: Recipe)
    requires AskedOk(env, r.asked)
    ensures AuthorizationColumnsOk(env.crypto, RowOf(env, r).0, RowOf(env, r).1)
    ensures RowOf(env, r).1.agentId == r.asked.fields.agentId && RowOf(env, r).1.issuedAt == r.issuedAt && RowOf(env, r).1.expiresAt == r.expiresAt
    ensures RowOf(env, r).1.decision == DecisionOf(env, r).decision
  {
    hide AuthorizationColumnsOk, ValidateIntent, BodyOf, DecisionOf, DigestJson, Receipt, AuthorizationBody, StringField, ActionText;
    DraftColumns(env, r.asked.fields, r.asked.intent, r.asked.agentSignature, r.asked.gate, r.bundle, r.policy, DecisionOf(env, r), r.issuedAt, r.expiresAt);
  }

  lemma StartKeeps(env: Env, s: System, clock: u64, m: Move)
    requires Honest(env) && SystemOk(env, s, clock) && MoveLegal(env, s, clock, m) && (m.StartRequest? || m.StartCommit?)
    ensures SystemOk(env, MoveTo(env, s, m), m.Instant().GetOr(clock)) && WrittenKept(s, MoveTo(env, s, m))
  {
    hide Inv, Honest, Grounded, RegistryOk, Evolves, RecipeOk, CompletionOk, Seek, Offer, RowOf, OutcomeOf, IndexesOk, PolicyStore.StoreOk,
      EventStream.StreamsOk, IdentityOps.SuccessionsOk, AskedOk, OfferedOk, AuthorizationColumnsOk, Delegates, Acts, VerifyAuthorization,
      Step, Next, Legal, Write, GovernedBy, AgentWas;
    var now := m.Instant().GetOr(clock);
    BareParts(env, s.db, clock);
    BareLater(env, s.db, s.db, clock, now);
    RecordsKeptOn(env, s.db.registry, s.db.registry, s.db.permits, s.db.permits, s.recipes, s.completions, clock, now);
    ProcessesKept(env, s.db.registry, s.db.registry, s.db.permits, s.db.permits, clock, now, s.processes);
    if m.StartRequest? {
      SeekFinds(env, s.db, m.gate, m.intent, m.agentId, m.agentSignature, m.ttlSeconds);
    } else {
      if m.id in s.db.permits.authorizations { StoredColumnsOk(env, s, clock, m.id); }
      OfferFinds(env, s.db, m.gate, m.id, m.outcome, m.at);
    }
  }

  lemma StoredColumnsOk(env: Env, s: System, clock: u64, id: string)
    requires SystemOk(env, s, clock) && id in s.db.permits.authorizations
    ensures AuthorizationColumnsOk(env.crypto, id, Entry(s.db.permits.authorizations, id))
  {
    hide Inv, RowOf, IndexesOk, CompletionOk, AuthorizationColumnsOk, GovernedBy, Delegates, AgentWas, ProcessesOk, AskedOk;
    RecipeColumns(env, s.recipes[id]);
  }

  // ---- Writing ----

  lemma RequestWritten(env: Env, db: Db, id: string, row: AuthorizationRow)
    requires EventStream.StreamsOk(env.crypto, db.streams)
    ensures var reply := FinishRequest(env, db, id, row);
      reply.answer.Ok? ==>
        && id !in db.permits.authorizations && row.actionId !in db.permits.byAction && RequestOf(row) !in db.permits.byRequest
        && reply.db == db.(permits := reply.db.permits, streams := reply.db.streams)
        && reply.db.permits == db.permits.(authorizations := db.permits.authorizations[id := row], byAction := db.permits.byAction[row.actionId := id],
                                           byRequest := db.permits.byRequest[RequestOf(row) := id])
        && EventStream.StreamsOk(env.crypto, reply.db.streams)
  {
    hide EventStream.StreamsOk, EventStream.RecordEvent, Canonical.Text;
    EventStream.RecordKeepsStreams(env.crypto, db.streams, row.tenantId, ACTION_AUTHORIZED, id, Canonical.Text(row.json), row.issuedAt);
  }

  lemma OutcomeWritten(env: Env, db: Db, id: string, row: OutcomeRow)
    requires EventStream.StreamsOk(env.crypto, db.streams)
    ensures var reply := FinishCommit(env, db, id, row);
      reply.answer.Ok? ==>
        && id in db.permits.authorizations && id !in db.permits.outcomes && row.actionId !in db.permits.outcomeByAction
        && reply.db == db.(permits := reply.db.permits, streams := reply.db.streams)
        && reply.db.permits == db.permits.(outcomes := db.permits.outcomes[id := row], outcomeByAction := db.permits.outcomeByAction[row.actionId := id],
                                           receipts := db.permits.receipts + {row.receiptId})
        && EventStream.StreamsOk(env.crypto, reply.db.streams)
  {
    hide EventStream.StreamsOk, EventStream.RecordEvent, Canonical.Text, OutcomeEvent;
    if id in db.permits.authorizations {
      var (tenant, eventType) := OutcomeEvent(db, id, row);
      EventStream.RecordKeepsStreams(env.crypto, db.streams, tenant, eventType, row.receiptId, Canonical.Text(row.json), row.completedAt);
    }
  }

  lemma FinishRequestKeepsRecords(env: Env, s: System, clock: u64, r: Recipe)
    requires RecordsOk(env, s.db.registry, s.db.permits, s.recipes, s.completions, clock) && RecipeOk(env, s.db.registry, clock, r)
    requires EventStream.StreamsOk(env.crypto, s.db.streams)
    ensures var s' := Write(env, s, Drafted(r));
      && s'.db == s.db.(permits := s'.db.permits, streams := s'.db.streams) && s'.processes == s.processes
      && RecordsOk(env, s.db.registry, s'.db.permits, s'.recipes, s'.completions, clock)
      && EventStream.StreamsOk(env.crypto, s'.db.streams) && WrittenKept(s, s')
  {
    hide RecipeOk, RowOf, OutcomeOf, EventStream.StreamsOk, IndexesOk, FinishRequest, FinishCommit, AuthorizationFrom, AuthorizationsFrom,
      OutcomesFrom;
    var (id, row) := RowOf(env, r);
    RequestWritten(env, s.db, id, row);
    if FinishRequest(env, s.db, id, row).answer.Ok? {
      IndexesAfterRequest(s.db.permits, id, row);
      DraftedFrom(env, s.db.registry, clock, r);
      AuthorizationsAfter(env, s.db.registry, s.db.permits, s.recipes, s.completions, clock, id, row, r);
    }
  }

  lemma FinishCommitKeepsRecords(env: Env, s: System, clock: u64, done: Completion)
    requires RecordsOk(env, s.db.registry, s.db.permits, s.recipes, s.completions, clock)
    requires done.offered.id in s.db.permits.authorizations
    requires CompletionOk(env, s.db.registry, clock, Entry(s.db.permits.authorizations, done.offered.id), done)
    requires EventStream.StreamsOk(env.crypto, s.db.streams)
    ensures var s' := Write(env, s, Sealed(done));
      && s'.db == s.db.(permits := s'.db.permits, streams := s'.db.streams) && s'.processes == s.processes
      && RecordsOk(env, s.db.registry, s'.db.permits, s'.recipes, s'.completions, clock)
      && EventStream.StreamsOk(env.crypto, s'.db.streams) && WrittenKept(s, s')
  {
    hide CompletionOk, RowOf, OutcomeOf, EventStream.StreamsOk, IndexesOk, FinishRequest, FinishCommit, OutcomeFrom, AuthorizationsFrom,
      OutcomesFrom;
    var id, row := done.offered.id, OutcomeOf(env, done);
    OutcomeWritten(env, s.db, id, row);
    if FinishCommit(env, s.db, id, row).answer.Ok? {
      IndexesAfterCommit(s.db.permits, id, row);
      MadeFrom(env, s.db.registry, clock, s.db.permits.authorizations[id], done);
      OutcomesAfter(env, s.db.registry, s.db.permits, s.completions, clock, id, row, done);
    }
  }

  lemma MadeFrom(env: Env, reg: Registry, clock: u64, permit: AuthorizationRow, done: Completion)
    requires CompletionOk(env, reg, clock, permit, done)
    ensures OutcomeFrom(env, reg, clock, permit, done.offered.id, OutcomeOf(env, done), done)
  {
    hide CompletionOk, OutcomeOf;
  }

  lemma DraftedFrom(env: Env, reg: Registry, clock: u64, r: Recipe)
    requires RecipeOk(env, reg, clock, r)
    ensures AuthorizationFrom(env, reg, clock, RowOf(env, r).0, RowOf(env, r).1, r)
  {
    hide RecipeOk, RowOf;
  }

  lemma AuthorizationsAfter(env: Env, reg: Registry, p: PermitTables, recipes: map<string, Recipe>, completions: map<string, Completion>, clock: u64,
                            id: string, row: AuthorizationRow, r: Recipe)
    requires AuthorizationFrom(env, reg, clock, id, row, r) && id !in p.authorizations
    requires AuthorizationsFrom(env, reg, clock, p.authorizations, recipes) && OutcomesFrom(env, reg, clock, p.authorizations, p.outcomes, completions)
    ensures AuthorizationsFrom(env, reg, clock, p.authorizations[id := row], recipes[id := r])
    ensures OutcomesFrom(env, reg, clock, p.authorizations[id := row], p.outcomes, completions)
  {
    hide AuthorizationFrom, OutcomeFrom;
  }

  lemma OutcomesAfter(env: Env, reg: Registry, p: PermitTables, completions: map<string, Completion>, clock: u64, id: string, row: OutcomeRow, done: Completion)
    requires id in p.authorizations && OutcomeFrom(env, reg, clock, Entry(p.authorizations, id), id, row, done)
    requires OutcomesFrom(env, reg, clock, p.authorizations, p.outcomes, completions)
    ensures OutcomesFrom(env, reg, clock, p.authorizations, p.outcomes[id := row], completions[id := done])
  {
    hide OutcomeFrom;
  }

  lemma FinishKeeps(env: Env, s: System, clock: u64, m: Move)
    requires Honest(env) && SystemOk(env, s, clock) && MoveLegal(env, s, clock, m) && m.Finish?
    ensures SystemOk(env, MoveTo(env, s, m), clock) && WrittenKept(s, MoveTo(env, s, m))
  {
    hide Inv, Honest, Grounded, RegistryOk, Evolves, RecordsOk, RecipeOk, CompletionOk, PolicyStore.StoreOk, EventStream.StreamsOk,
      IdentityOps.SuccessionsOk, Write, Step, Seek, Offer, Next, Legal, RowOf, OutcomeOf, AskedOk, Delegates, GovernedBy, OfferedOk, Acts;
    var process := s.processes[m.process];
    assert ProcessOk(env, s.db.registry, s.db.permits, clock, process);
    var s1 := s.(processes := s.processes - {m.process});
    BareParts(env, s.db, clock);
    if process.Drafted? {
      FinishRequestKeepsRecords(env, s1, clock, process.recipe);
    } else {
      FinishCommitKeepsRecords(env, s1, clock, process.completion);
    }
    var s' := Write(env, s1, process);
    BareLater(env, s.db, s'.db, clock, clock);
    ProcessesKept(env, s.db.registry, s.db.registry, s.db.permits, s'.db.permits, clock, clock, s1.processes);
  }

  /** Every move of every process keeps the system in order, and what is written. */
  lemma MoveKeeps(env: Env, s: System, clock: u64, m: Move)
    requires Honest(env) && SystemOk(env, s, clock) && MoveLegal(env, s, clock, m)
    ensures SystemOk(env, MoveTo(env, s, m), m.Instant().GetOr(clock))
    ensures WrittenKept(s, MoveTo(env, s, m))
  {
    hide Inv, Honest, Grounded, RecordsOk, ProcessOk, Step, Seek, Offer, Onward, Unfound, Write, Legal;
    match m
    case Whole(_, _) => WholeKeeps(env, s, clock, m);
    case StartRequest(_, _, _, _, _, _) => StartKeeps(env, s, clock, m);
    case StartCommit(_, _, _, _, _) => StartKeeps(env, s, clock, m);
    case Look(_, _) => LookKeeps(env, s, clock, m);
    case Advance(_) => AdvanceKeeps(env, s, clock, m);
    case Miss(_) => AdvanceKeeps(env, s, clock, m);
    case Finish(_) => FinishKeeps(env, s, clock, m);
    case Crash(_) =>
  }

  // ---- Every interleaving ----

  lemma InitialOk(env: Env)
    ensures SystemOk(env, INITIAL, EPOCH)
  {
    hide Inv, EventStream.StreamsOk, AuthorizationOk, IdentityOps.SuccessionsOk, AuthorizationFrom, AgentOk, EventOk,
      PolicyStore.RetirementOk, PolicyStore.AttestationsNeeded;
    GateRuns.EmptyInOrder(env);
  }

  /** However the processes interleave, the system is in order. */
  lemma {:induction false} MovesKeep(env: Env, moves: seq<Move>)
    requires Honest(env) && LegalMoves(env, moves)
    ensures SystemOk(env, After(env, moves), Now(moves))
    decreases |moves|
  {
    hide SystemOk, Honest, MoveLegal, MoveTo, WrittenKept;
    if moves == [] {
      InitialOk(env);
    } else {
      MovesKeep(env, moves[..|moves| - 1]);
      MoveKeeps(env, After(env, moves[..|moves| - 1]), Now(moves[..|moves| - 1]), moves[|moves| - 1]);
    }
  }

  /** An action has one authorization and one outcome, and a request one authorization. */
  lemma OneRecordPerAction(env: Env, moves: seq<Move>)
    requires Honest(env) && LegalMoves(env, moves)
    ensures var p := Shared(env, moves).permits;
      && (forall a, b | a in p.authorizations && b in p.authorizations && Entry(p.authorizations, a).actionId == Entry(p.authorizations, b).actionId :: a == b)
      && (forall a, b | a in p.outcomes && b in p.outcomes && Entry(p.outcomes, a).actionId == Entry(p.outcomes, b).actionId :: a == b)
      && (forall a, b | a in p.authorizations && b in p.authorizations && RequestOf(Entry(p.authorizations, a)) == RequestOf(Entry(p.authorizations, b)) :: a == b)
  {
    hide Inv, LegalMoves, After, Honest, AuthorizationFrom, OutcomeFrom, ProcessesOk;
    MovesKeep(env, moves);
  }

  /** Every tenant's stream is numbered 1..n and linked without a break. */
  lemma StreamsUnbroken(env: Env, moves: seq<Move>, tenant: string, i: nat)
    requires Honest(env) && LegalMoves(env, moves)
    requires i < |Shared(env, moves).streams.Events(tenant)|
    ensures var rows := Shared(env, moves).streams.Events(tenant);
      && ItemAt(rows, i).sequence == i + 1
      && ItemAt(rows, i).json.GetU64(SEQUENCE_NUMBER) == Some(ItemAt(rows, i).sequence)
      && ItemAt(rows, i).json.GetStr(PREV_EVENT_HASH) == Some(if i == 0 then EventStream.GENESIS_PREV_HASH else ItemAt(rows, i - 1).digest)
      && ItemAt(rows, i).digest == DigestJson(env.crypto, EventStream.UnsignedEvent(ItemAt(rows, i).json))
  {
    hide Inv, LegalMoves, After, Honest, RecordsOk, ProcessesOk, DigestJson, RegistryOk, Grounded, IdentityOps.SuccessionsOk,
      PolicyStore.StoreOk;
    MovesKeep(env, moves);
    BareParts(env, Shared(env, moves), Now(moves));
    assert EventStream.ChainOk(env.crypto, tenant, Shared(env, moves).streams.Events(tenant));
    assert EventStream.EventLinked(env.crypto, tenant, Shared(env, moves).streams.Events(tenant), i);
  }

  /** Which authorizations verify: exactly those between whose stages the gate's key did not end and,
      if the agent's signature is valid, the agent's key neither became active nor ceased to be or, if its
      check was torn, was not active at the time of issue. */
  lemma AuthorizationsVerifyExactly(env: Env, moves: seq<Move>, id: string)
    requires Honest(env) && LegalMoves(env, moves)
    requires id in Shared(env, moves).permits.authorizations
    ensures var db := Shared(env, moves);
      && Grounded(db.registry)
      && id in After(env, moves).recipes
      && var r := Entry(After(env, moves).recipes, id);
         && RowOf(env, r) == (id, Entry(db.permits.authorizations, id))
         && r.gateAt < r.issuedAt < r.agentAt
         && (VerifyAuthorization(env.crypto, db.registry, Entry(db.permits.authorizations, id).json) == [] <==>
               && !Ended(db.registry, r.asked.gate, r.gateAt, r.issuedAt)
               && (SignatureValid(env, r.asked) ==> FoundSame(db.registry, r)))
  {
    hide Inv, LegalMoves, After, RegistryOk, Grounded, VerifyAuthorization, FoundSame, Ended, RowOf, IndexesOk, OutcomeFrom, ProcessesOk,
      AskedOk, GovernedBy, Delegates, AgentWas, SignatureValid, IdentityOps.SuccessionsOk, PolicyStore.StoreOk, EventStream.StreamsOk;
    MovesKeep(env, moves);
    BareParts(env, Shared(env, moves), Now(moves));
    AuthorizationExactly(env, Shared(env, moves).registry, Now(moves), After(env, moves).recipes[id]);
  }

  /** Which executions verify: exactly those between whose stages the executor's key did not end. */
  lemma ExecutionsVerifyExactly(env: Env, moves: seq<Move>, id: string)
    requires Honest(env) && LegalMoves(env, moves)
    requires id in Shared(env, moves).permits.outcomes
    ensures var db := Shared(env, moves);
      && Grounded(db.registry)
      && id in db.permits.authorizations && id in After(env, moves).completions
      && var c := Entry(After(env, moves).completions, id);
         && c.offered.id == id && OutcomeOf(env, c) == Entry(db.permits.outcomes, id)
         && c.executorAt < c.completedAt
         && (VerifyExecution(env.crypto, db.registry, Entry(db.permits.authorizations, id).json, Entry(db.permits.outcomes, id).json) == [] <==>
               !Ended(db.registry, c.offered.executorId, c.executorAt, c.completedAt))
  {
    hide Inv, LegalMoves, After, RegistryOk, Grounded, VerifyExecution, Ended, OutcomeOf, IndexesOk, AuthorizationFrom, ProcessesOk,
      ExecutorObjection, ValidateOutcome, OutcomeToSign, Acts, StringField, IdentityOps.SuccessionsOk, PolicyStore.StoreOk,
      EventStream.StreamsOk;
    MovesKeep(env, moves);
    var db := Shared(env, moves);
    BareParts(env, db, Now(moves));
    ExecutionExactly(env, db.registry, Now(moves), db.permits.authorizations[id], After(env, moves).completions[id]);
  }
}
