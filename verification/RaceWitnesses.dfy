/** Races that do happen, in a deployment that meets every assumption. */
module RaceWitnesses {
  import opened Prelude
  import opened Names
  import opened Json
  import opened Crypto
  import opened Policy
  import opened Identity
  import opened IdentityProofs
  import opened Permits
  import opened PermitProofs
  import opened Gate
  import opened GateInv
  import opened GateRuns
  import opened Stages
  import opened Interleaving
  import opened Deployment
  import opened Witnesses
  import opened Parser
  import opened ParserProofs
  import opened StoredTexts
  import Canonical
  import EventStream
  import IdentityOps
  import PolicyStore
  import Decimal

  const SIXTH: u64 := 6
  const SEVENTH: u64 := 7
  const EIGHTH: u64 := 8
  const NINTH: u64 := 9
  const TENTH: u64 := 10
  const ELEVENTH: u64 := 11

  // ---- Going on ----

  /** A history can go on with any legal move. */
  lemma GoesOn(env: Env, moves: seq<Move>, m: Move)
    requires LegalMoves(env, moves) && MoveLegal(env, After(env, moves), Now(moves), m)
    ensures LegalMoves(env, moves + [m]) && After(env, moves + [m]) == MoveTo(env, After(env, moves), m)
    ensures Now(moves + [m]) == m.Instant().GetOr(Now(moves))
  {
    hide MoveLegal, MoveTo;
    var more := moves + [m];
    assert more[..|more| - 1] == moves && more[|more| - 1] == m;
  }

  /** The system is a database and what its processes hold, and no more has been written. */
  ghost predicate Stands(env: Env, moves: seq<Move>, db: Db, processes: map<int, Process>, now: u64) {
    LegalMoves(env, moves) && After(env, moves).db == db && After(env, moves).processes == processes && Now(moves) == now
  }

  lemma StandsGrounded(env: Env, moves: seq<Move>, db: Db, processes: map<int, Process>, now: u64)
    requires Honest(env) && Stands(env, moves, db, processes, now)
    ensures SystemOk(env, After(env, moves), now) && RegistryOk(env, db.registry, now) && Grounded(db.registry)
  {
    hide Honest, LegalMoves, After, Inv, RecordsOk, ProcessesOk, RegistryOk, Grounded, PolicyStore.StoreOk, EventStream.StreamsOk,
      IdentityOps.SuccessionsOk;
    MovesKeep(env, moves);
    BareParts(env, db, now);
  }

  /** A whole call. */
  lemma CallMoves(env: Env, moves: seq<Move>, db: Db, processes: map<int, Process>, now: u64, call: Call, at: u64)
    requires Stands(env, moves, db, processes, now) && Legal(env, db, call) && !call.RequestCall? && !call.CommitCall? && now < at
    ensures Stands(env, moves + [Whole(call, at)], Step(env, db, call, at), processes, at)
  {
    hide LegalMoves, After, Step, Legal, Next, Seek, Offer, Write;
    LegalGrounded(env, db, call);
    GoesOn(env, moves, Whole(call, at));
  }

  lemma LegalGrounded(env: Env, db: Db, call: Call)
    requires Legal(env, db, call)
    ensures Grounded(db.registry)
  {
    hide MayRotate, MayRevoke, Grounded;
  }

  /** A stage of a process that goes on. */
  lemma StageMoves(env: Env, moves: seq<Move>, db: Db, processes: map<int, Process>, now: u64, process: int, held: Process, at: u64, db': Db, next: Process)
    requires Stands(env, moves, db, processes, now) && Grounded(db.registry) && now < at
    requires process in processes && Entry(processes, process) == held && Waits(held) && Next(env, db, held, at) == (db', Some(next))
    ensures Stands(env, moves + [Look(process, at)] + [Advance(process)], db', processes[process := next], at)
  {
    hide LegalMoves, After, Step, Legal, Next, Seek, Offer, Write, Grounded;
    GoesOn(env, moves, Look(process, at));
    GoesOn(env, moves + [Look(process, at)], Advance(process));
    assert processes[process := Reading(held, at)][process := next] == processes[process := next];
  }

  // ---- The three keys ----

  function CastMoves(root: string, agent: string, executor: string): seq<Move> {
    [] + [Whole(RegisterRoot(root), FIRST)] + [Whole(RegisterKey(root, agent, NO_METADATA), SECOND)]
       + [Whole(RegisterKey(root, executor, NO_METADATA), THIRD)]
  }

  /** The prefixes of a run are runs. */
  lemma Shorter(env: Env, run: seq<GateRuns.Timed>, call: Call, at: u64)
    requires GateRuns.Reached(env, run + [GateRuns.Timed(call, at)])
    ensures GateRuns.Reached(env, run) && GateRuns.Clock(run) < at && Legal(env, GateRuns.State(env, run), call)
    ensures GateRuns.State(env, run + [GateRuns.Timed(call, at)]) == Step(env, GateRuns.State(env, run), call, at)
  {
    hide Step, Legal, GateRuns.LegalRun, GateRuns.RunFrom;
    GateRuns.RunSplits(env, Gate.EMPTY, 0, run, [GateRuns.Timed(call, at)]);
    GateRuns.OneCall(env, GateRuns.State(env, run), GateRuns.Clock(run), [GateRuns.Timed(call, at)]);
  }

  /** A registration of a run, as a move. */
  lemma RegisterMoves(env: Env, run: seq<GateRuns.Timed>, moves: seq<Move>, call: Call, at: u64)
    requires GateRuns.Reached(env, run + [GateRuns.Timed(call, at)]) && call.RegisterCall?
    requires Stands(env, moves, GateRuns.State(env, run), map[], GateRuns.Clock(run))
    ensures Stands(env, moves + [Whole(call, at)], GateRuns.State(env, run + [GateRuns.Timed(call, at)]), map[],
                   GateRuns.Clock(run + [GateRuns.Timed(call, at)]))
  {
    hide Stands, Step, Legal, GateRuns.Reached, GateRuns.State;
    Shorter(env, run, call, at);
    CallMoves(env, moves, GateRuns.State(env, run), map[], GateRuns.Clock(run), call, at);
  }

  lemma NothingYet(env: Env)
    ensures Stands(env, [], GateRuns.State(env, []), map[], GateRuns.Clock([]))
  {
    hide MoveTo, Step;
  }

  /** The same registrations as moves. */
  lemma CastMoved(env: Env, root: string, agent: string, executor: string)
    requires Cast(env, root, agent, executor)
    ensures var db := GateRuns.State(env, CastRun(root, agent, executor));
      && Stands(env, CastMoves(root, agent, executor), db, map[], THIRD)
      && Site(env, db, root, FIRST) && db.streams.Events("acme") == []
      && KnownAs(db.registry, agent) && KnownAs(db.registry, executor)
  {
    hide GateRuns.Reached, GateRuns.State, GateRuns.Clock, Stands, Site, KnownAs, Cast, Step, MoveTo, After, LegalMoves;
    CastUp(env, root, agent, executor);
    var run1, run2 := RootRun(root), RootRun(root) + [GateRuns.Timed(RegisterKey(root, agent, NO_METADATA), SECOND)];
    Shorter(env, run2, RegisterKey(root, executor, NO_METADATA), THIRD);
    Shorter(env, run1, RegisterKey(root, agent, NO_METADATA), SECOND);
    NothingYet(env);
    assert [] + [GateRuns.Timed(RegisterRoot(root), FIRST)] == run1;
    RegisterMoves(env, [], [], RegisterRoot(root), FIRST);
    RegisterMoves(env, run1, [] + [Whole(RegisterRoot(root), FIRST)], RegisterKey(root, agent, NO_METADATA), SECOND);
    RegisterMoves(env, run2, [] + [Whole(RegisterRoot(root), FIRST)] + [Whole(RegisterKey(root, agent, NO_METADATA), SECOND)],
                  RegisterKey(root, executor, NO_METADATA), THIRD);
  }

  // ---- A request up to its date ----

  function AskMoves(env: Env, root: string, agent: string, executor: string): seq<Move> {
    CastMoves(root, agent, executor)
      + [StartRequest(0, root, Some(Intent(agent, FIFTH, Null)), agent, AgentSignature(env, agent, FIFTH, Null), TTL)]
      + [Look(0, FOURTH)] + [Advance(0)] + [Look(0, FIFTH)] + [Advance(0)]
  }

  function Asking(env: Env, root: string, agent: string): Asked {
    Ask(root, agent, FIFTH, Null, AgentSignature(env, agent, FIFTH, Null))
  }

  function DatedProcess(env: Env, root: string, agent: string): Process {
    var asked := Asking(env, root, agent);
    Dated(asked, FOURTH, FIFTH, BaselineBundle(env, root, FIRST), Evaluated(env, asked, FIRST))
  }

  /** The tables after the request is dated: those of the three keys, and no others. */
  ghost predicate Quiet(env: Env, db: Db, root: string, agent: string, executor: string) {
    && Star(db.registry, root) && db.permits == Gate.EMPTY.permits && db.streams.Events("acme") == []
    && KnownAs(db.registry, agent) && KnownAs(db.registry, executor)
    && Entry(db.registry.agents, agent).registeredAt < FOURTH && Entry(db.registry.agents, executor).registeredAt < FOURTH
  }

  lemma StartMoves(env: Env, moves: seq<Move>, db: Db, now: u64, root: string, agent: string, agentSignature: string)
    requires Stands(env, moves, db, map[], now) && Grounded(db.registry) && env.crypto.isPublicKey(root)
    requires !IsBlank(agent) && db.permits == Gate.EMPTY.permits
    ensures Stands(env, moves + [StartRequest(0, root, Some(Intent(agent, FIFTH, Null)), agent, agentSignature, TTL)], db,
                   map[0 := Sought(Ask(root, agent, FIFTH, Null, agentSignature))], now)
  {
    hide LegalMoves, After, Step, Next, Seek, Offer, Write, Grounded, Intent, IsBlank;
    var m := StartRequest(0, root, Some(Intent(agent, FIFTH, Null)), agent, agentSignature, TTL);
    SeekWorks(env, db, root, agent, FIFTH, Null, agentSignature);
    GoesOn(env, moves, m);
  }

  lemma RegisteredBefore(env: Env, reg: Registry, clock: u64, key: string)
    requires RegistryOk(env, reg, clock) && key in reg.agents
    ensures reg.agents[key].registeredAt <= clock
  {
    hide AgentOk, EventOk;
    RegistrarRegistered(env, reg, clock, key);
  }

  /** The request is asked, admitted and dated. */
  lemma AskMoved(env: Env, root: string, agent: string, executor: string) returns (db: Db)
    requires Cast(env, root, agent, executor)
    ensures Stands(env, AskMoves(env, root, agent, executor), db, map[0 := DatedProcess(env, root, agent)], FIFTH)
    ensures Quiet(env, db, root, agent, executor)
  {
    hide GateRuns.State, GateRuns.Reached, Step, MoveTo, After, LegalMoves, Stands, KnownAs, Cast, Star, Configured, Honest, BaselineStore,
      BaselineBundle, Next, Grounded, RegistryOk, Intent, AgentSignature, CastMoves, CastRun, SystemOk, IsBlank, Plain, Evaluated,
      EvaluatePolicy;
    CastNames(env, root, agent, executor);
    CastMoved(env, root, agent, executor);
    var db0 := GateRuns.State(env, CastRun(root, agent, executor));
    var moves := CastMoves(root, agent, executor);
    StandsGrounded(env, moves, db0, map[], THIRD);
    var asked := Asking(env, root, agent);
    StartMoves(env, moves, db0, THIRD, root, agent, AgentSignature(env, agent, FIFTH, Null));
    var moves1 := moves + [StartRequest(0, root, Some(Intent(agent, FIFTH, Null)), agent, AgentSignature(env, agent, FIFTH, Null), TTL)];
    AdmitWorks(env, db0, THIRD, asked, FOURTH);
    StageMoves(env, moves1, db0, map[0 := Sought(asked)], THIRD, 0, Sought(asked), FOURTH, db0, Admitted(asked, FOURTH));
    assert map[0 := Sought(asked)][0 := Admitted(asked, FOURTH)] == map[0 := Admitted(asked, FOURTH)];
    IntentReads(agent, FIFTH, Null);
    DateWorks(env, db0, asked, FIRST, FOURTH, FIFTH);
    db := Next(env, db0, Admitted(asked, FOURTH), FIFTH).0;
    StageMoves(env, moves1 + [Look(0, FOURTH)] + [Advance(0)], db0, map[0 := Admitted(asked, FOURTH)], FOURTH, 0, Admitted(asked, FOURTH), FIFTH, db,
               DatedProcess(env, root, agent));
    assert map[0 := Admitted(asked, FOURTH)][0 := DatedProcess(env, root, agent)] == map[0 := DatedProcess(env, root, agent)];
    KnownMeans(db0.registry, agent);
    KnownMeans(db0.registry, executor);
    RegisteredBefore(env, db0.registry, THIRD, agent);
    RegisteredBefore(env, db0.registry, THIRD, executor);
  }

  // ---- A revocation in between ----

  function RevokeMove(root: string, key: string, at: u64): Move {
    Whole(RevokeCall(root, key, "left"), at)
  }

  /** The database after a revocation by the root. */
  ghost function Revoked1(env: Env, db: Db, root: string, key: string, at: u64): Db {
    Step(env, db, RevokeCall(root, key, "left"), at)
  }

  lemma RootIndependent(reg: Registry, root: string, key: string)
    requires Grounded(reg) && Star(reg, root) && key in reg.agents && key != root
    ensures MayRotate(reg, root, key) && MayRevoke(reg, root, key)
  {
    hide Grounded, Level, SignerOf;
    DependsOnRoot(reg, root, root);
  }

  /** What a revocation by the root does. */
  lemma RevokeMoves(env: Env, moves: seq<Move>, db: Db, processes: map<int, Process>, now: u64, root: string, key: string, at: u64)
    requires Configured(env, root) && Stands(env, moves, db, processes, now) && Star(db.registry, root)
    requires key in db.registry.agents && key != root && now < at
    ensures var db' := Revoked1(env, db, root, key, at);
      && Stands(env, moves + [RevokeMove(root, key, at)], db', processes, at)
      && db'.registry.agents == db.registry.agents[key := RetireRow(Entry(db.registry.agents, key), Revoke, at)]
      && db' == db.(registry := db'.registry, permits := db'.permits, signed := db'.signed)
      && db'.permits == db.permits.(revoked := db'.permits.revoked)
      && db'.permits.revoked.Keys == db.permits.revoked.Keys + RevocablePermits(db.permits, key, at)
  {
    hide Stands, Deployment.ProperSigner, Star, RegistryOk, SystemOk, RevokeAgent, Grounded, RetireRow, RevocationOf, DigestJson,
      RevocablePermits, Register, Gate.Rotate, InstallPolicy, Request, Commit, MayRevoke, MayRotate, Honest, After;
    GateKnown(env, root);
    StandsGrounded(env, moves, db, processes, now);
    StarHasRoot(db.registry, root);
    RevocationAccepted(env, db.registry, now, root, root, key, at);
    RootIndependent(db.registry, root, key);
    CallMoves(env, moves, db, processes, now, RevokeCall(root, key, "left"), at);
    RevokedRegistry(env, db.registry, root, key, at);
  }

  lemma StarHasRoot(reg: Registry, root: string)
    requires Star(reg, root)
    ensures root in reg.agents && reg.agents[root].canDelegate
  {}

  lemma RevokedRegistry(env: Env, reg: Registry, root: string, key: string, at: u64)
    requires Grounded(reg) && RevokeAgent(env, reg, root, key, "left", at).Ok?
    ensures key in reg.agents && Good(RevokeAgent(env, reg, root, key, "left", at)).agents == reg.agents[key := RetireRow(Entry(reg.agents, key), Revoke, at)]
  {
    hide Grounded, VerifyAgentInner, RetireRow, DigestJson, RevocationFault, LifecycleRowFor, RevocationOf;
  }

  /** After a revocation the chains are as short as before. */
  lemma TwoLinks(reg: Registry, root: string, key: string)
    requires Grounded(reg) && root in reg.agents && reg.agents[root].registeredBy == root && key in reg.agents && reg.agents[key].registeredBy == root
    ensures ChainLength(reg, key) <= 2
  {
    hide Grounded;
    assert ChainLength(reg, root) == 1;
  }

  // ---- An authorization that does not verify ----

  function StaleMoves(env: Env, root: string, agent: string, executor: string): seq<Move> {
    AskMoves(env, root, agent, executor) + [RevokeMove(root, agent, SIXTH)] + [Look(0, SEVENTH)] + [Advance(0)] + [Finish(0)]
  }

  /** A write that succeeds. */
  lemma WriteMoves(env: Env, moves: seq<Move>, db: Db, processes: map<int, Process>, now: u64, process: int, r: Recipe)
    requires Stands(env, moves, db, processes, now) && Grounded(db.registry)
    requires process in processes && Entry(processes, process) == Drafted(r) && r.asked.fields.tenantId == "acme"
    requires db.permits == Gate.EMPTY.permits && db.streams.Events("acme") == []
    ensures var db' := FinishRequest(env, db, RowOf(env, r).0, RowOf(env, r).1).db;
      && Stands(env, moves + [Finish(process)], db', processes - {process}, now)
      && db' == db.(permits := db'.permits, streams := db'.streams) && OnePermit(db', RowOf(env, r).0, RowOf(env, r).1)
    ensures RowOf(env, r).0 in After(env, moves + [Finish(process)]).recipes && Entry(After(env, moves + [Finish(process)]).recipes, RowOf(env, r).0) == r
  {
    hide LegalMoves, After, Step, Next, Seek, Offer, Grounded, RowOf, FinishRequest, FinishCommit;
    RowTenant(env, r);
    WriteWorks(env, db, RowOf(env, r).0, RowOf(env, r).1, 0);
    GoesOn(env, moves, Finish(process));
  }

  /** A key of the site that has been revoked was active until then. */
  lemma RevokedChanged(env: Env, reg: Registry, reg': Registry, root: string, key: string, before: u64, at: u64, later: u64)
    requires Star(reg, root) && Grounded(reg') && key in reg.agents && key != root
    requires reg'.agents == reg.agents[key := RetireRow(reg.agents[key], Revoke, at)]
    requires reg.agents[key].registeredAt < before < at <= later
    ensures Changed(reg', key, before, later) && Ended(reg', key, before, later)
  {
    hide Grounded, ChainLength;
    TwoLinks(reg', root, key);
  }

  lemma ActiveUntil(env: Env, reg: Registry, reg': Registry, clock: u64, root: string, key: string, before: u64, at: u64)
    requires Star(reg, root) && RegistryOk(env, reg', clock) && Grounded(reg') && key in reg.agents && key != root
    requires reg'.agents == reg.agents[key := RetireRow(reg.agents[key], Revoke, at)]
    requires reg.agents[key].registeredAt < before < at
    ensures ActiveAt(reg', key, before)
  {
    hide AgentOk, EventOk, Grounded, ChainLength;
    TwoLinks(reg', root, key);
    IdentityOps.AgentWindow(env, reg', clock, key);
  }

  /** There is an authorization that does not verify. */
  ghost predicate AuthorizationFails(env: Env, db: Db, id: string) {
    && Grounded(db.registry) && id in db.permits.authorizations
    && VerifyAuthorization(env.crypto, db.registry, Entry(db.permits.authorizations, id).json) != []
  }

  /** The agent's key is revoked after its request is dated and before it is decided: the request is
      blocked, and the record, issued while the key was active, does not verify. */
  lemma StaleAuthorization(env: Env, root: string, agent: string, executor: string) returns (id: string)
    requires Cast(env, root, agent, executor)
    ensures var moves := StaleMoves(env, root, agent, executor);
      LegalMoves(env, moves) && AuthorizationFails(env, Shared(env, moves), id)
  {
    hide Stands, Cast, Star, Configured, Honest, Grounded, RegistryOk, SystemOk, Next, RowOf, RetireRow, BaselineBundle, Evaluated, MoveTo,
      LegalMoves, After, AgentSignature, Intent, VerifyAuthorization, OnePermit, AskMoves, KnownAs, Step, RevocablePermits, Changed, Ended,
      SignatureValid, ClosedForm, FinishRequest, ActiveAt;
    CastNames(env, root, agent, executor);
    var db := AskMoved(env, root, agent, executor);
    var moves := AskMoves(env, root, agent, executor);
    var held := DatedProcess(env, root, agent);
    KnownMeans(db.registry, agent);
    RevokeMoves(env, moves, db, map[0 := held], FIFTH, root, agent, SIXTH);
    var db1 := Revoked1(env, db, root, agent, SIXTH);
    var moves1 := moves + [RevokeMove(root, agent, SIXTH)];
    StandsGrounded(env, moves1, db1, map[0 := held], SIXTH);
    var asked := Asking(env, root, agent);
    DraftWorks(env, db1, SIXTH, asked, FOURTH, FIFTH, held.bundle, held.policy, SEVENTH);
    var r := Cooked(asked, FOURTH, FIFTH, held.bundle, held.policy, ClosedForm(db1.registry, agent, SEVENTH), SEVENTH);
    var db2 := Next(env, db1, held, SEVENTH).0;
    StageMoves(env, moves1, db1, map[0 := held], SIXTH, 0, held, SEVENTH, db2, Drafted(r));
    var moves2 := moves1 + [Look(0, SEVENTH)] + [Advance(0)];
    NothingRevocable(db.permits, agent, SIXTH);
    WriteMoves(env, moves2, db2, map[0 := held][0 := Drafted(r)], SEVENTH, 0, r);
    var moves3 := StaleMoves(env, root, agent, executor);
    id := RowOf(env, r).0;
    var db3 := FinishRequest(env, db2, id, RowOf(env, r).1).db;
    StandsMeans(env, moves3, db3, map[0 := held][0 := Drafted(r)] - {0}, SEVENTH);
    PermitThere(db3, id, RowOf(env, r).1);
    AuthorizationsVerifyExactly(env, moves3, id);
    SignedIntent(env, agent, FIFTH);
    RevokedChanged(env, db.registry, db3.registry, root, agent, FIFTH, SIXTH, SEVENTH);
    ActiveUntil(env, db.registry, db3.registry, SIXTH, root, agent, FIFTH, SIXTH);
    AskedSigned(env, root, agent);
  }

  // ---- A torn check ----

  function TornMoves(env: Env, root: string, agent: string, executor: string): seq<Move> {
    AskMoves(env, root, agent, executor) + [Look(0, SIXTH)] + [RevokeMove(root, agent, SEVENTH)] + [Miss(0)] + [Finish(0)]
  }

  lemma LookMoves(env: Env, moves: seq<Move>, db: Db, processes: map<int, Process>, now: u64, process: int, held: Process, at: u64)
    requires Stands(env, moves, db, processes, now) && Grounded(db.registry) && now < at
    requires process in processes && Entry(processes, process) == held && Waits(held)
    ensures Stands(env, moves + [Look(process, at)], db, processes[process := Reading(held, at)], at)
  {
    hide LegalMoves, After, Step, Legal, Next, Seek, Offer, Write, Grounded;
    GoesOn(env, moves, Look(process, at));
  }

  lemma MissMoves(env: Env, moves: seq<Move>, db: Db, processes: map<int, Process>, now: u64, process: int, held: Process, db': Db, next: Process)
    requires Stands(env, moves, db, processes, now) && Grounded(db.registry)
    requires process in processes && Entry(processes, process) == held && Deciding(held) && Unfound(env, db, held) == (db', Some(next))
    ensures Stands(env, moves + [Miss(process)], db', processes[process := next], now)
  {
    hide LegalMoves, After, Step, Legal, Unfound, Seek, Offer, Write, Grounded, Onward, Deciding, Now;
    GoesOn(env, moves, Miss(process));
  }

  /** The decision of a process that finds no key. */
  lemma UnfoundWorks(env: Env, db: Db, asked: Asked, gateAt: u64, issuedAt: u64, bundle: Value, policy: PolicyDecision, at: u64)
    requires issuedAt + asked.ttlSeconds * MICROS_PER_SECOND <= U64_MAX
    ensures var next := Unfound(env, db, Reading(Dated(asked, gateAt, issuedAt, bundle, policy), at));
      && next.0 == db.(signed := next.0.signed, issued := next.0.issued)
      && next.1 == Some(Drafted(Cooked(asked, gateAt, issuedAt, bundle, policy, None, at)))
  {
    hide RowOf, BodyOf;
  }

  /** The agent's key is revoked while it is being checked: the check finds no key, the request is blocked, and
      the record, issued while the key was active, does not verify. */
  lemma TornAuthorization(env: Env, root: string, agent: string, executor: string) returns (id: string)
    requires Cast(env, root, agent, executor)
    ensures var moves := TornMoves(env, root, agent, executor);
      LegalMoves(env, moves) && AuthorizationFails(env, Shared(env, moves), id)
  {
    hide Stands, Cast, Star, Configured, Honest, Grounded, RegistryOk, SystemOk, Unfound, RowOf, RetireRow, BaselineBundle, Evaluated,
      MoveTo, LegalMoves, After, AgentSignature, Intent, VerifyAuthorization, OnePermit, AskMoves, KnownAs, Step, RevocablePermits, Changed,
      Ended, SignatureValid, FinishRequest, ActiveAt;
    CastNames(env, root, agent, executor);
    var db := AskMoved(env, root, agent, executor);
    var moves := AskMoves(env, root, agent, executor);
    var dated := DatedProcess(env, root, agent);
    var held := Reading(dated, SIXTH);
    KnownMeans(db.registry, agent);
    StandsGrounded(env, moves, db, map[0 := dated], FIFTH);
    LookMoves(env, moves, db, map[0 := dated], FIFTH, 0, dated, SIXTH);
    assert map[0 := dated][0 := held] == map[0 := held];
    RevokeMoves(env, moves + [Look(0, SIXTH)], db, map[0 := held], SIXTH, root, agent, SEVENTH);
    var db1 := Revoked1(env, db, root, agent, SEVENTH);
    var moves1 := moves + [Look(0, SIXTH)] + [RevokeMove(root, agent, SEVENTH)];
    StandsGrounded(env, moves1, db1, map[0 := held], SEVENTH);
    var asked := Asking(env, root, agent);
    UnfoundWorks(env, db1, asked, FOURTH, FIFTH, dated.bundle, dated.policy, SIXTH);
    var r := Cooked(asked, FOURTH, FIFTH, dated.bundle, dated.policy, None, SIXTH);
    var db2 := Unfound(env, db1, held).0;
    MissMoves(env, moves1, db1, map[0 := held], SEVENTH, 0, held, db2, Drafted(r));
    NothingRevocable(db.permits, agent, SEVENTH);
    WriteMoves(env, moves1 + [Miss(0)], db2, map[0 := held][0 := Drafted(r)], SEVENTH, 0, r);
    var moves3 := TornMoves(env, root, agent, executor);
    id := RowOf(env, r).0;
    var db3 := FinishRequest(env, db2, id, RowOf(env, r).1).db;
    StandsMeans(env, moves3, db3, map[0 := held][0 := Drafted(r)] - {0}, SEVENTH);
    PermitThere(db3, id, RowOf(env, r).1);
    AuthorizationsVerifyExactly(env, moves3, id);
    ActiveUntil(env, db.registry, db3.registry, SEVENTH, root, agent, FIFTH, SEVENTH);
    ActiveUntil(env, db.registry, db3.registry, SEVENTH, root, agent, SIXTH, SEVENTH);
    AskedSigned(env, root, agent);
  }

  lemma AskedSigned(env: Env, root: string, agent: string)
    requires Honest(env) && env.crypto.isPublicKey(agent)
    ensures SignatureValid(env, Asking(env, root, agent))
  {
    hide Intent, Canonical.Text, AgentSignature;
    SignedIntent(env, agent, FIFTH);
  }

  lemma StandsMeans(env: Env, moves: seq<Move>, db: Db, processes: map<int, Process>, now: u64)
    requires Stands(env, moves, db, processes, now)
    ensures LegalMoves(env, moves) && Shared(env, moves) == db && Now(moves) == now
  {
    hide LegalMoves, After;
  }

  lemma NothingRevocable(p: PermitTables, key: string, at: u64)
    requires p.authorizations == map[]
    ensures RevocablePermits(p, key, at) == {}
  {}

  // ---- The permit of the request ----

  function PermitMoves(env: Env, root: string, agent: string, executor: string): seq<Move> {
    AskMoves(env, root, agent, executor) + [Look(0, SIXTH)] + [Advance(0)] + [Finish(0)]
  }

  /** The recipe of the permit. */
  function PermitRecipe(env: Env, root: string, agent: string): Recipe {
    AllowedRecipe(env, root, agent, FOURTH, FIFTH, SIXTH)
  }

  /** The tables when the permit is recorded. */
  ghost predicate Permitted(env: Env, db: Db, root: string, agent: string, executor: string) {
    && Star(db.registry, root) && KnownAs(db.registry, agent) && KnownAs(db.registry, executor)
    && Entry(db.registry.agents, agent).registeredAt < FOURTH && Entry(db.registry.agents, executor).registeredAt < FOURTH
    && OnePermit(db, RowOf(env, PermitRecipe(env, root, agent)).0, RowOf(env, PermitRecipe(env, root, agent)).1)
  }

  lemma PermitMoved(env: Env, root: string, agent: string, executor: string) returns (db: Db)
    requires Cast(env, root, agent, executor)
    ensures Stands(env, PermitMoves(env, root, agent, executor), db, map[], SIXTH) && Permitted(env, db, root, agent, executor)
    ensures Usable(env, db, root, FIRST, RowOf(env, PermitRecipe(env, root, agent)).0, agent, SEVENTH)
  {
    hide Stands, Cast, Star, Configured, Honest, Grounded, RegistryOk, SystemOk, Next, RowOf, BaselineBundle, Evaluated, MoveTo, LegalMoves,
      After, AgentSignature, Intent, OnePermit, AskMoves, KnownAs, Step, ClosedForm, FinishRequest, Usable;
    CastNames(env, root, agent, executor);
    var db0 := AskMoved(env, root, agent, executor);
    var moves := AskMoves(env, root, agent, executor);
    var held := DatedProcess(env, root, agent);
    var r := PermitRecipe(env, root, agent);
    StandsGrounded(env, moves, db0, map[0 := held], FIFTH);
    FoundPlainly(env, db0.registry, FIFTH, root, agent, SIXTH);
    DraftWorks(env, db0, FIFTH, Asking(env, root, agent), FOURTH, FIFTH, held.bundle, held.policy, SIXTH);
    var db1 := Next(env, db0, held, SIXTH).0;
    StageMoves(env, moves, db0, map[0 := held], FIFTH, 0, held, SIXTH, db1, Drafted(r));
    WriteMoves(env, moves + [Look(0, SIXTH)] + [Advance(0)], db1, map[0 := held][0 := Drafted(r)], SIXTH, 0, r);
    assert map[0 := held][0 := Drafted(r)] - {0} == map[];
    db := FinishRequest(env, db1, RowOf(env, r).0, RowOf(env, r).1).db;
    PermitVerifies(env, PermitMoves(env, root, agent, executor), db, root, agent, executor);
  }

  lemma WindowOpen(env: Env, reg: Registry, clock: u64, root: string, key: string, start: u64, end: u64)
    requires RegistryOk(env, reg, clock) && Grounded(reg) && Star(reg, root) && key in reg.agents && Entry(reg.agents, key).registeredAt < start
    ensures !Ended(reg, key, start, end) && !Changed(reg, key, start, end)
  {
    hide RegistryOk, Grounded, ChainLength;
    StarWindow(env, reg, clock, key);
  }

  lemma PermitVerifies(env: Env, moves: seq<Move>, db: Db, root: string, agent: string, executor: string)
    requires Cast(env, root, agent, executor) && Stands(env, moves, db, map[], SIXTH) && Permitted(env, db, root, agent, executor)
    requires var (r, s) := (PermitRecipe(env, root, agent), After(env, moves)); RowOf(env, r).0 in s.recipes && Entry(s.recipes, RowOf(env, r).0) == r
    ensures Usable(env, db, root, FIRST, RowOf(env, PermitRecipe(env, root, agent)).0, agent, SEVENTH)
  {
    hide Stands, Cast, Star, Honest, Deployment.ProperSigner, Grounded, RegistryOk, SystemOk, RowOf, BaselineBundle, Evaluated, LegalMoves,
      After, AgentSignature, Intent, KnownAs, VerifyAuthorization, AuthorizationColumnsOk, IsBlank, Ended, Changed, SignatureValid,
      DecisionOf, Plain, AskedOk, Open, Ids;
    CastNames(env, root, agent, executor);
    var r := PermitRecipe(env, root, agent);
    StandsGrounded(env, moves, db, map[], SIXTH);
    StandsMeans(env, moves, db, map[], SIXTH);
    StarHasRoot(db.registry, root);
    KnownMeans(db.registry, agent);
    RecipeAllowed(env, root, agent, FOURTH, FIFTH, SIXTH);
    PermitReads(env, r);
    AuthorizationsVerifyExactly(env, moves, RowOf(env, r).0);
    GateOpen(env, db.registry, SIXTH, root);
    WindowOpen(env, db.registry, SIXTH, root, agent, FIFTH, SIXTH);
  }

  lemma GateOpen(env: Env, reg: Registry, clock: u64, root: string)
    requires RegistryOk(env, reg, clock) && Star(reg, root)
    ensures forall start: u64, end: u64 {:trigger Ended(reg, root, start, end)} :: !Ended(reg, root, start, end)
  {
    hide RegistryOk, Grounded;
    StarWindow(env, reg, clock, root);
  }

  // ---- The commit of its outcome ----

  function OfferedFor(env: Env, root: string, agent: string, executor: string): Offered {
    CompletionFor(env, root, PermitRecipe(env, root, agent), executor, EIGHTH, TENTH).offered
  }

  function CommitMoves(env: Env, root: string, agent: string, executor: string): seq<Move> {
    OfferedMoves(env, root, agent, executor) + [Look(1, EIGHTH)] + [Advance(1)] + [Look(1, NINTH)] + [Advance(1)]
  }

  lemma OfferMoves(env: Env, moves: seq<Move>, db: Db, now: u64, root: string, o: Offered, at: u64)
    requires Stands(env, moves, db, map[], now) && Grounded(db.registry) && env.crypto.isPublicKey(root) && now < at
    requires Offer(env, db, root, o.id, Some(o.outcome), at) == Some(o)
    ensures Stands(env, moves + [StartCommit(1, root, o.id, Some(o.outcome), at)], db, map[1 := Checked(o)], at)
  {
    hide LegalMoves, After, Step, Next, Seek, Offer, Write, Grounded;
    GoesOn(env, moves, StartCommit(1, root, o.id, Some(o.outcome), at));
  }

  lemma OfferMatches(env: Env, db: Db, root: string, agent: string, executor: string)
    requires Permitted(env, db, root, agent, executor)
    ensures var id := RowOf(env, PermitRecipe(env, root, agent)).0;
      && id in db.permits.authorizations && db.permits.authorizations[id] == RowOf(env, PermitRecipe(env, root, agent)).1
      && OfferOf(env, db, root, id, executor) == OfferedFor(env, root, agent, executor)
      && db.permits.authorizations[id].decision == RowOf(env, PermitRecipe(env, root, agent)).1.decision
  {
    hide Star, RowOf, Open, Ids, KnownAs, Outcome, AllowedRecipe;
  }

  /** An offer that its executor may make. */
  ghost predicate Sound(env: Env, o: Offered, root: string, executor: string) {
    && o.gate == root && o.executorId == executor
    && StringField(PermitOf(o.json), TENANT_ID) == Some("acme") && StringField(PermitOf(o.json), INTENT_HASH).Some?
    && Signature(o) == env.crypto.sign(executor, TextBytes(Canonical.Text(OutcomeToSign(o.outcome))))
  }

  function OfferedMoves(env: Env, root: string, agent: string, executor: string): seq<Move> {
    var o := OfferedFor(env, root, agent, executor);
    PermitMoves(env, root, agent, executor) + [StartCommit(1, root, o.id, Some(o.outcome), SEVENTH)]
  }

  /** The permit is checked ... */
  lemma OfferMoved(env: Env, root: string, agent: string, executor: string) returns (db: Db)
    requires Cast(env, root, agent, executor)
    ensures Stands(env, OfferedMoves(env, root, agent, executor), db, map[1 := Checked(OfferedFor(env, root, agent, executor))], SEVENTH)
    ensures Permitted(env, db, root, agent, executor) && Sound(env, OfferedFor(env, root, agent, executor), root, executor)
    ensures Usable(env, db, root, FIRST, RowOf(env, PermitRecipe(env, root, agent)).0, agent, SEVENTH)
  {
    hide Stands, Cast, Star, Deployment.ProperSigner, Grounded, RegistryOk, SystemOk, Next, RowOf, BaselineBundle, Evaluated, MoveTo,
      LegalMoves, After, AgentSignature, Intent, OnePermit, PermitMoves, KnownAs, Step, Offer, Usable, Outcome, IsBlank, StringField,
      OutcomeToSign, Canonical.Text, Honest, Permitted, PermitRecipe, ValidateOutcome;
    CastNames(env, root, agent, executor);
    db := PermitMoved(env, root, agent, executor);
    var o := OfferedFor(env, root, agent, executor);
    StandsGrounded(env, PermitMoves(env, root, agent, executor), db, map[], SIXTH);
    OfferMatches(env, db, root, agent, executor);
    OfferWorks(env, db, root, FIRST, o.id, agent, executor, SEVENTH);
    PermitPasses(env, db, root, FIRST, o.id, agent, SEVENTH);
    UsableReads(env, db, root, o.id, agent);
    OutcomeReads(env, o.id, RowOf(env, PermitRecipe(env, root, agent)).1.actionId, executor);
    OfferMoves(env, PermitMoves(env, root, agent, executor), db, SIXTH, root, o, SEVENTH);
  }

  /** ... and its executor and gate are. */
  lemma CommitMoved(env: Env, root: string, agent: string, executor: string) returns (db: Db)
    requires Cast(env, root, agent, executor)
    ensures Stands(env, CommitMoves(env, root, agent, executor), db, map[1 := Confirmed(OfferedFor(env, root, agent, executor), EIGHTH)], NINTH)
    ensures Permitted(env, db, root, agent, executor) && Sound(env, OfferedFor(env, root, agent, executor), root, executor)
    ensures Usable(env, db, root, FIRST, RowOf(env, PermitRecipe(env, root, agent)).0, agent, SEVENTH)
  {
    hide Stands, Cast, Star, Deployment.ProperSigner, Grounded, RegistryOk, SystemOk, Next, RowOf, MoveTo, LegalMoves, After, PermitMoves,
      Step, Offer, Usable, StringField, OutcomeToSign, Canonical.Text, Honest, Permitted, PermitRecipe, OfferedFor;
    CastNames(env, root, agent, executor);
    db := OfferMoved(env, root, agent, executor);
    var o := OfferedFor(env, root, agent, executor);
    var moves1 := OfferedMoves(env, root, agent, executor);
    PermittedKeys(env, db, root, agent, executor);
    StandsGrounded(env, moves1, db, map[1 := Checked(o)], SEVENTH);
    ClearWorks(env, db, SEVENTH, root, o, EIGHTH);
    StageMoves(env, moves1, db, map[1 := Checked(o)], SEVENTH, 1, Checked(o), EIGHTH, db, Cleared(o, EIGHTH));
    assert map[1 := Checked(o)][1 := Cleared(o, EIGHTH)] == map[1 := Cleared(o, EIGHTH)];
    var moves2 := moves1 + [Look(1, EIGHTH)] + [Advance(1)];
    StandsGrounded(env, moves2, db, map[1 := Cleared(o, EIGHTH)], EIGHTH);
    ConfirmWorks(env, db, EIGHTH, o, EIGHTH, NINTH);
    StageMoves(env, moves2, db, map[1 := Cleared(o, EIGHTH)], EIGHTH, 1, Cleared(o, EIGHTH), NINTH, db, Confirmed(o, EIGHTH));
    assert map[1 := Cleared(o, EIGHTH)][1 := Confirmed(o, EIGHTH)] == map[1 := Confirmed(o, EIGHTH)];
  }

  lemma UsableReads(env: Env, db: Db, root: string, id: string, agent: string)
    requires Usable(env, db, root, FIRST, id, agent, SEVENTH)
    ensures id in db.permits.authorizations && !IsBlank(id) && !IsBlank(Entry(db.permits.authorizations, id).actionId)
    ensures Entry(db.permits.authorizations, id).decision == ALLOWED && Entry(db.permits.authorizations, id).agentId == agent
  {
    hide Grounded, VerifyAuthorization, AuthorizationColumnsOk, IsBlank, BaselineBundle;
  }

  lemma PermittedKeys(env: Env, db: Db, root: string, agent: string, executor: string)
    requires Permitted(env, db, root, agent, executor)
    ensures Star(db.registry, root) && agent in db.registry.agents && executor in db.registry.agents
    ensures Entry(db.registry.agents, executor).tenantId == "*" && Entry(db.registry.agents, executor).metadata == NO_METADATA
    ensures Entry(db.registry.agents, agent).registeredAt < FOURTH && Entry(db.registry.agents, executor).registeredAt < FOURTH
  {
    hide Star, OnePermit, RowOf;
  }

  /** The last write of a commit, with anything revoked in between. */
  lemma CommitWriteMoves(env: Env, moves: seq<Move>, db: Db, processes: map<int, Process>, now: u64, process: int, done: Completion, row: AuthorizationRow)
    requires Stands(env, moves, db, processes, now) && Grounded(db.registry)
    requires process in processes && Entry(processes, process) == Sealed(done)
    requires db.permits.authorizations == map[done.offered.id := row] && row.json == done.offered.json
    requires db.permits.outcomes == map[] && db.permits.outcomeByAction == map[] && db.permits.receipts == {}
    requires StringField(PermitOf(done.offered.json), TENANT_ID) == Some("acme")
    requires Open(db.streams, "acme", 1) && OutcomeOf(env, done).receiptId !in Ids(db.streams, "acme")
    ensures var db' := FinishCommit(env, db, done.offered.id, OutcomeOf(env, done)).db;
      && Stands(env, moves + [Finish(process)], db', processes - {process}, now)
      && db'.registry == db.registry && db'.permits.outcomes == map[done.offered.id := OutcomeOf(env, done)]
      && db'.permits.revoked == db.permits.revoked && db'.permits.authorizations == db.permits.authorizations
    ensures var s := After(env, moves + [Finish(process)]); done.offered.id in s.completions && Entry(s.completions, done.offered.id) == done
  {
    hide LegalMoves, After, Step, Next, Seek, Offer, Grounded, OutcomeOf, FinishRequest, FinishCommit, StringField, Open, Ids;
    CommitWorks(env, db, done.offered.id, OutcomeOf(env, done), 1);
    GoesOn(env, moves, Finish(process));
  }

  // ---- Revoked and consumed ----

  function RacingMoves(env: Env, root: string, agent: string, executor: string): seq<Move> {
    CommitMoves(env, root, agent, executor) + [Look(1, TENTH)] + [Advance(1)] + [RevokeMove(root, agent, ELEVENTH)] + [Finish(1)]
  }

  lemma PermittedRow(env: Env, db: Db, root: string, agent: string, executor: string)
    requires Permitted(env, db, root, agent, executor)
    ensures var (id, row) := RowOf(env, PermitRecipe(env, root, agent));
      && id == OfferedFor(env, root, agent, executor).id && row.json == OfferedFor(env, root, agent, executor).json
      && db.permits.authorizations == map[id := row]
      && db.permits.outcomes == map[] && db.permits.revoked == map[] && db.permits.outcomeByAction == map[] && db.permits.receipts == {}
      && Open(db.streams, "acme", 1) && Ids(db.streams, "acme") == {id}
  {
    hide Star, RowOf, Open, Ids, KnownAs, Outcome, AllowedRecipe;
  }

  lemma PermitRevocable(env: Env, db: Db, root: string, agent: string, executor: string)
    requires Cast(env, root, agent, executor) && Permitted(env, db, root, agent, executor)
    ensures RevocablePermits(db.permits, agent, ELEVENTH) == {OfferedFor(env, root, agent, executor).id}
  {
    hide Star, RowOf, Open, Ids, KnownAs, Cast, Permitted, Configured, DecisionOf, AuthorizationColumnsOk, OfferedFor, AskedOk,
      SignatureValid, Plain, Evaluated, Intent, BaselineBundle;
    CastNames(env, root, agent, executor);
    PermittedRow(env, db, root, agent, executor);
    RecipeAllowed(env, root, agent, FOURTH, FIFTH, SIXTH);
    PermitReads(env, PermitRecipe(env, root, agent));
  }

  /** The agent's key is revoked after a commit has checked its permit and before the commit writes: the
      permit ends up both revoked and consumed. */
  lemma RevokedAndConsumed(env: Env, root: string, agent: string, executor: string)
    requires Cast(env, root, agent, executor)
    requires var r := PermitRecipe(env, root, agent);
      OutcomeOf(env, CompletionFor(env, root, r, executor, EIGHTH, TENTH)).receiptId != RowOf(env, r).0
    ensures var moves := RacingMoves(env, root, agent, executor);
      var id := RowOf(env, PermitRecipe(env, root, agent)).0;
      && LegalMoves(env, moves) && id in Shared(env, moves).permits.revoked && id in Shared(env, moves).permits.outcomes
  {
    hide Stands, Cast, Star, Deployment.ProperSigner, Grounded, RegistryOk, SystemOk, Next, RowOf, MoveTo, LegalMoves, After, CommitMoves,
      Step, Offer, Usable, StringField, OutcomeToSign, Canonical.Text, Honest, Permitted, PermitRecipe, RevocablePermits, Open, Ids,
      OutcomeOf, RetireRow, FinishCommit, Outcome;
    CastNames(env, root, agent, executor);
    var db := CommitMoved(env, root, agent, executor);
    var o := OfferedFor(env, root, agent, executor);
    var moves := CommitMoves(env, root, agent, executor);
    StandsGrounded(env, moves, db, map[1 := Confirmed(o, EIGHTH)], NINTH);
    SealWorks(env, db, o, EIGHTH, TENTH);
    var db1 := Next(env, db, Confirmed(o, EIGHTH), TENTH).0;
    var done := Completion(o, EIGHTH, TENTH);
    StageMoves(env, moves, db, map[1 := Confirmed(o, EIGHTH)], NINTH, 1, Confirmed(o, EIGHTH), TENTH, db1, Sealed(done));
    var processes := map[1 := Confirmed(o, EIGHTH)][1 := Sealed(done)];
    PermittedKeys(env, db, root, agent, executor);
    RevokeMoves(env, moves + [Look(1, TENTH)] + [Advance(1)], db1, processes, TENTH, root, agent, ELEVENTH);
    var db2 := Revoked1(env, db1, root, agent, ELEVENTH);
    var moves2 := moves + [Look(1, TENTH)] + [Advance(1)] + [RevokeMove(root, agent, ELEVENTH)];
    StandsGrounded(env, moves2, db2, processes, ELEVENTH);
    PermittedRow(env, db, root, agent, executor);
    PermitRevocable(env, db, root, agent, executor);
    CommitWriteMoves(env, moves2, db2, processes, ELEVENTH, 1, done, RowOf(env, PermitRecipe(env, root, agent)).1);
    StandsMeans(env, RacingMoves(env, root, agent, executor), FinishCommit(env, db2, o.id, OutcomeOf(env, done)).db, processes - {1}, ELEVENTH);
  }

  // ---- An execution that does not verify ----

  function LateMoves(env: Env, root: string, agent: string, executor: string): seq<Move> {
    CommitMoves(env, root, agent, executor) + [RevokeMove(root, executor, TENTH)] + [Look(1, ELEVENTH)] + [Advance(1)] + [Finish(1)]
  }

  /** There is an execution that does not verify. */
  ghost predicate ExecutionFails(env: Env, db: Db, id: string) {
    && Grounded(db.registry) && id in db.permits.authorizations && id in db.permits.outcomes
    && VerifyExecution(env.crypto, db.registry, Entry(db.permits.authorizations, id).json, Entry(db.permits.outcomes, id).json) != []
  }

  /** The executor's key is revoked after it is checked and before the outcome is dated: the outcome is
      recorded, and does not verify. */
  lemma LateExecution(env: Env, root: string, agent: string, executor: string)
    requires Cast(env, root, agent, executor)
    requires var r := PermitRecipe(env, root, agent);
      OutcomeOf(env, CompletionFor(env, root, r, executor, EIGHTH, ELEVENTH)).receiptId != RowOf(env, r).0
    ensures var moves := LateMoves(env, root, agent, executor);
      var id := RowOf(env, PermitRecipe(env, root, agent)).0;
      LegalMoves(env, moves) && ExecutionFails(env, Shared(env, moves), id)
  {
    hide Stands, Cast, Star, Deployment.ProperSigner, Grounded, RegistryOk, SystemOk, Next, RowOf, MoveTo, LegalMoves, After, CommitMoves,
      Step, Offer, Usable, StringField, OutcomeToSign, Canonical.Text, Honest, Permitted, PermitRecipe, RevocablePermits, Open, Ids,
      OutcomeOf, RetireRow, FinishCommit, Outcome, VerifyExecution, Ended, Changed;
    CastNames(env, root, agent, executor);
    var db := CommitMoved(env, root, agent, executor);
    var o := OfferedFor(env, root, agent, executor);
    var moves := CommitMoves(env, root, agent, executor);
    var held := map[1 := Confirmed(o, EIGHTH)];
    StandsGrounded(env, moves, db, held, NINTH);
    PermittedKeys(env, db, root, agent, executor);
    RevokeMoves(env, moves, db, held, NINTH, root, executor, TENTH);
    var db1 := Revoked1(env, db, root, executor, TENTH);
    var moves1 := moves + [RevokeMove(root, executor, TENTH)];
    StandsGrounded(env, moves1, db1, held, TENTH);
    SealWorks(env, db1, o, EIGHTH, ELEVENTH);
    var db2 := Next(env, db1, Confirmed(o, EIGHTH), ELEVENTH).0;
    var done := Completion(o, EIGHTH, ELEVENTH);
    StageMoves(env, moves1, db1, held, TENTH, 1, Confirmed(o, EIGHTH), ELEVENTH, db2, Sealed(done));
    PermittedRow(env, db, root, agent, executor);
    CommitWriteMoves(env, moves1 + [Look(1, ELEVENTH)] + [Advance(1)], db2, held[1 := Sealed(done)], ELEVENTH, 1, done,
                     RowOf(env, PermitRecipe(env, root, agent)).1);
    var moves3 := LateMoves(env, root, agent, executor);
    var db3 := FinishCommit(env, db2, o.id, OutcomeOf(env, done)).db;
    StandsMeans(env, moves3, db3, held[1 := Sealed(done)] - {1}, ELEVENTH);
    ExecutionsVerifyExactly(env, moves3, o.id);
    StandsGrounded(env, moves3, db3, held[1 := Sealed(done)] - {1}, ELEVENTH);
    RevokedChanged(env, db.registry, db3.registry, root, executor, EIGHTH, TENTH, ELEVENTH);
  }

  // ======== A deployment that meets every assumption: the witness runs exist.

  // ---- Its cryptography ----

  function Repeated(c: char): string {
    seq(DIGEST_LENGTH, i => c)
  }

  /** A digit for each kind of document the deployment publishes. */
  function Digit(value: Value): char {
    match value.GetStr(SCHEMA_VERSION)
    case Some(schema) =>
      if schema == POLICY_BUNDLE_SCHEMA then '1'
      else if schema == AGENT_REGISTRATION_SCHEMA then
        if value.GetStr(AGENT_ID) == Some("A") then '3' else if value.GetStr(AGENT_ID) == Some("E") then '4' else '2'
      else if schema == AUTHORIZATION_RECEIPT_SCHEMA then '5'
      else if schema == EXECUTION_RECEIPT_SCHEMA then '6'
      else '0'
    case None => '0'
  }

  /** A digest that tells those documents apart. */
  function Digest(text: string): string {
    match Parse(text)
    case Some(value) => Repeated(Digit(value))
    case None => Repeated('0')
  }

  function Sample(): Env {
    Env(Crypto(text => Digest(text), key => key in {"G", "A", "E"}, signature => signature == "s", (key, message) => "s", (key, message, signature) => true),
        key => SignerIdentity("local-ed25519://" + key, "1", SIGNATURE_ALGORITHM, key))
  }

  lemma SampleHonest()
    ensures Honest(Sample()) && Configured(Sample(), "G") && Sample().crypto.isPublicKey("A") && Sample().crypto.isPublicKey("E")
  {
    hide Parse;
    var env := Sample();
    forall text: string
      ensures |env.crypto.sha256(text)| == DIGEST_LENGTH && forall i | 0 <= i < DIGEST_LENGTH :: IsHexDigit(env.crypto.sha256(text)[i])
    {
      assert env.crypto.sha256(text) == Digest(text);
    }
    assert !IsWhiteSpace("G"[0]) && !IsWhiteSpace("A"[0]) && !IsWhiteSpace("E"[0]) && !IsWhiteSpace("s"[0]) && !IsWhiteSpace("1"[0]);
    UriNotBlank("G");
    assert Decimal.ParseU64("1") == Some(1);
  }

  // ---- Its digests ----

  /** A document within the parser's limit has the digest of its kind. */
  lemma DigestOf(value: Value)
    requires Depth(value) <= MAX_NESTING
    ensures DigestJson(Sample().crypto, value) == Repeated(Digit(value))
  {
    hide Parse, Canonical.Text, Depth, Digit, Repeated;
    CanonicalTextParses(value);
    assert DigestJson(Sample().crypto, value) == Digest(Canonical.Text(value));
  }

  lemma RepeatedDiffer(c: char, d: char)
    requires c != d
    ensures Repeated(c) != Repeated(d)
  {
    assert Repeated(c)[0] == c && Repeated(d)[0] == d;
  }

  lemma BundleDepth(version: string, tenant: string, constraints: Value, at: u64, signer: SignerIdentity)
    requires Depth(constraints) <= 2
    ensures var body := PolicyStore.BundleToSign(version, tenant, constraints, at, signer);
      Depth(body) <= MAX_NESTING && body.GetStr(SCHEMA_VERSION) == Some(POLICY_BUNDLE_SCHEMA)
  {
    hide Depth, SignerIdentity.ToJson;
    var body := PolicyStore.BundleToSign(version, tenant, constraints, at, signer);
    SignerShallow(signer);
    forall k | k in body.fields ensures Depth(body.fields[k]) <= 2 {
      if Flat(body.fields[k]) { FlatIsFlat(body.fields[k]); }
    }
    ObjectWithin(body, 2);
  }

  lemma BaselineDigit(gate: string, at: u64)
    ensures DigestJson(Sample().crypto, BaselineBody(Sample(), gate, at)) == Repeated('1')
  {
    hide Depth, Repeated, SpecFault, DigestJson, PolicyStore.BundleToSign, PolicyStore.DEFAULT_SPEC, StringField;
    var spec := PolicyStore.DEFAULT_SPEC;
    Deployment.BaselineSpecFine();
    SpecShallow(spec);
    BundleDepth(StringField(spec, POLICY_VERSION).GetOr(""), StringField(spec, TENANT_ID).GetOr(""), spec.Get(CONSTRAINTS).GetOr(Object(map[])), at,
                Sample().signerFor(gate));
    DigestOf(BaselineBody(Sample(), gate, at));
  }

  lemma RegistrationDigit(event: Value, metadata: Value, key: string, digit: char)
    requires Around(event, METADATA) && event.Get(METADATA) == Some(metadata) && Depth(metadata) <= 1
    requires event.GetStr(SCHEMA_VERSION) == Some(AGENT_REGISTRATION_SCHEMA) && event.GetStr(AGENT_ID) == Some(key)
    requires digit == if key == "A" then '3' else if key == "E" then '4' else '2'
    ensures DigestJson(Sample().crypto, event) == Repeated(digit)
  {
    hide Depth, Repeated;
    ObjectWithin(event, SHALLOW);
    DigestOf(event);
    SchemasDiffer();
  }

  lemma MetadataShallow()
    ensures Depth(NO_METADATA) <= 1 && Depth(DELEGATE) <= 1 && Depth(DELEGATE_IN_A) <= 1 && Depth(AGENT_IN_B) <= 1
  {
    hide Depth;
    FlatIsFlat(Bool(true));
    FlatIsFlat(String("a"));
    FlatIsFlat(String("b"));
    ObjectWithin(NO_METADATA, 0);
    ObjectWithin(DELEGATE, 0);
    ObjectWithin(DELEGATE_IN_A, 0);
    ObjectWithin(AGENT_IN_B, 0);
  }

  lemma SchemasDiffer()
    ensures AGENT_REGISTRATION_SCHEMA != POLICY_BUNDLE_SCHEMA && AUTHORIZATION_RECEIPT_SCHEMA != POLICY_BUNDLE_SCHEMA
    ensures EXECUTION_RECEIPT_SCHEMA != POLICY_BUNDLE_SCHEMA && AUTHORIZATION_RECEIPT_SCHEMA != AGENT_REGISTRATION_SCHEMA
    ensures EXECUTION_RECEIPT_SCHEMA != AGENT_REGISTRATION_SCHEMA && EXECUTION_RECEIPT_SCHEMA != AUTHORIZATION_RECEIPT_SCHEMA
  {
    assert POLICY_BUNDLE_SCHEMA[7] == 'p' && EXECUTION_RECEIPT_SCHEMA[7] == 'e';
    assert AGENT_REGISTRATION_SCHEMA[8] == 'g' && AUTHORIZATION_RECEIPT_SCHEMA[8] == 'u';
  }

  lemma RootDigit()
    ensures DigestJson(Sample().crypto, RootEvent(Sample(), "G", FIRST)) == Repeated('2')
  {
    hide Around, Repeated, Depth;
    var signer := Sample().signerFor("G");
    MetadataShallow();
    RegistrationAround("G", "gate", NO_METADATA, true, FIRST, "G", "G", "*", Decimal.ParseU64(signer.keyVersion).GetOr(0), signer.signerUri, signer.algorithm);
    RegistrationDigit(RootEvent(Sample(), "G", FIRST), NO_METADATA, "G", '2');
  }

  lemma KeyDigit(key: string, metadata: Value, at: u64, digit: char)
    requires Depth(metadata) <= 1 && digit == if key == "A" then '3' else if key == "E" then '4' else '2'
    ensures DigestJson(Sample().crypto, KeyEvent("G", key, metadata, at)) == Repeated(digit)
  {
    hide Around, Repeated, Depth;
    RegistrationAround(key, "key", metadata, MayDelegate(metadata), at, "G", key, TenantOf(metadata), 1, "local-ed25519://" + key, SIGNATURE_ALGORITHM);
    RegistrationDigit(KeyEvent("G", key, metadata, at), metadata, key, digit);
  }

  lemma CastPresent()
    ensures Cast(Sample(), "G", "A", "E")
  {
    hide DigestJson, BaselineBody, RootEvent, KeyEvent, Repeated, Configured, NO_METADATA, Depth;
    SampleHonest();
    BaselineDigit("G", FIRST);
    RootDigit();
    MetadataShallow();
    KeyDigit("A", NO_METADATA, SECOND, '3');
    KeyDigit("E", NO_METADATA, THIRD, '4');
    RepeatedDiffer('1', '2');
    RepeatedDiffer('1', '3');
    RepeatedDiffer('1', '4');
    RepeatedDiffer('2', '3');
    RepeatedDiffer('2', '4');
    RepeatedDiffer('3', '4');
  }

  // ---- Permits and receipts ----

  lemma ReceiptDigits(body: Value, body': Value)
    requires body.GetStr(SCHEMA_VERSION) == Some(AUTHORIZATION_RECEIPT_SCHEMA) && Depth(body) < SHALLOW
    requires body'.GetStr(SCHEMA_VERSION) == Some(EXECUTION_RECEIPT_SCHEMA) && Depth(body') < SHALLOW
    ensures DigestJson(Sample().crypto, body) != DigestJson(Sample().crypto, body')
  {
    hide Depth, Repeated, DigestJson;
    SchemasDiffer();
    DigestOf(body);
    DigestOf(body');
    RepeatedDiffer('5', '6');
  }

  lemma BodySchemas(actionId: string, fields: IntentFields, intentHash: string, decision: Permits.Decision, policyVersion: string, policyDigest: string,
                    policy: PolicyDecision, issuedAt: u64, expiresAt: u64, signer: SignerIdentity)
    ensures AuthorizationBody(actionId, fields, intentHash, decision, policyVersion, policyDigest, policy, issuedAt, expiresAt, signer)
      .GetStr(SCHEMA_VERSION) == Some(AUTHORIZATION_RECEIPT_SCHEMA)
  {
    hide SignerIdentity.ToJson, TextArray;
  }

  /** The ids of permits and of receipts are apart. */
  lemma ReceiptApart(r: Recipe, done: Completion)
    requires Depth(r.policy.executorConstraints) <= 2
    ensures OutcomeOf(Sample(), done).receiptId != RowOf(Sample(), r).0
  {
    hide Depth, AuthorizationBody, Receipt, AuthorizationResult, DecisionOf, StringField, ActionIdFor, DigestJson, OutcomeToSign,
      ExecutionResult;
    var env := Sample();
    var (actionId, intentHash) := (ActionIdFor(env.crypto, r.asked.fields), DigestJson(env.crypto, r.asked.intent));
    var (version, digest) := (StringField(r.bundle, POLICY_VERSION).GetOr(""), StringField(r.bundle, POLICY_DIGEST).GetOr(""));
    AuthorizationBodyShallow(actionId, r.asked.fields, intentHash, DecisionOf(env, r), version, digest, r.policy, r.issuedAt, r.expiresAt,
                             env.signerFor(r.asked.gate));
    BodySchemas(actionId, r.asked.fields, intentHash, DecisionOf(env, r), version, digest, r.policy, r.issuedAt, r.expiresAt, env.signerFor(r.asked.gate));
    var o := done.offered;
    var (action', intentHash') := (StringField(PermitOf(o.json), ACTION_ID).GetOr(""), StringField(PermitOf(o.json), INTENT_HASH).GetOr(""));
    var outcomeHash := DigestJson(env.crypto, OutcomeToSign(o.outcome));
    ExecutionBodyShallow(o.id, action', intentHash', outcomeHash, o.executorId, o.status, done.completedAt, o.gate);
    ReceiptDigits(AuthorizationBody(actionId, r.asked.fields, intentHash, DecisionOf(env, r), version, digest, r.policy, r.issuedAt, r.expiresAt,
                                    env.signerFor(r.asked.gate)),
                  ExecutionBody(o.id, action', intentHash', outcomeHash, o.executorId, o.status, done.completedAt, o.gate));
  }

  lemma RecipeShallow(gateAt: u64, issuedAt: u64, agentAt: u64)
    requires issuedAt <= 1_000_000
    ensures Depth(AllowedRecipe(Sample(), "G", "A", gateAt, issuedAt, agentAt).policy.executorConstraints) <= 2
  {
    hide Depth, BaselineBundle, EvaluatePolicy, Intent, Plain, DecisionOf, Configured, SignatureValid;
    SampleHonest();
    var r := AllowedRecipe(Sample(), "G", "A", gateAt, issuedAt, agentAt);
    RecipeAllowed(Sample(), "G", "A", gateAt, issuedAt, agentAt);
    BaselineAllows(Sample(), "G", FIRST, r.asked.intent, TTL);
    EvaluatedShallow(Sample().crypto, BaselineBundle(Sample(), "G", FIRST), r.asked.intent, TTL);
  }

  // ---- Its runs ----

  /** There is an allowed permit, consumed. */
  predicate Done(db: Db, id: string) {
    id in db.permits.authorizations && db.permits.authorizations[id].decision == ALLOWED && id in db.permits.outcomes
  }

  /** Some run has an action allowed, and its outcome recorded. */
  lemma WorkHappens() returns (run: seq<Timed>, id: string)
    ensures Reached(Sample(), run) && Done(State(Sample(), run), id)
  {
    hide Reached, State, WorkRun, Cast, RowOf, OutcomeOf, Depth, CompletionFor, AllowedRecipe;
    CastPresent();
    RecipeShallow(FOURTH, FOURTH, FOURTH);
    var r := AllowedRecipe(Sample(), "G", "A", FOURTH, FOURTH, FOURTH);
    ReceiptApart(r, CompletionFor(Sample(), "G", r, "E", FIFTH, FIFTH));
    ActionCompleted(Sample(), "G", "A", "E");
    run, id := WorkRun(Sample(), "G", "A", "E"), RowOf(Sample(), r).0;
  }

  /** Some run leaves a delegate that may revoke the root that registered it, after which the
      verification of keys does not end. */
  lemma RegistrarRevoked() returns (run: seq<Timed>)
    ensures Reached(Sample(), run) && Grounded(State(Sample(), run).registry)
    ensures var r := RevokeAgent(Sample(), State(Sample(), run).registry, "A", "G", "left", THIRD);
      match r case Ok(after) => !Grounded(after) case Err(_) => false
  {
    hide DigestJson, BaselineBody, RootEvent, KeyEvent, Repeated, Configured, NO_METADATA, DELEGATE, Depth, Reached, State, Grounded,
      RevokeAgent;
    SampleHonest();
    BaselineDigit("G", FIRST);
    RootDigit();
    MetadataShallow();
    KeyDigit("A", DELEGATE, SECOND, '3');
    RepeatedDiffer('1', '2');
    RepeatedDiffer('1', '3');
    RepeatedDiffer('2', '3');
    DelegateRevokesRoot(Sample(), "G", "A");
    run := RootRun("G") + [Timed(RegisterKey("G", "A", DELEGATE), SECOND)];
  }

  /** Some history leaves a permit both revoked and consumed. */
  lemma PermitsRace() returns (moves: seq<Move>, id: string)
    ensures LegalMoves(Sample(), moves) && id in Shared(Sample(), moves).permits.revoked && id in Shared(Sample(), moves).permits.outcomes
  {
    hide Cast, RowOf, OutcomeOf, Depth, CompletionFor, LegalMoves, Shared, RacingMoves;
    CastPresent();
    RecipeShallow(FOURTH, FIFTH, SIXTH);
    var r := PermitRecipe(Sample(), "G", "A");
    ReceiptApart(r, CompletionFor(Sample(), "G", r, "E", EIGHTH, TENTH));
    RevokedAndConsumed(Sample(), "G", "A", "E");
    moves, id := RacingMoves(Sample(), "G", "A", "E"), RowOf(Sample(), r).0;
  }

  /** Some history records an authorization that does not verify. */
  lemma AuthorizationsRace() returns (moves: seq<Move>, id: string)
    ensures LegalMoves(Sample(), moves) && AuthorizationFails(Sample(), Shared(Sample(), moves), id)
  {
    hide Cast, LegalMoves, Shared, StaleMoves, AuthorizationFails;
    CastPresent();
    moves := StaleMoves(Sample(), "G", "A", "E");
    id := StaleAuthorization(Sample(), "G", "A", "E");
  }

  /** Some history records an execution that does not verify. */
  lemma ExecutionsRace() returns (moves: seq<Move>, id: string)
    ensures LegalMoves(Sample(), moves) && ExecutionFails(Sample(), Shared(Sample(), moves), id)
  {
    hide Cast, RowOf, OutcomeOf, Depth, CompletionFor, LegalMoves, Shared, LateMoves, ExecutionFails;
    CastPresent();
    RecipeShallow(FOURTH, FIFTH, SIXTH);
    var r := PermitRecipe(Sample(), "G", "A");
    ReceiptApart(r, CompletionFor(Sample(), "G", r, "E", EIGHTH, ELEVENTH));
    LateExecution(Sample(), "G", "A", "E");
    moves, id := LateMoves(Sample(), "G", "A", "E"), RowOf(Sample(), r).0;
  }
}
