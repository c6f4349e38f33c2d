/** What a revocation misses when other processes are between their stages: exactly the permits that are
    being committed, and the permits that rest on a check of the key dated before it and are still to be written. */
module RevocationRaces {
  import opened Prelude
  import opened Names
  import opened Json
  import opened Crypto
  import opened Identity
  import opened IdentityProofs
  import opened Permits
  import opened PermitProofs
  import opened Gate
  import opened GateInv
  import opened GateRuns
  import opened Stages
  import opened Interleaving
  import EventStream
  import Policy
  import PolicyStore
  import IdentityOps
  // ---- Along a history ----

  /** The `n`-th move. */
  function Nth(moves: seq<Move>, n: int): Move {
    if 0 <= n < |moves| then moves[n] else Crash(0)
  }

  function First(moves: seq<Move>, n: int): seq<Move> {
    if 0 <= n <= |moves| then moves[..n] else moves
  }

  /** The system before the `n`-th move. */
  ghost function At(env: Env, moves: seq<Move>, n: int): System {
    After(env, First(moves, n))
  }

  function Succ(n: int): int {
    n + 1
  }

  /** The system after the `n`-th move. */
  ghost function Past(env: Env, moves: seq<Move>, n: int): System {
    At(env, moves, Succ(n))
  }

  /** The last instant read before the `n`-th move ... */
  function TimeAt(moves: seq<Move>, n: int): u64 {
    Now(First(moves, n))
  }

  /** ... and after it. */
  function TimePast(moves: seq<Move>, n: int): u64 {
    TimeAt(moves, Succ(n))
  }

  /** The agent of a permit. */
  function AgentOf(db: Db, id: string): Option<string> {
    if id in db.permits.authorizations then Some(db.permits.authorizations[id].agentId) else None
  }

  lemma {:induction false} PrefixLegal(env: Env, moves: seq<Move>, n: nat)
    requires LegalMoves(env, moves) && n <= |moves|
    ensures LegalMoves(env, First(moves, n))
    decreases |moves|
  {
    hide MoveLegal, After;
    if n < |moves| {
      assert moves[..|moves| - 1][..n] == moves[..n];
      PrefixLegal(env, moves[..|moves| - 1], n);
    } else {
      assert moves[..n] == moves;
    }
  }

  /** One move of a history. */
  lemma OneMove(env: Env, moves: seq<Move>, n: nat)
    requires Honest(env) && LegalMoves(env, moves) && n < |moves|
    ensures SystemOk(env, At(env, moves, n), TimeAt(moves, n)) && MoveLegal(env, At(env, moves, n), TimeAt(moves, n), Nth(moves, n))
    ensures Past(env, moves, n) == MoveTo(env, At(env, moves, n), Nth(moves, n))
    ensures WrittenKept(At(env, moves, n), Past(env, moves, n))
    ensures TimePast(moves, n) == Nth(moves, n).Instant().GetOr(TimeAt(moves, n))
  {
    hide MoveLegal, MoveTo, Honest, SystemOk, WrittenKept;
    PrefixLegal(env, moves, n);
    PrefixLegal(env, moves, n + 1);
    MovesKeep(env, First(moves, n));
    var before := First(moves, n + 1);
    assert before[..|before| - 1] == First(moves, n) && before[|before| - 1] == Nth(moves, n);
    MoveKeeps(env, At(env, moves, n), TimeAt(moves, n), Nth(moves, n));
  }

  lemma AtEnds(env: Env, moves: seq<Move>)
    ensures At(env, moves, |moves|) == After(env, moves) && At(env, moves, 0) == INITIAL
  {
    hide MoveTo;
    assert moves[..|moves|] == moves;
  }

  /** What is written or revoked stays so, and time does not go back. */
  lemma {:induction false} WrittenBetween(env: Env, moves: seq<Move>, i: nat, j: nat)
    requires Honest(env) && LegalMoves(env, moves) && i <= j <= |moves|
    ensures WrittenKept(At(env, moves, i), At(env, moves, j))
    ensures TimeAt(moves, i) <= TimeAt(moves, j)
    decreases j
  {
    hide MoveTo, Honest, SystemOk, MoveLegal, LegalMoves, At, TimeAt;
    if i < j {
      WrittenBetween(env, moves, i, j - 1);
      OneMove(env, moves, j - 1);
      InstantLater(env, At(env, moves, j - 1), TimeAt(moves, j - 1), Nth(moves, j - 1));
    }
  }

  lemma InstantLater(env: Env, s: System, clock: u64, m: Move)
    requires MoveLegal(env, s, clock, m)
    ensures clock <= m.Instant().GetOr(clock) && m.Instant() != Some(clock)
  {
    hide Grounded, Legal;
  }

  // ---- What single moves do ----

  /** The permit a process is committing an outcome for. */
  function Committing(process: Process): Option<string> {
    match process
    case Checked(o) => Some(o.id)
    case Cleared(o, _) => Some(o.id)
    case Confirmed(o, _) => Some(o.id)
    case Sealed(done) => Some(done.offered.id)
    case Reading(stage, _) => Committing(stage)
    case _ => None
  }

  /** What a process holds. */
  function Held(s: System, process: int): Option<Process> {
    if process in s.processes then Some(s.processes[process]) else None
  }

  predicate Commits(s: System, process: int, id: string) {
    match Held(s, process)
    case Some(held) => Committing(held) == Some(id)
    case None => false
  }

  predicate Holds(s: System, process: int, recipe: Recipe) {
    Held(s, process) == Some(Drafted(recipe))
  }

  /** The process that writes in a move. */
  function Writer(m: Move): Option<int> {
    match m
    case Finish(process) => Some(process)
    case _ => None
  }

  /** A move checks a permit, and begins to commit an outcome for it. */
  ghost predicate Checks(env: Env, s: System, m: Move, process: int, id: string) {
    match m
    case StartCommit(p, gate, i, outcome, at) => p == process && i == id && Offer(env, s.db, gate, id, outcome, at).Some?
    case _ => false
  }

  /** A move revokes a key. */
  predicate RevokesKey(m: Move, key: string) {
    match m
    case Whole(RevokeCall(_, publicKey, _), _) => publicKey == key
    case _ => false
  }

  /** A stage goes on with what the process commits. */
  ghost predicate GoesOn(process: Process, next: Option<Process>) {
    next.Some? ==> Committing(The(next)) == Committing(process)
  }

  lemma NextGoesOn(env: Env, db: Db, process: Process, at: u64)
    ensures GoesOn(process, Next(env, db, process, at).1)
  {
    hide Grounded, GateIdentity, PolicyStore.ActivePolicy, LookupSigns, Policy.EvaluatePolicy, VerifyAgentInner, RowOf, BodyOf,
      IdentityRefusal, OutcomeOf, ExecutionBodyOf, OutcomeToSign, Signature, StringField;
  }

  lemma OnwardGoesOn(env: Env, db: Db, process: Process)
    ensures GoesOn(process, Onward(env, db, process).1) && GoesOn(process, Unfound(env, db, process).1)
    ensures Onward(env, db, process).0.registry == db.registry && Onward(env, db, process).0.permits == db.permits
    ensures Unfound(env, db, process).0.registry == db.registry && Unfound(env, db, process).0.permits == db.permits
  {
    hide Next, RowOf, BodyOf;
    if process.Reading? {
      assert process.stage.Dated? ==> Committing(process.stage).None?;
      NextGoesOn(env, db, process.stage, process.at);
      NextReads(env, db, process.stage, process.at);
    }
  }

  /** A process comes to commit an outcome only by the check of the permit. */
  lemma CommitStarts(env: Env, s: System, m: Move, process: int, id: string)
    requires Commits(MoveTo(env, s, m), process, id) && !Commits(s, process, id)
    ensures Checks(env, s, m, process, id)
  {
    hide Grounded, Step, Seek, Onward, Unfound, FinishRequest, FinishCommit, RowOf, OutcomeOf, PermitRefusal, ExecutorObjection,
      ValidateOutcome, OutcomeToSign, StringField;
    if (m.Advance? || m.Miss?) && m.process in s.processes { OnwardGoesOn(env, s.db, s.processes[m.process]); }
  }

  /** A permit is consumed only by a process that has checked it. */
  lemma ConsumedBy(env: Env, s: System, clock: u64, m: Move, id: string)
    requires MoveLegal(env, s, clock, m)
    requires id in MoveTo(env, s, m).db.permits.outcomes && id !in s.db.permits.outcomes
    ensures exists process: int :: Writer(m) == Some(process) && Commits(s, process, id)
  {
    hide Grounded, Step, Seek, Offer, Onward, Unfound, FinishRequest, FinishCommit, RowOf, OutcomeOf, Legal;
    match m
    case Whole(call, at) => BareStep(env, s.db, call, at);
    case Advance(process) => OnwardGoesOn(env, s.db, s.processes[process]);
    case Miss(process) => OnwardGoesOn(env, s.db, s.processes[process]);
    case Finish(process) =>
      WriteOutcome(env, s, s.(processes := s.processes - {process}), process, id);
      assert Writer(m) == Some(process);
    case _ =>
  }

  lemma WriteOutcome(env: Env, s: System, s1: System, process: int, id: string)
    requires process in s.processes && id !in s.db.permits.outcomes && s1.db == s.db
    ensures id in Write(env, s1, Entry(s.processes, process)).db.permits.outcomes ==> Commits(s, process, id)
  {
    hide FinishRequest, FinishCommit, RowOf, OutcomeOf;
    match s.processes[process]
    case Drafted(recipe) => FinishRequestWrites(env, s.db, RowOf(env, recipe).0, RowOf(env, recipe).1);
    case Sealed(done) => FinishCommitWrites(env, s.db, done.offered.id, OutcomeOf(env, done));
    case _ =>
  }

  /** A process writes a row from the draft it holds. */
  ghost predicate WritesFrom(env: Env, s: System, m: Move, process: int, recipe: Recipe, id: string) {
    && Writer(m) == Some(process) && Holds(s, process, recipe)
    && RowOf(env, recipe).0 == id && id in MoveTo(env, s, m).db.permits.authorizations
    && Entry(MoveTo(env, s, m).db.permits.authorizations, id) == RowOf(env, recipe).1
  }

  /** A permit is written only by a process that holds its draft. */
  lemma WrittenBy(env: Env, s: System, clock: u64, m: Move, id: string) returns (process: int, recipe: Recipe)
    requires MoveLegal(env, s, clock, m)
    requires id in MoveTo(env, s, m).db.permits.authorizations && id !in s.db.permits.authorizations
    ensures WritesFrom(env, s, m, process, recipe, id)
  {
    hide Grounded, Step, Seek, Offer, Onward, Unfound, FinishRequest, FinishCommit, RowOf, OutcomeOf, Legal;
    match m
    case Whole(call, at) => BareStep(env, s.db, call, at);
    case Advance(p) => OnwardGoesOn(env, s.db, s.processes[p]);
    case Miss(p) => OnwardGoesOn(env, s.db, s.processes[p]);
    case Finish(p) =>
      process := p;
      match s.processes[p] {
        case Drafted(r) =>
          FinishRequestWrites(env, s.db, RowOf(env, r).0, RowOf(env, r).1);
          recipe := r;
        case Sealed(done) => FinishCommitWrites(env, s.db, done.offered.id, OutcomeOf(env, done));
        case _ =>
      }
    case _ =>
  }

  /** A permit is revoked only by a revocation of its agent's key, while it has no outcome. */
  lemma RevokedBy(env: Env, s: System, clock: u64, m: Move, id: string)
    requires MoveLegal(env, s, clock, m)
    requires id in MoveTo(env, s, m).db.permits.revoked && id !in s.db.permits.revoked
    ensures exists key: string :: RevokesKey(m, key) && AgentOf(s.db, id) == Some(key)
    ensures id !in s.db.permits.outcomes
  {
    hide Grounded, Step, Seek, Offer, Onward, Unfound, FinishRequest, FinishCommit, RowOf, OutcomeOf, Legal;
    match m
    case Whole(call, at) =>
      CallRevokes(env, s.db, call, at, id);
      assert RevokesKey(m, call.publicKey);
    case Advance(process) => OnwardGoesOn(env, s.db, s.processes[process]);
    case Miss(process) => OnwardGoesOn(env, s.db, s.processes[process]);
    case Finish(process) =>
      match s.processes[process] {
        case Drafted(recipe) => FinishRequestWrites(env, s.db, RowOf(env, recipe).0, RowOf(env, recipe).1);
        case Sealed(done) => FinishCommitWrites(env, s.db, done.offered.id, OutcomeOf(env, done));
        case _ =>
      }
    case _ =>
  }

  lemma CallRevokes(env: Env, db: Db, call: Call, now: u64, id: string)
    requires !call.RequestCall? && !call.CommitCall?
    requires id in Step(env, db, call, now).permits.revoked && id !in db.permits.revoked
    ensures call.RevokeCall? && AgentOf(db, id) == Some(call.publicKey) && id !in db.permits.outcomes
  {
    hide Grounded, PrepareRegistration, RotateAgent, RevokeAgent, PolicyStore.Install, PolicyStore.EnsureDefault, EventStream.RecordEvent,
      LookupSigns, SpecSigns, Request, Commit, RotationOf, RotatedRegistration, RevocationOf, DigestJson;
  }

  // ---- Back to the check, and to the reading ----

  ghost predicate CommitsThroughout(env: Env, moves: seq<Move>, process: int, id: string, i: nat, j: nat) {
    forall x {:trigger At(env, moves, x)} | i <= x <= j :: Commits(At(env, moves, x), process, id)
  }

  /** The `k`-th move checks a permit and begins to commit an outcome for it. */
  ghost predicate ChecksAt(env: Env, moves: seq<Move>, k: nat, process: int, id: string) {
    k < |moves| && Checks(env, At(env, moves, k), Nth(moves, k), process, id)
  }

  /** A process that commits an outcome has held on to it since it checked the permit. */
  lemma {:induction false} SinceTheCheck(env: Env, moves: seq<Move>, process: int, id: string, j: nat) returns (k: nat)
    requires Honest(env) && LegalMoves(env, moves) && j <= |moves| && Commits(At(env, moves, j), process, id)
    ensures k < j && ChecksAt(env, moves, k, process, id)
    ensures forall i | k < i :: CommitsThroughout(env, moves, process, id, i, j)
    decreases j
  {
    hide MoveTo, Honest, SystemOk, MoveLegal, LegalMoves, At, Commits, Checks;
    NothingHeld(env, moves, process, id);
    OneMove(env, moves, j - 1);
    if Commits(At(env, moves, j - 1), process, id) {
      k := SinceTheCheck(env, moves, process, id, j - 1);
      assert CommitsThroughout(env, moves, process, id, k + 1, j - 1);
    } else {
      k := j - 1;
      CommitStarts(env, At(env, moves, j - 1), Nth(moves, j - 1), process, id);
    }
  }

  lemma NothingHeld(env: Env, moves: seq<Move>, process: int, id: string)
    ensures !Commits(At(env, moves, 0), process, id)
  {
    hide MoveTo;
    AtEnds(env, moves);
  }

  // ---- Revoked and consumed ----

  /** The `i`-th move revokes the key of a permit's agent, and with it the permit. */
  ghost predicate RevokesAt(env: Env, moves: seq<Move>, i: nat, id: string) {
    && i < |moves|
    && (exists key: string :: RevokesKey(Nth(moves, i), key) && AgentOf(At(env, moves, i).db, id) == Some(key))
    && id !in At(env, moves, i).db.permits.revoked && id in Past(env, moves, i).db.permits.revoked
  }

  /** The `j`-th move is a process's write of an outcome for a permit. */
  ghost predicate ConsumesAt(env: Env, moves: seq<Move>, process: int, j: nat, id: string) {
    && j < |moves| && Writer(Nth(moves, j)) == Some(process)
    && id !in At(env, moves, j).db.permits.outcomes && id in Past(env, moves, j).db.permits.outcomes
  }

  lemma {:induction false} WhenRevoked(env: Env, moves: seq<Move>, id: string, n: nat) returns (i: nat)
    requires Honest(env) && LegalMoves(env, moves) && n <= |moves| && id in At(env, moves, n).db.permits.revoked
    ensures i < n && RevokesAt(env, moves, i, id) && id !in At(env, moves, i).db.permits.outcomes
    decreases n
  {
    hide MoveTo, Honest, SystemOk, MoveLegal, LegalMoves, At;
    AtEnds(env, moves);
    OneMove(env, moves, n - 1);
    if id in At(env, moves, n - 1).db.permits.revoked {
      i := WhenRevoked(env, moves, id, n - 1);
    } else {
      i := n - 1;
      RevokedBy(env, At(env, moves, n - 1), TimeAt(moves, n - 1), Nth(moves, n - 1), id);
    }
  }

  lemma {:induction false} WhenConsumed(env: Env, moves: seq<Move>, id: string, n: nat) returns (process: int, j: nat)
    requires Honest(env) && LegalMoves(env, moves) && n <= |moves| && id in At(env, moves, n).db.permits.outcomes
    ensures j < n && ConsumesAt(env, moves, process, j, id) && Commits(At(env, moves, j), process, id)
    decreases n
  {
    hide MoveTo, Honest, SystemOk, MoveLegal, LegalMoves, At, Commits;
    AtEnds(env, moves);
    OneMove(env, moves, n - 1);
    if id in At(env, moves, n - 1).db.permits.outcomes {
      process, j := WhenConsumed(env, moves, id, n - 1);
    } else {
      j := n - 1;
      ConsumedBy(env, At(env, moves, n - 1), TimeAt(moves, n - 1), Nth(moves, n - 1), id);
      process :| Writer(Nth(moves, j)) == Some(process) && Commits(At(env, moves, j), process, id);
    }
  }

  /** A permit that may be consumed at an instant: allowed, neither revoked nor consumed, not expired. */
  predicate MayConsume(db: Db, id: string, at: u64) {
    && id in db.permits.authorizations && id !in db.permits.revoked && id !in db.permits.outcomes
    && db.permits.authorizations[id].decision == ALLOWED && at <= db.permits.authorizations[id].expiresAt
  }

  /** What the check of a permit finds. */
  lemma CheckFinds(env: Env, moves: seq<Move>, k: nat, process: int, id: string)
    requires Honest(env) && LegalMoves(env, moves) && ChecksAt(env, moves, k, process, id)
    ensures MayConsume(At(env, moves, k).db, id, TimePast(moves, k)) && TimeAt(moves, k) < TimePast(moves, k)
  {
    hide MoveTo, Honest, SystemOk, LegalMoves, At, Offer, OfferedOk, AuthorizationColumnsOk, VerifyAuthorization, Grounded, TimeAt;
    OneMove(env, moves, k);
    InstantLater(env, At(env, moves, k), TimeAt(moves, k), Nth(moves, k));
    if id in At(env, moves, k).db.permits.authorizations { StoredColumnsOk(env, At(env, moves, k), TimeAt(moves, k), id); }
    var StartCommit(_, gate, _, outcome, at) := Nth(moves, k);
    OfferFinds(env, At(env, moves, k).db, gate, id, outcome, at);
  }

  /** A commit that has checked its permit is in progress when the permit is revoked, and is finished. */
  ghost predicate CommitRacesRevocation(env: Env, moves: seq<Move>, id: string, process: int, i: nat, j: nat) {
    i < j && RevokesAt(env, moves, i, id) && CommitsThroughout(env, moves, process, id, i, j) && ConsumesAt(env, moves, process, j, id)
  }

  lemma StillRevoked(env: Env, moves: seq<Move>, id: string, i: nat, n: nat)
    requires Honest(env) && LegalMoves(env, moves) && RevokesAt(env, moves, i, id) && i < n <= |moves|
    ensures id in At(env, moves, n).db.permits.revoked
  {
    hide MoveTo, Honest, SystemOk, MoveLegal, LegalMoves, At;
    WrittenBetween(env, moves, i + 1, n);
  }

  lemma StillConsumed(env: Env, moves: seq<Move>, id: string, process: int, j: nat, n: nat)
    requires Honest(env) && LegalMoves(env, moves) && ConsumesAt(env, moves, process, j, id) && j < n <= |moves|
    ensures id in At(env, moves, n).db.permits.outcomes
  {
    hide MoveTo, Honest, SystemOk, MoveLegal, LegalMoves, At;
    WrittenBetween(env, moves, j + 1, n);
  }

  lemma RaceFound(env: Env, moves: seq<Move>, id: string) returns (process: int, i: nat, j: nat)
    requires Honest(env) && LegalMoves(env, moves)
    requires id in Shared(env, moves).permits.revoked && id in Shared(env, moves).permits.outcomes
    ensures CommitRacesRevocation(env, moves, id, process, i, j)
  {
    hide MoveTo, Honest, LegalMoves, At, Commits, CommitsThroughout, RevokesAt, ConsumesAt, ChecksAt;
    AtEnds(env, moves);
    i := WhenRevoked(env, moves, id, |moves|);
    process, j := WhenConsumed(env, moves, id, |moves|);
    var k := SinceTheCheck(env, moves, process, id, j);
    CheckFinds(env, moves, k, process, id);
    if j < i { StillConsumed(env, moves, id, process, j, i); }
    if i < k { StillRevoked(env, moves, id, i, k); }
    Distinct(env, moves, id, process, i, j, k);
  }

  lemma Distinct(env: Env, moves: seq<Move>, id: string, process: int, i: nat, j: nat, k: nat)
    requires RevokesAt(env, moves, i, id) && ConsumesAt(env, moves, process, j, id) && ChecksAt(env, moves, k, process, id)
    ensures i != j && i != k && i < |moves| && j < |moves| && k < |moves|
  {
    hide At, Offer;
  }

  /** A permit ends up both revoked and consumed exactly when some process has checked it for a commit
      before the key of its agent is revoked, and finishes the commit after it. */
  lemma RevokedAndConsumedExactly(env: Env, moves: seq<Move>, id: string)
    requires Honest(env) && LegalMoves(env, moves)
    ensures id in Shared(env, moves).permits.revoked && id in Shared(env, moves).permits.outcomes
      <==> exists process: int, i: nat, j: nat :: CommitRacesRevocation(env, moves, id, process, i, j)
  {
    hide MoveTo, Honest, LegalMoves, After, Commits, CommitsThroughout, RevokesAt, ConsumesAt, At;
    AtEnds(env, moves);
    if id in Shared(env, moves).permits.revoked && id in Shared(env, moves).permits.outcomes {
      var process, i, j := RaceFound(env, moves, id);
    }
    if exists process: int, i: nat, j: nat :: CommitRacesRevocation(env, moves, id, process, i, j) {
      var process: int, i: nat, j: nat :| CommitRacesRevocation(env, moves, id, process, i, j);
      WithinHistory(env, moves, id, process, i, j);
      StillRevoked(env, moves, id, i, |moves|);
      StillConsumed(env, moves, id, process, j, |moves|);
    }
  }

  lemma WithinHistory(env: Env, moves: seq<Move>, id: string, process: int, i: nat, j: nat)
    requires RevokesAt(env, moves, i, id) && ConsumesAt(env, moves, process, j, id)
    ensures i < |moves| && j < |moves|
  {
    hide At;
  }

  // ---- Consumed after all ----

  /** A move revokes a key, and is answered. */
  ghost predicate RevocationSucceeds(env: Env, s: System, m: Move, key: string) {
    match m
    case Whole(RevokeCall(gate, publicKey, reason), at) =>
      publicKey == key && Grounded(s.db.registry) && Gate.Revoke(env, s.db, gate, key, reason, at).answer.Ok?
    case _ => false
  }

  /** The `i`-th move revokes a key. */
  ghost predicate RevokesKeyAt(env: Env, moves: seq<Move>, i: nat, key: string) {
    i < |moves| && RevocationSucceeds(env, At(env, moves, i), Nth(moves, i), key)
  }

  /** The `w`-th move is a process's write of an authorization. */
  ghost predicate WritesAt(env: Env, moves: seq<Move>, process: int, w: nat, id: string) {
    && w < |moves| && Writer(Nth(moves, w)) == Some(process)
    && id !in At(env, moves, w).db.permits.authorizations && id in Past(env, moves, w).db.permits.authorizations
  }

  /** The permit of an agent rests on a check of the agent's key dated before the key is revoked, and is
      written afterwards. */
  ghost predicate DraftRacesRevocation(env: Env, moves: seq<Move>, id: string, process: int, recipe: Recipe, i: nat, w: nat) {
    && i < w && Holds(At(env, moves, w), process, recipe) && recipe.agentAt < TimePast(moves, i)
    && RowOf(env, recipe).0 == id && DecisionOf(env, recipe).decision == ALLOWED
    && WritesAt(env, moves, process, w, id)
  }

  lemma MoveEvolves(env: Env, s: System, clock: u64, m: Move)
    requires Honest(env) && SystemOk(env, s, clock) && MoveLegal(env, s, clock, m)
    ensures Evolves(s.db.registry, MoveTo(env, s, m).db.registry, clock)
  {
    hide Honest, Inv, RecordsOk, ProcessesOk, Grounded, Step, Seek, Offer, Onward, Unfound, FinishRequest, FinishCommit, RowOf, OutcomeOf,
      Legal, Evolves, RevocationOk, RecordsKept, NoneConsumed;
    SameRegistryEvolves(s.db.registry, clock);
    match m
    case Whole(call, at) =>
      BareStep(env, s.db, call, at);
      BareLegal(env, s.db, call);
      StepKeeps(env, Bare(s.db), clock, call, at);
    case Advance(process) => OnwardGoesOn(env, s.db, s.processes[process]);
    case Miss(process) => OnwardGoesOn(env, s.db, s.processes[process]);
    case Finish(process) =>
      match s.processes[process] {
        case Drafted(recipe) => FinishRequestWrites(env, s.db, RowOf(env, recipe).0, RowOf(env, recipe).1);
        case Sealed(done) => FinishCommitWrites(env, s.db, done.offered.id, OutcomeOf(env, done));
        case _ =>
      }
    case _ =>
  }

  /** A key was revoked at an instant. */
  predicate RevokedSince(reg: Registry, key: string, at: u64) {
    key in reg.agents && reg.agents[key].status == Revoked && reg.agents[key].validUntil == Some(at)
  }

  /** What a revocation does. */
  lemma RevocationTakesEffect(env: Env, s: System, clock: u64, m: Move, key: string)
    requires Honest(env) && SystemOk(env, s, clock) && MoveLegal(env, s, clock, m) && RevocationSucceeds(env, s, m, key)
    ensures RevokedSince(MoveTo(env, s, m).db.registry, key, m.Instant().GetOr(clock))
    ensures RevocablePermits(s.db.permits, key, m.Instant().GetOr(clock)) <= MoveTo(env, s, m).db.permits.revoked.Keys
  {
    hide Honest, Inv, RecordsOk, ProcessesOk, Grounded, RevokeAgent, RevocationOf, RegistryOk, IdentityOps.SuccessionsOk, DigestJson,
      PolicyStore.StoreOk, EventStream.StreamsOk, RevocablePermits, DependsOn, Register, Gate.Rotate, InstallPolicy, Request, Commit, Next,
      Seek, Offer, Write, Evolves;
    BareParts(env, s.db, clock);
    var Whole(RevokeCall(gate, _, reason), at) := m;
    RevocationSteps(env, s.db.registry, clock, gate, key, reason, at);
  }

  lemma RevocationPast(env: Env, moves: seq<Move>, i: nat, key: string)
    requires Honest(env) && LegalMoves(env, moves) && RevokesKeyAt(env, moves, i, key)
    ensures RevokedSince(Past(env, moves, i).db.registry, key, TimePast(moves, i))
    ensures RevocablePermits(At(env, moves, i).db.permits, key, TimePast(moves, i)) <= Past(env, moves, i).db.permits.revoked.Keys
  {
    hide LegalMoves, At, Honest, SystemOk, MoveTo, MoveLegal, RevocationSucceeds, WrittenKept, RevocablePermits, TimeAt, RevokedSince;
    OneMove(env, moves, i);
    RevocationTakesEffect(env, At(env, moves, i), TimeAt(moves, i), Nth(moves, i), key);
  }

  lemma {:induction false} StaysEnded(env: Env, moves: seq<Move>, i: nat, key: string, n: nat)
    requires Honest(env) && LegalMoves(env, moves) && RevokesKeyAt(env, moves, i, key) && i < n <= |moves|
    ensures RevokedSince(At(env, moves, n).db.registry, key, TimePast(moves, i))
    decreases n
  {
    hide LegalMoves, At, Honest, SystemOk, MoveTo, MoveLegal, RevocationSucceeds, WrittenKept, TimeAt;
    if n == i + 1 {
      RevocationPast(env, moves, i, key);
    } else {
      StaysEnded(env, moves, i, key, n - 1);
      OneMove(env, moves, n - 1);
      MoveEvolves(env, At(env, moves, n - 1), TimeAt(moves, n - 1), Nth(moves, n - 1));
      GateRuns.RevokedForever(At(env, moves, n - 1).db.registry, At(env, moves, n).db.registry, TimeAt(moves, n - 1), key);
    }
  }

  /** A permit's row is the one a recipe makes. */
  ghost predicate RowIs(env: Env, db: Db, id: string, recipe: Recipe) {
    id in db.permits.authorizations && RowOf(env, recipe) == (id, Entry(db.permits.authorizations, id))
  }

  lemma {:induction false} WhenWritten(env: Env, moves: seq<Move>, id: string, i: nat, n: nat) returns (process: int, recipe: Recipe, w: nat)
    requires Honest(env) && LegalMoves(env, moves) && i <= n <= |moves|
    requires id in At(env, moves, n).db.permits.authorizations && id !in At(env, moves, i).db.permits.authorizations
    ensures i <= w < n && WritesAt(env, moves, process, w, id) && Holds(At(env, moves, w), process, recipe)
    ensures RowIs(env, At(env, moves, n).db, id, recipe)
    decreases n
  {
    hide LegalMoves, At, Honest, SystemOk, MoveTo, MoveLegal, RowOf, Holds;
    OneMove(env, moves, n - 1);
    if id in At(env, moves, n - 1).db.permits.authorizations {
      process, recipe, w := WhenWritten(env, moves, id, i, n - 1);
    } else {
      process, recipe := WrittenBy(env, At(env, moves, n - 1), TimeAt(moves, n - 1), Nth(moves, n - 1), id);
      w := n - 1;
    }
  }

  /** A key was in its window. */
  predicate WasActive(reg: Registry, key: string, at: u64) {
    key in reg.agents && InWindow(reg.agents[key], at)
  }

  /** An allowed draft was made while its agent's key was active. */
  lemma AllowedWhileActive(env: Env, s: System, clock: u64, process: int, recipe: Recipe)
    requires SystemOk(env, s, clock) && Holds(s, process, recipe) && RowOf(env, recipe).1.decision == ALLOWED
    ensures DecisionOf(env, recipe).decision == ALLOWED
    ensures WasActive(s.db.registry, RowOf(env, recipe).1.agentId, recipe.agentAt)
  {
    hide Inv, RecordsOk, RegistryOk, Grounded, AskedOk, GovernedBy, Delegates, ChainLength, VerifyAgentInner, SignatureValid,
      IdentityOps.SuccessionsOk, PolicyStore.StoreOk, EventStream.StreamsOk, RowOf, AuthorizationColumnsOk;
    BareParts(env, s.db, clock);
    assert ProcessOk(env, s.db.registry, s.db.permits, clock, s.processes[process]);
    RecipeColumns(env, recipe);
    AllowedNeedsActive(SignatureValid(env, recipe.asked), recipe.agent, recipe.asked.fields, recipe.issuedAt, recipe.policy);
    ViewMeans(env, s.db.registry, clock, recipe.asked.fields.agentId, recipe.agentAt);
  }

  /** A permit of a key, checked after the key was revoked, was not there when it was. */
  lemma NotThereYet(env: Env, moves: seq<Move>, i: nat, key: string, id: string, k: nat, checker: int)
    requires Honest(env) && LegalMoves(env, moves) && RevokesKeyAt(env, moves, i, key) && i < k && ChecksAt(env, moves, k, checker, id)
    requires AgentOf(At(env, moves, k).db, id) == Some(key)
    ensures id !in At(env, moves, i).db.permits.authorizations
  {
    hide LegalMoves, At, Honest, RevocationSucceeds, Checks, TimeAt, RevokedSince;
    CheckFinds(env, moves, k, checker, id);
    WrittenBetween(env, moves, i, k);
    WrittenBetween(env, moves, i + 1, k);
    RevocationPast(env, moves, i, key);
  }

  /** A permit checked after its agent's key was revoked rests on a check of the key dated before. */
  lemma DraftedBefore(env: Env, moves: seq<Move>, i: nat, key: string, id: string, k: nat, checker: int) returns (process: int, recipe: Recipe, w: nat)
    requires Honest(env) && LegalMoves(env, moves) && RevokesKeyAt(env, moves, i, key) && i < k && ChecksAt(env, moves, k, checker, id)
    requires AgentOf(At(env, moves, k).db, id) == Some(key)
    ensures w < k && DraftRacesRevocation(env, moves, id, process, recipe, i, w)
  {
    hide LegalMoves, At, Honest, SystemOk, MoveTo, MoveLegal, RowOf, Holds, RevocationSucceeds, DecisionOf, Checks, TimeAt, WrittenKept,
      WritesAt;
    CheckFinds(env, moves, k, checker, id);
    NotThereYet(env, moves, i, key, id, k, checker);
    process, recipe, w := WhenWritten(env, moves, id, i, k);
    NotAtTheRevocation(env, moves, i, key, process, w, id);
    OneMove(env, moves, w);
    AllowedWhileActive(env, At(env, moves, w), TimeAt(moves, w), process, recipe);
    StaysEnded(env, moves, i, key, w);
  }

  lemma NotAtTheRevocation(env: Env, moves: seq<Move>, i: nat, key: string, process: int, w: nat, id: string)
    requires RevokesKeyAt(env, moves, i, key) && WritesAt(env, moves, process, w, id)
    ensures i != w
  {
    hide At, Grounded, RevokeAgent;
  }

  /** A permit is consumed at a move after a revocation of its agent's key, by a commit in progress at
      the revocation, or because the permit itself rests on an earlier check of the key and is written after it. */
  ghost predicate EscapesAt(env: Env, moves: seq<Move>, id: string, process: int, i: nat, j: nat) {
    && i < j && ConsumesAt(env, moves, process, j, id)
    && (|| CommitsThroughout(env, moves, process, id, i, j)
        || exists q: int, recipe: Recipe, w: nat :: w < j && DraftRacesRevocation(env, moves, id, q, recipe, i, w))
  }

  lemma EscapeFound(env: Env, moves: seq<Move>, i: nat, key: string, id: string) returns (process: int, j: nat)
    requires Honest(env) && LegalMoves(env, moves) && RevokesKeyAt(env, moves, i, key)
    requires AgentOf(Shared(env, moves), id) == Some(key)
    requires id in Shared(env, moves).permits.outcomes && id !in At(env, moves, i).db.permits.outcomes
    ensures EscapesAt(env, moves, id, process, i, j)
  {
    hide LegalMoves, After, At, Honest, MoveTo, Commits, CommitsThroughout, ConsumesAt, Checks, RevokesKeyAt, DraftRacesRevocation, TimeAt;
    AtEnds(env, moves);
    process, j := WhenConsumed(env, moves, id, |moves|);
    var k := SinceTheCheck(env, moves, process, id, j);
    NotTheRevocation(env, moves, i, key, id, process, j, k);
    if j < i { StillConsumed(env, moves, id, process, j, i); }
    if i < k {
      WrittenBetween(env, moves, k, |moves|);
      CheckFinds(env, moves, k, process, id);
      var q, recipe, w := DraftedBefore(env, moves, i, key, id, k, process);
      assert w < j && DraftRacesRevocation(env, moves, id, q, recipe, i, w);
    }
  }

  lemma NotTheRevocation(env: Env, moves: seq<Move>, i: nat, key: string, id: string, process: int, j: nat, k: nat)
    requires RevokesKeyAt(env, moves, i, key) && ConsumesAt(env, moves, process, j, id) && ChecksAt(env, moves, k, process, id)
    ensures i != j && i != k && i < |moves| && j < |moves| && k < |moves|
  {
    hide At, Offer, Grounded, RevokeAgent;
  }

  /** A permit of a key is consumed after the key has been revoked exactly when a commit that has
      checked it is in progress at the revocation, or the permit rests on a check of the key dated before the
      revocation and is written after it. */
  lemma ConsumedAfterRevocationExactly(env: Env, moves: seq<Move>, i: nat, key: string, id: string)
    requires Honest(env) && LegalMoves(env, moves) && RevokesKeyAt(env, moves, i, key)
    requires AgentOf(Shared(env, moves), id) == Some(key)
    ensures id in Shared(env, moves).permits.outcomes && id !in At(env, moves, i).db.permits.outcomes
      <==> exists process: int, j: nat :: EscapesAt(env, moves, id, process, i, j)
  {
    hide LegalMoves, After, At, Honest, MoveTo, CommitsThroughout, ConsumesAt, RevokesKeyAt, DraftRacesRevocation;
    AtEnds(env, moves);
    if id in Shared(env, moves).permits.outcomes && id !in At(env, moves, i).db.permits.outcomes {
      var process, j := EscapeFound(env, moves, i, key, id);
    }
    if exists process: int, j: nat :: EscapesAt(env, moves, id, process, i, j) {
      var process: int, j: nat :| EscapesAt(env, moves, id, process, i, j);
      ConsumedLater(env, moves, id, process, i, j);
      StillConsumed(env, moves, id, process, j, |moves|);
    }
  }

  lemma ConsumedLater(env: Env, moves: seq<Move>, id: string, process: int, i: nat, j: nat)
    requires Honest(env) && LegalMoves(env, moves) && i < j && ConsumesAt(env, moves, process, j, id)
    ensures j < |moves| && id !in At(env, moves, i).db.permits.outcomes
  {
    hide LegalMoves, At, Honest, MoveTo;
    WrittenBetween(env, moves, i, j);
  }
}
