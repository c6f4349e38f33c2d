/** The decision ledger: its rows, its insertions, its validation, and what an accepted ledger is. */
module Ledger {
  import opened Prelude
  import opened Json
  import opened Crypto
  import Canonical
  import Decimal
  import Parser

  /** What an integer column holds of an unsigned number. */
  const DEPTH_MAX := 0x7FFF_FFFF_FFFF_FFFF
  type Depth = n: int | 0 <= n <= DEPTH_MAX

  /** A row of the table `decisions`, whose primary key is the id. */
  datatype Decision = Decision(id: string, parentId: string, causalDepth: Depth, actorId: string, timestamp: u64,
                               payload: string, rules: string, signature: string)

  const GENESIS := "genesis"

  datatype LedgerError =
    | InvalidJson
    | LedgerEmpty
    | GenesisExists
    | UniqueViolation
    | OutOfRange
    | NoGenesis
    | ManyGenesis(count: nat)
    | HashError(id: string)
    | InvalidHash(id: string)
    | InvalidActor
    | InvalidSignature
    | SignatureFailed(id: string)
    | DepthMismatch(id: string)
    | TemporalAnomaly(id: string)
    | OrphanNode(id: string)
    | GenesisDepth(id: string)

  /** The text `calculate_canonical_hash` hashes: the members in this order, the documents canonical. */
  function HashText(parentId: string, actorId: string, timestamp: u64, payload: Value, rules: Value): string {
    "{\"parent_id\":" + Canonical.Quote(parentId) + ",\"actor_id\":" + Canonical.Quote(actorId)
    + ",\"timestamp\":" + Decimal.Numeral(timestamp) + ",\"payload\":" + Canonical.Text(payload)
    + ",\"rules_evaluated\":" + Canonical.Text(rules) + "}"
  }

  function CanonicalHash(c: Crypto, parentId: string, actorId: string, timestamp: u64, payload: string, rules: string): Option<string> {
    match (Parser.Parse(payload), Parser.Parse(rules))
    case (Some(p), Some(r)) => Some(c.sha256(HashText(parentId, actorId, timestamp, p, r)))
    case _ => None
  }

  // ---- Inserting ----

  /** The order of `ORDER BY causal_depth DESC, timestamp DESC`; of equals, the one inserted last. */
  predicate Beats(a: Decision, b: Decision) {
    a.causalDepth > b.causalDepth || (a.causalDepth == b.causalDepth && a.timestamp >= b.timestamp)
  }

  /** `get_last_decision`. */
  function LastDecision(rows: seq<Decision>): Option<Decision> {
    if rows == [] then None
    else
      var rest := LastDecision(rows[..|rows| - 1]);
      var last := rows[|rows| - 1];
      if rest.None? || Beats(last, rest.value) then Some(last) else rest
  }

  predicate HasGenesis(rows: seq<Decision>) {
    exists d <- rows :: d.parentId == GENESIS
  }

  predicate HasId(rows: seq<Decision>, id: string) {
    exists d <- rows :: d.id == id
  }

  /** The parent and depth of the next decision. */
  function NextPlace(rows: seq<Decision>, genesis: bool): Result<(string, int), LedgerError> {
    match LastDecision(rows)
    case Some(last) => Ok(if genesis then (GENESIS, 0) else (last.id, last.causalDepth + 1))
    case None => if genesis then Ok((GENESIS, 0)) else Err(LedgerEmpty)
  }

  /** The row with a decision at a place, signed. */
  function Place(c: Crypto, rows: seq<Decision>, actor: string, parentId: string, depth: int, payload: string, rules: string, now: u64)
    : Result<Decision, LedgerError>
  {
    match CanonicalHash(c, parentId, actor, now, payload, rules)
    case None => Err(InvalidJson)
    case Some(id) =>
      if !(0 <= depth <= DEPTH_MAX) then Err(OutOfRange)
      else if HasId(rows, id) then Err(UniqueViolation)
      else Ok(Decision(id, parentId, depth, actor, now, payload, rules, c.sign(actor, DigestBytes(id))))
  }

  predicate BothParse(payload: string, rules: string) {
    Parser.Parse(payload).Some? && Parser.Parse(rules).Some?
  }

  function Appended(rows: seq<Decision>, placed: Result<Decision, LedgerError>): Result<seq<Decision>, LedgerError> {
    match placed
    case Err(e) => Err(e)
    case Ok(d) => Ok(rows + [d])
  }

  /** `insert_decision`: the ledger with one more decision. */
  function Insert(c: Crypto, rows: seq<Decision>, actor: string, genesis: bool, payload: string, rules: string, now: u64)
    : Result<seq<Decision>, LedgerError>
  {
    if !BothParse(payload, rules) then Err(InvalidJson)
    else match NextPlace(rows, genesis)
      case Err(e) => Err(e)
      case Ok((parentId, depth)) =>
        if parentId == GENESIS && HasGenesis(rows) then Err(GenesisExists)
        else Appended(rows, Place(c, rows, actor, parentId, depth, payload, rules, now))
  }

  /** A decision of a batch, with the instant at which it is written. */
  datatype Item = Item(payload: string, rules: string, at: u64)

  /** Inserting decisions one after another; only the first may be the genesis. */
  function InsertAll(c: Crypto, rows: seq<Decision>, actor: string, genesis: bool, items: seq<Item>): Result<seq<Decision>, LedgerError> {
    if items == [] then Ok(rows)
    else
      var n := |items| - 1;
      match InsertAll(c, rows, actor, genesis, items[..n])
      case Err(e) => Err(e)
      case Ok(rows') => Insert(c, rows', actor, genesis && n == 0, items[n].payload, items[n].rules, items[n].at)
  }

  /** The rest of a batch, from a parent and depth on. */
  function BatchFrom(c: Crypto, rows: seq<Decision>, actor: string, parentId: string, depth: int, items: seq<Item>): Result<seq<Decision>, LedgerError>
    decreases |items|
  {
    if items == [] then Ok(rows)
    else if !BothParse(items[0].payload, items[0].rules) then Err(InvalidJson)
    else match Place(c, rows, actor, parentId, depth, items[0].payload, items[0].rules, items[0].at)
      case Err(e) => Err(e)
      case Ok(d) => BatchFrom(c, rows + [d], actor, d.id, depth + 1, items[1..])
  }

  /** `insert_decision_batch`: the ledger with all the decisions. */
  function InsertBatch(c: Crypto, rows: seq<Decision>, actor: string, genesis: bool, items: seq<Item>): Result<seq<Decision>, LedgerError> {
    if items == [] then Ok(rows)
    else match NextPlace(rows, genesis)
      case Err(e) => Err(e)
      case Ok((parentId, depth)) =>
        if parentId == GENESIS && HasGenesis(rows) then Err(GenesisExists) else BatchFrom(c, rows, actor, parentId, depth, items)
  }

  // ---- Validating ----

  /** The order of `ORDER BY causal_depth ASC, timestamp ASC`. */
  predicate NotAfter(a: Decision, b: Decision) {
    a.causalDepth < b.causalDepth || (a.causalDepth == b.causalDepth && a.timestamp <= b.timestamp)
  }

  /** A decision put in its place, after those of its depth and time. */
  function Sorted(rows: seq<Decision>, d: Decision): seq<Decision> {
    if rows == [] || NotAfter(rows[|rows| - 1], d) then rows + [d]
    else Sorted(rows[..|rows| - 1], d) + [rows[|rows| - 1]]
  }

  /** The rows as they are read; of equals, the one inserted first. */
  function InOrder(rows: seq<Decision>): seq<Decision> {
    if rows == [] then [] else Sorted(InOrder(rows[..|rows| - 1]), rows[|rows| - 1])
  }

  function ById(rows: seq<Decision>): map<string, Decision> {
    if rows == [] then map[] else ById(rows[..|rows| - 1])[rows[|rows| - 1].id := rows[|rows| - 1]]
  }

  function GenesisCount(rows: seq<Decision>): nat {
    if rows == [] then 0
    else GenesisCount(rows[..|rows| - 1]) + (if rows[|rows| - 1].parentId == GENESIS then 1 else 0)
  }

  function GenesisFaults(rows: seq<Decision>): seq<LedgerError> {
    if rows != [] && GenesisCount(rows) == 0 then [NoGenesis]
    else if GenesisCount(rows) > 1 then [ManyGenesis(GenesisCount(rows))]
    else []
  }

  /** What is wrong with a decision's own hash and signature. */
  function SealFault(c: Crypto, d: Decision): Option<LedgerError> {
    match CanonicalHash(c, d.parentId, d.actorId, d.timestamp, d.payload, d.rules)
    case None => Some(HashError(d.id))
    case Some(id) =>
      if id != d.id then Some(InvalidHash(d.id))
      else if !c.isPublicKey(d.actorId) then Some(InvalidActor)
      else if !c.isSignature(d.signature) then Some(InvalidSignature)
      else if !c.verifies(d.actorId, DigestBytes(d.id), d.signature) then Some(SignatureFailed(d.id))
      else None
  }

  function FaultIf(wrong: bool, e: LedgerError): seq<LedgerError> {
    if wrong then [e] else []
  }

  /** ... with its place. */
  function PlaceFaults(byId: map<string, Decision>, d: Decision): seq<LedgerError> {
    if d.parentId == GENESIS then FaultIf(d.causalDepth != 0, GenesisDepth(d.id))
    else if d.parentId in byId then
      FaultIf(d.causalDepth != byId[d.parentId].causalDepth + 1, DepthMismatch(d.id))
      + FaultIf(d.timestamp < byId[d.parentId].timestamp, TemporalAnomaly(d.id))
    else [OrphanNode(d.id)]
  }

  function DecisionFaults(c: Crypto, byId: map<string, Decision>, d: Decision): seq<LedgerError> {
    match SealFault(c, d)
    case Some(e) => [e]
    case None => PlaceFaults(byId, d)
  }

  function FaultsUpTo(c: Crypto, rows: seq<Decision>, n: nat): seq<LedgerError>
    requires n <= |rows|
  {
    if n == 0 then GenesisFaults(rows) else FaultsUpTo(c, rows, n - 1) + DecisionFaults(c, ById(rows), rows[n - 1])
  }

  /** Everything wrong with decisions, in the order they are read in. */
  function Faults(c: Crypto, rows: seq<Decision>): seq<LedgerError> {
    if rows == [] then [] else FaultsUpTo(c, rows, |rows|)
  }

  /** The answer of `validate_ledger`: what is wrong, how many decisions there are, by whom, and which of
      these are not registered, which is no fault. */
  datatype Report = Report(faults: seq<LedgerError>, total: nat, actors: set<string>, unregistered: set<string>)

  function Actors(rows: seq<Decision>): set<string> {
    set d <- rows :: d.actorId
  }

  function Validated(c: Crypto, rows: seq<Decision>, registered: set<string>): Report {
    Report(Faults(c, InOrder(rows)), |rows|, Actors(rows), Actors(rows) - registered)
  }

  // ---- The ledger as an object ----

  class DecisionLedger {
    var rows: seq<Decision>
    const crypto: Crypto
    const actor: string

    constructor (crypto: Crypto, actor: string)
      ensures rows == [] && this.crypto == crypto && this.actor == actor
    {
      this.rows := [];
      this.crypto := crypto;
      this.actor := actor;
    }

    method InsertDecision(payload: string, rules: string, genesis: bool, now: u64) returns (r: Result<(), LedgerError>)
      modifies this
      ensures match Insert(crypto, old(rows), actor, genesis, payload, rules, now)
        case Ok(rows') => r == Ok(()) && rows == rows'
        case Err(e) => r == Err(e) && rows == old(rows)
    {
      hide CanonicalHash, LastDecision;
      if Parser.Parse(payload).None? || Parser.Parse(rules).None? { return Err(InvalidJson); }
      var last := LastDecision(rows);
      if last.None? && !genesis { return Err(LedgerEmpty); }
      var parentId, depth := GENESIS, 0;
      if !genesis { parentId, depth := last.value.id, last.value.causalDepth + 1; }
      if parentId == GENESIS && HasGenesis(rows) { return Err(GenesisExists); }
      match Place(crypto, rows, actor, parentId, depth, payload, rules, now)
      case Err(e) => return Err(e);
      case Ok(d) =>
        rows := rows + [d];
        return Ok(());
    }

    /** The transaction's rows become the table's when it commits; a failure rolls all of them back. */
    method InsertDecisionBatch(items: seq<Item>, genesis: bool) returns (r: Result<(), LedgerError>)
      modifies this
      ensures match InsertBatch(crypto, old(rows), actor, genesis, items)
        case Ok(rows') => r == Ok(()) && rows == rows'
        case Err(e) => r == Err(e) && rows == old(rows)
    {
      hide CanonicalHash, LastDecision, Place;
      if items == [] { return Ok(()); }
      var last := LastDecision(rows);
      if last.None? && !genesis { return Err(LedgerEmpty); }
      var parentId: string, depth: int := GENESIS, 0;
      if !genesis { parentId, depth := last.value.id, last.value.causalDepth + 1; }
      if parentId == GENESIS && HasGenesis(rows) { return Err(GenesisExists); }
      ghost var done := BatchFrom(crypto, rows, actor, parentId, depth, items);
      var written := rows;
      var i := 0;
      while i < |items|
        invariant 0 <= i <= |items| && rows == old(rows)
        invariant BatchFrom(crypto, written, actor, parentId, depth, items[i..]) == done
      {
        var item := items[i];
        assert items[i..][0] == item && items[i..][1..] == items[i + 1..];
        if Parser.Parse(item.payload).None? || Parser.Parse(item.rules).None? { return Err(InvalidJson); }
        match Place(crypto, written, actor, parentId, depth, item.payload, item.rules, item.at) {
          case Err(e) => return Err(e);
          case Ok(d) =>
            written := written + [d];
            parentId, depth := d.id, depth + 1;
        }
        i := i + 1;
      }
      rows := written;
      return Ok(());
    }

    method ValidateLedger(registered: set<string>) returns (report: Report)
      ensures report == Validated(crypto, rows, registered)
    {
      hide SealFault, PlaceFaults, InOrder;
      var decisions := InOrder(rows);
      InOrderPermutes(rows);
      if decisions == [] { return Report([], 0, {}, {}); }
      var byId: map<string, Decision> := map[];
      var genesisCount := 0;
      var i := 0;
      while i < |decisions|
        invariant 0 <= i <= |decisions|
        invariant byId == ById(decisions[..i]) && genesisCount == GenesisCount(decisions[..i])
      {
        assert decisions[..i + 1][..i] == decisions[..i];
        byId := byId[decisions[i].id := decisions[i]];
        if decisions[i].parentId == GENESIS { genesisCount := genesisCount + 1; }
        i := i + 1;
      }
      assert decisions[..i] == decisions;
      var faults := [];
      if genesisCount == 0 {
        faults := faults + [NoGenesis];
      } else if genesisCount > 1 {
        faults := faults + [ManyGenesis(genesisCount)];
      }
      i := 0;
      while i < |decisions|
        invariant 0 <= i <= |decisions|
        invariant faults == FaultsUpTo(crypto, decisions, i)
      {
        var d := decisions[i];
        i := i + 1;
        match SealFault(crypto, d)
        case Some(e) => faults := faults + [e];
        case None => faults := faults + PlaceFaults(byId, d);
      }
      var actors, unregistered := {}, {};
      i := 0;
      while i < |decisions|
        invariant 0 <= i <= |decisions|
        invariant actors == Actors(decisions[..i]) && unregistered == actors - registered
      {
        var actor := decisions[i].actorId;
        ActorsGrow(decisions, i);
        actors := actors + {actor};
        if actor !in registered { unregistered := unregistered + {actor}; }
        i := i + 1;
      }
      assert decisions[..i] == decisions;
      return Report(faults, |decisions|, actors, unregistered);
    }
  }

  // ---- The order of reading ----

  lemma ActorsGrow(rows: seq<Decision>, i: nat)
    requires i < |rows|
    ensures Actors(rows[..i + 1]) == Actors(rows[..i]) + {rows[i].actorId}
  {
    assert rows[..i + 1] == rows[..i] + [rows[i]];
    forall a ensures a in Actors(rows[..i + 1]) <==> a in Actors(rows[..i]) + {rows[i].actorId} {
      if a in Actors(rows[..i]) {
        var d :| d in rows[..i] && d.actorId == a;
        assert d in rows[..i + 1];
      }
      if a == rows[i].actorId { assert rows[i] in rows[..i + 1]; }
    }
  }

  /** No decision is read before one of less depth, or of the same depth and an earlier time. */
  predicate Ascending(rows: seq<Decision>) {
    forall i, j | 0 <= i < j < |rows| :: NotAfter(rows[i], rows[j])
  }

  lemma {:induction false} SortedPermutes(rows: seq<Decision>, d: Decision)
    ensures multiset(Sorted(rows, d)) == multiset(rows) + multiset{d} && |Sorted(rows, d)| == |rows| + 1
  {
    if rows != [] && !NotAfter(rows[|rows| - 1], d) {
      SortedPermutes(rows[..|rows| - 1], d);
      assert rows == rows[..|rows| - 1] + [rows[|rows| - 1]];
    }
  }

  lemma {:induction false} SortedAscends(rows: seq<Decision>, d: Decision)
    requires Ascending(rows)
    ensures Ascending(Sorted(rows, d))
  {
    if rows != [] && !NotAfter(rows[|rows| - 1], d) {
      var last := rows[|rows| - 1];
      SortedAscends(rows[..|rows| - 1], d);
      SortedPermutes(rows[..|rows| - 1], d);
      forall x | x in Sorted(rows[..|rows| - 1], d) ensures NotAfter(x, last) {
        assert x in multiset(Sorted(rows[..|rows| - 1], d));
        assert x == d || x in rows[..|rows| - 1];
      }
    }
  }

  /** The rows are read once each, in ascending order. */
  lemma {:induction false} InOrderPermutes(rows: seq<Decision>)
    ensures multiset(InOrder(rows)) == multiset(rows) && |InOrder(rows)| == |rows| && Ascending(InOrder(rows))
    ensures Actors(InOrder(rows)) == Actors(rows)
  {
    hide Sorted, Ascending;
    if rows != [] {
      var n := |rows| - 1;
      InOrderPermutes(rows[..n]);
      SortedPermutes(InOrder(rows[..n]), rows[n]);
      SortedAscends(InOrder(rows[..n]), rows[n]);
      assert rows == rows[..n] + [rows[n]];
    } else {
      EmptyAscends();
    }
    assert forall d :: d in InOrder(rows) <==> d in multiset(InOrder(rows));
    assert forall d :: d in rows <==> d in multiset(rows);
  }

  lemma EmptyAscends()
    ensures Ascending([])
  {}

  // ======== What an accepted ledger is, and that inserting keeps ledgers acceptable.

  // ---- A batch is a fold ----

  /** Inserting the rest of a list after its first decision. */
  lemma {:induction false} FoldFromFront(c: Crypto, rows: seq<Decision>, actor: string, genesis: bool, items: seq<Item>)
    requires items != []
    ensures InsertAll(c, rows, actor, genesis, items) ==
      var first := Insert(c, rows, actor, genesis, items[0].payload, items[0].rules, items[0].at);
      if first.Ok? then InsertAll(c, first.value, actor, false, items[1..]) else first
    decreases |items|
  {
    hide Insert;
    var n := |items| - 1;
    if n == 0 {
      assert items[..0] == [] && items[1..] == [];
      assert InsertAll(c, rows, actor, genesis, items[..0]) == Ok(rows);
    } else {
      FoldFromFront(c, rows, actor, genesis, items[..n]);
      assert items[..n][1..] == items[1..][..n - 1];
      assert items[1..][n - 1] == items[n];
    }
  }

  /** A decision placed one deeper than the last of a ledger becomes its last. */
  lemma DeepestIsLast(rows: seq<Decision>, d: Decision)
    requires rows == [] || (LastDecision(rows).Some? && d.causalDepth == LastDecision(rows).value.causalDepth + 1)
    ensures LastDecision(rows + [d]) == Some(d)
  {
    assert (rows + [d])[..|rows|] == rows;
  }

  lemma LastExists(rows: seq<Decision>)
    ensures LastDecision(rows).None? <==> rows == []
  {}

  lemma HexIsNotGenesis(c: Crypto, text: string)
    requires DigestsAreHex(c)
    ensures c.sha256(text) != GENESIS
  {
    assert |c.sha256(text)| == DIGEST_LENGTH;
  }

  lemma PlacedId(c: Crypto, rows: seq<Decision>, actor: string, parentId: string, depth: int, payload: string, rules: string, now: u64)
    requires DigestsAreHex(c)
    requires Place(c, rows, actor, parentId, depth, payload, rules, now).Ok?
    ensures var d := Good(Place(c, rows, actor, parentId, depth, payload, rules, now));
      d.id != GENESIS && d.causalDepth == depth && d.parentId == parentId && d.timestamp == now && BothParse(payload, rules)
  {
    hide HashText, Parser.Parse;
    HexIsNotGenesis(c, HashText(parentId, actor, now, Parser.Parse(payload).GetOr(Null), Parser.Parse(rules).GetOr(Null)));
  }

  /** Where a decision goes that is inserted alone. */
  lemma InsertAfterLast(c: Crypto, rows: seq<Decision>, actor: string, item: Item)
    requires LastDecision(rows).Some? && The(LastDecision(rows)).id != GENESIS
    ensures Insert(c, rows, actor, false, item.payload, item.rules, item.at) ==
      if !BothParse(item.payload, item.rules) then Err(InvalidJson)
      else Appended(rows, Place(c, rows, actor, The(LastDecision(rows)).id, The(LastDecision(rows)).causalDepth + 1, item.payload, item.rules, item.at))
  {
    hide BothParse, Place, LastDecision, HasGenesis;
  }

  lemma InsertFirst(c: Crypto, actor: string, item: Item)
    ensures Insert(c, [], actor, true, item.payload, item.rules, item.at) ==
      if !BothParse(item.payload, item.rules) then Err(InvalidJson)
      else Appended([], Place(c, [], actor, GENESIS, 0, item.payload, item.rules, item.at))
  {
    hide BothParse, Place;
  }

  /** The rest of a batch is inserted as if one by one, as long as its place is the next one. */
  lemma {:induction false} RestIsFold(c: Crypto, rows: seq<Decision>, actor: string, items: seq<Item>)
    requires DigestsAreHex(c) && rows != [] && LastDecision(rows).Some? && The(LastDecision(rows)).id != GENESIS
    ensures BatchFrom(c, rows, actor, The(LastDecision(rows)).id, The(LastDecision(rows)).causalDepth + 1, items)
      == InsertAll(c, rows, actor, false, items)
    decreases |items|
  {
    hide Place, LastDecision, HasGenesis, Insert, InsertAll, BothParse;
    if items == [] {
      NoItems(c, rows, actor, false);
    } else {
      var item := items[0];
      var last := LastDecision(rows).value;
      FoldFromFront(c, rows, actor, false, items);
      InsertAfterLast(c, rows, actor, item);
      var placed := Place(c, rows, actor, last.id, last.causalDepth + 1, item.payload, item.rules, item.at);
      if BothParse(item.payload, item.rules) && placed.Ok? {
        PlacedId(c, rows, actor, last.id, last.causalDepth + 1, item.payload, item.rules, item.at);
        DeepestIsLast(rows, placed.value);
        RestIsFold(c, rows + [placed.value], actor, items[1..]);
      }
    }
  }

  lemma NoItems(c: Crypto, rows: seq<Decision>, actor: string, genesis: bool)
    ensures InsertAll(c, rows, actor, genesis, []) == Ok(rows)
  {}

  /** `insert_decision_batch` succeeds exactly when inserting the decisions one by one does, with the
      same ledger, unless a genesis is forced into a ledger that has rows but no genesis. */
  lemma BatchIsFold(c: Crypto, rows: seq<Decision>, actor: string, genesis: bool, items: seq<Item>)
    requires DigestsAreHex(c)
    requires genesis && rows != [] ==> HasGenesis(rows)
    requires rows != [] ==> LastDecision(rows).Some? && The(LastDecision(rows)).id != GENESIS
    ensures InsertBatch(c, rows, actor, genesis, items).Ok? <==> InsertAll(c, rows, actor, genesis, items).Ok?
    ensures InsertBatch(c, rows, actor, genesis, items).Ok? ==> InsertBatch(c, rows, actor, genesis, items) == InsertAll(c, rows, actor, genesis, items)
  {
    hide Place, LastDecision, HasGenesis, InsertAll, BothParse, Insert;
    LastExists(rows);
    if items == [] {
      NoItems(c, rows, actor, genesis);
    } else if !genesis && rows != [] {
      RestIsFold(c, rows, actor, items);
    } else {
      FoldFromFront(c, rows, actor, genesis, items);
      if rows == [] && genesis {
        EmptyHasNoGenesis();
        GenesisBatchIsFold(c, actor, items);
      } else {
        NowhereToPlace(c, rows, actor, genesis, items[0]);
      }
    }
  }

  lemma EmptyHasNoGenesis()
    ensures !HasGenesis([])
  {}

  lemma GenesisBatchIsFold(c: Crypto, actor: string, items: seq<Item>)
    requires DigestsAreHex(c) && items != []
    ensures BatchFrom(c, [], actor, GENESIS, 0, items) == InsertAll(c, [], actor, true, items)
  {
    hide Place, LastDecision, HasGenesis, InsertAll, BothParse, Insert;
    var item := items[0];
    FoldFromFront(c, [], actor, true, items);
    InsertFirst(c, actor, item);
    var placed := Place(c, [], actor, GENESIS, 0, item.payload, item.rules, item.at);
    if BothParse(item.payload, item.rules) && placed.Ok? {
      PlacedId(c, [], actor, GENESIS, 0, item.payload, item.rules, item.at);
      DeepestIsLast([], placed.value);
      assert [] + [placed.value] == [placed.value];
      RestIsFold(c, [placed.value], actor, items[1..]);
    }
  }

  /** Without a last decision only a genesis can be placed, and a second genesis cannot. */
  lemma NowhereToPlace(c: Crypto, rows: seq<Decision>, actor: string, genesis: bool, item: Item)
    requires if genesis then HasGenesis(rows) else LastDecision(rows).None?
    ensures Insert(c, rows, actor, genesis, item.payload, item.rules, item.at).Err?
    ensures NextPlace(rows, genesis).Ok? ==> Good(NextPlace(rows, genesis)).0 == GENESIS && HasGenesis(rows)
  {
    hide Place, LastDecision, HasGenesis, BothParse;
  }

  lemma {:induction false} LastIsRow(rows: seq<Decision>)
    requires LastDecision(rows).Some?
    ensures LastDecision(rows).value in rows
  {
    if LastDecision(rows) != Some(rows[|rows| - 1]) { LastIsRow(rows[..|rows| - 1]); }
  }

  /** A forced genesis batch grows from its own genesis; one by one, its second decision would hang
      from the deepest row there was. */
  lemma ForcedGenesisForks(c: Crypto, rows: seq<Decision>, actor: string, first: Item, second: Item)
    requires rows != [] && !HasGenesis(rows)
    requires LastDecision(rows).Some? && The(LastDecision(rows)).causalDepth > 0
    requires InsertBatch(c, rows, actor, true, [first, second]).Ok? && InsertAll(c, rows, actor, true, [first, second]).Ok?
    ensures InsertBatch(c, rows, actor, true, [first, second]) != InsertAll(c, rows, actor, true, [first, second])
  {
    hide CanonicalHash, Parser.Parse;
    var placed := Place(c, rows, actor, GENESIS, 0, first.payload, first.rules, first.at);
    assert placed.Ok?;
    var d := placed.value;
    var last := LastDecision(rows).value;
    LastIsRow(rows);
    assert last.id != d.id;
    assert (rows + [d])[..|rows|] == rows;
    assert LastDecision(rows + [d]) == Some(last);
    FoldFromFront(c, rows, actor, true, [first, second]);
    FoldFromFront(c, rows + [d], actor, false, [second]);
    assert [first, second][1..] == [second];
    assert [second][1..] == [];
    NoItems(c, rows + [d], actor, false);
    BatchOfOne(c, rows + [d], actor, d.id, 1, second);
    var fold := Insert(c, rows + [d], actor, false, second.payload, second.rules, second.at).value;
    assert InsertBatch(c, rows, actor, true, [first, second]).value[|rows| + 1].parentId == d.id;
    assert fold[|rows| + 1].parentId == last.id;
  }

  lemma BatchOfOne(c: Crypto, rows: seq<Decision>, actor: string, parentId: string, depth: int, item: Item)
    requires BatchFrom(c, rows, actor, parentId, depth, [item]).Ok?
    ensures var placed := Place(c, rows, actor, parentId, depth, item.payload, item.rules, item.at);
      placed.Ok? && Good(placed).parentId == parentId && BatchFrom(c, rows, actor, parentId, depth, [item]) == Ok(rows + [Good(placed)])
  {
    hide CanonicalHash, Parser.Parse;
    assert [item][1..] == [];
  }

  // ---- What acceptance means ----

  /** Nothing is wrong with decisions read in some order. */
  predicate Clean(c: Crypto, rows: seq<Decision>) {
    Faults(c, rows) == []
  }

  /** `validate_ledger` finds nothing wrong, whoever is registered. */
  predicate Accepted(c: Crypto, rows: seq<Decision>) {
    Validated(c, rows, {}).faults == []
  }

  /** The PRIMARY KEY of the table. */
  predicate DistinctIds(rows: seq<Decision>) {
    forall i, j | 0 <= i < j < |rows| :: rows[i].id != rows[j].id
  }

  lemma {:induction false} NoFaultsUpTo(c: Crypto, rows: seq<Decision>, n: nat, i: nat)
    requires i < n <= |rows| && FaultsUpTo(c, rows, n) == []
    ensures DecisionFaults(c, ById(rows), rows[i]) == [] && GenesisFaults(rows) == []
  {
    hide DecisionFaults, GenesisFaults, ById;
    if i < n - 1 {
      NoFaultsUpTo(c, rows, n - 1, i);
    } else {
      NoGenesisFaults(c, rows, n);
    }
  }

  lemma {:induction false} NoGenesisFaults(c: Crypto, rows: seq<Decision>, n: nat)
    requires n <= |rows| && FaultsUpTo(c, rows, n) == []
    ensures GenesisFaults(rows) == []
  {
    hide DecisionFaults, GenesisFaults, ById;
    if n > 0 { NoGenesisFaults(c, rows, n - 1); }
  }

  lemma {:induction false} ByIdHas(rows: seq<Decision>, d: Decision)
    requires d in rows
    ensures d.id in ById(rows)
  {
    if d != rows[|rows| - 1] {
      assert d in rows[..|rows| - 1];
      ByIdHas(rows[..|rows| - 1], d);
    }
  }

  lemma {:induction false} CleanFrom(c: Crypto, rows: seq<Decision>, n: nat)
    requires n <= |rows| && GenesisFaults(rows) == [] && forall d <- rows :: DecisionFaults(c, ById(rows), d) == []
    ensures FaultsUpTo(c, rows, n) == []
  {
    hide DecisionFaults, GenesisFaults, ById;
    if n > 0 { CleanFrom(c, rows, n - 1); }
  }

  /** What there is to check, in any order. */
  lemma CleanMeans(c: Crypto, rows: seq<Decision>)
    ensures Clean(c, rows) <==> rows == [] || (GenesisFaults(rows) == [] && forall d <- rows :: DecisionFaults(c, ById(rows), d) == [])
  {
    hide DecisionFaults, GenesisFaults, ById, FaultsUpTo;
    if rows != [] && Clean(c, rows) {
      NoFaultsUpTo(c, rows, |rows|, 0);
      forall d | d in rows ensures DecisionFaults(c, ById(rows), d) == [] {
        var i :| 0 <= i < |rows| && rows[i] == d;
        NoFaultsUpTo(c, rows, |rows|, i);
      }
    }
    if rows != [] && GenesisFaults(rows) == [] && forall d <- rows :: DecisionFaults(c, ById(rows), d) == [] {
      CleanFrom(c, rows, |rows|);
    }
  }

  lemma {:induction false} SortedCounts(rows: seq<Decision>, d: Decision)
    ensures GenesisCount(Sorted(rows, d)) == GenesisCount(rows + [d])
  {
    assert (rows + [d])[..|rows|] == rows;
    if rows != [] && !NotAfter(rows[|rows| - 1], d) {
      var n := |rows| - 1;
      SortedCounts(rows[..n], d);
      assert (rows[..n] + [d])[..n] == rows[..n];
      assert (Sorted(rows[..n], d) + [rows[n]])[..|Sorted(rows[..n], d)|] == Sorted(rows[..n], d);
    }
  }

  lemma {:induction false} OrderCounts(rows: seq<Decision>)
    ensures GenesisCount(InOrder(rows)) == GenesisCount(rows)
  {
    hide Sorted;
    if rows != [] {
      var n := |rows| - 1;
      OrderCounts(rows[..n]);
      SortedCounts(InOrder(rows[..n]), rows[n]);
      assert (InOrder(rows[..n]) + [rows[n]])[..|InOrder(rows[..n])|] == InOrder(rows[..n]);
    }
  }

  /** The same decisions in another order are found by the same ids. */
  lemma SameById(rows: seq<Decision>, rows': seq<Decision>)
    requires DistinctIds(rows) && forall d :: d in rows <==> d in rows'
    ensures ById(rows') == ById(rows)
  {
    hide ById, DistinctIds;
    forall id | id in ById(rows') ensures id in ById(rows) && ById(rows)[id] == ById(rows')[id] {
      ByIdIsRow(rows', id);
      var d := ById(rows')[id];
      var i :| 0 <= i < |rows| && rows[i] == d;
      ByIdFinds(rows, i);
    }
    forall id | id in ById(rows) ensures id in ById(rows') {
      ByIdIsRow(rows, id);
      ByIdHas(rows', ById(rows)[id]);
    }
  }

  /** The order in which decisions are read decides the order of the faults, and not whether there are any. */
  lemma OrderIrrelevant(c: Crypto, rows: seq<Decision>)
    requires DistinctIds(rows)
    ensures Accepted(c, rows) <==> Clean(c, rows)
  {
    hide DecisionFaults, ById, GenesisCount, InOrder, Ascending, DistinctIds, FaultsUpTo;
    var read := InOrder(rows);
    InOrderPermutes(rows);
    assert forall d :: d in read <==> d in multiset(read);
    assert forall d :: d in rows <==> d in multiset(rows);
    SameById(rows, read);
    OrderCounts(rows);
    CleanMeans(c, rows);
    CleanMeans(c, read);
  }

  /** What acceptance says of one decision. */
  lemma CleanPlace(c: Crypto, rows: seq<Decision>, d: Decision)
    requires Clean(c, rows) && d in rows
    ensures SealFault(c, d).None?
    ensures d.parentId == GENESIS ==> d.causalDepth == 0
    ensures d.parentId != GENESIS ==>
      && d.parentId in ById(rows)
      && d.causalDepth == Entry(ById(rows), d.parentId).causalDepth + 1 && Entry(ById(rows), d.parentId).timestamp <= d.timestamp
    ensures GenesisCount(rows) == 1
  {
    hide SealFault, ById, GenesisCount, FaultsUpTo;
    var i :| 0 <= i < |rows| && rows[i] == d;
    NoFaultsUpTo(c, rows, |rows|, i);
  }

  lemma {:induction false} ByIdIsRow(rows: seq<Decision>, id: string)
    requires id in ById(rows)
    ensures ById(rows)[id] in rows && ById(rows)[id].id == id
  {
    if rows != [] && rows[|rows| - 1].id != id {
      ByIdIsRow(rows[..|rows| - 1], id);
    }
  }

  lemma {:induction false} ByIdFinds(rows: seq<Decision>, i: nat)
    requires DistinctIds(rows) && i < |rows|
    ensures rows[i].id in ById(rows) && ById(rows)[rows[i].id] == rows[i]
  {
    if i < |rows| - 1 {
      ByIdFinds(rows[..|rows| - 1], i);
    }
  }

  lemma {:induction false} CountedGenesis(rows: seq<Decision>, i: nat, j: nat)
    requires i <= j < |rows| && rows[i].parentId == GENESIS && rows[j].parentId == GENESIS
    ensures GenesisCount(rows) >= if i == j then 1 else 2
  {
    var n := |rows| - 1;
    if j < n {
      CountedGenesis(rows[..n], i, j);
    } else if i < j {
      CountedGenesis(rows[..n], i, i);
    }
  }

  lemma {:induction false} SomeGenesis(rows: seq<Decision>) returns (g: Decision)
    requires GenesisCount(rows) > 0
    ensures g in rows && g.parentId == GENESIS
  {
    var last := rows[|rows| - 1];
    if last.parentId == GENESIS { g := last; } else { g := SomeGenesis(rows[..|rows| - 1]); }
  }

  /** There is one genesis. */
  lemma OneGenesis(c: Crypto, rows: seq<Decision>, a: Decision, b: Decision)
    requires Clean(c, rows) && a in rows && b in rows && a.parentId == GENESIS && b.parentId == GENESIS
    ensures a == b && a.causalDepth == 0
  {
    hide Faults, ById, SealFault, GenesisCount;
    CleanPlace(c, rows, a);
    var i :| 0 <= i < |rows| && rows[i] == a;
    var j :| 0 <= j < |rows| && rows[j] == b;
    CountedGenesis(rows, if i <= j then i else j, if i <= j then j else i);
  }

  /** A way up by parent links, from a decision to a genesis. */
  predicate IsPath(rows: seq<Decision>, path: seq<Decision>) {
    && path != [] && (forall d <- path :: d in rows)
    && (forall i | 0 <= i < |path| - 1 :: path[i].parentId != GENESIS && path[i].parentId == path[i + 1].id)
    && path[|path| - 1].parentId == GENESIS
  }

  /** Time does not run backwards on the way down. */
  predicate InTime(path: seq<Decision>) {
    forall i, j | 0 <= i <= j < |path| :: path[j].timestamp <= path[i].timestamp
  }

  /** In an accepted ledger every decision has a way up to the genesis, in as many steps as its depth
      says, and no decision on it is later than the one below. */
  lemma {:induction false} PathToGenesis(c: Crypto, rows: seq<Decision>, d: Decision) returns (path: seq<Decision>)
    requires Clean(c, rows) && d in rows
    ensures IsPath(rows, path) && InTime(path)
    ensures ItemAt(path, 0) == d && |path| == d.causalDepth + 1
    decreases d.causalDepth
  {
    hide Faults, ById, SealFault, GenesisCount;
    CleanPlace(c, rows, d);
    if d.parentId == GENESIS {
      path := [d];
    } else {
      ByIdIsRow(rows, d.parentId);
      var parent := ById(rows)[d.parentId];
      var rest := PathToGenesis(c, rows, parent);
      path := [d] + rest;
      assert forall i | 1 <= i < |path| :: path[i] == rest[i - 1];
    }
  }

  /** Every way up to a genesis has as many steps as the depth says. */
  lemma {:induction false} PathLength(c: Crypto, rows: seq<Decision>, path: seq<Decision>)
    requires Clean(c, rows) && DistinctIds(rows) && IsPath(rows, path)
    ensures |path| == ItemAt(path, 0).causalDepth + 1
  {
    hide Faults, ById, SealFault, GenesisCount;
    var d := path[0];
    CleanPlace(c, rows, d);
    if |path| > 1 {
      var parent := path[1];
      assert parent in path && parent in rows;
      var i :| 0 <= i < |rows| && rows[i] == parent;
      ByIdFinds(rows, i);
      assert IsPath(rows, path[1..]);
      PathLength(c, rows, path[1..]);
    }
  }

  /** An accepted ledger that is not empty is one tree: it has one genesis, every decision reaches it by
      its parents in exactly `causal_depth` steps, and time never runs backwards on the way down. */
  lemma AcceptedIsTree(c: Crypto, rows: seq<Decision>) returns (g: Decision)
    requires Accepted(c, rows) && rows != [] && DistinctIds(rows)
    ensures g in rows && g.parentId == GENESIS && g.causalDepth == 0
    ensures forall b <- rows :: b.parentId == GENESIS ==> b == g
    ensures forall d <- rows :: exists path: seq<Decision> :: IsPath(rows, path) && InTime(path) && ItemAt(path, 0) == d && ItemAt(path, |path| - 1) == g
    ensures forall path: seq<Decision> :: IsPath(rows, path) ==> |path| == ItemAt(path, 0).causalDepth + 1 && ItemAt(path, |path| - 1) == g
  {
    hide Accepted, Clean, GenesisCount, InTime, DistinctIds;
    OrderIrrelevant(c, rows);
    CleanPlace(c, rows, rows[0]);
    g := SomeGenesis(rows);
    OneGenesis(c, rows, g, g);
    forall b | b in rows && b.parentId == GENESIS ensures b == g { OneGenesis(c, rows, g, b); }
    forall d | d in rows ensures exists path: seq<Decision> :: IsPath(rows, path) && InTime(path) && path[0] == d && path[|path| - 1] == g {
      var path := PathToGenesis(c, rows, d);
      OneGenesis(c, rows, g, path[|path| - 1]);
    }
    forall path: seq<Decision> | IsPath(rows, path) ensures |path| == path[0].causalDepth + 1 && path[|path| - 1] == g {
      PathLength(c, rows, path);
      OneGenesis(c, rows, g, path[|path| - 1]);
    }
  }

  // ---- What inserting builds ----

  predicate ChainRow(c: Crypto, rows: seq<Decision>, i: nat)
    requires i < |rows|
  {
    && rows[i].causalDepth == i
    && rows[i].parentId == (if i == 0 then GENESIS else rows[i - 1].id)
    && rows[i].id != GENESIS
    && SealFault(c, rows[i]).None?
    && (i > 0 ==> rows[i - 1].timestamp <= rows[i].timestamp)
  }

  /** A single chain of depths 0..n-1, of distinct decisions, none later than the clock. */
  ghost predicate Chain(c: Crypto, rows: seq<Decision>, clock: u64) {
    && (forall i {:trigger ChainRow(c, rows, i)} | 0 <= i < |rows| :: ChainRow(c, rows, i))
    && DistinctIds(rows)
    && (rows != [] ==> rows[|rows| - 1].timestamp <= clock)
  }

  lemma ChainPrefix(c: Crypto, rows: seq<Decision>, clock: u64)
    requires Chain(c, rows, clock) && rows != []
    ensures Chain(c, rows[..|rows| - 1], rows[|rows| - 1].timestamp)
  {
    hide SealFault;
    var n := |rows| - 1;
    forall i | 0 <= i < n ensures ChainRow(c, rows[..n], i) { assert ChainRow(c, rows, i); }
    assert ChainRow(c, rows, n);
  }

  lemma {:induction false} LastOfChain(c: Crypto, rows: seq<Decision>, clock: u64)
    requires Chain(c, rows, clock) && rows != []
    ensures LastDecision(rows) == Some(ItemAt(rows, |rows| - 1)) && ItemAt(rows, |rows| - 1).causalDepth == |rows| - 1 && ItemAt(rows, |rows| - 1).id != GENESIS
    ensures HasGenesis(rows)
  {
    hide SealFault;
    var n := |rows| - 1;
    assert ChainRow(c, rows, n) && ChainRow(c, rows, 0);
    if n > 0 {
      ChainPrefix(c, rows, clock);
      LastOfChain(c, rows[..n], rows[n].timestamp);
    }
  }

  /** A chain is accepted. */
  lemma {:induction false} ChainAccepted(c: Crypto, rows: seq<Decision>, clock: u64)
    requires Chain(c, rows, clock)
    ensures Accepted(c, rows)
  {
    hide SealFault, ById, FaultsUpTo, InOrder;
    if rows != [] {
      ChainGenesisCount(c, rows, clock);
      ChainFaults(c, rows, clock, |rows|);
    }
    OrderIrrelevant(c, rows);
  }

  lemma {:induction false} ChainGenesisCount(c: Crypto, rows: seq<Decision>, clock: u64)
    requires Chain(c, rows, clock) && rows != []
    ensures GenesisCount(rows) == 1
  {
    hide SealFault;
    var n := |rows| - 1;
    assert ChainRow(c, rows, n);
    if n > 0 {
      assert ChainRow(c, rows, n - 1);
      ChainPrefix(c, rows, clock);
      ChainGenesisCount(c, rows[..n], rows[n].timestamp);
    } else {
      assert rows[..0] == [];
    }
  }

  lemma ChainRowClean(c: Crypto, rows: seq<Decision>, clock: u64, i: nat)
    requires Chain(c, rows, clock) && i < |rows|
    ensures DecisionFaults(c, ById(rows), ItemAt(rows, i)) == []
  {
    hide SealFault, ById, DistinctIds;
    assert ChainRow(c, rows, i);
    if i > 0 {
      assert ChainRow(c, rows, i - 1);
      ByIdFinds(rows, i - 1);
    }
  }

  lemma {:induction false} ChainFaults(c: Crypto, rows: seq<Decision>, clock: u64, n: nat)
    requires Chain(c, rows, clock) && rows != [] && n <= |rows| && GenesisCount(rows) == 1
    ensures FaultsUpTo(c, rows, n) == []
  {
    hide DecisionFaults, ById, GenesisCount, Chain;
    if n > 0 {
      ChainFaults(c, rows, clock, n - 1);
      ChainRowClean(c, rows, clock, n - 1);
    }
  }

  /** A placed decision is sealed. */
  lemma PlacedIsSealed(c: Crypto, rows: seq<Decision>, actor: string, parentId: string, depth: int, payload: string, rules: string, now: u64)
    requires SignsCorrectly(c, actor) && Place(c, rows, actor, parentId, depth, payload, rules, now).Ok?
    ensures SealFault(c, Good(Place(c, rows, actor, parentId, depth, payload, rules, now))).None?
    ensures !HasId(rows, Good(Place(c, rows, actor, parentId, depth, payload, rules, now)).id)
  {
    hide CanonicalHash;
  }

  /** `insert_decision` extends a chain by one. */
  lemma InsertKeepsChain(c: Crypto, rows: seq<Decision>, clock: u64, actor: string, genesis: bool, payload: string, rules: string, now: u64)
    requires DigestsAreHex(c) && SignsCorrectly(c, actor) && Chain(c, rows, clock) && clock <= now
    requires Insert(c, rows, actor, genesis, payload, rules, now).Ok?
    ensures var rows' := Good(Insert(c, rows, actor, genesis, payload, rules, now));
      Chain(c, rows', now) && |rows'| == |rows| + 1 && rows < rows'
  {
    hide Place, BothParse, HasGenesis, Chain, LastDecision;
    if rows != [] { LastOfChain(c, rows, clock); } else { LastExists(rows); }
    var (parentId, depth) := NextPlace(rows, genesis).value;
    PlacedId(c, rows, actor, parentId, depth, payload, rules, now);
    PlacedIsSealed(c, rows, actor, parentId, depth, payload, rules, now);
    LongerChain(c, rows, clock, Place(c, rows, actor, parentId, depth, payload, rules, now).value);
  }

  lemma LongerChain(c: Crypto, rows: seq<Decision>, clock: u64, d: Decision)
    requires Chain(c, rows, clock) && clock <= d.timestamp
    requires SealFault(c, d).None? && !HasId(rows, d.id) && d.id != GENESIS
    requires d.causalDepth == |rows| && d.parentId == (if rows == [] then GENESIS else ItemAt(rows, |rows| - 1).id)
    ensures Chain(c, rows + [d], d.timestamp)
  {
    hide SealFault;
    forall i | 0 <= i <= |rows| ensures ChainRow(c, rows + [d], i) {
      if i < |rows| { assert ChainRow(c, rows, i); }
    }
  }

  // ---- Runs ----

  /** Calls on a ledger, each with the key that signs it. */
  datatype LedgerCall = One(actor: string, genesis: bool, item: Item) | Many(actor: string, genesis: bool, items: seq<Item>)

  function Call(c: Crypto, rows: seq<Decision>, call: LedgerCall): seq<Decision> {
    var r := match call
      case One(actor, genesis, item) => Insert(c, rows, actor, genesis, item.payload, item.rules, item.at)
      case Many(actor, genesis, items) => InsertBatch(c, rows, actor, genesis, items);
    if r.Ok? then r.value else rows
  }

  function Items(call: LedgerCall): seq<Item> {
    match call
    case One(_, _, item) => [item]
    case Many(_, _, items) => items
  }

  /** The clock never goes back within or between calls, and every signer is a key holder. */
  ghost predicate Clocked(c: Crypto, calls: seq<LedgerCall>, clock: u64) {
    calls == [] ||
      var call := calls[|calls| - 1];
      && SignsCorrectly(c, call.actor)
      && (exists earlier: u64 :: Clocked(c, calls[..|calls| - 1], earlier) && Ticking(Items(call), earlier, clock))
  }

  /** Instants in order between two others. */
  predicate Ticking(items: seq<Item>, from: u64, to: u64) {
    && from <= to
    && (forall i | 0 <= i < |items| :: from <= items[i].at <= to)
    && (forall i, j | 0 <= i <= j < |items| :: items[i].at <= items[j].at)
  }

  function Built(c: Crypto, calls: seq<LedgerCall>): seq<Decision> {
    if calls == [] then [] else Call(c, Built(c, calls[..|calls| - 1]), calls[|calls| - 1])
  }

  lemma ChainLater(c: Crypto, rows: seq<Decision>, clock: u64, later: u64)
    requires Chain(c, rows, clock) && clock <= later
    ensures Chain(c, rows, later)
  {
    hide SealFault, DistinctIds;
  }

  lemma {:induction false} AllKeepChain(c: Crypto, rows: seq<Decision>, clock: u64, actor: string, genesis: bool, items: seq<Item>, to: u64)
    requires DigestsAreHex(c) && SignsCorrectly(c, actor) && Chain(c, rows, clock) && Ticking(items, clock, to)
    requires InsertAll(c, rows, actor, genesis, items).Ok?
    ensures Chain(c, InsertAll(c, rows, actor, genesis, items).value, if items == [] then clock else items[|items| - 1].at)
    decreases |items|
  {
    hide Chain, Insert;
    if items != [] {
      var n := |items| - 1;
      AllKeepChain(c, rows, clock, actor, genesis, items[..n], to);
      var rows' := InsertAll(c, rows, actor, genesis, items[..n]).value;
      InsertKeepsChain(c, rows', if n == 0 then clock else items[n - 1].at, actor, genesis && n == 0, items[n].payload, items[n].rules, items[n].at);
    }
  }

  lemma CallKeepsChain(c: Crypto, rows: seq<Decision>, clock: u64, call: LedgerCall, to: u64)
    requires DigestsAreHex(c) && SignsCorrectly(c, call.actor) && Chain(c, rows, clock) && Ticking(Items(call), clock, to)
    ensures Chain(c, Call(c, rows, call), to)
  {
    hide Chain, Insert, InsertBatch, InsertAll, LastDecision, HasGenesis;
    ChainLater(c, rows, clock, to);
    match call
    case One(actor, genesis, item) =>
      assert item == Items(call)[0];
      if Insert(c, rows, actor, genesis, item.payload, item.rules, item.at).Ok? {
        InsertKeepsChain(c, rows, clock, actor, genesis, item.payload, item.rules, item.at);
        ChainLater(c, Call(c, rows, call), item.at, to);
      }
    case Many(actor, genesis, items) =>
      if InsertBatch(c, rows, actor, genesis, items).Ok? {
        if rows != [] { LastOfChain(c, rows, clock); }
        BatchIsFold(c, rows, actor, genesis, items);
        AllKeepChain(c, rows, clock, actor, genesis, items, to);
        ChainLater(c, Call(c, rows, call), if items == [] then clock else items[|items| - 1].at, to);
      }
  }

  /** Under a clock that never goes back, whatever calls succeed or fail, the ledger is a single chain
      of depths 0..n-1, and it is accepted. */
  lemma {:induction false} BuiltIsChain(c: Crypto, calls: seq<LedgerCall>, clock: u64)
    requires DigestsAreHex(c) && Clocked(c, calls, clock)
    ensures Chain(c, Built(c, calls), clock) && Accepted(c, Built(c, calls))
    decreases |calls|
  {
    hide Chain, Accepted, Call, Ticking;
    if calls == [] {
      EmptyChain(c, clock);
    } else {
      var n := |calls| - 1;
      var earlier: u64 :| Clocked(c, calls[..n], earlier) && Ticking(Items(calls[n]), earlier, clock);
      BuiltIsChain(c, calls[..n], earlier);
      CallKeepsChain(c, Built(c, calls[..n]), earlier, calls[n], clock);
    }
    ChainAccepted(c, Built(c, calls), clock);
  }

  lemma EmptyChain(c: Crypto, clock: u64)
    ensures Chain(c, [], clock)
  {}
}
