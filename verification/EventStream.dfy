/** Each tenant's hash-linked event stream, its signed checkpoints, their verification, and what every
    sequence of recordings and checkpoints keeps. */
module EventStream {
  import opened Prelude
  import opened Names
  import opened Json
  import opened Crypto
  import opened Canonical
  import Decimal
  import ParserProofs

  const EVENT_STREAM_EVENT_SCHEMA := "tempus.event-stream-event.v1"
  const CHECKPOINT_SCHEMA := "tempus.checkpoint.v1"
  const GENESIS_PREV_HASH := "0000000000000000000000000000000000000000000000000000000000000000"

  /** The largest integer a table column holds. */
  const I64_MAX := 0x7FFF_FFFF_FFFF_FFFF

  datatype EventRow = EventRow(sequence: u64, eventId: string, digest: string, json: Value)

  datatype CheckpointRow = CheckpointRow(checkpointId: string, sequence: u64, json: Value)

  /** The tables `event_stream` and `checkpoints`, each tenant's rows in ascending sequence order. */
  datatype Tables = Tables(events: map<string, seq<EventRow>>, checkpoints: map<string, seq<CheckpointRow>>)
  {
    function Events(tenant: string): seq<EventRow> {
      if tenant in events then events[tenant] else []
    }

    function Checkpoints(tenant: string): seq<CheckpointRow> {
      if tenant in checkpoints then checkpoints[tenant] else []
    }
  }

  const EMPTY := Tables(map[], map[])

  datatype StreamError = UniqueViolation | OutOfRange | NoEvents | MissingField(field: string) | NotAnArray | InvalidJson | InvalidKey | InvalidSignature

  // ---- Recording ----

  function EventBody(tenant: string, sequence: u64, eventId: string, eventType: string,
                     payloadHash: string, prevHash: string, timestamp: u64): Value {
    Object(map[
      SCHEMA_VERSION := String(EVENT_STREAM_EVENT_SCHEMA),
      TENANT_ID := String(tenant),
      SEQUENCE_NUMBER := Number(sequence),
      EVENT_ID := String(eventId),
      EVENT_TYPE := String(eventType),
      "payload_hash" := String(payloadHash),
      PREV_EVENT_HASH := String(prevHash),
      "timestamp" := Number(timestamp)
    ])
  }

  /** The sequence number after the last row, and the digest it must link to. */
  function NextLink(rows: seq<EventRow>): (int, string) {
    if rows == [] then (1, GENESIS_PREV_HASH)
    else (rows[|rows| - 1].sequence + 1, rows[|rows| - 1].digest)
  }

  predicate HasEventId(rows: seq<EventRow>, eventId: string) {
    exists row <- rows :: row.eventId == eventId
  }

  /** The row `record_event` would insert. */
  function NewRow(c: Crypto, tenant: string, rows: seq<EventRow>, eventType: string, eventId: string,
                  payload: string, timestamp: u64): EventRow
    requires NextLink(rows).0 <= I64_MAX
  {
    var (sequence, prevHash) := NextLink(rows);
    var body := EventBody(tenant, sequence, eventId, eventType, c.sha256(payload), prevHash, timestamp);
    var digest := DigestJson(c, body);
    EventRow(sequence, eventId, digest, body.With(EVENT_DIGEST, String(digest)))
  }

  /** `record_event`: append one row, or fail on a number too large or a repeated event id. */
  function RecordEvent(c: Crypto, t: Tables, tenant: string, eventType: string, eventId: string,
                       payload: string, timestamp: u64): Result<Tables, StreamError> {
    var rows := t.Events(tenant);
    if NextLink(rows).0 > I64_MAX then Err(OutOfRange)
    else if HasEventId(rows, eventId) then Err(UniqueViolation)
    else Ok(t.(events := t.events[tenant := rows + [NewRow(c, tenant, rows, eventType, eventId, payload, timestamp)]]))
  }

  // ---- Checkpoints ----

  /** What the running hasher has consumed after the rows. */
  function DigestText(rows: seq<EventRow>): string {
    if rows == [] then "" else DigestText(rows[..|rows| - 1]) + rows[|rows| - 1].digest
  }

  function CheckpointId(tenant: string, sequence: u64, createdAt: u64): string {
    "chk_" + tenant + "_" + Decimal.Numeral(sequence) + "_" + Decimal.Numeral(createdAt)
  }

  function Envelope(signer: SignerIdentity, tenant: string, sequence: u64, first: u64, last: u64,
                    rootHash: string, total: u64, createdAt: u64): Value {
    Object(map[
      SCHEMA_VERSION := String(CHECKPOINT_SCHEMA),
      "checkpoint_id" := String(CheckpointId(tenant, sequence, createdAt)),
      TENANT_ID := String(tenant),
      "checkpoint_sequence" := Number(sequence),
      FIRST_SEQUENCE := Number(first),
      LAST_SEQUENCE := Number(last),
      STREAM_ROOT_HASH := String(rootHash),
      "total_events" := Number(total),
      CREATED_AT := Number(createdAt),
      SIGNER := signer.ToJson()
    ])
  }

  function Sign(c: Crypto, signer: SignerIdentity, envelope: Value): Value {
    envelope.With(SIGNATURE, String(c.sign(signer.publicKey, TextBytes(Canonical.Text(envelope)))))
  }

  function NextCheckpointSequence(rows: seq<CheckpointRow>): int {
    if rows == [] then 1 else rows[|rows| - 1].sequence + 1
  }

  predicate HasCheckpointId(t: Tables, id: string) {
    exists tenant <- t.checkpoints.Keys :: exists row <- t.checkpoints[tenant] :: row.checkpointId == id
  }

  /** `create_checkpoint`: the signed checkpoint of a tenant's whole stream, and the tables with it. */
  function CreateCheckpoint(c: Crypto, t: Tables, signer: SignerIdentity, tenant: string, createdAt: u64)
    : Result<(Tables, Value), StreamError>
  {
    var rows := t.Events(tenant);
    var sequence := NextCheckpointSequence(t.Checkpoints(tenant));
    if rows == [] then Err(NoEvents)
    else if sequence > I64_MAX || |rows| > I64_MAX then Err(OutOfRange)
    else
      var envelope := Envelope(signer, tenant, sequence, rows[0].sequence, rows[|rows| - 1].sequence,
                               c.sha256(DigestText(rows)), |rows|, createdAt);
      var json := Sign(c, signer, envelope);
      var id := CheckpointId(tenant, sequence, createdAt);
      if HasCheckpointId(t, id) then Err(UniqueViolation)
      else Ok((t.(checkpoints := t.checkpoints[tenant := t.Checkpoints(tenant) + [CheckpointRow(id, sequence, json)]]), json))
  }

  /** `export_event_stream`: at most `limit` events from a sequence number on. */
  function Export(rows: seq<EventRow>, fromSequence: u64, limit: nat): seq<Value> {
    if rows == [] || limit == 0 then []
    else if rows[0].sequence < fromSequence then Export(rows[1..], fromSequence, limit)
    else [rows[0].json] + Export(rows[1..], fromSequence, limit - 1)
  }

  // ---- Verification ----

  datatype Reason =
    | UntrustedSigner
    | SignatureInvalid
    | EmptyStream
    | TenantMismatch
    | SequenceGap
    | ChainLinkageBroken
    | EventTampered
    | RollbackDetected
    | StreamHashMismatch

  datatype Verdict = Verified(events: nat) | Invalid(reason: Reason, events: nat)

  /** The digest an event claims, or the empty text. */
  function ClaimedDigest(event: Value): string {
    event.GetStr(EVENT_DIGEST).GetOr("")
  }

  /** An event without the digest computed over it. */
  function UnsignedEvent(event: Value): Value {
    event.Without({EVENT_DIGEST})
  }

  /** Why the loop stops at an event, if it does. */
  function EventFault(c: Crypto, tenant: string, event: Value, expectedSequence: u64, prevHash: string): Option<Reason> {
    if event.GetStr(TENANT_ID).GetOr("") != tenant then Some(TenantMismatch)
    else if event.U64At(SEQUENCE_NUMBER) != expectedSequence then Some(SequenceGap)
    else if event.GetStr(PREV_EVENT_HASH).GetOr("") != prevHash then Some(ChainLinkageBroken)
    else if DigestJson(c, UnsignedEvent(event)) != ClaimedDigest(event) then Some(EventTampered)
    else None
  }

  /** `u64` arithmetic that wraps. */
  function Next(n: u64): u64 { if n == U64_MAX then 0 else n + 1 }
  function Previous(n: u64): u64 { if n == 0 then U64_MAX else n - 1 }

  datatype Scan = Stopped(reason: Reason, events: nat) | Finished(expectedSequence: u64, hashed: string)

  /** The loop over the events from position `i`. */
  function ScanFrom(c: Crypto, tenant: string, events: seq<Value>, i: nat,
                    expectedSequence: u64, prevHash: string, hashed: string): Scan
    decreases |events| - i
  {
    if i >= |events| then Finished(expectedSequence, hashed)
    else match EventFault(c, tenant, events[i], expectedSequence, prevHash)
      case Some(reason) => Stopped(reason, i)
      case None =>
        var digest := ClaimedDigest(events[i]);
        ScanFrom(c, tenant, events, i + 1, Next(expectedSequence), digest, hashed + digest)
  }

  function FirstPrevHash(first: u64, events: seq<Value>): string {
    if first == 1 || events == [] then GENESIS_PREV_HASH else events[0].GetStr(PREV_EVENT_HASH).GetOr("")
  }

  function Judge(c: Crypto, scan: Scan, count: nat, last: u64, rootHash: string): Verdict {
    match scan
    case Stopped(reason, n) => Invalid(reason, n)
    case Finished(expectedSequence, hashed) =>
      if Previous(expectedSequence) != last then Invalid(RollbackDetected, count)
      else if c.sha256(hashed) != rootHash then Invalid(StreamHashMismatch, count)
      else Verified(count)
  }

  function VerifyEvents(c: Crypto, tenant: string, events: seq<Value>, first: u64, last: u64, rootHash: string): Verdict {
    if events == [] then Invalid(EmptyStream, 0)
    else Judge(c, ScanFrom(c, tenant, events, 0, first, FirstPrevHash(first, events), ""), |events|, last, rootHash)
  }

  /** `verify_checkpoint_stream` on parsed documents. */
  function VerifyCheckpoint(c: Crypto, checkpoint: Value, stream: Value, expectedKey: Option<string>): Result<Verdict, StreamError> {
    if !stream.Array? then Err(NotAnArray)
    else if checkpoint.GetStr(TENANT_ID).None? then Err(MissingField(TENANT_ID))
    else if checkpoint.GetStr(STREAM_ROOT_HASH).None? then Err(MissingField(STREAM_ROOT_HASH))
    else if checkpoint.GetStr(SIGNATURE).None? then Err(MissingField(SIGNATURE))
    else if checkpoint.Get(SIGNER).None? then Err(MissingField(SIGNER))
    else if checkpoint.Get(SIGNER).value.GetStr(PUBLIC_KEY).None? then Err(MissingField(PUBLIC_KEY))
    else
      var key := checkpoint.Get(SIGNER).value.GetStr(PUBLIC_KEY).value;
      var signature := checkpoint.GetStr(SIGNATURE).value;
      if expectedKey != Some(key) then Ok(Invalid(UntrustedSigner, 0))
      else if !c.isPublicKey(key) then Err(InvalidKey)
      else if !c.isSignature(signature) then Err(InvalidSignature)
      else if !c.verifies(key, TextBytes(Canonical.Text(checkpoint.Without({SIGNATURE}))), signature)
        then Ok(Invalid(SignatureInvalid, 0))
      else Ok(VerifyEvents(c, checkpoint.GetStr(TENANT_ID).value, stream.items,
                           checkpoint.U64At(FIRST_SEQUENCE),
                           checkpoint.U64At(LAST_SEQUENCE),
                           checkpoint.GetStr(STREAM_ROOT_HASH).value))
  }

  // ======== Soundness and completeness of checkpoint verification.

  // ---- The chain a stream keeps ----

  function PrevHash(rows: seq<EventRow>, i: int): string {
    if !(0 < i <= |rows|) then GENESIS_PREV_HASH else rows[i - 1].digest
  }

  /** A row carries its position, links to what precedes it, and its digest is its own. */
  predicate Linked(c: Crypto, tenant: string, row: EventRow, sequence: nat, prevHash: string) {
    && row.sequence == sequence
    && row.json.GetU64(SEQUENCE_NUMBER) == Some(row.sequence)
    && row.json.GetStr(TENANT_ID) == Some(tenant)
    && row.json.GetStr(PREV_EVENT_HASH) == Some(prevHash)
    && row.json.GetStr(EVENT_DIGEST) == Some(row.digest)
    && DigestJson(c, UnsignedEvent(row.json)) == row.digest
  }

  predicate EventLinked(c: Crypto, tenant: string, rows: seq<EventRow>, i: int) {
    0 <= i < |rows| ==> Linked(c, tenant, rows[i], i + 1, PrevHash(rows, i))
  }

  predicate DistinctIds(rows: seq<EventRow>) {
    forall i, j | 0 <= i < j < |rows| :: rows[i].eventId != rows[j].eventId
  }

  /** Rows numbered 1..n, each linked to the digest before it, with distinct event ids. */
  ghost predicate ChainOk(c: Crypto, tenant: string, rows: seq<EventRow>) {
    && |rows| <= I64_MAX
    && (forall i | 0 <= i < |rows| :: EventLinked(c, tenant, rows, i))
    && DistinctIds(rows)
  }

  ghost predicate StreamsOk(c: Crypto, t: Tables) {
    forall tenant: string {:trigger t.Events(tenant)} :: ChainOk(c, tenant, t.Events(tenant))
  }

  lemma NewRowLinked(c: Crypto, tenant: string, rows: seq<EventRow>, eventType: string, eventId: string,
                     payload: string, timestamp: u64)
    requires NextLink(rows).0 <= I64_MAX
    ensures var (sequence, prevHash) := NextLink(rows);
      var row := NewRow(c, tenant, rows, eventType, eventId, payload, timestamp);
      Linked(c, tenant, row, sequence, prevHash) && row.eventId == eventId
  {
    hide DigestJson;
    var (sequence, prevHash) := NextLink(rows);
    var body := EventBody(tenant, sequence, eventId, eventType, c.sha256(payload), prevHash, timestamp);
    var row := NewRow(c, tenant, rows, eventType, eventId, payload, timestamp);
    assert EVENT_DIGEST !in body.fields;
    assert row.json.fields - {EVENT_DIGEST} == body.fields;
    assert UnsignedEvent(row.json) == body;
  }

  /** Recording an event extends the tenant's chain by one row and leaves other tenants alone. */
  lemma RecordKeepsStreams(c: Crypto, t: Tables, tenant: string, eventType: string, eventId: string,
                           payload: string, timestamp: u64)
    requires StreamsOk(c, t)
    ensures var r := RecordEvent(c, t, tenant, eventType, eventId, payload, timestamp);
      r.Ok? ==>
        && StreamsOk(c, Good(r))
        && Good(r).checkpoints == t.checkpoints
        && (forall other :: other != tenant ==> Good(r).Events(other) == t.Events(other))
        && |Good(r).Events(tenant)| == |t.Events(tenant)| + 1
        && t.Events(tenant) <= Good(r).Events(tenant)
  {
    hide Linked, NewRow;
    var rows := t.Events(tenant);
    var r := RecordEvent(c, t, tenant, eventType, eventId, payload, timestamp);
    if r.Ok? {
      NewRowLinked(c, tenant, rows, eventType, eventId, payload, timestamp);
      var t' := r.value;
      var row := NewRow(c, tenant, rows, eventType, eventId, payload, timestamp);
      assert t'.Events(tenant) == rows + [row];
      LastLink(c, tenant, rows);
      ChainExtends(c, tenant, rows, row);
      forall other ensures ChainOk(c, other, t'.Events(other)) {
        assert other != tenant ==> t'.Events(other) == t.Events(other);
      }
    }
  }

  lemma LastLink(c: Crypto, tenant: string, rows: seq<EventRow>)
    requires ChainOk(c, tenant, rows)
    ensures NextLink(rows) == (|rows| + 1, PrevHash(rows, |rows|))
  {
    if rows != [] { assert EventLinked(c, tenant, rows, |rows| - 1); }
  }

  lemma ChainExtends(c: Crypto, tenant: string, rows: seq<EventRow>, row: EventRow)
    requires ChainOk(c, tenant, rows)
    requires |rows| < I64_MAX && !HasEventId(rows, row.eventId)
    requires Linked(c, tenant, row, |rows| + 1, PrevHash(rows, |rows|))
    ensures ChainOk(c, tenant, rows + [row])
  {
    hide Linked;
    var all := rows + [row];
    forall i | 0 <= i < |all| ensures EventLinked(c, tenant, all, i) {
      assert PrevHash(all, i) == PrevHash(rows, i);
      assert i < |rows| ==> EventLinked(c, tenant, rows, i);
    }
    assert DistinctIds(all) by { assert forall r <- rows :: r.eventId != row.eventId; }
  }

  lemma ChainPrefix(c: Crypto, tenant: string, rows: seq<EventRow>, n: nat)
    requires ChainOk(c, tenant, rows) && n <= |rows|
    ensures ChainOk(c, tenant, rows[..n])
  {
    hide Linked;
    forall i | 0 <= i < n ensures EventLinked(c, tenant, rows[..n], i) {
      assert EventLinked(c, tenant, rows, i);
      assert PrevHash(rows[..n], i) == PrevHash(rows, i);
    }
  }

  // ---- Exporting ----

  function Jsons(rows: seq<EventRow>): (r: seq<Value>)
    ensures |r| == |rows|
  {
    seq(|rows|, i requires 0 <= i < |rows| => rows[i].json)
  }

  function Min(a: nat, b: nat): nat { if a <= b then a else b }

  lemma {:induction false} ExportIsPrefix(rows: seq<EventRow>, fromSequence: u64, limit: nat)
    requires forall i | 0 <= i < |rows| :: rows[i].sequence >= fromSequence
    ensures Export(rows, fromSequence, limit) == Jsons(rows[..Min(limit, |rows|)])
  {
    if rows != [] && limit > 0 {
      ExportIsPrefix(rows[1..], fromSequence, limit - 1);
      var n := Min(limit, |rows|);
      assert rows[..n] == [rows[0]] + rows[1..][..n - 1];
    }
  }

  // ---- What the loop does on a recorded prefix ----

  lemma LinkedPasses(c: Crypto, tenant: string, row: EventRow, sequence: nat, prevHash: string)
    requires Linked(c, tenant, row, sequence, prevHash)
    ensures row.sequence == sequence
    ensures EventFault(c, tenant, row.json, row.sequence, prevHash) == None
    ensures ClaimedDigest(row.json) == row.digest
  {
    hide DigestJson;
  }

  lemma {:induction false} ScanOfChain(c: Crypto, tenant: string, rows: seq<EventRow>, i: nat)
    requires ChainOk(c, tenant, rows) && i <= |rows|
    ensures ScanFrom(c, tenant, Jsons(rows), i, i + 1, PrevHash(rows, i), DigestText(rows[..i]))
      == Finished(|rows| + 1, DigestText(rows))
    decreases |rows| - i
  {
    hide EventFault, ClaimedDigest, Linked, GENESIS_PREV_HASH;
    if i == |rows| {
      assert rows[..i] == rows;
    } else {
      assert EventLinked(c, tenant, rows, i);
      LinkedPasses(c, tenant, rows[i], i + 1, PrevHash(rows, i));
      assert rows[..i + 1][..i] == rows[..i];
      ScanOfChain(c, tenant, rows, i + 1);
    }
  }

  lemma EmptyDigestText()
    ensures DigestText([]) == ""
  {}

  /** A recorded prefix passes against a root exactly when its length and its root are right. */
  lemma VerifyPrefix(c: Crypto, tenant: string, rows: seq<EventRow>, last: u64, rootHash: string)
    requires ChainOk(c, tenant, rows)
    ensures VerifyEvents(c, tenant, Jsons(rows), 1, last, rootHash)
      == if rows == [] then Invalid(EmptyStream, 0)
         else if |rows| != last then Invalid(RollbackDetected, |rows|)
         else if c.sha256(DigestText(rows)) != rootHash then Invalid(StreamHashMismatch, |rows|)
         else Verified(|rows|)
  {
    hide ScanFrom, DigestText, Jsons, ChainOk, GENESIS_PREV_HASH;
    ScanOfChain(c, tenant, rows, 0);
    assert rows[..0] == [];
    EmptyDigestText();
    assert rows != [] ==> FirstPrevHash(1, Jsons(rows)) == PrevHash(rows, 0);
  }

  // ---- Completeness ----

  /** The checkpoint the gate signs over the first `n` rows. */
  function CheckpointOver(c: Crypto, signer: SignerIdentity, tenant: string, sequence: u64,
                          rows: seq<EventRow>, n: nat, createdAt: u64): Value
    requires 0 < n <= |rows| <= I64_MAX
  {
    Sign(c, signer, Envelope(signer, tenant, sequence, rows[0].sequence, n, c.sha256(DigestText(rows[..n])), n, createdAt))
  }

  /** Signing adds nothing but the signature. */
  lemma SignedReadsBack(c: Crypto, signer: SignerIdentity, envelope: Value)
    requires envelope.Object? && SIGNATURE !in envelope.fields
    ensures var signed := Sign(c, signer, envelope);
      && signed.Without({SIGNATURE}) == envelope
      && signed.GetStr(SIGNATURE) == Some(c.sign(signer.publicKey, TextBytes(Text(envelope))))
      && forall key: string :: key != SIGNATURE ==> signed.Get(key) == envelope.Get(key)
  {
    hide Text;
    assert Sign(c, signer, envelope).fields - {SIGNATURE} == envelope.fields;
  }

  lemma EnvelopeReadsBack(signer: SignerIdentity, tenant: string, sequence: u64, first: u64, last: u64, root: string, total: u64, createdAt: u64)
    ensures var envelope := Envelope(signer, tenant, sequence, first, last, root, total, createdAt);
      && envelope.Object? && SIGNATURE !in envelope.fields
      && envelope.GetStr(TENANT_ID) == Some(tenant)
      && envelope.GetU64(FIRST_SEQUENCE) == Some(first)
      && envelope.GetU64(LAST_SEQUENCE) == Some(last)
      && envelope.GetStr(STREAM_ROOT_HASH) == Some(root)
      && envelope.Get(SIGNER) == Some(signer.ToJson())
      && signer.ToJson().GetStr(PUBLIC_KEY) == Some(signer.publicKey)
  {
    hide CheckpointId;
  }

  /** The signature of a checkpoint the gate made is in order, and its fields are what was signed. */
  lemma CheckpointFields(c: Crypto, signer: SignerIdentity, tenant: string, sequence: u64,
                         rows: seq<EventRow>, n: nat, createdAt: u64, events: seq<Value>)
    requires ChainOk(c, tenant, rows) && 0 < n <= |rows|
    requires SignsCorrectly(c, signer.publicKey)
    ensures VerifyCheckpoint(c, CheckpointOver(c, signer, tenant, sequence, rows, n, createdAt), Array(events), Some(signer.publicKey))
      == Ok(VerifyEvents(c, tenant, events, 1, n, c.sha256(DigestText(rows[..n]))))
  {
    hide VerifyEvents, DigestText, Text, Envelope, Sign, GENESIS_PREV_HASH;
    assert EventLinked(c, tenant, rows, 0);
    var root := c.sha256(DigestText(rows[..n]));
    EnvelopeReadsBack(signer, tenant, sequence, 1, n, root, n, createdAt);
    SignedReadsBack(c, signer, Envelope(signer, tenant, sequence, 1, n, root, n, createdAt));
  }

  /** A checkpoint taken over `n` events, presented with the first `limit` events of a stream that
      has grown since, verifies exactly when that export holds `n` events. */
  lemma CheckpointComplete(c: Crypto, signer: SignerIdentity, tenant: string, sequence: u64,
                           rows: seq<EventRow>, n: nat, createdAt: u64, limit: nat)
    requires ChainOk(c, tenant, rows) && 0 < n <= |rows|
    requires SignsCorrectly(c, signer.publicKey)
    ensures VerifyCheckpoint(c, CheckpointOver(c, signer, tenant, sequence, rows, n, createdAt),
                             Array(Export(rows, 1, limit)), Some(signer.publicKey)) == Ok(Verified(n))
      <==> Min(limit, |rows|) == n
  {
    hide VerifyCheckpoint, CheckpointOver, VerifyEvents, DigestText, Export;
    var count := Min(limit, |rows|);
    forall i | 0 <= i < |rows| ensures rows[i].sequence >= 1 {
      assert EventLinked(c, tenant, rows, i);
    }
    ExportIsPrefix(rows, 1, limit);
    ChainPrefix(c, tenant, rows, count);
    CheckpointFields(c, signer, tenant, sequence, rows, n, createdAt, Jsons(rows[..count]));
    VerifyPrefix(c, tenant, rows[..count], n, c.sha256(DigestText(rows[..n])));
  }

  // ---- Soundness ----

  /** The texts hashed when an array is verified: every event without its digest, and the
      concatenation of the digests. */
  function HashedTexts(events: seq<Value>): set<string> {
    {ClaimedDigests(events)} + set i | 0 <= i < |events| :: Text(UnsignedEvent(events[i]))
  }

  function ClaimedDigests(events: seq<Value>): string {
    if events == [] then "" else ClaimedDigests(events[..|events| - 1]) + ClaimedDigest(events[|events| - 1])
  }

  /** A finished loop has hashed the claimed digests, each of them recomputed. */
  lemma {:induction false} FinishedScan(c: Crypto, tenant: string, events: seq<Value>, i: nat,
                                        expectedSequence: u64, prevHash: string)
    requires i <= |events|
    requires ScanFrom(c, tenant, events, i, expectedSequence, prevHash, ClaimedDigests(events[..i])).Finished?
    ensures ScanFrom(c, tenant, events, i, expectedSequence, prevHash, ClaimedDigests(events[..i])).hashed == ClaimedDigests(events)
    ensures forall j | i <= j < |events| :: DigestJson(c, UnsignedEvent(events[j])) == ClaimedDigest(events[j])
    decreases |events| - i
  {
    hide DigestJson;
    if i == |events| {
      assert events[..i] == events;
    } else {
      assert events[..i + 1][..i] == events[..i];
      FinishedScan(c, tenant, events, i + 1, Next(expectedSequence), ClaimedDigest(events[i]));
    }
  }

  predicate DigestsRecomputed(c: Crypto, events: seq<Value>) {
    forall j | 0 <= j < |events| :: DigestJson(c, UnsignedEvent(events[j])) == ClaimedDigest(events[j])
  }

  lemma VerifiedMeans(c: Crypto, checkpoint: Value, events: seq<Value>, expectedKey: Option<string>)
    requires VerifyCheckpoint(c, checkpoint, Array(events), expectedKey).Ok?
    requires Good(VerifyCheckpoint(c, checkpoint, Array(events), expectedKey)).Verified?
    ensures DigestsRecomputed(c, events)
    ensures checkpoint.GetStr(STREAM_ROOT_HASH) == Some(c.sha256(ClaimedDigests(events)))
  {
    hide ScanFrom, DigestJson, Text;
    var tenant := checkpoint.GetStr(TENANT_ID).value;
    var first := checkpoint.U64At(FIRST_SEQUENCE);
    assert events[..0] == [];
    FinishedScan(c, tenant, events, 0, first, FirstPrevHash(first, events));
  }

  /** Texts of one length, written one after another, can be told apart again. */
  lemma {:induction false} ClaimedDigestsInjective(a: seq<Value>, b: seq<Value>)
    requires ClaimedDigests(a) == ClaimedDigests(b)
    requires forall e | e in a || e in b :: |ClaimedDigest(e)| == DIGEST_LENGTH
    ensures |a| == |b| && forall j | 0 <= j < |a| :: ClaimedDigest(a[j]) == ClaimedDigest(b[j])
  {
    ClaimedDigestsLength(a);
    ClaimedDigestsLength(b);
    if a != [] {
      var a', b' := a[..|a| - 1], b[..|b| - 1];
      var x, y := ClaimedDigest(a[|a| - 1]), ClaimedDigest(b[|b| - 1]);
      var p, q := ClaimedDigests(a'), ClaimedDigests(b');
      assert p + x == q + y;
      assert p == (p + x)[..|p|] && q == (q + y)[..|q|];
      assert x == (p + x)[|p|..] && y == (q + y)[|q|..];
      ClaimedDigestsInjective(a', b');
    }
  }

  lemma {:induction false} ClaimedDigestsLength(events: seq<Value>)
    requires forall e <- events :: |ClaimedDigest(e)| == DIGEST_LENGTH
    ensures |ClaimedDigests(events)| == DIGEST_LENGTH * |events|
  {
    if events != [] { ClaimedDigestsLength(events[..|events| - 1]); }
  }

  /** Two arrays accepted against one checkpoint are the same array, unless two of the texts
      hashed in checking them collide. */
  lemma CheckpointSound(c: Crypto, checkpoint: Value, a: seq<Value>, b: seq<Value>,
                        keyA: Option<string>, keyB: Option<string>)
    requires DigestsAreHex(c)
    requires CollisionFree(c, HashedTexts(a) + HashedTexts(b))
    requires VerifyCheckpoint(c, checkpoint, Array(a), keyA).Ok? && Good(VerifyCheckpoint(c, checkpoint, Array(a), keyA)).Verified?
    requires VerifyCheckpoint(c, checkpoint, Array(b), keyB).Ok? && Good(VerifyCheckpoint(c, checkpoint, Array(b), keyB)).Verified?
    ensures a == b
  {
    hide VerifyCheckpoint, ClaimedDigests;
    VerifiedMeans(c, checkpoint, a, keyA);
    VerifiedMeans(c, checkpoint, b, keyB);
    assert c.sha256(ClaimedDigests(a)) == c.sha256(ClaimedDigests(b));
    SameDigestsSameEvents(c, a, b);
  }

  lemma SameDigestsSameEvents(c: Crypto, a: seq<Value>, b: seq<Value>)
    requires DigestsAreHex(c)
    requires CollisionFree(c, HashedTexts(a) + HashedTexts(b))
    requires DigestsRecomputed(c, a) && DigestsRecomputed(c, b)
    requires c.sha256(ClaimedDigests(a)) == c.sha256(ClaimedDigests(b))
    ensures a == b
  {
    hide ClaimedDigests, ClaimedDigest, Text, UnsignedEvent;
    forall e | e in a || e in b ensures |ClaimedDigest(e)| == DIGEST_LENGTH {
      if e in a { var j :| 0 <= j < |a| && a[j] == e; assert |DigestJson(c, UnsignedEvent(a[j]))| == DIGEST_LENGTH; }
      if e in b { var j :| 0 <= j < |b| && b[j] == e; assert |DigestJson(c, UnsignedEvent(b[j]))| == DIGEST_LENGTH; }
    }
    ClaimedDigestsInjective(a, b);
    forall j | 0 <= j < |a| ensures a[j] == b[j] {
      assert Text(UnsignedEvent(a[j])) in HashedTexts(a);
      assert Text(UnsignedEvent(b[j])) in HashedTexts(b);
      SameDigestSameEvent(c, a[j], b[j]);
    }
  }

  lemma SameDigestSameEvent(c: Crypto, x: Value, y: Value)
    requires ClaimedDigest(x) == ClaimedDigest(y) && |ClaimedDigest(x)| == DIGEST_LENGTH
    requires Text(UnsignedEvent(x)) == Text(UnsignedEvent(y))
    ensures x == y
  {
    hide Text;
    ParserProofs.CanonicalInjective(UnsignedEvent(x), UnsignedEvent(y));
    WithoutInjective(x, y, EVENT_DIGEST);
  }

  /** Whatever array is accepted against a checkpoint the gate made is exactly what had been
      recorded when it was made. */
  lemma AcceptedIsRecorded(c: Crypto, signer: SignerIdentity, tenant: string, sequence: u64,
                           rows: seq<EventRow>, n: nat, createdAt: u64, events: seq<Value>, key: Option<string>)
    requires DigestsAreHex(c) && SignsCorrectly(c, signer.publicKey)
    requires ChainOk(c, tenant, rows) && 0 < n <= |rows|
    requires var r := VerifyCheckpoint(c, CheckpointOver(c, signer, tenant, sequence, rows, n, createdAt), Array(events), key);
      r.Ok? && r.value.Verified?
    requires CollisionFree(c, HashedTexts(events) + HashedTexts(Jsons(rows[..n])))
    ensures events == Jsons(rows[..n])
  {
    hide VerifyCheckpoint, CheckpointOver, HashedTexts, Export, DigestText;
    CheckpointComplete(c, signer, tenant, sequence, rows, n, createdAt, n);
    forall i | 0 <= i < |rows| ensures rows[i].sequence >= 1 {
      assert EventLinked(c, tenant, rows, i);
    }
    ExportIsPrefix(rows, 1, n);
    CheckpointSound(c, CheckpointOver(c, signer, tenant, sequence, rows, n, createdAt), events, Jsons(rows[..n]),
                    key, Some(signer.publicKey));
  }

  // ======== Every sequence of recordings and checkpoints.

  datatype StreamStep =
    | Record(tenant: string, eventType: string, eventId: string, payload: string, timestamp: u64)
    | Checkpoint(tenant: string, createdAt: u64)

  /** One call; a call that fails changes nothing. */
  function Apply(c: Crypto, signer: SignerIdentity, t: Tables, step: StreamStep): Tables {
    match step
    case Record(tenant, eventType, eventId, payload, timestamp) =>
      (match RecordEvent(c, t, tenant, eventType, eventId, payload, timestamp)
       case Ok(t') => t'
       case Err(_) => t)
    case Checkpoint(tenant, createdAt) =>
      match CreateCheckpoint(c, t, signer, tenant, createdAt)
      case Ok((t', _)) => t'
      case Err(_) => t
  }

  function Run(c: Crypto, signer: SignerIdentity, steps: seq<StreamStep>): Tables {
    if steps == [] then EMPTY else Apply(c, signer, Run(c, signer, steps[..|steps| - 1]), steps[|steps| - 1])
  }

  /** How many events a checkpoint covers. */
  function Size(row: CheckpointRow): nat {
    row.json.U64At(LAST_SEQUENCE)
  }

  function CreatedAt(row: CheckpointRow): u64 {
    row.json.U64At(CREATED_AT)
  }

  /** The `i`-th checkpoint of a tenant is numbered `i + 1` and signs a prefix of the stream. */
  predicate CheckpointOk(c: Crypto, signer: SignerIdentity, tenant: string, rows: seq<EventRow>, row: CheckpointRow, i: nat) {
    && row.sequence == i + 1
    && 0 < Size(row) <= |rows| <= I64_MAX
    && row.json == CheckpointOver(c, signer, tenant, row.sequence, rows, Size(row), CreatedAt(row))
  }

  ghost predicate CheckpointsOk(c: Crypto, signer: SignerIdentity, tenant: string, rows: seq<EventRow>, checkpoints: seq<CheckpointRow>) {
    && (forall i | 0 <= i < |checkpoints| :: CheckpointOk(c, signer, tenant, rows, checkpoints[i], i))
    && (forall i, j | 0 <= i <= j < |checkpoints| :: Size(checkpoints[i]) <= Size(checkpoints[j]))
  }

  ghost predicate TablesOk(c: Crypto, signer: SignerIdentity, t: Tables) {
    && StreamsOk(c, t)
    && forall tenant: string {:trigger t.Checkpoints(tenant)} :: CheckpointsOk(c, signer, tenant, t.Events(tenant), t.Checkpoints(tenant))
  }

  lemma CheckpointSurvivesGrowth(c: Crypto, signer: SignerIdentity, tenant: string, rows: seq<EventRow>,
                                 more: seq<EventRow>, checkpoints: seq<CheckpointRow>)
    requires CheckpointsOk(c, signer, tenant, rows, checkpoints)
    requires rows <= more && |more| <= I64_MAX
    ensures CheckpointsOk(c, signer, tenant, more, checkpoints)
  {
    hide Sign, Envelope, DigestText, Size, CreatedAt;
    forall i | 0 <= i < |checkpoints| ensures CheckpointOk(c, signer, tenant, more, checkpoints[i], i) {
      assert CheckpointOk(c, signer, tenant, rows, checkpoints[i], i);
      assert more[..Size(checkpoints[i])] == rows[..Size(checkpoints[i])];
    }
  }

  lemma RecordKeepsInv(c: Crypto, signer: SignerIdentity, t: Tables, step: StreamStep)
    requires TablesOk(c, signer, t) && step.Record?
    ensures TablesOk(c, signer, Apply(c, signer, t, step))
  {
    hide RecordEvent, CheckpointsOk, ChainOk;
    var r := RecordEvent(c, t, step.tenant, step.eventType, step.eventId, step.payload, step.timestamp);
    RecordKeepsStreams(c, t, step.tenant, step.eventType, step.eventId, step.payload, step.timestamp);
    if r.Ok? {
      var t' := r.value;
      forall tenant ensures CheckpointsOk(c, signer, tenant, t'.Events(tenant), t'.Checkpoints(tenant)) {
        assert t'.Checkpoints(tenant) == t.Checkpoints(tenant);
        assert ChainOk(c, tenant, t'.Events(tenant));
        ChainBound(c, tenant, t'.Events(tenant));
        CheckpointSurvivesGrowth(c, signer, tenant, t.Events(tenant), t'.Events(tenant), t.Checkpoints(tenant));
      }
    }
  }

  lemma ChainBound(c: Crypto, tenant: string, rows: seq<EventRow>)
    requires ChainOk(c, tenant, rows)
    ensures |rows| <= I64_MAX
  {}

  /** A new checkpoint covers the whole stream of its tenant. */
  lemma NewCheckpointOk(c: Crypto, signer: SignerIdentity, t: Tables, tenant: string, createdAt: u64)
    requires TablesOk(c, signer, t)
    requires CreateCheckpoint(c, t, signer, tenant, createdAt).Ok?
    ensures var (t', json) := CreateCheckpoint(c, t, signer, tenant, createdAt).value;
      var was, now := t.Checkpoints(tenant), t'.Checkpoints(tenant);
      && t'.events == t.events
      && (forall other :: other != tenant ==> t'.Checkpoints(other) == t.Checkpoints(other))
      && |now| == |was| + 1 && now[..|was|] == was
      && now[|was|].json == json
      && CheckpointOk(c, signer, tenant, t.Events(tenant), now[|was|], |was|)
      && Size(now[|was|]) == |t.Events(tenant)|
  {
    hide DigestText, CheckpointId, CheckpointOver, ChainOk, CheckpointOk, Size, CreatedAt, Sign, Envelope;
    var rows, was := t.Events(tenant), t.Checkpoints(tenant);
    LastRows(c, signer, t, tenant);
    assert rows[..|rows|] == rows;
    var (t', json) := CreateCheckpoint(c, t, signer, tenant, createdAt).value;
    var row := t'.Checkpoints(tenant)[|was|];
    assert row.sequence == |was| + 1;
    assert json == CheckpointOver(c, signer, tenant, row.sequence, rows, |rows|, createdAt) by {
      UnfoldCheckpointOver(c, signer, tenant, row.sequence, rows, createdAt);
    }
    CheckpointReadsBack(c, signer, tenant, row, rows, createdAt);
  }

  lemma LastRows(c: Crypto, signer: SignerIdentity, t: Tables, tenant: string)
    requires TablesOk(c, signer, t)
    ensures var rows, was := t.Events(tenant), t.Checkpoints(tenant);
      && |rows| <= I64_MAX
      && (rows != [] ==> ItemAt(rows, |rows| - 1).sequence == |rows|)
      && (was != [] ==> ItemAt(was, |was| - 1).sequence == |was|)
  {
    hide CheckpointOver, Size, CreatedAt;
    var rows, was := t.Events(tenant), t.Checkpoints(tenant);
    assert CheckpointsOk(c, signer, tenant, rows, was);
    if was != [] { assert CheckpointOk(c, signer, tenant, rows, was[|was| - 1], |was| - 1); }
    if rows != [] { assert EventLinked(c, tenant, rows, |rows| - 1); }
  }

  lemma UnfoldCheckpointOver(c: Crypto, signer: SignerIdentity, tenant: string, sequence: u64, rows: seq<EventRow>, createdAt: u64)
    requires 0 < |rows| <= I64_MAX
    ensures CheckpointOver(c, signer, tenant, sequence, rows, |rows|, createdAt)
      == Sign(c, signer, Envelope(signer, tenant, sequence, rows[0].sequence, |rows|, c.sha256(DigestText(rows)), |rows|, createdAt))
  {
    hide Sign, Envelope, DigestText;
    assert rows[..|rows|] == rows;
  }

  lemma CheckpointReadsBack(c: Crypto, signer: SignerIdentity, tenant: string, row: CheckpointRow, rows: seq<EventRow>, createdAt: u64)
    requires 0 < |rows| <= I64_MAX
    requires row.json == CheckpointOver(c, signer, tenant, row.sequence, rows, |rows|, createdAt)
    ensures Size(row) == |rows| && CreatedAt(row) == createdAt
    ensures forall i | row.sequence == i + 1 && i >= 0 :: CheckpointOk(c, signer, tenant, rows, row, i)
  {
    hide DigestText, CheckpointId, Envelope, Sign;
    assert rows[..|rows|] == rows;
    var envelope := Envelope(signer, tenant, row.sequence, rows[0].sequence, |rows|, c.sha256(DigestText(rows)), |rows|, createdAt);
    EnvelopeFields(signer, tenant, row.sequence, rows[0].sequence, |rows|, c.sha256(DigestText(rows)), createdAt);
    assert row.json == Sign(c, signer, envelope);
    SigningKeepsFields(c, signer, envelope);
  }

  lemma EnvelopeFields(signer: SignerIdentity, tenant: string, sequence: u64, first: u64, total: u64, root: string, createdAt: u64)
    ensures var envelope := Envelope(signer, tenant, sequence, first, total, root, total, createdAt);
      envelope.Object? && envelope.GetU64(LAST_SEQUENCE) == Some(total) && envelope.GetU64(CREATED_AT) == Some(createdAt)
  {
    hide CheckpointId;
  }

  lemma SigningKeepsFields(c: Crypto, signer: SignerIdentity, envelope: Value)
    requires envelope.Object?
    ensures Sign(c, signer, envelope).GetU64(LAST_SEQUENCE) == envelope.GetU64(LAST_SEQUENCE)
    ensures Sign(c, signer, envelope).GetU64(CREATED_AT) == envelope.GetU64(CREATED_AT)
  {}

  lemma CheckpointKeepsInv(c: Crypto, signer: SignerIdentity, t: Tables, step: StreamStep)
    requires TablesOk(c, signer, t) && step.Checkpoint?
    ensures TablesOk(c, signer, Apply(c, signer, t, step))
  {
    hide CreateCheckpoint, CheckpointOk, ChainOk, Size;
    var r := CreateCheckpoint(c, t, signer, step.tenant, step.createdAt);
    if r.Ok? {
      NewCheckpointOk(c, signer, t, step.tenant, step.createdAt);
      var t' := r.value.0;
      var rows, was := t.Events(step.tenant), t.Checkpoints(step.tenant);
      assert forall tenant :: t'.Events(tenant) == t.Events(tenant);
      var all := t'.Checkpoints(step.tenant);
      assert CheckpointsOk(c, signer, step.tenant, rows, all) by {
        assert CheckpointsOk(c, signer, step.tenant, rows, was);
        forall i | 0 <= i < |was| ensures all[i] == was[i] && Size(was[i]) <= |rows| {
          assert all[..|was|][i] == all[i];
          assert CheckpointOk(c, signer, step.tenant, rows, was[i], i);
          SizeBound(c, signer, step.tenant, rows, was[i], i);
        }
      }
      forall tenant ensures CheckpointsOk(c, signer, tenant, t'.Events(tenant), t'.Checkpoints(tenant)) {
        assert tenant != step.tenant ==> t'.Checkpoints(tenant) == t.Checkpoints(tenant);
      }
    }
  }

  lemma SizeBound(c: Crypto, signer: SignerIdentity, tenant: string, rows: seq<EventRow>, row: CheckpointRow, i: nat)
    requires CheckpointOk(c, signer, tenant, rows, row, i)
    ensures 0 < Size(row) <= |rows| && row.sequence == i + 1
  {}

  lemma {:induction false} RunKeepsInv(c: Crypto, signer: SignerIdentity, steps: seq<StreamStep>)
    ensures TablesOk(c, signer, Run(c, signer, steps))
  {
    hide Apply;
    if steps != [] {
      var before := Run(c, signer, steps[..|steps| - 1]);
      RunKeepsInv(c, signer, steps[..|steps| - 1]);
      if steps[|steps| - 1].Record? {
        RecordKeepsInv(c, signer, before, steps[|steps| - 1]);
      } else {
        CheckpointKeepsInv(c, signer, before, steps[|steps| - 1]);
      }
    }
  }

  /** In every run, a checkpoint accepts the export of its tenant's stream exactly when the export
      has the length the stream had when the checkpoint was taken. */
  lemma RunComplete(c: Crypto, signer: SignerIdentity, steps: seq<StreamStep>, tenant: string, i: nat, limit: nat)
    requires SignsCorrectly(c, signer.publicKey)
    requires i < |Run(c, signer, steps).Checkpoints(tenant)|
    ensures var t := Run(c, signer, steps);
      var row := t.Checkpoints(tenant)[i];
      (VerifyCheckpoint(c, row.json, Array(Export(t.Events(tenant), 1, limit)), Some(signer.publicKey)) == Ok(Verified(Size(row))))
        <==> (Min(limit, |t.Events(tenant)|) == Size(row))
  {
    hide Run, VerifyCheckpoint, Export, Size, CreatedAt, CheckpointOver;
    RunKeepsInv(c, signer, steps);
    var t := Run(c, signer, steps);
    var rows, row := t.Events(tenant), t.Checkpoints(tenant)[i];
    assert CheckpointsOk(c, signer, tenant, rows, t.Checkpoints(tenant));
    assert CheckpointOk(c, signer, tenant, rows, row, i);
    CheckpointComplete(c, signer, tenant, row.sequence, rows, Size(row), CreatedAt(row), limit);
  }

  predicate Accepts(c: Crypto, row: CheckpointRow, events: seq<Value>, key: string) {
    var r := VerifyCheckpoint(c, row.json, Array(events), Some(key));
    r.Ok? && r.value.Verified?
  }

  /** The texts hashed when an array is checked against a checkpoint, and when what had been
      recorded at the time of the checkpoint is. */
  function ComparedTexts(rows: seq<EventRow>, row: CheckpointRow, events: seq<Value>): set<string>
  {
    HashedTexts(events) + HashedTexts(Jsons(rows[..Min(Size(row), |rows|)]))
  }

  /** What a checkpoint of a run accepts is what its tenant had recorded when it was taken. */
  lemma RunAcceptsRecorded(c: Crypto, signer: SignerIdentity, steps: seq<StreamStep>, tenant: string, i: nat, events: seq<Value>)
    requires DigestsAreHex(c) && SignsCorrectly(c, signer.publicKey)
    requires var t := Run(c, signer, steps);
      && i < |t.Checkpoints(tenant)|
      && Accepts(c, t.Checkpoints(tenant)[i], events, signer.publicKey)
      && CollisionFree(c, ComparedTexts(t.Events(tenant), t.Checkpoints(tenant)[i], events))
    ensures var t := Run(c, signer, steps);
      && Size(t.Checkpoints(tenant)[i]) <= |t.Events(tenant)|
      && events == Jsons(t.Events(tenant)[..Size(t.Checkpoints(tenant)[i])])
  {
    hide Run, VerifyCheckpoint, Size, CreatedAt, CheckpointOver, HashedTexts;
    RunKeepsInv(c, signer, steps);
    var t := Run(c, signer, steps);
    var rows, row := t.Events(tenant), t.Checkpoints(tenant)[i];
    assert CheckpointsOk(c, signer, tenant, rows, t.Checkpoints(tenant));
    assert CheckpointOk(c, signer, tenant, rows, row, i);
    AcceptedIsRecorded(c, signer, tenant, row.sequence, rows, Size(row), CreatedAt(row), events, Some(signer.publicKey));
  }

  /** A later checkpoint has a larger number, and every stream it accepts extends every stream an
      earlier one accepts. */
  lemma RunCheckpointsAgree(c: Crypto, signer: SignerIdentity, steps: seq<StreamStep>, tenant: string,
                            i: nat, j: nat, earlier: seq<Value>, later: seq<Value>)
    requires DigestsAreHex(c) && SignsCorrectly(c, signer.publicKey)
    requires var t := Run(c, signer, steps);
      var rows, checkpoints := t.Events(tenant), t.Checkpoints(tenant);
      && i < j < |checkpoints|
      && Accepts(c, ItemAt(checkpoints, i), earlier, signer.publicKey) && Accepts(c, ItemAt(checkpoints, j), later, signer.publicKey)
      && CollisionFree(c, ComparedTexts(rows, ItemAt(checkpoints, i), earlier))
      && CollisionFree(c, ComparedTexts(rows, ItemAt(checkpoints, j), later))
    ensures var checkpoints := Run(c, signer, steps).Checkpoints(tenant);
      ItemAt(checkpoints, i).sequence < ItemAt(checkpoints, j).sequence && earlier <= later
  {
    hide Run, VerifyCheckpoint, Size, CreatedAt, CheckpointOver, ComparedTexts, Accepts;
    RunKeepsInv(c, signer, steps);
    var t := Run(c, signer, steps);
    var rows, checkpoints := t.Events(tenant), t.Checkpoints(tenant);
    RunAcceptsRecorded(c, signer, steps, tenant, i, earlier);
    RunAcceptsRecorded(c, signer, steps, tenant, j, later);
    assert CheckpointsOk(c, signer, tenant, rows, checkpoints);
    assert CheckpointOk(c, signer, tenant, rows, checkpoints[i], i);
    assert CheckpointOk(c, signer, tenant, rows, checkpoints[j], j);
    assert Jsons(rows[..Size(checkpoints[i])]) <= Jsons(rows[..Size(checkpoints[j])]);
  }
}
