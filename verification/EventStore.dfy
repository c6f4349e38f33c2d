/** The event stream as an object: appending, checkpointing and exporting step by step, and the
    verification loop. */
module EventStore {
  import opened Prelude
  import opened Names
  import opened Json
  import opened Crypto
  import opened EventStream
  import Canonical

  class EventTables {
    const crypto: Crypto
    var tables: Tables

    constructor (crypto: Crypto)
      ensures this.crypto == crypto && tables == EventStream.EMPTY
    {
      this.crypto := crypto;
      this.tables := EventStream.EMPTY;
    }

    /** Appends one linked event to a tenant's stream, or changes nothing. */
    method RecordEvent(tenant: string, eventType: string, eventId: string, payload: string, timestamp: u64) returns (r: Result<(), StreamError>)
      modifies this
      ensures match EventStream.RecordEvent(crypto, old(tables), tenant, eventType, eventId, payload, timestamp)
        case Ok(t) => r == Ok(()) && tables == t
        case Err(e) => r == Err(e) && tables == old(tables)
    {
      hide DigestJson, EventBody, HasEventId;
      var rows := tables.Events(tenant);
      var nextSequence: int, prevHash := 1, GENESIS_PREV_HASH;
      if rows != [] {
        nextSequence, prevHash := rows[|rows| - 1].sequence + 1, rows[|rows| - 1].digest;
      }
      if nextSequence > I64_MAX { return Err(OutOfRange); }
      var body := EventBody(tenant, nextSequence, eventId, eventType, crypto.sha256(payload), prevHash, timestamp);
      var digest := DigestJson(crypto, body);
      assert body.Object? by { EventIsObject(tenant, nextSequence, eventId, eventType, crypto.sha256(payload), prevHash, timestamp); }
      var row := EventRow(nextSequence, eventId, digest, body.With(EVENT_DIGEST, String(digest)));
      if HasEventId(rows, eventId) { return Err(UniqueViolation); }
      tables := tables.(events := tables.events[tenant := rows + [row]]);
      return Ok(());
    }

    /** Signs a checkpoint over a tenant's whole stream, or changes nothing. */
    method CreateCheckpoint(signer: SignerIdentity, tenant: string, createdAt: u64) returns (r: Result<Value, StreamError>)
      modifies this
      ensures match EventStream.CreateCheckpoint(crypto, old(tables), signer, tenant, createdAt)
        case Ok((t, json)) => r == Ok(json) && tables == t
        case Err(e) => r == Err(e) && tables == old(tables)
    {
      hide Envelope, Sign, CheckpointId, HasCheckpointId, Canonical.Text;
      var checkpoints := tables.Checkpoints(tenant);
      var sequence: int := if checkpoints == [] then 1 else checkpoints[|checkpoints| - 1].sequence + 1;
      var rows := tables.Events(tenant);
      var first: Option<u64> := None;
      var last: u64 := 0;
      var total := 0;
      var hashed := "";
      for i := 0 to |rows|
        invariant total == i && hashed == DigestText(rows[..i])
        invariant i > 0 ==> first == Some(rows[0].sequence) && last == rows[i - 1].sequence
        invariant i == 0 ==> first == None
      {
        assert rows[..i + 1][..i] == rows[..i];
        if first.None? { first := Some(rows[i].sequence); }
        last := rows[i].sequence;
        total := total + 1;
        hashed := hashed + rows[i].digest;
      }
      assert rows[..|rows|] == rows;
      if total == 0 { return Err(NoEvents); }
      if sequence > I64_MAX || total > I64_MAX { return Err(OutOfRange); }
      var envelope := Envelope(signer, tenant, sequence, first.GetOr(1), last, crypto.sha256(hashed), total, createdAt);
      assert envelope.Object? by { EnvelopeIsObject(signer, tenant, sequence, first.GetOr(1), last, crypto.sha256(hashed), total, createdAt); }
      var json := Sign(crypto, signer, envelope);
      var id := CheckpointId(tenant, sequence, createdAt);
      if HasCheckpointId(tables, id) { return Err(UniqueViolation); }
      tables := tables.(checkpoints := tables.checkpoints[tenant := checkpoints + [CheckpointRow(id, sequence, json)]]);
      return Ok(json);
    }

    /** At most `limit` events of a tenant's stream, from a sequence number on. */
    method ExportEventStream(tenant: string, fromSequence: u64, limit: nat) returns (events: seq<Value>)
      ensures events == Export(tables.Events(tenant), fromSequence, limit)
    {
      var rows := tables.Events(tenant);
      events := [];
      var i := 0;
      assert rows[0..] == rows;
      while i < |rows| && |events| < limit
        invariant 0 <= i <= |rows| && |events| <= limit
        invariant events + Export(rows[i..], fromSequence, limit - |events|) == Export(rows, fromSequence, limit)
      {
        assert rows[i..][0] == rows[i] && rows[i..][1..] == rows[i + 1..];
        if rows[i].sequence >= fromSequence {
          ExportTakes(rows[i..], fromSequence, limit - |events|);
          assert (events + [rows[i].json]) + Export(rows[i + 1..], fromSequence, limit - |events| - 1)
              == events + ([rows[i].json] + Export(rows[i + 1..], fromSequence, limit - |events| - 1));
          events := events + [rows[i].json];
        }
        i := i + 1;
      }
    }
  }

  lemma EventIsObject(tenant: string, sequence: u64, eventId: string, eventType: string, payloadHash: string, prevHash: string, timestamp: u64)
    ensures EventBody(tenant, sequence, eventId, eventType, payloadHash, prevHash, timestamp).Object?
  {}

  lemma EnvelopeIsObject(signer: SignerIdentity, tenant: string, sequence: u64, first: u64, last: u64, root: string, total: u64, createdAt: u64)
    ensures Envelope(signer, tenant, sequence, first, last, root, total, createdAt).Object?
  {}

  lemma ExportTakes(rows: seq<EventRow>, fromSequence: u64, limit: nat)
    requires rows != [] && limit > 0 && rows[0].sequence >= fromSequence
    ensures Export(rows, fromSequence, limit) == [rows[0].json] + Export(rows[1..], fromSequence, limit - 1)
  {}

  /** `verify_checkpoint_stream`. */
  method VerifyCheckpointStream(c: Crypto, checkpoint: Value, stream: Value, expectedKey: Option<string>) returns (r: Result<Verdict, StreamError>)
    ensures r == VerifyCheckpoint(c, checkpoint, stream, expectedKey)
  {
    hide Canonical.Text, DigestJson;
    if !stream.Array? { return Err(NotAnArray); }
    var events := stream.items;
    var tenant := checkpoint.GetStr(TENANT_ID);
    if tenant.None? { return Err(MissingField(TENANT_ID)); }
    var firstSequence := checkpoint.U64At(FIRST_SEQUENCE);
    var lastSequence := checkpoint.U64At(LAST_SEQUENCE);
    var rootHash := checkpoint.GetStr(STREAM_ROOT_HASH);
    if rootHash.None? { return Err(MissingField(STREAM_ROOT_HASH)); }
    var signature := checkpoint.GetStr(SIGNATURE);
    if signature.None? { return Err(MissingField(SIGNATURE)); }
    var unsigned := checkpoint.Without({SIGNATURE});
    var signer := checkpoint.Get(SIGNER);
    if signer.None? { return Err(MissingField(SIGNER)); }
    var key := signer.value.GetStr(PUBLIC_KEY);
    if key.None? { return Err(MissingField(PUBLIC_KEY)); }
    if expectedKey.None? || expectedKey.value != key.value { return Ok(Invalid(UntrustedSigner, 0)); }
    if !c.isPublicKey(key.value) { return Err(InvalidKey); }
    if !c.isSignature(signature.value) { return Err(InvalidSignature); }
    if !c.verifies(key.value, TextBytes(Canonical.Text(unsigned)), signature.value) { return Ok(Invalid(SignatureInvalid, 0)); }
    if events == [] { return Ok(Invalid(EmptyStream, 0)); }
    var verdict := VerifyChain(c, tenant.value, events, firstSequence, lastSequence, rootHash.value);
    return Ok(verdict);
  }

  /** The loop over the events, and the checks after it. */
  method VerifyChain(c: Crypto, tenant: string, events: seq<Value>, firstSequence: u64, lastSequence: u64, rootHash: string) returns (verdict: Verdict)
    requires events != []
    ensures verdict == VerifyEvents(c, tenant, events, firstSequence, lastSequence, rootHash)
  {
    hide Canonical.Text, DigestJson;
    var expectedSequence := firstSequence;
    var prevHash := if firstSequence == 1 then GENESIS_PREV_HASH else events[0].GetStr(PREV_EVENT_HASH).GetOr("");
    var hashed := "";
    var verified := 0;
    ghost var scan := ScanFrom(c, tenant, events, 0, expectedSequence, prevHash, hashed);
    while verified < |events|
      invariant 0 <= verified <= |events|
      invariant ScanFrom(c, tenant, events, verified, expectedSequence, prevHash, hashed) == scan
    {
      var event := events[verified];
      var digest := event.GetStr(EVENT_DIGEST).GetOr("");
      if event.GetStr(TENANT_ID).GetOr("") != tenant { return Invalid(TenantMismatch, verified); }
      if event.U64At(SEQUENCE_NUMBER) != expectedSequence { return Invalid(SequenceGap, verified); }
      if event.GetStr(PREV_EVENT_HASH).GetOr("") != prevHash { return Invalid(ChainLinkageBroken, verified); }
      if DigestJson(c, event.Without({EVENT_DIGEST})) != digest { return Invalid(EventTampered, verified); }
      hashed := hashed + digest;
      prevHash := digest;
      expectedSequence := Next(expectedSequence);
      verified := verified + 1;
    }
    if Previous(expectedSequence) != lastSequence { return Invalid(RollbackDetected, verified); }
    if c.sha256(hashed) != rootHash { return Invalid(StreamHashMismatch, verified); }
    return Verified(verified);
  }
}
