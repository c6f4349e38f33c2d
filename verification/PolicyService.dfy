/** The policy tables as an object: installing, ensuring the baseline, and looking up. */
module PolicyService {
  import opened Prelude
  import opened Names
  import opened Json
  import opened Crypto
  import opened Policy
  import opened PolicyStore
  import Canonical
  import EventStream
  import opened EventStore

  class PolicyTables {
    const events: EventTables
    var store: Store

    constructor (events: EventTables)
      ensures this.events == events && store == PolicyStore.EMPTY
    {
      this.events := events;
      this.store := PolicyStore.EMPTY;
    }

    /** Signs and stores a bundle, retires the one before it, attests it and publishes it, all or
        nothing; the same bundle again is answered with the stored one. */
    method InstallPolicy(signer: SignerIdentity, spec: Value, issuedAt: u64) returns (r: Result<Value, StoreError>)
      modifies this, events
      ensures match Install(events.crypto, old(store), old(events.tables), signer, spec, issuedAt)
        case Ok(done) => r == Ok(done.bundle) && store == done.store && events.tables == done.events
        case Err(e) => r == Err(e) && store == old(store) && events.tables == old(events.tables)
    {
      hide SpecFault, BundleFault, SignBundle, DigestJson, ByVersion, Retire, HasDigest, Attest, EventStream.RecordEvent, StringField,
        BundleToSign;
      var fault := SpecFault(spec);
      if fault.Some? { return Err(Bad(fault.value)); }
      SpecNames(spec);
      var version, tenant := StringField(spec, POLICY_VERSION).value, StringField(spec, TENANT_ID).value;
      var body := BundleToSign(version, tenant, spec.Get(CONSTRAINTS).GetOr(Object(map[])), issuedAt, signer);
      BundleIsObject(version, tenant, spec.Get(CONSTRAINTS).GetOr(Object(map[])), issuedAt, signer);
      var digest := DigestJson(events.crypto, body);
      var bundle := SignBundle(events.crypto, signer, body);
      var bundleFault := BundleFault(events.crypto, bundle, Some(signer.publicKey));
      if bundleFault.Some? { return Err(Bad(bundleFault.value)); }
      var existing := ByVersion(store.bundles, version);
      if existing.Some? {
        if existing.value.bundle.Get(POLICY_DIGEST) == bundle.Get(POLICY_DIGEST) { return Ok(existing.value.bundle); }
        return Err(VersionConflict);
      }
      var attestation := Attest(events.crypto, signer, version, tenant, digest, issuedAt);
      // The transaction; `before` is what a rollback restores.
      var before := store;
      store := store.(bundles := Retire(store.bundles, tenant, issuedAt));
      if HasDigest(before.bundles, digest) {
        store := before;
        return Err(UniqueViolation);
      }
      store := store.(bundles := store.bundles + [PolicyRow(version, tenant, digest, issuedAt, None, bundle)]);
      store := store.(attestations := store.attestations[tenant := attestation]);
      var published := events.RecordEvent(tenant, POLICY_PUBLISHED, digest, Canonical.Text(bundle), issuedAt);
      if published.Err? {
        store := before;
        return Err(StreamFailure);
      }
      return Ok(bundle);
    }

    /** `ensure_default_policy`. */
    method EnsureDefaultPolicy(signer: SignerIdentity, issuedAt: u64) returns (r: Result<Value, StoreError>)
      modifies this, events
      ensures var lookup := EnsureDefault(events.crypto, old(store), old(events.tables), signer, issuedAt);
        r == lookup.bundle && store == lookup.store && events.tables == lookup.events
    {
      hide BundleFault, ByVersion, Attest, StringField, Install;
      var existing := ByVersion(store.bundles, DEFAULT_POLICY_VERSION);
      if existing.Some? {
        if !DefaultAttested(store) {
          var digest := StringField(existing.value.bundle, POLICY_DIGEST);
          if digest.None? { return Err(Bad(Required(POLICY_DIGEST))); }
          store := store.(attestations := store.attestations["*" := Attest(events.crypto, signer, DEFAULT_POLICY_VERSION, "*", digest.value, issuedAt)]);
        }
        var fault := BundleFault(events.crypto, existing.value.bundle, None);
        return if fault.Some? then Err(Bad(fault.value)) else Ok(existing.value.bundle);
      }
      r := InstallPolicy(signer, DEFAULT_SPEC, issuedAt);
    }

    /** `active_policy`. */
    method FindActivePolicy(signer: SignerIdentity, tenant: string, now: u64) returns (r: Result<Value, StoreError>)
      modifies this, events
      ensures var lookup := ActivePolicy(events.crypto, old(store), old(events.tables), signer, tenant, now);
        r == lookup.bundle && store == lookup.store && events.tables == lookup.events
    {
      hide EnsureDefault, CheckAttested, Attested, HadPolicy;
      var ensured := EnsureDefaultPolicy(signer, now);
      if ensured.Err? { return ensured; }
      var own := Attested(store, tenant);
      if own.Some? { return CheckAttested(events.crypto, own.value.0, own.value.1, signer); }
      if tenant != "*" && HadPolicy(store, tenant) { return Err(Retired); }
      var fallback := Attested(store, "*");
      if fallback.Some? { return CheckAttested(events.crypto, fallback.value.0, fallback.value.1, signer); }
      return Err(NotFound);
    }
  }

  lemma SpecNames(spec: Value)
    ensures SpecFault(spec).None? ==> StringField(spec, POLICY_VERSION).Some? && StringField(spec, TENANT_ID).Some?
  {
    hide ConstraintsFault, StringField;
  }

  lemma BundleIsObject(version: string, tenant: string, constraints: Value, issuedAt: u64, signer: SignerIdentity)
    ensures BundleToSign(version, tenant, constraints, issuedAt, signer).Object?
  {}
}
