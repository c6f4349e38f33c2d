/** The tables of policies and attestations, what every installation and lookup keeps, and which bundle a
    lookup finds. */
module PolicyStore {
  import opened Prelude
  import opened Names
  import opened Json
  import opened Crypto
  import opened Policy
  import Canonical
  import EventStream
  const DEFAULT_POLICY_VERSION := "tempus.baseline.v1"
  const ATTESTATION_SCHEMA := "tempus.active-policy-attestation.v1"

  datatype PolicyRow = PolicyRow(version: string, tenant: string, digest: string, issuedAt: u64,
                                 retiredAt: Option<u64>, bundle: Value)

  datatype Attestation = Attestation(version: string, digest: string, signature: string, json: Value)

  /** The tables `policy_bundles`, in insertion order, and `active_policy_attestations`. */
  datatype Store = Store(bundles: seq<PolicyRow>, attestations: map<string, Attestation>)

  const EMPTY := Store([], map[])

  datatype StoreError = Bad(fault: PolicyError) | VersionConflict | UniqueViolation | StreamFailure
    | AttestationInvalid | ActiveDigestMismatch | NotFound | Retired

  /** `policy_by_version`. */
  function ByVersion(bundles: seq<PolicyRow>, version: string): (r: Option<PolicyRow>)
    ensures r.Some? ==> r.value in bundles && r.value.version == version
    ensures r.None? ==> forall row <- bundles :: row.version != version
  {
    if bundles == [] then None
    else if bundles[|bundles| - 1].version == version then Some(bundles[|bundles| - 1])
    else ByVersion(bundles[..|bundles| - 1], version)
  }

  // ---- Documents the gate signs ----

  function BundleToSign(version: string, tenant: string, constraints: Value, issuedAt: u64, signer: SignerIdentity): Value {
    Object(map[
      SCHEMA_VERSION := String(POLICY_BUNDLE_SCHEMA),
      POLICY_VERSION := String(version),
      TENANT_ID := String(tenant),
      CONSTRAINTS := constraints,
      ISSUED_AT := Number(issuedAt),
      SIGNER := signer.ToJson()
    ])
  }

  function SignBundle(c: Crypto, signer: SignerIdentity, body: Value): Value {
    var digest := DigestJson(c, body);
    body.With(POLICY_DIGEST, String(digest)).With(SIGNATURE, String(c.sign(signer.publicKey, DigestBytes(digest))))
  }

  function AttestationToSign(version: string, tenant: string, digest: string, activatedAt: u64, signer: SignerIdentity): Value {
    Object(map[
      SCHEMA_VERSION := String(ATTESTATION_SCHEMA),
      TENANT_ID := String(tenant),
      POLICY_VERSION := String(version),
      POLICY_DIGEST := String(digest),
      "activated_at" := Number(activatedAt),
      SIGNER := signer.ToJson()
    ])
  }

  function Attest(c: Crypto, signer: SignerIdentity, version: string, tenant: string, digest: string, activatedAt: u64): Attestation {
    var json := AttestationToSign(version, tenant, digest, activatedAt, signer);
    Attestation(version, digest, c.sign(signer.publicKey, DigestBytes(DigestJson(c, json))), json)
  }

  /** The bundle a specification becomes. */
  function SpecBody(spec: Value, issuedAt: u64, signer: SignerIdentity): Value {
    BundleToSign(StringField(spec, POLICY_VERSION).GetOr(""), StringField(spec, TENANT_ID).GetOr(""),
                 spec.Get(CONSTRAINTS).GetOr(Object(map[])), issuedAt, signer)
  }

  // ---- Installing ----

  /** `UPDATE policy_bundles SET retired_at = ... WHERE tenant_id = ... AND retired_at IS NULL`. */
  function Retire(bundles: seq<PolicyRow>, tenant: string, at: u64): (r: seq<PolicyRow>)
    ensures |r| == |bundles|
  {
    seq(|bundles|, i requires 0 <= i < |bundles| =>
      if bundles[i].tenant == tenant && bundles[i].retiredAt.None? then bundles[i].(retiredAt := Some(at)) else bundles[i])
  }

  predicate HasDigest(bundles: seq<PolicyRow>, digest: string) {
    exists row <- bundles :: row.digest == digest
  }

  /** What an installation leaves: the tables and the bundle now stored under the version. */
  datatype Installed = Installed(store: Store, events: EventStream.Tables, bundle: Value)

  /** `install_policy`. */
  function Install(c: Crypto, store: Store, events: EventStream.Tables, signer: SignerIdentity, spec: Value, issuedAt: u64)
    : Result<Installed, StoreError>
  {
    match SpecFault(spec)
    case Some(fault) => Err(Bad(fault))
    case None =>
      var body := SpecBody(spec, issuedAt, signer);
      var bundle := SignBundle(c, signer, body);
      match BundleFault(c, bundle, Some(signer.publicKey))
      case Some(fault) => Err(Bad(fault))
      case None =>
        match ByVersion(store.bundles, StringField(spec, POLICY_VERSION).value)
        case Some(existing) =>
          if existing.bundle.Get(POLICY_DIGEST) == bundle.Get(POLICY_DIGEST)
          then Ok(Installed(store, events, existing.bundle))
          else Err(VersionConflict)
        case None => InsertBundle(c, store, events, signer, bundle, StringField(spec, POLICY_VERSION).value,
                                  StringField(spec, TENANT_ID).value, DigestJson(c, body), issuedAt)
  }

  /** The transaction of `install_policy`: retire, insert, attest, publish. */
  function InsertBundle(c: Crypto, store: Store, events: EventStream.Tables, signer: SignerIdentity, bundle: Value,
                        version: string, tenant: string, digest: string, issuedAt: u64): Result<Installed, StoreError>
  {
    if HasDigest(store.bundles, digest) then Err(UniqueViolation)
    else
      var row := PolicyRow(version, tenant, digest, issuedAt, None, bundle);
      var store' := Store(Retire(store.bundles, tenant, issuedAt) + [row],
                          store.attestations[tenant := Attest(c, signer, version, tenant, digest, issuedAt)]);
      match EventStream.RecordEvent(c, events, tenant, POLICY_PUBLISHED, digest, Canonical.Text(bundle), issuedAt)
      case Ok(events') => Ok(Installed(store', events', bundle))
      case Err(_) => Err(StreamFailure)
  }

  const DEFAULT_SPEC: Value := Object(map[
    SCHEMA_VERSION := String(POLICY_BUNDLE_SCHEMA),
    POLICY_VERSION := String(DEFAULT_POLICY_VERSION),
    TENANT_ID := String("*"),
    CONSTRAINTS := Object(map[
      ALLOWED_ACTION_TYPES := Array([String("*")]),
      ALLOWED_RESOURCES := Array([String("*")]),
      ALLOWED_EXECUTORS := Array([String("*")]),
      MAX_TTL_SECONDS := Number(86_400),
      MAX_INPUT_BYTES := Number(65_536),
      ALLOWED_CURRENCIES := Array([String("*")])
    ])
  ])

  // ---- Looking up ----

  /** The tables a lookup leaves, which it may change even when it fails, and its answer. */
  datatype Lookup = Lookup(store: Store, events: EventStream.Tables, bundle: Result<Value, StoreError>)

  /** The baseline is attested for every tenant. */
  predicate DefaultAttested(store: Store) {
    "*" in store.attestations && store.attestations["*"].version == DEFAULT_POLICY_VERSION
  }

  /** `ensure_default_policy`. */
  function EnsureDefault(c: Crypto, store: Store, events: EventStream.Tables, signer: SignerIdentity, now: u64): Lookup {
    match ByVersion(store.bundles, DEFAULT_POLICY_VERSION)
    case None =>
      (match Install(c, store, events, signer, DEFAULT_SPEC, now)
       case Ok(done) => Lookup(done.store, done.events, Ok(done.bundle))
       case Err(e) => Lookup(store, events, Err(e)))
    case Some(existing) =>
      if !DefaultAttested(store) && StringField(existing.bundle, POLICY_DIGEST).None?
      then Lookup(store, events, Err(Bad(Required(POLICY_DIGEST))))
      else
        var store' :=
          if DefaultAttested(store) then store
          else store.(attestations := store.attestations["*" :=
            Attest(c, signer, DEFAULT_POLICY_VERSION, "*", StringField(existing.bundle, POLICY_DIGEST).value, now)]);
        match BundleFault(c, existing.bundle, None)
        case Some(fault) => Lookup(store', events, Err(Bad(fault)))
        case None => Lookup(store', events, Ok(existing.bundle))
  }

  /** The unretired bundle a tenant's attestation names. */
  function Attested(store: Store, tenant: string): Option<(Attestation, PolicyRow)> {
    if tenant !in store.attestations then None
    else match ByVersion(store.bundles, store.attestations[tenant].version)
      case Some(row) => if row.retiredAt.None? then Some((store.attestations[tenant], row)) else None
      case None => None
  }

  /** Checks an attestation and the bundle it names against the configured signer. */
  function CheckAttested(c: Crypto, attestation: Attestation, row: PolicyRow, signer: SignerIdentity): Result<Value, StoreError> {
    if !c.verifies(signer.publicKey, DigestBytes(DigestJson(c, attestation.json)), attestation.signature) then Err(AttestationInvalid)
    else match BundleFault(c, row.bundle, Some(signer.publicKey))
      case Some(fault) => Err(Bad(fault))
      case None =>
        if row.bundle.GetStr(POLICY_DIGEST) != Some(attestation.digest) then Err(ActiveDigestMismatch)
        else Ok(row.bundle)
  }

  predicate HadPolicy(store: Store, tenant: string) {
    exists row <- store.bundles :: row.tenant == tenant
  }

  /** The part of `active_policy` after the default has been ensured. */
  function Resolve(c: Crypto, store: Store, signer: SignerIdentity, tenant: string): Result<Value, StoreError> {
    match Attested(store, tenant)
    case Some((attestation, row)) => CheckAttested(c, attestation, row, signer)
    case None =>
      if tenant != "*" && HadPolicy(store, tenant) then Err(Retired)
      else match Attested(store, "*")
        case Some((attestation, row)) => CheckAttested(c, attestation, row, signer)
        case None => Err(NotFound)
  }

  /** `active_policy`. */
  function ActivePolicy(c: Crypto, store: Store, events: EventStream.Tables, signer: SignerIdentity, tenant: string, now: u64): Lookup {
    var ensured := EnsureDefault(c, store, events, signer, now);
    match ensured.bundle
    case Err(_) => ensured
    case Ok(_) => ensured.(bundle := Resolve(c, ensured.store, signer, tenant))
  }

  // ======== What every installation and lookup keeps, and which bundle a lookup finds.

  /** The key a bundle says it was signed with. */
  function BundleKey(bundle: Value): string {
    bundle.Get(SIGNER).GetOr(Null).GetStr(PUBLIC_KEY).GetOr("")
  }

  /** A stored bundle is intact, its columns are its own, and its signer is a configured one. */
  predicate PolicyRowOk(env: Env, row: PolicyRow) {
    && BundleFault(env.crypto, row.bundle, None) == None
    && row.bundle.GetStr(POLICY_VERSION) == Some(row.version)
    && row.bundle.GetStr(TENANT_ID) == Some(row.tenant)
    && row.bundle.GetStr(POLICY_DIGEST) == Some(row.digest)
    && row.bundle.Get(SIGNER) == Some(env.signerFor(BundleKey(row.bundle)).ToJson())
  }

  predicate VersionsDistinct(bundles: seq<PolicyRow>) {
    forall i, j | 0 <= i < j < |bundles| :: bundles[i].version != bundles[j].version
  }

  /** No later row has the tenant of the `i`-th. */
  predicate LastOfTenant(bundles: seq<PolicyRow>, i: int) {
    0 <= i < |bundles| ==> forall j | i < j < |bundles| :: bundles[j].tenant != bundles[i].tenant
  }

  /** Exactly the last bundle of each tenant is unretired. */
  ghost predicate RetirementOk(bundles: seq<PolicyRow>) {
    forall i | 0 <= i < |bundles| :: bundles[i].retiredAt.None? <==> LastOfTenant(bundles, i)
  }

  /** The attestation names the tenant's last bundle, with its digest, signed by its signer. */
  predicate AttestationOk(env: Env, bundles: seq<PolicyRow>, i: int, attestation: Attestation) {
    && 0 <= i < |bundles|
    && attestation.version == bundles[i].version
    && attestation.digest == bundles[i].digest
    && env.crypto.verifies(BundleKey(bundles[i].bundle), DigestBytes(DigestJson(env.crypto, attestation.json)), attestation.signature)
  }

  ghost predicate AttestationsOk(env: Env, store: Store) {
    forall i | 0 <= i < |store.bundles| && store.bundles[i].tenant != "*" && LastOfTenant(store.bundles, i) ::
      && store.bundles[i].tenant in store.attestations
      && AttestationOk(env, store.bundles, i, store.attestations[store.bundles[i].tenant])
  }

  /** Every attestation for a tenant other than `*` belongs to a tenant with a bundle. */
  predicate AttestationsNeeded(store: Store) {
    forall tenant <- store.attestations.Keys :: tenant == "*" || HadPolicy(store, tenant)
  }

  ghost predicate StoreOk(env: Env, store: Store) {
    && VersionsDistinct(store.bundles)
    && (forall i | 0 <= i < |store.bundles| :: PolicyRowOk(env, store.bundles[i]))
    && RetirementOk(store.bundles)
    && AttestationsOk(env, store)
    && AttestationsNeeded(store)
  }

  // ---- Signing a bundle ----

  lemma SignedBundleFields(c: Crypto, signer: SignerIdentity, version: string, tenant: string, constraints: Value, issuedAt: u64)
    ensures var body := BundleToSign(version, tenant, constraints, issuedAt, signer);
      var bundle := SignBundle(c, signer, body);
      && BundleBody(bundle) == body
      && bundle.GetStr(POLICY_VERSION) == Some(version)
      && bundle.GetStr(TENANT_ID) == Some(tenant)
      && bundle.GetStr(POLICY_DIGEST) == Some(DigestJson(c, body))
      && bundle.Get(SIGNER) == Some(signer.ToJson())
      && bundle.Get(CONSTRAINTS) == Some(constraints)
      && BundleKey(bundle) == signer.publicKey
  {
    hide DigestJson, SignBundle, BundleBody;
    var body := BundleToSign(version, tenant, constraints, issuedAt, signer);
    SigningKeeps(c, signer, body);
    assert body.GetStr(POLICY_VERSION) == Some(version) && body.GetStr(TENANT_ID) == Some(tenant);
  }

  /** Signing keeps a body and adds its digest. */
  lemma SigningKeeps(c: Crypto, signer: SignerIdentity, body: Value)
    requires body.Object? && POLICY_DIGEST !in body.fields && SIGNATURE !in body.fields && STATUS !in body.fields && RETIRED_AT !in body.fields
    ensures var bundle := SignBundle(c, signer, body);
      && BundleBody(bundle) == body && bundle.GetStr(POLICY_DIGEST) == Some(DigestJson(c, body))
      && (forall k: string {:trigger bundle.Get(k)} :: k !in {POLICY_DIGEST, SIGNATURE} ==> bundle.Get(k) == body.Get(k))
  {
    hide DigestJson;
    var bundle := SignBundle(c, signer, body);
    assert bundle.fields - {POLICY_DIGEST, SIGNATURE, STATUS, RETIRED_AT} == body.fields;
  }

  /** A bundle that verifies under one key carries that key, and verifies without asking for one. */
  lemma FaultFree(c: Crypto, bundle: Value, key: string)
    ensures BundleFault(c, bundle, Some(key)).None? <==> BundleFault(c, bundle, None).None? && BundleKey(bundle) == key
  {
    hide DigestJson, SpecFault, BundleBody, IsBlank;
  }

  lemma BundleHasDigest(c: Crypto, bundle: Value)
    requires BundleFault(c, bundle, None).None?
    ensures StringField(bundle, POLICY_DIGEST).Some?
  {
    hide DigestJson, SpecFault, BundleBody, IsBlank;
  }

  // ---- Finding rows ----

  lemma {:induction false} ByVersionFinds(bundles: seq<PolicyRow>, i: nat)
    requires VersionsDistinct(bundles) && i < |bundles|
    ensures ByVersion(bundles, bundles[i].version) == Some(bundles[i])
  {
    var last := |bundles| - 1;
    if i != last {
      assert bundles[i].version != bundles[last].version;
      assert bundles[..last][i] == bundles[i];
      ByVersionFinds(bundles[..last], i);
    }
  }

  /** The bundle last installed for a tenant. */
  function LastFor(bundles: seq<PolicyRow>, tenant: string): Option<PolicyRow> {
    if bundles == [] then None
    else if bundles[|bundles| - 1].tenant == tenant then Some(bundles[|bundles| - 1])
    else LastFor(bundles[..|bundles| - 1], tenant)
  }

  lemma {:induction false} LastForIndex(bundles: seq<PolicyRow>, tenant: string) returns (i: nat)
    requires exists row <- bundles :: row.tenant == tenant
    ensures i < |bundles| && bundles[i].tenant == tenant && LastOfTenant(bundles, i)
    ensures LastFor(bundles, tenant) == Some(bundles[i])
  {
    var last := |bundles| - 1;
    if bundles[last].tenant == tenant {
      i := last;
    } else {
      var row :| row in bundles && row.tenant == tenant;
      assert bundles == bundles[..last] + [bundles[last]];
      assert row in bundles[..last];
      i := LastForIndex(bundles[..last], tenant);
      assert forall j | i < j < last :: bundles[..last][j] == bundles[j];
    }
  }

  // ---- Installing keeps the tables in order ----

  lemma RetireKeepsColumns(bundles: seq<PolicyRow>, tenant: string, at: u64)
    ensures forall i | 0 <= i < |bundles| :: Retire(bundles, tenant, at)[i] == bundles[i].(retiredAt := Retire(bundles, tenant, at)[i].retiredAt)
    ensures forall i | 0 <= i < |bundles| :: Retire(bundles, tenant, at)[i].retiredAt.None? <==> bundles[i].retiredAt.None? && bundles[i].tenant != tenant
  {}

  lemma RetirementAfterInsert(bundles: seq<PolicyRow>, row: PolicyRow, at: u64)
    requires RetirementOk(bundles) && row.retiredAt.None?
    ensures RetirementOk(Retire(bundles, row.tenant, at) + [row])
  {
    hide Retire;
    var n := |bundles|;
    var all := Retire(bundles, row.tenant, at) + [row];
    RetireKeepsColumns(bundles, row.tenant, at);
    forall i | 0 <= i < |all| ensures all[i].retiredAt.None? <==> LastOfTenant(all, i) {
      if i < n {
        assert forall j | i < j < n :: all[j].tenant == bundles[j].tenant;
        assert all[i].tenant == bundles[i].tenant;
        assert all[n].tenant == row.tenant;
        assert LastOfTenant(all, i) <==> LastOfTenant(bundles, i) && row.tenant != bundles[i].tenant;
      }
    }
  }

  lemma RowsAfterInsert(env: Env, bundles: seq<PolicyRow>, row: PolicyRow, at: u64)
    requires VersionsDistinct(bundles) && (forall i | 0 <= i < |bundles| :: PolicyRowOk(env, bundles[i]))
    requires ByVersion(bundles, row.version).None? && PolicyRowOk(env, row)
    ensures var all := Retire(bundles, row.tenant, at) + [row];
      VersionsDistinct(all) && forall i | 0 <= i < |all| :: PolicyRowOk(env, all[i])
  {
    hide Retire, BundleFault, BundleKey;
    var all := Retire(bundles, row.tenant, at) + [row];
    RetireKeepsColumns(bundles, row.tenant, at);
    assert forall r <- bundles :: r.version != row.version;
    forall i | 0 <= i < |all| ensures PolicyRowOk(env, all[i]) {
      if i < |bundles| { assert PolicyRowOk(env, bundles[i]); }
    }
  }

  lemma AttestationsAfterInsert(env: Env, store: Store, row: PolicyRow, at: u64, attestation: Attestation)
    requires AttestationsOk(env, store)
    requires attestation.version == row.version && attestation.digest == row.digest
    requires env.crypto.verifies(BundleKey(row.bundle), DigestBytes(DigestJson(env.crypto, attestation.json)), attestation.signature)
    ensures AttestationsOk(env, Store(Retire(store.bundles, row.tenant, at) + [row], store.attestations[row.tenant := attestation]))
  {
    hide Retire, BundleKey, DigestJson;
    var n := |store.bundles|;
    var store' := Store(Retire(store.bundles, row.tenant, at) + [row], store.attestations[row.tenant := attestation]);
    var all := store'.bundles;
    RetireKeepsColumns(store.bundles, row.tenant, at);
    forall i | 0 <= i < |all| && all[i].tenant != "*" && LastOfTenant(all, i)
      ensures all[i].tenant in store'.attestations
      ensures AttestationOk(env, all, i, store'.attestations[all[i].tenant])
    {
      if i < n {
        assert all[n].tenant == row.tenant;
        assert forall j | i < j < n :: all[j].tenant == store.bundles[j].tenant;
        assert LastOfTenant(store.bundles, i);
        assert AttestationOk(env, store.bundles, i, store.attestations[store.bundles[i].tenant]);
      }
    }
  }

  lemma NeededAfterInsert(store: Store, row: PolicyRow, at: u64, attestation: Attestation)
    requires AttestationsNeeded(store)
    ensures AttestationsNeeded(Store(Retire(store.bundles, row.tenant, at) + [row], store.attestations[row.tenant := attestation]))
  {
    hide Retire;
    var store' := Store(Retire(store.bundles, row.tenant, at) + [row], store.attestations[row.tenant := attestation]);
    RetireKeepsColumns(store.bundles, row.tenant, at);
    forall tenant <- store'.attestations.Keys ensures tenant == "*" || HadPolicy(store', tenant) {
      if tenant == row.tenant {
        assert row in store'.bundles;
      } else if tenant != "*" {
        var i :| 0 <= i < |store.bundles| && store.bundles[i].tenant == tenant;
        assert store'.bundles[i] in store'.bundles;
      }
    }
  }

  // ---- Every call keeps the tables in order ----

  /** The new row and its attestation are in order. */
  lemma SpecRowOk(env: Env, spec: Value, key: string, issuedAt: u64)
    requires Honest(env) && env.crypto.isPublicKey(key)
    requires SpecFault(spec).None?
    requires BundleFault(env.crypto, SignBundle(env.crypto, env.signerFor(key), SpecBody(spec, issuedAt, env.signerFor(key))), Some(key)).None?
    ensures var version, tenant := The(StringField(spec, POLICY_VERSION)), The(StringField(spec, TENANT_ID));
      var body := SpecBody(spec, issuedAt, env.signerFor(key));
      var digest := DigestJson(env.crypto, body);
      var bundle := SignBundle(env.crypto, env.signerFor(key), body);
      var attestation := Attest(env.crypto, env.signerFor(key), version, tenant, digest, issuedAt);
      && PolicyRowOk(env, PolicyRow(version, tenant, digest, issuedAt, None, bundle))
      && bundle.GetStr(POLICY_DIGEST) == Some(digest)
      && BundleKey(bundle) == key
      && env.crypto.verifies(key, DigestBytes(DigestJson(env.crypto, attestation.json)), attestation.signature)
  {
    var signer := env.signerFor(key);
    var version, tenant := StringField(spec, POLICY_VERSION).value, StringField(spec, TENANT_ID).value;
    var constraints := spec.Get(CONSTRAINTS).GetOr(Object(map[]));
    hide BundleFault, SignBundle, BundleToSign, BundleBody, DigestJson, BundleKey, SpecFault, StringField;
    assert SpecBody(spec, issuedAt, signer) == BundleToSign(version, tenant, constraints, issuedAt, signer) by { SpecHasFields(spec); }
    SignedBundleFields(env.crypto, signer, version, tenant, constraints, issuedAt);
    FaultFree(env.crypto, SignBundle(env.crypto, signer, SpecBody(spec, issuedAt, signer)), key);
  }

  lemma SpecHasFields(spec: Value)
    requires SpecFault(spec).None?
    ensures StringField(spec, POLICY_VERSION).Some? && StringField(spec, TENANT_ID).Some?
  {
    hide ConstraintsFault;
  }

  /** What an installation does when it succeeds: nothing, or one new row. */
  lemma InstallCases(env: Env, store: Store, events: EventStream.Tables, key: string, spec: Value, issuedAt: u64)
    requires Honest(env) && env.crypto.isPublicKey(key)
    requires Install(env.crypto, store, events, env.signerFor(key), spec, issuedAt).Ok?
    ensures var done := Good(Install(env.crypto, store, events, env.signerFor(key), spec, issuedAt));
      var signer := env.signerFor(key);
      var version, tenant := StringField(spec, POLICY_VERSION), StringField(spec, TENANT_ID);
      var body := SpecBody(spec, issuedAt, signer);
      var bundle := SignBundle(env.crypto, signer, body);
      && version.Some? && tenant.Some?
      && SpecFault(spec).None?
      && BundleFault(env.crypto, bundle, Some(key)).None?
      && if ByVersion(store.bundles, The(version)).Some? then
           && done.store == store && done.events == events
           && done.bundle == The(ByVersion(store.bundles, The(version))).bundle
           && done.bundle.Get(POLICY_DIGEST) == bundle.Get(POLICY_DIGEST)
         else
           InsertBundle(env.crypto, store, events, signer, bundle, The(version), The(tenant), DigestJson(env.crypto, body), issuedAt) == Ok(done)
  {
    hide BundleFault, SignBundle, SpecBody, DigestJson, SpecFault, StringField, InsertBundle, ByVersion;
    if SpecFault(spec).None? { SpecHasFields(spec); }
  }

  lemma InsertKeepsStore(env: Env, store: Store, events: EventStream.Tables, key: string, spec: Value, issuedAt: u64)
    requires Honest(env) && env.crypto.isPublicKey(key)
    requires StoreOk(env, store)
    requires SpecFault(spec).None?
    requires ByVersion(store.bundles, The(StringField(spec, POLICY_VERSION))).None?
    requires BundleFault(env.crypto, SignBundle(env.crypto, env.signerFor(key), SpecBody(spec, issuedAt, env.signerFor(key))), Some(key)).None?
    ensures var signer := env.signerFor(key);
      var body := SpecBody(spec, issuedAt, signer);
      var r := InsertBundle(env.crypto, store, events, signer, SignBundle(env.crypto, signer, body), The(StringField(spec, POLICY_VERSION)),
                            The(StringField(spec, TENANT_ID)), DigestJson(env.crypto, body), issuedAt);
      r.Ok? ==> StoreOk(env, Good(r).store)
  {
    SpecRowOk(env, spec, key, issuedAt);
    hide BundleFault, SignBundle, SpecBody, DigestJson, SpecFault, StringField, Retire, PolicyRowOk, AttestationsOk, RetirementOk,
      VersionsDistinct, AttestationsNeeded, BundleKey, ByVersion;
    var signer := env.signerFor(key);
    var version, tenant := StringField(spec, POLICY_VERSION).value, StringField(spec, TENANT_ID).value;
    var body := SpecBody(spec, issuedAt, signer);
    var digest := DigestJson(env.crypto, body);
    var row := PolicyRow(version, tenant, digest, issuedAt, None, SignBundle(env.crypto, signer, body));
    var attestation := Attest(env.crypto, signer, version, tenant, digest, issuedAt);
    RetirementAfterInsert(store.bundles, row, issuedAt);
    RowsAfterInsert(env, store.bundles, row, issuedAt);
    AttestationsAfterInsert(env, store, row, issuedAt, attestation);
    NeededAfterInsert(store, row, issuedAt, attestation);
  }

  lemma InstallKeepsStore(env: Env, store: Store, events: EventStream.Tables, key: string, spec: Value, issuedAt: u64)
    requires Honest(env) && env.crypto.isPublicKey(key)
    requires StoreOk(env, store)
    ensures var r := Install(env.crypto, store, events, env.signerFor(key), spec, issuedAt);
      r.Ok? ==> StoreOk(env, Good(r).store)
  {
    hide StoreOk, Install, InsertBundle, BundleFault, SpecFault, SignBundle, SpecBody;
    if Install(env.crypto, store, events, env.signerFor(key), spec, issuedAt).Ok? {
      InstallCases(env, store, events, key, spec, issuedAt);
      if ByVersion(store.bundles, StringField(spec, POLICY_VERSION).value).None? {
        InsertKeepsStore(env, store, events, key, spec, issuedAt);
      }
    }
  }

  lemma StarAttestationKeepsStore(env: Env, store: Store, attestation: Attestation)
    requires StoreOk(env, store)
    ensures StoreOk(env, store.(attestations := store.attestations["*" := attestation]))
  {
    hide PolicyRowOk, RetirementOk, VersionsDistinct, AttestationOk;
    var store' := store.(attestations := store.attestations["*" := attestation]);
    assert AttestationsNeeded(store') by {
      forall tenant <- store'.attestations.Keys ensures tenant == "*" || HadPolicy(store', tenant) {
        if tenant != "*" { assert HadPolicy(store, tenant); }
      }
    }
  }

  lemma EnsureKeepsStore(env: Env, store: Store, events: EventStream.Tables, key: string, now: u64)
    requires Honest(env) && env.crypto.isPublicKey(key)
    requires StoreOk(env, store)
    ensures StoreOk(env, EnsureDefault(env.crypto, store, events, env.signerFor(key), now).store)
  {
    hide StoreOk, Install, Attest, BundleFault, StringField;
    var signer := env.signerFor(key);
    match ByVersion(store.bundles, DEFAULT_POLICY_VERSION)
    case None => InstallKeepsStore(env, store, events, key, DEFAULT_SPEC, now);
    case Some(existing) =>
      StarAttestationKeepsStore(env, store,
        Attest(env.crypto, signer, DEFAULT_POLICY_VERSION, "*", StringField(existing.bundle, POLICY_DIGEST).GetOr(""), now));
  }

  lemma LookupKeepsStore(env: Env, store: Store, events: EventStream.Tables, key: string, tenant: string, now: u64)
    requires Honest(env) && env.crypto.isPublicKey(key)
    requires StoreOk(env, store)
    ensures StoreOk(env, ActivePolicy(env.crypto, store, events, env.signerFor(key), tenant, now).store)
  {
    hide StoreOk, EnsureDefault, Resolve;
    EnsureKeepsStore(env, store, events, key, now);
  }

  /** A bundle found for a signer verifies under that signer's key and carries its metadata. */
  lemma FoundBundleOk(env: Env, store: Store, events: EventStream.Tables, key: string, tenant: string, now: u64)
    requires Honest(env) && env.crypto.isPublicKey(key)
    requires StoreOk(env, store)
    requires ActivePolicy(env.crypto, store, events, env.signerFor(key), tenant, now).bundle.Ok?
    ensures var bundle := Good(ActivePolicy(env.crypto, store, events, env.signerFor(key), tenant, now).bundle);
      && BundleFault(env.crypto, bundle, Some(key)).None?
      && bundle.Get(SIGNER) == Some(env.signerFor(key).ToJson())
      && bundle.GetStr(POLICY_VERSION).Some? && bundle.GetStr(POLICY_DIGEST).Some?
  {
    hide StoreOk, EnsureDefault, BundleFault, ByVersion;
    var ensured := EnsureDefault(env.crypto, store, events, env.signerFor(key), now);
    EnsureKeepsStore(env, store, events, key, now);
    var found := if Attested(ensured.store, tenant).Some? then Attested(ensured.store, tenant).value else Attested(ensured.store, "*").value;
    var bundle := found.1.bundle;
    assert ActivePolicy(env.crypto, store, events, env.signerFor(key), tenant, now).bundle == Ok(bundle);
    assert found.1 in ensured.store.bundles;
    StoredRowOk(env, ensured.store, found.1);
    FaultFree(env.crypto, bundle, key);
  }

  lemma StoredRowOk(env: Env, store: Store, row: PolicyRow)
    requires StoreOk(env, store) && row in store.bundles
    ensures PolicyRowOk(env, row)
  {
    hide PolicyRowOk, RetirementOk, AttestationsOk, VersionsDistinct, AttestationsNeeded;
  }

  // ---- Which bundle is active ----

  /** The baseline has been installed, as bootstrapping the gate does. */
  predicate Bootstrapped(store: Store) {
    ByVersion(store.bundles, DEFAULT_POLICY_VERSION).Some?
  }

  /** Once the baseline is there, ensuring it can only renew the attestation for `*`. */
  lemma EnsureWhenBootstrapped(env: Env, store: Store, events: EventStream.Tables, key: string, now: u64)
    requires StoreOk(env, store) && Bootstrapped(store)
    ensures var e := EnsureDefault(env.crypto, store, events, env.signerFor(key), now);
      && e.bundle.Ok? && e.events == events && e.store.bundles == store.bundles
      && DefaultAttested(e.store)
      && (forall tenant :: tenant != "*" ==>
            (tenant in e.store.attestations <==> tenant in store.attestations)
            && (tenant in store.attestations ==> Entry(e.store.attestations, tenant) == Entry(store.attestations, tenant)))
  {
    hide StoreOk, BundleFault, StringField, ByVersion, PolicyRowOk;
    var existing := ByVersion(store.bundles, DEFAULT_POLICY_VERSION).value;
    assert existing in store.bundles;
    StoredRowOk(env, store, existing);
    RowHasDigest(env, existing);
  }

  lemma RowHasDigest(env: Env, row: PolicyRow)
    requires PolicyRowOk(env, row)
    ensures BundleFault(env.crypto, row.bundle, None).None? && StringField(row.bundle, POLICY_DIGEST).Some?
  {
    BundleHasDigest(env.crypto, row.bundle);
  }

  /** A tenant's own attestation leads to the last bundle installed for the tenant. */
  lemma AttestedIsLast(env: Env, store: Store, tenant: string)
    requires StoreOk(env, store) && tenant != "*" && HadPolicy(store, tenant)
    ensures LastFor(store.bundles, tenant).Some? && The(LastFor(store.bundles, tenant)) in store.bundles
    ensures tenant in store.attestations
      && Attested(store, tenant) == Some((Entry(store.attestations, tenant), The(LastFor(store.bundles, tenant))))
    ensures tenant in store.attestations && var row := The(LastFor(store.bundles, tenant));
      && Entry(store.attestations, tenant).digest == row.digest
      && env.crypto.verifies(BundleKey(row.bundle), DigestBytes(DigestJson(env.crypto, Entry(store.attestations, tenant).json)),
                             Entry(store.attestations, tenant).signature)
  {
    hide PolicyRowOk, BundleKey, DigestJson, ByVersion, LastFor;
    var i := LastForIndex(store.bundles, tenant);
    assert AttestationOk(env, store.bundles, i, store.attestations[tenant]);
    ByVersionFinds(store.bundles, i);
    assert store.bundles[i].retiredAt.None?;
  }

  /** For a tenant with a policy of its own, the active policy is the bundle last installed for it,
      when the gate's signer is the one that installed it. */
  lemma ActiveIsLastInstalled(env: Env, store: Store, events: EventStream.Tables, key: string, tenant: string, now: u64)
    requires StoreOk(env, store) && Bootstrapped(store)
    requires tenant != "*" && HadPolicy(store, tenant)
    requires Honest(env) && env.crypto.isPublicKey(key)
    ensures var found := ActivePolicy(env.crypto, store, events, env.signerFor(key), tenant, now).bundle;
      && LastFor(store.bundles, tenant).Some?
      && (BundleKey(The(LastFor(store.bundles, tenant)).bundle) == key ==> found == Ok(The(LastFor(store.bundles, tenant)).bundle))
      && (BundleKey(The(LastFor(store.bundles, tenant)).bundle) != key ==> found.Err?)
  {
    hide StoreOk, EnsureDefault, BundleFault, ByVersion, Attested, BundleKey, DigestJson, PolicyRowOk;
    EnsureWhenBootstrapped(env, store, events, key, now);
    EnsureKeepsStore(env, store, events, key, now);
    var store' := EnsureDefault(env.crypto, store, events, env.signerFor(key), now).store;
    assert HadPolicy(store', tenant);
    AttestedIsLast(env, store', tenant);
    var row := LastFor(store.bundles, tenant).value;
    StoredRowOk(env, store', row);
    FaultFree(env.crypto, row.bundle, key);
    RowDigest(env, row);
  }

  lemma RowDigest(env: Env, row: PolicyRow)
    requires PolicyRowOk(env, row)
    ensures BundleFault(env.crypto, row.bundle, None).None? && row.bundle.GetStr(POLICY_DIGEST) == Some(row.digest)
  {}

  /** Each tenant has at most one unretired bundle. */
  lemma OneUnretired(env: Env, store: Store, i: nat, j: nat)
    requires StoreOk(env, store)
    requires i < j < |store.bundles| && ItemAt(store.bundles, i).tenant == ItemAt(store.bundles, j).tenant
    ensures ItemAt(store.bundles, i).retiredAt.Some? || ItemAt(store.bundles, j).retiredAt.Some?
  {
    hide PolicyRowOk;
    assert store.bundles[i].retiredAt.None? <==> LastOfTenant(store.bundles, i);
  }

  /** A tenant without a policy of its own is served the baseline or nothing. Installing any policy
      for `*` retires the baseline, and the new policy is never found, because every lookup first
      attests the baseline again; from then on such a tenant is refused. */
  lemma WildcardNeverActive(env: Env, store: Store, events: EventStream.Tables, key: string, tenant: string, now: u64)
    requires StoreOk(env, store) && Bootstrapped(store)
    requires tenant == "*" || !HadPolicy(store, tenant)
    requires Honest(env) && env.crypto.isPublicKey(key)
    ensures var found := ActivePolicy(env.crypto, store, events, env.signerFor(key), tenant, now).bundle;
      var baseline := The(ByVersion(store.bundles, DEFAULT_POLICY_VERSION));
      && (baseline.retiredAt.Some? ==> found == Err(NotFound))
      && (found.Ok? ==> Good(found) == baseline.bundle)
  {
    hide StoreOk, EnsureDefault, BundleFault, ByVersion, CheckAttested, AttestationsOk;
    EnsureWhenBootstrapped(env, store, events, key, now);
    EnsureKeepsStore(env, store, events, key, now);
    var store' := EnsureDefault(env.crypto, store, events, env.signerFor(key), now).store;
    if tenant != "*" { NoAttestation(env, store', tenant); }
    CheckedIsItself(env.crypto, store'.attestations["*"], ByVersion(store.bundles, DEFAULT_POLICY_VERSION).value, env.signerFor(key));
  }

  lemma NoAttestation(env: Env, store: Store, tenant: string)
    requires StoreOk(env, store) && tenant != "*" && !HadPolicy(store, tenant)
    ensures tenant !in store.attestations
  {
    hide PolicyRowOk, RetirementOk, AttestationsOk, VersionsDistinct;
  }

  lemma CheckedIsItself(c: Crypto, attestation: Attestation, row: PolicyRow, signer: SignerIdentity)
    ensures CheckAttested(c, attestation, row, signer).Ok? ==> CheckAttested(c, attestation, row, signer).value == row.bundle
  {
    hide BundleFault;
  }
}
