/** How deep the documents are that the gate stores, and which stored texts are read back, over every run. */
module StoredTexts {
  import opened Prelude
  import opened Names
  import opened Json
  import opened Crypto
  import opened Canonical
  import opened Parser
  import opened ParserProofs
  import opened Identity
  import opened Permits
  import opened Policy
  import opened Gate
  import opened GateRuns
  import opened IdentityProofs
  import opened GateInv
  import Ordering
  import Decimal
  import EventStream
  import IdentityOps
  import PolicyStore
  lemma {:induction false} MembersWithin(owner: Value, keys: seq<string>, d: nat)
    requires owner.Object? && forall k <- keys :: k in owner.fields
    ensures MembersNesting(ArrangeMembers(owner, keys)) <= d <==> forall k <- keys :: Depth(owner.fields[k]) <= d
  {
    hide Arrange, Nesting;
    if keys != [] {
      MembersWithin(owner, keys[1..], d);
      var members := ArrangeMembers(owner, keys);
      assert members[0] == (keys[0], Arrange(owner.fields[keys[0]])) && members[1..] == ArrangeMembers(owner, keys[1..]);
      assert forall k <- keys :: k == keys[0] || k in keys[1..];
    }
  }

  /** An object is one level deeper than its deepest member. */
  lemma ObjectWithin(owner: Value, d: nat)
    requires owner.Object?
    ensures Depth(owner) <= d + 1 <==> forall k <- owner.fields :: Depth(owner.fields[k]) <= d
  {
    hide Ordering.SortedKeys, MembersNesting, ArrangeMembers;
    MembersWithin(owner, Ordering.SortedKeys(owner.fields.Keys), d);
  }

  lemma TextsAreFlat(text: string)
    ensures Depth(String(text)) == 0
  {}

  lemma NumbersAreFlat(n: JsonInt, flag: bool)
    ensures Depth(Number(n)) == 0 && Depth(Bool(flag)) == 0
  {}

  /** A stored document is read back exactly when it is within the parser's limit. */
  lemma StoredReadsBack(value: Value)
    ensures Parse(Text(value)) == Some(value) <==> Depth(value) <= MAX_NESTING
  {
    hide Parse, Text, Depth;
    CanonicalTextParses(value);
  }

  /** ... and for a registration, whose metadata is the caller's. */
  lemma RegistrationReadsBack(publicKey: string, alias: string, metadata: Value, canDelegate: bool, registeredAt: u64,
                              registeredBy: string, identityId: string, tenantId: string, keyVersion: u64, signerUri: string, algorithm: string)
    ensures var event := Identity.RegistrationEvent(publicKey, alias, metadata, canDelegate, registeredAt, registeredBy, identityId, tenantId,
                                                    keyVersion, signerUri, algorithm);
      Parse(Text(event)) == Some(event) <==> Depth(metadata) < MAX_NESTING
  {
    hide Parse, Text, Depth;
    var event := Identity.RegistrationEvent(publicKey, alias, metadata, canDelegate, registeredAt, registeredBy, identityId, tenantId,
                                            keyVersion, signerUri, algorithm);
    StoredReadsBack(event);
    ObjectWithin(event, MAX_NESTING - 1);
    RegistrationMembers(publicKey, alias, metadata, canDelegate, registeredAt, registeredBy, identityId, tenantId, keyVersion, signerUri, algorithm);
  }

  lemma SignerIsShallow(signer: SignerIdentity)
    ensures Depth(signer.ToJson()) <= 1
  {
    hide Depth;
    var json := signer.ToJson();
    ObjectWithin(json, 0);
    forall k | k in json.fields ensures Depth(json.fields[k]) <= 0 {
      assert json.fields[k].String?;
      TextsAreFlat(json.fields[k].text);
    }
  }

  lemma RegistrationMembers(publicKey: string, alias: string, metadata: Value, canDelegate: bool, registeredAt: u64,
                            registeredBy: string, identityId: string, tenantId: string, keyVersion: u64, signerUri: string, algorithm: string)
    ensures var event := Identity.RegistrationEvent(publicKey, alias, metadata, canDelegate, registeredAt, registeredBy, identityId, tenantId,
                                                    keyVersion, signerUri, algorithm);
      && event.Object? && METADATA in event.fields && event.fields[METADATA] == metadata
      && forall k <- event.fields :: k != METADATA ==> Depth(event.fields[k]) < MAX_NESTING
  {
    hide Depth;
    var event := Identity.RegistrationEvent(publicKey, alias, metadata, canDelegate, registeredAt, registeredBy, identityId, tenantId,
                                            keyVersion, signerUri, algorithm);
    SignerIsShallow(SignerIdentity(signerUri, Decimal.Numeral(keyVersion), algorithm, publicKey));
    forall k | k in event.fields && k != METADATA ensures Depth(event.fields[k]) < MAX_NESTING {
      var v := event.fields[k];
      if v.String? { TextsAreFlat(v.text); }
      if v.Number? { NumbersAreFlat(v.number, true); }
      if v.Bool? { NumbersAreFlat(0, v.flag); }
      if k == SIGNER { assert v == SignerIdentity(signerUri, Decimal.Numeral(keyVersion), algorithm, publicKey).ToJson(); }
    }
  }

  // ======== How deep the documents are that the gate makes: all but what its callers give are shallow, in every
  //          state a run reaches.

  /** Documents of the gate's own making are no deeper than this. */
  const SHALLOW := 4

  // ---- Small documents ----

  predicate Flat(value: Value) {
    value.String? || value.Number? || value.Bool? || value.Null?
  }

  lemma FlatIsFlat(value: Value)
    requires Flat(value)
    ensures Depth(value) == 0
  {}

  lemma {:induction false} ItemsWithin(items: seq<Value>, d: nat)
    ensures ItemsNesting(ArrangeItems(items)) <= d <==> forall v <- items :: Depth(v) <= d
  {
    hide Arrange, Nesting;
    if items != [] {
      ItemsWithin(items[1..], d);
      var docs := ArrangeItems(items);
      assert docs[0] == Arrange(items[0]) && docs[1..] == ArrangeItems(items[1..]);
      assert items[0] in items && forall v <- items[1..] :: v in items;
      assert forall v <- items :: v == items[0] || v in items[1..];
    }
  }

  /** An array is one level deeper than its deepest item. */
  lemma ArrayWithin(items: seq<Value>, d: nat)
    ensures Depth(Array(items)) <= d + 1 <==> forall v <- items :: Depth(v) <= d
  {
    hide ItemsNesting, ArrangeItems;
    ItemsWithin(items, d);
  }

  lemma {:induction false} TextsFlat(values: seq<Value>)
    requires Texts(values).Some?
    ensures forall v <- values :: v.String?
  {
    if values != [] { TextsFlat(values[1..]); }
  }

  lemma PatternsShallow(value: Option<Value>, field: string)
    requires PatternList(value, field).Ok?
    ensures value.Some? && Depth(value.value) <= 1
  {
    hide Depth, Texts;
    var items := value.value.items;
    TextsFlat(items);
    forall v | v in items ensures Depth(v) <= 0 { FlatIsFlat(v); }
    ArrayWithin(items, 0);
  }

  /** Sound constraints are lists of texts and numbers. */
  lemma ConstraintsShallow(constraints: Value)
    requires constraints.Object? && ConstraintsFault(constraints).None?
    ensures Depth(constraints) <= 2
    ensures PatternList(constraints.Get(ALLOWED_EXECUTORS), ALLOWED_EXECUTORS).Ok?
  {
    hide Depth, PatternList;
    forall k | k in constraints.fields ensures Depth(constraints.fields[k]) <= 1 {
      assert constraints.Get(k) == Some(constraints.fields[k]);
      ConstraintShallow(constraints, k);
    }
    ObjectWithin(constraints, 1);
  }

  lemma ConstraintShallow(constraints: Value, k: string)
    requires constraints.Object? && ConstraintsFault(constraints).None? && k in constraints.fields
    ensures Depth(constraints.fields[k]) <= 1
  {
    hide Depth, PatternList;
    assert k in POLICY_FIELDS;
    assert constraints.Get(k) == Some(constraints.fields[k]);
    if k in {MAX_TTL_SECONDS, MAX_INPUT_BYTES, MAX_MONEY_AMOUNT_MINOR} {
      assert constraints.GetU64(k).Some?;
      FlatIsFlat(constraints.fields[k]);
    } else {
      PatternsShallow(constraints.Get(k), k);
    }
  }

  lemma SignerShallow(signer: SignerIdentity)
    ensures Depth(signer.ToJson()) <= 1
  {
    SignerIsShallow(signer);
  }

  // ---- Policies ----

  lemma SpecShallow(spec: Value)
    requires SpecFault(spec).None?
    ensures spec.Get(CONSTRAINTS).Some? && Depth(spec.Get(CONSTRAINTS).value) <= 2
  {
    hide Depth, ConstraintsFault, IsBlank;
    ConstraintsShallow(MemberObject(spec, CONSTRAINTS).value);
  }

  lemma BundleShallow(c: Crypto, signer: SignerIdentity, version: string, tenant: string, constraints: Value, issuedAt: u64)
    requires Depth(constraints) <= 2
    ensures var bundle := PolicyStore.SignBundle(c, signer, PolicyStore.BundleToSign(version, tenant, constraints, issuedAt, signer));
      Depth(bundle) < SHALLOW
  {
    hide Depth, DigestJson, SignerIdentity.ToJson;
    var bundle := PolicyStore.SignBundle(c, signer, PolicyStore.BundleToSign(version, tenant, constraints, issuedAt, signer));
    SignerShallow(signer);
    forall k | k in bundle.fields ensures Depth(bundle.fields[k]) <= 2 {
      if Flat(bundle.fields[k]) { FlatIsFlat(bundle.fields[k]); }
    }
    ObjectWithin(bundle, 2);
  }

  ghost predicate StoreShallow(store: PolicyStore.Store) {
    forall row <- store.bundles :: Depth(row.bundle) < SHALLOW
  }

  lemma InstallShallow(c: Crypto, store: PolicyStore.Store, events: EventStream.Tables, signer: SignerIdentity, spec: Value, now: u64)
    requires StoreShallow(store)
    ensures var r := PolicyStore.Install(c, store, events, signer, spec, now);
      r.Ok? ==> StoreShallow(Good(r).store)
  {
    hide Depth, BundleFault, SpecFault, PolicyStore.SignBundle, DigestJson, EventStream.RecordEvent, PolicyStore.Attest, StringField,
      Canonical.Text, PolicyStore.BundleToSign;
    var r := PolicyStore.Install(c, store, events, signer, spec, now);
    if r.Ok? {
      SpecShallow(spec);
      BundleShallow(c, signer, StringField(spec, POLICY_VERSION).GetOr(""), StringField(spec, TENANT_ID).GetOr(""),
                    spec.Get(CONSTRAINTS).GetOr(Object(map[])), now);
      forall row | row in r.value.store.bundles ensures Depth(row.bundle) < SHALLOW {}
    }
  }

  lemma LookupShallow(c: Crypto, store: PolicyStore.Store, events: EventStream.Tables, signer: SignerIdentity, tenant: string, now: u64)
    requires StoreShallow(store)
    ensures StoreShallow(PolicyStore.EnsureDefault(c, store, events, signer, now).store)
    ensures var r := PolicyStore.ActivePolicy(c, store, events, signer, tenant, now);
      StoreShallow(r.store) && (r.bundle.Ok? ==> Depth(Good(r.bundle)) < SHALLOW)
  {
    hide Depth, PolicyStore.Install, BundleFault, StringField, PolicyStore.Attest, DigestJson;
    InstallShallow(c, store, events, signer, PolicyStore.DEFAULT_SPEC, now);
  }

  // ---- Receipts ----

  lemma EvaluatedShallow(c: Crypto, bundle: Value, intent: Value, ttlSeconds: u64)
    requires EvaluatePolicy(c, bundle, intent, ttlSeconds).Ok?
    ensures Depth(Good(EvaluatePolicy(c, bundle, intent, ttlSeconds)).executorConstraints) <= 2
  {
    hide Depth, DigestJson, DenialReasons, ConstraintsFault, IsBlank, PatternList;
    var constraints := MemberObject(bundle, CONSTRAINTS).value;
    assert BundleBody(bundle).Get(CONSTRAINTS) == bundle.Get(CONSTRAINTS);
    ConstraintsShallow(constraints);
    PatternsShallow(constraints.Get(ALLOWED_EXECUTORS), ALLOWED_EXECUTORS);
    var limits := ExecutorConstraints(constraints);
    forall k | k in limits.fields ensures Depth(limits.fields[k]) <= 1 {}
    ObjectWithin(limits, 1);
  }

  lemma ReasonsShallow(texts: seq<string>)
    ensures Depth(TextArray(texts)) <= 1
  {
    hide Depth;
    var items := TextArray(texts).items;
    forall v | v in items ensures Depth(v) <= 0 { FlatIsFlat(v); }
    ArrayWithin(items, 0);
  }

  /** All members of an object but one are shallow. */
  ghost predicate Around(owner: Value, key: string) {
    owner.Object? && key in owner.fields && forall k <- owner.fields :: k != key ==> Depth(owner.fields[k]) < SHALLOW
  }

  /** Such an object is read back exactly when the one member is at most 126 deep. */
  lemma AroundReadsBack(owner: Value, key: string)
    requires Around(owner, key)
    ensures Parse(Canonical.Text(owner)) == Some(owner) <==> Depth(owner.fields[key]) < MAX_NESTING
  {
    hide Parse, Canonical.Text, Depth;
    StoredReadsBack(owner);
    ObjectWithin(owner, MAX_NESTING - 1);
  }

  lemma AuthorizationReceiptShallow(c: Crypto, actionId: string, fields: IntentFields, intentHash: string, decision: Permits.Decision,
                                    policyVersion: string, policyDigest: string, policy: PolicyDecision, issuedAt: u64, expiresAt: u64,
                                    signer: SignerIdentity, gate: string)
    requires Depth(policy.executorConstraints) <= 2
    ensures Depth(Receipt(c, AuthorizationBody(actionId, fields, intentHash, decision, policyVersion, policyDigest, policy, issuedAt, expiresAt, signer),
                          AUTHORIZATION_ID, gate)) < SHALLOW
  {
    hide Depth, DigestJson, SignerIdentity.ToJson, TextArray;
    SignerShallow(signer);
    ReasonsShallow(decision.reasonCodes);
    var receipt := Receipt(c, AuthorizationBody(actionId, fields, intentHash, decision, policyVersion, policyDigest, policy, issuedAt, expiresAt, signer),
                           AUTHORIZATION_ID, gate);
    forall k | k in receipt.fields ensures Depth(receipt.fields[k]) <= 2 {
      if Flat(receipt.fields[k]) { FlatIsFlat(receipt.fields[k]); }
    }
    ObjectWithin(receipt, 2);
  }

  /** The bodies of receipts are as shallow. */
  lemma AuthorizationBodyShallow(actionId: string, fields: IntentFields, intentHash: string, decision: Permits.Decision,
                                 policyVersion: string, policyDigest: string, policy: PolicyDecision, issuedAt: u64, expiresAt: u64, signer: SignerIdentity)
    requires Depth(policy.executorConstraints) <= 2
    ensures Depth(AuthorizationBody(actionId, fields, intentHash, decision, policyVersion, policyDigest, policy, issuedAt, expiresAt, signer)) < SHALLOW
  {
    hide Depth, SignerIdentity.ToJson, TextArray;
    SignerShallow(signer);
    ReasonsShallow(decision.reasonCodes);
    var body := AuthorizationBody(actionId, fields, intentHash, decision, policyVersion, policyDigest, policy, issuedAt, expiresAt, signer);
    forall k | k in body.fields ensures Depth(body.fields[k]) <= 2 {
      if Flat(body.fields[k]) { FlatIsFlat(body.fields[k]); }
    }
    ObjectWithin(body, 2);
  }

  lemma ExecutionBodyShallow(id: string, actionId: string, intentHash: string, outcomeHash: string, executorId: string,
                             status: string, completedAt: u64, gate: string)
    ensures Depth(ExecutionBody(id, actionId, intentHash, outcomeHash, executorId, status, completedAt, gate)) < SHALLOW
  {
    hide Depth;
    var body := ExecutionBody(id, actionId, intentHash, outcomeHash, executorId, status, completedAt, gate);
    forall k | k in body.fields ensures Depth(body.fields[k]) <= 0 { FlatIsFlat(body.fields[k]); }
    ObjectWithin(body, 0);
  }

  lemma ExecutionReceiptShallow(c: Crypto, id: string, actionId: string, intentHash: string, outcomeHash: string, executorId: string,
                                status: string, completedAt: u64, gate: string)
    ensures Depth(Receipt(c, ExecutionBody(id, actionId, intentHash, outcomeHash, executorId, status, completedAt, gate), RECEIPT_ID, gate)) < SHALLOW
  {
    hide Depth, DigestJson;
    var receipt := Receipt(c, ExecutionBody(id, actionId, intentHash, outcomeHash, executorId, status, completedAt, gate), RECEIPT_ID, gate);
    forall k | k in receipt.fields ensures Depth(receipt.fields[k]) <= 0 { FlatIsFlat(receipt.fields[k]); }
    ObjectWithin(receipt, 0);
  }

  lemma ResultAround(receipt: Value, intent: Value, agentSignature: string, bundle: Value)
    requires Depth(receipt) < SHALLOW && Depth(bundle) < SHALLOW
    ensures Around(AuthorizationResult(receipt, intent, agentSignature, bundle), INTENT)
    ensures AuthorizationResult(receipt, intent, agentSignature, bundle).Get(INTENT) == Some(intent)
  {
    hide Depth;
    FlatIsFlat(String(agentSignature));
    FlatIsFlat(String(AUTHORIZATION_RESULT_SCHEMA));
  }

  lemma ExecutionAround(receipt: Value, outcome: Value)
    requires Depth(receipt) < SHALLOW
    ensures Around(ExecutionResult(receipt, outcome), OUTCOME)
    ensures ExecutionResult(receipt, outcome).Get(OUTCOME) == Some(outcome)
  {
    hide Depth;
    FlatIsFlat(String(EXECUTION_RESULT_SCHEMA));
  }

  // ---- Registrations ----

  lemma RegistrationAround(publicKey: string, alias: string, metadata: Value, canDelegate: bool, registeredAt: u64,
                           registeredBy: string, identityId: string, tenantId: string, keyVersion: u64, signerUri: string, algorithm: string)
    ensures var event := RegistrationEvent(publicKey, alias, metadata, canDelegate, registeredAt, registeredBy, identityId, tenantId,
                                           keyVersion, signerUri, algorithm);
      Around(event, METADATA) && event.Get(METADATA) == Some(metadata)
  {
    hide Depth, Decimal.Numeral, SignerIdentity.ToJson;
    var event := RegistrationEvent(publicKey, alias, metadata, canDelegate, registeredAt, registeredBy, identityId, tenantId,
                                   keyVersion, signerUri, algorithm);
    SignerShallow(SignerIdentity(signerUri, Decimal.Numeral(keyVersion), algorithm, publicKey));
    forall k | k in event.fields && k != METADATA ensures Depth(event.fields[k]) < SHALLOW {
      if Flat(event.fields[k]) { FlatIsFlat(event.fields[k]); }
    }
  }

  lemma RotatedAround(event: Value, id: string)
    requires Around(event, METADATA)
    ensures Around(event.With(ROTATION_EVENT_ID, String(id)), METADATA)
    ensures event.With(ROTATION_EVENT_ID, String(id)).Get(METADATA) == event.Get(METADATA)
  {
    hide Depth;
    FlatIsFlat(String(id));
  }

  lemma EventShallow(c: Crypto, event: Value, signer: SignerIdentity)
    requires Depth(event) <= 2
    ensures Depth(SignedEvent(c, event, signer)) < SHALLOW
  {
    hide Depth, DigestJson;
    var signed := SignedEvent(c, event, signer);
    forall k | k in signed.fields ensures Depth(signed.fields[k]) <= 2 {
      if Flat(signed.fields[k]) { FlatIsFlat(signed.fields[k]); }
    }
    ObjectWithin(signed, 2);
  }

  lemma LifecycleShallow(identityId: string, tenantId: string, previousKey: string, publicKey: string, previous: u64, next: u64, at: u64,
                         reason: string, signer: SignerIdentity)
    ensures Depth(RotationEvent(identityId, tenantId, previousKey, publicKey, previous, next, at, signer)) <= 2
    ensures Depth(RevocationEvent(identityId, tenantId, publicKey, at, reason, signer)) <= 2
  {
    hide Depth, SignerIdentity.ToJson;
    SignerShallow(signer);
    var rotation := RotationEvent(identityId, tenantId, previousKey, publicKey, previous, next, at, signer);
    forall k | k in rotation.fields ensures Depth(rotation.fields[k]) <= 1 {
      if Flat(rotation.fields[k]) { FlatIsFlat(rotation.fields[k]); }
    }
    ObjectWithin(rotation, 1);
    var revocation := RevocationEvent(identityId, tenantId, publicKey, at, reason, signer);
    forall k | k in revocation.fields ensures Depth(revocation.fields[k]) <= 1 {
      if Flat(revocation.fields[k]) { FlatIsFlat(revocation.fields[k]); }
    }
    ObjectWithin(revocation, 1);
  }

  // ======== Which stored texts are read back, over every run: those whose caller's document is at most 126
  //          levels deep, and of those the traces whose documents are at most 125.

  // ---- What the tables hold ----

  /** A registration's document holds its metadata, and nothing else that is deep. */
  ghost predicate RegistrationShape(row: AgentRow) {
    Around(row.event, METADATA) && row.event.Get(METADATA) == Some(row.metadata)
  }

  ghost predicate RegistryShapes(reg: Registry) {
    && (forall key {:trigger key in reg.agents} :: key in reg.agents ==> RegistrationShape(reg.agents[key]))
    && (forall row <- reg.lifecycle :: Depth(row.json) < SHALLOW)
  }

  ghost predicate PermitShapes(p: PermitTables) {
    && (forall id {:trigger id in p.authorizations} :: id in p.authorizations ==> Around(p.authorizations[id].json, INTENT))
    && (forall id {:trigger id in p.outcomes} :: id in p.outcomes ==> Around(p.outcomes[id].json, OUTCOME))
  }

  ghost predicate Shapes(db: Db) {
    RegistryShapes(db.registry) && StoreShallow(db.policies) && PermitShapes(db.permits)
  }

  // ---- Keys ----

  lemma RowShape(env: Env, reg: Registry, registrar: string, publicKey: string, alias: string, metadata: Value, profile: KeyProfile, tenantId: string, now: u64)
    ensures RegistrationShape(RegistrationRow(env, reg, registrar, publicKey, alias, metadata, profile, tenantId, now))
  {
    hide Around, RegistrationEvent, DigestJson;
    var row := RegistrationRow(env, reg, registrar, publicKey, alias, metadata, profile, tenantId, now);
    RegistrationAround(publicKey, alias, metadata, row.canDelegate, now, registrar, publicKey, tenantId, profile.keyVersion, profile.signerUri, profile.algorithm);
  }

  lemma AddShapes(reg: Registry, key: string, row: AgentRow)
    requires RegistryShapes(reg) && RegistrationShape(row)
    ensures RegistryShapes(AddAgent(reg, key, row))
  {
    hide Around, RegistrationShape;
  }

  lemma RetireShapes(reg: Registry, key: string, kind: Kind, e: LifecycleRow, now: u64)
    requires RegistryShapes(reg) && key in reg.agents && Depth(e.json) < SHALLOW
    ensures RegistryShapes(RetireKey(reg, key, kind, e, now))
  {
    hide Around, Depth;
  }

  lemma RegisterShapes(env: Env, db: Db, registrar: string, publicKey: string, alias: string, metadata: Option<Value>, now: u64)
    requires Grounded(db.registry) && Shapes(db)
    ensures Shapes(Register(env, db, registrar, publicKey, alias, metadata, now).db)
  {
    hide Grounded, PrepareRegistration, RegistryShapes, RegistrationShape, StoreShallow, PermitShapes, PolicyStore.EnsureDefault,
      EventStream.RecordEvent, LookupSigns, Canonical.Text, AddAgent, RegistrationRow, Profile;
    LookupShallow(env.crypto, db.policies, db.streams, env.signerFor(registrar), "*", now);
    if PrepareRegistration(env, db.registry, registrar, publicKey, alias, metadata, now).Ok? {
      IdentityOps.PreparedMeans(env, db.registry, registrar, publicKey, alias, metadata, now);
      RowShape(env, db.registry, registrar, publicKey, alias, metadata.value, Profile(env, publicKey, registrar, metadata.value).value,
               metadata.value.GetStr(TENANT_ID).GetOr("*"), now);
      AddShapes(db.registry, publicKey, PrepareRegistration(env, db.registry, registrar, publicKey, alias, metadata, now).value);
    }
  }

  /** A rotated registration carries the metadata of the key it replaces. */
  lemma RotatedShape(env: Env, row: AgentRow, gate: string, currentKey: string, newKey: string, now: u64)
    requires row.keyVersion < U64_MAX
    ensures RegistrationShape(IdentityOps.RotatedRow(env, row, gate, currentKey, newKey, now))
    ensures Depth(IdentityOps.RotationRow(env, row, gate, currentKey, newKey, now).json) < SHALLOW
  {
    hide Around, RegistrationEvent, DigestJson, RotationEvent, Depth, SignedEvent;
    RegistrationAround(newKey, row.alias, row.metadata, row.canDelegate, now, gate, row.identityId, row.tenantId, NextVersion(row.keyVersion),
                       "local-ed25519://" + newKey, SIGNATURE_ALGORITHM);
    var event := RegistrationEvent(newKey, row.alias, row.metadata, row.canDelegate, now, gate, row.identityId, row.tenantId,
                                   NextVersion(row.keyVersion), "local-ed25519://" + newKey, SIGNATURE_ALGORITHM);
    RegistrationIsObject(newKey, row.alias, row.metadata, row.canDelegate, now, gate, row.identityId, row.tenantId, NextVersion(row.keyVersion),
                         "local-ed25519://" + newKey, SIGNATURE_ALGORITHM);
    RotatedAround(event, DigestJson(env.crypto, RotationOf(env, row, gate, currentKey, newKey, now)));
    LifecycleShallow(row.identityId, row.tenantId, currentKey, newKey, row.keyVersion, NextVersion(row.keyVersion), now, "", env.signerFor(gate));
    EventShallow(env.crypto, RotationOf(env, row, gate, currentKey, newKey, now), env.signerFor(gate));
  }

  lemma RegistrationIsObject(publicKey: string, alias: string, metadata: Value, canDelegate: bool, registeredAt: u64,
                             registeredBy: string, identityId: string, tenantId: string, keyVersion: u64, signerUri: string, algorithm: string)
    ensures RegistrationEvent(publicKey, alias, metadata, canDelegate, registeredAt, registeredBy, identityId, tenantId, keyVersion, signerUri, algorithm).Object?
  {}

  lemma RotateShapes(env: Env, reg: Registry, gate: string, currentKey: string, newKey: string, now: u64)
    requires Grounded(reg) && RegistryShapes(reg) && RotateAgent(env, reg, gate, currentKey, newKey, now).Ok?
    ensures RegistryShapes(Good(RotateAgent(env, reg, gate, currentKey, newKey, now)))
  {
    hide Grounded, RotationFault, RotateAgent, RegistryShapes, RegistrationShape, Depth, RetireKey, AddAgent, IdentityOps.RotatedRow,
      IdentityOps.RotationRow;
    IdentityOps.RotateOkMeans(env, reg, gate, currentKey, newKey, now);
    IdentityOps.RotationSplits(env, reg, gate, currentKey, newKey, now);
    var row := reg.agents[currentKey];
    RotatedShape(env, row, gate, currentKey, newKey, now);
    var e := IdentityOps.RotationRow(env, row, gate, currentKey, newKey, now);
    RetireShapes(reg, currentKey, Rotate, e, now);
    AddShapes(RetireKey(reg, currentKey, Rotate, e, now), newKey, IdentityOps.RotatedRow(env, row, gate, currentKey, newKey, now));
  }

  lemma RevokeShapes(env: Env, reg: Registry, gate: string, publicKey: string, reason: string, now: u64)
    requires Grounded(reg) && RegistryShapes(reg) && RevokeAgent(env, reg, gate, publicKey, reason, now).Ok?
    ensures RegistryShapes(Good(RevokeAgent(env, reg, gate, publicKey, reason, now)))
  {
    hide Grounded, RevocationFault, RegistryShapes, RegistrationShape, Depth, RevocationEvent, SignedEvent, DigestJson, RetireRow;
    RevocationFaultNone(env, reg, gate, publicKey, reason, now);
    IdentityOps.RevocationMeans(env, reg, gate, publicKey, reason, now);
    var row := reg.agents[publicKey];
    LifecycleShallow(row.identityId, row.tenantId, publicKey, publicKey, 0, 0, now, reason, env.signerFor(gate));
    EventShallow(env.crypto, RevocationOf(env, row, gate, publicKey, reason, now), env.signerFor(gate));
    RetireShapes(reg, publicKey, Revoke, IdentityOps.RevocationRow(env, row, gate, publicKey, reason, now), now);
  }

  // ---- Requests and outcomes ----

  lemma DraftShape(env: Env, fields: IntentFields, intent: Value, agentSignature: string, gate: string, bundle: Value,
                   policy: PolicyDecision, decision: Permits.Decision, issuedAt: u64, expiresAt: u64)
    requires Depth(bundle) < SHALLOW && Depth(policy.executorConstraints) <= 2
    ensures Around(AuthorizationDraft(env, fields, intent, agentSignature, gate, bundle, policy, decision, issuedAt, expiresAt).1.json, INTENT)
  {
    hide Around, Depth, DigestJson, AuthorizationBody, AuthorizationResult, Receipt, StringField, ActionIdFor;
    var body := AuthorizationBody(ActionIdFor(env.crypto, fields), fields, DigestJson(env.crypto, intent), decision, StringField(bundle, POLICY_VERSION).GetOr(""),
                                  StringField(bundle, POLICY_DIGEST).GetOr(""), policy, issuedAt, expiresAt, env.signerFor(gate));
    AuthorizationReceiptShallow(env.crypto, ActionIdFor(env.crypto, fields), fields, DigestJson(env.crypto, intent), decision,
                                StringField(bundle, POLICY_VERSION).GetOr(""), StringField(bundle, POLICY_DIGEST).GetOr(""), policy, issuedAt, expiresAt,
                                env.signerFor(gate), gate);
    BodyIsObject(ActionIdFor(env.crypto, fields), fields, DigestJson(env.crypto, intent), decision, StringField(bundle, POLICY_VERSION).GetOr(""),
                 StringField(bundle, POLICY_DIGEST).GetOr(""), policy, issuedAt, expiresAt, env.signerFor(gate));
    ResultAround(Receipt(env.crypto, body, AUTHORIZATION_ID, gate), intent, agentSignature, bundle);
  }

  lemma BodyIsObject(actionId: string, fields: IntentFields, intentHash: string, decision: Permits.Decision, policyVersion: string, policyDigest: string,
                     policy: PolicyDecision, issuedAt: u64, expiresAt: u64, signer: SignerIdentity)
    ensures AuthorizationBody(actionId, fields, intentHash, decision, policyVersion, policyDigest, policy, issuedAt, expiresAt, signer).Object?
  {}

  /** The row a request would write, if it would write one. */
  ghost predicate DraftOk(answer: Result<Draft<AuthorizationRow>, GateError>) {
    match answer
    case Ok(ToWrite(_, row)) => Around(row.json, INTENT)
    case _ => true
  }

  lemma IssueShapes(env: Env, db: Db, gate: string, intent: Value, fields: IntentFields, agentSignature: string, ttlSeconds: u64, bundle: Value, now: u64)
    requires Grounded(db.registry) && Depth(bundle) < SHALLOW
    ensures DraftOk(IssueDecision(env, db, gate, intent, fields, agentSignature, ttlSeconds, bundle, now).answer)
    ensures var db' := IssueDecision(env, db, gate, intent, fields, agentSignature, ttlSeconds, bundle, now).db;
      db'.registry == db.registry && db'.policies == db.policies && db'.permits == db.permits
  {
    hide Grounded, VerifyAgentInner, EvaluatePolicy, Depth, AuthorizationDraft, BodyOf, Decide, Canonical.Text, Around;
    if EvaluatePolicy(env.crypto, bundle, intent, ttlSeconds).Ok? && VerifyAgentAt(env.crypto, db.registry, fields.agentId, now).Ok?
       && now + ttlSeconds * MICROS_PER_SECOND <= U64_MAX {
      EvaluatedShallow(env.crypto, bundle, intent, ttlSeconds);
      var policy := EvaluatePolicy(env.crypto, bundle, intent, ttlSeconds).value;
      var agent := VerifyAgentAt(env.crypto, db.registry, fields.agentId, now).value;
      var decision := Decide(env.crypto.verifies(fields.agentId, TextBytes(Canonical.Text(intent)), agentSignature), agent, fields, now, policy);
      DraftShape(env, fields, intent, agentSignature, gate, bundle, policy, decision, now, Expiry(now, ttlSeconds));
    }
  }

  lemma BeginShapes(env: Env, db: Db, gate: string, intent: Option<Value>, agentId: string, agentSignature: string, ttlSeconds: u64, now: u64)
    requires Grounded(db.registry) && Shapes(db)
    ensures var r := BeginRequest(env, db, gate, intent, agentId, agentSignature, ttlSeconds, now);
      Shapes(r.db) && DraftOk(r.answer)
  {
    hide Grounded, GateIdentity, PolicyStore.ActivePolicy, LookupSigns, IssueDecision, ValidateIntent, ActionIdFor, DigestJson,
      VerifyAuthorization, RegistryShapes, PermitShapes, StoreShallow, Depth, Around;
    if intent.Some? && ValidateIntent(intent.value, agentId).Some? {
      var fields := ValidateIntent(intent.value, agentId).value;
      var signer := env.signerFor(gate);
      LookupShallow(env.crypto, db.policies, db.streams, signer, fields.tenantId, now);
      var lookup := PolicyStore.ActivePolicy(env.crypto, db.policies, db.streams, signer, fields.tenantId, now);
      if lookup.bundle.Ok? {
        var db1 := db.(policies := lookup.store, streams := lookup.events, signed := db.signed + LookupSigns(env.crypto, db.policies, signer, now));
        IssueShapes(env, db1, gate, intent.value, fields, agentSignature, ttlSeconds, lookup.bundle.value, now);
      }
    }
  }

  lemma RequestShapes(env: Env, db: Db, gate: string, intent: Option<Value>, agentId: string, agentSignature: string, ttlSeconds: u64, now: u64)
    requires Grounded(db.registry) && Shapes(db)
    ensures Shapes(Request(env, db, gate, intent, agentId, agentSignature, ttlSeconds, now).db)
  {
    hide Grounded, BeginRequest, EventStream.RecordEvent, RegistryShapes, StoreShallow, Around, Canonical.Text;
    BeginShapes(env, db, gate, intent, agentId, agentSignature, ttlSeconds, now);
  }

  lemma OutcomeShape(env: Env, id: string, permit: Value, outcome: Value, executorId: string, status: string, gate: string, now: u64)
    ensures Around(OutcomeDraft(env, id, permit, outcome, executorId, status, gate, now).json, OUTCOME)
  {
    hide Around, Depth, DigestJson, ExecutionBody, ExecutionResult, Receipt, StringField, OutcomeToSign;
    var actionId := StringField(permit, ACTION_ID).GetOr("");
    var intentHash, outcomeHash := StringField(permit, INTENT_HASH).GetOr(""), DigestJson(env.crypto, OutcomeToSign(outcome));
    ExecutionReceiptShallow(env.crypto, id, actionId, intentHash, outcomeHash, executorId, status, now, gate);
    ExecutionIsObject(id, actionId, intentHash, outcomeHash, executorId, status, now, gate);
    ExecutionAround(Receipt(env.crypto, ExecutionBody(id, actionId, intentHash, outcomeHash, executorId, status, now, gate), RECEIPT_ID, gate), outcome);
  }

  lemma ExecutionIsObject(id: string, actionId: string, intentHash: string, outcomeHash: string, executorId: string, status: string, completedAt: u64, gate: string)
    ensures ExecutionBody(id, actionId, intentHash, outcomeHash, executorId, status, completedAt, gate).Object?
  {}

  ghost predicate OutcomeDraftOk(answer: Result<Draft<OutcomeRow>, GateError>) {
    match answer
    case Ok(ToWrite(_, row)) => Around(row.json, OUTCOME)
    case _ => true
  }

  lemma BeginCommitShapes(env: Env, db: Db, gate: string, id: string, outcome: Option<Value>, now: u64)
    requires Grounded(db.registry) && Shapes(db)
    ensures var r := BeginCommit(env, db, gate, id, outcome, now);
      Shapes(r.db) && OutcomeDraftOk(r.answer)
  {
    hide Grounded, PermitRefusal, ExecutorRefusal, VerifyExecution, ValidateOutcome, StringField, DigestJson, GateIdentity, OutcomeDraft,
      ExecutionBodyOf, RegistryShapes, PermitShapes, StoreShallow, Around, OutcomeToSign;
    forall permit: Value, o: Value, executorId: string, status: string
      ensures Around(OutcomeDraft(env, id, permit, o, executorId, status, gate, now).json, OUTCOME)
    {
      OutcomeShape(env, id, permit, o, executorId, status, gate, now);
    }
  }

  lemma CommitShapes(env: Env, db: Db, gate: string, id: string, outcome: Option<Value>, now: u64)
    requires Grounded(db.registry) && Shapes(db)
    ensures Shapes(Commit(env, db, gate, id, outcome, now).db)
  {
    hide Grounded, BeginCommit, EventStream.RecordEvent, RegistryShapes, StoreShallow, Around, Canonical.Text, OutcomeEvent;
    BeginCommitShapes(env, db, gate, id, outcome, now);
  }

  // ---- Every run ----

  /** Every call keeps the shapes. */
  lemma StepShapes(env: Env, db: Db, call: Call, now: u64)
    requires Shapes(db)
    ensures Shapes(GateRuns.Step(env, db, call, now))
  {
    hide Grounded, Register, RotateAgent, RevokeAgent, PolicyStore.Install, SpecSigns, Request, Commit, RegistryShapes, StoreShallow,
      Around, RevocablePermits, RotationOf, RotatedRegistration, RevocationOf, DigestJson;
    if !Grounded(db.registry) { return; }
    match call
    case RegisterCall(registrar, publicKey, alias, metadata) => RegisterShapes(env, db, registrar, publicKey, alias, metadata, now);
    case RotateCall(gate, currentKey, newKey) =>
      if RotateAgent(env, db.registry, gate, currentKey, newKey, now).Ok? { RotateShapes(env, db.registry, gate, currentKey, newKey, now); }
    case RevokeCall(gate, publicKey, reason) =>
      if RevokeAgent(env, db.registry, gate, publicKey, reason, now).Ok? { RevokeShapes(env, db.registry, gate, publicKey, reason, now); }
    case InstallCall(gate, spec) =>
      if spec.Some? { InstallShallow(env.crypto, db.policies, db.streams, env.signerFor(gate), spec.value, now); }
    case RequestCall(gate, intent, agentId, agentSignature, ttlSeconds) => RequestShapes(env, db, gate, intent, agentId, agentSignature, ttlSeconds, now);
    case CommitCall(gate, id, outcome) => CommitShapes(env, db, gate, id, outcome, now);
  }

  lemma {:induction false} RunShapes(env: Env, db: Db, run: seq<Timed>)
    requires Shapes(db)
    ensures Shapes(RunFrom(env, db, run))
    decreases |run|
  {
    hide GateRuns.Step, Shapes;
    if run != [] {
      StepShapes(env, db, run[0].call, run[0].at);
      RunShapes(env, GateRuns.Step(env, db, run[0].call, run[0].at), run[1..]);
    }
  }

  lemma StateShapes(env: Env, run: seq<Timed>)
    ensures Shapes(State(env, run))
  {
    hide Around, Depth, RunFrom;
    RunShapes(env, Gate.EMPTY, run);
  }

  /** A stored document is read back from its text. */
  predicate ReadsBack(value: Value) {
    Parser.Parse(Canonical.Text(value)) == Some(value)
  }

  /** The deepest document of a caller that the gate can read back from what it stores around it. */
  const DEEPEST: nat := Parser.MAX_NESTING - 1

  /** A record and the caller's document inside it: it is read back exactly when that is not too deep. */
  ghost predicate ReadBackExactly(record: Value, inside: Option<Value>) {
    inside.Some? && (ReadsBack(record) <==> Depth(The(inside)) <= DEEPEST)
  }

  lemma ShapeReadsBack(owner: Value, key: string)
    requires Around(owner, key)
    ensures ReadBackExactly(owner, owner.Get(key))
  {
    hide Parser.Parse, Canonical.Text, Depth, Around;
    AroundReadsBack(owner, key);
    AroundHas(owner, key);
  }

  lemma AroundHas(owner: Value, key: string)
    requires Around(owner, key)
    ensures owner.Object? && key in owner.fields && owner.Get(key) == Some(owner.fields[key])
  {
    hide Depth;
  }

  lemma ShallowReadsBack(value: Value)
    requires Depth(value) < SHALLOW
    ensures ReadsBack(value)
  {
    hide Parser.Parse, Canonical.Text, Depth;
    StoredReadsBack(value);
  }

  /** In every state a run reaches, the gate reads back every authorization exactly when the caller's
      intent is at most 126 levels deep, every execution when the outcome is, and every registration,
      rotated or not, when the metadata is; lifecycle events and policy bundles it always reads back. */
  lemma StoredTextsReadBack(env: Env, run: seq<Timed>)
    ensures var db := State(env, run);
      && (forall id {:trigger id in db.permits.authorizations} :: id in db.permits.authorizations ==>
            ReadBackExactly(Entry(db.permits.authorizations, id).json, Entry(db.permits.authorizations, id).json.Get(INTENT)))
      && (forall id {:trigger id in db.permits.outcomes} :: id in db.permits.outcomes ==>
            ReadBackExactly(Entry(db.permits.outcomes, id).json, Entry(db.permits.outcomes, id).json.Get(OUTCOME)))
      && (forall key {:trigger key in db.registry.agents} :: key in db.registry.agents ==>
            ReadBackExactly(Entry(db.registry.agents, key).event, Some(Entry(db.registry.agents, key).metadata)))
      && (forall row <- db.registry.lifecycle :: ReadsBack(row.json))
      && (forall row <- db.policies.bundles :: ReadsBack(row.bundle))
  {
    hide State, Around, Depth, ReadsBack, ReadBackExactly;
    StateShapes(env, run);
    var db := State(env, run);
    forall id | id in db.permits.authorizations
      ensures ReadBackExactly(db.permits.authorizations[id].json, db.permits.authorizations[id].json.Get(INTENT))
    {
      ShapeReadsBack(db.permits.authorizations[id].json, INTENT);
    }
    forall id | id in db.permits.outcomes
      ensures ReadBackExactly(db.permits.outcomes[id].json, db.permits.outcomes[id].json.Get(OUTCOME))
    {
      ShapeReadsBack(db.permits.outcomes[id].json, OUTCOME);
    }
    forall key | key in db.registry.agents
      ensures ReadBackExactly(db.registry.agents[key].event, Some(db.registry.agents[key].metadata))
    {
      ShapeReadsBack(db.registry.agents[key].event, METADATA);
    }
    forall row | row in db.registry.lifecycle ensures ReadsBack(row.json) { ShallowReadsBack(row.json); }
    forall row | row in db.policies.bundles ensures ReadsBack(row.bundle) { ShallowReadsBack(row.bundle); }
  }

  // ---- Traces, as texts ----

  const TRACE_SCHEMA := "tempus.action-trace.v1"

  datatype TraceError = NoSuchAction | AuthorizationUnreadable | ExecutionUnreadable | TraceUnreadable

  /** The document a trace is. */
  function TraceDocument(actionId: string, authorization: Value, execution: Option<Value>): Value {
    Object(map[
      SCHEMA_VERSION := String(TRACE_SCHEMA),
      ACTION_ID := String(actionId),
      AUTHORIZATION := authorization,
      EXECUTION := execution.GetOr(Null)
    ])
  }

  /** `get_trace`: the stored texts parsed, and put into one text. */
  function GetTrace(db: Db, actionId: string): Result<string, TraceError> {
    if actionId !in db.permits.byAction || db.permits.byAction[actionId] !in db.permits.authorizations then Err(NoSuchAction)
    else match Parser.Parse(Canonical.Text(db.permits.authorizations[db.permits.byAction[actionId]].json))
      case None => Err(AuthorizationUnreadable)
      case Some(authorization) =>
        match ExecutionFor(db, actionId)
        case None => Ok(Canonical.Text(TraceDocument(actionId, authorization, None)))
        case Some(stored) =>
          match Parser.Parse(Canonical.Text(stored))
          case None => Err(ExecutionUnreadable)
          case Some(execution) => Ok(Canonical.Text(TraceDocument(actionId, authorization, Some(execution))))
  }

  /** `verify_trace`: the text of the trace parsed once more, and what it says verified. */
  ghost function VerifyTraceText(env: Env, db: Db, actionId: string, now: u64): Result<TraceReport, TraceError> {
    match GetTrace(db, actionId)
    case Err(e) => Err(e)
    case Ok(text) =>
      match Parser.Parse(text)
      case None => Err(TraceUnreadable)
      case Some(trace) =>
        var execution := if trace.Get(EXECUTION) == Some(Null) then None else trace.Get(EXECUTION);
        Ok(Report(env, db.registry, trace.Get(AUTHORIZATION).GetOr(Null), execution, now))
  }

  lemma AroundDepth(owner: Value, key: string, d: nat)
    requires Around(owner, key) && SHALLOW <= d
    ensures Depth(owner) <= d + 1 <==> Depth(owner.fields[key]) <= d
  {
    hide Depth;
    ObjectWithin(owner, d);
  }

  lemma TraceMembers(actionId: string, authorization: Value, execution: Option<Value>)
    ensures var trace := TraceDocument(actionId, authorization, execution);
      && trace.Get(AUTHORIZATION) == Some(authorization) && trace.Get(EXECUTION) == Some(execution.GetOr(Null))
      && (ReadsBack(trace) <==> Depth(authorization) <= DEEPEST && (execution.Some? ==> Depth(execution.value) <= DEEPEST))
  {
    hide Parser.Parse, Canonical.Text, Depth;
    var trace := TraceDocument(actionId, authorization, execution);
    StoredReadsBack(trace);
    ObjectWithin(trace, DEEPEST);
    FlatIsFlat(String(TRACE_SCHEMA));
    FlatIsFlat(String(actionId));
    FlatIsFlat(Null);
    assert trace.fields[AUTHORIZATION] == authorization && trace.fields[EXECUTION] == execution.GetOr(Null);
  }

  /** A parse of a canonical text gives the value, or nothing. */
  lemma ParseOrNothing(value: Value)
    ensures Parser.Parse(Canonical.Text(value)) == if ReadsBack(value) then Some(value) else None
  {
    hide Parser.Parse, Canonical.Text, Depth;
    CanonicalTextParses(value);
  }

  /** The trace of documents of a certain shape. */
  lemma TraceOfShapes(env: Env, db: Db, actionId: string, now: u64)
    requires Grounded(db.registry) && PermitShapes(db.permits)
    requires actionId in db.permits.byAction && Entry(db.permits.byAction, actionId) in db.permits.authorizations
    requires var e := ExecutionFor(db, actionId); e.Some? ==> Around(The(e), OUTCOME)
    ensures var json := Entry(db.permits.authorizations, Entry(db.permits.byAction, actionId)).json;
      var e := ExecutionFor(db, actionId);
      var readable := Depth(json.Get(INTENT).GetOr(Null)) < DEEPEST && (e.Some? ==> Depth(The(e).Get(OUTCOME).GetOr(Null)) < DEEPEST);
      && (VerifyTraceText(env, db, actionId, now).Ok? <==> readable)
      && (readable ==> VerifyTraceText(env, db, actionId, now) == Ok(Report(env, db.registry, json, e, now)))
  {
    hide Grounded, Parser.Parse, Canonical.Text, Depth, Around, Report, ExecutionFor, ReadsBack, TraceDocument;
    var json := db.permits.authorizations[db.permits.byAction[actionId]].json;
    var e := ExecutionFor(db, actionId);
    assert Around(json, INTENT);
    AroundHas(json, INTENT);
    AroundDepth(json, INTENT, DEEPEST - 1);
    ShapeReadsBack(json, INTENT);
    ParseOrNothing(json);
    if e.Some? {
      AroundHas(e.value, OUTCOME);
      AroundDepth(e.value, OUTCOME, DEEPEST - 1);
      ShapeReadsBack(e.value, OUTCOME);
      ParseOrNothing(e.value);
    }
    TraceMembers(actionId, json, e);
    ParseOrNothing(TraceDocument(actionId, json, e));
  }

  /** The trace of every action a run has recorded verifies, as a text, exactly when the caller's intent
      and outcome are at most 125 levels deep: a trace is parsed once more, one level up. The keys'
      registrations are taken to be read back, as they are when their metadata is at most 126 deep. */
  lemma EveryTraceTextVerifies(env: Env, run: seq<Timed>, id: string, now: u64)
    requires Honest(env) && Reached(env, run)
    requires id in State(env, run).permits.authorizations
    requires forall key <- State(env, run).registry.agents.Keys :: ReadsBack(Entry(State(env, run).registry.agents, key).event)
    ensures var db := State(env, run);
      var actionId := Entry(db.permits.authorizations, id).actionId;
      var readable := Depth(Entry(db.permits.authorizations, id).json.Get(INTENT).GetOr(Null)) < DEEPEST
        && (id in db.permits.outcomes ==> Depth(Entry(db.permits.outcomes, id).json.Get(OUTCOME).GetOr(Null)) < DEEPEST);
      && Grounded(db.registry)
      && (VerifyTraceText(env, db, actionId, now).Ok? <==> readable)
      && (readable ==> VerifyTraceText(env, db, actionId, now) == Ok(TraceReport(true, PhaseOf(db.permits, id, now), [])))
  {
    hide Inv, Honest, RevocationOk, Reached, State, Grounded, RegistryOk, Depth, Around, Report, ReadsBack, VerifyTraceText, ExecutionFor,
      PhaseOf, AuthorizationOk, OutcomeOk, RegistryShapes, StoreShallow;
    ReachedInOrder(env, run);
    var db := State(env, run);
    InvParts(env, db, Clock(run));
    StateShapes(env, run);
    var actionId := db.permits.authorizations[id].actionId;
    ExecutionForAction(env, db, Clock(run), actionId);
    TraceOfShapes(env, db, actionId, now);
    EveryTraceVerifies(env, run, id, now);
  }
}
