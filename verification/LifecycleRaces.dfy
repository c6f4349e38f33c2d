/** Registrations, rotations and revocations check the keys first and write in a transaction later. What
    they make of the keys when others have gone on in between. */
module LifecycleRaces {
  import opened Prelude
  import opened Names
  import opened Json
  import opened Crypto
  import opened Identity
  import opened IdentityProofs
  import opened IdentityOps
  // ---- The calls, checked on one registry and written to another ----

  /** `rotate_agent`: the transaction retires the key if it is still active, and inserts the new key and
      the event in any case. */
  ghost function LateRotation(env: Env, read: Registry, reg: Registry, gate: string, currentKey: string, newKey: string, at: u64): Result<Registry, IdentityError> {
    match RotationFault(env, read, gate, currentKey, newKey, at)
    case Some(fault) => Err(fault)
    case None =>
      var e := RotationRow(env, Entry(read.agents, currentKey), gate, currentKey, newKey, at);
      if currentKey !in reg.agents || newKey in reg.agents || HasLifecycleEvent(reg, e.eventId) then Err(UniqueViolation)
      else Ok(AddAgent(RetireKey(reg, currentKey, Rotate, e, at), newKey, RotatedRow(env, Entry(read.agents, currentKey), gate, currentKey, newKey, at)))
  }

  /** `revoke_agent`: so does this transaction. */
  ghost function LateRevocation(env: Env, read: Registry, reg: Registry, gate: string, publicKey: string, reason: string, at: u64): Result<Registry, IdentityError> {
    match RevocationFault(env, read, gate, publicKey, reason, at)
    case Some(fault) => Err(fault)
    case None =>
      var e := RevocationRow(env, Entry(read.agents, publicKey), gate, publicKey, reason, at);
      if publicKey !in reg.agents || HasLifecycleEvent(reg, e.eventId) then Err(UniqueViolation)
      else Ok(RetireKey(reg, publicKey, Revoke, e, at))
  }

  /** `register_agent`: the key is the root if there was no key when the keys were counted. */
  ghost function LateRegistration(env: Env, read: Registry, reg: Registry, registrar: string, publicKey: string, alias: string, metadata: Option<Value>, at: u64)
    : Result<Registry, IdentityError>
  {
    match PrepareRegistration(env, read, registrar, publicKey, alias, metadata, at)
    case Err(fault) => Err(fault)
    case Ok(row) =>
      if publicKey in reg.agents then Err(UniqueViolation)
      else Ok(reg.(agents := reg.agents[publicKey := row],
                   trustedRoot := if read.agents == map[] then Some(publicKey) else reg.trustedRoot))
  }

  /** With nothing in between they are the whole calls. */
  lemma NothingBetween(env: Env, reg: Registry, gate: string, key: string, newKey: string, reason: string, alias: string, metadata: Option<Value>, at: u64)
    requires Grounded(reg)
    ensures LateRotation(env, reg, reg, gate, key, newKey, at) == RotateAgent(env, reg, gate, key, newKey, at)
    ensures LateRevocation(env, reg, reg, gate, key, reason, at) == RevokeAgent(env, reg, gate, key, reason, at)
    ensures match PrepareRegistration(env, reg, gate, key, alias, metadata, at)
      case Ok(row) => LateRegistration(env, reg, reg, gate, key, alias, metadata, at) == Ok(AddAgent(reg, key, row))
      case Err(fault) => LateRegistration(env, reg, reg, gate, key, alias, metadata, at) == Err(fault)
  {
    hide Grounded, VerifyAgentInner, RotationOf, RotatedRegistration, RevocationOf, NewAgentRow, RegistrationRow, LifecycleRowFor,
      RetireRow, Profile, RegistrarAuthority, DigestJson, IsBlank;
    if RotationFault(env, reg, gate, key, newKey, at).None? {
      RotationSplits(env, reg, gate, key, newKey, at);
      RotationNew(env, reg, gate, key, newKey, at);
    }
    if RevocationFault(env, reg, gate, key, reason, at).None? {
      RevocationMeans(env, reg, gate, key, reason, at);
      RevocationNew(env, reg, gate, key, reason, at);
    }
    PreparedNew(env, reg, gate, key, alias, metadata, at);
  }

  lemma RotationNew(env: Env, reg: Registry, gate: string, currentKey: string, newKey: string, at: u64)
    requires Grounded(reg) && RotationFault(env, reg, gate, currentKey, newKey, at).None?
    ensures !HasLifecycleEvent(reg, RotationRow(env, Entry(reg.agents, currentKey), gate, currentKey, newKey, at).eventId)
  {
    hide Grounded, VerifyAgentInner, RotationOf, DigestJson;
  }

  lemma RevocationNew(env: Env, reg: Registry, gate: string, publicKey: string, reason: string, at: u64)
    requires Grounded(reg) && RevocationFault(env, reg, gate, publicKey, reason, at).None?
    ensures !HasLifecycleEvent(reg, RevocationRow(env, Entry(reg.agents, publicKey), gate, publicKey, reason, at).eventId)
  {
    hide Grounded, VerifyAgentInner, RevocationOf, DigestJson, IsBlank;
  }

  lemma PreparedNew(env: Env, reg: Registry, registrar: string, publicKey: string, alias: string, metadata: Option<Value>, at: u64)
    requires Grounded(reg)
    ensures PrepareRegistration(env, reg, registrar, publicKey, alias, metadata, at).Ok? ==> publicKey !in reg.agents
  {
    hide Grounded, Profile, RegistrarAuthority, RegistrationRow, IsBlank;
  }

  // ---- What others may have done ----

  /** The keys as they were read, and what others have made of them since: keys registered, rotated and
      revoked at any later instants. */
  ghost predicate WentOn(env: Env, read: Registry, before: u64, reg: Registry, clock: u64) {
    RegistryOk(env, read, before) && RegistryOk(env, reg, clock) && Evolves(read, reg, before) && before <= clock
  }

  /** A key had not ended by an instant. */
  predicate Lasts(reg: Registry, key: string, at: u64) {
    key in reg.agents && (reg.agents[key].validUntil.Some? ==> at < reg.agents[key].validUntil.value)
  }

  lemma EvolvesKeepsRows(reg: Registry, reg': Registry, clock: u64)
    requires Evolves(reg, reg', clock)
    ensures KeepsRows(reg, reg')
  {
    hide SameOrigin;
  }

  /** A delegator active when it was read vouches at the instant of the call unless it has ended by then. */
  lemma GateVouches(env: Env, read: Registry, before: u64, reg: Registry, clock: u64, gate: string, at: u64, tenantId: string)
    requires WentOn(env, read, before, reg, clock) && Grounded(reg) && Grounded(read) && before < at && Vouches(read, gate, at, tenantId)
    ensures Vouches(reg, gate, at, tenantId) <==> Lasts(reg, gate, at)
    ensures gate in reg.agents
  {
    hide AgentOk, EventOk, Grounded, ChainLength, KeepsRows;
    EvolvesKeepsRows(read, reg, before);
    SameStart(read, reg, before, gate);
    if Lasts(reg, gate, at) { VouchesKept(env, read, reg, before, gate, at, tenantId); }
  }

  lemma SameStart(read: Registry, reg: Registry, before: u64, key: string)
    requires Evolves(read, reg, before) && key in read.agents
    ensures key in reg.agents && SameOrigin(read.agents[key], reg.agents[key])
    ensures reg.agents[key].validFrom == read.agents[key].validFrom && reg.agents[key].identityId == read.agents[key].identityId
    ensures reg.agents[key].tenantId == read.agents[key].tenantId && reg.agents[key].keyVersion == read.agents[key].keyVersion
    ensures reg.agents[key].canDelegate == read.agents[key].canDelegate
  {}

  // ---- Rotations ----

  /** The event of a rotation ends the key on whatever the keys have become, if they can still be verified. */
  lemma RotationNames(env: Env, read: Registry, before: u64, reg: Registry, clock: u64, gate: string, currentKey: string, newKey: string, at: u64)
    requires Honest(env) && env.crypto.isPublicKey(gate)
    requires WentOn(env, read, before, reg, clock) && Grounded(read) && before < at
    requires RotationFault(env, read, gate, currentKey, newKey, at).None?
    ensures var e := RotationRow(env, Entry(read.agents, currentKey), gate, currentKey, newKey, at);
      && NamesEnd(env, reg, currentKey, Rotate, e, at) && SignerOf(e) == gate && EventTenant(e) == Entry(read.agents, currentKey).tenantId
    ensures Vouches(read, gate, at, Entry(read.agents, currentKey).tenantId)
    ensures Entry(reg.agents, currentKey).validFrom < at && Entry(reg.agents, currentKey).identityId == Entry(read.agents, currentKey).identityId
  {
    hide AgentOk, EventOk, ChainLength, VerifyAgentInner, RotationFault, DigestJson, IsBlank, RotationEvent, DeclaresEvent, EventColumnsOk,
      EventAuthentic, Subject, SignerOf, EventTenant, Vouches, Grounded, LifecycleRowFor, Evolves, Honest, SameOrigin;
    var row := read.agents[currentKey];
    RotationMeans(env, read, gate, currentKey, newKey, at);
    ActiveMeans(env, read, before, currentKey, at);
    assert AgentOk(env, read, before, currentKey);
    AgentWindow(env, read, before, currentKey);
    ActiveVouches(env, read, before, gate, at, row.tenantId);
    SameStart(read, reg, before, currentKey);
    SameStart(read, reg, before, row.identityId);
    var e := RotationRow(env, row, gate, currentKey, newKey, at);
    RowForColumns(env, RotationOf(env, row, gate, currentKey, newKey, at), gate, row.identityId, newKey, ROTATE, at);
    RotationDeclares(row.identityId, row.tenantId, currentKey, newKey, row.keyVersion, NextVersion(row.keyVersion), at, env.signerFor(gate), e);
    SignedEventOk(env, reg, gate, RotationOf(env, row, gate, currentKey, newKey, at), row.identityId, newKey, ROTATE, at, row.tenantId, currentKey);
  }

  // ---- When the keys stay in order ----

  /** What registries in order after a key is retired have in common. */
  lemma RetiredNeeds(env: Env, reg: Registry, clock: u64, key: string, kind: Kind, e: LifecycleRow, at: u64, reg': Registry, now: u64)
    requires RegistryOk(env, reg, clock) && key in reg.agents && NamesEnd(env, reg, key, kind, e, at) && SignerOf(e) in reg.agents
    requires RegistryOk(env, reg', now) && reg'.lifecycle == Filed(reg.lifecycle, e)
    requires forall k <- reg.agents.Keys :: k in reg'.agents && Entry(reg'.agents, k) == Entry(RetireKey(reg, key, kind, e, at).agents, k)
    ensures Vouches(reg, SignerOf(e), at, EventTenant(e)) && MayEndAt(reg, key, at)
  {
    hide AgentOk, EventOk, Grounded, SignerOf, EventTenant, ChainLength, EventAuthentic, EventColumnsOk, Subject, KeepsRows, InWindow,
      Filed, PlaceOf, Ascending;
    RowsKept(reg, key, kind, e, at, reg');
    FiledRows(reg.lifecycle, e);
    var p := PlaceOf(reg.lifecycle, e.effectiveAt);
    assert EventOk(env, reg', now, reg'.lifecycle[p]);
    EventVouched(env, reg', now, e);
    ChainKept(env, reg, reg', clock, SignerOf(e));
    EndsByThen(env, reg, clock, key, kind, e, at, reg', now);
    if reg.agents[key].status == Active {
      forall k | k in reg.agents && k != key && reg.agents[k].registeredBy == key ensures reg.agents[k].registeredAt < at {
        assert reg'.agents[k] == reg.agents[k];
        assert AgentOk(env, reg', now, k);
        RegistrarWindow(env, reg', now, k);
        EndsWindow(reg.agents[key], kind, at, reg.agents[k].registeredAt);
      }
      forall row | row in reg.lifecycle && SignerOf(row) == key ensures row.effectiveAt < at {
        assert row in Filed(reg.lifecycle, e);
        var i :| 0 <= i < |reg'.lifecycle| && reg'.lifecycle[i] == row;
        assert EventOk(env, reg', now, reg'.lifecycle[i]);
        EventWindow(env, reg', now, row);
        EndsWindow(reg.agents[key], kind, at, row.effectiveAt);
      }
    }
  }

  /** A key that has ended, and is found to end as its row says, has ended by the instant of the event. */
  lemma EndsByThen(env: Env, reg: Registry, clock: u64, key: string, kind: Kind, e: LifecycleRow, at: u64, reg': Registry, now: u64)
    requires RegistryOk(env, reg, clock) && key in reg.agents && NamesEnd(env, reg, key, kind, e, at)
    requires RegistryOk(env, reg', now) && reg'.lifecycle == Filed(reg.lifecycle, e)
    requires key in reg'.agents && Entry(reg'.agents, key) == RetireRow(Entry(reg.agents, key), kind, at)
    ensures Entry(reg.agents, key).validUntil.Some? ==> The(Entry(reg.agents, key).validUntil) <= at
  {
    hide EventOk, Grounded, Authentic, EventAuthentic, Vouches, EndFrom, Effect, Subject, SignerOf, EventColumnsOk, Filed, PlaceOf,
      Ascending;
    assert AgentOk(env, reg, clock, key) && AgentOk(env, reg', now, key);
    EndAfterEvent(env, reg, clock, reg', e, key, 0);
    EffectMeans(reg, e, key);
  }

  /** Otherwise the key is lost: its row says another end than the first event, and it verifies at no instant. */
  lemma EarlierEventLoses(env: Env, reg: Registry, clock: u64, key: string, kind: Kind, e: LifecycleRow, at: u64, reg': Registry, t: u64)
    requires RegistryOk(env, reg, clock) && key in reg.agents && NamesEnd(env, reg, key, kind, e, at)
    requires reg'.lifecycle == Filed(reg.lifecycle, e) && key in reg'.agents && Entry(reg'.agents, key) == RetireRow(Entry(reg.agents, key), kind, at)
    requires Entry(reg.agents, key).validUntil.Some? && at < The(Entry(reg.agents, key).validUntil)
    ensures !Trusted(VerifyAgentAt(env.crypto, reg', key, t))
  {
    hide EventOk, Grounded, Authentic, EventAuthentic, Vouches, EndFrom, Effect, Subject, SignerOf, EventColumnsOk, Filed, PlaceOf,
      Ascending, LifecycleEnd;
    assert AgentOk(env, reg, clock, key);
    EndAfterEvent(env, reg, clock, reg', e, key, 0);
    EffectMeans(reg, e, key);
    ScanFinds(env.crypto, reg', key, 0, None);
  }

  /** A scan that succeeds finds the first end. */
  lemma {:induction false} ScanFinds(c: Crypto, reg: Registry, key: string, i: nat, end: Option<End>)
    requires key in reg.agents && i <= |reg.lifecycle|
    ensures var r := LifecycleEnd(c, reg, reg.agents[key].identityId, key, i, end); r.Ok? ==> r.value == EndFrom(reg, key, i, end)
    decreases |reg.lifecycle| - i
  {
    hide Grounded, EventAuthentic, VerifyAgentInner, Effect, SignerOf;
    if i < |reg.lifecycle| {
      var row := reg.lifecycle[i];
      ScanFinds(c, reg, key, i + 1, if end.Some? || row.identityId != reg.agents[key].identityId then end else Effect(row, key).GetOr(None));
    }
  }

  /** A check that reads the row of a key before the key is ended and the events after finds it at no instant. */
  lemma TornCheckFails(env: Env, reg: Registry, clock: u64, key: string, row: AgentRow, t: u64)
    requires RegistryOk(env, reg, clock) && key in reg.agents && Entry(reg.agents, key).status != Active
    requires SameOrigin(row, Entry(reg.agents, key)) && row.status == Active
    ensures !Trusted(VerifyAgentAt(env.crypto, reg.(agents := reg.agents[key := row]), key, t))
  {
    hide EventOk, Grounded, Authentic, Vouches, EndFrom, LifecycleEnd;
    var seen := reg.(agents := reg.agents[key := row]);
    assert AgentOk(env, reg, clock, key);
    SameEvents(reg, seen, key, 0, None);
    ScanFinds(env.crypto, seen, key, 0, None);
  }

  lemma RowsKept(reg: Registry, key: string, kind: Kind, e: LifecycleRow, at: u64, reg': Registry)
    requires key in reg.agents
    requires forall k <- reg.agents.Keys :: k in reg'.agents && reg'.agents[k] == RetireKey(reg, key, kind, e, at).agents[k]
    ensures KeepsRows(reg, reg')
  {
    RetiredKeepsRows(reg, key, kind, e, at);
  }

  lemma EventVouched(env: Env, reg: Registry, clock: u64, e: LifecycleRow)
    requires Grounded(reg) && EventOk(env, reg, clock, e)
    ensures Vouches(reg, SignerOf(e), e.effectiveAt, EventTenant(e))
  {
    hide Vouches, SignerOf, EventTenant;
  }

  lemma EndsWindow(row: AgentRow, kind: Kind, at: u64, later: u64)
    requires row.status == Active && InWindow(RetireRow(row, kind, at), later)
    ensures later < at
  {}

  /** Retiring a key by an event of any instant keeps the keys in order exactly when its signer vouches for
      it then and does not depend on the identity, and the key may be ended then. */
  lemma RetireKeepsExactly(env: Env, reg: Registry, clock: u64, key: string, kind: Kind, e: LifecycleRow, at: u64, now: u64)
    requires RegistryOk(env, reg, clock) && key in reg.agents && NamesEnd(env, reg, key, kind, e, at) && SignerOf(e) in reg.agents
    requires Entry(reg.agents, key).validFrom < at <= now && clock <= now
    ensures RegistryOk(env, RetireKey(reg, key, kind, e, at), now) <==>
      && !DependsOn(reg, SignerOf(e), Entry(reg.agents, key).identityId)
      && Vouches(reg, SignerOf(e), at, EventTenant(e))
      && MayEndAt(reg, key, at)
  {
    hide AgentOk, EventOk, Grounded, SignerOf, EventTenant, EventAuthentic, EventColumnsOk, Subject, DependsOn, MayEndAt, Vouches,
      RetireRow, Filed, Ascending;
    var reg' := RetireKey(reg, key, kind, e, at);
    RetiringTerminates(reg, key, kind, e, at);
    if RegistryOk(env, reg', now) {
      RetiredNeeds(env, reg, clock, key, kind, e, at, reg', now);
    } else if !DependsOn(reg, SignerOf(e), reg.agents[key].identityId) && Vouches(reg, SignerOf(e), at, EventTenant(e))
              && MayEndAt(reg, key, at) {
      RetireKeeps(env, reg, clock, key, kind, e, at, now);
    }
  }

  /** A late rotation keeps the keys in order exactly when the gate does not depend on the identity and had
      not ended by the instant of the rotation, and the rotated key either has ended by that instant, or is
      active and has vouched for nothing since. */
  lemma LateRotationKeepsExactly(env: Env, read: Registry, before: u64, reg: Registry, clock: u64, gate: string, currentKey: string, newKey: string,
                                 at: u64, now: u64)
    requires Honest(env) && env.crypto.isPublicKey(gate)
    requires WentOn(env, read, before, reg, clock) && Grounded(reg) && Grounded(read) && before < at <= now && clock <= now
    requires LateRotation(env, read, reg, gate, currentKey, newKey, at).Ok?
    ensures currentKey in reg.agents
    ensures RegistryOk(env, Good(LateRotation(env, read, reg, gate, currentKey, newKey, at)), now) <==>
      && !DependsOn(reg, gate, Entry(reg.agents, currentKey).identityId)
      && Lasts(reg, gate, at)
      && MayEndAt(reg, currentKey, at)
  {
    hide AgentOk, EventOk, Grounded, RotationFault, RotatedRow, RotationRow, EndingEvent, DependsOn, Vouches, FreshRow, Evolves, SignerOf,
      EventTenant, MayEndAt, Lasts, NamesEnd, RetireRow, Filed, Ascending, Honest;
    var e := RotationRow(env, read.agents[currentKey], gate, currentKey, newKey, at);
    var row := RotatedRow(env, read.agents[currentKey], gate, currentKey, newKey, at);
    RotationNames(env, read, before, reg, clock, gate, currentKey, newKey, at);
    GateVouches(env, read, before, reg, clock, gate, at, read.agents[currentKey].tenantId);
    var reg1 := RetireKey(reg, currentKey, Rotate, e, at);
    var reg' := LateRotation(env, read, reg, gate, currentKey, newKey, at).value;
    RetireKeepsExactly(env, reg, clock, currentKey, Rotate, e, at, now);
    if RegistryOk(env, reg', now) {
      RetiredNeeds(env, reg, clock, currentKey, Rotate, e, at, reg', now);
      NewKeyUncalled(env, reg, clock, currentKey, e, at, newKey);
      AddGrounds(reg1, newKey, row);
      RetiringTerminates(reg, currentKey, Rotate, e, at);
      NamesIdentity(env, reg, currentKey, Rotate, e, at);
    }
    if RegistryOk(env, reg1, now) {
      RotatedFresh(env, read, before, reg, clock, gate, currentKey, newKey, at, now);
      AddKeepsRegistry(env, reg1, now, newKey, row, now);
    }
  }

  /** A late rotation dated before the end its key already has loses the key: it verifies at no instant. */
  lemma LateRotationLoses(env: Env, read: Registry, before: u64, reg: Registry, clock: u64, gate: string, currentKey: string, newKey: string,
                          at: u64, t: u64)
    requires Honest(env) && env.crypto.isPublicKey(gate)
    requires WentOn(env, read, before, reg, clock) && Grounded(read) && before < at
    requires LateRotation(env, read, reg, gate, currentKey, newKey, at).Ok?
    requires Entry(reg.agents, currentKey).validUntil.Some? && at < The(Entry(reg.agents, currentKey).validUntil)
    ensures !Trusted(VerifyAgentAt(env.crypto, Good(LateRotation(env, read, reg, gate, currentKey, newKey, at)), currentKey, t))
  {
    hide AgentOk, EventOk, Grounded, RotationFault, RotatedRow, RotationRow, NamesEnd, RetireRow, Filed, Honest, Evolves, RegistryOk,
      VerifyAgentInner;
    var e := RotationRow(env, read.agents[currentKey], gate, currentKey, newKey, at);
    WentOnMeans(env, read, before, reg, clock);
    RotationNames(env, read, before, reg, clock, gate, currentKey, newKey, at);
    EarlierEventLoses(env, reg, clock, currentKey, Rotate, e, at, LateRotation(env, read, reg, gate, currentKey, newKey, at).value, t);
  }

  lemma NamesIdentity(env: Env, reg: Registry, key: string, kind: Kind, e: LifecycleRow, at: u64)
    requires NamesEnd(env, reg, key, kind, e, at)
    ensures key in reg.agents && e.identityId == reg.agents[key].identityId
  {
    hide EventColumnsOk, EventAuthentic, Subject, SignerOf, EventTenant;
  }

  /** A key that is not registered is neither registrar nor signer. */
  lemma NewKeyUncalled(env: Env, reg: Registry, clock: u64, key: string, e: LifecycleRow, at: u64, newKey: string)
    requires RegistryOk(env, reg, clock) && key in reg.agents && newKey !in reg.agents && SignerOf(e) in reg.agents
    ensures var reg1 := RetireKey(reg, key, Rotate, e, at);
      && newKey !in reg1.agents
      && (forall k <- reg1.agents :: reg1.agents[k].registeredBy != newKey)
      && (forall i | 0 <= i < |reg1.lifecycle| :: SignerOf(reg1.lifecycle[i]) != newKey)
  {
    hide AgentOk, EventOk, Grounded, SignerOf, RetireRow;
    var reg1 := RetireKey(reg, key, Rotate, e, at);
    forall k | k in reg1.agents ensures reg1.agents[k].registeredBy != newKey {
      RegistrarRegistered(env, reg, clock, k);
      RetireKeepsOrigin(reg.agents[key], Rotate, at);
    }
    FiledRows(reg.lifecycle, e);
    forall i | 0 <= i < |reg1.lifecycle| ensures SignerOf(reg1.lifecycle[i]) != newKey {
      assert reg1.lifecycle[i] in Filed(reg.lifecycle, e);
      if reg1.lifecycle[i] != e { SignerRegistered(env, reg, clock, reg1.lifecycle[i]); }
    }
  }

  /** The row of the new key is in order on the retired registry. */
  lemma RotatedFresh(env: Env, read: Registry, before: u64, reg: Registry, clock: u64, gate: string, currentKey: string, newKey: string, at: u64, now: u64)
    requires Honest(env) && env.crypto.isPublicKey(gate)
    requires WentOn(env, read, before, reg, clock) && Grounded(read) && Grounded(reg) && before < at <= now && clock <= now
    requires RotationFault(env, read, gate, currentKey, newKey, at).None? && currentKey in reg.agents && newKey !in reg.agents
    requires var e := RotationRow(env, Entry(read.agents, currentKey), gate, currentKey, newKey, at);
      && RegistryOk(env, RetireKey(reg, currentKey, Rotate, e, at), now)
    requires Vouches(reg, gate, at, Entry(read.agents, currentKey).tenantId)
    ensures var reg1 := RetireKey(reg, currentKey, Rotate, RotationRow(env, Entry(read.agents, currentKey), gate, currentKey, newKey, at), at);
      var row := RotatedRow(env, Entry(read.agents, currentKey), gate, currentKey, newKey, at);
      FreshRow(env, reg1, newKey, row) && row.registeredAt == at && reg1.agents != map[]
  {
    hide AgentOk, EventOk, ChainLength, RotationFault, DigestJson, IsBlank, Authentic, RotatedRegistration, RotationRow, Vouches, DependsOn,
      Grounded, Evolves, VerifyAgentInner, RetireRow, KeepsRows, Honest, SameOrigin;
    var row := read.agents[currentKey];
    var e := RotationRow(env, row, gate, currentKey, newKey, at);
    var reg1 := RetireKey(reg, currentKey, Rotate, e, at);
    RotationMeans(env, read, gate, currentKey, newKey, at);
    ActiveMeans(env, read, before, currentKey, at);
    assert AgentOk(env, read, before, currentKey);
    AgentWindow(env, read, before, currentKey);
    RotatedRowAuthentic(env, row, gate, currentKey, newKey, at);
    VouchingRegistered(reg, gate, at, row.tenantId);
    RetiredKeepsRows(reg, currentKey, Rotate, e, at);
    VouchesKept(env, reg, reg1, clock, gate, at, row.tenantId);
    SameStart(read, reg, before, row.identityId);
    assert currentKey in reg1.agents;
  }

  // ---- Revocations ----

  /** The event of a revocation ends the key on whatever the keys have become. */
  lemma RevocationNames(env: Env, read: Registry, before: u64, reg: Registry, clock: u64, gate: string, publicKey: string, reason: string, at: u64)
    requires Honest(env) && env.crypto.isPublicKey(gate)
    requires WentOn(env, read, before, reg, clock) && Grounded(read) && before < at
    requires RevocationFault(env, read, gate, publicKey, reason, at).None?
    ensures var e := RevocationRow(env, Entry(read.agents, publicKey), gate, publicKey, reason, at);
      && NamesEnd(env, reg, publicKey, Revoke, e, at) && SignerOf(e) == gate && EventTenant(e) == Entry(read.agents, publicKey).tenantId
    ensures gate in read.agents && Vouches(read, gate, at, Entry(read.agents, gate).tenantId)
    ensures Entry(reg.agents, publicKey).validFrom < at && Entry(reg.agents, publicKey).identityId == Entry(read.agents, publicKey).identityId
    ensures Entry(reg.agents, publicKey).tenantId == Entry(read.agents, publicKey).tenantId
  {
    hide AgentOk, EventOk, ChainLength, VerifyAgentInner, RevocationFault, DigestJson, IsBlank, RevocationEvent, DeclaresEvent,
      EventColumnsOk, EventAuthentic, Subject, SignerOf, EventTenant, Vouches, Grounded, LifecycleRowFor, Evolves, Honest, SameOrigin;
    var row := read.agents[publicKey];
    RevocationMeans(env, read, gate, publicKey, reason, at);
    ActiveMeans(env, read, before, publicKey, at);
    ActiveMeans(env, read, before, gate, at);
    assert AgentOk(env, read, before, publicKey);
    AgentWindow(env, read, before, publicKey);
    ActiveVouches(env, read, before, gate, at, read.agents[gate].tenantId);
    SameStart(read, reg, before, publicKey);
    SameStart(read, reg, before, row.identityId);
    var e := RevocationRow(env, row, gate, publicKey, reason, at);
    RowForColumns(env, RevocationOf(env, row, gate, publicKey, reason, at), gate, row.identityId, publicKey, REVOKE, at);
    RevocationDeclares(row.identityId, row.tenantId, publicKey, at, reason, env.signerFor(gate), e);
    SignedEventOk(env, reg, gate, RevocationOf(env, row, gate, publicKey, reason, at), row.identityId, publicKey, REVOKE, at, row.tenantId, publicKey);
  }

  lemma VouchesInScope(reg: Registry, key: string, at: u64, tenantId: string)
    requires Grounded(reg) && key in reg.agents && Vouches(reg, key, at, reg.agents[key].tenantId)
    ensures Vouches(reg, key, at, tenantId) <==> reg.agents[key].tenantId in {"*", tenantId}
  {}

  lemma VouchesLasts(reg: Registry, key: string, at: u64, tenantId: string)
    requires Grounded(reg) && Vouches(reg, key, at, tenantId)
    ensures Lasts(reg, key, at) && reg.agents[key].tenantId in {"*", tenantId}
  {}

  /** A late revocation keeps the keys in order exactly when, besides, the scope of the gate covers the
      tenant. */
  lemma LateRevocationKeepsExactly(env: Env, read: Registry, before: u64, reg: Registry, clock: u64, gate: string, publicKey: string, reason: string,
                                   at: u64, now: u64)
    requires Honest(env) && env.crypto.isPublicKey(gate)
    requires WentOn(env, read, before, reg, clock) && Grounded(reg) && Grounded(read) && before < at <= now && clock <= now
    requires LateRevocation(env, read, reg, gate, publicKey, reason, at).Ok?
    ensures publicKey in reg.agents && gate in reg.agents
    ensures RegistryOk(env, Good(LateRevocation(env, read, reg, gate, publicKey, reason, at)), now) <==>
      && !DependsOn(reg, gate, Entry(reg.agents, publicKey).identityId)
      && Entry(reg.agents, gate).tenantId in {"*", Entry(reg.agents, publicKey).tenantId}
      && Lasts(reg, gate, at)
      && MayEndAt(reg, publicKey, at)
  {
    hide AgentOk, EventOk, Grounded, RevocationFault, RevocationRow, EndingEvent, DependsOn, Vouches, Evolves, SignerOf, EventTenant,
      MayEndAt, Lasts, NamesEnd, RetireRow, Filed, Ascending, Honest, WentOn, RegistryOk;
    var e := RevocationRow(env, read.agents[publicKey], gate, publicKey, reason, at);
    RevocationNames(env, read, before, reg, clock, gate, publicKey, reason, at);
    WentOnMeans(env, read, before, reg, clock);
    SameStart(read, reg, before, gate);
    GateVouches(env, read, before, reg, clock, gate, at, read.agents[gate].tenantId);
    RetireKeepsExactly(env, reg, clock, publicKey, Revoke, e, at, now);
    if Vouches(reg, gate, at, EventTenant(e)) { VouchesLasts(reg, gate, at, EventTenant(e)); }
    if Lasts(reg, gate, at) { VouchesInScope(reg, gate, at, EventTenant(e)); }
  }

  /** ... and so does a late revocation. */
  lemma LateRevocationLoses(env: Env, read: Registry, before: u64, reg: Registry, clock: u64, gate: string, publicKey: string, reason: string,
                            at: u64, t: u64)
    requires Honest(env) && env.crypto.isPublicKey(gate)
    requires WentOn(env, read, before, reg, clock) && Grounded(read) && before < at
    requires LateRevocation(env, read, reg, gate, publicKey, reason, at).Ok?
    requires Entry(reg.agents, publicKey).validUntil.Some? && at < The(Entry(reg.agents, publicKey).validUntil)
    ensures !Trusted(VerifyAgentAt(env.crypto, Good(LateRevocation(env, read, reg, gate, publicKey, reason, at)), publicKey, t))
  {
    hide AgentOk, EventOk, Grounded, RevocationFault, RevocationRow, NamesEnd, RetireRow, Filed, Honest, Evolves, RegistryOk,
      VerifyAgentInner;
    var e := RevocationRow(env, read.agents[publicKey], gate, publicKey, reason, at);
    WentOnMeans(env, read, before, reg, clock);
    RevocationNames(env, read, before, reg, clock, gate, publicKey, reason, at);
    EarlierEventLoses(env, reg, clock, publicKey, Revoke, e, at, LateRevocation(env, read, reg, gate, publicKey, reason, at).value, t);
  }

  lemma WentOnMeans(env: Env, read: Registry, before: u64, reg: Registry, clock: u64)
    requires WentOn(env, read, before, reg, clock)
    ensures RegistryOk(env, read, before) && RegistryOk(env, reg, clock) && Evolves(read, reg, before) && before <= clock
  {
    hide RegistryOk, Evolves;
  }

  // ---- Registrations ----

  /** Some key vouches for itself. */
  lemma {:induction false} RootAbove(env: Env, reg: Registry, clock: u64, key: string) returns (root: string)
    requires RegistryOk(env, reg, clock) && Grounded(reg) && key in reg.agents
    ensures root in reg.agents && Entry(reg.agents, root).registeredBy == root
    decreases Level(reg, key)
  {
    hide AgentOk, EventOk, Grounded, Level;
    if reg.agents[key].registeredBy == key {
      root := key;
    } else {
      RegistrarRegistered(env, reg, clock, key);
      RegistrarFalls(reg, key);
      root := RootAbove(env, reg, clock, reg.agents[key].registeredBy);
    }
  }

  lemma SelfRegisteredIsRoot(env: Env, reg: Registry, clock: u64, key: string)
    requires RegistryOk(env, reg, clock) && key in reg.agents && reg.agents[key].registeredBy == key
    ensures reg.trustedRoot == Some(key)
  {
    hide EventOk, Authentic, EndFrom, Grounded;
    assert AgentOk(env, reg, clock, key);
  }

  lemma RegistrarVouches(env: Env, reg: Registry, clock: u64, key: string)
    requires RegistryOk(env, reg, clock) && Grounded(reg) && key in reg.agents && Entry(reg.agents, key).registeredBy != key
    ensures Vouches(reg, Entry(reg.agents, key).registeredBy, Entry(reg.agents, key).registeredAt, Entry(reg.agents, key).tenantId)
  {
    hide EventOk, Authentic, EndFrom, Grounded, Vouches;
    assert AgentOk(env, reg, clock, key);
  }

  /** A late registration keeps the keys in order exactly when its registrar had not ended by its instant;
      a late first registration, exactly when it is still the first. */
  lemma LateRegistrationKeepsExactly(env: Env, read: Registry, before: u64, reg: Registry, clock: u64, registrar: string, publicKey: string,
                                     alias: string, metadata: Option<Value>, at: u64, now: u64)
    requires Honest(env) && env.crypto.isPublicKey(registrar)
    requires WentOn(env, read, before, reg, clock) && Grounded(reg) && Grounded(read) && before < at <= now && clock <= now
    requires LateRegistration(env, read, reg, registrar, publicKey, alias, metadata, at).Ok?
    ensures RegistryOk(env, Good(LateRegistration(env, read, reg, registrar, publicKey, alias, metadata, at)), now) <==>
      if read.agents == map[] then reg.agents == map[] else Lasts(reg, registrar, at)
  {
    hide AgentOk, EventOk, Grounded, PrepareRegistration, Vouches, Evolves, Authentic, Lasts, Honest, WentOn, RegistryOk, IsBlank;
    var row := PrepareRegistration(env, read, registrar, publicKey, alias, metadata, at).value;
    var reg' := LateRegistration(env, read, reg, registrar, publicKey, alias, metadata, at).value;
    WentOnMeans(env, read, before, reg, clock);
    EmptyHasNoEvents(env, reg, clock);
    RegistrationIsFresh(env, read, before, registrar, publicKey, alias, metadata, at);
    if read.agents == map[] {
      if reg.agents == map[] {
        AddKeepsRegistry(env, reg, clock, publicKey, row, now);
      } else if RegistryOk(env, reg', now) {
        var key :| key in reg.agents;
        var root := RootAbove(env, reg, clock, key);
        assert reg'.agents[root] == reg.agents[root];
        SelfRegisteredIsRoot(env, reg', now, root);
      }
    } else {
      GateVouches(env, read, before, reg, clock, registrar, at, row.tenantId);
      assert reg' == AddAgent(reg, publicKey, row);
      if Lasts(reg, registrar, at) {
        AddKeepsRegistry(env, reg, clock, publicKey, row, now);
      }
      if RegistryOk(env, reg', now) {
        RegistryGrounded(env, reg', now);
        RegistrarVouches(env, reg', now, publicKey);
        VouchesLasts(reg', registrar, at, row.tenantId);
        assert reg'.agents[registrar] == reg.agents[registrar];
        LastsLocal(reg, reg', registrar, at);
      }
    }
  }

  lemma LastsLocal(reg: Registry, reg': Registry, key: string, at: u64)
    requires key in reg.agents && key in reg'.agents && reg'.agents[key] == reg.agents[key]
    ensures Lasts(reg', key, at) <==> Lasts(reg, key, at)
  {}

  // ---- A second root ----

  /** A key is no root, and its registrar is one of a set. */
  predicate Within(reg: Registry, keys: set<string>, key: string) {
    key in reg.agents && reg.agents[key].registeredBy in keys && reg.trustedRoot != Some(key)
  }

  /** Among keys that vouch only for one another, without the root, none verifies. */
  lemma {:induction false} NoneTrusted(c: Crypto, reg: Registry, keys: set<string>, key: string, at: u64, visited: set<string>)
    requires Grounded(reg) && key in keys && forall k {:trigger Within(reg, keys, k)} :: k in keys ==> Within(reg, keys, k)
    ensures !Trusted(VerifyAgentInner(c, reg, key, at, visited))
    decreases Level(reg, key)
  {
    hide Grounded, Level, Authentic, LifecycleEnd, EndMatches, ValidAt;
    assert Within(reg, keys, key);
    var row := reg.agents[key];
    if row.registeredBy != key {
      RegistrarFalls(reg, key);
      NoneTrusted(c, reg, keys, row.registeredBy, row.registeredAt, visited + {key});
    }
  }

  /** A key was found, active or not. */
  predicate Trusted(r: Result<Option<AgentState>, IdentityError>) {
    r.Ok? && r.value.Some?
  }

  lemma SameCalls(reg: Registry, reg': Registry)
    requires reg'.agents == reg.agents && reg'.lifecycle == reg.lifecycle
    ensures Grounded(reg') <==> Grounded(reg)
  {
    hide SignerOf, Height;
    forall key: string, other: string ensures CallsFor(reg', key, other) <==> CallsFor(reg, key, other) {}
    if Grounded(reg) {
      var m: map<string, nat> :| Terminates(reg, m);
      assert Terminates(reg', m);
    }
    if Grounded(reg') {
      var m: map<string, nat> :| Terminates(reg', m);
      assert Terminates(reg, m);
    }
  }

  lemma NewcomerUncalled(env: Env, reg: Registry, clock: u64, key: string)
    requires RegistryOk(env, reg, clock) && key !in reg.agents
    ensures forall k <- reg.agents :: reg.agents[k].registeredBy != key
    ensures forall i | 0 <= i < |reg.lifecycle| :: SignerOf(reg.lifecycle[i]) != key
  {
    hide AgentOk, EventOk, Grounded, SignerOf;
    forall k | k in reg.agents ensures reg.agents[k].registeredBy != key { RegistrarRegistered(env, reg, clock, k); }
    forall i | 0 <= i < |reg.lifecycle| ensures SignerOf(reg.lifecycle[i]) != key { SubjectRegistered(env, reg, clock, i); }
  }

  /** Two gates start on an empty database: the later of the first registrations replaces the root, and no
      key registered before can be verified any more. */
  lemma LateRootDisplaces(env: Env, read: Registry, before: u64, reg: Registry, clock: u64, registrar: string, publicKey: string,
                          alias: string, metadata: Option<Value>, at: u64, key: string, t: u64)
    requires Honest(env) && env.crypto.isPublicKey(registrar)
    requires WentOn(env, read, before, reg, clock) && Grounded(read) && before < at && read.agents == map[]
    requires LateRegistration(env, read, reg, registrar, publicKey, alias, metadata, at).Ok? && key in reg.agents
    ensures var reg' := Good(LateRegistration(env, read, reg, registrar, publicKey, alias, metadata, at));
      Grounded(reg') && !Trusted(VerifyAgentAt(env.crypto, reg', key, t))
  {
    hide AgentOk, EventOk, Grounded, PrepareRegistration, Evolves, Honest, WentOn, RegistryOk, VerifyAgentInner, SignerOf, Trusted;
    var reg' := LateRegistration(env, read, reg, registrar, publicKey, alias, metadata, at).value;
    var row := PrepareRegistration(env, read, registrar, publicKey, alias, metadata, at).value;
    WentOnMeans(env, read, before, reg, clock);
    RegistryGrounded(env, reg, clock);
    NewcomerUncalled(env, reg, clock, publicKey);
    AddGrounds(reg, publicKey, row);
    SameCalls(AddAgent(reg, publicKey, row), reg');
    forall k | k in reg.agents ensures Within(reg', reg.agents.Keys, k) { RegistrarRegistered(env, reg, clock, k); }
    NoneTrusted(env.crypto, reg', reg.agents.Keys, key, t, {});
  }

  // ---- One key at a time ----

  /** A late rotation leaves its identity one succession of keys exactly when the rotated key is still
      active: otherwise the identity has two last keys. */
  lemma LateRotationForks(env: Env, read: Registry, before: u64, reg: Registry, clock: u64, gate: string, currentKey: string, newKey: string, at: u64)
    requires WentOn(env, read, before, reg, clock) && Grounded(read)
    requires SuccessionsOk(reg) && LateRotation(env, read, reg, gate, currentKey, newKey, at).Ok?
    ensures currentKey in reg.agents
    ensures SuccessionsOk(Good(LateRotation(env, read, reg, gate, currentKey, newKey, at))) <==> Entry(reg.agents, currentKey).status == Active
  {
    hide RegistryOk, Grounded, RotationFault, RotationRow, Evolves, Succession, RotatedRegistration, DigestJson, HasLifecycleEvent,
      SameOrigin;
    var reg' := LateRotation(env, read, reg, gate, currentKey, newKey, at).value;
    var e := RotationRow(env, read.agents[currentKey], gate, currentKey, newKey, at);
    var row := RotatedRow(env, read.agents[currentKey], gate, currentKey, newKey, at);
    SameStart(read, reg, before, currentKey);
    if reg.agents[currentKey].status == Active {
      RotateKeepsSuccessions(reg, currentKey, e, at, newKey, row);
    } else if SuccessionsOk(reg') {
      var identityId := reg.agents[currentKey].identityId;
      assert HasSuccession(reg, identityId);
      var keys :| Succession(reg, identityId, keys);
      var last := LastKey(reg, identityId, keys);
      assert reg'.agents[newKey] == row && reg'.agents[last] == reg.agents[last];
      assert HasSuccession(reg', reg'.agents[newKey].identityId);
      var keys' :| Succession(reg', identityId, keys');
      ActiveIsLast(reg', identityId, keys', newKey);
      ActiveIsLast(reg', identityId, keys', last);
    }
  }

  lemma LastKey(reg: Registry, identityId: string, keys: seq<string>) returns (last: string)
    requires Succession(reg, identityId, keys)
    ensures last in reg.agents && reg.agents[last].identityId == identityId && reg.agents[last].status != Rotated
  {
    last := keys[|keys| - 1];
  }

  /** Some key of an identity is active. */
  predicate Alive(reg: Registry, identityId: string) {
    exists key <- reg.agents.Keys :: reg.agents[key].identityId == identityId && reg.agents[key].status == Active
  }

  /** A late revocation ends its identity exactly unless the key was rotated meanwhile to one still active. */
  lemma LateRevocationMisses(env: Env, read: Registry, before: u64, reg: Registry, clock: u64, gate: string, publicKey: string, reason: string, at: u64)
    requires WentOn(env, read, before, reg, clock) && Grounded(read)
    requires SuccessionsOk(reg) && LateRevocation(env, read, reg, gate, publicKey, reason, at).Ok?
    ensures publicKey in reg.agents
    ensures Alive(Good(LateRevocation(env, read, reg, gate, publicKey, reason, at)), Entry(reg.agents, publicKey).identityId)
      <==> Entry(reg.agents, publicKey).status == Rotated && Alive(reg, Entry(reg.agents, publicKey).identityId)
  {
    hide RegistryOk, Grounded, RevocationFault, RevocationRow, Evolves, Succession, DigestJson, HasLifecycleEvent, SameOrigin;
    var reg' := LateRevocation(env, read, reg, gate, publicKey, reason, at).value;
    var identityId := reg.agents[publicKey].identityId;
    assert HasSuccession(reg, identityId);
    var keys :| Succession(reg, identityId, keys);
    if reg.agents[publicKey].status == Rotated {
      assert reg'.agents == reg.agents;
    } else if Alive(reg', identityId) {
      var key :| key in reg'.agents.Keys && reg'.agents[key].identityId == identityId && reg'.agents[key].status == Active;
      assert key != publicKey;
      ActiveIsLast(reg, identityId, keys, publicKey);
      ActiveIsLast(reg, identityId, keys, key);
    }
  }
}
