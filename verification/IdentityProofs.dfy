/** Registries in order: the verification of a key has a closed form there, and registering or retiring a key
    keeps the order and never rewrites the past. */
module IdentityProofs {
  import opened Prelude
  import opened Names
  import opened Json
  import opened Crypto
  import opened Identity

  // ---- Reference definitions ----

  /** The key's validity window, as its columns state it. */
  predicate InWindow(row: AgentRow, at: u64) {
    row.validFrom <= at && (row.validUntil.Some? ==> at < row.validUntil.value)
  }

  function StateAt(row: AgentRow, at: u64): AgentState {
    AgentState(InWindow(row, at), row.canDelegate, row.tenantId, row.identityId, row.metadata)
  }

  /** How many keys there are from a key up to the root that vouches for it. */
  ghost function ChainLength(reg: Registry, key: string): (n: nat)
    ensures n >= 1
    decreases Level(reg, key)
  {
    if Grounded(reg) && key in reg.agents && reg.agents[key].registeredBy != key
    then RegistrarFalls(reg, key); 1 + ChainLength(reg, reg.agents[key].registeredBy)
    else 1
  }

  const LONGEST_CHAIN := 17

  /** What verifying a key at an instant amounts to in a registry in order. */
  ghost function ClosedForm(reg: Registry, key: string, at: u64): Option<AgentState> {
    if key in reg.agents && ChainLength(reg, key) <= LONGEST_CHAIN then Some(StateAt(reg.agents[key], at)) else None
  }

  /** A key could act as a delegator for a tenant at an instant. */
  ghost predicate Vouches(reg: Registry, key: string, at: u64, tenantId: string) {
    && key in reg.agents
    && reg.agents[key].canDelegate
    && InWindow(reg.agents[key], at)
    && ChainLength(reg, key) <= LONGEST_CHAIN
    && reg.agents[key].tenantId in {"*", tenantId}
  }

  /** The first event that ends a key, without the checks. */
  function EndFrom(reg: Registry, key: string, i: nat, end: Option<End>): Option<End>
    decreases |reg.lifecycle| - i
  {
    if i >= |reg.lifecycle| || key !in reg.agents then end
    else if reg.lifecycle[i].identityId != reg.agents[key].identityId || end.Some? then EndFrom(reg, key, i + 1, end)
    else EndFrom(reg, key, i + 1, Effect(reg.lifecycle[i], key).GetOr(None))
  }

  // ---- The registry invariant ----

  /** The key an event retires. */
  function Subject(row: LifecycleRow): Option<string> {
    var event := row.json.Get(EVENT).GetOr(Null);
    if row.eventType == ROTATE then event.GetStr(PREVIOUS_PUBLIC_KEY) else event.GetStr(PUBLIC_KEY)
  }

  function KindOf(row: LifecycleRow): Kind {
    if row.eventType == ROTATE then Rotate else Revoke
  }

  /** The event's columns are those it signs, and it retires one registered key. */
  predicate EventColumnsOk(reg: Registry, row: LifecycleRow) {
    var event := row.json.Get(EVENT).GetOr(Null);
    && event.GetU64(EFFECTIVE_AT) == Some(row.effectiveAt)
    && StringField(event, EVENT_TYPE) == Some(row.eventType)
    && row.eventType in {ROTATE, REVOKE}
    && row.identityId in reg.agents
    && Subject(row).Some? && Subject(row).value in reg.agents
  }

  function EventTenant(row: LifecycleRow): string {
    StringField(row.json.Get(EVENT).GetOr(Null), TENANT_ID).GetOr("")
  }

  ghost predicate EventOk(env: Env, reg: Registry, clock: u64, row: LifecycleRow) {
    && EventColumnsOk(reg, row)
    && EventAuthentic(env.crypto, row.identityId, row)
    && StringField(row.json.Get(EVENT).value, TENANT_ID) == Some(EventTenant(row))
    && row.effectiveAt <= clock
    && Vouches(reg, SignerOf(row), row.effectiveAt, EventTenant(row))
  }

  predicate WindowOk(row: AgentRow, clock: u64) {
    && row.validFrom == row.registeredAt <= clock
    && (row.validUntil.Some? ==> row.validFrom < row.validUntil.value <= clock)
    && (row.revokedAt.Some? ==> row.revokedAt == row.validUntil && row.status == Revoked)
    && (row.status == Active <==> row.validUntil.None?)
  }

  ghost predicate AgentOk(env: Env, reg: Registry, clock: u64, key: string) {
    && key in reg.agents
    && var row := reg.agents[key];
    && Authentic(env.crypto, key, row)
    && WindowOk(row, clock)
    && EndMatches(row, EndFrom(reg, key, 0, None))
    && row.identityId in reg.agents
    && !IsBlank(row.tenantId)
    && !IsBlank(row.alias)
    && if row.registeredBy == key then reg.trustedRoot == Some(key)
       else Vouches(reg, row.registeredBy, row.registeredAt, row.tenantId)
  }

  /** Events come in the order of their instants. */
  predicate Ascending(events: seq<LifecycleRow>) {
    forall i, j | 0 <= i < j < |events| :: events[i].effectiveAt <= events[j].effectiveAt
  }

  ghost predicate RegistryOk(env: Env, reg: Registry, clock: u64) {
    && Grounded(reg)
    && Ascending(reg.lifecycle)
    && (forall key {:trigger AgentOk(env, reg, clock, key)} :: key in reg.agents ==> AgentOk(env, reg, clock, key))
    && (forall i {:trigger EventOk(env, reg, clock, reg.lifecycle[i])} :: 0 <= i < |reg.lifecycle| ==> EventOk(env, reg, clock, reg.lifecycle[i]))
  }

  lemma RegistryGrounded(env: Env, reg: Registry, clock: u64)
    requires RegistryOk(env, reg, clock)
    ensures Grounded(reg)
  {
    hide Grounded, AgentOk, EventOk;
  }

  // ---- The closed form ----

  lemma EffectMeans(reg: Registry, row: LifecycleRow, key: string)
    requires EventColumnsOk(reg, row)
    ensures Effect(row, key) == Some(if Subject(row) == Some(key) then Some(End(row.effectiveAt, KindOf(row))) else None)
  {}

  /** In a registry in order the scan of an identity's events succeeds and finds the first end. */
  lemma {:induction false} LifecycleEndClosed(env: Env, reg: Registry, clock: u64, key: string, i: nat, end: Option<End>)
    requires RegistryOk(env, reg, clock) && key in reg.agents && i <= |reg.lifecycle|
    ensures LifecycleEnd(env.crypto, reg, reg.agents[key].identityId, key, i, end) == Ok(EndFrom(reg, key, i, end))
    decreases Level(reg, key), 0, |reg.lifecycle| - i
  {
    hide EventAuthentic, Effect, VerifyAgentInner, SignerOf, EventTenant, EventColumnsOk, Grounded, Level;
    if i < |reg.lifecycle| {
      var row := reg.lifecycle[i];
      if row.identityId == reg.agents[key].identityId {
        assert EventOk(env, reg, clock, row);
        SignerVerifies(env, reg, clock, key, i);
        EffectMeans(reg, row, key);
        LifecycleEndClosed(env, reg, clock, key, i + 1, if end.Some? then end else Effect(row, key).value);
      } else {
        LifecycleEndClosed(env, reg, clock, key, i + 1, end);
      }
    }
  }

  /** The signer of an event of a key's identity verifies at the time of the event. */
  lemma {:induction false} SignerVerifies(env: Env, reg: Registry, clock: u64, key: string, i: nat)
    requires RegistryOk(env, reg, clock) && key in reg.agents
    requires i < |reg.lifecycle| && ItemAt(reg.lifecycle, i).identityId == Entry(reg.agents, key).identityId
    ensures var row := ItemAt(reg.lifecycle, i);
      && EventAuthentic(env.crypto, row.identityId, row)
      && row.json.Get(EVENT).value.GetU64(EFFECTIVE_AT) == Some(row.effectiveAt)
      && SignerOf(row) in reg.agents
      && VerifyAgentInner(env.crypto, reg, SignerOf(row), row.effectiveAt, {}) == Ok(Some(StateAt(Entry(reg.agents, SignerOf(row)), row.effectiveAt)))
    decreases Level(reg, key), 0, 0
  {
    hide EventAuthentic, VerifyAgentInner, SignerOf, EventTenant, Grounded, Level;
    var row := reg.lifecycle[i];
    assert EventOk(env, reg, clock, row);
    SignerFalls(reg, key, i);
    VerifyClosed(env, reg, clock, SignerOf(row), row.effectiveAt, {});
  }

  lemma {:induction false} VerifyClosed(env: Env, reg: Registry, clock: u64, key: string, at: u64, visited: set<string>)
    requires RegistryOk(env, reg, clock)
    requires forall v <- visited :: Level(reg, v) > Level(reg, key)
    ensures VerifyAgentInner(env.crypto, reg, key, at, visited)
      == Ok(if key in reg.agents && |visited| + ChainLength(reg, key) <= LONGEST_CHAIN then Some(StateAt(Entry(reg.agents, key), at)) else None)
    decreases Level(reg, key), 1, 0
  {
    hide Authentic, LifecycleEnd, EndFrom, EventOk, Grounded, Level;
    if key in reg.agents && |visited| <= MAX_VISITED {
      assert key !in visited;
      var row := reg.agents[key];
      assert AgentOk(env, reg, clock, key);
      LifecycleEndClosed(env, reg, clock, key, 0, None);
      WindowFromEnd(row, EndFrom(reg, key, 0, None), clock, at);
      if row.registeredBy != key {
        RegistrarFalls(reg, key);
        VerifyClosed(env, reg, clock, row.registeredBy, row.registeredAt, visited + {key});
      }
    }
  }

  lemma WindowFromEnd(row: AgentRow, end: Option<End>, clock: u64, at: u64)
    requires WindowOk(row, clock) && EndMatches(row, end)
    ensures ValidAt(row, end, at) <==> InWindow(row, at)
  {}

  /** A key verifies at an instant exactly when it is registered and its chain is short enough,
      and it is active exactly inside its window. */
  lemma VerifyIsClosedForm(env: Env, reg: Registry, clock: u64, key: string, at: u64)
    requires RegistryOk(env, reg, clock)
    ensures VerifyAgentAt(env.crypto, reg, key, at) == Ok(ClosedForm(reg, key, at))
  {
    VerifyClosed(env, reg, clock, key, at, {});
  }

  // ======== Registering, rotating and revoking keep the registry in order and never rewrite its past.

  // ---- What a step may change ----

  /** Everything about a row but how it ended. */
  predicate SameOrigin(row: AgentRow, row': AgentRow) {
    row'.(status := row.status, validUntil := row.validUntil, revokedAt := row.revokedAt) == row
  }

  ghost predicate KeepsRows(reg: Registry, reg': Registry) {
    forall key {:trigger key in reg.agents} :: key in reg.agents ==> key in reg'.agents && SameOrigin(reg.agents[key], reg'.agents[key])
  }

  /** A row changes only by being retired, after everything that has happened so far. */
  predicate RowEvolves(row: AgentRow, row': AgentRow, clock: u64) {
    && SameOrigin(row, row')
    && (row' == row || (row.status == Active && row.validUntil.None? && row'.validUntil.Some? && row'.validUntil.value > clock))
  }

  ghost predicate Evolves(reg: Registry, reg': Registry, clock: u64) {
    && (reg.agents != map[] ==> reg'.trustedRoot == reg.trustedRoot)
    && (forall key {:trigger key in reg.agents} :: key in reg.agents ==> key in reg'.agents && RowEvolves(reg.agents[key], reg'.agents[key], clock))
    && (forall key {:trigger key in reg'.agents} :: key in reg'.agents && key !in reg.agents ==> reg'.agents[key].registeredAt > clock)
  }

  lemma WindowKept(row: AgentRow, row': AgentRow, clock: u64, at: u64)
    requires RowEvolves(row, row', clock) && at <= clock
    ensures InWindow(row', at) <==> InWindow(row, at)
    ensures StateAt(row', at) == StateAt(row, at)
  {}

  lemma RegistrarRegistered(env: Env, reg: Registry, clock: u64, key: string)
    requires RegistryOk(env, reg, clock) && key in reg.agents
    ensures Entry(reg.agents, key).registeredBy in reg.agents
    ensures Entry(reg.agents, key).registeredAt <= clock
  {
    hide EndFrom, Authentic;
    assert AgentOk(env, reg, clock, key);
  }

  lemma {:induction false} ChainKept(env: Env, reg: Registry, reg': Registry, clock: u64, key: string)
    requires RegistryOk(env, reg, clock) && Grounded(reg') && KeepsRows(reg, reg')
    requires key in reg.agents
    ensures key in reg'.agents && ChainLength(reg', key) == ChainLength(reg, key)
    decreases Level(reg, key)
  {
    hide AgentOk, EventOk, Level;
    RegistrarRegistered(env, reg, clock, key);
    assert SameOrigin(reg.agents[key], reg'.agents[key]);
    if reg.agents[key].registeredBy != key {
      RegistrarFalls(reg, key);
      ChainKept(env, reg, reg', clock, reg.agents[key].registeredBy);
    }
  }

  lemma VouchesKept(env: Env, reg: Registry, reg': Registry, clock: u64, key: string, at: u64, tenantId: string)
    requires RegistryOk(env, reg, clock) && Grounded(reg') && KeepsRows(reg, reg')
    requires Vouches(reg, key, at, tenantId)
    requires key in reg'.agents && InWindow(Entry(reg'.agents, key), at)
    ensures Vouches(reg', key, at, tenantId)
  {
    hide AgentOk, EventOk, ChainLength;
    assert SameOrigin(reg.agents[key], reg'.agents[key]);
    ChainKept(env, reg, reg', clock, key);
  }

  /** The part of a verification that decisions rest on: the state, if it is an active one. */
  function ActiveView(r: Result<Option<AgentState>, IdentityError>): Option<AgentState> {
    if r.Ok? && r.value.Some? && r.value.value.active then r.value else None
  }

  /** Nothing a step does changes what a key verifies as at a past instant. */
  lemma HistoryKept(env: Env, reg: Registry, reg': Registry, clock: u64, clock': u64, key: string, at: u64)
    requires RegistryOk(env, reg, clock) && RegistryOk(env, reg', clock') && Evolves(reg, reg', clock)
    requires at <= clock
    ensures ActiveView(VerifyAgentAt(env.crypto, reg', key, at)) == ActiveView(VerifyAgentAt(env.crypto, reg, key, at))
    ensures key in reg.agents ==> VerifyAgentAt(env.crypto, reg', key, at) == VerifyAgentAt(env.crypto, reg, key, at)
  {
    hide AgentOk, EventOk, ChainLength, VerifyAgentInner;
    VerifyIsClosedForm(env, reg, clock, key, at);
    VerifyIsClosedForm(env, reg', clock', key, at);
    assert KeepsRows(reg, reg');
    if key in reg.agents {
      WindowKept(reg.agents[key], reg'.agents[key], clock, at);
      ChainKept(env, reg, reg', clock, key);
    } else if key in reg'.agents {
      assert reg'.agents[key].registeredAt > clock;
      assert AgentOk(env, reg', clock', key);
      StartsWithRegistration(env, reg', clock', key);
    }
  }

  lemma StartsWithRegistration(env: Env, reg: Registry, clock: u64, key: string)
    requires Grounded(reg) && key in reg.agents && AgentOk(env, reg, clock, key)
    ensures Entry(reg.agents, key).validFrom == Entry(reg.agents, key).registeredAt
  {
    hide Authentic, EndFrom;
  }

  // ---- Adding a row ----

  /** The row of a new key: signed, active from its registration on, and vouched for. */
  ghost predicate FreshRow(env: Env, reg: Registry, key: string, row: AgentRow) {
    && key !in reg.agents
    && Authentic(env.crypto, key, row)
    && row.validFrom == row.registeredAt && row.status == Active && row.validUntil.None? && row.revokedAt.None?
    && (row.identityId == key || row.identityId in reg.agents)
    && !IsBlank(row.tenantId) && !IsBlank(row.alias)
    && if reg.agents == map[] then row.registeredBy == key
       else row.registeredBy != key && Vouches(reg, row.registeredBy, row.registeredAt, row.tenantId)
  }

  lemma SubjectRegistered(env: Env, reg: Registry, clock: u64, i: nat)
    requires RegistryOk(env, reg, clock) && i < |reg.lifecycle|
    ensures EventColumnsOk(reg, ItemAt(reg.lifecycle, i))
    ensures SignerOf(ItemAt(reg.lifecycle, i)) in reg.agents
  {
    hide AgentOk;
    assert EventOk(env, reg, clock, reg.lifecycle[i]);
  }

  lemma SignerRegistered(env: Env, reg: Registry, clock: u64, row: LifecycleRow)
    requires RegistryOk(env, reg, clock) && row in reg.lifecycle
    ensures SignerOf(row) in reg.agents
  {
    hide RegistryOk, SignerOf;
    var i :| 0 <= i < |reg.lifecycle| && reg.lifecycle[i] == row;
    SubjectRegistered(env, reg, clock, i);
  }

  lemma {:induction false} Bounded(measure: map<string, nat>) returns (bound: nat)
    ensures forall k: string :: Height(measure, k) < bound
    decreases |measure|
  {
    if measure == map[] {
      bound := 1;
    } else {
      var k :| k in measure;
      var rest := measure - {k};
      assert measure.Keys == rest.Keys + {k};
      assert |measure.Keys| == |measure| && |rest.Keys| == |rest|;
      var b := Bounded(rest);
      bound := b + measure[k] + 1;
      forall x: string ensures Height(measure, x) < bound {
        assert Height(rest, x) < b;
      }
    }
  }

  /** A key nobody calls for yet can be added above all others. */
  lemma AddGrounds(reg: Registry, key: string, row: AgentRow)
    requires key !in reg.agents
    requires forall k <- reg.agents :: reg.agents[k].registeredBy != key
    requires forall i | 0 <= i < |reg.lifecycle| :: SignerOf(reg.lifecycle[i]) != key
    ensures Grounded(AddAgent(reg, key, row)) <==> Grounded(reg)
  {
    hide SignerOf, Height;
    var reg' := AddAgent(reg, key, row);
    if Grounded(reg) {
      var m: map<string, nat> :| Terminates(reg, m);
      var bound := Bounded(m);
      var m' := m[key := bound];
      assert forall k: string :: k != key ==> Height(m', k) == Height(m, k) by { HeightsElsewhere(m, key, bound); }
      assert Height(m', key) == bound by { HeightsElsewhere(m, key, bound); }
      forall k: string, other: string | CallsFor(reg', k, other) ensures Height(m', other) < Height(m', k) {
        assert other != key;
        if k != key { assert CallsFor(reg, k, other); }
      }
      assert Terminates(reg', m');
    }
    if Grounded(reg') {
      var m: map<string, nat> :| Terminates(reg', m);
      forall k: string, other: string | CallsFor(reg, k, other) ensures Height(m, other) < Height(m, k) {
        assert CallsFor(reg', k, other);
      }
      assert Terminates(reg, m);
    }
  }

  lemma HeightsElsewhere(m: map<string, nat>, key: string, height: nat)
    ensures Height(m[key := height], key) == height
    ensures forall k: string :: k != key ==> Height(m[key := height], k) == Height(m, k)
  {}

  lemma AddKeepsGrounded(env: Env, reg: Registry, clock: u64, key: string, row: AgentRow)
    requires RegistryOk(env, reg, clock) && FreshRow(env, reg, key, row)
    ensures Grounded(AddAgent(reg, key, row))
    ensures KeepsRows(reg, AddAgent(reg, key, row))
  {
    hide AgentOk, EventOk, Authentic, ChainLength, Vouches, SignerOf, Grounded;
    forall k | k in reg.agents ensures reg.agents[k].registeredBy != key { RegistrarRegistered(env, reg, clock, k); }
    forall i | 0 <= i < |reg.lifecycle| ensures SignerOf(reg.lifecycle[i]) != key { SubjectRegistered(env, reg, clock, i); }
    AddGrounds(reg, key, row);
  }

  /** A key no event names has not ended. */
  lemma {:induction false} NoEnd(env: Env, reg: Registry, clock: u64, reg': Registry, key: string, i: nat)
    requires RegistryOk(env, reg, clock) && i <= |reg.lifecycle|
    requires key !in reg.agents && key in reg'.agents && reg'.lifecycle == reg.lifecycle
    ensures EndFrom(reg', key, i, None) == None
    decreases |reg.lifecycle| - i
  {
    hide Effect, Subject, AgentOk, EventOk;
    if i < |reg.lifecycle| {
      SubjectRegistered(env, reg, clock, i);
      SubjectDiffers(reg, reg.lifecycle[i], key);
      EffectMeans(reg, reg.lifecycle[i], key);
      NoEnd(env, reg, clock, reg', key, i + 1);
    }
  }

  lemma SubjectDiffers(reg: Registry, row: LifecycleRow, key: string)
    requires EventColumnsOk(reg, row) && key !in reg.agents
    ensures Subject(row) != Some(key)
  {}

  /** The end of a key depends only on its identity and on the events. */
  lemma {:induction false} SameEvents(reg: Registry, reg': Registry, key: string, i: nat, end: Option<End>)
    requires key in reg.agents && key in reg'.agents && reg'.lifecycle == reg.lifecycle && i <= |reg.lifecycle|
    requires reg'.agents[key].identityId == reg.agents[key].identityId
    ensures EndFrom(reg', key, i, end) == EndFrom(reg, key, i, end)
    decreases |reg.lifecycle| - i
  {
    hide Effect;
    if i < |reg.lifecycle| {
      SameEvents(reg, reg', key, i + 1, if end.Some? || reg.lifecycle[i].identityId != reg.agents[key].identityId then end
        else Effect(reg.lifecycle[i], key).GetOr(None));
    }
  }

  /** An event stays in order when its signer keeps its window at the time of the event. */
  lemma EventKept(env: Env, reg: Registry, clock: u64, reg': Registry, clock': u64, row: LifecycleRow)
    requires RegistryOk(env, reg, clock) && EventOk(env, reg, clock, row)
    requires Grounded(reg') && KeepsRows(reg, reg') && clock <= clock'
    requires SignerOf(row) in reg'.agents && InWindow(Entry(reg'.agents, SignerOf(row)), row.effectiveAt)
    ensures EventOk(env, reg', clock', row)
  {
    hide EventAuthentic, SignerOf, EventTenant, AgentOk, ChainLength, InWindow, Subject;
    VouchesKept(env, reg, reg', clock, SignerOf(row), row.effectiveAt, EventTenant(row));
    assert KeepsRows(reg, reg');
  }

  /** An agent stays in order when it ends as its events say and its registrar keeps its window. */
  lemma AgentKept(env: Env, reg: Registry, clock: u64, reg': Registry, clock': u64, key: string)
    requires RegistryOk(env, reg, clock) && key in reg.agents && AgentOk(env, reg, clock, key)
    requires Grounded(reg') && KeepsRows(reg, reg') && clock <= clock'
    requires reg'.trustedRoot == reg.trustedRoot
    requires key in reg'.agents && WindowOk(reg'.agents[key], clock') && EndMatches(reg'.agents[key], EndFrom(reg', key, 0, None))
    requires var registrar := reg.agents[key].registeredBy;
      registrar == key || (registrar in reg'.agents && InWindow(reg'.agents[registrar], reg.agents[key].registeredAt))
    ensures AgentOk(env, reg', clock', key)
  {
    hide EndFrom, ChainLength, InWindow, DigestJson, MatchesColumns, EndMatches, WindowOk, EventOk;
    var row := reg.agents[key];
    assert SameOrigin(row, reg'.agents[key]);
    OriginAuthentic(env.crypto, key, row, reg'.agents[key]);
    if row.registeredBy != key {
      VouchesKept(env, reg, reg', clock, row.registeredBy, row.registeredAt, row.tenantId);
    }
  }

  lemma OriginAuthentic(c: Crypto, key: string, row: AgentRow, row': AgentRow)
    requires SameOrigin(row, row') && Authentic(c, key, row)
    ensures Authentic(c, key, row')
  {}

  /** Adding a fresh key keeps the registry in order, however long ago it was registered. */
  lemma AddKeepsRegistry(env: Env, reg: Registry, clock: u64, key: string, row: AgentRow, now: u64)
    requires RegistryOk(env, reg, clock) && FreshRow(env, reg, key, row) && clock <= now && row.registeredAt <= now
    requires reg.agents == map[] ==> reg.lifecycle == []
    ensures RegistryOk(env, AddAgent(reg, key, row), now)
  {
    hide AgentOk, EventOk, Authentic, ChainLength, EndFrom, Grounded, KeepsRows, InWindow;
    var reg' := AddAgent(reg, key, row);
    AddKeepsGrounded(env, reg, clock, key, row);
    forall k | k in reg'.agents ensures AgentOk(env, reg', now, k) {
      if k == key { NewAgentOk(env, reg, clock, key, row, now); } else { OldAgentOk(env, reg, clock, key, row, k, now); }
    }
    forall i | 0 <= i < |reg'.lifecycle| ensures EventOk(env, reg', now, reg'.lifecycle[i]) {
      var e := reg.lifecycle[i];
      assert EventOk(env, reg, clock, e);
      SubjectRegistered(env, reg, clock, i);
      EventWindow(env, reg, clock, e);
      EventKept(env, reg, clock, reg', now, e);
    }
  }

  lemma EventWindow(env: Env, reg: Registry, clock: u64, row: LifecycleRow)
    requires Grounded(reg) && EventOk(env, reg, clock, row)
    ensures SignerOf(row) in reg.agents && InWindow(reg.agents[SignerOf(row)], row.effectiveAt) && row.effectiveAt <= clock
  {}

  lemma NewAgentOk(env: Env, reg: Registry, clock: u64, key: string, row: AgentRow, now: u64)
    requires RegistryOk(env, reg, clock) && FreshRow(env, reg, key, row) && row.registeredAt <= now
    requires Grounded(AddAgent(reg, key, row)) && KeepsRows(reg, AddAgent(reg, key, row))
    ensures AgentOk(env, AddAgent(reg, key, row), now, key)
  {
    hide AgentOk, EventOk, Authentic, ChainLength, EndFrom, Grounded, KeepsRows;
    var reg' := AddAgent(reg, key, row);
    NoEnd(env, reg, clock, reg', key, 0);
    if reg.agents != map[] {
      VouchesKept(env, reg, reg', clock, row.registeredBy, row.registeredAt, row.tenantId);
    }
    FreshAgentOk(env, reg', now, key);
  }

  lemma FreshAgentOk(env: Env, reg: Registry, clock: u64, key: string)
    requires Grounded(reg) && key in reg.agents
    requires var row := reg.agents[key];
      && Authentic(env.crypto, key, row) && WindowOk(row, clock) && row.status == Active && row.validUntil.None? && row.revokedAt.None?
      && row.identityId in reg.agents && !IsBlank(row.tenantId) && !IsBlank(row.alias)
      && EndFrom(reg, key, 0, None) == None
      && if row.registeredBy == key then reg.trustedRoot == Some(key) else Vouches(reg, row.registeredBy, row.registeredAt, row.tenantId)
    ensures AgentOk(env, reg, clock, key)
  {
    hide EndFrom, Authentic, ChainLength;
  }

  lemma OldAgentOk(env: Env, reg: Registry, clock: u64, key: string, row: AgentRow, k: string, now: u64)
    requires RegistryOk(env, reg, clock) && FreshRow(env, reg, key, row) && clock <= now
    requires Grounded(AddAgent(reg, key, row)) && KeepsRows(reg, AddAgent(reg, key, row))
    requires k in reg.agents
    ensures AgentOk(env, AddAgent(reg, key, row), now, k)
  {
    hide EventOk, Authentic, ChainLength, EndFrom, Grounded, KeepsRows, EndMatches;
    var reg' := AddAgent(reg, key, row);
    assert AgentOk(env, reg, clock, k);
    SameEvents(reg, reg', k, 0, None);
    RegistrarRegistered(env, reg, clock, k);
    RegistrarWindow(env, reg, clock, k);
    WindowLater(reg.agents[k], clock, now);
    AgentKept(env, reg, clock, reg', now, k);
  }

  lemma WindowLater(row: AgentRow, clock: u64, now: u64)
    requires WindowOk(row, clock) && clock <= now
    ensures WindowOk(row, now)
  {}

  lemma EmptyHasNoEvents(env: Env, reg: Registry, clock: u64)
    requires RegistryOk(env, reg, clock)
    ensures reg.agents == map[] ==> reg.lifecycle == []
  {
    hide RegistryOk;
    if reg.lifecycle != [] { SubjectRegistered(env, reg, clock, 0); }
  }

  // ---- Retiring a key ----

  function RetireKey(reg: Registry, key: string, kind: Kind, e: LifecycleRow, now: u64): Registry {
    if key !in reg.agents then reg
    else reg.(agents := reg.agents[key := RetireRow(reg.agents[key], kind, now)], lifecycle := Filed(reg.lifecycle, e))
  }

  /** What is read after an event is filed. */
  lemma FiledRows(events: seq<LifecycleRow>, e: LifecycleRow)
    ensures var (p, filed) := (PlaceOf(events, e.effectiveAt), Filed(events, e));
      && |filed| == |events| + 1 && filed[p] == e
      && (forall i | 0 <= i < p :: filed[i] == events[i]) && (forall i | p <= i < |events| :: filed[i + 1] == events[i])
    ensures forall row :: row in Filed(events, e) <==> row in events || row == e
  {
    hide PlaceOf, Filed;
    FiledAt(events, e);
    FiledMembers(events, e);
  }

  lemma FiledAt(events: seq<LifecycleRow>, e: LifecycleRow)
    ensures var (p, filed) := (PlaceOf(events, e.effectiveAt), Filed(events, e));
      && |filed| == |events| + 1 && filed[p] == e
      && (forall i | 0 <= i < p :: filed[i] == events[i]) && (forall i | p <= i < |events| :: filed[i + 1] == events[i])
  {
    hide PlaceOf;
    InsertedAt(events, PlaceOf(events, e.effectiveAt), e);
  }

  lemma InsertedAt<T>(s: seq<T>, p: nat, x: T)
    requires p <= |s|
    ensures var more := s[..p] + [x] + s[p..];
      && |more| == |s| + 1 && more[p] == x && (forall i | 0 <= i < p :: more[i] == s[i]) && (forall i | p <= i < |s| :: more[i + 1] == s[i])
  {
    var more := s[..p] + [x] + s[p..];
    forall i | p <= i < |s| ensures more[i + 1] == s[i] {
      assert more[i + 1] == s[p..][i - p];
    }
  }

  lemma FiledMembers(events: seq<LifecycleRow>, e: LifecycleRow)
    ensures forall row :: row in Filed(events, e) <==> row in events || row == e
  {
    hide PlaceOf;
    var p := PlaceOf(events, e.effectiveAt);
    Inserted(events[..p], e, events[p..]);
    assert events == events[..p] + events[p..];
  }

  lemma Inserted<T(!new)>(a: seq<T>, x: T, b: seq<T>)
    ensures forall y :: y in a + [x] + b <==> y in a + b || y == x
  {}

  lemma FiledAscends(events: seq<LifecycleRow>, e: LifecycleRow)
    requires Ascending(events)
    ensures Ascending(Filed(events, e))
  {
    hide PlaceOf;
  }

  /** Verifying a key calls, directly or through other keys, for verifying a key of an identity. */
  ghost predicate DependsOn(reg: Registry, key: string, identityId: string)
    decreases Level(reg, key)
  {
    && Grounded(reg) && key in reg.agents
    && (|| reg.agents[key].identityId == identityId
        || (reg.agents[key].registeredBy != key && (RegistrarFalls(reg, key); DependsOn(reg, reg.agents[key].registeredBy, identityId)))
        || exists i | 0 <= i < |reg.lifecycle| && reg.lifecycle[i].identityId == reg.agents[key].identityId ::
             (SignerFalls(reg, key, i); DependsOn(reg, SignerOf(reg.lifecycle[i]), identityId)))
  }

  /** Who is called for is depended on. */
  lemma DependsThrough(reg: Registry, key: string, other: string, identityId: string)
    requires Grounded(reg) && CallsFor(reg, key, other) && DependsOn(reg, other, identityId)
    ensures DependsOn(reg, key, identityId)
  {
    hide SignerOf, Grounded, Level;
  }

  /** After a key of the identity is retired, a key that depended on the identity depends on the signer. */
  lemma {:induction false} DependsClimbs(reg: Registry, key: string, kind: Kind, e: LifecycleRow, now: u64, m: map<string, nat>, x: string)
    requires Grounded(reg) && key in reg.agents
    requires Terminates(RetireKey(reg, key, kind, e, now), m)
    requires DependsOn(reg, x, e.identityId)
    ensures Height(m, SignerOf(e)) < Height(m, x)
    decreases Level(reg, x)
  {
    hide SignerOf, Grounded, Level, Height, Terminates, Filed;
    var reg' := RetireKey(reg, key, kind, e, now);
    FiledRows(reg.lifecycle, e);
    var p := PlaceOf(reg.lifecycle, e.effectiveAt);
    if reg.agents[x].identityId == e.identityId {
      assert reg'.lifecycle[p] == e;
      CallFalls(reg', m, x, SignerOf(e));
    } else if reg.agents[x].registeredBy != x && (RegistrarFalls(reg, x); DependsOn(reg, reg.agents[x].registeredBy, e.identityId)) {
      CallFalls(reg', m, x, reg.agents[x].registeredBy);
      DependsClimbs(reg, key, kind, e, now, m, reg.agents[x].registeredBy);
    } else {
      var i :| 0 <= i < |reg.lifecycle| && reg.lifecycle[i].identityId == reg.agents[x].identityId
        && (SignerFalls(reg, x, i); DependsOn(reg, SignerOf(reg.lifecycle[i]), e.identityId));
      assert reg'.lifecycle[if i < p then i else i + 1] == reg.lifecycle[i];
      SignerFalls(reg, x, i);
      CallFalls(reg', m, x, SignerOf(reg.lifecycle[i]));
      DependsClimbs(reg, key, kind, e, now, m, SignerOf(reg.lifecycle[i]));
    }
  }

  lemma CallFalls(reg: Registry, m: map<string, nat>, key: string, other: string)
    requires Terminates(reg, m) && CallsFor(reg, key, other)
    ensures Height(m, other) < Height(m, key)
  {
    hide CallsFor, Height;
  }

  /** A measure for the registry after a key is retired by a signer that does not depend on its
      identity: whoever depends on the identity is lifted above the signer. */
  ghost function Lifted(reg: Registry, m: map<string, nat>, signer: string, identityId: string): map<string, nat> {
    map k <- reg.agents.Keys :: Height(m, k) + (if DependsOn(reg, k, identityId) then Height(m, signer) + 1 else 0)
  }

  lemma LiftedTerminates(reg: Registry, key: string, kind: Kind, e: LifecycleRow, now: u64, m: map<string, nat>)
    requires Grounded(reg) && key in reg.agents && Terminates(reg, m)
    requires !DependsOn(reg, SignerOf(e), e.identityId)
    ensures Terminates(RetireKey(reg, key, kind, e, now), Lifted(reg, m, SignerOf(e), e.identityId))
  {
    hide SignerOf, Grounded, Level, Height, DependsOn, Terminates;
    var reg' := RetireKey(reg, key, kind, e, now);
    var m' := Lifted(reg, m, SignerOf(e), e.identityId);
    forall k: string, other: string | CallsFor(reg', k, other) ensures Height(m', other) < Height(m', k) {
      LiftedHeight(reg, m, SignerOf(e), e.identityId, k);
      LiftedHeight(reg, m, SignerOf(e), e.identityId, other);
      if CallsFor(reg, k, other) {
        CallFalls(reg, m, k, other);
        if other in reg.agents && DependsOn(reg, other, e.identityId) { DependsThrough(reg, k, other, e.identityId); }
      } else {
        NewCall(reg, key, kind, e, now, k, other);
      }
    }
    TerminatesFrom(reg', m');
  }

  lemma LiftedHeight(reg: Registry, m: map<string, nat>, signer: string, identityId: string, k: string)
    requires Grounded(reg)
    ensures Height(Lifted(reg, m, signer, identityId), k) ==
      if k !in reg.agents then 0 else Height(m, k) + (if DependsOn(reg, k, identityId) then Height(m, signer) + 1 else 0)
  {
    hide DependsOn, Grounded;
  }

  lemma TerminatesFrom(reg: Registry, m: map<string, nat>)
    requires forall k: string, other: string {:trigger CallsFor(reg, k, other)} :: CallsFor(reg, k, other) ==> Height(m, other) < Height(m, k)
    ensures Terminates(reg, m)
  {
    hide CallsFor, Height;
  }

  /** Retiring a key adds the calls from the keys of its identity to the signer of the event. */
  lemma NewCall(reg: Registry, key: string, kind: Kind, e: LifecycleRow, now: u64, k: string, other: string)
    requires Grounded(reg) && key in reg.agents
    requires CallsFor(RetireKey(reg, key, kind, e, now), k, other) && !CallsFor(reg, k, other)
    ensures k in reg.agents && reg.agents[k].identityId == e.identityId && other == SignerOf(e)
    ensures DependsOn(reg, k, e.identityId)
  {
    hide SignerOf, Grounded, Level, Filed;
    var reg' := RetireKey(reg, key, kind, e, now);
    assert reg'.agents[k].registeredBy == reg.agents[k].registeredBy;
    var i :| 0 <= i < |reg'.lifecycle| && reg'.lifecycle[i].identityId == reg'.agents[k].identityId && SignerOf(reg'.lifecycle[i]) == other;
    FiledRows(reg.lifecycle, e);
    assert reg'.lifecycle[i] in Filed(reg.lifecycle, e);
  }

  /** Verification still ends after a key is retired exactly when the signer of the event did not
      depend on the identity of the key. */
  lemma RetiringTerminates(reg: Registry, key: string, kind: Kind, e: LifecycleRow, now: u64)
    requires Grounded(reg) && key in reg.agents
    ensures Grounded(RetireKey(reg, key, kind, e, now)) <==> !DependsOn(reg, SignerOf(e), e.identityId)
  {
    hide SignerOf, Terminates, DependsOn, Level, Height;
    var reg' := RetireKey(reg, key, kind, e, now);
    if DependsOn(reg, SignerOf(e), e.identityId) {
      if Grounded(reg') {
        var m: map<string, nat> :| Terminates(reg', m);
        DependsClimbs(reg, key, kind, e, now, m, SignerOf(e));
      }
    } else {
      var m: map<string, nat> :| Terminates(reg, m);
      LiftedTerminates(reg, key, kind, e, now, m);
    }
  }

  /** An authentic event that ends a key of an identity. */
  ghost predicate NamesEnd(env: Env, reg: Registry, key: string, kind: Kind, e: LifecycleRow, at: u64) {
    && key in reg.agents
    && e.identityId == Entry(reg.agents, key).identityId
    && e.effectiveAt == at
    && EventColumnsOk(reg, e)
    && Subject(e) == Some(key) && KindOf(e) == kind
    && EventAuthentic(env.crypto, e.identityId, e)
    && StringField(The(e.json.Get(EVENT)), TENANT_ID) == Some(EventTenant(e))
    && SignerOf(e) != key
  }

  /** The event that retires an active key, signed by an active delegator independent of its identity. */
  ghost predicate EndingEvent(env: Env, reg: Registry, key: string, kind: Kind, e: LifecycleRow, now: u64) {
    && key in reg.agents && reg.agents[key].status == Active
    && NamesEnd(env, reg, key, kind, e, now)
    && Vouches(reg, SignerOf(e), now, EventTenant(e))
    && !DependsOn(reg, SignerOf(e), reg.agents[key].identityId)
  }

  lemma RetiredEvolves(env: Env, reg: Registry, clock: u64, key: string, kind: Kind, e: LifecycleRow, now: u64)
    requires RegistryOk(env, reg, clock) && clock < now && key in reg.agents && Entry(reg.agents, key).status == Active
    ensures Evolves(reg, RetireKey(reg, key, kind, e, now), clock)
    ensures KeepsRows(reg, RetireKey(reg, key, kind, e, now))
  {
    hide EventOk, Authentic, EndFrom, ChainLength;
    assert AgentOk(env, reg, clock, key);
  }

  lemma RetireKeepsGrounded(env: Env, reg: Registry, key: string, kind: Kind, e: LifecycleRow, now: u64)
    requires Grounded(reg) && key in reg.agents && EndingEvent(env, reg, key, kind, e, now)
    ensures Grounded(RetireKey(reg, key, kind, e, now))
  {
    hide EventAuthentic, EventColumnsOk, Vouches, SignerOf, Subject, DependsOn, Grounded;
    RetiringTerminates(reg, key, kind, e, now);
  }

  /** An end that has been found stands. */
  lemma {:induction false} EndStands(reg: Registry, k: string, i: nat, end: End)
    requires k in reg.agents && i <= |reg.lifecycle|
    ensures EndFrom(reg, k, i, Some(end)) == Some(end)
    decreases |reg.lifecycle| - i
  {
    if i < |reg.lifecycle| { EndStands(reg, k, i + 1, end); }
  }

  /** An end that is found is at the instant of an event not before the first one looked at. */
  lemma {:induction false} EndNotBefore(env: Env, reg: Registry, clock: u64, k: string, i: nat)
    requires RegistryOk(env, reg, clock) && k in reg.agents && i < |reg.lifecycle|
    ensures EndFrom(reg, k, i, None).Some? ==> ItemAt(reg.lifecycle, i).effectiveAt <= The(EndFrom(reg, k, i, None)).at
    decreases |reg.lifecycle| - i
  {
    hide Effect, Grounded, AgentOk, EventOk, EventColumnsOk, SignerOf, Subject;
    SubjectRegistered(env, reg, clock, i);
    EffectMeans(reg, reg.lifecycle[i], k);
    if reg.lifecycle[i].identityId == reg.agents[k].identityId && Effect(reg.lifecycle[i], k).GetOr(None).Some? {
      EndStands(reg, k, i + 1, Effect(reg.lifecycle[i], k).GetOr(None).value);
    } else if i + 1 < |reg.lifecycle| {
      EndNotBefore(env, reg, clock, k, i + 1);
    }
  }

  /** The events after a filed one are read as before. */
  lemma {:induction false} SameTail(reg: Registry, reg': Registry, e: LifecycleRow, k: string, i: nat, end: Option<End>)
    requires k in reg.agents && k in reg'.agents && reg'.agents[k].identityId == reg.agents[k].identityId
    requires reg'.lifecycle == Filed(reg.lifecycle, e) && PlaceOf(reg.lifecycle, e.effectiveAt) <= i <= |reg.lifecycle|
    ensures i + 1 <= |reg'.lifecycle| && EndFrom(reg', k, i + 1, end) == EndFrom(reg, k, i, end)
    decreases |reg.lifecycle| - i
  {
    hide Effect, Filed, PlaceOf;
    FiledRows(reg.lifecycle, e);
    if i < |reg.lifecycle| {
      SameTail(reg, reg', e, k, i + 1, if end.Some? || reg.lifecycle[i].identityId != reg.agents[k].identityId then end
        else Effect(reg.lifecycle[i], k).GetOr(None));
    }
  }

  /** Whether an event ends a key that ends, if at all, where it says. */
  predicate EndsFirst(e: LifecycleRow, identityId: string, k: string, end: Option<End>) {
    e.identityId == identityId && Effect(e, k).GetOr(None).Some? && (end.Some? ==> e.effectiveAt < end.value.at)
  }

  /** A new event ends the key it names, if that has not ended by its instant, and no other. */
  lemma {:induction false} EndAfterEvent(env: Env, reg: Registry, clock: u64, reg': Registry, e: LifecycleRow, k: string, i: nat)
    requires RegistryOk(env, reg, clock) && k in reg.agents && k in reg'.agents && Entry(reg'.agents, k).identityId == Entry(reg.agents, k).identityId
    requires reg'.lifecycle == Filed(reg.lifecycle, e) && i <= PlaceOf(reg.lifecycle, e.effectiveAt)
    ensures i <= |reg'.lifecycle| && EndFrom(reg', k, i, None) ==
      if EndsFirst(e, Entry(reg.agents, k).identityId, k, EndFrom(reg, k, i, None)) then Effect(e, k).GetOr(None) else EndFrom(reg, k, i, None)
    decreases |reg.lifecycle| - i
  {
    hide Effect, Filed, PlaceOf, Grounded, AgentOk, EventOk, EventColumnsOk, SignerOf, Subject;
    FiledRows(reg.lifecycle, e);
    var p := PlaceOf(reg.lifecycle, e.effectiveAt);
    if i == p {
      var end := if e.identityId == reg.agents[k].identityId then Effect(e, k).GetOr(None) else None;
      SameTail(reg, reg', e, k, p, end);
      if end.Some? { EndStands(reg, k, p, end.value); }
      if p < |reg.lifecycle| { EndNotBefore(env, reg, clock, k, p); }
    } else {
      var row := reg.lifecycle[i];
      assert reg'.lifecycle[i] == row;
      SubjectRegistered(env, reg, clock, i);
      EffectMeans(reg, row, k);
      if row.identityId == reg.agents[k].identityId && Effect(row, k).GetOr(None).Some? {
        EndStands(reg, k, i + 1, Effect(row, k).GetOr(None).value);
        EndStands(reg', k, i + 1, Effect(row, k).GetOr(None).value);
      } else {
        EndAfterEvent(env, reg, clock, reg', e, k, i + 1);
      }
    }
  }

  lemma ActiveNotEnded(env: Env, reg: Registry, clock: u64, key: string)
    requires RegistryOk(env, reg, clock) && key in reg.agents && reg.agents[key].status == Active
    ensures EndFrom(reg, key, 0, None) == None
    ensures reg.agents[key].validFrom <= clock && reg.agents[key].validUntil.None? && reg.agents[key].revokedAt.None?
    ensures reg.agents[key].validFrom == reg.agents[key].registeredAt
  {
    hide EndFrom, Authentic, EventOk, ChainLength;
    assert AgentOk(env, reg, clock, key);
  }

  lemma RegistrarWindow(env: Env, reg: Registry, clock: u64, key: string)
    requires Grounded(reg) && key in reg.agents && AgentOk(env, reg, clock, key)
    ensures Entry(reg.agents, key).registeredBy == key || (Entry(reg.agents, key).registeredBy in reg.agents
      && InWindow(Entry(reg.agents, Entry(reg.agents, key).registeredBy), Entry(reg.agents, key).registeredAt))
  {
    hide EndFrom, Authentic, ChainLength;
  }

  /** What a key has vouched for was vouched for before an instant. */
  ghost predicate NothingSince(reg: Registry, key: string, at: u64) {
    && (forall k <- reg.agents :: k != key && reg.agents[k].registeredBy == key ==> reg.agents[k].registeredAt < at)
    && (forall row <- reg.lifecycle :: SignerOf(row) == key ==> row.effectiveAt < at)
  }
  /** A key may be ended by an event of an instant: it has ended by then, or it is active and has vouched
      for nothing since. */
  ghost predicate MayEndAt(reg: Registry, key: string, at: u64) {
    && key in reg.agents
    && (reg.agents[key].status == Active ==> NothingSince(reg, key, at))
    && (reg.agents[key].validUntil.Some? ==> reg.agents[key].validUntil.value <= at)
  }

  lemma RetiredKeepsRows(reg: Registry, key: string, kind: Kind, e: LifecycleRow, at: u64)
    requires key in reg.agents
    ensures KeepsRows(reg, RetireKey(reg, key, kind, e, at))
  {}

  /** The ends of keys after an event, late or not. */
  lemma RetiredEnd(env: Env, reg: Registry, clock: u64, key: string, kind: Kind, e: LifecycleRow, at: u64, now: u64, k: string)
    requires RegistryOk(env, reg, clock) && NamesEnd(env, reg, key, kind, e, at) && k in reg.agents
    requires reg.agents[key].validFrom < at <= now && clock <= now
    requires reg.agents[key].validUntil.Some? ==> reg.agents[key].validUntil.value <= at
    ensures var reg' := RetireKey(reg, key, kind, e, at);
      && k in reg'.agents && WindowOk(reg'.agents[k], now) && EndMatches(reg'.agents[k], EndFrom(reg', k, 0, None))
      && (k != key || reg.agents[key].status != Active ==> reg'.agents[k] == reg.agents[k])
  {
    hide EventOk, Authentic, ChainLength, EndFrom, Grounded, EventAuthentic, Vouches, Effect, SignerOf, Subject, EventColumnsOk, Filed,
      Ascending;
    var reg' := RetireKey(reg, key, kind, e, at);
    assert AgentOk(env, reg, clock, k);
    EndAfterEvent(env, reg, clock, reg', e, k, 0);
    EffectMeans(reg, e, k);
  }

  lemma WindowBefore(row: AgentRow, kind: Kind, at: u64, earlier: u64)
    requires InWindow(row, earlier) && earlier < at
    ensures InWindow(RetireRow(row, kind, at), earlier)
  {}

  lemma RetiredAgentOk(env: Env, reg: Registry, clock: u64, key: string, kind: Kind, e: LifecycleRow, at: u64, now: u64, k: string)
    requires RegistryOk(env, reg, clock) && key in reg.agents && NamesEnd(env, reg, key, kind, e, at) && k in reg.agents
    requires Entry(reg.agents, key).validFrom < at <= now && clock <= now
    requires MayEndAt(reg, key, at)
    requires Grounded(RetireKey(reg, key, kind, e, at))
    ensures AgentOk(env, RetireKey(reg, key, kind, e, at), now, k)
  {
    hide EventOk, AgentOk, ChainLength, EndFrom, Grounded, KeepsRows, NamesEnd, InWindow, EndMatches, WindowOk, RetireRow, SignerOf;
    var reg' := RetireKey(reg, key, kind, e, at);
    RetiredKeepsRows(reg, key, kind, e, at);
    RetiredEnd(env, reg, clock, key, kind, e, at, now, k);
    assert AgentOk(env, reg, clock, k);
    RegistrarRegistered(env, reg, clock, k);
    var registrar := reg.agents[k].registeredBy;
    RetiredEnd(env, reg, clock, key, kind, e, at, now, registrar);
    RegistrarWindow(env, reg, clock, k);
    if registrar == key && registrar != k && reg.agents[key].status == Active {
      WindowBefore(reg.agents[key], kind, at, reg.agents[k].registeredAt);
    }
    AgentKept(env, reg, clock, reg', now, k);
  }

  /** Retiring a key by an event of any instant keeps the registry in order if the key may be ended then. */
  lemma RetireKeeps(env: Env, reg: Registry, clock: u64, key: string, kind: Kind, e: LifecycleRow, at: u64, now: u64)
    requires RegistryOk(env, reg, clock) && NamesEnd(env, reg, key, kind, e, at)
    requires Entry(reg.agents, key).validFrom < at <= now && clock <= now
    requires Vouches(reg, SignerOf(e), at, EventTenant(e)) && !DependsOn(reg, SignerOf(e), Entry(reg.agents, key).identityId)
    requires MayEndAt(reg, key, at)
    ensures RegistryOk(env, RetireKey(reg, key, kind, e, at), now)
  {
    hide AgentOk, EventOk, Grounded, KeepsRows, RetireRow, EventAuthentic, EventColumnsOk, Vouches, SignerOf, Subject, DependsOn,
      EventTenant, Filed, Ascending, PlaceOf;
    var reg' := RetireKey(reg, key, kind, e, at);
    RetiredKeepsRows(reg, key, kind, e, at);
    RetiringTerminates(reg, key, kind, e, at);
    assert reg'.lifecycle == Filed(reg.lifecycle, e);
    forall k | k in reg'.agents ensures AgentOk(env, reg', now, k) {
      RetiredAgentOk(env, reg, clock, key, kind, e, at, now, k);
    }
    FiledRows(reg.lifecycle, e);
    FiledAscends(reg.lifecycle, e);
    var p := PlaceOf(reg.lifecycle, e.effectiveAt);
    forall i | 0 <= i < |reg'.lifecycle| ensures EventOk(env, reg', now, reg'.lifecycle[i]) {
      if i == p {
        NewEventOk(env, reg, clock, key, kind, e, at, now);
      } else {
        OldEventOk(env, reg, clock, key, kind, e, at, now, if i < p then i else i - 1);
      }
    }
  }

  lemma OldEventOk(env: Env, reg: Registry, clock: u64, key: string, kind: Kind, e: LifecycleRow, at: u64, now: u64, i: nat)
    requires RegistryOk(env, reg, clock) && key in reg.agents && NamesEnd(env, reg, key, kind, e, at) && i < |reg.lifecycle|
    requires Entry(reg.agents, key).validFrom < at <= now && clock <= now
    requires MayEndAt(reg, key, at)
    requires Grounded(RetireKey(reg, key, kind, e, at))
    ensures EventOk(env, RetireKey(reg, key, kind, e, at), now, ItemAt(reg.lifecycle, i))
  {
    hide EventOk, AgentOk, Grounded, KeepsRows, InWindow, NamesEnd, RetireRow, SignerOf, WindowOk, EndMatches;
    var reg' := RetireKey(reg, key, kind, e, at);
    var row := reg.lifecycle[i];
    RetiredKeepsRows(reg, key, kind, e, at);
    assert EventOk(env, reg, clock, row);
    EventWindow(env, reg, clock, row);
    RetiredEnd(env, reg, clock, key, kind, e, at, now, SignerOf(row));
    if SignerOf(row) == key && reg.agents[key].status == Active {
      WindowBefore(reg.agents[key], kind, at, row.effectiveAt);
    }
    EventKept(env, reg, clock, reg', now, row);
  }

  lemma NewEventOk(env: Env, reg: Registry, clock: u64, key: string, kind: Kind, e: LifecycleRow, at: u64, now: u64)
    requires RegistryOk(env, reg, clock) && NamesEnd(env, reg, key, kind, e, at) && at <= now
    requires Vouches(reg, SignerOf(e), at, EventTenant(e))
    requires Grounded(RetireKey(reg, key, kind, e, at))
    ensures EventOk(env, RetireKey(reg, key, kind, e, at), now, e)
  {
    hide AgentOk, EventOk, Grounded, KeepsRows, EventAuthentic, SignerOf, ChainLength, Subject, EventTenant;
    var reg' := RetireKey(reg, key, kind, e, at);
    RetiredKeepsRows(reg, key, kind, e, at);
    assert reg'.agents[SignerOf(e)] == reg.agents[SignerOf(e)];
    VouchesKept(env, reg, reg', clock, SignerOf(e), at, EventTenant(e));
    EventFromParts(env, reg', now, e);
  }

  /** Retiring an active key keeps the registry in order and its past unchanged. */
  lemma RetireKeepsRegistry(env: Env, reg: Registry, clock: u64, key: string, kind: Kind, e: LifecycleRow, now: u64)
    requires RegistryOk(env, reg, clock) && clock < now && key in reg.agents && EndingEvent(env, reg, key, kind, e, now)
    ensures RegistryOk(env, RetireKey(reg, key, kind, e, now), now)
    ensures Evolves(reg, RetireKey(reg, key, kind, e, now), clock)
  {
    hide AgentOk, EventOk, NamesEnd, Grounded, KeepsRows, Evolves, RetireRow, Vouches, DependsOn, SignerOf, EventTenant, NothingSince;
    RetiredEvolves(env, reg, clock, key, kind, e, now);
    ActiveNotEnded(env, reg, clock, key);
    NothingYet(env, reg, clock, key, now);
    RetireKeeps(env, reg, clock, key, kind, e, now, now);
  }

  /** Nothing is vouched for in the future. */
  lemma NothingYet(env: Env, reg: Registry, clock: u64, key: string, now: u64)
    requires RegistryOk(env, reg, clock) && clock < now
    ensures NothingSince(reg, key, now)
  {
    hide AgentOk, EventOk, Grounded, SignerOf;
    forall k | k in reg.agents ensures reg.agents[k].registeredAt < now { RegistrarRegistered(env, reg, clock, k); }
    forall row | row in reg.lifecycle ensures row.effectiveAt < now {
      var i :| 0 <= i < |reg.lifecycle| && reg.lifecycle[i] == row;
      assert EventOk(env, reg, clock, reg.lifecycle[i]);
      EventWindow(env, reg, clock, reg.lifecycle[i]);
    }
  }

  lemma EndsActive(env: Env, reg: Registry, key: string, kind: Kind, e: LifecycleRow, now: u64)
    requires Grounded(reg) && key in reg.agents && EndingEvent(env, reg, key, kind, e, now)
    ensures Entry(reg.agents, key).status == Active
  {}

  lemma EventFromParts(env: Env, reg: Registry, clock: u64, e: LifecycleRow)
    requires Grounded(reg) && EventColumnsOk(reg, e) && EventAuthentic(env.crypto, e.identityId, e)
    requires e.json.Get(EVENT).Some? && StringField(e.json.Get(EVENT).value, TENANT_ID) == Some(EventTenant(e))
    requires e.effectiveAt <= clock && Vouches(reg, SignerOf(e), e.effectiveAt, EventTenant(e))
    ensures EventOk(env, reg, clock, e)
  {
    hide EventAuthentic, Vouches, SignerOf, Subject;
  }
}
