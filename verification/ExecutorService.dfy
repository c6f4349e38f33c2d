/** The executor as objects: its storage, the mediated executor over it, and the runtime over that. */
module ExecutorService {
  import opened Prelude
  import opened Names
  import opened Json
  import opened Crypto
  import opened Executor
  import opened ExecutorRuns
  import Canonical
  import Gate

  /** The table `consumed_permits`. */
  class ExecutorStorage {
    var rows: Consumptions

    constructor ()
      ensures rows == map[]
    {
      rows := map[];
    }

    method StartConsumption(id: string, actionId: string, observation: string, now: u64) returns (r: Result<(), ExecutorError>)
      modifies this
      ensures r.Ok? <==> id !in old(rows) && !ActionStarted(old(rows), actionId)
      ensures rows == if r.Ok? then old(rows)[id := ConsumedRow(actionId, STARTED, now, None, None, observation)] else old(rows)
      ensures r.Err? ==> r.error == AlreadyConsumed
    {
      if id in rows || exists i <- rows :: rows[i].actionId == actionId {
        return Err(AlreadyConsumed);
      }
      rows := rows[id := ConsumedRow(actionId, STARTED, now, None, None, observation)];
      return Ok(());
    }

    method CompleteConsumption(id: string, status: string, outcome: string, observation: string, now: u64) returns (r: Result<(), ExecutorError>)
      modifies this
      ensures match Complete(old(rows), id, status, outcome, observation, now)
        case Ok(t) => r == Ok(()) && rows == t
        case Err(e) => r == Err(e) && rows == old(rows)
    {
      if id !in rows || rows[id].status != STARTED {
        return Err(NotStarted);
      }
      rows := rows[id := ConsumedRow(rows[id].actionId, status, rows[id].startedAt, Some(now), Some(outcome), observation)];
      return Ok(());
    }

    method MarkUnknown(id: string, observation: string, now: u64) returns (r: Result<(), ExecutorError>)
      modifies this
      ensures match Executor.MarkUnknown(old(rows), id, observation, now)
        case Ok(t) => r == Ok(()) && rows == t
        case Err(e) => r == Err(e) && rows == old(rows)
    {
      if id !in rows || rows[id].status != STARTED {
        return Err(NotStarted);
      }
      rows := rows[id := rows[id].(status := UNKNOWN, completedAt := Some(now), observation := observation)];
      return Ok(());
    }

    method GetState(id: string) returns (state: Option<ConsumedRow>)
      ensures state == if id in rows then Some(rows[id]) else None
    {
      return if id in rows then Some(rows[id]) else None;
    }

    /** The started rows up to a cutoff, in the order in which they were started. */
    method ListStartedBefore(cutoff: u64) returns (ids: seq<string>)
      ensures Lists(rows, cutoff, ids)
    {
      ids := [];
      var rest := StartedBefore(rows, cutoff);
      while rest != {}
        invariant rest <= StartedBefore(rows, cutoff)
        invariant forall id :: id in ids <==> id in StartedBefore(rows, cutoff) && id !in rest
        invariant Sorted(rows, ids)
        decreases |rest|
      {
        var id :| id in rest;
        rest := rest - {id};
        ids := InsertByStart(rows, ids, id);
      }
    }
  }

  /** Distinct rows, earliest start first. */
  predicate Sorted(t: Consumptions, ids: seq<string>) {
    && (forall i, j | 0 <= i < j < |ids| :: ids[i] != ids[j])
    && (forall i, j | 0 <= i < j < |ids| && ids[i] in t && ids[j] in t :: t[ids[i]].startedAt <= t[ids[j]].startedAt)
  }

  /** Where everything is after an insertion. */
  lemma Inserted(ids: seq<string>, k: nat, id: string)
    requires k <= |ids|
    ensures var r := ids[..k] + [id] + ids[k..];
      && |r| == |ids| + 1
      && (forall i | 0 <= i < |r| :: r[i] == if i < k then ids[i] else if i == k then id else ids[i - 1])
      && (forall x :: x in r <==> x in ids || x == id)
  {
    var r := ids[..k] + [id] + ids[k..];
    assert r[k] == id;
    forall x | x in ids ensures x in r {
      var i :| 0 <= i < |ids| && ids[i] == x;
      assert r[if i < k then i else i + 1] == x;
    }
  }

  lemma InsertedSorted(t: Consumptions, ids: seq<string>, k: nat, id: string)
    requires id in t && id !in ids && Sorted(t, ids) && (forall i <- ids :: i in t) && k <= |ids|
    requires forall i | 0 <= i < k :: t[ids[i]].startedAt <= t[id].startedAt
    requires k < |ids| ==> t[id].startedAt <= t[ids[k]].startedAt
    ensures Sorted(t, ids[..k] + [id] + ids[k..])
  {
    Inserted(ids, k, id);
    assert forall i | k <= i < |ids| :: t[id].startedAt <= t[ids[i]].startedAt;
  }

  method InsertByStart(t: Consumptions, ids: seq<string>, id: string) returns (r: seq<string>)
    requires id in t && id !in ids && Sorted(t, ids) && forall i <- ids :: i in t
    ensures Sorted(t, r)
    ensures forall x :: x in r <==> x in ids || x == id
  {
    hide Sorted;
    var k := 0;
    while k < |ids| && t[ids[k]].startedAt <= t[id].startedAt
      invariant 0 <= k <= |ids|
      invariant forall i | 0 <= i < k :: t[ids[i]].startedAt <= t[id].startedAt
    {
      k := k + 1;
    }
    Inserted(ids, k, id);
    InsertedSorted(t, ids, k, id);
    r := ids[..k] + [id] + ids[k..];
  }

  /** `MediatedExecutor`. */
  class MediatedExecutor {
    const storage: ExecutorStorage
    const crypto: Crypto
    const config: Config

    constructor (storage: ExecutorStorage, crypto: Crypto, config: Config)
      ensures this.storage == storage && this.crypto == crypto && this.config == config
    {
      this.storage := storage;
      this.crypto := crypto;
      this.config := config;
    }

    method VerifyAndConsumePermit(gateDb: Option<Gate.Db>, permit: Value, at: Instants) returns (r: Result<Value, ExecutorError>)
      modifies storage
      ensures match Consume(crypto, config, gateDb, old(storage.rows), permit, at)
        case Ok((t, authorization)) => r == Ok(authorization) && storage.rows == t
        case Err(e) => r == Err(e) && storage.rows == old(storage.rows)
    {
      hide CheckPermit, SignedObservation;
      match CheckPermit(crypto, config, gateDb, permit, at.checked)
      case Err(e) => return Err(e);
      case Ok(authorization) =>
        var id := authorization.GetStr(AUTHORIZATION_ID).GetOr("");
        var actionId := authorization.GetStr(ACTION_ID).GetOr("");
        var observation := SignedObservation(crypto, config.executorId, id, actionId, STARTED, at.observed, StartDetails(authorization));
        var started := storage.StartConsumption(id, actionId, observation, at.written);
        if started.Err? { return Err(started.error); }
        return Ok(authorization);
    }

    method CompleteExecution(id: string, actionId: string, status: string, output: Value, at: Instants) returns (r: Result<string, ExecutorError>)
      modifies storage
      ensures match Executor.CompleteExecution(crypto, config, old(storage.rows), id, actionId, status, output, at)
        case Ok((t, text)) => r == Ok(text) && storage.rows == t
        case Err(e) => r == Err(e) && storage.rows == old(storage.rows)
    {
      hide SignedObservation, SignedOutcome;
      if status !in {SUCCEEDED, FAILED} { return Err(InvalidStatus); }
      var state := storage.GetState(id);
      if state.None? { return Err(ConsumptionNotFound); }
      if state.value.actionId != actionId || state.value.status != STARTED { return Err(ConsumptionMismatch); }
      var text := Canonical.Text(SignedOutcome(crypto, config.executorId, id, actionId, status, output));
      var observation := SignedObservation(crypto, config.executorId, id, actionId, status, at.observed,
                                           Object(map[OUTCOME_HASH := String(crypto.sha256(text))]));
      var completed := storage.CompleteConsumption(id, status, text, observation, at.written);
      return match completed case Ok(_) => Ok(text) case Err(e) => Err(e);
    }

    method GiveUp(id: string, reason: string, at: Instants) returns (r: Result<string, ExecutorError>)
      modifies storage
      ensures match Executor.GiveUp(crypto, config, old(storage.rows), id, reason, at)
        case Ok((t, observation)) => r == Ok(observation) && storage.rows == t
        case Err(e) => r == Err(e) && storage.rows == old(storage.rows)
    {
      hide UnknownObservation;
      var state := storage.GetState(id);
      if state.None? { return Err(ConsumptionNotFound); }
      if state.value.status != STARTED { return Err(NotStarted); }
      var observation := UnknownObservation(crypto, config, id, state.value.actionId, reason, at.observed);
      var marked := storage.MarkUnknown(id, observation, at.written);
      return match marked case Ok(_) => Ok(observation) case Err(e) => Err(e);
    }

    /** Alone on its database, recovery gives up exactly the executions started before the cutoff, in
        the order in which they were started, and nothing stops it half way. */
    method RecoverIncomplete(now: u64, olderThanSeconds: u64, at: nat -> Instants) returns (ids: seq<string>, observations: seq<string>)
      modifies storage
      ensures Lists(old(storage.rows), Cutoff(now, olderThanSeconds), ids) && |observations| == |ids|
      ensures storage.rows.Keys == old(storage.rows).Keys
      ensures forall i | 0 <= i < |ids| ::
        && ids[i] in old(storage.rows)
        && observations[i] == UnknownObservation(crypto, config, ids[i], old(storage.rows)[ids[i]].actionId, RECOVERY_REASON, at(i).observed)
        && ids[i] in storage.rows
        && storage.rows[ids[i]] == old(storage.rows)[ids[i]].(status := UNKNOWN, completedAt := Some(at(i).written), observation := observations[i])
      ensures forall id <- old(storage.rows) :: id in storage.rows && (id !in ids ==> storage.rows[id] == old(storage.rows)[id])
    {
      hide UnknownObservation, Cutoff, Lists, StartedBefore;
      ghost var was := storage.rows;
      ids := storage.ListStartedBefore(Cutoff(now, olderThanSeconds));
      ListedAreStarted(was, Cutoff(now, olderThanSeconds), ids);
      observations := [];
      var i := 0;
      while i < |ids|
        invariant 0 <= i <= |ids| && |observations| == i
        invariant storage.rows.Keys == was.Keys
        invariant forall k | 0 <= k < |ids| :: ids[k] in was && was[ids[k]].status == STARTED
        invariant forall j, k | 0 <= j < k < |ids| :: ids[j] != ids[k]
        invariant forall k | 0 <= k < i ::
          && observations[k] == UnknownObservation(crypto, config, ids[k], was[ids[k]].actionId, RECOVERY_REASON, at(k).observed)
          && storage.rows[ids[k]] == was[ids[k]].(status := UNKNOWN, completedAt := Some(at(k).written), observation := observations[k])
        invariant forall id <- was :: id !in ids[..i] ==> storage.rows[id] == was[id]
      {
        var id := ids[i];
        var observation := UnknownObservation(crypto, config, id, storage.rows[id].actionId, RECOVERY_REASON, at(i).observed);
        var marked := storage.MarkUnknown(id, observation, at(i).written);
        observations := observations + [observation];
        i := i + 1;
      }
      assert ids[..|ids|] == ids;
    }
  }

  lemma ListedAreStarted(t: Consumptions, cutoff: u64, ids: seq<string>)
    requires Lists(t, cutoff, ids)
    ensures forall k | 0 <= k < |ids| :: ids[k] in t && t[ids[k]].status == STARTED
    ensures forall j, k | 0 <= j < k < |ids| :: ids[j] != ids[k]
  {
    forall k | 0 <= k < |ids| ensures ids[k] in t && t[ids[k]].status == STARTED {
      assert ids[k] in StartedBefore(t, cutoff);
    }
  }

  // ---- The runtime ----

  /** What an adapter does with an intent: it returns, it knows that it cannot know, it leaves the
      execution open, or it raises anything else, which may look like a transport failure. */
  datatype Act = Returned(status: string, output: Value) | Ambiguous(reason: string) | Undecided | Raised(transport: bool, message: Value)

  datatype Adapter = Adapter(supported: set<string>, unsupported: Value, act: Value -> Act)

  datatype RuntimeError = Refused(error: ExecutorError) | UnknownOutcome(observation: string) | LeftOpen

  predicate Supports(adapter: Adapter, intent: Value) {
    intent.GetStr(ACTION_TYPE).Some? && intent.GetStr(ACTION_TYPE).value in adapter.supported
  }

  /** How an execution ends, by what its adapter does. */
  function FinalStatus(adapter: Adapter, intent: Value): string {
    if !Supports(adapter, intent) then FAILED
    else match adapter.act(intent)
      case Returned(status, _) => if status in {SUCCEEDED, FAILED} then status else FAILED
      case Ambiguous(_) => UNKNOWN
      case Undecided => STARTED
      case Raised(transport, _) => if transport then UNKNOWN else FAILED
  }

  function Concluded(c: Crypto, config: Config, t: Consumptions, id: string, actionId: string, status: string, output: Value, at: Instants): Consumptions {
    match Executor.CompleteExecution(c, config, t, id, actionId, status, output, at)
    case Ok((t', _)) => t'
    case Err(_) => t
  }

  function GivenUp(c: Crypto, config: Config, t: Consumptions, id: string, reason: string, at: Instants): Consumptions {
    match Executor.GiveUp(c, config, t, id, reason, at)
    case Ok((t', _)) => t'
    case Err(_) => t
  }

  const TRANSPORT_AMBIGUOUS := "TRANSPORT_AMBIGUOUS"

  /** The table after the adapter's act on a permit that has been consumed. */
  function ActedOn(c: Crypto, config: Config, t: Consumptions, id: string, actionId: string, intent: Value, adapter: Adapter, at: Instants): Consumptions {
    if !Supports(adapter, intent) then Concluded(c, config, t, id, actionId, FAILED, adapter.unsupported, at)
    else match adapter.act(intent)
      case Returned(status, output) => Concluded(c, config, t, id, actionId, if status in {SUCCEEDED, FAILED} then status else FAILED, output, at)
      case Ambiguous(reason) => GivenUp(c, config, t, id, reason, at)
      case Undecided => t
      case Raised(transport, message) =>
        if transport then GivenUp(c, config, t, id, TRANSPORT_AMBIGUOUS, at)
        else Concluded(c, config, t, id, actionId, FAILED, message, at)
  }

  /** What a row tells whoever asked for the execution. */
  function Answer(row: ConsumedRow): Result<string, RuntimeError> {
    if row.outcome.Some? then Ok(row.outcome.value)
    else if row.status == STARTED then Err(LeftOpen)
    else Err(UnknownOutcome(row.observation))
  }

  lemma ConcludedEnds(c: Crypto, config: Config, t: Consumptions, id: string, actionId: string, status: string, output: Value, at: Instants)
    requires id in t && Entry(t, id).status == STARTED && Entry(t, id).actionId == actionId && status in {SUCCEEDED, FAILED}
    ensures var t' := Concluded(c, config, t, id, actionId, status, output, at);
      && id in t' && t' == t[id := Entry(t', id)]
      && Entry(t', id) == Entry(t, id).(status := status, completedAt := Some(at.written), outcome := Entry(t', id).outcome,
                                       observation := Entry(t', id).observation)
      && Entry(t', id).outcome.Some?
  {
    hide SignedObservation, SignedOutcome;
  }

  lemma GivenUpEnds(c: Crypto, config: Config, t: Consumptions, id: string, reason: string, at: Instants)
    requires id in t && t[id].status == STARTED
    ensures var t' := GivenUp(c, config, t, id, reason, at);
      && id in t' && t' == t[id := t'[id]]
      && t'[id] == t[id].(status := UNKNOWN, completedAt := Some(at.written), observation := t'[id].observation)
  {
    hide UnknownObservation;
  }

  /** The row of a started execution ends as the adapter's behaviour says, with an outcome exactly when
      it succeeded or failed, and no other row changes. */
  lemma ExecutionEnds(c: Crypto, config: Config, t: Consumptions, id: string, actionId: string, intent: Value, adapter: Adapter, at: Instants)
    requires id in t && t[id].status == STARTED && t[id].actionId == actionId && t[id].outcome.None?
    ensures var t' := ActedOn(c, config, t, id, actionId, intent, adapter, at);
      && t'.Keys == t.Keys && (forall other <- t :: other != id ==> t'[other] == t[other])
      && t'[id].status == FinalStatus(adapter, intent)
      && t'[id].actionId == actionId && t'[id].startedAt == t[id].startedAt
      && (t'[id].outcome.Some? <==> FinalStatus(adapter, intent) in {SUCCEEDED, FAILED})
      && (t'[id].completedAt == if FinalStatus(adapter, intent) == STARTED then t[id].completedAt else Some(at.written))
  {
    hide Concluded, GivenUp;
    if !Supports(adapter, intent) {
      ConcludedEnds(c, config, t, id, actionId, FAILED, adapter.unsupported, at);
    } else {
      match adapter.act(intent)
      case Returned(status, output) => ConcludedEnds(c, config, t, id, actionId, if status in {SUCCEEDED, FAILED} then status else FAILED, output, at);
      case Ambiguous(reason) => GivenUpEnds(c, config, t, id, reason, at);
      case Undecided =>
      case Raised(transport, message) =>
        if transport { GivenUpEnds(c, config, t, id, TRANSPORT_AMBIGUOUS, at); } else { ConcludedEnds(c, config, t, id, actionId, FAILED, message, at); }
    }
  }

  /** `ExecutorRuntime`, with a record of what its adapters were run on. */
  class ExecutorRuntime {
    const executor: MediatedExecutor
    var effects: seq<(string, Value)>

    constructor (executor: MediatedExecutor)
      ensures this.executor == executor && effects == []
    {
      this.executor := executor;
      effects := [];
    }

    /** A refused permit changes nothing. For an accepted one the adapter runs on its intent once, if it
        supports the action; the row ends as `ActedOn` says, and the answer is what the row says. */
    method ExecutePermit(gateDb: Option<Gate.Db>, permit: Value, adapter: Adapter, started: Instants, finished: Instants)
      returns (r: Result<string, RuntimeError>)
      modifies this, executor.storage
      ensures var intent := permit.Get(INTENT).GetOr(Null);
        match Consume(executor.crypto, executor.config, gateDb, old(executor.storage.rows), permit, started)
        case Err(e) => r == Err(Refused(e)) && executor.storage.rows == old(executor.storage.rows) && effects == old(effects)
        case Ok((t, authorization)) =>
          var id := authorization.GetStr(AUTHORIZATION_ID).GetOr("");
          && executor.storage.rows == ActedOn(executor.crypto, executor.config, t, id, authorization.GetStr(ACTION_ID).GetOr(""), intent, adapter, finished)
          && effects == old(effects) + (if Supports(adapter, intent) then [(id, intent)] else [])
          && id in executor.storage.rows && r == Answer(executor.storage.rows[id])
    {
      hide CheckPermit, SignedObservation, SignedOutcome;
      var consumed := executor.VerifyAndConsumePermit(gateDb, permit, started);
      if consumed.Err? { return Err(Refused(consumed.error)); }
      var authorization := consumed.value;
      var id := authorization.GetStr(AUTHORIZATION_ID).GetOr("");
      var actionId := authorization.GetStr(ACTION_ID).GetOr("");
      var intent := permit.Get(INTENT).GetOr(Null);
      if !Supports(adapter, intent) {
        r := Conclude(id, actionId, FAILED, adapter.unsupported, finished);
        return;
      }
      effects := effects + [(id, intent)];
      match adapter.act(intent)
      case Returned(status, output) =>
        r := Conclude(id, actionId, if status in {SUCCEEDED, FAILED} then status else FAILED, output, finished);
      case Ambiguous(reason) =>
        r := Abandon(id, reason, finished);
      case Undecided =>
        r := Err(LeftOpen);
      case Raised(transport, message) =>
        if transport {
          r := Abandon(id, TRANSPORT_AMBIGUOUS, finished);
        } else {
          r := Conclude(id, actionId, FAILED, message, finished);
        }
    }

    /** A started execution is completed. */
    method Conclude(id: string, actionId: string, status: string, output: Value, at: Instants) returns (r: Result<string, RuntimeError>)
      requires id in executor.storage.rows && executor.storage.rows[id].status == STARTED && executor.storage.rows[id].actionId == actionId
      requires status in {SUCCEEDED, FAILED}
      modifies executor.storage
      ensures r.Ok? && id in executor.storage.rows
      ensures executor.storage.rows == old(executor.storage.rows)[id := executor.storage.rows[id]]
      ensures executor.storage.rows[id].actionId == actionId && executor.storage.rows[id].status == status
      ensures executor.storage.rows[id].outcome == Some(r.value)
      ensures executor.storage.rows == Concluded(executor.crypto, executor.config, old(executor.storage.rows), id, actionId, status, output, at)
    {
      hide SignedObservation, SignedOutcome;
      var text := executor.CompleteExecution(id, actionId, status, output, at);
      r := Ok(text.value);
    }

    /** A started execution is given up. */
    method Abandon(id: string, reason: string, at: Instants) returns (r: Result<string, RuntimeError>)
      requires id in executor.storage.rows && executor.storage.rows[id].status == STARTED
      modifies executor.storage
      ensures id in executor.storage.rows
      ensures executor.storage.rows == old(executor.storage.rows)[id := executor.storage.rows[id]]
      ensures executor.storage.rows[id].actionId == old(executor.storage.rows)[id].actionId && executor.storage.rows[id].status == UNKNOWN
      ensures executor.storage.rows[id].outcome == old(executor.storage.rows)[id].outcome
      ensures r == Err(UnknownOutcome(executor.storage.rows[id].observation))
      ensures executor.storage.rows == GivenUp(executor.crypto, executor.config, old(executor.storage.rows), id, reason, at)
    {
      hide UnknownObservation;
      var observation := executor.GiveUp(id, reason, at);
      r := Err(UnknownOutcome(observation.value));
    }
  }

  // ---- One runtime alone is a run of the machine ----

  lemma RunOn(c: Crypto, s: Machine, m: Move, rest: seq<Move>)
    ensures Run(c, s, [m] + rest) == Run(c, Step(c, s, m), rest)
  {
    hide Step;
    assert ([m] + rest)[1..] == rest;
  }

  /** Reading and writing an outcome, alone. */
  lemma FinishReturned(c: Crypto, s: Machine, grant: Grant, status: string, output: Value, handled: bool, at: Instants)
    requires 0 in s.processes && s.processes[0] == Process.Returned(grant, status, output, handled)
    requires grant.Id() in s.rows && s.rows[grant.Id()].status == STARTED && s.rows[grant.Id()].actionId == grant.ActionId()
    requires status in {SUCCEEDED, FAILED}
    ensures var end := Run(c, s, [Read(0, false), Write(0, false, at)]);
      end.rows == Concluded(c, grant.config, s.rows, grant.Id(), grant.ActionId(), status, output, at) && end.effects == s.effects
  {
    hide SignedObservation, SignedOutcome, Consume, AfterDispatch, AfterRecovery, Lists, UnknownObservation;
    var s1, s2 := Step(c, s, Read(0, false)), Step(c, Step(c, s, Read(0, false)), Write(0, false, at));
    assert [Read(0, false), Write(0, false, at)] == [Read(0, false)] + [Write(0, false, at)];
    RunOn(c, s, Read(0, false), [Write(0, false, at)]);
    OneMove(c, s1, Write(0, false, at));
    assert s1.processes[0] == Completing(grant, status, output, handled);
  }

  /** Reading and giving up, alone. */
  lemma FinishGivingUp(c: Crypto, s: Machine, grant: Grant, reason: string, at: Instants)
    requires 0 in s.processes && s.processes[0] == GivingUp(grant, reason)
    requires grant.Id() in s.rows && s.rows[grant.Id()].status == STARTED && s.rows[grant.Id()].actionId == grant.ActionId()
    ensures var end := Run(c, s, [Read(0, false), Write(0, false, at)]);
      end.rows == GivenUp(c, grant.config, s.rows, grant.Id(), reason, at) && end.effects == s.effects
  {
    hide SignedObservation, SignedOutcome, Consume, AfterDispatch, AfterRecovery, Lists, UnknownObservation, CompletionFault;
    var s1 := Step(c, s, Read(0, false));
    assert [Read(0, false), Write(0, false, at)] == [Read(0, false)] + [Write(0, false, at)];
    RunOn(c, s, Read(0, false), [Write(0, false, at)]);
    OneMove(c, s1, Write(0, false, at));
    assert s1.processes[0] == Marking(grant, reason);
  }

  /** Without a process, moves of it change nothing. */
  lemma {:induction false} NobodyMoves(c: Crypto, s: Machine, moves: seq<Move>)
    requires 0 !in s.processes
    requires forall m <- moves :: m.process == 0 && (m.DispatchTo? || m.Read? || m.Write? || m.Handle?)
    ensures Run(c, s, moves) == s
    decreases |moves|
  {
    hide AfterDispatch, AfterRead, AfterWrite, AfterRecovery, Consume, Lists;
    if moves != [] {
      assert Step(c, s, moves[0]) == s;
      NobodyMoves(c, s, moves[1..]);
    }
  }

  /** The moves a runtime makes with an adapter after consuming a permit, when nothing fails and nobody
      interferes. */
  function Tail(permit: Value, adapter: Adapter, finished: Instants): seq<Move> {
    var intent := permit.Get(INTENT).GetOr(Null);
    var finish := [Read(0, false), Write(0, false, finished)];
    if !Supports(adapter, intent) then [DispatchTo(0, Unsupported(adapter.unsupported))] + finish
    else match adapter.act(intent)
      case Returned(status, output) => [DispatchTo(0, Returns(status, output))] + finish
      case Ambiguous(reason) => [DispatchTo(0, Dispatch.Ambiguous(reason))] + finish
      case Undecided => [DispatchTo(0, Dispatch.Undecided)]
      case Raised(transport, message) => [DispatchTo(0, Raises)] + ([Handle(0, transport, message)] + finish)
  }

  /** From a permit just consumed to the end. */
  lemma DispatchAlone(c: Crypto, s: Machine, grant: Grant, adapter: Adapter, finished: Instants)
    requires s.processes == map[0 := Dispatching(grant)]
    requires grant.Id() in s.rows && Entry(s.rows, grant.Id()).status == STARTED && Entry(s.rows, grant.Id()).actionId == grant.ActionId()
    ensures var intent := grant.permit.Get(INTENT).GetOr(Null);
      var end := Run(c, s, Tail(grant.permit, adapter, finished));
      && end.rows == ActedOn(c, grant.config, s.rows, grant.Id(), grant.ActionId(), intent, adapter, finished)
      && end.effects == s.effects + (if Supports(adapter, intent) then [grant] else [])
  {
    hide Run, Consume, Concluded, GivenUp, AfterRead, AfterWrite, AfterRecovery, Lists, Supports, Gate.RevokePermits;
    var intent := grant.permit.Get(INTENT).GetOr(Null);
    var finish := [Read(0, false), Write(0, false, finished)];
    if !Supports(adapter, intent) {
      var m := DispatchTo(0, Unsupported(adapter.unsupported));
      RunOn(c, s, m, finish);
      FinishReturned(c, Step(c, s, m), grant, FAILED, adapter.unsupported, false, finished);
    } else {
      match adapter.act(intent)
      case Returned(status, output) =>
        var m := DispatchTo(0, Returns(status, output));
        RunOn(c, s, m, finish);
        FinishReturned(c, Step(c, s, m), grant, if status in {SUCCEEDED, FAILED} then status else FAILED, output, false, finished);
      case Ambiguous(reason) =>
        var m := DispatchTo(0, Dispatch.Ambiguous(reason));
        RunOn(c, s, m, finish);
        FinishGivingUp(c, Step(c, s, m), grant, reason, finished);
      case Undecided =>
        OneMove(c, s, DispatchTo(0, Dispatch.Undecided));
      case Raised(transport, message) =>
        var m, h := DispatchTo(0, Raises), Handle(0, transport, message);
        RunOn(c, s, m, [h] + finish);
        var s1 := Step(c, s, m);
        RunOn(c, s1, h, finish);
        if transport {
          FinishGivingUp(c, Step(c, s1, h), grant, TRANSPORT_AMBIGUOUS, finished);
        } else {
          FinishReturned(c, Step(c, s1, h), grant, FAILED, message, true, finished);
        }
    }
  }

  /** `execute_permit`, alone on its database, is a run of the machine: whatever holds of all runs holds
      of it. */
  lemma RuntimeIsRun(c: Crypto, config: Config, gateDb: Option<Gate.Db>, rows: Consumptions, permit: Value, adapter: Adapter,
                     started: Instants, finished: Instants)
    ensures var intent := permit.Get(INTENT).GetOr(Null);
      var end := Run(c, Machine(rows, map[], []), [Begin(0, config, gateDb, permit, started)] + Tail(permit, adapter, finished));
      var consumed := Consume(c, config, gateDb, rows, permit, started);
      && (consumed.Err? ==> end.rows == rows && end.effects == [])
      && (consumed.Ok? ==>
            && end.rows == ActedOn(c, config, consumed.value.0, consumed.value.1.GetStr(AUTHORIZATION_ID).GetOr(""),
                                   consumed.value.1.GetStr(ACTION_ID).GetOr(""), intent, adapter, finished)
            && |end.effects| == (if Supports(adapter, intent) then 1 else 0))
  {
    hide Run, CheckPermit, SignedObservation, ActedOn, Tail, StartDetails, AfterRead, AfterWrite, AfterRecovery, AfterDispatch, Lists;
    var s, m := Machine(rows, map[], []), Begin(0, config, gateDb, permit, started);
    RunOn(c, s, m, Tail(permit, adapter, finished));
    if Consume(c, config, gateDb, rows, permit, started).Ok? {
      var grant := Grant(config, gateDb, permit, started.checked);
      GrantedIds(c, grant);
      DispatchAlone(c, Step(c, s, m), grant, adapter, finished);
    } else {
      TailMoves(permit, adapter, finished);
      NobodyMoves(c, s, Tail(permit, adapter, finished));
    }
  }

  lemma TailMoves(permit: Value, adapter: Adapter, finished: Instants)
    ensures forall m <- Tail(permit, adapter, finished) :: m.process == 0 && (m.DispatchTo? || m.Read? || m.Write? || m.Handle?)
  {
    hide Supports;
  }
}
