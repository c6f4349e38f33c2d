/** Runtimes sharing one executor database, step by step, with failures, crashes and recovery. */
module ExecutorRuns {
  import opened Prelude
  import opened Names
  import opened Json
  import opened Crypto
  import opened Executor
  import Canonical
  import GateResults
  import Gate
  import Permits
  import GateRuns
  // ---- The machine ----

  /** An accepted permit: who accepted which document, when, and with which view of the gate. */
  datatype Grant = Grant(config: Config, gateDb: Option<Gate.Db>, permit: Value, checked: u64)
  {
    function Id(): string {
      Permits.PermitOf(permit).GetStr(AUTHORIZATION_ID).GetOr("")
    }

    function ActionId(): string {
      Permits.PermitOf(permit).GetStr(ACTION_ID).GetOr("")
    }
  }

  /** Where a process stands in `execute_permit`, or in `recover_incomplete`. A completion made by an
      exception handler is `handled`: when it fails, nothing catches it. */
  datatype Process =
    | Dispatching(grant: Grant)
    | Returned(grant: Grant, status: string, output: Value, handled: bool)
    | Completing(grant: Grant, status: string, output: Value, handled: bool)
    | Raised(grant: Grant)
    | GivingUp(grant: Grant, reason: string)
    | Marking(grant: Grant, reason: string)
    | Recovering(config: Config, ids: seq<string>)

  /** What becomes of a dispatch. In the last four cases the adapter has run. */
  datatype Dispatch =
    | Unparsed
    | Unsupported(output: Value)
    | Returns(status: string, output: Value)
    | Ambiguous(reason: string)
    | Undecided
    | Raises
  {
    predicate Runs() {
      Returns? || Ambiguous? || Undecided? || Raises?
    }
  }

  datatype Machine = Machine(rows: Consumptions, processes: map<nat, Process>, effects: seq<Grant>)

  const INITIAL := Machine(map[], map[], [])

  /** One step of one process. Any read or write of the table may fail. */
  datatype Move =
    | Begin(process: nat, config: Config, gateDb: Option<Gate.Db>, permit: Value, at: Instants)
    | DispatchTo(process: nat, dispatch: Dispatch)
    | Read(process: nat, fails: bool)
    | Write(process: nat, fails: bool, at: Instants)
    | Handle(process: nat, transport: bool, message: Value)
    | BeginRecovery(process: nat, config: Config, cutoff: u64, order: seq<string>)
    | RecoverOne(process: nat, fails: bool, at: Instants)
    | Crash(process: nat)

  function Leave(s: Machine, process: nat): Machine {
    s.(processes := s.processes - {process})
  }

  function Become(s: Machine, process: nat, p: Process): Machine {
    s.(processes := s.processes[process := p])
  }

  /** The call inside the `try` failed: the handler takes over; outside, the process ends. */
  function Fail(s: Machine, process: nat, grant: Grant, handled: bool): Machine {
    if handled then Leave(s, process) else Become(s, process, Raised(grant))
  }

  function AfterDispatch(s: Machine, process: nat, grant: Grant, dispatch: Dispatch): Machine {
    var s := if dispatch.Runs() then s.(effects := s.effects + [grant]) else s;
    match dispatch
    case Unparsed => Become(s, process, Raised(grant))
    case Unsupported(output) => Become(s, process, Returned(grant, FAILED, output, false))
    case Returns(status, output) => Become(s, process, Returned(grant, if status in {SUCCEEDED, FAILED} then status else FAILED, output, false))
    case Ambiguous(reason) => Become(s, process, GivingUp(grant, reason))
    case Undecided => Leave(s, process)
    case Raises => Become(s, process, Raised(grant))
  }

  function AfterRead(s: Machine, process: nat, fails: bool): Machine
    requires process in s.processes
  {
    match s.processes[process]
    case Returned(grant, status, output, handled) =>
      if fails || CompletionFault(s.rows, grant.Id(), grant.ActionId(), status).Some? then Fail(s, process, grant, handled)
      else Become(s, process, Completing(grant, status, output, handled))
    case GivingUp(grant, reason) =>
      if fails || grant.Id() !in s.rows || s.rows[grant.Id()].status != STARTED then Leave(s, process)
      else Become(s, process, Marking(grant, reason))
    case _ => s
  }

  function AfterWrite(c: Crypto, s: Machine, process: nat, fails: bool, at: Instants): Machine
    requires process in s.processes
  {
    match s.processes[process]
    case Completing(grant, status, output, handled) =>
      var written := WriteOutcome(c, grant.config, s.rows, grant.Id(), grant.ActionId(), status, output, at);
      if fails || written.Err? then Fail(s, process, grant, handled)
      else Leave(s, process).(rows := written.value.0)
    case Marking(grant, reason) =>
      var written := MarkUnknown(s.rows, grant.Id(), UnknownObservation(c, grant.config, grant.Id(), grant.ActionId(), reason, at.observed), at.written);
      if fails || written.Err? then Leave(s, process)
      else Leave(s, process).(rows := written.value)
    case _ => s
  }

  /** One turn of the loop of `recover_incomplete`; an error ends the loop. */
  function AfterRecovery(c: Crypto, s: Machine, process: nat, config: Config, ids: seq<string>, fails: bool, at: Instants): Machine {
    if ids == [] || ids[0] !in s.rows then Leave(s, process)
    else
      var observation := UnknownObservation(c, config, ids[0], s.rows[ids[0]].actionId, RECOVERY_REASON, at.observed);
      var written := MarkUnknown(s.rows, ids[0], observation, at.written);
      if fails || written.Err? then Leave(s, process)
      else Become(s, process, Recovering(config, ids[1..])).(rows := written.value)
  }

  ghost function Step(c: Crypto, s: Machine, m: Move): Machine {
    match m
    case Begin(process, config, gateDb, permit, at) =>
      if process in s.processes then s
      else (match Consume(c, config, gateDb, s.rows, permit, at)
            case Err(_) => s
            case Ok((rows, _)) => Become(s, process, Dispatching(Grant(config, gateDb, permit, at.checked))).(rows := rows))
    case DispatchTo(process, dispatch) =>
      if process in s.processes && s.processes[process].Dispatching? then AfterDispatch(s, process, s.processes[process].grant, dispatch) else s
    case Read(process, fails) => if process in s.processes then AfterRead(s, process, fails) else s
    case Write(process, fails, at) => if process in s.processes then AfterWrite(c, s, process, fails, at) else s
    case Handle(process, transport, message) =>
      if process in s.processes && s.processes[process].Raised? then
        var grant := s.processes[process].grant;
        Become(s, process, if transport then GivingUp(grant, "TRANSPORT_AMBIGUOUS") else Returned(grant, FAILED, message, true))
      else s
    case BeginRecovery(process, config, cutoff, order) =>
      if process in s.processes || !Lists(s.rows, cutoff, order) then s else Become(s, process, Recovering(config, order))
    case RecoverOne(process, fails, at) =>
      if process in s.processes && s.processes[process].Recovering?
      then AfterRecovery(c, s, process, s.processes[process].config, s.processes[process].ids, fails, at) else s
    case Crash(process) => Leave(s, process)
  }

  ghost function Run(c: Crypto, s: Machine, moves: seq<Move>): Machine
    decreases |moves|
  {
    if moves == [] then s else Run(c, Step(c, s, moves[0]), moves[1..])
  }

  // ---- Rows ----

  /** A row holds an outcome exactly when it succeeded or failed, and a completion time exactly when it
      is no longer started. */
  predicate RowOk(row: ConsumedRow) {
    && row.status in {STARTED, SUCCEEDED, FAILED, UNKNOWN}
    && (row.outcome.Some? <==> row.status in {SUCCEEDED, FAILED})
    && (row.completedAt.Some? <==> row.status != STARTED)
  }

  ghost predicate RowsOk(t: Consumptions) {
    && (forall id <- t :: RowOk(t[id]))
    && (forall a, b | a in t && b in t && t[a].actionId == t[b].actionId :: a == b)
  }

  /** A row may pass once from started to what it stays for ever. */
  predicate RowAdvances(row: ConsumedRow, row': ConsumedRow) {
    || row' == row
    || (row.status == STARTED && row'.status != STARTED && row'.actionId == row.actionId && row'.startedAt == row.startedAt)
  }

  ghost predicate RowsAdvance(t: Consumptions, t': Consumptions) {
    forall id {:trigger id in t} :: id in t ==> id in t' && RowAdvances(t[id], t'[id])
  }

  // ---- The invariant ----

  ghost predicate Granted(c: Crypto, grant: Grant) {
    CheckPermit(c, grant.config, grant.gateDb, grant.permit, grant.checked).Ok?
  }

  /** The permit of a grant has been consumed. */
  predicate Begun(t: Consumptions, grant: Grant) {
    grant.Id() in t && t[grant.Id()].actionId == grant.ActionId()
  }

  ghost predicate ProcessOk(c: Crypto, s: Machine, p: Process) {
    match p
    case Dispatching(grant) => Granted(c, grant) && Begun(s.rows, grant) && forall e <- s.effects :: e.Id() != grant.Id()
    case Returned(grant, status, _, _) => Begun(s.rows, grant) && status in {SUCCEEDED, FAILED}
    case Completing(grant, status, _, _) => Begun(s.rows, grant) && status in {SUCCEEDED, FAILED}
    case Raised(grant) => Begun(s.rows, grant)
    case GivingUp(grant, _) => Begun(s.rows, grant)
    case Marking(grant, _) => Begun(s.rows, grant)
    case Recovering(_, _) => true
  }

  ghost predicate EffectsOk(c: Crypto, s: Machine) {
    && (forall e <- s.effects :: Granted(c, e) && Begun(s.rows, e))
    && (forall i, j | 0 <= i < j < |s.effects| :: s.effects[i].Id() != s.effects[j].Id())
  }

  /** Each permit is dispatched by one process at most. */
  ghost predicate DispatchersDistinct(s: Machine) {
    forall p, q | p in s.processes && q in s.processes && s.processes[p].Dispatching? && s.processes[q].Dispatching?
                  && s.processes[p].grant.Id() == s.processes[q].grant.Id() :: p == q
  }

  ghost predicate Inv(c: Crypto, s: Machine) {
    && RowsOk(s.rows)
    && EffectsOk(c, s)
    && DispatchersDistinct(s)
    && forall p {:trigger p in s.processes} :: p in s.processes ==> ProcessOk(c, s, s.processes[p])
  }

  // ---- Every step keeps it ----

  lemma StartRows(t: Consumptions, id: string, actionId: string, observation: string, now: u64)
    requires RowsOk(t) && Start(t, id, actionId, observation, now).Ok?
    ensures var t' := Start(t, id, actionId, observation, now).value;
      RowsOk(t') && RowsAdvance(t, t') && id !in t && id in t' && t'[id].actionId == actionId && t'[id].status == STARTED
      && t'.Keys == t.Keys + {id}
  {}

  lemma CompleteRows(t: Consumptions, id: string, status: string, outcome: string, observation: string, now: u64)
    requires RowsOk(t) && status in {SUCCEEDED, FAILED} && Complete(t, id, status, outcome, observation, now).Ok?
    ensures var t' := Complete(t, id, status, outcome, observation, now).value;
      RowsOk(t') && RowsAdvance(t, t') && t'.Keys == t.Keys
  {}

  lemma MarkRows(t: Consumptions, id: string, observation: string, now: u64)
    requires RowsOk(t) && MarkUnknown(t, id, observation, now).Ok?
    ensures var t' := MarkUnknown(t, id, observation, now).value;
      RowsOk(t') && RowsAdvance(t, t') && t'.Keys == t.Keys
  {}

  lemma SameRows(t: Consumptions)
    ensures RowsAdvance(t, t)
  {}

  lemma BegunKept(t: Consumptions, t': Consumptions, grant: Grant)
    requires RowsAdvance(t, t') && Begun(t, grant)
    ensures Begun(t', grant)
  {}

  /** Rows that advance and processes that go on or leave keep the invariant. */
  lemma Goes(c: Crypto, s: Machine, s': Machine, process: nat)
    requires Inv(c, s)
    requires RowsOk(s'.rows) && RowsAdvance(s.rows, s'.rows) && s'.effects == s.effects
    requires forall p {:trigger p in s'.processes} :: p in s'.processes && p != process ==> p in s.processes && s'.processes[p] == s.processes[p]
    requires process in s'.processes ==>
      ProcessOk(c, s', s'.processes[process])
      && (s'.processes[process].Dispatching? ==> forall p {:trigger p in s.processes} :: p in s.processes && p != process && s.processes[p].Dispatching? ==>
            s.processes[p].grant.Id() != s'.processes[process].grant.Id())
    ensures Inv(c, s')
  {
    hide RowsOk, RowsAdvance, Begun, Granted;
    forall e | e in s'.effects ensures Begun(s'.rows, e) { BegunKept(s.rows, s'.rows, e); }
    forall p | p in s'.processes ensures ProcessOk(c, s', s'.processes[p]) {
      if p != process {
        ProcessKept(c, s, s', s.processes[p]);
      }
    }
  }

  lemma ProcessKept(c: Crypto, s: Machine, s': Machine, p: Process)
    requires ProcessOk(c, s, p) && RowsAdvance(s.rows, s'.rows) && s'.effects == s.effects
    ensures ProcessOk(c, s', p)
  {
    hide RowsAdvance, Begun, Granted;
    if !p.Recovering? { BegunKept(s.rows, s'.rows, p.grant); }
  }

  lemma BeginKeeps(c: Crypto, s: Machine, m: Move)
    requires Inv(c, s) && m.Begin?
    ensures Inv(c, Step(c, s, m)) && RowsAdvance(s.rows, Step(c, s, m).rows)
  {
    hide RowsOk, RowsAdvance, CheckPermit, Start, SignedObservation, EffectsOk, StartDetails;
    SameRows(s.rows);
    var r := Consume(c, m.config, m.gateDb, s.rows, m.permit, m.at);
    if m.process !in s.processes && r.Ok? {
      var grant := Grant(m.config, m.gateDb, m.permit, m.at.checked);
      GrantedIds(c, grant);
      var observation := SignedObservation(c, m.config.executorId, grant.Id(), grant.ActionId(), STARTED, m.at.observed, StartDetails(r.value.1));
      StartRows(s.rows, grant.Id(), grant.ActionId(), observation, m.at.written);
      EffectsInRows(c, s, grant.Id());
      DispatchersInRows(c, s);
      Goes(c, s, Step(c, s, m), m.process);
    }
  }

  lemma GrantedIds(c: Crypto, grant: Grant)
    requires Granted(c, grant)
    ensures var authorization := Good(CheckPermit(c, grant.config, grant.gateDb, grant.permit, grant.checked));
      authorization.GetStr(AUTHORIZATION_ID).GetOr("") == grant.Id() && authorization.GetStr(ACTION_ID).GetOr("") == grant.ActionId()
  {
    hide SignatureObjection, PolicyObjection, IntentObjection, GateObjection;
  }

  lemma EffectsInRows(c: Crypto, s: Machine, id: string)
    requires EffectsOk(c, s) && id !in s.rows
    ensures forall e <- s.effects :: e.Id() != id
  {
    hide Granted;
  }

  lemma DispatchersInRows(c: Crypto, s: Machine)
    requires Inv(c, s)
    ensures forall p {:trigger p in s.processes} :: p in s.processes && s.processes[p].Dispatching? ==> s.processes[p].grant.Id() in s.rows
  {
    hide Granted, RowsOk, EffectsOk;
  }

  lemma DispatchKeeps(c: Crypto, s: Machine, m: Move)
    requires Inv(c, s) && m.DispatchTo?
    ensures Inv(c, Step(c, s, m)) && RowsAdvance(s.rows, Step(c, s, m).rows)
  {
    hide RowsOk, RowsAdvance, Granted, EffectsOk, DispatchersDistinct;
    SameRows(s.rows);
    if m.process in s.processes && s.processes[m.process].Dispatching? {
      var grant := s.processes[m.process].grant;
      var s1 := if m.dispatch.Runs() then Leave(s, m.process).(effects := s.effects + [grant]) else Leave(s, m.process);
      if m.dispatch.Runs() { EffectKeeps(c, s, m.process); } else { Goes(c, s, s1, m.process); }
      SameRows(s1.rows);
      assert Step(c, s, m).rows == s1.rows && Step(c, s, m).effects == s1.effects;
      Goes(c, s1, Step(c, s, m), m.process);
    }
  }

  /** The adapter runs for a permit no one else dispatches, and for which it has not run before. */
  lemma EffectKeeps(c: Crypto, s: Machine, process: nat)
    requires Inv(c, s) && process in s.processes && s.processes[process].Dispatching?
    ensures Inv(c, Leave(s, process).(effects := s.effects + [s.processes[process].grant]))
  {
    hide RowsOk, Granted, Begun;
    var grant := s.processes[process].grant;
    var s' := Leave(s, process).(effects := s.effects + [grant]);
    assert ProcessOk(c, s, s.processes[process]);
    forall p | p in s'.processes ensures ProcessOk(c, s', s'.processes[p]) {
      assert ProcessOk(c, s, s.processes[p]);
    }
  }

  lemma ReadKeeps(c: Crypto, s: Machine, m: Move)
    requires Inv(c, s) && m.Read?
    ensures Inv(c, Step(c, s, m)) && RowsAdvance(s.rows, Step(c, s, m).rows)
  {
    hide RowsOk, RowsAdvance, Begun, EffectsOk, CompletionFault, Granted, Consume, AfterWrite, AfterRecovery, AfterDispatch, Lists;
    SameRows(s.rows);
    if m.process in s.processes { Goes(c, s, Step(c, s, m), m.process); }
  }

  lemma WriteKeeps(c: Crypto, s: Machine, m: Move)
    requires Inv(c, s) && m.Write?
    ensures Inv(c, Step(c, s, m)) && RowsAdvance(s.rows, Step(c, s, m).rows)
  {
    hide RowsOk, RowsAdvance, Begun, EffectsOk, WriteOutcome, MarkUnknown, UnknownObservation, Granted, Consume, AfterRead, AfterRecovery,
      AfterDispatch, Lists;
    SameRows(s.rows);
    if m.process in s.processes {
      var process := s.processes[m.process];
      assert ProcessOk(c, s, process);
      match process {
      case Completing(grant, status, output, _) =>
        if WriteOutcome(c, grant.config, s.rows, grant.Id(), grant.ActionId(), status, output, m.at).Ok? {
          WriteOutcomeRows(c, grant.config, s.rows, grant.Id(), grant.ActionId(), status, output, m.at);
        }
      case Marking(grant, reason) =>
        var observation := UnknownObservation(c, grant.config, grant.Id(), grant.ActionId(), reason, m.at.observed);
        if MarkUnknown(s.rows, grant.Id(), observation, m.at.written).Ok? { MarkRows(s.rows, grant.Id(), observation, m.at.written); }
      case _ =>
      }
      Goes(c, s, Step(c, s, m), m.process);
    }
  }

  lemma WriteOutcomeRows(c: Crypto, config: Config, t: Consumptions, id: string, actionId: string, status: string, output: Value, at: Instants)
    requires RowsOk(t) && status in {SUCCEEDED, FAILED} && WriteOutcome(c, config, t, id, actionId, status, output, at).Ok?
    ensures var t' := WriteOutcome(c, config, t, id, actionId, status, output, at).value.0;
      RowsOk(t') && RowsAdvance(t, t') && t'.Keys == t.Keys
  {
    hide RowsOk, RowsAdvance, Complete, SignedObservation, SignedOutcome;
    var text := Canonical.Text(SignedOutcome(c, config.executorId, id, actionId, status, output));
    CompleteRows(t, id, status, text,
                 SignedObservation(c, config.executorId, id, actionId, status, at.observed, Object(map[OUTCOME_HASH := String(c.sha256(text))])), at.written);
  }

  lemma RecoveryKeeps(c: Crypto, s: Machine, m: Move)
    requires Inv(c, s) && m.RecoverOne?
    ensures Inv(c, Step(c, s, m)) && RowsAdvance(s.rows, Step(c, s, m).rows)
  {
    hide RowsOk, RowsAdvance, Begun, EffectsOk, DispatchersDistinct, MarkUnknown, UnknownObservation, Granted, Consume, AfterRead,
      AfterWrite, AfterDispatch, Lists;
    SameRows(s.rows);
    if m.process in s.processes && s.processes[m.process].Recovering? {
      var ids := s.processes[m.process].ids;
      if ids != [] && ids[0] in s.rows {
        var observation := UnknownObservation(c, s.processes[m.process].config, ids[0], s.rows[ids[0]].actionId, RECOVERY_REASON, m.at.observed);
        if MarkUnknown(s.rows, ids[0], observation, m.at.written).Ok? { MarkRows(s.rows, ids[0], observation, m.at.written); }
      }
      Goes(c, s, Step(c, s, m), m.process);
    }
  }

  lemma StepKeeps(c: Crypto, s: Machine, m: Move)
    requires Inv(c, s)
    ensures Inv(c, Step(c, s, m)) && RowsAdvance(s.rows, Step(c, s, m).rows)
  {
    SameRows(s.rows);
    match m
    case Begin(_, _, _, _, _) => BeginKeeps(c, s, m);
    case DispatchTo(_, _) => DispatchKeeps(c, s, m);
    case Read(_, _) => ReadKeeps(c, s, m);
    case Write(_, _, _) => WriteKeeps(c, s, m);
    case RecoverOne(_, _, _) => RecoveryKeeps(c, s, m);
    case _ => OtherKeeps(c, s, m);
  }

  lemma OtherKeeps(c: Crypto, s: Machine, m: Move)
    requires Inv(c, s) && (m.Handle? || m.BeginRecovery? || m.Crash?)
    ensures Inv(c, Step(c, s, m)) && RowsAdvance(s.rows, Step(c, s, m).rows)
  {
    hide RowsOk, RowsAdvance, Begun, EffectsOk, Lists, Granted, Consume, AfterRead, AfterWrite, AfterRecovery, AfterDispatch;
    SameRows(s.rows);
    Goes(c, s, Step(c, s, m), m.process);
  }

  // ---- Every run ----

  lemma InitialInv(c: Crypto)
    ensures Inv(c, INITIAL)
  {}

  lemma AdvanceTogether(a: Consumptions, b: Consumptions, t: Consumptions)
    requires RowsAdvance(a, b) && RowsAdvance(b, t)
    ensures RowsAdvance(a, t)
  {}

  lemma {:induction false} RunKeeps(c: Crypto, s: Machine, moves: seq<Move>)
    requires Inv(c, s)
    ensures Inv(c, Run(c, s, moves)) && RowsAdvance(s.rows, Run(c, s, moves).rows)
    decreases |moves|
  {
    hide Inv, RowsAdvance, Step;
    SameRows(s.rows);
    if moves != [] {
      var s1 := Step(c, s, moves[0]);
      StepKeeps(c, s, moves[0]);
      RunKeeps(c, s1, moves[1..]);
      AdvanceTogether(s.rows, s1.rows, Run(c, s1, moves[1..]).rows);
    }
  }

  lemma {:induction false} RunSplits(c: Crypto, s: Machine, p: seq<Move>, q: seq<Move>)
    ensures Run(c, s, p + q) == Run(c, Run(c, s, p), q)
    decreases |p|
  {
    hide Step;
    if p == [] {
      assert p + q == q;
    } else {
      assert (p + q)[0] == p[0] && (p + q)[1..] == p[1..] + q;
      RunSplits(c, Step(c, s, p[0]), p[1..], q);
    }
  }

  /** However runtimes interleave, fail, crash and recover, the adapter runs at most once for an
      authorization, and at most once for an action. */
  lemma AtMostOnce(c: Crypto, moves: seq<Move>, i: nat, j: nat)
    requires i < j < |Run(c, INITIAL, moves).effects|
    ensures var effects := Run(c, INITIAL, moves).effects;
      ItemAt(effects, i).Id() != ItemAt(effects, j).Id() && ItemAt(effects, i).ActionId() != ItemAt(effects, j).ActionId()
  {
    hide Run, Granted;
    InitialInv(c);
    RunKeeps(c, INITIAL, moves);
    var s := Run(c, INITIAL, moves);
    assert Begun(s.rows, s.effects[i]) && Begun(s.rows, s.effects[j]);
  }

  /** When the adapter runs, the permit was accepted, and its row is there: it was inserted as started
      before. (Recovery may have given it up meanwhile.) */
  lemma EffectAfterStart(c: Crypto, moves: seq<Move>, m: Move)
    requires Run(c, INITIAL, moves + [m]).effects != Run(c, INITIAL, moves).effects
    ensures var was, now := Run(c, INITIAL, moves), Run(c, INITIAL, moves + [m]);
      exists grant :: now.effects == was.effects + [grant] && Granted(c, grant) && Begun(was.rows, grant)
  {
    hide Inv, Granted, Begun;
    InitialInv(c);
    RunKeeps(c, INITIAL, moves);
    RunSplits(c, INITIAL, moves, [m]);
    OneMove(c, Run(c, INITIAL, moves), m);
    EffectOfStep(c, Run(c, INITIAL, moves), m);
  }

  lemma OneMove(c: Crypto, s: Machine, m: Move)
    ensures Run(c, s, [m]) == Step(c, s, m)
  {
    hide Step;
    assert Run(c, s, [m]) == Run(c, Step(c, s, m), [m][1..]);
  }

  lemma EffectOfStep(c: Crypto, s: Machine, m: Move)
    requires Inv(c, s) && Step(c, s, m).effects != s.effects
    ensures exists grant :: Step(c, s, m).effects == s.effects + [grant] && Granted(c, grant) && Begun(s.rows, grant)
  {
    hide Granted, Begun, RowsOk, EffectsOk, DispatchersDistinct, Consume, Lists, WriteOutcome, MarkUnknown, UnknownObservation,
      CompletionFault;
    assert m.DispatchTo?;
    var grant := s.processes[m.process].grant;
    assert ProcessOk(c, s, s.processes[m.process]);
    assert Step(c, s, m).effects == s.effects + [grant];
  }

  /** A row passes at most once from started to a final status, and is never changed after that; it
      holds an outcome exactly when that status is success or failure; and no action has two rows. */
  lemma RowsFinal(c: Crypto, p: seq<Move>, q: seq<Move>)
    ensures RowsAdvance(Run(c, INITIAL, p).rows, Run(c, INITIAL, p + q).rows)
    ensures RowsOk(Run(c, INITIAL, p + q).rows)
  {
    hide RowsOk, RowsAdvance, EffectsOk, DispatchersDistinct, ProcessOk, Run;
    InitialInv(c);
    RunKeeps(c, INITIAL, p);
    RunSplits(c, INITIAL, p, q);
    RunKeeps(c, Run(c, INITIAL, p), q);
  }

  /** Whatever the adapter ever ran for, the gate had signed, as allowed, for that very intent. */
  lemma EffectWasIssued(env: Env, run: seq<GateRuns.Timed>, moves: seq<Move>, k: nat)
    requires Honest(env) && GateRuns.Reached(env, run) && k < |Run(env.crypto, INITIAL, moves).effects|
    requires var grant := ItemAt(Run(env.crypto, INITIAL, moves).effects, k);
      && GateResults.Genuine(env.crypto, grant.config.trustedGate, GateRuns.State(env, run).signed, Permits.PermitOf(grant.permit))
      && CollisionFree(env.crypto, GateResults.TracedTexts(GateRuns.State(env, run), grant.permit))
    ensures var issued := GateRuns.State(env, run).issued;
      var permit := ItemAt(Run(env.crypto, INITIAL, moves).effects, k).permit;
      var body := Permits.BodyOfPermit(permit);
      body in issued && body.GetStr(DECISION) == Some(ALLOWED) && permit.Get(INTENT) == Some(Entry(issued, body))
  {
    hide Run, CheckPermit, GateRuns.Reached, GateRuns.State, GateResults.Genuine, GateResults.TracedTexts, Honest, CollisionFree,
      Permits.BodyOfPermit, Begun, RowsOk, ProcessOk;
    InitialInv(env.crypto);
    RunKeeps(env.crypto, INITIAL, moves);
    var grant := Run(env.crypto, INITIAL, moves).effects[k];
    assert Granted(env.crypto, grant);
    GateResults.AcceptedWasIssued(env, run, grant.config, grant.gateDb, grant.permit, grant.checked);
  }
}
