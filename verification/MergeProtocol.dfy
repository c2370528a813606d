/**
  The at-most-once merge protocol as a transition system: any number of `execute` and `reconcile`
  calls, in any number of processes, sharing one journal directory and its lock file
  (pathfinder_core/merge_journal.py, merge_executor.py, adapters/github_merge_writer.py).

  One action is one durable write, one lock operation, one unlocked read or one network message.
  At any point a call may fail, which releases the lock it holds, or be killed, which leaves the
  lock file behind until an operator removes it.
*/
module MergeProtocol {
  import opened Wrappers
  import opened MergeDocuments
  import opened MergeExecutor

  type CallId = nat

  /** Where a call stands.  `reconcile` enters at `Reading`, `execute` at `Executing`. */
  datatype Phase =
    | Executing(inputs: Inputs, intent: Intent)
    | Claiming(inputs: Inputs, intent: Intent, created: bool, next: nat)
    | Claimed(inputs: Inputs, intent: Intent)
    | Dispatching(inputs: Inputs, intent: Intent)
    | Marked(inputs: Inputs, intent: Intent, dispatch: Dispatch)
    | Sent(inputs: Inputs, intent: Intent, dispatch: Dispatch)
    | Replied(inputs: Inputs, intent: Intent, dispatch: Dispatch, reply: Reply)
    | Reading(inputs: Inputs, intent: Intent, seen: Option<Dispatch>)
    | Observing(inputs: Inputs, intent: Intent, seen: Option<Dispatch>)
    | Recording(executor: bool, inputs: Inputs, intent: Intent, result: MergeResult)
    | Storing(executor: bool, inputs: Inputs, intent: Intent, result: MergeResult)
    | Done
    | Dead

  /** One merge PUT as the network saw it. */
  datatype Put = Put(call: CallId, operationId: OperationId, bindings: Bindings)

  /**
    What lasts: the shared directory, the clock, and a log of the PUTs in order and, for each file
    of an operation, of the call that wrote it.
  */
  datatype World = World(
    dir: Directory, clock: int, puts: seq<Put>,
    creators: map<OperationId, CallId>, dispatchers: map<OperationId, CallId>, recorders: map<OperationId, CallId>)

  /** The world, the lock file and where every call stands. */
  datatype System = System(world: World, lock: Option<CallId>, calls: map<CallId, Phase>)

  datatype Action =
    | StartExecute(call: CallId, inputs: Inputs, intent: Intent)
    | AcquireClaim(call: CallId)
    | WriteInput(call: CallId)
    | WriteIntent(call: CallId)
    | AcquireDispatch(call: CallId)
    | MarkDispatch(call: CallId)
    | SendPut(call: CallId)
    | LoseBeforePut(call: CallId)
    | ReceiveReply(call: CallId, reply: Reply)
    | Classify(call: CallId, observation: Observation)
    | StartReconcile(call: CallId, operationId: OperationId)
    | ReadResult(call: CallId)
    | BuildReconcile(call: CallId)
    | AcquireRecord(call: CallId)
    | StoreResult(call: CallId)
    | Fail(call: CallId)
    | Kill(call: CallId)
    | ClearDeadLock
    | Tick(elapsed: nat)

  type Validity = (Inputs, Intent) -> bool

  const Start := System(World(EmptyDirectory, 0, [], map[], map[], map[]), None, map[])

  function Goto(s: System, c: CallId, phase: Phase): System { s.(calls := s.calls[c := phase]) }

  /** The call ends, by return or by error; a lock it holds is released. */
  function Finish(s: System, c: CallId): System {
    Goto(s, c, Done).(lock := if s.lock == Some(c) then None else s.lock)
  }

  // ---------------------------------------------------------------- the durable writes

  function WithInput(w: World, key: (OperationId, Label), document: string): World {
    w.(dir := w.dir.(inputs := w.dir.inputs[key := document]))
  }

  function WithIntent(w: World, c: CallId, intent: Intent): World {
    w.(dir := w.dir.(intents := w.dir.intents[intent.operationId := intent]), creators := w.creators[intent.operationId := c])
  }

  /** The record `dispatch_once` writes; the executor passes the intent's own start time. */
  function DispatchFor(intent: Intent): Dispatch { Dispatch(intent.operationId, OfIntent(intent), intent.startedAt) }

  function WithDispatch(w: World, c: CallId, intent: Intent): World {
    w.(dir := w.dir.(dispatches := w.dir.dispatches[intent.operationId := DispatchFor(intent)]),
       dispatchers := w.dispatchers[intent.operationId := c])
  }

  function WithPut(w: World, c: CallId, intent: Intent): World {
    w.(puts := w.puts + [Put(c, intent.operationId, intent.bindings)])
  }

  function WithResult(w: World, c: CallId, op: OperationId, result: MergeResult): World {
    w.(dir := w.dir.(results := w.dir.results[op := result]), recorders := w.recorders[op := c])
  }

  // ---------------------------------------------------------------- execute

  /** `execute` finds no intent and its envelope, created now, replays as ready. */
  function StartExecuteStep(valid: Validity, s: System, c: CallId, inputs: Inputs, intent: Intent): System {
    if c in s.calls || intent.operationId in s.world.dir.intents || intent.startedAt != s.world.clock || !InputsValid(valid, inputs, intent)
    then s
    else Goto(s, c, Executing(inputs, intent))
  }

  /** The lock is taken at once or the call fails; a fresh intent must not respend a key. */
  function AcquireClaimStep(s: System, c: CallId): System {
    if !(c in s.calls && s.calls[c].Executing?) then s
    else
      var ph := s.calls[c];
      var created := ph.intent.operationId !in s.world.dir.intents;
      if s.lock.Some? || (created && !Unspent(s.world.dir, ph.intent)) then Finish(s, c)
      else Goto(s, c, Claiming(ph.inputs, ph.intent, created, 0)).(lock := Some(c))
  }

  function WriteInputStep(s: System, c: CallId): System {
    if !(c in s.calls && s.calls[c].Claiming? && s.calls[c].next < |InputFiles|) then s
    else
      var ph := s.calls[c];
      var file := InputFiles[ph.next];
      var key := (ph.intent.operationId, file);
      if file !in ph.inputs || !Writable(s.world.dir.inputs, key, ph.inputs[file]) then Finish(s, c)
      else Goto(s, c, ph.(next := ph.next + 1)).(world := WithInput(s.world, key, ph.inputs[file]))
  }

  /** The intent goes last; only the call that created it leaves with a claim. */
  function WriteIntentStep(s: System, c: CallId): System {
    if !(c in s.calls && s.calls[c].Claiming? && s.calls[c].next >= |InputFiles|) then s
    else
      var ph := s.calls[c];
      if !ph.created then Finish(s, c)
      else Finish(s, c).(calls := s.calls[c := Claimed(ph.inputs, ph.intent)], world := WithIntent(s.world, c, ph.intent))
  }

  function AcquireDispatchStep(valid: Validity, s: System, c: CallId): System {
    if !(c in s.calls && s.calls[c].Claimed?) then s
    else
      var ph := s.calls[c];
      if s.lock.Some? || !DispatchAllowed(valid, s.world.dir, ph.intent.operationId, OfIntent(ph.intent), ph.intent.startedAt)
      then Finish(s, c)
      else Goto(s, c, Dispatching(ph.inputs, ph.intent)).(lock := Some(c))
  }

  /** `mark_dispatch`: the durable record, written at the backend's last point before transport. */
  function MarkDispatchStep(s: System, c: CallId): System {
    if !(c in s.calls && s.calls[c].Dispatching?) then s
    else
      var ph := s.calls[c];
      if !Writable(s.world.dir.dispatches, ph.intent.operationId, DispatchFor(ph.intent)) then Finish(s, c)
      else Goto(s, c, Marked(ph.inputs, ph.intent, DispatchFor(ph.intent))).(world := WithDispatch(s.world, c, ph.intent))
  }

  function SendPutStep(s: System, c: CallId): System {
    if !(c in s.calls && s.calls[c].Marked?) then s
    else
      var ph := s.calls[c];
      Goto(s, c, Sent(ph.inputs, ph.intent, ph.dispatch)).(world := WithPut(s.world, c, ph.intent))
  }

  /** An I/O error after the record is durable looks like a lost response, although nothing was sent. */
  function LoseBeforePutStep(s: System, c: CallId): System {
    if !(c in s.calls && s.calls[c].Marked?) then s
    else
      var ph := s.calls[c];
      Finish(s, c).(calls := s.calls[c := Replied(ph.inputs, ph.intent, ph.dispatch, Lost)])
  }

  function ReceiveReplyStep(s: System, c: CallId, reply: Reply): System {
    if !(c in s.calls && s.calls[c].Sent?) then s
    else
      var ph := s.calls[c];
      Finish(s, c).(calls := s.calls[c := Replied(ph.inputs, ph.intent, ph.dispatch, reply)])
  }

  function ClassifyStep(s: System, c: CallId, observation: Observation): System {
    if !(c in s.calls && s.calls[c].Replied? && HasEvery(s.calls[c].inputs)) then s
    else
      var ph := s.calls[c];
      var result := ExecuteResult(ph.inputs, ph.intent, ph.dispatch, ph.reply, observation, s.world.clock);
      Goto(s, c, Recording(true, ph.inputs, ph.intent, result))
  }

  // ---------------------------------------------------------------- reconcile

  function DispatchOf(d: Directory, op: OperationId): Option<Dispatch> {
    if op in d.dispatches then Some(d.dispatches[op]) else None
  }

  /** `load` without the lock: the intent, its inputs and the dispatch record are read first. */
  function StartReconcileStep(valid: Validity, s: System, c: CallId, op: OperationId): System {
    if c in s.calls || !Loadable(valid, s.world.dir, op) then s
    else Goto(s, c, Reading(InputsOf(s.world.dir, op), s.world.dir.intents[op], DispatchOf(s.world.dir, op)))
  }

  /** The result file is looked at later; if it is there the call only reports it. */
  function ReadResultStep(s: System, c: CallId): System {
    if !(c in s.calls && s.calls[c].Reading?) then s
    else
      var ph := s.calls[c];
      if ph.intent.operationId in s.world.dir.results then Finish(s, c)
      else Goto(s, c, Observing(ph.inputs, ph.intent, ph.seen))
  }

  function BuildReconcileStep(s: System, c: CallId): System {
    if !(c in s.calls && s.calls[c].Observing? && HasEvery(s.calls[c].inputs)) then s
    else
      var ph := s.calls[c];
      Goto(s, c, Recording(false, ph.inputs, ph.intent, ReconcileResult(ph.inputs, ph.intent, ph.seen, s.world.clock)))
  }

  // ---------------------------------------------------------------- recording a result

  /** `record_result` under the lock: reload, validate against the dispatch now on disk, write once. */
  function AcquireRecordStep(valid: Validity, s: System, c: CallId): System {
    if !(c in s.calls && s.calls[c].Recording?) then s
    else
      var ph := s.calls[c];
      var op := ph.intent.operationId;
      if s.lock.Some? || !Loadable(valid, s.world.dir, op)
         || !ResultValid(InputsOf(s.world.dir, op), s.world.dir.intents[op], DispatchOf(s.world.dir, op), ph.result)
         || !Writable(s.world.dir.results, op, ph.result)
      then Finish(s, c)
      else Goto(s, c, Storing(ph.executor, ph.inputs, ph.intent, ph.result)).(lock := Some(c))
  }

  function StoreResultStep(s: System, c: CallId): System {
    if !(c in s.calls && s.calls[c].Storing?) then s
    else
      var ph := s.calls[c];
      var op := ph.intent.operationId;
      if op in s.world.dir.results then Finish(s, c)
      else Finish(s, c).(world := WithResult(s.world, c, op, ph.result))
  }

  // ---------------------------------------------------------------- the system

  function Step(valid: Validity, s: System, a: Action): System {
    match a
    case StartExecute(c, inputs, intent) => StartExecuteStep(valid, s, c, inputs, intent)
    case AcquireClaim(c) => AcquireClaimStep(s, c)
    case WriteInput(c) => WriteInputStep(s, c)
    case WriteIntent(c) => WriteIntentStep(s, c)
    case AcquireDispatch(c) => AcquireDispatchStep(valid, s, c)
    case MarkDispatch(c) => MarkDispatchStep(s, c)
    case SendPut(c) => SendPutStep(s, c)
    case LoseBeforePut(c) => LoseBeforePutStep(s, c)
    case ReceiveReply(c, reply) => ReceiveReplyStep(s, c, reply)
    case Classify(c, observation) => ClassifyStep(s, c, observation)
    case StartReconcile(c, op) => StartReconcileStep(valid, s, c, op)
    case ReadResult(c) => ReadResultStep(s, c)
    case BuildReconcile(c) => BuildReconcileStep(s, c)
    case AcquireRecord(c) => AcquireRecordStep(valid, s, c)
    case StoreResult(c) => StoreResultStep(s, c)
    case Fail(c) => if c in s.calls && !s.calls[c].Dead? then Finish(s, c) else s
    case Kill(c) => if c in s.calls && !s.calls[c].Done? then Goto(s, c, Dead) else s
    case ClearDeadLock => if s.lock.Some? && s.lock.value in s.calls && s.calls[s.lock.value].Dead? then s.(lock := None) else s
    case Tick(elapsed) => s.(world := s.world.(clock := s.world.clock + elapsed))
  }

  function Run(valid: Validity, s: System, actions: seq<Action>): System {
    if |actions| == 0 then s else Step(valid, Run(valid, s, actions[..|actions| - 1]), actions[|actions| - 1])
  }
}
