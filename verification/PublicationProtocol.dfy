/**
  The publication journal and controller as a transition system (pathfinder_core/publication_journal.py,
  publication_controller.py): any number of `publish` and `reconcile` calls, in any number of
  processes, over one directory and its lock file.  Unlike a merge, the send happens after the
  dispatch record is durable and the lock has been released.
*/
module PublicationProtocol {
  import opened Wrappers

  type RequestId = string
  type CallId = nat

  const MINUTE := 60_000_000
  const SECOND := 1_000_000

  /** `rest` stands for the fields that only take part in equality and in the opaque checks. */
  datatype Request = Request(id: RequestId, missionAuthorization: string, missionState: string, headSha: string,
                             commitSha: string, issuedAt: int, expiresAt: int, authorizedAt: int, wallSeconds: int, rest: string)

  datatype RequestHash = OfRequest(request: Request)

  datatype Dispatch = Dispatch(id: RequestId, requestSha: RequestHash, startedAt: int)

  datatype Receipt = Receipt(id: RequestId, requestSha: RequestHash, content: string, observedAt: int)

  datatype Directory = Directory(requests: map<RequestId, Request>, dispatches: map<RequestId, Dispatch>,
                                 receipts: map<RequestId, Receipt>)

  datatype Validity = Validity(request: Request -> bool, receipt: (Request, Receipt) -> bool)

  // ---------------------------------------------------------------- what the journal checks

  /** `_validate_request_binding`; the identity comparisons are the given predicate. */
  predicate RequestValid(v: Validity, r: Request) {
    && r.issuedAt < r.expiresAt <= r.issuedAt + 15 * MINUTE
    && r.commitSha == r.headSha
    && r.authorizedAt <= r.issuedAt && r.expiresAt <= r.authorizedAt + r.wallSeconds * SECOND
    && v.request(r)
  }

  predicate SharesAuthority(a: Request, b: Request) {
    a.missionAuthorization == b.missionAuthorization || a.missionState == b.missionState || a.headSha == b.headSha
  }

  /** `_assert_unclaimed`: it also fails on an invalid request found on disk. */
  predicate Unclaimed(v: Validity, d: Directory, r: Request) {
    forall id :: id in d.requests ==> RequestValid(v, d.requests[id]) && (id == r.id || !SharesAuthority(d.requests[id], r))
  }

  predicate InWindow(r: Request, at: int) { r.issuedAt <= at < r.expiresAt }

  predicate DispatchBound(r: Request, d: Dispatch) { d.id == r.id && d.requestSha == OfRequest(r) && InWindow(r, d.startedAt) }

  /** `_validate_binding`. */
  predicate ReceiptValid(v: Validity, r: Request, d: Dispatch, receipt: Receipt) {
    && RequestValid(v, r) && DispatchBound(r, d)
    && receipt.id == r.id && receipt.requestSha == OfRequest(r) && v.receipt(r, receipt)
    && r.issuedAt <= d.startedAt <= receipt.observedAt
  }

  predicate DispatchAllowed(v: Validity, d: Directory, r: Request, startedAt: int) {
    && r.id in d.requests && d.requests[r.id] == r && RequestValid(v, r)
    && r.id !in d.receipts && r.id !in d.dispatches && InWindow(r, startedAt)
  }

  /** `load` succeeds. */
  predicate Loadable(v: Validity, d: Directory, id: RequestId) {
    && id in d.requests && d.requests[id].id == id && RequestValid(v, d.requests[id])
    && (id in d.dispatches ==> DispatchBound(d.requests[id], d.dispatches[id]))
    && (id in d.receipts ==> id in d.dispatches && ReceiptValid(v, d.requests[id], d.dispatches[id], d.receipts[id]))
  }

  predicate RecordAllowed(v: Validity, d: Directory, receipt: Receipt) {
    && receipt.id in d.requests && receipt.id in d.dispatches
    && ReceiptValid(v, d.requests[receipt.id], d.dispatches[receipt.id], receipt)
    && (receipt.id in d.receipts ==> d.receipts[receipt.id] == receipt)
  }

  // ---------------------------------------------------------------- the system

  /** `publish` enters at `Enveloped`, `reconcile` at `Observing`. */
  datatype Phase =
    | Enveloped(request: Request, startedAt: int)
    | Claiming(request: Request, startedAt: int)
    | Claimed(request: Request, startedAt: int)
    | Dispatching(request: Request, startedAt: int)
    | Marked(request: Request)
    | Sent(request: Request)
    | Observing(request: Request, current: int)
    | Recording(receipt: Receipt)
    | Storing(receipt: Receipt)
    | Done
    | Dead

  datatype Send = Send(call: CallId, request: Request)

  /** What lasts, with a log of the sends and of who does what. */
  datatype World = World(dir: Directory, clock: int, sends: seq<Send>, creators: map<RequestId, CallId>,
                         dispatchers: map<RequestId, CallId>, publishers: set<CallId>, reconcilers: set<CallId>)

  datatype System = System(world: World, lock: Option<CallId>, calls: map<CallId, Phase>)

  const Start := System(World(Directory(map[], map[], map[]), 0, [], map[], map[], {}, {}), None, map[])

  datatype Action =
    | StartPublish(call: CallId, id: RequestId, request: Request)
    | AcquireClaim(call: CallId)
    | WriteRequest(call: CallId)
    | AcquireDispatch(call: CallId)
    | MarkDispatch(call: CallId)
    | SendOnce(call: CallId)
    | Answer(call: CallId, content: string)
    | StartReconcile(call: CallId, id: RequestId)
    | Observe(call: CallId, content: string)
    | AcquireRecord(call: CallId)
    | StoreReceipt(call: CallId)
    | Fail(call: CallId)
    | Kill(call: CallId)
    | ClearDeadLock
    | Tick(elapsed: nat)

  function Goto(s: System, c: CallId, phase: Phase): System { s.(calls := s.calls[c := phase]) }

  function Finish(s: System, c: CallId): System {
    Goto(s, c, Done).(lock := if s.lock == Some(c) then None else s.lock)
  }

  function WithRequest(w: World, c: CallId, r: Request): World {
    w.(dir := w.dir.(requests := w.dir.requests[r.id := r]), creators := w.creators[r.id := c])
  }

  function WithDispatch(w: World, c: CallId, r: Request, startedAt: int): World {
    w.(dir := w.dir.(dispatches := w.dir.dispatches[r.id := Dispatch(r.id, OfRequest(r), startedAt)]),
       dispatchers := w.dispatchers[r.id := c])
  }

  function WithSend(w: World, c: CallId, r: Request): World { w.(sends := w.sends + [Send(c, r)]) }

  function WithReceipt(w: World, receipt: Receipt): World {
    w.(dir := w.dir.(receipts := w.dir.receipts[receipt.id := receipt]))
  }

  /** `publish`: an existing request is only reported; a fresh envelope must be current now. */
  function StartPublishStep(v: Validity, s: System, c: CallId, id: RequestId, r: Request): System {
    if c in s.calls then s
    else
      var known := s.(world := s.world.(publishers := s.world.publishers + {c}));
      if id in s.world.dir.requests || r.id != id || !InWindow(r, s.world.clock) || !RequestValid(v, r) then Goto(known, c, Done)
      else Goto(known, c, Enveloped(r, s.world.clock))
  }

  function AcquireClaimStep(v: Validity, s: System, c: CallId): System {
    if !(c in s.calls && s.calls[c].Enveloped?) then s
    else
      var ph := s.calls[c];
      if s.lock.Some? || ph.request.id in s.world.dir.requests || !Unclaimed(v, s.world.dir, ph.request) then Finish(s, c)
      else Goto(s, c, Claiming(ph.request, ph.startedAt)).(lock := Some(c))
  }

  function WriteRequestStep(s: System, c: CallId): System {
    if !(c in s.calls && s.calls[c].Claiming?) then s
    else
      var ph := s.calls[c];
      Finish(s, c).(calls := s.calls[c := Claimed(ph.request, ph.startedAt)], world := WithRequest(s.world, c, ph.request))
  }

  function AcquireDispatchStep(v: Validity, s: System, c: CallId): System {
    if !(c in s.calls && s.calls[c].Claimed?) then s
    else
      var ph := s.calls[c];
      if s.lock.Some? || !DispatchAllowed(v, s.world.dir, ph.request, ph.startedAt) then Finish(s, c)
      else Goto(s, c, Dispatching(ph.request, ph.startedAt)).(lock := Some(c))
  }

  /** The record is durable and the lock is released before anything is sent. */
  function MarkDispatchStep(s: System, c: CallId): System {
    if !(c in s.calls && s.calls[c].Dispatching?) then s
    else
      var ph := s.calls[c];
      Finish(s, c).(calls := s.calls[c := Marked(ph.request)], world := WithDispatch(s.world, c, ph.request, ph.startedAt))
  }

  function SendStep(s: System, c: CallId): System {
    if !(c in s.calls && s.calls[c].Marked?) then s
    else Goto(s, c, Sent(s.calls[c].request)).(world := WithSend(s.world, c, s.calls[c].request))
  }

  function AnswerStep(s: System, c: CallId, content: string): System {
    if !(c in s.calls && s.calls[c].Sent?) then s
    else
      var r := s.calls[c].request;
      Goto(s, c, Recording(Receipt(r.id, OfRequest(r), content, s.world.clock)))
  }

  /** `reconcile`: nothing to do without a dispatch record, or with a receipt. */
  function StartReconcileStep(v: Validity, s: System, c: CallId, id: RequestId): System {
    if c in s.calls then s
    else
      var known := s.(world := s.world.(reconcilers := s.world.reconcilers + {c}));
      if !Loadable(v, s.world.dir, id) || id in s.world.dir.receipts || id !in s.world.dir.dispatches then Goto(known, c, Done)
      else Goto(known, c, Observing(s.world.dir.requests[id], s.world.clock))
  }

  function ObserveStep(s: System, c: CallId, content: string): System {
    if !(c in s.calls && s.calls[c].Observing?) then s
    else
      var ph := s.calls[c];
      Goto(s, c, Recording(Receipt(ph.request.id, OfRequest(ph.request), content, ph.current)))
  }

  function AcquireRecordStep(v: Validity, s: System, c: CallId): System {
    if !(c in s.calls && s.calls[c].Recording?) then s
    else
      var ph := s.calls[c];
      if s.lock.Some? || !RecordAllowed(v, s.world.dir, ph.receipt) then Finish(s, c)
      else Goto(s, c, Storing(ph.receipt)).(lock := Some(c))
  }

  function StoreReceiptStep(s: System, c: CallId): System {
    if !(c in s.calls && s.calls[c].Storing?) then s
    else Finish(s, c).(world := WithReceipt(s.world, s.calls[c].receipt))
  }

  function Step(v: Validity, s: System, a: Action): System {
    match a
    case StartPublish(c, id, r) => StartPublishStep(v, s, c, id, r)
    case AcquireClaim(c) => AcquireClaimStep(v, s, c)
    case WriteRequest(c) => WriteRequestStep(s, c)
    case AcquireDispatch(c) => AcquireDispatchStep(v, s, c)
    case MarkDispatch(c) => MarkDispatchStep(s, c)
    case SendOnce(c) => SendStep(s, c)
    case Answer(c, content) => AnswerStep(s, c, content)
    case StartReconcile(c, id) => StartReconcileStep(v, s, c, id)
    case Observe(c, content) => ObserveStep(s, c, content)
    case AcquireRecord(c) => AcquireRecordStep(v, s, c)
    case StoreReceipt(c) => StoreReceiptStep(s, c)
    case Fail(c) => if c in s.calls && !s.calls[c].Dead? then Finish(s, c) else s
    case Kill(c) => if c in s.calls && !s.calls[c].Done? then Goto(s, c, Dead) else s
    case ClearDeadLock => if s.lock.Some? && s.lock.value in s.calls && s.calls[s.lock.value].Dead? then s.(lock := None) else s
    case Tick(elapsed) => s.(world := s.world.(clock := s.world.clock + elapsed))
  }

  function Run(v: Validity, s: System, actions: seq<Action>): System {
    if |actions| == 0 then s else Step(v, Run(v, s, actions[..|actions| - 1]), actions[|actions| - 1])
  }
}
