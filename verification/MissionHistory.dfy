/**
  The event-sourced mission store as a function of its directory contents
  (pathfinder_core/storage.py): replay, the revision-zero candidates, pending-event recovery,
  and `move` as the sequence of directories it leaves behind, one per durable write.

  SHA-256 over canonical JSON is modelled by a free constructor, so equal digests mean equal
  documents.  JSON schemas are arbitrary predicates.
*/
module MissionHistory {
  import opened Wrappers
  import opened MissionState

  datatype Digest = OfState(document: Document) | OfEvent(event: Event) | OfChanges(changes: Changes)

  datatype EventType = TransitionEvent | OtherEvent

  /** The hash chain that schema version 2 events carry; version 1 events have none. */
  datatype Links = Links(previous: Option<Digest>, before: Digest, after: Digest)

  datatype Event = Event(missionId: string, sequence: nat, eventType: EventType, from: State, to: State,
                         attempt: Json, recordedAt: int, changes: Changes, payload: Digest,
                         links: Option<Links>)

  /** state.json and the events directory, keyed by sequence number. */
  datatype Disk = Disk(state: Option<Document>, events: map<nat, Event>)

  datatype Schemas = Schemas(state: Document -> bool, event: Event -> bool)

  datatype StoreError =
    | LockHeld | NotInitialized | AlreadyInitialized | SchemaRejected | HistoryRejected
    | PendingRejected | RepairRequired | DriftRejected | ChangesRejected | ForbiddenTransition
    | AttemptMismatch | EventExists | Crashed

  // ---------------------------------------------------------------- change control

  function AllowedChangeFields(source: State, target: State): set<Field> {
    if target == Blocked then {TerminalReason}
    else if target == Abandoned then {}
    else if source == Planned && target == Authorized then {AuthorizationId}
    else if source == Authorized && target == Prepared then
      {AttemptId, WorktreeId, WorktreePath, BranchId, BranchName}
    else if source == Prepared && target == Running then {NativeGoalId}
    else if source == Verified && target == Committed then {CommitIds}
    else if source == Committed && target == Published then {PrId, PrUrl}
    else {}
  }

  predicate ChangesAllowed(source: State, target: State, changes: Changes) {
    changes.Keys <= AllowedChangeFields(source, target)
  }

  /** transition(...); candidate.update(changes); schema check. */
  function Advance(s: Schemas, d: Document, target: State, at: int, changes: Changes): Option<Document> {
    if !ChangesAllowed(d.state, target, changes) then None
    else match Transition(d, target, at)
      case None => None
      case Some(t) =>
        var c := t.(fields := t.fields + changes);
        if s.state(c) then Some(c) else None
  }

  // ---------------------------------------------------------------- replay

  function Previous(events: seq<Event>): Option<Digest> {
    if |events| == 0 then None else Some(OfEvent(events[|events| - 1]))
  }

  predicate SawV2(events: seq<Event>) {
    exists i :: 0 <= i < |events| && events[i].links.Some?
  }

  predicate LinksMatch(before: Document, after: Document, previous: Option<Digest>, e: Event) {
    e.links.Some? ==>
      && e.links.value == Links(previous, OfState(before), OfState(after))
      && e.attempt == Get(after.fields, AttemptId)
  }

  function ReplayStep(s: Schemas, d: Document, earlier: seq<Event>, e: Event): Option<Document> {
    if e.from != d.state || (e.links.None? && SawV2(earlier)) then None
    else match Advance(s, d, e.to, e.recordedAt, e.changes)
      case None => None
      case Some(c) => if LinksMatch(d, c, Previous(earlier), e) then Some(c) else None
  }

  function Replay(s: Schemas, initial: Document, events: seq<Event>): Option<Document> {
    if |events| == 0 then
      if s.state(initial) then Some(initial) else None
    else
      var earlier, e := events[..|events| - 1], events[|events| - 1];
      match Replay(s, initial, earlier)
      case None => None
      case Some(d) => ReplayStep(s, d, earlier, e)
  }

  // ---------------------------------------------------------------- revision-zero candidates

  predicate Changes?(events: seq<Event>, f: Field) {
    exists i :: 0 <= i < |events| && f in events[i].changes
  }

  const ResetFields: Changes := map[
    AuthorizationId := Null, WorktreeId := Null, WorktreePath := Null, BranchId := Null,
    BranchName := Null, CommitIds := List([]), PrId := Null, PrUrl := Null]

  function BaseCandidate(d: Document, events: seq<Event>): Document {
    var attempt := if Changes?(events, AttemptId) then Null else Get(d.fields, AttemptId);
    d.(state := Planned, revision := 0, updatedAt := d.createdAt,
       fields := (d.fields + ResetFields)[AttemptId := attempt] - {NativeGoalId, TerminalReason})
  }

  /** For an optional field in play, every candidate is tried without it and with a null value. */
  function Expand(candidates: seq<Document>, f: Field): seq<Document> {
    if |candidates| == 0 then []
    else [candidates[0], candidates[0].(fields := candidates[0].fields[f := Null])] + Expand(candidates[1..], f)
  }

  function ExpandIfInPlay(candidates: seq<Document>, d: Document, events: seq<Event>, f: Field): seq<Document> {
    if f in d.fields || Changes?(events, f) then Expand(candidates, f) else candidates
  }

  function Candidates(d: Document, events: seq<Event>): seq<Document> {
    ExpandIfInPlay(ExpandIfInPlay([BaseCandidate(d, events)], d, events, NativeGoalId), d, events, TerminalReason)
  }

  // ---------------------------------------------------------------- validation and recovery

  /** The per-event checks made before replay. */
  predicate EventOk(s: Schemas, e: Event, missionId: string, sequence: nat) {
    && s.event(e) && e.payload == OfChanges(e.changes) && e.missionId == missionId
    && e.sequence == sequence && e.eventType == TransitionEvent
  }

  ghost predicate HistoryPresent(s: Schemas, d: Document, events: map<nat, Event>) {
    forall n :: 1 <= n <= d.revision ==> n in events && EventOk(s, events[n], d.identity.missionId, n)
  }

  function HistoryUpTo(events: map<nat, Event>, revision: nat): (h: seq<Event>)
    requires forall n :: 1 <= n <= revision ==> n in events
    ensures |h| == revision && forall i :: 0 <= i < revision ==> h[i] == events[i + 1]
  {
    seq(revision, i requires 0 <= i < revision => events[i + 1])
  }

  ghost predicate HistoryAccepted(s: Schemas, d: Document, history: seq<Event>) {
    exists c :: c in Candidates(d, history) && Replay(s, c, history) == Some(d)
  }

  /** `_read_state` succeeds. */
  ghost predicate Readable(s: Schemas, disk: Disk) {
    && disk.state.Some?
    && var d := disk.state.value;
       s.state(d) && HistoryPresent(s, d, disk.events) && HistoryAccepted(s, d, HistoryUpTo(disk.events, d.revision))
  }

  /** `_candidate_from_event`: the state an event written ahead of state.json leads to. */
  function CandidateFromEvent(s: Schemas, d: Document, events: map<nat, Event>, e: Event): Option<Document> {
    if !EventOk(s, e, d.identity.missionId, d.revision + 1) || e.from != d.state then None
    else match Advance(s, d, e.to, e.recordedAt, e.changes)
      case None => None
      case Some(c) =>
        var previous := if d.revision > 0 && d.revision in events then Some(OfEvent(events[d.revision])) else None;
        if LinksMatch(d, c, previous, e) then Some(c) else None
  }

  predicate HasPending(d: Document, events: map<nat, Event>) { d.revision + 1 in events }

  /** The state `_repair_locked` returns. */
  ghost function Repaired(s: Schemas, disk: Disk): Result<Document, StoreError> {
    if disk.state.None? then Err(NotInitialized)
    else if !Readable(s, disk) then Err(HistoryRejected)
    else
      var d := disk.state.value;
      if !HasPending(d, disk.events) then Ok(d)
      else match CandidateFromEvent(s, d, disk.events, disk.events[d.revision + 1])
        case None => Err(PendingRejected)
        case Some(c) => Ok(c)
  }

  /** The directories a repair passes through: itself, and the one with state.json rewritten. */
  ghost function RepairTrace(s: Schemas, disk: Disk): (trace: seq<Disk>)
    ensures |trace| > 0 && trace[0] == disk
  {
    if Repaired(s, disk).Ok? && HasPending(disk.state.value, disk.events)
    then [disk, disk.(state := Some(Repaired(s, disk).value))]
    else [disk]
  }

  /** The store after its pending event, if any, has been applied. */
  ghost function SettledDisk(s: Schemas, disk: Disk): Disk { RepairTrace(s, disk)[|RepairTrace(s, disk)| - 1] }

  // ---------------------------------------------------------------- move

  datatype Request = Request(target: State, attempt: Option<Json>, changes: Changes)

  function NewEvent(current: Document, updated: Document, r: Request, previous: Option<Digest>): Event {
    Event(current.identity.missionId, updated.revision, TransitionEvent, current.state, r.target,
          Get(updated.fields, AttemptId), updated.updatedAt, r.changes, OfChanges(r.changes),
          Some(Links(previous, OfState(current), OfState(updated))))
  }

  datatype Plan = Stay(document: Document) | Append(event: Event, updated: Document)

  /** What `move` decides once the current state is repaired, before its own writes. */
  function PlanMove(s: Schemas, current: Document, events: map<nat, Event>, r: Request, now: int): Result<Plan, StoreError> {
    if r.target == current.state then
      if forall f :: f in r.changes ==> Get(current.fields, f) == r.changes[f]
      then Ok(Stay(current)) else Err(DriftRejected)
    else if !ChangesAllowed(current.state, r.target, r.changes) then Err(ChangesRejected)
    else match Transition(current, r.target, now)
      case None => Err(ForbiddenTransition)
      case Some(t) =>
        var updated := t.(fields := t.fields + r.changes);
        if !s.state(updated) then Err(SchemaRejected)
        else if r.attempt.Some? && r.attempt.value != Get(updated.fields, AttemptId) then Err(AttemptMismatch)
        else
          var n := updated.revision;
          var previous := if n > 1 && n - 1 in events then Some(OfEvent(events[n - 1])) else None;
          var e := NewEvent(current, updated, r, previous);
          if !s.event(e) then Err(SchemaRejected)
          else if n in events && events[n] != e then Err(EventExists)
          else Ok(Append(e, updated))
  }

  lemma StayReturnsCurrent(s: Schemas, current: Document, events: map<nat, Event>, r: Request, now: int)
    ensures var plan := PlanMove(s, current, events, r, now); plan.Ok? && plan.value.Stay? ==> plan.value == Stay(current)
  {}

  /** The document an uninterrupted `move` returns. */
  ghost function Moved(s: Schemas, disk: Disk, r: Request, now: int): Result<Document, StoreError> {
    match Repaired(s, disk)
    case Err(e) => Err(e)
    case Ok(current) =>
      match PlanMove(s, current, disk.events, r, now)
      case Err(e) => Err(e)
      case Ok(Stay(d)) => Ok(d)
      case Ok(Append(_, updated)) => Ok(updated)
  }

  /** `_append_event`, which writes nothing when the very same event is there, then state.json. */
  function AppendTrace(current: Document, events: map<nat, Event>, e: Event, updated: Document): seq<Disk> {
    var events' := events[updated.revision := e];
    (if updated.revision in events then [] else [Disk(Some(current), events')]) + [Disk(Some(updated), events')]
  }

  /**
    The directories `move` passes through, one per durable write: the repair of an earlier
    interruption, then the event, then state.json.  A crash leaves any one of them behind.
  */
  ghost function MoveTrace(s: Schemas, disk: Disk, r: Request, now: int): (trace: seq<Disk>)
    ensures |trace| > 0 && trace[0] == disk
  {
    match Repaired(s, disk)
    case Err(_) => [disk]
    case Ok(current) =>
      var repair := RepairTrace(s, disk);
      match PlanMove(s, current, disk.events, r, now)
      case Ok(Append(e, updated)) => repair + AppendTrace(current, disk.events, e, updated)
      case _ => repair
  }
}
