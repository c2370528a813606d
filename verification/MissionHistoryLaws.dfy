/** What the event-sourced store guarantees, over every run of moves, repairs and crashes. */
module MissionHistoryLaws {
  import opened Wrappers
  import opened MissionState
  import opened MissionHistory

  // ---------------------------------------------------------------- the shape a mission starts with

  ghost predicate Canonical(s: Schemas, initial: Document) {
    && s.state(initial)
    && initial.state == Planned && initial.revision == 0 && initial.updatedAt == initial.createdAt
    && (forall f :: f in ResetFields ==> f in initial.fields && initial.fields[f] == ResetFields[f])
    && AttemptId in initial.fields
    && (NativeGoalId in initial.fields ==> initial.fields[NativeGoalId] == Null)
    && (TerminalReason in initial.fields ==> initial.fields[TerminalReason] == Null)
  }

  /** `d` replays from `initial` through the events up to its revision; at most one more exists. */
  ghost predicate Replays(s: Schemas, initial: Document, d: Document, events: map<nat, Event>) {
    && HistoryPresent(s, d, events)
    && Replay(s, initial, HistoryUpTo(events, d.revision)) == Some(d)
    && forall n :: n in events ==> 1 <= n <= d.revision + 1 && events[n].links.Some?
  }

  /** The event beyond `d`'s revision is a genuine next step leading to `c`. */
  ghost predicate LeadsTo(s: Schemas, d: Document, events: map<nat, Event>, c: Document) {
    && HasPending(d, events)
    && events[d.revision + 1].to != d.state
    && CandidateFromEvent(s, d, events, events[d.revision + 1]) == Some(c)
  }

  /**
    The store holds the history of `initial`: state.json replays from the events up to its
    revision, and at most one further event, itself a genuine next step, lies beyond it.
  */
  ghost predicate Intact(s: Schemas, initial: Document, disk: Disk) {
    && Canonical(s, initial)
    && disk.state.Some?
    && Replays(s, initial, disk.state.value, disk.events)
    && (HasPending(disk.state.value, disk.events) ==> exists c :: LeadsTo(s, disk.state.value, disk.events, c))
  }

  /** The attempt identity is set at most once: at revision zero, or by events when it was null there. */
  ghost predicate AttemptSetOnce(initial: Document, d: Document, events: map<nat, Event>) {
    Get(initial.fields, AttemptId) == Null
    || forall n :: 1 <= n <= d.revision && n in events ==> AttemptId !in events[n].changes
  }

  // ---------------------------------------------------------------- replay facts

  lemma {:induction false} ReplayKeepsIdentity(s: Schemas, initial: Document, events: seq<Event>)
    requires Replay(s, initial, events).Some?
    ensures var d := Replay(s, initial, events).value;
            && d.identity == initial.identity && d.createdAt == initial.createdAt && s.state(d)
            && d.revision <= initial.revision + |events|
  {
    if |events| > 0 { ReplayKeepsIdentity(s, initial, events[..|events| - 1]); }
  }

  lemma {:induction false} ReplayKeepsUntouchedFields(s: Schemas, initial: Document, events: seq<Event>, f: Field)
    requires Replay(s, initial, events).Some?
    requires !Changes?(events, f)
    ensures var d := Replay(s, initial, events).value;
            (f in d.fields <==> f in initial.fields) && (f in d.fields ==> d.fields[f] == initial.fields[f])
  {
    if |events| > 0 {
      var earlier, e := events[..|events| - 1], events[|events| - 1];
      assert e == events[|events| - 1] && f !in e.changes;
      assert forall i :: 0 <= i < |earlier| ==> earlier[i] == events[i];
      ReplayKeepsUntouchedFields(s, initial, earlier, f);
    }
  }

  lemma {:induction false} ReplayTouchesOnlyChangeable(s: Schemas, initial: Document, events: seq<Event>, f: Field)
    requires Replay(s, initial, events).Some?
    requires Changes?(events, f)
    ensures !f.Fixed?
    ensures f in Replay(s, initial, events).value.fields
  {
    var earlier, e := events[..|events| - 1], events[|events| - 1];
    if f !in e.changes {
      var i :| 0 <= i < |events| && f in events[i].changes;
      assert f in earlier[i].changes;
      ReplayTouchesOnlyChangeable(s, initial, earlier, f);
    }
  }

  lemma ExpandKeeps(candidates: seq<Document>, f: Field, c: Document)
    requires c in candidates
    ensures c in Expand(candidates, f)
    ensures c.(fields := c.fields[f := Null]) in Expand(candidates, f)
  {
    if candidates[0] != c { ExpandKeeps(candidates[1..], f, c); }
  }

  lemma ExpandOnlyAddsNull(candidates: seq<Document>, f: Field, c: Document)
    requires c in Expand(candidates, f)
    ensures c in candidates || exists b :: b in candidates && c == b.(fields := b.fields[f := Null])
  {
    if c != candidates[0] && c != candidates[0].(fields := candidates[0].fields[f := Null]) {
      ExpandOnlyAddsNull(candidates[1..], f, c);
    }
  }

  /** The optional keys a candidate may carry, as nulls. */
  function WithOptional(base: Document, native: bool, terminal: bool): Document {
    var one := if native then base.(fields := base.fields[NativeGoalId := Null]) else base;
    if terminal then one.(fields := one.fields[TerminalReason := Null]) else one
  }

  lemma CandidatesContain(d: Document, events: seq<Event>, native: bool, terminal: bool)
    requires native ==> NativeGoalId in d.fields || Changes?(events, NativeGoalId)
    requires terminal ==> TerminalReason in d.fields || Changes?(events, TerminalReason)
    ensures WithOptional(BaseCandidate(d, events), native, terminal) in Candidates(d, events)
  {
    var base := BaseCandidate(d, events);
    var first := ExpandIfInPlay([base], d, events, NativeGoalId);
    ExpandKeeps([base], NativeGoalId, base);
    var one := WithOptional(base, native, false);
    assert one in first;
    if TerminalReason in d.fields || Changes?(events, TerminalReason) { ExpandKeeps(first, TerminalReason, one); }
  }

  lemma CandidateRestoresField(s: Schemas, initial: Document, events: seq<Event>, f: Field)
    requires Canonical(s, initial)
    requires Replay(s, initial, events).Some?
    requires Get(initial.fields, AttemptId) == Null || !Changes?(events, AttemptId)
    requires f !in {NativeGoalId, TerminalReason}
    ensures var base := BaseCandidate(Replay(s, initial, events).value, events);
            (f in base.fields <==> f in initial.fields) && (f in base.fields ==> base.fields[f] == initial.fields[f])
  {
    if f !in ResetFields {
      if Changes?(events, f) {
        ReplayTouchesOnlyChangeable(s, initial, events, f);
      } else {
        ReplayKeepsUntouchedFields(s, initial, events, f);
      }
    }
  }

  lemma OptionalFieldInPlay(s: Schemas, initial: Document, events: seq<Event>, f: Field)
    requires Replay(s, initial, events).Some?
    requires f in initial.fields
    ensures f in Replay(s, initial, events).value.fields || Changes?(events, f)
  {
    if !Changes?(events, f) { ReplayKeepsUntouchedFields(s, initial, events, f); }
  }

  /** The true revision-zero state is always among the candidates tried. */
  lemma InitialIsCandidate(s: Schemas, initial: Document, events: seq<Event>)
    requires Canonical(s, initial)
    requires Replay(s, initial, events).Some?
    requires Get(initial.fields, AttemptId) == Null || !Changes?(events, AttemptId)
    ensures initial in Candidates(Replay(s, initial, events).value, events)
  {
    var d := Replay(s, initial, events).value;
    ReplayKeepsIdentity(s, initial, events);
    var native, terminal := NativeGoalId in initial.fields, TerminalReason in initial.fields;
    if native { OptionalFieldInPlay(s, initial, events, NativeGoalId); }
    if terminal { OptionalFieldInPlay(s, initial, events, TerminalReason); }
    CandidatesContain(d, events, native, terminal);
    hide Candidates, Replay, ReplayStep, Changes?;
    var base := BaseCandidate(d, events);
    forall f | f !in {NativeGoalId, TerminalReason}
      ensures f in base.fields <==> f in initial.fields
      ensures f in base.fields ==> base.fields[f] == initial.fields[f]
    {
      CandidateRestoresField(s, initial, events, f);
    }
    assert WithOptional(base, native, terminal).fields == initial.fields;
  }

  // ---------------------------------------------------------------- exactly when a store can be read

  lemma CandidatesShareAttempt(d: Document, events: seq<Event>, c: Document)
    requires c in Candidates(d, events)
    ensures Get(c.fields, AttemptId) == Get(BaseCandidate(d, events).fields, AttemptId)
  {
    var base := BaseCandidate(d, events);
    var first := ExpandIfInPlay([base], d, events, NativeGoalId);
    var b := c;
    if c !in first {
      ExpandOnlyAddsNull(first, TerminalReason, c);
      b :| b in first && c == b.(fields := b.fields[TerminalReason := Null]);
    }
    if b != base { ExpandOnlyAddsNull([base], NativeGoalId, b); }
  }

  lemma {:induction false} ReplayStartsAtFirstLink(s: Schemas, initial: Document, events: seq<Event>)
    requires |events| > 0 && events[0].links.Some?
    requires Replay(s, initial, events).Some?
    ensures events[0].links.value.before == OfState(initial)
  {
    if |events| > 1 {
      var earlier := events[..|events| - 1];
      assert earlier[0] == events[0];
      ReplayStartsAtFirstLink(s, initial, earlier);
    } else {
      assert events[..0] == [];
    }
  }

  lemma ChangesInHistory(initial: Document, d: Document, events: map<nat, Event>)
    requires forall n :: 1 <= n <= d.revision ==> n in events
    ensures AttemptSetOnce(initial, d, events)
            <==> (Get(initial.fields, AttemptId) == Null || !Changes?(HistoryUpTo(events, d.revision), AttemptId))
  {
    var h := HistoryUpTo(events, d.revision);
    if !AttemptSetOnce(initial, d, events) {
      var n :| 1 <= n <= d.revision && n in events && AttemptId in events[n].changes;
      assert h[n - 1] == events[n];
    }
  }

  /**
    A store reached from a canonical initial state is accepted by `_read_state` if and only if its
    attempt identity was set at most once.  The condition is real: see `AttemptResetIsUnreadable`.
  */
  lemma ReadableExactly(s: Schemas, initial: Document, disk: Disk)
    requires Intact(s, initial, disk)
    ensures Readable(s, disk) <==> AttemptSetOnce(initial, disk.state.value, disk.events)
  {
    var d := disk.state.value;
    var h := HistoryUpTo(disk.events, d.revision);
    ReplayKeepsIdentity(s, initial, h);
    ChangesInHistory(initial, d, disk.events);
    if AttemptSetOnce(initial, d, disk.events) {
      InitialIsCandidate(s, initial, h);
    } else if Readable(s, disk) {
      var c :| c in Candidates(d, h) && Replay(s, c, h) == Some(d);
      assert |h| > 0;
      ReplayStartsAtFirstLink(s, initial, h);
      ReplayStartsAtFirstLink(s, c, h);
      CandidatesShareAttempt(d, h, c);
      assert false;
    }
  }

  // ---------------------------------------------------------------- one durable write at a time

  lemma PendingIsReplayStep(s: Schemas, d: Document, events: map<nat, Event>, c: Document)
    requires HistoryPresent(s, d, events)
    requires LeadsTo(s, d, events, c)
    requires events[d.revision + 1].links.Some?
    ensures c.revision == d.revision + 1 && c.identity == d.identity && HistoryPresent(s, c, events)
    ensures ReplayStep(s, d, HistoryUpTo(events, d.revision), events[d.revision + 1]) == Some(c)
  {
    var h := HistoryUpTo(events, d.revision);
    if d.revision > 0 { assert h[|h| - 1] == events[d.revision]; }
  }

  lemma ReplayOneMore(s: Schemas, initial: Document, events: map<nat, Event>, n: nat)
    requires forall k :: 1 <= k <= n + 1 ==> k in events
    requires Replay(s, initial, HistoryUpTo(events, n)).Some?
    ensures Replay(s, initial, HistoryUpTo(events, n + 1))
            == ReplayStep(s, Replay(s, initial, HistoryUpTo(events, n)).value, HistoryUpTo(events, n), events[n + 1])
  {
    var h := HistoryUpTo(events, n + 1);
    assert h[..n] == HistoryUpTo(events, n);
  }

  /** Replaying one more event is what recovering it as the pending event computes. */
  lemma PendingExtendsReplay(s: Schemas, initial: Document, d: Document, events: map<nat, Event>, c: Document)
    requires Replays(s, initial, d, events)
    requires LeadsTo(s, d, events, c)
    ensures c.revision == d.revision + 1 && Replays(s, initial, c, events) && !HasPending(c, events)
  {
    PendingIsReplayStep(s, d, events, c);
    ReplayOneMore(s, initial, events, d.revision);
  }

  /** An event appended by `move` is a pending event whose recovery gives what `move` returns. */
  lemma AppendedEventIsPending(s: Schemas, initial: Document, d: Document, events: map<nat, Event>, r: Request, now: int)
    requires Replays(s, initial, d, events)
    requires !HasPending(d, events)
    requires PlanMove(s, d, events, r, now).Ok? && PlanMove(s, d, events, r, now).value.Append?
    ensures var Append(e, updated) := PlanMove(s, d, events, r, now).value;
            var events' := events[updated.revision := e];
            && updated.revision == d.revision + 1
            && Replays(s, initial, d, events') && LeadsTo(s, d, events', updated)
  {
    var Append(e, updated) := PlanMove(s, d, events, r, now).value;
    assert HistoryUpTo(events[updated.revision := e], d.revision) == HistoryUpTo(events, d.revision);
  }

  // ---------------------------------------------------------------- repair, move and crashes

  ghost predicate EveryIntact(s: Schemas, initial: Document, trace: seq<Disk>) {
    forall i :: 0 <= i < |trace| ==> Intact(s, initial, trace[i])
  }

  function Last(trace: seq<Disk>): Disk
    requires |trace| > 0
  {
    trace[|trace| - 1]
  }

  lemma RepairKeepsIntact(s: Schemas, initial: Document, disk: Disk)
    requires Intact(s, initial, disk)
    ensures EveryIntact(s, initial, RepairTrace(s, disk))
    ensures Repaired(s, disk).Ok? ==>
              var fixed := Last(RepairTrace(s, disk));
              && fixed.state == Some(Repaired(s, disk).value) && fixed.events == disk.events
              && !HasPending(fixed.state.value, fixed.events)
  {
    var d := disk.state.value;
    if Repaired(s, disk).Ok? && HasPending(d, disk.events) {
      PendingExtendsReplay(s, initial, d, disk.events, Repaired(s, disk).value);
    }
  }

  lemma AppendKeepsIntact(s: Schemas, initial: Document, d: Document, events: map<nat, Event>, r: Request, now: int)
    requires Canonical(s, initial) && Replays(s, initial, d, events) && !HasPending(d, events)
    requires PlanMove(s, d, events, r, now).Ok? && PlanMove(s, d, events, r, now).value.Append?
    ensures var Append(e, updated) := PlanMove(s, d, events, r, now).value;
            EveryIntact(s, initial, AppendTrace(d, events, e, updated))
  {
    var Append(e, updated) := PlanMove(s, d, events, r, now).value;
    AppendedEventIsPending(s, initial, d, events, r, now);
    PendingExtendsReplay(s, initial, d, events[updated.revision := e], updated);
  }

  /** Every directory `move` can leave behind, interrupted or not, holds an intact history. */
  lemma MoveKeepsIntact(s: Schemas, initial: Document, disk: Disk, r: Request, now: int)
    requires Intact(s, initial, disk)
    ensures EveryIntact(s, initial, MoveTrace(s, disk, r, now))
  {
    RepairKeepsIntact(s, initial, disk);
    if Repaired(s, disk).Ok? {
      var current := Repaired(s, disk).value;
      var plan := PlanMove(s, current, disk.events, r, now);
      if plan.Ok? && plan.value.Append? { AppendKeepsIntact(s, initial, current, disk.events, r, now); }
    }
  }

  /** No event sets the attempt identity over one given at revision zero. */
  ghost predicate AttemptFree(initial: Document, events: map<nat, Event>) {
    Get(initial.fields, AttemptId) == Null || forall n :: n in events ==> AttemptId !in events[n].changes
  }

  lemma IntactIsReadable(s: Schemas, initial: Document, disk: Disk)
    requires Intact(s, initial, disk)
    requires AttemptFree(initial, disk.events)
    ensures Readable(s, disk) && Repaired(s, disk).Ok?
    ensures Intact(s, initial, Last(RepairTrace(s, disk)))
    ensures !HasPending(disk.state.value, disk.events) ==> Repaired(s, disk) == Ok(disk.state.value) && RepairTrace(s, disk) == [disk]
  {
    ReadableExactly(s, initial, disk);
    RepairKeepsIntact(s, initial, disk);
  }

  /**
    Repair finishes an interrupted transition and is idempotent: it leaves the store readable with
    nothing pending, and repairing again returns the same document and writes nothing.
  */
  lemma RepairIsIdempotent(s: Schemas, initial: Document, disk: Disk)
    requires Intact(s, initial, disk)
    requires AttemptFree(initial, disk.events)
    ensures var fixed := Last(RepairTrace(s, disk));
            && Repaired(s, disk).Ok? && fixed.state == Some(Repaired(s, disk).value)
            && !HasPending(fixed.state.value, fixed.events)
            && Repaired(s, fixed) == Repaired(s, disk) && RepairTrace(s, fixed) == [fixed]
  {
    RepairKeepsIntact(s, initial, disk);
    IntactIsReadable(s, initial, disk);
    IntactIsReadable(s, initial, Last(RepairTrace(s, disk)));
  }

  /** `disk` recovers to exactly what the move asked by `r` was going to leave and return. */
  ghost predicate RecoversTo(s: Schemas, disk: Disk, final: Disk) {
    && final.state.Some?
    && Repaired(s, disk) == Ok(final.state.value)
    && Last(RepairTrace(s, disk)) == final
  }

  ghost predicate RetryReaches(s: Schemas, disk: Disk, r: Request, now: int, final: Disk) {
    && final.state.Some?
    && Moved(s, disk, r, now) == Ok(final.state.value)
    && Last(MoveTrace(s, disk, r, now)) == final
  }

  /** A move that has been applied asks for nothing more, whenever it is asked again. */
  lemma AppliedMoveStays(s: Schemas, d: Document, events: map<nat, Event>, r: Request, now: int, events': map<nat, Event>, later: int)
    requires PlanMove(s, d, events, r, now).Ok? && PlanMove(s, d, events, r, now).value.Append?
    ensures var updated := PlanMove(s, d, events, r, now).value.updated;
            PlanMove(s, updated, events', r, later) == Ok(Stay(updated))
  {
    var updated := PlanMove(s, d, events, r, now).value.updated;
    assert updated.state == r.target;
    assert forall f :: f in r.changes ==> Get(updated.fields, f) == r.changes[f];
  }

  /** Once the event is durable, repair or a retry at any later time ends in the same place. */
  lemma AppendedRecovers(s: Schemas, initial: Document, d: Document, events: map<nat, Event>, r: Request, now: int, later: int)
    requires Canonical(s, initial) && Replays(s, initial, d, events) && !HasPending(d, events)
    requires PlanMove(s, d, events, r, now).Ok? && PlanMove(s, d, events, r, now).value.Append?
    requires AttemptFree(initial, events) && (Get(initial.fields, AttemptId) == Null || AttemptId !in r.changes)
    ensures var Append(e, updated) := PlanMove(s, d, events, r, now).value;
            var logged := Disk(Some(d), events[updated.revision := e]);
            var final := Disk(Some(updated), events[updated.revision := e]);
            && RecoversTo(s, logged, final) && RecoversTo(s, final, final)
            && RetryReaches(s, logged, r, later, final) && RetryReaches(s, final, r, later, final)
  {
    hide Intact, AttemptFree, Replays, HistoryAccepted, HistoryPresent, Canonical;
    var Append(e, updated) := PlanMove(s, d, events, r, now).value;
    var events' := events[updated.revision := e];
    AppendedEventIsPending(s, initial, d, events, r, now);
    AppendedIsIntact(s, initial, d, events, r, now);
    var logged, final := Disk(Some(d), events'), Disk(Some(updated), events');
    IntactIsReadable(s, initial, logged);
    IntactIsReadable(s, initial, final);
    AppliedMoveStays(s, d, events, r, now, events', later);
    hide PlanMove;
  }

  lemma AppendedIsIntact(s: Schemas, initial: Document, d: Document, events: map<nat, Event>, r: Request, now: int)
    requires Canonical(s, initial) && Replays(s, initial, d, events) && !HasPending(d, events)
    requires PlanMove(s, d, events, r, now).Ok? && PlanMove(s, d, events, r, now).value.Append?
    requires AttemptFree(initial, events) && (Get(initial.fields, AttemptId) == Null || AttemptId !in r.changes)
    ensures var Append(e, updated) := PlanMove(s, d, events, r, now).value;
            var events' := events[updated.revision := e];
            && Intact(s, initial, Disk(Some(d), events')) && Intact(s, initial, Disk(Some(updated), events'))
            && AttemptFree(initial, events') && !HasPending(updated, events')
  {
    var Append(e, updated) := PlanMove(s, d, events, r, now).value;
    AppendedEventIsPending(s, initial, d, events, r, now);
    PendingExtendsReplay(s, initial, d, events[updated.revision := e], updated);
    hide HistoryAccepted, HistoryPresent, Replay, CandidateFromEvent;
  }

  /** Asked the same, two stores answer the same and end in the same directory. */
  ghost predicate SameMove(s: Schemas, x: Disk, y: Disk, r: Request, now: int) {
    Moved(s, x, r, now) == Moved(s, y, r, now) && Last(MoveTrace(s, x, r, now)) == Last(MoveTrace(s, y, r, now))
  }

  /** A retry before the event is durable: the repaired store plans the same move. */
  lemma RetryAfterRepair(s: Schemas, initial: Document, disk: Disk, r: Request, now: int)
    requires Intact(s, initial, disk) && AttemptFree(initial, disk.events)
    ensures SameMove(s, Last(RepairTrace(s, disk)), disk, r, now)
  {
    RepairIsIdempotent(s, initial, disk);
    RepairKeepsIntact(s, initial, disk);
  }

  /**
    At every crash point before the event is durable nothing of the move has happened: whenever it
    is asked again, it answers and ends as it would have on the store it was first asked of.
  */
  lemma RetryStartsOver(s: Schemas, initial: Document, disk: Disk, r: Request, later: int, i: nat)
    requires Intact(s, initial, disk) && AttemptFree(initial, disk.events)
    requires i < |RepairTrace(s, disk)|
    ensures SameMove(s, RepairTrace(s, disk)[i], disk, r, later)
  {
    RetryAfterRepair(s, initial, disk, r, later);
    hide Moved, MoveTrace, Intact, AttemptFree;
  }

  /** The four directories of a move: as found, repaired, event written, state written. */
  lemma MoveTraceShape(s: Schemas, initial: Document, disk: Disk, r: Request, now: int)
    requires Intact(s, initial, disk)
    requires Repaired(s, disk).Ok? && PlanMove(s, Repaired(s, disk).value, disk.events, r, now).Ok?
    requires PlanMove(s, Repaired(s, disk).value, disk.events, r, now).value.Append?
    ensures var d := Repaired(s, disk).value;
            var Append(e, updated) := PlanMove(s, d, disk.events, r, now).value;
            var events := disk.events[updated.revision := e];
            && events != disk.events
            && MoveTrace(s, disk, r, now) == RepairTrace(s, disk) + [Disk(Some(d), events), Disk(Some(updated), events)]
  {
    hide Readable, CandidateFromEvent, PlanMove, Intact;
    var d := Repaired(s, disk).value;
    var Append(e, updated) := PlanMove(s, d, disk.events, r, now).value;
    RepairKeepsIntact(s, initial, disk);
    PlannedRevision(s, d, disk.events, r, now);
    assert updated.revision in disk.events[updated.revision := e];
  }

  lemma PlannedRevision(s: Schemas, d: Document, events: map<nat, Event>, r: Request, now: int)
    ensures var plan := PlanMove(s, d, events, r, now); plan.Ok? && plan.value.Append? ==> plan.value.updated.revision == d.revision + 1
  {}

  /** Crash points before the event is durable: the retry does what the first attempt was doing. */
  lemma CrashBeforeEvent(s: Schemas, initial: Document, disk: Disk, r: Request, now: int, i: nat)
    requires Intact(s, initial, disk) && AttemptFree(initial, disk.events)
    requires Moved(s, disk, r, now).Ok?
    requires i < |RepairTrace(s, disk)|
    ensures var trace := MoveTrace(s, disk, r, now);
            && Last(trace).state == Some(Moved(s, disk, r, now).value)
            && i < |trace| && trace[i] == RepairTrace(s, disk)[i]
            && RetryReaches(s, trace[i], r, now, Last(trace))
  {
    hide Readable, CandidateFromEvent, PlanMove, Intact, AttemptFree;
    RetryAfterRepair(s, initial, disk, r, now);
    RepairKeepsIntact(s, initial, disk);
    StayReturnsCurrent(s, Repaired(s, disk).value, disk.events, r, now);
  }

  /** Crash points after it: repair, or the same request at any later time, completes the move. */
  lemma CrashAfterEvent(s: Schemas, initial: Document, disk: Disk, r: Request, now: int, i: nat, later: int)
    requires Intact(s, initial, disk) && AttemptFree(initial, disk.events)
    requires Get(initial.fields, AttemptId) == Null || AttemptId !in r.changes
    requires Moved(s, disk, r, now).Ok?
    requires |RepairTrace(s, disk)| <= i < |MoveTrace(s, disk, r, now)|
    ensures var trace := MoveTrace(s, disk, r, now);
            RecoversTo(s, trace[i], Last(trace)) && RetryReaches(s, trace[i], r, later, Last(trace))
  {
    RepairKeepsIntact(s, initial, disk);
    MoveTraceShape(s, initial, disk, r, now);
    AppendedRecovers(s, initial, Repaired(s, disk).value, disk.events, r, now, later);
  }

  /** With nothing to append, every crash point is the store as found or as repaired. */
  lemma CrashWhileStaying(s: Schemas, initial: Document, disk: Disk, r: Request, now: int, i: nat, later: int)
    requires Intact(s, initial, disk) && AttemptFree(initial, disk.events)
    requires Repaired(s, disk).Ok? && PlanMove(s, Repaired(s, disk).value, disk.events, r, now).Ok?
    requires PlanMove(s, Repaired(s, disk).value, disk.events, r, now).value.Stay?
    requires i < |MoveTrace(s, disk, r, now)|
    ensures var trace := MoveTrace(s, disk, r, now);
            RecoversTo(s, trace[i], Last(trace)) && RetryReaches(s, trace[i], r, later, Last(trace))
  {
    hide Intact, AttemptFree, Replays, HistoryAccepted, HistoryPresent, CandidateFromEvent;
    RepairIsIdempotent(s, initial, disk);
    RetryAfterRepair(s, initial, disk, r, later);
  }

  /**
    A move on a recoverable store that would return a document, cut off anywhere: before its event is
    durable, a retry at any later time answers and ends exactly as an uninterrupted move at that time
    would have; once the event is durable, repair alone, or a retry at any later time, gives the very
    document and directory the first attempt was about to give.
  */
  lemma MoveSurvivesCrash(s: Schemas, initial: Document, disk: Disk, r: Request, now: int, i: nat, later: int)
    requires Intact(s, initial, disk) && AttemptFree(initial, disk.events)
    requires Get(initial.fields, AttemptId) == Null || AttemptId !in r.changes
    requires Moved(s, disk, r, now).Ok?
    requires i < |MoveTrace(s, disk, r, now)|
    ensures var trace := MoveTrace(s, disk, r, now);
            && Last(trace).state == Some(Moved(s, disk, r, now).value)
            && (trace[i].events != Last(trace).events ==> SameMove(s, trace[i], disk, r, later))
            && (trace[i].events == Last(trace).events ==>
                  RecoversTo(s, trace[i], Last(trace)) && RetryReaches(s, trace[i], r, later, Last(trace)))
  {
    CrashBeforeEvent(s, initial, disk, r, now, 0);
    if PlanMove(s, Repaired(s, disk).value, disk.events, r, now).value.Stay? {
      CrashWhileStaying(s, initial, disk, r, now, i, later);
    } else if i < |RepairTrace(s, disk)| {
      MoveTraceShape(s, initial, disk, r, now);
      CrashBeforeEvent(s, initial, disk, r, now, i);
      RetryStartsOver(s, initial, disk, r, later, i);
    } else {
      CrashAfterEvent(s, initial, disk, r, now, i, later);
    }
  }

  // ---------------------------------------------------------------- whole runs

  /** One call by a controller, cut off after `crashAfter` durable writes (if it makes that many). */
  datatype Call = Move(request: Request, now: int, crashAfter: nat) | Repair(crashAfter: nat)

  function CutOff(trace: seq<Disk>, crashAfter: nat): Disk
    requires |trace| > 0
  {
    if crashAfter < |trace| then trace[crashAfter] else Last(trace)
  }

  ghost function Run(s: Schemas, disk: Disk, calls: seq<Call>): Disk {
    if |calls| == 0 then disk
    else
      var before := Run(s, disk, calls[..|calls| - 1]);
      match calls[|calls| - 1]
      case Move(r, now, crashAfter) => CutOff(MoveTrace(s, before, r, now), crashAfter)
      case Repair(crashAfter) => CutOff(RepairTrace(s, before), crashAfter)
  }

  lemma {:induction false} RunKeepsIntact(s: Schemas, initial: Document, calls: seq<Call>)
    requires Canonical(s, initial)
    ensures Intact(s, initial, Run(s, Disk(Some(initial), map[]), calls))
  {
    var start := Disk(Some(initial), map[]);
    if |calls| == 0 {
      assert HistoryUpTo(start.events, 0) == [];
    } else {
      RunKeepsIntact(s, initial, calls[..|calls| - 1]);
      var before := Run(s, start, calls[..|calls| - 1]);
      match calls[|calls| - 1]
      case Move(r, now, _) => MoveKeepsIntact(s, initial, before, r, now);
      case Repair(_) => RepairKeepsIntact(s, initial, before);
    }
  }

  predicate SetsAttempt(c: Call) { c.Move? && AttemptId in c.request.changes }

  lemma PlannedEventCarriesChanges(s: Schemas, d: Document, events: map<nat, Event>, r: Request, now: int)
    ensures var plan := PlanMove(s, d, events, r, now);
            plan.Ok? && plan.value.Append? ==> plan.value.event.changes == r.changes
  {}

  lemma MoveKeepsAttemptFree(s: Schemas, initial: Document, disk: Disk, r: Request, now: int, i: nat)
    requires AttemptFree(initial, disk.events)
    requires Get(initial.fields, AttemptId) == Null || AttemptId !in r.changes
    requires i < |MoveTrace(s, disk, r, now)|
    ensures AttemptFree(initial, MoveTrace(s, disk, r, now)[i].events)
  {
    if Repaired(s, disk).Ok? { PlannedEventCarriesChanges(s, Repaired(s, disk).value, disk.events, r, now); }
  }

  lemma {:induction false} RunKeepsAttemptFree(s: Schemas, initial: Document, calls: seq<Call>)
    requires Get(initial.fields, AttemptId) == Null || forall c :: c in calls ==> !SetsAttempt(c)
    ensures AttemptFree(initial, Run(s, Disk(Some(initial), map[]), calls).events)
  {
    if |calls| > 0 {
      var last := calls[|calls| - 1];
      assert last in calls;
      RunKeepsAttemptFree(s, initial, calls[..|calls| - 1]);
      var before := Run(s, Disk(Some(initial), map[]), calls[..|calls| - 1]);
      if last.Move? {
        var trace := MoveTrace(s, before, last.request, last.now);
        MoveKeepsAttemptFree(s, initial, before, last.request, last.now, if last.crashAfter < |trace| then last.crashAfter else |trace| - 1);
      }
    }
  }

  /**
    However a mission's moves and repairs are interrupted, its store stays readable, holds at most
    one event beyond its revision, names its true initial state among the replay candidates, and
    can be repaired.
  */
  lemma EveryRunRecovers(s: Schemas, initial: Document, calls: seq<Call>)
    requires Canonical(s, initial)
    requires Get(initial.fields, AttemptId) == Null || forall c :: c in calls ==> !SetsAttempt(c)
    ensures var disk := Run(s, Disk(Some(initial), map[]), calls);
            && Readable(s, disk) && Repaired(s, disk).Ok?
            && (forall n :: n in disk.events ==> 1 <= n <= disk.state.value.revision + 1)
            && initial in Candidates(disk.state.value, HistoryUpTo(disk.events, disk.state.value.revision))
  {
    RunKeepsIntact(s, initial, calls);
    RunKeepsAttemptFree(s, initial, calls);
    var disk := Run(s, Disk(Some(initial), map[]), calls);
    IntactIsReadable(s, initial, disk);
    ChangesInHistory(initial, disk.state.value, disk.events);
    InitialIsCandidate(s, initial, HistoryUpTo(disk.events, disk.state.value.revision));
  }

  // ---------------------------------------------------------------- a move is one atomic step

  /** Holds the history of `initial`, and no event re-sets its attempt identity. */
  ghost predicate Sound(s: Schemas, initial: Document, disk: Disk) { Intact(s, initial, disk) && AttemptFree(initial, disk.events) }

  lemma SettledIsSound(s: Schemas, initial: Document, disk: Disk)
    requires Sound(s, initial, disk)
    ensures var settled := SettledDisk(s, disk);
            && Repaired(s, disk).Ok? && Sound(s, initial, settled)
            && settled == Disk(Some(Repaired(s, disk).value), disk.events)
            && !HasPending(settled.state.value, settled.events)
            && Repaired(s, settled) == Repaired(s, disk) && SettledDisk(s, settled) == settled && RepairTrace(s, settled) == [settled]
  {
    RepairKeepsIntact(s, initial, disk);
    IntactIsReadable(s, initial, disk);
    RepairIsIdempotent(s, initial, disk);
  }

  lemma RepairTraceSettles(s: Schemas, initial: Document, disk: Disk, i: nat)
    requires Sound(s, initial, disk) && i < |RepairTrace(s, disk)|
    ensures RepairTrace(s, disk)[i] in {disk, SettledDisk(s, disk)}
    ensures Sound(s, initial, RepairTrace(s, disk)[i]) && SettledDisk(s, RepairTrace(s, disk)[i]) == SettledDisk(s, disk)
  {
    SettledIsSound(s, initial, disk);
  }

  /**
    Seen through repair, a move is one atomic step: every directory it can leave behind is sound
    and settles either to the settled directory it started from or to the one it was to reach.
  */
  lemma MoveIsAtomic(s: Schemas, initial: Document, disk: Disk, r: Request, at: int, i: nat)
    requires Sound(s, initial, disk)
    requires Get(initial.fields, AttemptId) == Null || AttemptId !in r.changes
    requires i < |MoveTrace(s, disk, r, at)|
    ensures var trace := MoveTrace(s, disk, r, at);
            && Sound(s, initial, trace[i])
            && (Moved(s, disk, r, at).Ok? ==>
                  && SettledDisk(s, trace[i]) in {SettledDisk(s, disk), Last(trace)}
                  && SettledDisk(s, Last(trace)) == Last(trace) && Last(trace).state == Some(Moved(s, disk, r, at).value))
            && (Moved(s, disk, r, at).Err? ==> SettledDisk(s, trace[i]) == SettledDisk(s, disk))
  {
    MoveKeepsIntact(s, initial, disk, r, at);
    MoveKeepsAttemptFree(s, initial, disk, r, at, i);
    if Moved(s, disk, r, at).Ok? {
      MoveSettles(s, initial, disk, r, at, i);
    } else {
      RepairTraceSettles(s, initial, disk, i);
    }
  }

  lemma MoveSettles(s: Schemas, initial: Document, disk: Disk, r: Request, at: int, i: nat)
    requires Sound(s, initial, disk)
    requires Get(initial.fields, AttemptId) == Null || AttemptId !in r.changes
    requires Moved(s, disk, r, at).Ok? && i < |MoveTrace(s, disk, r, at)|
    ensures var trace := MoveTrace(s, disk, r, at);
            && SettledDisk(s, trace[i]) in {SettledDisk(s, disk), Last(trace)}
            && SettledDisk(s, Last(trace)) == Last(trace) && Last(trace).state == Some(Moved(s, disk, r, at).value)
  {
    assert Intact(s, initial, disk) && AttemptFree(initial, disk.events);
    hide Moved, Sound, Intact, AttemptFree, MoveTrace, RepairTrace, Repaired, HistoryAccepted;
    var trace := MoveTrace(s, disk, r, at);
    MoveSurvivesCrash(s, initial, disk, r, at, |trace| - 1, at);
    if i < |RepairTrace(s, disk)| {
      CrashBeforeEvent(s, initial, disk, r, at, i);
      RepairTraceSettles(s, initial, disk, i);
    } else {
      CrashAfterEvent(s, initial, disk, r, at, i, at);
    }
  }

  /** The document a move on a settled store returns. */
  lemma MovedDocument(s: Schemas, initial: Document, disk: Disk, r: Request, at: int)
    requires Sound(s, initial, disk) && SettledDisk(s, disk) == disk && Moved(s, disk, r, at).Ok?
    ensures var d, moved := disk.state.value, Moved(s, disk, r, at).value;
            || (r.target == d.state && moved == d)
            || (&& r.target in AllowedTransitions(d.state) && ChangesAllowed(d.state, r.target, r.changes)
                && moved == d.(state := r.target, revision := d.revision + 1, updatedAt := at, fields := d.fields + r.changes))
  {
    SettledIsSound(s, initial, disk);
  }

  // ---------------------------------------------------------------- when a move loses the store

  /**
    A successful move leaves a readable store readable exactly when it does not set the attempt
    identity over one the mission was initialised with.
  */
  lemma MoveStaysReadableExactly(s: Schemas, initial: Document, disk: Disk, r: Request, now: int)
    requires Intact(s, initial, disk) && Readable(s, disk) && !HasPending(disk.state.value, disk.events)
    requires PlanMove(s, disk.state.value, disk.events, r, now).Ok?
    requires PlanMove(s, disk.state.value, disk.events, r, now).value.Append?
    ensures Readable(s, Last(MoveTrace(s, disk, r, now)))
            <==> (AttemptId in r.changes ==> Get(initial.fields, AttemptId) == Null)
  {
    var d := disk.state.value;
    var Append(e, updated) := PlanMove(s, d, disk.events, r, now).value;
    PlannedEventCarriesChanges(s, d, disk.events, r, now);
    AppendedEventIsPending(s, initial, d, disk.events, r, now);
    MoveKeepsIntact(s, initial, disk, r, now);
    MoveTraceShape(s, initial, disk, r, now);
    var final := Last(MoveTrace(s, disk, r, now));
    ReadableExactly(s, initial, disk);
    ReadableExactly(s, initial, final);
    assert final.events[updated.revision] == e;
  }

  lemma RunUninterruptedMove(s: Schemas, start: Disk, calls: seq<Call>, r: Request, now: int)
    ensures var before := Run(s, start, calls);
            Run(s, start, calls + [Move(r, now, 3)]) == Last(MoveTrace(s, before, r, now))
  {
    assert (calls + [Move(r, now, 3)])[..|calls|] == calls;
  }

  const AttemptOne := Str("attempt_0123456789abcdef")

  const StartedWithAttempt := Document(
    Identity("mission_0123456789abcdef", "goal_0123456789abcdef", "binding_0123456789abcdef",
             "0123456789abcdef0123456789abcdef01234567", "block"), 0, 0, Planned, 0,
    ResetFields[AttemptId := AttemptOne][NativeGoalId := Null])

  const Authorize := Request(Authorized, None, map[])

  const PrepareAgain := Request(Prepared, None, map[AttemptId := AttemptOne])

  const ThenAuthorized := StartedWithAttempt.(state := Authorized, revision := 1, updatedAt := 1)

  const ThenPrepared := ThenAuthorized.(state := Prepared, revision := 2, updatedAt := 2, fields := ThenAuthorized.fields + PrepareAgain.changes)

  const AuthorizeEvent := NewEvent(StartedWithAttempt, ThenAuthorized, Authorize, None)

  const PrepareEvent := NewEvent(ThenAuthorized, ThenPrepared, PrepareAgain, Some(OfEvent(AuthorizeEvent)))

  /** The schemas accept the documents and events of this one mission. */
  ghost predicate AcceptsExample(s: Schemas) {
    s.state(StartedWithAttempt) && s.state(ThenAuthorized) && s.state(ThenPrepared) && s.event(AuthorizeEvent) && s.event(PrepareEvent)
  }

  lemma AuthorizedIsReadable(s: Schemas)
    requires AcceptsExample(s)
    ensures var disk := Run(s, Disk(Some(StartedWithAttempt), map[]), [Move(Authorize, 1, 3)]);
            && Canonical(s, StartedWithAttempt) && Intact(s, StartedWithAttempt, disk) && Readable(s, disk)
            && disk == Disk(Some(ThenAuthorized), map[1 := AuthorizeEvent])
  {
    hide HistoryAccepted, Replays, PlanMove, Canonical, AcceptsExample, Intact;
    var initial := StartedWithAttempt;
    var start := Disk(Some(initial), map[]);
    ExampleStarts(s);
    AuthorizePlan(s);
    MoveStaysReadableExactly(s, initial, start, Authorize, 1);
    MoveTraceShape(s, initial, start, Authorize, 1);
    assert Run(s, start, []) == start;
    RunUninterruptedMove(s, start, [], Authorize, 1);
    assert [] + [Move(Authorize, 1, 3)] == [Move(Authorize, 1, 3)];
    MoveKeepsIntact(s, initial, start, Authorize, 1);
  }

  lemma ExampleStarts(s: Schemas)
    requires AcceptsExample(s)
    ensures var start := Disk(Some(StartedWithAttempt), map[]);
            && Canonical(s, StartedWithAttempt) && Intact(s, StartedWithAttempt, start) && Readable(s, start)
            && Repaired(s, start) == Ok(StartedWithAttempt)
  {
    var start := Disk(Some(StartedWithAttempt), map[]);
    assert Run(s, start, []) == start;
    RunKeepsIntact(s, StartedWithAttempt, []);
    IntactIsReadable(s, StartedWithAttempt, start);
  }

  lemma AuthorizePlan(s: Schemas)
    requires AcceptsExample(s)
    ensures PlanMove(s, StartedWithAttempt, map[], Authorize, 1) == Ok(Append(AuthorizeEvent, ThenAuthorized))
  {
    assert StartedWithAttempt.fields + map[] == StartedWithAttempt.fields;
  }

  lemma PreparePlan(s: Schemas)
    requires AcceptsExample(s)
    ensures PlanMove(s, ThenAuthorized, map[1 := AuthorizeEvent], PrepareAgain, 2) == Ok(Append(PrepareEvent, ThenPrepared))
  {}

  /**
    The condition can fail: a mission initialised with an attempt and then prepared with one, under
    any schemas that accept its documents.
  */
  lemma AttemptResetIsUnreadable(s: Schemas)
    requires AcceptsExample(s)
    ensures var start := Disk(Some(StartedWithAttempt), map[]);
            && Canonical(s, StartedWithAttempt)
            && Readable(s, Run(s, start, [Move(Authorize, 1, 3)]))
            && !Readable(s, Run(s, start, [Move(Authorize, 1, 3), Move(PrepareAgain, 2, 3)]))
  {
    var start := Disk(Some(StartedWithAttempt), map[]);
    var calls := [Move(Authorize, 1, 3)];
    AuthorizedIsReadable(s);
    PreparePlan(s);
    hide Readable, Intact, Canonical, PlanMove, MoveTrace, Run;
    MoveStaysReadableExactly(s, StartedWithAttempt, Run(s, start, calls), PrepareAgain, 2);
    RunUninterruptedMove(s, start, calls, PrepareAgain, 2);
    assert calls + [Move(PrepareAgain, 2, 3)] == [Move(Authorize, 1, 3), Move(PrepareAgain, 2, 3)];
  }
}
