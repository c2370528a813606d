/**
  The store object itself (pathfinder_core/storage.py): state.json, the events directory and the
  lock file are its fields, and its methods are proved to do what `MissionHistory` says.
*/
module MissionStore {
  import opened Wrappers
  import opened MissionState
  import opened MissionHistory

  /**
    Where a call is interrupted: after this many durable writes, either by an error, which releases
    the lock on the way out, or by a kill, which leaves the lock file behind.
  */
  datatype Fault = Fault(after: nat, kill: bool)

  function Reached(trace: seq<Disk>, after: nat): Disk
    requires |trace| > 0
  {
    if after < |trace| then trace[after] else trace[|trace| - 1]
  }

  predicate Interrupted(trace: seq<Disk>, after: nat) { after < |trace| - 1 }

  class MissionStore {
    const schemas: Schemas
    var state: Option<Document>
    var events: map<nat, Event>
    var lock: Option<nat>

    ghost function Contents(): Disk
      reads this
    {
      Disk(state, events)
    }

    constructor (schemas: Schemas)
      ensures this.schemas == schemas && Contents() == Disk(None, map[]) && lock == None
    {
      this.schemas := schemas;
      state, events, lock := None, map[], None;
    }

    method Initialize(document: Document) returns (r: Result<(), StoreError>)
      modifies `state
      ensures r == if old(state).Some? then Err(AlreadyInitialized)
                   else if !schemas.state(document) then Err(SchemaRejected) else Ok(())
      ensures state == if r.Ok? then Some(document) else old(state)
    {
      if state.Some? { return Err(AlreadyInitialized); }
      if !schemas.state(document) { return Err(SchemaRejected); }
      state := Some(document);
      r := Ok(());
    }

    method ExpandOptional(candidates: seq<Document>, f: Field) returns (expanded: seq<Document>)
      ensures expanded == Expand(candidates, f)
    {
      expanded := [];
      for i := 0 to |candidates|
        invariant expanded + Expand(candidates[i..], f) == Expand(candidates, f)
      {
        expanded := expanded + [candidates[i], candidates[i].(fields := candidates[i].fields[f := Null])];
      }
    }

    /** Doubles the candidate list once for each optional field in play. */
    method InitialHistoryCandidates(document: Document, history: seq<Event>) returns (candidates: seq<Document>)
      ensures candidates == Candidates(document, history)
    {
      candidates := [BaseCandidate(document, history)];
      ghost var base := candidates;
      var optional := [NativeGoalId, TerminalReason];
      for k := 0 to 2
        invariant k == 0 ==> candidates == base
        invariant k == 1 ==> candidates == ExpandIfInPlay(base, document, history, NativeGoalId)
        invariant k == 2 ==> candidates == Candidates(document, history)
      {
        if optional[k] in document.fields || Changes?(history, optional[k]) {
          candidates := ExpandOptional(candidates, optional[k]);
        }
      }
    }

    /** Applies the events in order, keeping the last event and whether a version 2 event was seen. */
    method ReplayHistory(initial: Document, history: seq<Event>) returns (r: Option<Document>)
      ensures r == Replay(schemas, initial, history)
    {
      if !schemas.state(initial) {
        FailedReplayStaysFailed(schemas, initial, history, 0);
        return None;
      }
      var reconstructed := initial;
      var previous: Option<Event> := None;
      var sawV2 := false;
      assert history[..0] == [];
      for i := 0 to |history|
        invariant Replay(schemas, initial, history[..i]) == Some(reconstructed)
        invariant previous == if i == 0 then None else Some(history[i - 1])
        invariant sawV2 == SawV2(history[..i])
      {
        var e := history[i];
        assert history[..i + 1][..i] == history[..i];
        ghost var earlier := history[..i];
        SawV2Extends(earlier, e);
        assert history[..i + 1] == earlier + [e];
        var digest := if previous.Some? then Some(OfEvent(previous.value)) else None;
        assert digest == Previous(earlier);
        var next := None;
        if e.from == reconstructed.state && (e.links.Some? || !sawV2) {
          var candidate := Advance(schemas, reconstructed, e.to, e.recordedAt, e.changes);
          if candidate.Some? && LinksMatch(reconstructed, candidate.value, digest, e) { next := candidate; }
        }
        assert next == ReplayStep(schemas, reconstructed, earlier, e);
        if next.None? {
          FailedReplayStaysFailed(schemas, initial, history, i + 1);
          return None;
        }
        reconstructed, previous, sawV2 := next.value, Some(e), sawV2 || e.links.Some?;
      }
      assert history[..|history|] == history;
      r := Some(reconstructed);
    }

    /** Reads and checks the events up to the document's revision. */
    method LoadHistory(document: Document) returns (r: Option<seq<Event>>)
      ensures r.Some? <==> HistoryPresent(schemas, document, events)
      ensures r.Some? ==> r.value == HistoryUpTo(events, document.revision)
    {
      var history: seq<Event> := [];
      for n := 1 to document.revision + 1
        invariant |history| == n - 1
        invariant forall k :: 1 <= k < n ==> k in events && EventOk(schemas, events[k], document.identity.missionId, k)
        invariant forall k :: 0 <= k < |history| ==> history[k] == events[k + 1]
      {
        if n !in events || !EventOk(schemas, events[n], document.identity.missionId, n) { return None; }
        history := history + [events[n]];
      }
      r := Some(history);
    }

    /** Tries the candidates in turn; one that replays to the document accepts the history. */
    method AcceptHistory(document: Document, history: seq<Event>) returns (accepted: bool)
      ensures accepted <==> HistoryAccepted(schemas, document, history)
    {
      var candidates := InitialHistoryCandidates(document, history);
      for i := 0 to |candidates|
        invariant forall k :: 0 <= k < i ==> Replay(schemas, candidates[k], history) != Some(document)
      {
        var reconstructed := ReplayHistory(candidates[i], history);
        if reconstructed == Some(document) { return true; }
      }
      accepted := false;
    }

    method ReadState() returns (r: Result<Document, StoreError>)
      ensures Readable(schemas, Contents()) ==> r == Ok(state.value)
      ensures !Readable(schemas, Contents()) ==> r == Err(if state.None? then NotInitialized else HistoryRejected)
    {
      if state.None? { return Err(NotInitialized); }
      var document := state.value;
      if !schemas.state(document) { return Err(HistoryRejected); }
      var history := LoadHistory(document);
      if history.None? { return Err(HistoryRejected); }
      var accepted := AcceptHistory(document, history.value);
      r := if accepted then Ok(document) else Err(HistoryRejected);
    }

    /** An observation-only read: it refuses to hide a transition that still has to be repaired. */
    method Load() returns (r: Result<Document, StoreError>)
      ensures r.Ok? <==> Repaired(schemas, Contents()).Ok? && !HasPending(state.value, events)
      ensures r.Ok? ==> r.value == state.value
      ensures Repaired(schemas, Contents()).Ok? && HasPending(state.value, events) ==> r == Err(RepairRequired)
    {
      r := ReadState();
      if r.Ok? && HasPending(r.value, events) {
        var candidate := CandidateFromEvent(schemas, r.value, events, events[r.value.revision + 1]);
        r := if candidate.Some? then Err(RepairRequired) else Err(PendingRejected);
      }
    }

    method RepairLocked(after: nat) returns (r: Result<Document, StoreError>, writes: nat)
      modifies `state
      ensures r.Ok? ==> writes == |RepairTrace(schemas, old(Contents()))| - 1
      ensures var trace := RepairTrace(schemas, old(Contents()));
              && Contents() == Reached(trace, after)
              && r == if Interrupted(trace, after) then Err(Crashed) else Repaired(schemas, old(Contents()))
    {
      writes := 0;
      r := ReadState();
      if r.Ok? && HasPending(r.value, events) {
        var candidate := CandidateFromEvent(schemas, r.value, events, events[r.value.revision + 1]);
        if candidate.None? { return Err(PendingRejected), 0; }
        if after == 0 { return Err(Crashed), 0; }
        state := candidate;
        r, writes := Ok(candidate.value), 1;
      }
    }

    method Acquire(owner: nat) returns (acquired: bool)
      modifies `lock
      ensures acquired == old(lock).None?
      ensures lock == if acquired then Some(owner) else old(lock)
    {
      acquired := lock.None?;
      if acquired { lock := Some(owner); }
    }

    method Repair(owner: nat, fault: Fault) returns (r: Result<Document, StoreError>)
      modifies `state, `lock
      ensures old(lock).Some? ==> r == Err(LockHeld) && Contents() == old(Contents()) && lock == old(lock)
      ensures old(lock).None? ==>
                var trace := RepairTrace(schemas, old(Contents()));
                && Contents() == Reached(trace, fault.after)
                && r == (if Interrupted(trace, fault.after) then Err(Crashed) else Repaired(schemas, old(Contents())))
                && lock == (if Interrupted(trace, fault.after) && fault.kill then Some(owner) else None)
    {
      var acquired := Acquire(owner);
      if !acquired { return Err(LockHeld); }
      var repaired, _ := RepairLocked(fault.after);
      r := repaired;
      if r != Err(Crashed) || !fault.kill { lock := None; }
    }

    method AppendEvent(e: Event) returns (r: Result<bool, StoreError>)
      requires schemas.event(e) && e.payload == OfChanges(e.changes)
      modifies `events
      ensures e.sequence in old(events) && old(events)[e.sequence] != e ==> r == Err(EventExists) && events == old(events)
      ensures e.sequence !in old(events) || old(events)[e.sequence] == e ==>
                r == Ok(e.sequence !in old(events)) && events == old(events)[e.sequence := e]
    {
      if e.sequence in events {
        r := if events[e.sequence] == e then Ok(false) else Err(EventExists);
        return;
      }
      events := events[e.sequence := e];
      r := Ok(true);
    }

    method MoveLocked(request: Request, now: int, after: nat) returns (r: Result<Document, StoreError>)
      modifies `state, `events
      ensures var trace := MoveTrace(schemas, old(Contents()), request, now);
              && Contents() == Reached(trace, after)
              && r == if Interrupted(trace, after) then Err(Crashed) else Moved(schemas, old(Contents()), request, now)
    {
      hide PlanMove, Readable, CandidateFromEvent;
      var current, writes := RepairLocked(after);
      if current.Err? { return current; }
      StayReturnsCurrent(schemas, current.value, events, request, now);
      r := Apply(current.value, request, now, after - writes);
    }

    /** The part of `move` after its repair: decide, append the event, rewrite state.json. */
    method Apply(current: Document, request: Request, now: int, after: nat) returns (r: Result<Document, StoreError>)
      requires state == Some(current)
      modifies `state, `events
      ensures var plan := PlanMove(schemas, current, old(events), request, now);
              && (plan.Err? ==> r == Err(plan.error) && Contents() == old(Contents()))
              && (plan.Ok? && plan.value.Stay? ==> r == Ok(current) && Contents() == old(Contents()))
              && (plan.Ok? && plan.value.Append? ==>
                    var trace := [old(Contents())] + AppendTrace(current, old(events), plan.value.event, plan.value.updated);
                    && Contents() == Reached(trace, after)
                    && r == if Interrupted(trace, after) then Err(Crashed) else Ok(plan.value.updated))
    {
      if request.target == current.state {
        r := if forall f :: f in request.changes ==> Get(current.fields, f) == request.changes[f]
             then Ok(current) else Err(DriftRejected);
        return;
      }
      if !ChangesAllowed(current.state, request.target, request.changes) { return Err(ChangesRejected); }
      var moved := Transition(current, request.target, now);
      if moved.None? { return Err(ForbiddenTransition); }
      var updated := moved.value.(fields := moved.value.fields + request.changes);
      if !schemas.state(updated) { return Err(SchemaRejected); }
      var sequence := updated.revision;
      var previous := if sequence > 1 && sequence - 1 in events then Some(OfEvent(events[sequence - 1])) else None;
      if request.attempt.Some? && request.attempt.value != Get(updated.fields, AttemptId) { return Err(AttemptMismatch); }
      var e := NewEvent(current, updated, request, previous);
      if !schemas.event(e) { return Err(SchemaRejected); }
      r := AppendAndReplace(current, e, updated, after);
    }

    /** The event, then state.json. */
    method AppendAndReplace(current: Document, e: Event, updated: Document, after: nat) returns (r: Result<Document, StoreError>)
      requires state == Some(current) && schemas.event(e) && e.payload == OfChanges(e.changes) && e.sequence == updated.revision
      modifies `state, `events
      ensures e.sequence in old(events) && old(events)[e.sequence] != e ==> r == Err(EventExists) && Contents() == old(Contents())
      ensures e.sequence !in old(events) || old(events)[e.sequence] == e ==>
                var trace := [old(Contents())] + AppendTrace(current, old(events), e, updated);
                && Contents() == Reached(trace, after)
                && r == if Interrupted(trace, after) then Err(Crashed) else Ok(updated)
    {
      if after == 0 && e.sequence !in events { return Err(Crashed); }
      var appended := AppendEvent(e);
      if appended.Err? { return Err(appended.error); }
      if after == (if appended.value then 1 else 0) { return Err(Crashed); }
      state := Some(updated);
      r := Ok(updated);
    }

    /**
      `move` under the mission lock: whatever the interruption, the directory is one of those in
      its trace, and an uninterrupted call returns what `Moved` says.
    */
    method Move(owner: nat, request: Request, now: int, fault: Fault) returns (r: Result<Document, StoreError>)
      modifies `state, `events, `lock
      ensures old(lock).Some? ==> r == Err(LockHeld) && Contents() == old(Contents()) && lock == old(lock)
      ensures old(lock).None? ==>
                var trace := MoveTrace(schemas, old(Contents()), request, now);
                && Contents() == Reached(trace, fault.after)
                && r == (if Interrupted(trace, fault.after) then Err(Crashed) else Moved(schemas, old(Contents()), request, now))
                && lock == (if Interrupted(trace, fault.after) && fault.kill then Some(owner) else None)
    {
      var acquired := Acquire(owner);
      if !acquired { return Err(LockHeld); }
      r := MoveLocked(request, now, fault.after);
      if r != Err(Crashed) || !fault.kill { lock := None; }
    }
  }

  lemma SawV2Extends(earlier: seq<Event>, e: Event)
    ensures SawV2(earlier + [e]) == (SawV2(earlier) || e.links.Some?)
  {
    var all := earlier + [e];
    assert forall i :: 0 <= i < |earlier| ==> all[i] == earlier[i];
    if e.links.Some? { assert all[|earlier|].links.Some?; }
  }

  lemma {:induction false} FailedReplayStaysFailed(s: Schemas, initial: Document, history: seq<Event>, i: nat)
    requires i <= |history| && Replay(s, initial, history[..i]) == None
    ensures Replay(s, initial, history) == None
    decreases |history|
  {
    if i < |history| {
      var earlier := history[..|history| - 1];
      assert earlier[..i] == history[..i];
      FailedReplayStaysFailed(s, initial, earlier, i);
    } else {
      assert history[..i] == history;
    }
  }
}
