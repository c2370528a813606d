/** When a move succeeds, and what it then leaves (pathfinder_core/storage.py, state.py). */
module MissionMoves {
  import opened Wrappers
  import opened MissionState
  import opened MissionHistory
  import opened MissionHistoryLaws

  predicate Underway(from: State) {
    from in {Planned, Authorized, Prepared, Running, Verifying, Verified, Committed, Published}
  }

  /** Every transition that may be made, with the only keys that it may write. */
  ghost predicate Permitted(from: State, to: State, keys: set<Field>) {
    || (from == Planned && to == Authorized && keys <= {AuthorizationId})
    || (from == Authorized && to == Prepared && keys <= {AttemptId, WorktreeId, WorktreePath, BranchId, BranchName})
    || (from == Prepared && to == Running && keys <= {NativeGoalId})
    || (from == Running && to == Verifying && keys == {})
    || (from == Verifying && to == Running && keys == {})
    || (from == Verifying && to == Verified && keys == {})
    || (from == Verified && to == Committed && keys <= {CommitIds})
    || (from == Committed && to == Published && keys <= {PrId, PrUrl})
    || (from == Committed && to == AwaitingReview && keys == {})
    || (from == Published && to == AwaitingReview && keys == {})
    || (from == AwaitingReview && to == Merged && keys == {})
    || (Underway(from) && to == Blocked && keys <= {TerminalReason})
    || (Underway(from) && to == Abandoned && keys == {})
  }

  /** The controller checks the keys before the transition; both pass exactly on the table. */
  lemma PermittedExactly(d: Document, to: State, at: int, changes: Changes)
    requires to != d.state
    ensures Permitted(d.state, to, changes.Keys) <==> ChangesAllowed(d.state, to, changes) && Transition(d, to, at).Some?
  {
    PermittedPairs(d.state, to, changes);
    hide Permitted, ChangesAllowed, AllowedTransitions;
  }

  lemma PermittedPairs(from: State, to: State, changes: Changes)
    ensures Permitted(from, to, changes.Keys) <==> to in AllowedTransitions(from) && ChangesAllowed(from, to, changes)
  {
    assert changes.Keys <= {} <==> changes.Keys == {};
  }

  /** The document of the next revision. */
  function NextDocument(d: Document, r: Request, now: int): Document {
    Document(d.identity, d.createdAt, now, r.target, d.revision + 1, d.fields + r.changes)
  }

  /** The event that records it: chained to the last one and to the documents on either side. */
  function NextEvent(d: Document, events: map<nat, Event>, r: Request, now: int): Event {
    var next := NextDocument(d, r, now);
    var last := if d.revision > 0 && d.revision in events then Some(OfEvent(events[d.revision])) else None;
    Event(d.identity.missionId, d.revision + 1, TransitionEvent, d.state, r.target, Get(next.fields, AttemptId), now,
          r.changes, OfChanges(r.changes), Some(Links(last, OfState(d), OfState(next))))
  }

  /** The document and the event are accepted, and the caller's idea of the attempt, if it has one, is right. */
  ghost predicate Acceptable(s: Schemas, d: Document, events: map<nat, Event>, r: Request, now: int) {
    && s.state(NextDocument(d, r, now)) && s.event(NextEvent(d, events, r, now))
    && (r.attempt.Some? ==> r.attempt.value == Get(NextDocument(d, r, now).fields, AttemptId))
  }

  lemma PlanExactly(s: Schemas, d: Document, events: map<nat, Event>, r: Request, now: int)
    requires r.target != d.state && !HasPending(d, events)
    ensures PlanMove(s, d, events, r, now).Ok? <==> Permitted(d.state, r.target, r.changes.Keys) && Acceptable(s, d, events, r, now)
    ensures PlanMove(s, d, events, r, now).Ok? ==>
              PlanMove(s, d, events, r, now) == Ok(Append(NextEvent(d, events, r, now), NextDocument(d, r, now)))
  {
    PermittedExactly(d, r.target, now, r.changes);
    hide Permitted, ChangesAllowed, AllowedTransitions;
  }

  /**
    A move to another state succeeds exactly when the table permits it with those keys, the schemas
    accept the document and the event it leads to, and the attempt agrees.  It then returns that
    document and leaves it and the event on disk.
  */
  lemma MoveSucceedsExactly(s: Schemas, initial: Document, disk: Disk, r: Request, now: int)
    requires Sound(s, initial, disk) && SettledDisk(s, disk).state.Some? && r.target != SettledDisk(s, disk).state.value.state
    ensures var d := SettledDisk(s, disk).state.value;
            && (Moved(s, disk, r, now).Ok? <==>
                  Permitted(d.state, r.target, r.changes.Keys) && Acceptable(s, d, disk.events, r, now))
            && (Moved(s, disk, r, now).Ok? ==>
                  && Moved(s, disk, r, now) == Ok(NextDocument(d, r, now))
                  && Last(MoveTrace(s, disk, r, now))
                     == Disk(Some(NextDocument(d, r, now)), disk.events[d.revision + 1 := NextEvent(d, disk.events, r, now)]))
  {
    hide Sound, Permitted, Acceptable, Repaired, RepairTrace, PlanMove, SettledDisk, NextEvent, Moved, MoveTrace, AppendTrace;
    SettledIsSound(s, initial, disk);
    PlanExactly(s, SettledDisk(s, disk).state.value, disk.events, r, now);
    MoveFollowsPlan(s, disk, r, now);
  }

  /** What a move returns and leaves is what was planned on the settled directory. */
  lemma MoveFollowsPlan(s: Schemas, disk: Disk, r: Request, now: int)
    requires Repaired(s, disk).Ok?
    ensures var plan := PlanMove(s, Repaired(s, disk).value, disk.events, r, now);
            && (Moved(s, disk, r, now).Ok? <==> plan.Ok?)
            && (plan.Ok? && plan.value.Append? ==>
                  && Moved(s, disk, r, now) == Ok(plan.value.updated)
                  && Last(MoveTrace(s, disk, r, now)) == Disk(Some(plan.value.updated), disk.events[plan.value.updated.revision := plan.value.event]))
            && (plan.Ok? && plan.value.Stay? ==>
                  Moved(s, disk, r, now) == Ok(plan.value.document) && Last(MoveTrace(s, disk, r, now)) == SettledDisk(s, disk))
  {
    hide PlanMove, Repaired, RepairTrace;
  }

  /** A move to the state the mission is in answers with it exactly when it would change nothing. */
  lemma StaySucceedsExactly(s: Schemas, initial: Document, disk: Disk, r: Request, now: int)
    requires Sound(s, initial, disk) && SettledDisk(s, disk).state.Some? && r.target == SettledDisk(s, disk).state.value.state
    ensures var d := SettledDisk(s, disk).state.value;
            && (Moved(s, disk, r, now).Ok? <==> forall f :: f in r.changes ==> Get(d.fields, f) == r.changes[f])
            && (Moved(s, disk, r, now).Ok? ==> Moved(s, disk, r, now) == Ok(d) && Last(MoveTrace(s, disk, r, now)) == SettledDisk(s, disk))
  {
    hide Sound, Repaired, RepairTrace, SettledDisk, Moved, MoveTrace;
    SettledIsSound(s, initial, disk);
    MoveFollowsPlan(s, disk, r, now);
  }
}
