/**
  The controller object of a goal pack (pathfinder_core/goal_pack.py): its queue state is a field,
  and its validation loops and queue updates are proved against the predicates and functions of
  `GoalPack`.  The children are separate missions and are not part of this object.
*/
module GoalPackController {
  import opened Wrappers
  import opened MissionState
  import opened HostDocuments
  import opened GoalPack

  /** The indices of the active goals, in order. */
  function ActiveIndices(goals: seq<Goal>): seq<nat> {
    if |goals| == 0 then []
    else
      var earlier := ActiveIndices(goals[..|goals| - 1]);
      if goals[|goals| - 1].status == Active then earlier + [|goals| - 1] else earlier
  }

  lemma {:induction false} NoActive(goals: seq<Goal>)
    ensures ActiveIndices(goals) == [] <==> forall i :: 0 <= i < |goals| ==> goals[i].status != Active
    decreases |goals|
  {
    if |goals| > 0 {
      var earlier := goals[..|goals| - 1];
      NoActive(earlier);
      assert forall i :: 0 <= i < |goals| - 1 ==> earlier[i] == goals[i];
    }
  }

  lemma {:induction false} SingleActive(goals: seq<Goal>, index: nat)
    ensures ActiveIndices(goals) == [index] <==> index < |goals| && OnlyActive(goals, index)
    decreases |goals|
  {
    if |goals| > 0 {
      var earlier, last := goals[..|goals| - 1], |goals| - 1;
      assert forall i :: 0 <= i < last ==> earlier[i] == goals[i];
      NoActive(earlier);
      SingleActive(earlier, index);
      if goals[last].status == Active {
        assert ActiveIndices(goals) == ActiveIndices(earlier) + [last];
        assert ActiveIndices(goals)[|ActiveIndices(goals)| - 1] == last;
      }
    }
  }

  class GoalPackController {
    const schemas: PackSchemas
    var state: Option<PackState>

    constructor (schemas: PackSchemas)
      ensures this.schemas == schemas && state == None
    {
      this.schemas, state := schemas, None;
    }

    method ActiveGoals(goals: seq<Goal>) returns (active: seq<nat>)
      ensures active == ActiveIndices(goals)
    {
      active := [];
      for i := 0 to |goals|
        invariant active == ActiveIndices(goals[..i])
      {
        assert goals[..i + 1][..i] == goals[..i];
        if goals[i].status == Active { active := active + [i]; }
      }
      assert goals[..|goals|] == goals;
    }

    /** Looks for a repeated mission, binding or goal id. */
    method IdentitiesUnique(bindings: seq<Binding>) returns (unique: bool)
      ensures unique <==> DistinctGoals(bindings)
    {
      var missions: set<string>, ids: set<string>, goals: set<string> := {}, {}, {};
      for i := 0 to |bindings|
        invariant missions == set k | 0 <= k < i :: bindings[k].identity.missionId
        invariant ids == set k | 0 <= k < i :: bindings[k].identity.bindingId
        invariant goals == set k | 0 <= k < i :: bindings[k].identity.goalId
        invariant DistinctGoals(bindings[..i])
      {
        var id := bindings[i].identity;
        if id.missionId in missions || id.bindingId in ids || id.goalId in goals {
          ghost var k :| 0 <= k < i && (bindings[k].identity.missionId == id.missionId || bindings[k].identity.bindingId == id.bindingId
                                        || bindings[k].identity.goalId == id.goalId);
          return false;
        }
        missions, ids, goals := missions + {id.missionId}, ids + {id.bindingId}, goals + {id.goalId};
      }
      assert bindings[..|bindings|] == bindings;
      unique := true;
    }

    /** `_validate_state_invariants`. */
    method ValidateStateInvariants(st: PackState) returns (ok: bool)
      ensures ok <==> StateOk(schemas, st)
    {
      if !schemas.state(st) { return false; }
      for i := 0 to |st.goals|
        invariant forall k :: 0 <= k < i ==> st.goals[k].position == k + 1 && GoalConsistent(st.goals[k])
      {
        if st.goals[i].position != i + 1 || !GoalConsistent(st.goals[i]) { return false; }
      }
      var active := ActiveGoals(st.goals);
      NoActive(st.goals);
      if TerminalPhase(st.phase) {
        if |active| > 0 || st.current.Some? { return false; }
      } else {
        if st.current.None? { return false; }
        SingleActive(st.goals, st.current.value);
        if active != [st.current.value] { return false; }
      }
      if st.phase == PackAwaitingReview && exists i :: 0 <= i < |st.goals| && st.goals[i].status != Completed { return false; }
      ok := IdentitiesUnique(seq(|st.goals|, i requires 0 <= i < |st.goals| => st.goals[i].binding));
    }

    /** `_save_state`: refuses to overwrite a state that is not the one the change was made from. */
    method SaveState(current: PackState, updated: PackState, now: int) returns (r: Result<PackState, PackError>)
      requires state.Some? && updated.revision == current.revision
      modifies this`state
      ensures var saved := updated.(revision := current.revision + 1, updatedAt := now);
              && (r.Ok? <==> old(state).value.revision == current.revision && StateOk(schemas, saved))
              && (r.Ok? ==> r.value == saved) && state == (if r.Ok? then Some(saved) else old(state))
    {
      if state.value.revision != current.revision { return Err(SaveRejected); }
      var saved := updated.(revision := current.revision + 1, updatedAt := now);
      var ok := ValidateStateInvariants(saved);
      if !ok { return Err(SaveRejected); }
      state := Some(saved);
      r := Ok(saved);
    }

    /** `_finish_active`: closes the active goal with its child's final state and activates the next. */
    method FinishActive(child: Document, now: int) returns (r: Result<PackState, PackError>)
      requires state.Some? && state.value.current.Some? && state.value.current.value < |state.value.goals|
      requires ChildTerminal(child.state)
      modifies this`state
      ensures var st := old(state).value;
              var saved := FinishedState(st, st.current.value, child, now).(revision := st.revision + 1, updatedAt := now);
              && (r.Ok? <==> StateOk(schemas, saved)) && (r.Ok? ==> r.value == saved)
              && state == (if r.Ok? then Some(saved) else old(state))
    {
      var st := state.value;
      var index := st.current.value;
      var closed := st.goals[index].(completedAt := Some(child.updatedAt), finalState := Some(child.state));
      if child.state != AwaitingReview {
        var status := if child.state == Blocked then GoalBlocked else GoalAbandoned;
        var phase := if child.state == Blocked then PackBlocked else PackAbandoned;
        var reason := if Get(child.fields, TerminalReason) == Str("budget-limited") then "budget-limited"
                      else if child.state == Blocked then "goal-blocked" else "abandoned";
        r := SaveState(st, st.(phase := phase, current := None, goals := st.goals[index := closed.(status := status)],
                               terminalReason := Some(reason)), now);
        return;
      }
      var goals := st.goals[index := closed.(status := Completed)];
      if index + 1 == |goals| {
        r := SaveState(st, st.(phase := PackAwaitingReview, current := None, goals := goals), now);
        return;
      }
      goals := goals[index + 1 := goals[index + 1].(status := Active, activatedAt := Some(now))];
      r := SaveState(st, st.(phase := PackRunning, current := Some(index + 1), goals := goals), now);
    }

    /** `_block_for_deadline`. */
    method BlockForDeadline(now: int) returns (r: Result<PackState, PackError>)
      requires state.Some? && state.value.current.Some? && state.value.current.value < |state.value.goals|
      modifies this`state
      ensures var st := old(state).value;
              var saved := StoppedState(st, st.current.value, now, false).(revision := st.revision + 1, updatedAt := now);
              && (r.Ok? <==> StateOk(schemas, saved)) && (r.Ok? ==> r.value == saved)
              && state == (if r.Ok? then Some(saved) else old(state))
    {
      var st := state.value;
      var index := st.current.value;
      var closed := st.goals[index].(status := GoalBlocked, completedAt := Some(now), finalState := Some(Blocked));
      r := SaveState(st, st.(phase := PackBlocked, current := None, goals := st.goals[index := closed],
                             terminalReason := Some("budget-limited")), now);
    }
  }
}
