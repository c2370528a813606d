/**
  What the merge protocol promises over every interleaving of any number of executors and
  reconcilers, with failures, kills and lost responses anywhere.
*/
module MergeSafety {
  import opened Wrappers
  import opened MergeDocuments
  import opened MergeExecutor
  import opened MergeProtocol
  import opened MergeProtocolLaws
  import Records = MergeRecords

  // ---------------------------------------------------------------- at most one PUT

  /**
    Among all the merge PUTs ever sent, no two are for the same operation, the same merge
    authorization id, the same authorization hash or the same readiness proof; and each was sent
    by the very call that wrote the operation's durable dispatch record.
  */
  lemma AtMostOnePut(valid: Validity, actions: seq<Action>)
    ensures var w := Run(valid, Start, actions).world;
            && (forall i, j :: 0 <= i < j < |w.puts| ==>
                  var a, b := w.puts[i].bindings, w.puts[j].bindings;
                  && w.puts[i].operationId != w.puts[j].operationId && a.authorizationId != b.authorizationId
                  && a.authorizationSha != b.authorizationSha && a.proofSha != b.proofSha)
            && (forall i :: 0 <= i < |w.puts| ==>
                  w.puts[i].operationId in w.dir.dispatches && By(w.dispatchers, w.puts[i].call, w.puts[i].operationId))
  {
    RunKeepsInvariant(valid, actions);
    hide Run;
  }

  ghost predicate Sending(s: System, a: Action) { a.SendPut? && a.call in s.calls && s.calls[a.call].Marked? }

  lemma OnlySendPutSends(valid: Validity, s: System, a: Action)
    requires !Sending(s, a)
    ensures Step(valid, s, a).world.puts == s.world.puts
  {
    hide Loadable, InputsValid, DispatchAllowed, ResultValid, ExecuteResult, ReconcileResult;
  }

  lemma SendingIsMarked(valid: Validity, s: System, a: Action)
    requires Invariant(valid, s) && Sending(s, a)
    ensures var intent := s.calls[a.call].intent;
            && Step(valid, s, a).world == WithPut(s.world, a.call, intent)
            && NoPut(s.world.puts, intent.operationId) && intent.operationId !in s.world.dir.results
            && intent.operationId in s.world.dir.intents && s.world.dir.intents[intent.operationId] == intent
            && DispatchOf(s.world.dir, intent.operationId) == Some(DispatchFor(intent))
  {
    hide Loadable, IntentsOk, ResultsOk, PutsOk;
    assert CallOk(valid, s, a.call, s.calls[a.call]);
  }

  /**
    When a PUT goes out, its dispatch record is already durable and bound to the persisted intent,
    no result has been recorded, and no PUT for the operation has gone out before.
  */
  lemma PutFollowsItsRecord(valid: Validity, actions: seq<Action>, a: Action)
    ensures var w, w' := Run(valid, Start, actions).world, Step(valid, Run(valid, Start, actions), a).world;
            w'.puts != w.puts ==>
              && |w'.puts| == |w.puts| + 1 && w'.puts[..|w.puts|] == w.puts
              && var put := w'.puts[|w.puts|];
                 && NoPut(w.puts, put.operationId) && put.operationId !in w.dir.results
                 && put.operationId in w.dir.intents && w.dir.intents[put.operationId].bindings == put.bindings
                 && DispatchOf(w.dir, put.operationId) == Some(DispatchFor(w.dir.intents[put.operationId]))
  {
    RunKeepsInvariant(valid, actions);
    var s := Run(valid, Start, actions);
    hide Run, Invariant, Step;
    if Sending(s, a) { SendingIsMarked(valid, s, a); } else { OnlySendPutSends(valid, s, a); }
  }

  // ---------------------------------------------------------------- files are written once

  /** Nothing durable is ever changed or removed. */
  ghost predicate Grows(w: World, w': World) {
    && (forall k :: k in w.dir.inputs ==> k in w'.dir.inputs && w'.dir.inputs[k] == w.dir.inputs[k])
    && (forall op :: op in w.dir.intents ==> op in w'.dir.intents && w'.dir.intents[op] == w.dir.intents[op])
    && (forall op :: op in w.dir.dispatches ==> op in w'.dir.dispatches && w'.dir.dispatches[op] == w.dir.dispatches[op])
    && (forall op :: op in w.dir.results ==> op in w'.dir.results && w'.dir.results[op] == w.dir.results[op])
    && w.puts <= w'.puts
  }

  predicate Writes(a: Action) { a.WriteInput? || a.WriteIntent? || a.MarkDispatch? || a.StoreResult? || a.SendPut? }

  lemma QuietStepsWriteNothing(valid: Validity, s: System, a: Action)
    requires !Writes(a)
    ensures Grows(s.world, Step(valid, s, a).world)
  {
    hide Loadable, InputsValid, DispatchAllowed, ResultValid, ExecuteResult, ReconcileResult;
    assert Step(valid, s, a).world.dir == s.world.dir && Step(valid, s, a).world.puts == s.world.puts;
  }

  lemma WritingStepsGrow(valid: Validity, s: System, a: Action)
    requires Invariant(valid, s) && Writes(a)
    ensures Grows(s.world, Step(valid, s, a).world)
  {
    hide Loadable, InputsValid, WorldOk, ResultValid, Stored;
    if a.call in s.calls { assert CallOk(valid, s, a.call, s.calls[a.call]); }
  }

  lemma StepGrows(valid: Validity, s: System, a: Action)
    requires Invariant(valid, s)
    ensures Grows(s.world, Step(valid, s, a).world)
  {
    hide Invariant, Step, Grows;
    if Writes(a) { WritingStepsGrow(valid, s, a); } else { QuietStepsWriteNothing(valid, s, a); }
  }

  lemma GrowsTransitively(w0: World, w1: World, w2: World)
    requires Grows(w0, w1) && Grows(w1, w2)
    ensures Grows(w0, w2)
  {}

  lemma RunOneMore(valid: Validity, actions: seq<Action>, a: Action)
    ensures Run(valid, Start, actions + [a]) == Step(valid, Run(valid, Start, actions), a)
  {
    hide Step;
    assert (actions + [a])[..|actions|] == actions;
  }

  /** Whatever a run leaves on disk, every later run still finds there, unchanged. */
  lemma {:induction false} WriteOnceForever(valid: Validity, actions: seq<Action>, more: seq<Action>)
    ensures Grows(Run(valid, Start, actions).world, Run(valid, Start, actions + more).world)
    decreases |more|
  {
    hide Run, Step, Invariant;
    if |more| == 0 {
      assert actions + more == actions;
    } else {
      hide Grows;
      var init, last := more[..|more| - 1], more[|more| - 1];
      WriteOnceForever(valid, actions, init);
      assert actions + more == (actions + init) + [last];
      RunOneMore(valid, actions + init, last);
      RunKeepsInvariant(valid, actions + init);
      var before := Run(valid, Start, actions + init);
      StepGrows(valid, before, last);
      GrowsTransitively(Run(valid, Start, actions).world, before.world, Step(valid, before, last).world);
    }
  }

  // ---------------------------------------------------------------- what a result means

  /**
    A recorded result says dispatch-not-started if and only if the operation has no dispatch
    record; a merged result was recorded by the call that wrote that record, never by a reconciler.
  */
  lemma ResultsAgreeWithDispatches(valid: Validity, actions: seq<Action>, op: OperationId)
    requires op in Run(valid, Start, actions).world.dir.results
    ensures var w := Run(valid, Start, actions).world;
            && (w.dir.results[op].reason == DispatchNotStarted <==> op !in w.dir.dispatches)
            && (w.dir.results[op].outcome == OutMerged ==>
                  op in w.recorders && By(w.dispatchers, w.recorders[op], op))
  {
    RunKeepsInvariant(valid, actions);
    hide Run;
    assert ResultOk(Run(valid, Start, actions).world, op);
  }

  /**
    Every result recorded in any run is bound to the persisted intent and inputs and to the dispatch
    record on disk, and a recorded merge carries the proof of exactly the intended squash.
  */
  lemma EveryRecordIsProven(valid: Validity, actions: seq<Action>, op: OperationId)
    requires op in Run(valid, Start, actions).world.dir.results
    ensures var d := Run(valid, Start, actions).world.dir;
            op in d.intents && InputsPresent(d, op) && Records.Recordable(InputsOf(d, op), d.intents[op], DispatchOf(d, op), d.results[op])
  {
    RunKeepsInvariant(valid, actions);
    var d := Run(valid, Start, actions).world.dir;
    hide Run;
    assert ResultOk(Run(valid, Start, actions).world, op);
    hide ResultValid, Records.Recordable;
    Records.ResultValidExactly(InputsOf(d, op), d.intents[op], DispatchOf(d, op), d.results[op]);
  }

  /**
    Once dispatch-not-started is recorded for an operation it stays recorded, and in every
    continuation of the run no dispatch record appears and no PUT is ever sent for it.
  */
  lemma NotStartedMeansNever(valid: Validity, actions: seq<Action>, more: seq<Action>, op: OperationId)
    requires op in Run(valid, Start, actions).world.dir.results
    requires Run(valid, Start, actions).world.dir.results[op].reason == DispatchNotStarted
    ensures var w := Run(valid, Start, actions + more).world;
            && op in w.dir.results && w.dir.results[op] == Run(valid, Start, actions).world.dir.results[op]
            && op !in w.dir.dispatches && NoPut(w.puts, op)
  {
    WriteOnceForever(valid, actions, more);
    ResultsAgreeWithDispatches(valid, actions + more, op);
    AtMostOnePut(valid, actions + more);
    hide Run;
  }

  lemma RecordingIsValidated(valid: Validity, s: System, c: CallId)
    requires Invariant(valid, s) && c in s.calls && s.calls[c].Recording? && s.lock.None?
    ensures var ph := s.calls[c];
            Step(valid, s, AcquireRecord(c)).calls[c].Storing?
            <==> && Writable(s.world.dir.results, ph.intent.operationId, ph.result)
                 && ResultValid(ph.inputs, ph.intent, DispatchOf(s.world.dir, ph.intent.operationId), ph.result)
  {
    hide WorldOk, ResultValid, InputsValid;
    assert CallOk(valid, s, c, s.calls[c]);
  }

  lemma ExecutorPasses(valid: Validity, s: System, c: CallId)
    requires Invariant(valid, s) && c in s.calls && s.calls[c].Recording? && s.calls[c].executor
    ensures PassesIfShaped(s.world.dir, s.calls[c].inputs, s.calls[c].intent, s.calls[c].result)
  {
    hide WorldOk, PassesIfShaped, Loadable;
    assert CallOk(valid, s, c, s.calls[c]);
  }

  /** A call that came to record a result still holds that result, or has gone on for good. */
  ghost predicate RecordsOrGone(s: System, c: CallId, ph: Phase) {
    c in s.calls && (s.calls[c] == ph || s.calls[c].Storing? || s.calls[c].Done? || s.calls[c].Dead?)
  }

  lemma StepKeepsRecording(valid: Validity, s: System, a: Action, c: CallId, ph: Phase)
    requires ph.Recording? && RecordsOrGone(s, c, ph)
    ensures RecordsOrGone(Step(valid, s, a), c, ph)
  {
    hide Loadable, InputsValid, DispatchAllowed, ResultValid, ExecuteResult, ReconcileResult, Unspent;
  }

  lemma {:induction false} RunKeepsRecording(valid: Validity, s: System, actions: seq<Action>, c: CallId, ph: Phase)
    requires ph.Recording? && RecordsOrGone(s, c, ph)
    ensures RecordsOrGone(Run(valid, s, actions), c, ph)
  {
    hide Step, RecordsOrGone;
    if |actions| > 0 {
      RunKeepsRecording(valid, s, actions[..|actions| - 1], c, ph);
      StepKeepsRecording(valid, Run(valid, s, actions[..|actions| - 1]), actions[|actions| - 1], c, ph);
    }
  }

  /**
    In any run in which an executor with a reply reads the pull request again, and whatever others do
    before it comes to record its result and finds the lock free: `record_result` accepts the result if
    and only if none is there yet (or the same one is), and not a credited merge with a request id,
    from the reread or the answer, that the result schema does not admit.
  */
  lemma ExecutorRecordsExactly(valid: Validity, before: seq<Action>, c: CallId, observation: Observation, after: seq<Action>)
    requires var s := Run(valid, Start, before); c in s.calls && s.calls[c].Replied?
    requires var s := Run(valid, Run(valid, Start, before + [Classify(c, observation)]), after);
             c in s.calls && s.calls[c].Recording? && s.lock.None?
    ensures HasEvery(Run(valid, Start, before).calls[c].inputs)
    ensures var earlier := Run(valid, Start, before);
            var ph := earlier.calls[c];
            var s := Run(valid, Run(valid, Start, before + [Classify(c, observation)]), after);
            var result := ExecuteResult(ph.inputs, ph.intent, ph.dispatch, ph.reply, observation, earlier.world.clock);
            && s.calls[c] == Recording(true, ph.inputs, ph.intent, result)
            && (Step(valid, s, AcquireRecord(c)).calls[c].Storing?
                <==> && Writable(s.world.dir.results, ph.intent.operationId, result)
                     && !(Credits(ph.intent, ph.dispatch, ph.reply, observation, earlier.world.clock) && ShapelessId(ph.reply, observation)))
  {
    hide Step, Invariant, ResultValid, Shaped, Credits, ShapelessId, ExecuteResult, Writable, Run;
    var earlier := Run(valid, Start, before);
    var ph := earlier.calls[c];
    RunKeepsInvariant(valid, before);
    RepliedIsDispatched(valid, earlier, c);
    RunOneMore(valid, before, Classify(c, observation));
    var result := ExecuteResult(ph.inputs, ph.intent, ph.dispatch, ph.reply, observation, earlier.world.clock);
    ClassifyRecords(valid, earlier, c, observation);
    RunKeepsRecording(valid, Step(valid, earlier, Classify(c, observation)), after, c, Recording(true, ph.inputs, ph.intent, result));
    RunJoins(valid, before + [Classify(c, observation)], after);
    RunKeepsInvariant(valid, before + [Classify(c, observation)] + after);
    var s := Run(valid, Start, before + [Classify(c, observation)] + after);
    RecordingIsValidated(valid, s, c);
    ExecutorPasses(valid, s, c);
    ResultValidIfShaped(ph.inputs, ph.intent, ph.dispatch, ph.reply, observation, earlier.world.clock);
    ExecuteResultValidExactly(ph.inputs, ph.intent, ph.dispatch, ph.reply, observation, earlier.world.clock);
  }

  /** What an executor with a reply knows of its dispatch. */
  lemma RepliedIsDispatched(valid: Validity, s: System, c: CallId)
    requires Invariant(valid, s) && c in s.calls && s.calls[c].Replied?
    ensures var ph := s.calls[c]; Dispatched(ph.inputs, ph.intent, ph.dispatch) && ph.dispatch.startedAt <= s.world.clock
  {
    hide ResultsOk, PutsOk;
    assert CallOk(valid, s, c, s.calls[c]);
  }

  lemma ClassifyRecords(valid: Validity, s: System, c: CallId, observation: Observation)
    requires c in s.calls && s.calls[c].Replied? && HasEvery(s.calls[c].inputs)
    ensures var ph := s.calls[c];
            RecordsOrGone(Step(valid, s, Classify(c, observation)), c,
                          Recording(true, ph.inputs, ph.intent, ExecuteResult(ph.inputs, ph.intent, ph.dispatch, ph.reply, observation, s.world.clock)))
  {
    hide ExecuteResult;
  }

  lemma {:induction false} RunJoins(valid: Validity, first: seq<Action>, more: seq<Action>)
    ensures Run(valid, Run(valid, Start, first), more) == Run(valid, Start, first + more)
    decreases |more|
  {
    hide Step;
    if |more| == 0 {
      assert first + more == first;
    } else {
      RunJoins(valid, first, more[..|more| - 1]);
      assert (first + more)[..|first + more| - 1] == first + more[..|more| - 1];
    }
  }

  lemma ObservingFacts(valid: Validity, s: System, c: CallId)
    requires Invariant(valid, s) && c in s.calls && s.calls[c].Observing?
    ensures var ph, current := s.calls[c], DispatchOf(s.world.dir, s.calls[c].intent.operationId);
            && HasEvery(ph.inputs) && ph.intent.mergeMethod == "squash" && ph.intent.startedAt <= s.world.clock
            && (current.Some? ==> Dispatched(ph.inputs, ph.intent, current.value) && current.value.startedAt <= s.world.clock)
            && (ph.seen.Some? ==> current == ph.seen)
  {
    hide ResultsOk, PutsOk;
    assert CallOk(valid, s, c, s.calls[c]);
  }

  lemma ReconcilerBuilds(valid: Validity, s: System, c: CallId)
    requires Invariant(valid, s) && c in s.calls && s.calls[c].Observing?
    ensures var ph := s.calls[c];
            && HasEvery(ph.inputs)
            && Step(valid, s, BuildReconcile(c)) == Goto(s, c, Recording(false, ph.inputs, ph.intent, ReconcileResult(ph.inputs, ph.intent, ph.seen, s.world.clock)))
            && (ResultValid(ph.inputs, ph.intent, DispatchOf(s.world.dir, ph.intent.operationId), ReconcileResult(ph.inputs, ph.intent, ph.seen, s.world.clock))
                <==> (ph.seen.None? <==> ph.intent.operationId !in s.world.dir.dispatches))
  {
    hide ResultValid, ReconcileResult, Invariant, Dispatched;
    var ph := s.calls[c];
    ObservingFacts(valid, s, c);
    ReconcileResultValidExactly(ph.inputs, ph.intent, ph.seen, DispatchOf(s.world.dir, ph.intent.operationId), s.world.clock);
  }

  /**
    A reconciler's result is accepted, with the lock free and no result recorded, if and only if
    it saw the dispatch record exactly when there is one now: a dispatch that started after the
    reconciler looked cannot be reported as never started.
  */
  lemma ReconcilerRecordsExactly(valid: Validity, actions: seq<Action>, c: CallId)
    requires var s := Run(valid, Start, actions);
             c in s.calls && s.calls[c].Observing? && s.lock.None? && s.calls[c].intent.operationId !in s.world.dir.results
    ensures var s := Run(valid, Start, actions);
            var op := s.calls[c].intent.operationId;
            Step(valid, Step(valid, s, BuildReconcile(c)), AcquireRecord(c)).calls[c].Storing?
            <==> (s.calls[c].seen.None? <==> op !in s.world.dir.dispatches)
  {
    RunKeepsInvariant(valid, actions);
    var s := Run(valid, Start, actions);
    StepKeepsInvariant(valid, s, BuildReconcile(c));
    ReconcilerBuilds(valid, s, c);
    RecordingIsValidated(valid, Step(valid, s, BuildReconcile(c)), c);
    hide Run, Step, Invariant, ResultValid, ReconcileResult;
  }
}
