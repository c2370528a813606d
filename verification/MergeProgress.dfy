/** What lets a merge go on, step by step, and a merge that goes through. */
module MergeProgress {
  import opened Wrappers
  import opened MergeDocuments
  import opened MergeExecutor
  import opened MergeProtocol
  import opened MergeProtocolLaws

  // ---------------------------------------------------------------- what each step asks for

  /** Complete inputs that the intent names by their hashes, and that the evaluator's replay accepts. */
  ghost predicate SoundInputs(valid: Validity, inputs: Inputs, intent: Intent) {
    && PolicyDoc in inputs && AuthorizationDoc in inputs && CredentialReceiptDoc in inputs && ProtectedPolicyDoc in inputs
    && InitialEvidenceDoc in inputs && RereadEvidenceDoc in inputs && ReadinessProofDoc in inputs
    && intent.bindings.authorizationSha == inputs[AuthorizationDoc] && intent.bindings.proofSha == inputs[ReadinessProofDoc]
    && intent.mergeMethod == "squash" && valid(inputs, intent)
  }

  lemma SoundInputsExactly(valid: Validity, inputs: Inputs, intent: Intent)
    ensures SoundInputs(valid, inputs, intent) <==> InputsValid(valid, inputs, intent)
  {
    if SoundInputs(valid, inputs, intent) {
      forall l: Label ensures l in inputs { SevenLabels(l); }
    }
  }

  lemma SevenLabels(l: Label)
    ensures l in {PolicyDoc, AuthorizationDoc, CredentialReceiptDoc, ProtectedPolicyDoc, InitialEvidenceDoc, RereadEvidenceDoc, ReadinessProofDoc}
  {}

  /** The merge authorization or the readiness proof of `a` is spent by `b`. */
  ghost predicate Respends(a: Bindings, b: Bindings) {
    a.authorizationId == b.authorizationId || a.authorizationSha == b.authorizationSha || a.proofSha == b.proofSha
  }

  /** A new `execute` goes on exactly with sound inputs and a fresh intent, made now. */
  lemma EntersExactly(valid: Validity, s: System, c: CallId, inputs: Inputs, intent: Intent)
    requires c !in s.calls
    ensures var t := Step(valid, s, StartExecute(c, inputs, intent));
            && (c in t.calls <==> && intent.operationId !in s.world.dir.intents && intent.startedAt == s.world.clock && SoundInputs(valid, inputs, intent))
            && (c in t.calls ==> t == Goto(s, c, Executing(inputs, intent))) && (c !in t.calls ==> t == s)
  {
    SoundInputsExactly(valid, inputs, intent);
    hide InputsValid, SoundInputs;
  }

  /** It takes the lock exactly if it is free and, unless the operation is there already, nothing on disk has spent its keys. */
  lemma ClaimsExactly(valid: Validity, s: System, c: CallId)
    requires c in s.calls && s.calls[c].Executing?
    ensures var t, intent := Step(valid, s, AcquireClaim(c)), s.calls[c].intent;
            var created := intent.operationId !in s.world.dir.intents;
            && (t.calls[c] == Claiming(s.calls[c].inputs, intent, created, 0) <==>
                  && s.lock == None
                  && (created ==> forall op :: op in s.world.dir.intents ==> !Respends(s.world.dir.intents[op].bindings, intent.bindings)))
            && (t.calls[c].Claiming? ==> t.lock == Some(c) && t.world == s.world)
            && (!t.calls[c].Claiming? ==> t.calls[c] == Done)
  {}

  /** An input file is written exactly if it is not there, or is there as it is. */
  lemma WritesExactly(valid: Validity, s: System, c: CallId)
    requires Invariant(valid, s) && c in s.calls && s.calls[c].Claiming? && s.calls[c].next < 7
    ensures var t, ph := Step(valid, s, WriteInput(c)), s.calls[c];
            var file := InputFiles[ph.next];
            var key := (ph.intent.operationId, file);
            && file in ph.inputs
            && (t.calls[c] == ph.(next := ph.next + 1) <==> (key in s.world.dir.inputs ==> s.world.dir.inputs[key] == ph.inputs[file]))
            && (t.calls[c].Claiming? ==> t.world.dir.inputs == s.world.dir.inputs[key := ph.inputs[file]])
            && (!t.calls[c].Claiming? ==> t.calls[c] == Done)
  {
    hide WorldOk, Unspent;
    assert CallOk(valid, s, c, s.calls[c]);
  }

  /** With all seven inputs on disk, exactly the call that found no intent writes it and may dispatch. */
  lemma CreatesExactly(valid: Validity, s: System, c: CallId)
    requires c in s.calls && s.calls[c].Claiming? && s.calls[c].next == 7
    ensures var t, ph := Step(valid, s, WriteIntent(c)), s.calls[c];
            && t.calls[c] == (if ph.created then Claimed(ph.inputs, ph.intent) else Done)
            && t.world.dir.intents == (if ph.created then s.world.dir.intents[ph.intent.operationId := ph.intent] else s.world.dir.intents)
  {}

  /** It dispatches exactly if the lock is free and no result was recorded in between. */
  lemma DispatchesExactly(valid: Validity, s: System, c: CallId)
    requires Invariant(valid, s) && c in s.calls && s.calls[c].Claimed?
    ensures var t, ph := Step(valid, s, AcquireDispatch(c)), s.calls[c];
            && (t.calls[c] == Dispatching(ph.inputs, ph.intent) <==> s.lock == None && ph.intent.operationId !in s.world.dir.results)
            && (t.calls[c] != Dispatching(ph.inputs, ph.intent) ==> t.calls[c] == Done)
  {
    hide Invariant, Loadable;
    ClaimedFacts(valid, s, c);
  }

  lemma ClaimedFacts(valid: Validity, s: System, c: CallId)
    requires Invariant(valid, s) && c in s.calls && s.calls[c].Claimed?
    ensures var op := s.calls[c].intent.operationId;
            Loadable(valid, s.world.dir, op) && s.world.dir.intents[op] == s.calls[c].intent && op !in s.world.dir.dispatches
  {
    hide WorldOk, Loadable;
    assert CallOk(valid, s, c, s.calls[c]);
  }

  lemma DispatchingFacts(valid: Validity, s: System, c: CallId)
    requires Invariant(valid, s) && c in s.calls && s.calls[c].Dispatching?
    ensures s.calls[c].intent.operationId !in s.world.dir.dispatches
  {
    hide WorldOk, Loadable, Stored;
    assert CallOk(valid, s, c, s.calls[c]);
  }

  /** Under the lock the dispatch record is always written. */
  lemma MarksAlways(valid: Validity, s: System, c: CallId)
    requires Invariant(valid, s) && c in s.calls && s.calls[c].Dispatching?
    ensures var t, ph := Step(valid, s, MarkDispatch(c)), s.calls[c];
            && t.calls[c] == Marked(ph.inputs, ph.intent, Dispatch(ph.intent.operationId, OfIntent(ph.intent), ph.intent.startedAt))
            && t.world.dir.dispatches == s.world.dir.dispatches[ph.intent.operationId := Dispatch(ph.intent.operationId, OfIntent(ph.intent), ph.intent.startedAt)]
  {
    hide Invariant;
    DispatchingFacts(valid, s, c);
  }

  lemma PersistedLoads(valid: Validity, s: System, op: OperationId)
    requires Invariant(valid, s)
    ensures op in s.world.dir.intents <==> Loadable(valid, s.world.dir, op)
  {
    hide PhaseOk, ResultsOk, DispatchesOk, PutsOk, InputsValid;
  }

  /** A new `reconcile` goes on exactly if the operation is there, with what it then sees of the dispatch. */
  lemma ReconcilesExactly(valid: Validity, s: System, c: CallId, op: OperationId)
    requires Invariant(valid, s) && c !in s.calls
    ensures var t, d := Step(valid, s, StartReconcile(c, op)), s.world.dir;
            && (c in t.calls <==> op in d.intents)
            && (c in t.calls ==> InputsPresent(d, op) && t.calls[c] == Reading(InputsOf(d, op), d.intents[op], if op in d.dispatches then Some(d.dispatches[op]) else None))
  {
    PersistedLoads(valid, s, op);
    hide Invariant, InputsValid;
  }

  /** And it goes on to build a result exactly if none is there. */
  lemma LooksExactly(valid: Validity, s: System, c: CallId)
    requires c in s.calls && s.calls[c].Reading?
    ensures var t, ph := Step(valid, s, ReadResult(c)), s.calls[c];
            t.calls[c] == if ph.intent.operationId in s.world.dir.results then Done else Observing(ph.inputs, ph.intent, ph.seen)
  {}

  /** What it concludes depends on the dispatch it saw, as of now. */
  lemma ConcludesAlways(valid: Validity, s: System, c: CallId)
    requires c in s.calls && s.calls[c].Observing? && HasEvery(s.calls[c].inputs)
    ensures var t, ph := Step(valid, s, BuildReconcile(c)), s.calls[c];
            && t.calls == s.calls[c := Recording(false, ph.inputs, ph.intent, ReconcileResult(ph.inputs, ph.intent, ph.seen, s.world.clock))]
            && t.world == s.world && t.lock == s.lock
  {}

  /** An error after the dispatch record, and before the PUT, is a lost reply: nothing was sent, and nobody can tell. */
  lemma LosesBeforeThePut(valid: Validity, s: System, c: CallId)
    requires c in s.calls && s.calls[c].Marked?
    ensures var t, ph := Step(valid, s, LoseBeforePut(c)), s.calls[c];
            t.calls == s.calls[c := Replied(ph.inputs, ph.intent, ph.dispatch, Lost)] && t.world == s.world && t.lock == (if s.lock == Some(c) then None else s.lock)
  {}

  /** A call that has ended stays so, and one that was never made cannot fail. */
  lemma EndedStaysEnded(valid: Validity, s: System, c: CallId)
    requires c !in s.calls || s.calls[c] == Done || s.calls[c] == Dead
    ensures Step(valid, s, Kill(c)).calls == s.calls && Step(valid, s, Kill(c)).world == s.world
    ensures c !in s.calls || s.calls[c] == Dead ==> Step(valid, s, Fail(c)) == s && Step(valid, s, Kill(c)).lock == s.lock
  {}

  /** A call can fail anywhere, which releases its lock, or be killed, which leaves it behind until an operator removes it. */
  lemma StopsAnywhere(valid: Validity, s: System, c: CallId)
    requires c in s.calls && s.calls[c] != Done && s.calls[c] != Dead
    ensures var t := Step(valid, s, Fail(c)); t.calls == s.calls[c := Done] && t.world == s.world && t.lock == (if s.lock == Some(c) then None else s.lock)
    ensures var t := Step(valid, s, Kill(c)); t.calls == s.calls[c := Dead] && t.world == s.world && t.lock == s.lock
    ensures s.lock == Some(c) ==> var t := Step(valid, s, Kill(c)); Step(valid, t, ClearDeadLock) == t.(lock := None) && Step(valid, s, ClearDeadLock) == s
  {}

  /** What a dispatch is checked for on any directory. */
  lemma ChecksExactly(valid: Validity, d: Directory, op: OperationId, intentSha: IntentHash, startedAt: int)
    ensures DispatchAllowed(valid, d, op, intentSha, startedAt) <==>
              && op in d.intents && InputsPresent(d, op) && SoundInputs(valid, InputsOf(d, op), d.intents[op])
              && intentSha == OfIntent(d.intents[op]) && op !in d.results && op !in d.dispatches && d.intents[op].startedAt <= startedAt
  {
    if op in d.intents && InputsPresent(d, op) { SoundInputsExactly(valid, InputsOf(d, op), d.intents[op]); }
    hide SoundInputs, InputsValid, InputsOf;
  }

  // ---------------------------------------------------------------- a merge that goes through

  /** Some actions lead from `s` to `t`. */
  ghost predicate Leads(valid: Validity, s: System, t: System) { exists actions :: Run(valid, s, actions) == t }

  lemma LeadsOn(valid: Validity, s: System, t: System, a: Action)
    requires Leads(valid, s, t)
    ensures Leads(valid, s, Step(valid, t, a))
  {
    var actions :| Run(valid, s, actions) == t;
    assert (actions + [a])[..|actions|] == actions;
    hide Step;
    assert Run(valid, s, actions + [a]) == Step(valid, t, a);
  }

  lemma LeadsNowhere(valid: Validity, s: System)
    ensures Leads(valid, s, s)
  {
    assert Run(valid, s, []) == s;
  }

  /** The state of one call, of the lock and of the world. */
  ghost predicate At(s: System, c: CallId, ph: Phase, lock: Option<CallId>, w: World) { s.world == w && s.lock == lock && c in s.calls && s.calls[c] == ph }

  /** The first `n` inputs of the operation are written. */
  function Written(w: World, op: OperationId, inputs: Inputs, n: nat): World
    requires n <= 7 && HasEvery(inputs)
  {
    if n == 0 then w else WithInput(Written(w, op, inputs, n - 1), (op, InputFiles[n - 1]), inputs[InputFiles[n - 1]])
  }

  /** No other contents are on disk for the operation's inputs. */
  ghost predicate InputsFree(d: Directory, op: OperationId, inputs: Inputs) {
    forall l: Label :: (op, l) in d.inputs && l in inputs ==> d.inputs[(op, l)] == inputs[l]
  }

  lemma {:induction false} WrittenStays(w: World, op: OperationId, inputs: Inputs, n: nat)
    requires n <= 7 && HasEvery(inputs) && InputsFree(w.dir, op, inputs)
    ensures var x := Written(w, op, inputs, n);
            && InputsFree(x.dir, op, inputs) && x == w.(dir := w.dir.(inputs := x.dir.inputs))
            && (forall k :: 0 <= k < n ==> (op, InputFiles[k]) in x.dir.inputs)
  {
    if n > 0 { WrittenStays(w, op, inputs, n - 1); }
  }

  /** The inputs go in one after the other. */
  lemma {:induction false} WritesInputs(valid: Validity, s: System, c: CallId, inputs: Inputs, intent: Intent, n: nat, t: System, w: World)
    requires n <= 7 && HasEvery(inputs) && InputsFree(w.dir, intent.operationId, inputs)
    requires Leads(valid, s, t) && At(t, c, Claiming(inputs, intent, true, 0), Some(c), w)
    ensures exists u :: Leads(valid, s, u) && At(u, c, Claiming(inputs, intent, true, n), Some(c), Written(w, intent.operationId, inputs, n))
  {
    if n == 0 {
      assert Leads(valid, s, t) && At(t, c, Claiming(inputs, intent, true, n), Some(c), Written(w, intent.operationId, inputs, n));
    } else {
      WritesInputs(valid, s, c, inputs, intent, n - 1, t, w);
      var u :| Leads(valid, s, u) && At(u, c, Claiming(inputs, intent, true, n - 1), Some(c), Written(w, intent.operationId, inputs, n - 1));
      WrittenStays(w, intent.operationId, inputs, n - 1);
      LeadsOn(valid, s, u, WriteInput(c));
      OneInput(valid, u, c, inputs, intent, n - 1, Written(w, intent.operationId, inputs, n - 1));
      hide Leads, Step, At;
    }
  }

  lemma OneInput(valid: Validity, s: System, c: CallId, inputs: Inputs, intent: Intent, n: nat, w: World)
    requires n < 7 && HasEvery(inputs) && InputsFree(w.dir, intent.operationId, inputs)
    requires At(s, c, Claiming(inputs, intent, true, n), Some(c), w)
    ensures At(Step(valid, s, WriteInput(c)), c, Claiming(inputs, intent, true, n + 1), Some(c),
               WithInput(w, (intent.operationId, InputFiles[n]), inputs[InputFiles[n]]))
  {}

  lemma Enters(valid: Validity, s: System, c: CallId, inputs: Inputs, intent: Intent)
    requires c !in s.calls && s.lock == None
    requires intent.operationId !in s.world.dir.intents && intent.startedAt == s.world.clock && InputsValid(valid, inputs, intent) && Unspent(s.world.dir, intent)
    ensures At(Step(valid, Step(valid, s, StartExecute(c, inputs, intent)), AcquireClaim(c)), c, Claiming(inputs, intent, true, 0), Some(c), s.world)
  {
    hide InputsValid, Unspent;
  }

  lemma Creates(valid: Validity, s: System, c: CallId, inputs: Inputs, intent: Intent, w: World)
    requires At(s, c, Claiming(inputs, intent, true, 7), Some(c), w)
    ensures At(Step(valid, s, WriteIntent(c)), c, Claimed(inputs, intent), None, WithIntent(w, c, intent))
  {}

  lemma Dispatches(valid: Validity, s: System, c: CallId, inputs: Inputs, intent: Intent, w: World)
    requires At(s, c, Claimed(inputs, intent), None, w) && DispatchAllowed(valid, w.dir, intent.operationId, OfIntent(intent), intent.startedAt)
    ensures At(Step(valid, Step(valid, s, AcquireDispatch(c)), MarkDispatch(c)), c, Marked(inputs, intent, DispatchFor(intent)), Some(c), WithDispatch(w, c, intent))
  {
    assert intent.operationId !in w.dir.dispatches;
    hide DispatchAllowed;
  }

  lemma Sends(valid: Validity, s: System, c: CallId, inputs: Inputs, intent: Intent, reply: Reply, w: World)
    requires At(s, c, Marked(inputs, intent, DispatchFor(intent)), Some(c), w)
    ensures At(Step(valid, Step(valid, s, SendPut(c)), ReceiveReply(c, reply)), c, Replied(inputs, intent, DispatchFor(intent), reply), None, WithPut(w, c, intent))
  {}

  lemma Classifies(valid: Validity, s: System, c: CallId, inputs: Inputs, intent: Intent, reply: Reply, observation: Observation, w: World)
    requires HasEvery(inputs) && At(s, c, Replied(inputs, intent, DispatchFor(intent), reply), None, w)
    ensures At(Step(valid, s, Classify(c, observation)), c,
               Recording(true, inputs, intent, ExecuteResult(inputs, intent, DispatchFor(intent), reply, observation, w.clock)), None, w)
  {
    hide ExecuteResult;
  }

  lemma Stores(valid: Validity, s: System, c: CallId, inputs: Inputs, intent: Intent, r: MergeResult, w: World)
    requires At(s, c, Recording(true, inputs, intent, r), None, w) && intent.operationId !in w.dir.results && Loadable(valid, w.dir, intent.operationId)
    requires ResultValid(InputsOf(w.dir, intent.operationId), w.dir.intents[intent.operationId], DispatchOf(w.dir, intent.operationId), r)
    ensures At(Step(valid, Step(valid, s, AcquireRecord(c)), StoreResult(c)), c, Done, None, WithResult(w, c, intent.operationId, r))
  {
    hide ResultValid, InputsValid, InputsOf;
  }

  /** The world after a whole merge: the inputs, the intent, the dispatch, the PUT and the result. */
  function Merged(w: World, c: CallId, inputs: Inputs, intent: Intent, r: MergeResult): World
    requires HasEvery(inputs)
  {
    WithResult(WithPut(WithDispatch(WithIntent(Written(w, intent.operationId, inputs, 7), c, intent), c, intent), c, intent), c, intent.operationId, r)
  }

  lemma WrittenLoads(valid: Validity, w: World, c: CallId, inputs: Inputs, intent: Intent)
    requires InputsValid(valid, inputs, intent) && InputsFree(w.dir, intent.operationId, inputs)
    ensures var d := WithIntent(Written(w, intent.operationId, inputs, 7), c, intent).dir;
            Loadable(valid, d, intent.operationId) && InputsOf(d, intent.operationId) == inputs
  {
    var op := intent.operationId;
    WrittenStays(w, op, inputs, 7);
    var x := Written(w, op, inputs, 7);
    hide Written;
    forall l: Label ensures (op, l) in x.dir.inputs && x.dir.inputs[(op, l)] == inputs[l] {
      EveryLabelListed(l);
      var k :| 0 <= k < |InputFiles| && InputFiles[k] == l;
    }
    var d := WithIntent(x, c, intent).dir;
    assert InputsOf(d, op) == inputs;
  }

  /** Nothing is on disk for an operation without an intent but, perhaps, inputs. */
  lemma NothingBeyondIntents(valid: Validity, s: System, op: OperationId)
    requires Invariant(valid, s) && op !in s.world.dir.intents
    ensures op !in s.world.dir.results && op !in s.world.dir.dispatches
  {
    hide PhaseOk, InputsValid, PutsOk, ResultValid;
    assert op in s.world.dir.results ==> op in s.world.dir.intents;
  }

  /** What the steps of a merge find on the way. */
  lemma Allowed(valid: Validity, s: System, c: CallId, inputs: Inputs, intent: Intent, reply: Reply, observation: Observation)
    requires Invariant(valid, s) && InputsValid(valid, inputs, intent) && InputsFree(s.world.dir, intent.operationId, inputs)
    requires intent.operationId !in s.world.dir.intents && intent.startedAt == s.world.clock
    requires !(Credits(intent, DispatchFor(intent), reply, observation, s.world.clock) && ShapelessId(reply, observation))
    ensures var op, w1 := intent.operationId, WithIntent(Written(s.world, intent.operationId, inputs, 7), c, intent);
            var w3 := WithPut(WithDispatch(w1, c, intent), c, intent);
            && DispatchAllowed(valid, w1.dir, op, OfIntent(intent), intent.startedAt)
            && Loadable(valid, w3.dir, op) && op !in w3.dir.results && w3.clock == s.world.clock
            && ResultValid(InputsOf(w3.dir, op), w3.dir.intents[op], DispatchOf(w3.dir, op),
                           ExecuteResult(inputs, intent, DispatchFor(intent), reply, observation, w3.clock))
  {
    NothingBeyondIntents(valid, s, intent.operationId);
    WrittenLoads(valid, s.world, c, inputs, intent);
    WrittenStays(s.world, intent.operationId, inputs, 7);
    var w1 := WithIntent(Written(s.world, intent.operationId, inputs, 7), c, intent);
    var w3 := WithPut(WithDispatch(w1, c, intent), c, intent);
    hide Invariant, Credits, ShapelessId, ResultValid, ExecuteResult, Written, InputsFree;
    ExecuteResultValidExactly(inputs, intent, DispatchFor(intent), reply, observation, s.world.clock);
    assert InputsOf(w3.dir, intent.operationId) == inputs;
  }

  lemma Threads(valid: Validity, s: System, u: System, c: CallId, inputs: Inputs, intent: Intent, reply: Reply, observation: Observation)
    requires HasEvery(inputs) && InputsFree(s.world.dir, intent.operationId, inputs) && Leads(valid, s, u)
    requires At(u, c, Claiming(inputs, intent, true, 7), Some(c), Written(s.world, intent.operationId, inputs, 7))
    requires var op, w1 := intent.operationId, WithIntent(Written(s.world, intent.operationId, inputs, 7), c, intent);
             var w3 := WithPut(WithDispatch(w1, c, intent), c, intent);
             && DispatchAllowed(valid, w1.dir, op, OfIntent(intent), intent.startedAt)
             && Loadable(valid, w3.dir, op) && op !in w3.dir.results && w3.clock == s.world.clock
             && ResultValid(InputsOf(w3.dir, op), w3.dir.intents[op], DispatchOf(w3.dir, op),
                            ExecuteResult(inputs, intent, DispatchFor(intent), reply, observation, w3.clock))
    ensures exists t :: Leads(valid, s, t)
              && At(t, c, Done, None, Merged(s.world, c, inputs, intent, ExecuteResult(inputs, intent, DispatchFor(intent), reply, observation, s.world.clock)))
  {
    hide At, Leads, Step, Written, WithIntent, WithDispatch, WithPut, WithResult, DispatchAllowed, Loadable, ResultValid, ExecuteResult, InputsFree;
    var w0 := Written(s.world, intent.operationId, inputs, 7);
    var w1 := WithIntent(w0, c, intent);
    var w2 := WithDispatch(w1, c, intent);
    var w3 := WithPut(w2, c, intent);
    var r := ExecuteResult(inputs, intent, DispatchFor(intent), reply, observation, w3.clock);
    var s1 := Step(valid, u, WriteIntent(c));
    LeadsOn(valid, s, u, WriteIntent(c));
    Creates(valid, u, c, inputs, intent, w0);
    var s2 := Step(valid, s1, AcquireDispatch(c));
    LeadsOn(valid, s, s1, AcquireDispatch(c));
    var s3 := Step(valid, s2, MarkDispatch(c));
    LeadsOn(valid, s, s2, MarkDispatch(c));
    Dispatches(valid, s1, c, inputs, intent, w1);
    var s4 := Step(valid, s3, SendPut(c));
    LeadsOn(valid, s, s3, SendPut(c));
    var s5 := Step(valid, s4, ReceiveReply(c, reply));
    LeadsOn(valid, s, s4, ReceiveReply(c, reply));
    Sends(valid, s3, c, inputs, intent, reply, w2);
    var s6 := Step(valid, s5, Classify(c, observation));
    LeadsOn(valid, s, s5, Classify(c, observation));
    Classifies(valid, s5, c, inputs, intent, reply, observation, w3);
    var s7 := Step(valid, s6, AcquireRecord(c));
    LeadsOn(valid, s, s6, AcquireRecord(c));
    LeadsOn(valid, s, s7, StoreResult(c));
    Stores(valid, s6, c, inputs, intent, r, w3);
  }

  lemma AtMeans(s: System, c: CallId, ph: Phase, lock: Option<CallId>, w: World)
    requires At(s, c, ph, lock, w)
    ensures s.world == w && s.lock == lock
  {}

  lemma MergedIs(w: World, c: CallId, inputs: Inputs, intent: Intent, r: MergeResult)
    requires HasEvery(inputs) && InputsFree(w.dir, intent.operationId, inputs)
    ensures var m := Merged(w, c, inputs, intent, r);
            && m.puts == w.puts + [Put(c, intent.operationId, intent.bindings)] && intent.operationId in m.dir.results
            && m.dir.results[intent.operationId] == r
  {
    WrittenStays(w, intent.operationId, inputs, 7);
    hide Written;
  }

  /**
    From any reachable state with the lock free, a new `execute` of a fresh operation with sound inputs
    whose keys nothing on disk has spent can go through: it sends one PUT, and records what that comes
    to, unless it would credit the merge with a request id that the schema does not admit.
  */
  lemma MergesFromAnywhere(valid: Validity, before: seq<Action>, c: CallId, inputs: Inputs, intent: Intent, reply: Reply, observation: Observation)
    requires var s := Run(valid, Start, before);
             && c !in s.calls && s.lock == None && intent.operationId !in s.world.dir.intents && intent.startedAt == s.world.clock
             && SoundInputs(valid, inputs, intent) && InputsFree(s.world.dir, intent.operationId, inputs)
             && (forall op :: op in s.world.dir.intents ==> !Respends(s.world.dir.intents[op].bindings, intent.bindings))
             && !(Credits(intent, Dispatch(intent.operationId, OfIntent(intent), intent.startedAt), reply, observation, s.world.clock)
                  && ShapelessId(reply, observation))
    ensures HasEvery(inputs)
    ensures var s := Run(valid, Start, before);
            exists t :: && Leads(valid, s, t) && t.lock == None
                        && t.world.puts == s.world.puts + [Put(c, intent.operationId, intent.bindings)]
                        && intent.operationId in t.world.dir.results
                        && t.world.dir.results[intent.operationId]
                           == ExecuteResult(inputs, intent, Dispatch(intent.operationId, OfIntent(intent), intent.startedAt), reply, observation, s.world.clock)
  {
    hide Run, Step, Invariant, Credits, ShapelessId, ExecuteResult, SoundInputs, InputsFree, Leads, At, ResultValid, Loadable, DispatchAllowed, Written;
    RunKeepsInvariant(valid, before);
    SoundInputsExactly(valid, inputs, intent);
    var s := Run(valid, Start, before);
    Enters(valid, s, c, inputs, intent);
    LeadsNowhere(valid, s);
    LeadsOn(valid, s, s, StartExecute(c, inputs, intent));
    LeadsOn(valid, s, Step(valid, s, StartExecute(c, inputs, intent)), AcquireClaim(c));
    WritesInputs(valid, s, c, inputs, intent, 7, Step(valid, Step(valid, s, StartExecute(c, inputs, intent)), AcquireClaim(c)), s.world);
    var u :| Leads(valid, s, u) && At(u, c, Claiming(inputs, intent, true, 7), Some(c), Written(s.world, intent.operationId, inputs, 7));
    Allowed(valid, s, c, inputs, intent, reply, observation);
    Threads(valid, s, u, c, inputs, intent, reply, observation);
    var r := ExecuteResult(inputs, intent, DispatchFor(intent), reply, observation, s.world.clock);
    var t :| Leads(valid, s, t) && At(t, c, Done, None, Merged(s.world, c, inputs, intent, r));
    AtMeans(t, c, Done, None, Merged(s.world, c, inputs, intent, r));
    MergedIs(s.world, c, inputs, intent, r);
  }
}
