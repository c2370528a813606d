/** Safety of the merge protocol in every reachable state of every run. */
module MergeProtocolLaws {
  import opened Wrappers
  import opened MergeDocuments
  import opened MergeExecutor
  import opened MergeProtocol

  // ---------------------------------------------------------------- the invariant

  /** The phases entered under the journal lock. */
  predicate Holds(ph: Phase) {
    ph.Claiming? || ph.Dispatching? || ph.Marked? || ph.Sent? || ph.Storing?
  }

  ghost predicate Stored(valid: Validity, d: Directory, inputs: Inputs, intent: Intent) {
    var op := intent.operationId;
    op in d.intents && d.intents[op] == intent && Loadable(valid, d, op) && InputsOf(d, op) == inputs
  }

  ghost predicate By(writers: map<OperationId, CallId>, c: CallId, op: OperationId) { op in writers && writers[op] == c }

  ghost predicate NoPut(puts: seq<Put>, op: OperationId) {
    forall i :: 0 <= i < |puts| ==> puts[i].operationId != op
  }

  ghost predicate ClaimingOk(valid: Validity, d: Directory, clock: int, inputs: Inputs, intent: Intent, created: bool, next: nat) {
    && InputsValid(valid, inputs, intent) && intent.startedAt <= clock && next <= |InputFiles|
    && (created ==> intent.operationId !in d.intents && Unspent(d, intent))
    && forall k :: 0 <= k < next ==> var key := (intent.operationId, InputFiles[k]);
                                     key in d.inputs && d.inputs[key] == inputs[InputFiles[k]]
  }

  /** The creator of the intent, before its dispatch is durable. */
  ghost predicate ClaimOk(d: Directory, creators: map<OperationId, CallId>, c: CallId, op: OperationId) {
    By(creators, c, op) && op !in d.dispatches
  }

  ghost predicate SentOk(d: Directory, dispatchers: map<OperationId, CallId>, c: CallId, op: OperationId, dispatch: Dispatch) {
    By(dispatchers, c, op) && DispatchOf(d, op) == Some(dispatch)
  }

  /** What a reconciler saw of the dispatch record is still there. */
  ghost predicate SeenOk(d: Directory, op: OperationId, seen: Option<Dispatch>) {
    seen.Some? ==> DispatchOf(d, op) == seen
  }

  /** Only the call that dispatched may carry a merged result. */
  ghost predicate MayRecord(dispatchers: map<OperationId, CallId>, c: CallId, executor: bool, op: OperationId, result: MergeResult) {
    if executor then By(dispatchers, c, op) else result.outcome != OutMerged
  }

  /** An executor's result passes the journal's validation exactly when its request ids have the schema's shape. */
  ghost predicate PassesIfShaped(d: Directory, inputs: Inputs, intent: Intent, result: MergeResult) {
    && intent.operationId in d.dispatches
    && (ResultValid(inputs, intent, DispatchOf(d, intent.operationId), result) <==> (result.proof.Some? ==> Shaped(result.proof.value.requestIds)))
  }

  /** What the world owes a call in the given phase; it does not depend on the lock or other calls. */
  ghost predicate PhaseOk(valid: Validity, w: World, c: CallId, ph: Phase) {
    match ph
    case Executing(inputs, intent) => InputsValid(valid, inputs, intent) && intent.startedAt <= w.clock
    case Claiming(inputs, intent, created, next) => ClaimingOk(valid, w.dir, w.clock, inputs, intent, created, next)
    case Done => true
    case Dead => true
    case _ => Stored(valid, w.dir, ph.inputs, ph.intent) && OperationOk(w, c, ph)
  }

  ghost predicate OperationOk(w: World, c: CallId, ph: Phase)
    requires !ph.Executing? && !ph.Claiming? && !ph.Done? && !ph.Dead?
  {
    var op := ph.intent.operationId;
    match ph
    case Claimed(_, _) => ClaimOk(w.dir, w.creators, c, op)
    case Dispatching(_, _) => ClaimOk(w.dir, w.creators, c, op) && op !in w.dir.results
    case Marked(_, _, dispatch) => SentOk(w.dir, w.dispatchers, c, op, dispatch) && NoPut(w.puts, op) && op !in w.dir.results
    case Sent(_, _, dispatch) => SentOk(w.dir, w.dispatchers, c, op, dispatch)
    case Replied(_, _, dispatch, _) => SentOk(w.dir, w.dispatchers, c, op, dispatch)
    case Reading(_, _, seen) => SeenOk(w.dir, op, seen)
    case Observing(_, _, seen) => SeenOk(w.dir, op, seen)
    case Recording(executor, inputs, intent, result) =>
      MayRecord(w.dispatchers, c, executor, op, result) && (executor ==> PassesIfShaped(w.dir, inputs, intent, result))
    case Storing(executor, inputs, intent, result) =>
      MayRecord(w.dispatchers, c, executor, op, result) && ResultValid(inputs, intent, DispatchOf(w.dir, op), result)
  }

  ghost predicate CallOk(valid: Validity, s: System, c: CallId, ph: Phase) {
    (Holds(ph) ==> s.lock == Some(c)) && PhaseOk(valid, s.world, c, ph)
  }

  ghost predicate IntentsOk(valid: Validity, w: World) {
    && (forall op :: op in w.dir.intents ==>
          w.dir.intents[op].operationId == op && op in w.creators && Loadable(valid, w.dir, op) && w.dir.intents[op].startedAt <= w.clock)
    && w.creators.Keys <= w.dir.intents.Keys
    && (forall a, b :: a in w.dir.intents && b in w.dir.intents && a != b ==> !SharesKey(w.dir.intents[a].bindings, w.dir.intents[b].bindings))
  }

  ghost predicate DispatchesOk(w: World) {
    && w.dispatchers.Keys <= w.dir.dispatches.Keys
    && forall op :: op in w.dir.dispatches ==>
      && op in w.dir.intents && op in w.dispatchers
      && w.dir.dispatches[op] == Dispatch(op, OfIntent(w.dir.intents[op]), w.dir.intents[op].startedAt)
  }

  ghost predicate ResultOk(w: World, op: OperationId)
    requires op in w.dir.results
  {
    && op in w.dir.intents && op in w.recorders && InputsPresent(w.dir, op)
    && ResultValid(InputsOf(w.dir, op), w.dir.intents[op], DispatchOf(w.dir, op), w.dir.results[op])
    && (w.dir.results[op].outcome == OutMerged ==> By(w.dispatchers, w.recorders[op], op))
  }

  ghost predicate ResultsOk(w: World) { forall op :: op in w.dir.results ==> ResultOk(w, op) }

  ghost predicate PutsOk(w: World) {
    && (forall i :: 0 <= i < |w.puts| ==>
          var put := w.puts[i];
          && put.operationId in w.dir.dispatches && By(w.dispatchers, put.call, put.operationId)
          && put.operationId in w.dir.intents && put.bindings == w.dir.intents[put.operationId].bindings)
    && (forall i, j :: 0 <= i < j < |w.puts| ==> w.puts[i].operationId != w.puts[j].operationId)
  }

  ghost predicate WorldOk(valid: Validity, w: World) {
    IntentsOk(valid, w) && DispatchesOk(w) && ResultsOk(w) && PutsOk(w)
  }

  ghost predicate Invariant(valid: Validity, s: System) {
    && WorldOk(valid, s.world)
    && forall c :: c in s.calls ==> CallOk(valid, s, c, s.calls[c])
  }

  // ---------------------------------------------------------------- what one call's step leaves alone

  /** Files are only added, and a dispatch only for an operation `c` created. */
  ghost predicate Evolves(w: World, w': World, c: CallId) {
    && w.clock <= w'.clock
    && (forall k :: k in w.dir.inputs ==> k in w'.dir.inputs && w'.dir.inputs[k] == w.dir.inputs[k])
    && (forall op :: op in w.dir.intents ==> op in w'.dir.intents && w'.dir.intents[op] == w.dir.intents[op])
    && (forall op :: op in w.dir.dispatches ==> op in w'.dir.dispatches && w'.dir.dispatches[op] == w.dir.dispatches[op])
    && (forall op :: op in w'.dir.dispatches && op !in w.dir.dispatches ==> By(w.creators, c, op))
    && (forall op :: op in w.creators ==> op in w'.creators && w'.creators[op] == w.creators[op])
    && (forall op :: op in w.dispatchers ==> op in w'.dispatchers && w'.dispatchers[op] == w.dispatchers[op])
  }

  lemma LoadableStays(valid: Validity, w: World, w': World, c: CallId, op: OperationId)
    requires Evolves(w, w', c) && Loadable(valid, w.dir, op)
    ensures Loadable(valid, w'.dir, op) && InputsOf(w'.dir, op) == InputsOf(w.dir, op)
  {
    assert InputsOf(w'.dir, op) == InputsOf(w.dir, op);
  }

  lemma IntentsStayOk(valid: Validity, w: World, w': World, c: CallId)
    requires IntentsOk(valid, w) && Evolves(w, w', c)
    requires w'.dir.intents == w.dir.intents && w'.creators == w.creators
    ensures IntentsOk(valid, w')
  {
    forall op | op in w'.dir.intents
      ensures Loadable(valid, w'.dir, op)
    {
      LoadableStays(valid, w, w', c, op);
    }
  }

  /** Results recorded earlier stay valid as long as their operation gains no dispatch. */
  lemma ResultsStayOk(valid: Validity, w: World, w': World, c: CallId)
    requires IntentsOk(valid, w) && ResultsOk(w) && Evolves(w, w', c)
    requires w'.dir.results == w.dir.results && w'.recorders == w.recorders
    requires forall op :: op in w.dir.results && op in w'.dir.dispatches ==> op in w.dir.dispatches
    ensures ResultsOk(w')
  {
    forall op | op in w'.dir.results
      ensures ResultOk(w', op)
    {
      assert ResultOk(w, op);
      LoadableStays(valid, w, w', c, op);
    }
  }

  /** A phase that is not under the lock survives any other call's writes. */
  lemma UnlockedPhaseStaysOk(valid: Validity, w: World, w': World, c: CallId, other: CallId, ph: Phase)
    requires Evolves(w, w', c) && other != c && !Holds(ph)
    requires PhaseOk(valid, w, other, ph)
    ensures PhaseOk(valid, w', other, ph)
  {
    if !ph.Executing? && !ph.Done? && !ph.Dead? { LoadableStays(valid, w, w', c, ph.intent.operationId); }
  }

  /** A step by `c` that writes: only possible while no other call holds the lock. */
  lemma WritingStep(valid: Validity, s: System, s': System, c: CallId)
    requires Invariant(valid, s) && Evolves(s.world, s'.world, c)
    requires s.lock.None? || s.lock == Some(c)
    requires c in s'.calls && s'.calls == s.calls[c := s'.calls[c]]
    requires WorldOk(valid, s'.world) && CallOk(valid, s', c, s'.calls[c])
    ensures Invariant(valid, s')
  {
    forall other | other in s'.calls
      ensures CallOk(valid, s', other, s'.calls[other])
    {
      if other != c {
        assert CallOk(valid, s, other, s.calls[other]);
        UnlockedPhaseStaysOk(valid, s.world, s'.world, c, other, s.calls[other]);
      }
    }
  }

  /** A step that changes only `c`'s phase and possibly the lock. */
  lemma QuietStep(valid: Validity, s: System, s': System, c: CallId)
    requires Invariant(valid, s)
    requires s'.world == s.world
    requires c in s'.calls && s'.calls == s.calls[c := s'.calls[c]]
    requires s.lock.Some? && s.lock != Some(c) ==> s'.lock == s.lock
    requires CallOk(valid, s', c, s'.calls[c])
    ensures Invariant(valid, s')
  {
    forall other | other in s'.calls
      ensures CallOk(valid, s', other, s'.calls[other])
    {
      if other != c { assert CallOk(valid, s, other, s.calls[other]); }
    }
  }

  lemma FinishKeeps(valid: Validity, s: System, c: CallId)
    requires Invariant(valid, s)
    ensures Invariant(valid, Finish(s, c))
  {
    QuietStep(valid, s, Finish(s, c), c);
  }

  // ---------------------------------------------------------------- claiming

  lemma StartExecuteKeeps(valid: Validity, s: System, c: CallId, inputs: Inputs, intent: Intent)
    requires Invariant(valid, s)
    ensures Invariant(valid, StartExecuteStep(valid, s, c, inputs, intent))
  {
    if !(c in s.calls || intent.operationId in s.world.dir.intents || intent.startedAt != s.world.clock || !InputsValid(valid, inputs, intent)) {
      QuietStep(valid, s, StartExecuteStep(valid, s, c, inputs, intent), c);
    }
  }

  lemma AcquireClaimKeeps(valid: Validity, s: System, c: CallId)
    requires Invariant(valid, s)
    ensures Invariant(valid, AcquireClaimStep(s, c))
  {
    FinishKeeps(valid, s, c);
    if c in s.calls && s.calls[c].Executing? {
      assert CallOk(valid, s, c, s.calls[c]);
      if s.lock.None? { QuietStep(valid, s, AcquireClaimStep(s, c), c); }
    }
  }

  lemma WriteInputWorld(valid: Validity, w: World, c: CallId, key: (OperationId, Label), document: string)
    requires WorldOk(valid, w) && Writable(w.dir.inputs, key, document)
    ensures Evolves(w, WithInput(w, key, document), c) && WorldOk(valid, WithInput(w, key, document))
  {
    IntentsStayOk(valid, w, WithInput(w, key, document), c);
    ResultsStayOk(valid, w, WithInput(w, key, document), c);
  }

  lemma WriteInputKeeps(valid: Validity, s: System, c: CallId)
    requires Invariant(valid, s)
    ensures Invariant(valid, WriteInputStep(s, c))
  {
    FinishKeeps(valid, s, c);
    if c in s.calls && s.calls[c].Claiming? && s.calls[c].next < |InputFiles| {
      var ph := s.calls[c];
      var file := InputFiles[ph.next];
      assert CallOk(valid, s, c, ph);
      if Writable(s.world.dir.inputs, (ph.intent.operationId, file), ph.inputs[file]) {
        WriteInputWorld(valid, s.world, c, (ph.intent.operationId, file), ph.inputs[file]);
        WritingStep(valid, s, WriteInputStep(s, c), c);
      }
    }
  }

  /** All seven inputs written, the operation's inputs on disk are the call's own. */
  lemma WrittenInputs(d: Directory, op: OperationId, inputs: Inputs)
    requires HasEvery(inputs)
    requires forall k :: 0 <= k < |InputFiles| ==> (op, InputFiles[k]) in d.inputs && d.inputs[(op, InputFiles[k])] == inputs[InputFiles[k]]
    ensures InputsPresent(d, op) && InputsOf(d, op) == inputs
  {
    forall l: Label
      ensures (op, l) in d.inputs && d.inputs[(op, l)] == inputs[l]
    {
      EveryLabelListed(l);
    }
  }

  /** Adding an unspent intent keeps every pair of intents free of shared keys. */
  lemma UnspentIntentAdds(d: Directory, intent: Intent)
    requires intent.operationId !in d.intents && Unspent(d, intent)
    requires forall a, b :: a in d.intents && b in d.intents && a != b ==> !SharesKey(d.intents[a].bindings, d.intents[b].bindings)
    ensures var more := d.intents[intent.operationId := intent];
            forall a, b :: a in more && b in more && a != b ==> !SharesKey(more[a].bindings, more[b].bindings)
  {
    var more := d.intents[intent.operationId := intent];
    forall a, b | a in more && b in more && a != b
      ensures !SharesKey(more[a].bindings, more[b].bindings)
    {
      assert a != intent.operationId ==> !SharesKey(d.intents[a].bindings, intent.bindings);
      assert b != intent.operationId ==> !SharesKey(d.intents[b].bindings, intent.bindings);
    }
  }

  lemma WithIntentEvolves(w: World, c: CallId, intent: Intent)
    requires w.creators.Keys <= w.dir.intents.Keys && intent.operationId !in w.dir.intents
    ensures Evolves(w, WithIntent(w, c, intent), c)
  {}

  lemma WithIntentStored(valid: Validity, w: World, c: CallId, inputs: Inputs, intent: Intent)
    requires ClaimingOk(valid, w.dir, w.clock, inputs, intent, true, |InputFiles|)
    ensures Stored(valid, WithIntent(w, c, intent).dir, inputs, intent)
  {
    WrittenInputs(w.dir, intent.operationId, inputs);
    WrittenInputs(WithIntent(w, c, intent).dir, intent.operationId, inputs);
  }

  lemma WithIntentIntentsOk(valid: Validity, w: World, c: CallId, inputs: Inputs, intent: Intent)
    requires IntentsOk(valid, w)
    requires ClaimingOk(valid, w.dir, w.clock, inputs, intent, true, |InputFiles|)
    ensures IntentsOk(valid, WithIntent(w, c, intent))
  {
    var w' := WithIntent(w, c, intent);
    WithIntentEvolves(w, c, intent);
    WithIntentStored(valid, w, c, inputs, intent);
    UnspentIntentAdds(w.dir, intent);
    forall op | op in w'.dir.intents
      ensures w'.dir.intents[op].operationId == op && op in w'.creators && Loadable(valid, w'.dir, op) && w'.dir.intents[op].startedAt <= w'.clock
    {
      if op != intent.operationId { LoadableStays(valid, w, w', c, op); }
    }
  }

  lemma WriteIntentWorld(valid: Validity, w: World, c: CallId, inputs: Inputs, intent: Intent)
    requires WorldOk(valid, w)
    requires ClaimingOk(valid, w.dir, w.clock, inputs, intent, true, |InputFiles|)
    ensures var w' := WithIntent(w, c, intent);
            && Evolves(w, w', c) && WorldOk(valid, w') && Stored(valid, w'.dir, inputs, intent)
            && ClaimOk(w'.dir, w'.creators, c, intent.operationId)
  {
    WithIntentEvolves(w, c, intent);
    WithIntentStored(valid, w, c, inputs, intent);
    WithIntentIntentsOk(valid, w, c, inputs, intent);
    ResultsStayOk(valid, w, WithIntent(w, c, intent), c);
  }

  lemma WriteIntentKeeps(valid: Validity, s: System, c: CallId)
    requires Invariant(valid, s)
    ensures Invariant(valid, WriteIntentStep(s, c))
  {
    FinishKeeps(valid, s, c);
    if c in s.calls && s.calls[c].Claiming? && s.calls[c].next >= |InputFiles| && s.calls[c].created {
      var ph := s.calls[c];
      assert CallOk(valid, s, c, ph);
      WriteIntentWorld(valid, s.world, c, ph.inputs, ph.intent);
      WritingStep(valid, s, WriteIntentStep(s, c), c);
    }
  }

  // ---------------------------------------------------------------- dispatching

  lemma AcquireDispatchKeeps(valid: Validity, s: System, c: CallId)
    requires Invariant(valid, s)
    ensures Invariant(valid, AcquireDispatchStep(valid, s, c))
  {
    hide WorldOk, Loadable, ResultValid;
    FinishKeeps(valid, s, c);
    if c in s.calls && s.calls[c].Claimed? {
      assert CallOk(valid, s, c, s.calls[c]);
      if s.lock.None? { QuietStep(valid, s, AcquireDispatchStep(valid, s, c), c); }
    }
  }

  lemma WithDispatchEvolves(w: World, c: CallId, intent: Intent)
    requires DispatchesOk(w) && ClaimOk(w.dir, w.creators, c, intent.operationId)
    ensures Evolves(w, WithDispatch(w, c, intent), c)
  {}

  lemma WithDispatchDispatchesOk(w: World, c: CallId, intent: Intent)
    requires DispatchesOk(w) && intent.operationId in w.dir.intents && w.dir.intents[intent.operationId] == intent
    ensures DispatchesOk(WithDispatch(w, c, intent))
  {}

  lemma WithDispatchPutsOk(w: World, c: CallId, intent: Intent)
    requires PutsOk(w) && intent.operationId !in w.dir.dispatches
    ensures PutsOk(WithDispatch(w, c, intent)) && NoPut(w.puts, intent.operationId)
  {}

  lemma WithDispatchResultsOk(valid: Validity, w: World, c: CallId, intent: Intent)
    requires WorldOk(valid, w) && ClaimOk(w.dir, w.creators, c, intent.operationId)
    requires intent.operationId !in w.dir.results
    ensures ResultsOk(WithDispatch(w, c, intent))
  {
    WithDispatchEvolves(w, c, intent);
    ResultsStayOk(valid, w, WithDispatch(w, c, intent), c);
  }

  lemma WithDispatchStored(valid: Validity, w: World, c: CallId, inputs: Inputs, intent: Intent)
    requires WorldOk(valid, w) && ClaimOk(w.dir, w.creators, c, intent.operationId)
    requires Stored(valid, w.dir, inputs, intent)
    ensures IntentsOk(valid, WithDispatch(w, c, intent)) && Stored(valid, WithDispatch(w, c, intent).dir, inputs, intent)
  {
    WithDispatchEvolves(w, c, intent);
    IntentsStayOk(valid, w, WithDispatch(w, c, intent), c);
    LoadableStays(valid, w, WithDispatch(w, c, intent), c, intent.operationId);
  }

  lemma MarkDispatchWorld(valid: Validity, w: World, c: CallId, inputs: Inputs, intent: Intent)
    requires WorldOk(valid, w)
    requires Stored(valid, w.dir, inputs, intent) && ClaimOk(w.dir, w.creators, c, intent.operationId)
    requires intent.operationId !in w.dir.results
    ensures var w' := WithDispatch(w, c, intent);
            && Evolves(w, w', c) && WorldOk(valid, w') && Stored(valid, w'.dir, inputs, intent)
            && SentOk(w'.dir, w'.dispatchers, c, intent.operationId, DispatchFor(intent)) && NoPut(w'.puts, intent.operationId)
  {
    WithDispatchEvolves(w, c, intent);
    WithDispatchDispatchesOk(w, c, intent);
    WithDispatchPutsOk(w, c, intent);
    WithDispatchResultsOk(valid, w, c, intent);
    WithDispatchStored(valid, w, c, inputs, intent);
    hide IntentsOk, DispatchesOk, ResultsOk, PutsOk, Evolves, NoPut, Loadable;
  }

  lemma MarkDispatchKeeps(valid: Validity, s: System, c: CallId)
    requires Invariant(valid, s)
    ensures Invariant(valid, MarkDispatchStep(s, c))
  {
    if c in s.calls && s.calls[c].Dispatching? {
      var ph := s.calls[c];
      assert CallOk(valid, s, c, ph);
      MarkDispatchWorld(valid, s.world, c, ph.inputs, ph.intent);
      WritingStep(valid, s, MarkDispatchStep(s, c), c);
    }
  }

  lemma WithPutPutsOk(w: World, c: CallId, intent: Intent)
    requires PutsOk(w) && w.dispatchers.Keys <= w.dir.dispatches.Keys
    requires intent.operationId in w.dir.intents && w.dir.intents[intent.operationId] == intent
    requires By(w.dispatchers, c, intent.operationId) && NoPut(w.puts, intent.operationId)
    ensures PutsOk(WithPut(w, c, intent))
  {}

  /** Nothing but the log of PUTs changes. */
  lemma WithPutKeepsFiles(valid: Validity, w: World, c: CallId, intent: Intent)
    requires IntentsOk(valid, w) && DispatchesOk(w) && ResultsOk(w)
    ensures var w' := WithPut(w, c, intent);
            Evolves(w, w', c) && IntentsOk(valid, w') && DispatchesOk(w') && ResultsOk(w')
  {
    hide Loadable, SharesKey, ResultValid;
    var w' := WithPut(w, c, intent);
    assert IntentsOk(valid, w');
    forall op | op in w'.dir.results
      ensures ResultOk(w', op)
    {
      assert ResultOk(w, op);
    }
  }

  lemma SendPutWorld(valid: Validity, w: World, c: CallId, intent: Intent)
    requires WorldOk(valid, w)
    requires intent.operationId in w.dir.intents && w.dir.intents[intent.operationId] == intent
    requires By(w.dispatchers, c, intent.operationId) && NoPut(w.puts, intent.operationId)
    ensures Evolves(w, WithPut(w, c, intent), c) && WorldOk(valid, WithPut(w, c, intent))
  {
    WithPutPutsOk(w, c, intent);
    WithPutKeepsFiles(valid, w, c, intent);
    hide PutsOk, IntentsOk, ResultsOk, DispatchesOk, Evolves;
  }

  lemma SendPutKeeps(valid: Validity, s: System, c: CallId)
    requires Invariant(valid, s)
    ensures Invariant(valid, SendPutStep(s, c))
  {
    if c in s.calls && s.calls[c].Marked? {
      var ph := s.calls[c];
      assert CallOk(valid, s, c, ph);
      SendPutWorld(valid, s.world, c, ph.intent);
      WritingStep(valid, s, SendPutStep(s, c), c);
    }
  }

  lemma LoseBeforePutKeeps(valid: Validity, s: System, c: CallId)
    requires Invariant(valid, s)
    ensures Invariant(valid, LoseBeforePutStep(s, c))
  {
    if c in s.calls && s.calls[c].Marked? {
      assert CallOk(valid, s, c, s.calls[c]);
      QuietStep(valid, s, LoseBeforePutStep(s, c), c);
    }
  }

  lemma ReceiveReplyKeeps(valid: Validity, s: System, c: CallId, reply: Reply)
    requires Invariant(valid, s)
    ensures Invariant(valid, ReceiveReplyStep(s, c, reply))
  {
    hide WorldOk, Loadable, ResultValid;
    if c in s.calls && s.calls[c].Sent? {
      assert CallOk(valid, s, c, s.calls[c]);
      QuietStep(valid, s, ReceiveReplyStep(s, c, reply), c);
    }
  }

  /** The clock has not run backwards since the dispatch, so the result can only fail on its request ids. */
  lemma ClassifiedPasses(valid: Validity, w: World, c: CallId, inputs: Inputs, intent: Intent, dispatch: Dispatch,
                         reply: Reply, observation: Observation)
    requires IntentsOk(valid, w) && DispatchesOk(w)
    requires Stored(valid, w.dir, inputs, intent) && SentOk(w.dir, w.dispatchers, c, intent.operationId, dispatch)
    ensures HasEvery(inputs)
    ensures PassesIfShaped(w.dir, inputs, intent, ExecuteResult(inputs, intent, dispatch, reply, observation, w.clock))
  {
    hide ResultValid, ExecuteResult;
    assert Dispatched(inputs, intent, dispatch);
    ResultValidIfShaped(inputs, intent, dispatch, reply, observation, w.clock);
  }

  lemma ClassifyKeeps(valid: Validity, s: System, c: CallId, observation: Observation)
    requires Invariant(valid, s)
    ensures Invariant(valid, ClassifyStep(s, c, observation))
  {
    hide Loadable, ResultValid, ExecuteResult, PassesIfShaped, IntentsOk, DispatchesOk, ResultsOk, PutsOk;
    if c in s.calls && s.calls[c].Replied? && HasEvery(s.calls[c].inputs) {
      var ph := s.calls[c];
      assert CallOk(valid, s, c, ph);
      ClassifiedPasses(valid, s.world, c, ph.inputs, ph.intent, ph.dispatch, ph.reply, observation);
      hide WorldOk, Stored, InputsValid;
      QuietStep(valid, s, ClassifyStep(s, c, observation), c);
    }
  }

  // ---------------------------------------------------------------- reconciling and recording

  lemma StartReconcileKeeps(valid: Validity, s: System, c: CallId, op: OperationId)
    requires Invariant(valid, s)
    ensures Invariant(valid, StartReconcileStep(valid, s, c, op))
  {
    if c !in s.calls && Loadable(valid, s.world.dir, op) { QuietStep(valid, s, StartReconcileStep(valid, s, c, op), c); }
  }

  lemma ReadResultKeeps(valid: Validity, s: System, c: CallId)
    requires Invariant(valid, s)
    ensures Invariant(valid, ReadResultStep(s, c))
  {
    FinishKeeps(valid, s, c);
    if c in s.calls && s.calls[c].Reading? {
      assert CallOk(valid, s, c, s.calls[c]);
      if s.calls[c].intent.operationId !in s.world.dir.results { QuietStep(valid, s, ReadResultStep(s, c), c); }
    }
  }

  lemma BuildReconcileKeeps(valid: Validity, s: System, c: CallId)
    requires Invariant(valid, s)
    ensures Invariant(valid, BuildReconcileStep(s, c))
  {
    if c in s.calls && s.calls[c].Observing? && HasEvery(s.calls[c].inputs) {
      assert CallOk(valid, s, c, s.calls[c]);
      QuietStep(valid, s, BuildReconcileStep(s, c), c);
    }
  }

  lemma AcquireRecordKeeps(valid: Validity, s: System, c: CallId)
    requires Invariant(valid, s)
    ensures Invariant(valid, AcquireRecordStep(valid, s, c))
  {
    hide ResultValid, WorldOk, Loadable;
    FinishKeeps(valid, s, c);
    if c in s.calls && s.calls[c].Recording? {
      assert CallOk(valid, s, c, s.calls[c]);
      if s.lock.None? { QuietStep(valid, s, AcquireRecordStep(valid, s, c), c); }
    }
  }

  lemma WithResultEvolves(w: World, c: CallId, op: OperationId, result: MergeResult)
    requires DispatchesOk(w)
    ensures Evolves(w, WithResult(w, c, op, result), c)
    ensures DispatchesOk(WithResult(w, c, op, result))
  {}

  lemma WithResultOk(valid: Validity, w: World, c: CallId, executor: bool, inputs: Inputs, intent: Intent, result: MergeResult)
    requires Stored(valid, w.dir, inputs, intent) && MayRecord(w.dispatchers, c, executor, intent.operationId, result)
    requires ResultValid(inputs, intent, DispatchOf(w.dir, intent.operationId), result)
    ensures ResultOk(WithResult(w, c, intent.operationId, result), intent.operationId)
  {
    hide ResultValid, InputsValid;
  }

  lemma WithResultOtherOk(w: World, c: CallId, op: OperationId, result: MergeResult, other: OperationId)
    requires other in w.dir.results && ResultOk(w, other) && other != op
    ensures ResultOk(WithResult(w, c, op, result), other)
  {
    hide ResultValid;
  }

  lemma WithResultResultsOk(valid: Validity, w: World, c: CallId, executor: bool, inputs: Inputs, intent: Intent, result: MergeResult)
    requires ResultsOk(w)
    requires Stored(valid, w.dir, inputs, intent) && MayRecord(w.dispatchers, c, executor, intent.operationId, result)
    requires ResultValid(inputs, intent, DispatchOf(w.dir, intent.operationId), result)
    ensures ResultsOk(WithResult(w, c, intent.operationId, result))
  {
    WithResultOk(valid, w, c, executor, inputs, intent, result);
    hide ResultValid, InputsValid, Stored, ResultOk, MayRecord;
    forall r | r in w.dir.results && r != intent.operationId
      ensures ResultOk(WithResult(w, c, intent.operationId, result), r)
    {
      WithResultOtherOk(w, c, intent.operationId, result, r);
    }
  }

  lemma StoreResultWorld(valid: Validity, w: World, c: CallId, executor: bool, inputs: Inputs, intent: Intent, result: MergeResult)
    requires WorldOk(valid, w)
    requires Stored(valid, w.dir, inputs, intent) && MayRecord(w.dispatchers, c, executor, intent.operationId, result)
    requires ResultValid(inputs, intent, DispatchOf(w.dir, intent.operationId), result)
    ensures var w' := WithResult(w, c, intent.operationId, result);
            Evolves(w, w', c) && WorldOk(valid, w')
  {
    WithResultResultsOk(valid, w, c, executor, inputs, intent, result);
    WithResultEvolves(w, c, intent.operationId, result);
    hide ResultValid, Stored, ResultsOk, Evolves, DispatchesOk, IntentsOk, MayRecord;
    IntentsStayOk(valid, w, WithResult(w, c, intent.operationId, result), c);
  }

  lemma StoreResultKeeps(valid: Validity, s: System, c: CallId)
    requires Invariant(valid, s)
    ensures Invariant(valid, StoreResultStep(s, c))
  {
    FinishKeeps(valid, s, c);
    if c in s.calls && s.calls[c].Storing? && s.calls[c].intent.operationId !in s.world.dir.results {
      var ph := s.calls[c];
      assert CallOk(valid, s, c, ph);
      StoreResultWorld(valid, s.world, c, ph.executor, ph.inputs, ph.intent, ph.result);
      WritingStep(valid, s, StoreResultStep(s, c), c);
    }
  }

  // ---------------------------------------------------------------- every step, every run

  lemma TickWorld(valid: Validity, w: World, elapsed: nat)
    requires WorldOk(valid, w)
    ensures WorldOk(valid, w.(clock := w.clock + elapsed))
  {
    IntentsStayOk(valid, w, w.(clock := w.clock + elapsed), 0);
    ResultsStayOk(valid, w, w.(clock := w.clock + elapsed), 0);
  }

  lemma TickPhase(valid: Validity, w: World, c: CallId, ph: Phase, elapsed: nat)
    requires PhaseOk(valid, w, c, ph)
    ensures PhaseOk(valid, w.(clock := w.clock + elapsed), c, ph)
  {}

  lemma TickKeeps(valid: Validity, s: System, elapsed: nat)
    requires Invariant(valid, s)
    ensures Invariant(valid, Step(valid, s, Tick(elapsed)))
  {
    hide PhaseOk, WorldOk;
    var s' := s.(world := s.world.(clock := s.world.clock + elapsed));
    TickWorld(valid, s.world, elapsed);
    forall c | c in s.calls
      ensures CallOk(valid, s', c, s.calls[c])
    {
      assert CallOk(valid, s, c, s.calls[c]);
      TickPhase(valid, s.world, c, s.calls[c], elapsed);
    }
    assert Step(valid, s, Tick(elapsed)) == s';
  }

  lemma EnvironmentKeeps(valid: Validity, s: System, a: Action)
    requires Invariant(valid, s)
    requires a.Fail? || a.Kill? || a.ClearDeadLock? || a.Tick?
    ensures Invariant(valid, Step(valid, s, a))
  {
    match a
    case Fail(c) => FinishKeeps(valid, s, c);
    case Kill(c) => if c in s.calls && !s.calls[c].Done? { QuietStep(valid, s, Goto(s, c, Dead), c); }
    case ClearDeadLock =>
      if s.lock.Some? && s.lock.value in s.calls && s.calls[s.lock.value].Dead? {
        QuietStep(valid, s, Step(valid, s, a), s.lock.value);
      }
    case Tick(elapsed) => TickKeeps(valid, s, elapsed);
  }

  lemma StepKeepsInvariant(valid: Validity, s: System, a: Action)
    requires Invariant(valid, s)
    ensures Invariant(valid, Step(valid, s, a))
  {
    hide Invariant;
    match a
    case StartExecute(c, inputs, intent) => StartExecuteKeeps(valid, s, c, inputs, intent);
    case AcquireClaim(c) => AcquireClaimKeeps(valid, s, c);
    case WriteInput(c) => WriteInputKeeps(valid, s, c);
    case WriteIntent(c) => WriteIntentKeeps(valid, s, c);
    case AcquireDispatch(c) => AcquireDispatchKeeps(valid, s, c);
    case MarkDispatch(c) => MarkDispatchKeeps(valid, s, c);
    case SendPut(c) => SendPutKeeps(valid, s, c);
    case LoseBeforePut(c) => LoseBeforePutKeeps(valid, s, c);
    case ReceiveReply(c, reply) => ReceiveReplyKeeps(valid, s, c, reply);
    case Classify(c, observation) => ClassifyKeeps(valid, s, c, observation);
    case StartReconcile(c, op) => StartReconcileKeeps(valid, s, c, op);
    case ReadResult(c) => ReadResultKeeps(valid, s, c);
    case BuildReconcile(c) => BuildReconcileKeeps(valid, s, c);
    case AcquireRecord(c) => AcquireRecordKeeps(valid, s, c);
    case StoreResult(c) => StoreResultKeeps(valid, s, c);
    case _ => EnvironmentKeeps(valid, s, a);
  }

  lemma {:induction false} RunKeepsInvariant(valid: Validity, actions: seq<Action>)
    ensures Invariant(valid, Run(valid, Start, actions))
  {
    if |actions| > 0 {
      RunKeepsInvariant(valid, actions[..|actions| - 1]);
      StepKeepsInvariant(valid, Run(valid, Start, actions[..|actions| - 1]), actions[|actions| - 1]);
    }
  }
}
