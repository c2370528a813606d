/**
  The journal object (pathfinder_core/merge_journal.py): a directory shared by every process and,
  in each process, the claims its own fresh intents earned.  Interleavings and interruptions are
  the subject of `MergeProtocol`; here each operation is proved against the same predicates.
*/
module MergeJournal {
  import opened Wrappers
  import opened MergeDocuments
  import opened MergeExecutor

  datatype JournalError =
    | LockHeld | InputsRejected | KeySpent | DifferentDocument | NotOwned | NotLoadable
    | ResultExists | DispatchExists | BadTimeline | NeverDispatched | BackendFailed | ResultRejected

  /** The process-local capability to dispatch; `dispatch_once` asks for the very object it handed out. */
  class IntentClaim {
    const operationId: OperationId
    const intentSha: IntentHash

    constructor (operationId: OperationId, intentSha: IntentHash)
      ensures this.operationId == operationId && this.intentSha == intentSha
    {
      this.operationId, this.intentSha := operationId, intentSha;
    }
  }

  /** The files on disk, with the lock file that guards them. */
  class SharedDirectory {
    var files: Directory
    var locked: bool

    constructor ()
      ensures files == EmptyDirectory && !locked
    {
      files, locked := EmptyDirectory, false;
    }
  }

  /**
    How often the merge backend calls the marker it is given, and what it then returns, if it returns.  A
    second call of the marker raises into the backend, which may let it pass (None) or swallow it.
  */
  datatype Backend = Backend(marks: nat, reply: Option<Response>)

  datatype Loaded = Pending(dispatch: Option<Dispatch>) | Terminal(dispatch: Option<Dispatch>, result: MergeResult)

  predicate InputsWritable(d: Directory, op: OperationId, inputs: Inputs)
    requires HasEvery(inputs)
  {
    forall l: Label :: Writable(d.inputs, (op, l), inputs[l])
  }

  /** The first `k` inputs, in the order they are written. */
  ghost predicate FirstWritten(before: Directory, after: Directory, op: OperationId, inputs: Inputs, k: nat)
    requires HasEvery(inputs) && k <= |InputFiles|
  {
    && after == before.(inputs := after.inputs)
    && (forall i :: 0 <= i < k ==> Writable(before.inputs, (op, InputFiles[i]), inputs[InputFiles[i]]))
    && (forall i :: 0 <= i < k ==> (op, InputFiles[i]) in after.inputs && after.inputs[(op, InputFiles[i])] == inputs[InputFiles[i]])
    && Extends(before, after, op, inputs)
  }

  ghost predicate Extends(before: Directory, after: Directory, op: OperationId, inputs: Inputs)
    requires HasEvery(inputs)
  {
    && (forall key :: key in before.inputs ==> key in after.inputs && after.inputs[key] == before.inputs[key])
    && (forall key :: key in after.inputs && key !in before.inputs ==> key.0 == op && after.inputs[key] == inputs[key.1])
  }

  lemma OneMoreWritten(before: Directory, after: Directory, op: OperationId, inputs: Inputs, k: nat)
    requires HasEvery(inputs) && k < |InputFiles| && FirstWritten(before, after, op, inputs, k)
    requires Writable(after.inputs, (op, InputFiles[k]), inputs[InputFiles[k]])
    ensures FirstWritten(before, after.(inputs := after.inputs[(op, InputFiles[k]) := inputs[InputFiles[k]]]), op, inputs, k + 1)
  {}

  lemma EachWritten(before: Directory, after: Directory, op: OperationId, inputs: Inputs, l: Label)
    requires HasEvery(inputs) && FirstWritten(before, after, op, inputs, |InputFiles|)
    ensures Writable(before.inputs, (op, l), inputs[l]) && (op, l) in after.inputs && after.inputs[(op, l)] == inputs[l]
  {
    EveryLabelListed(l);
  }

  /** The inputs of one operation, all written; nothing else differs. */
  ghost predicate InputsAdded(before: Directory, after: Directory, op: OperationId, inputs: Inputs)
    requires HasEvery(inputs)
  {
    && after == before.(inputs := after.inputs) && Extends(before, after, op, inputs)
    && forall l: Label :: (op, l) in after.inputs && after.inputs[(op, l)] == inputs[l]
  }

  lemma AllWritten(before: Directory, after: Directory, op: OperationId, inputs: Inputs)
    requires HasEvery(inputs) && FirstWritten(before, after, op, inputs, |InputFiles|)
    ensures InputsWritable(before, op, inputs) && InputsAdded(before, after, op, inputs)
  {
    forall l: Label
      ensures Writable(before.inputs, (op, l), inputs[l])
      ensures (op, l) in after.inputs && after.inputs[(op, l)] == inputs[l]
    {
      EachWritten(before, after, op, inputs, l);
    }
  }

  class MergeOperationJournal {
    const shared: SharedDirectory
    const valid: (Inputs, Intent) -> bool
    var claims: map<OperationId, IntentClaim>

    constructor (shared: SharedDirectory, valid: (Inputs, Intent) -> bool)
      ensures this.shared == shared && this.valid == valid && claims == map[]
    {
      this.shared, this.valid, claims := shared, valid, map[];
    }

    /** Writes the seven inputs in order; a different document already there stops it midway. */
    method WriteInputs(op: OperationId, inputs: Inputs) returns (ok: bool)
      requires HasEvery(inputs)
      modifies shared`files
      ensures ok <==> InputsWritable(old(shared.files), op, inputs)
      ensures ok ==> InputsAdded(old(shared.files), shared.files, op, inputs)
      ensures shared.files == old(shared.files).(inputs := shared.files.inputs)
      ensures Extends(old(shared.files), shared.files, op, inputs)
    {
      ghost var before := shared.files;
      for k := 0 to |InputFiles|
        invariant FirstWritten(before, shared.files, op, inputs, k)
      {
        var file := InputFiles[k];
        if !Writable(shared.files.inputs, (op, file), inputs[file]) { return false; }
        OneMoreWritten(before, shared.files, op, inputs, k);
        shared.files := shared.files.(inputs := shared.files.inputs[(op, file) := inputs[file]]);
      }
      AllWritten(before, shared.files, op, inputs);
      ok := true;
    }

    /** Looks through every recorded intent for one that spent any of the three keys. */
    method AuthorizationUnspent(intent: Intent) returns (unspent: bool)
      ensures unspent <==> Unspent(shared.files, intent)
    {
      var remaining := shared.files.intents.Keys;
      while remaining != {}
        invariant remaining <= shared.files.intents.Keys
        invariant forall op :: op in shared.files.intents && op !in remaining && op != intent.operationId ==>
                    !SharesKey(shared.files.intents[op].bindings, intent.bindings)
        decreases |remaining|
      {
        var op :| op in remaining;
        if op != intent.operationId && SharesKey(shared.files.intents[op].bindings, intent.bindings) { return false; }
        remaining := remaining - {op};
      }
      unspent := true;
    }

    /** Records the inputs, then the intent; the flag says whether this call created the operation. */
    method RecordIntent(inputs: Inputs, intent: Intent) returns (r: Result<bool, JournalError>)
      modifies shared
      ensures shared.locked == old(shared.locked)
      ensures var d, op := old(shared.files), intent.operationId;
              r.Ok? <==>
                && InputsValid(valid, inputs, intent) && !old(shared.locked)
                && (op in d.intents ==> d.intents[op] == intent)
                && (op !in d.intents ==> Unspent(d, intent))
                && InputsWritable(d, op, inputs)
      ensures r.Ok? ==>
                && r.value == (intent.operationId !in old(shared.files).intents)
                && InputsAdded(old(shared.files), shared.files.(intents := old(shared.files).intents), intent.operationId, inputs)
                && shared.files.intents == old(shared.files).intents[intent.operationId := intent]
      ensures r.Err? ==> shared.files == old(shared.files).(inputs := shared.files.inputs)
    {
      if !InputsValid(valid, inputs, intent) { return Err(InputsRejected); }
      if shared.locked { return Err(LockHeld); }
      shared.locked := true;
      var op := intent.operationId;
      var created := op !in shared.files.intents;
      var unspent := true;
      if created { unspent := AuthorizationUnspent(intent); }
      if !unspent {
        r := Err(KeySpent);
      } else {
        var written := WriteInputs(op, inputs);
        if !written || !Writable(shared.files.intents, op, intent) {
          r := Err(DifferentDocument);
        } else {
          shared.files := shared.files.(intents := shared.files.intents[op := intent]);
          r := Ok(created);
        }
      }
      shared.locked := false;
    }

    /** A fresh claim, only for the call that created the intent. */
    method ClaimIntent(inputs: Inputs, intent: Intent) returns (r: Result<IntentClaim?, JournalError>)
      modifies this, shared
      ensures shared.locked == old(shared.locked)
      ensures r.Ok? && r.value != null <==> r.Ok? && intent.operationId !in old(shared.files).intents
      ensures r.Ok? && r.value != null ==>
                && fresh(r.value) && r.value.operationId == intent.operationId && r.value.intentSha == OfIntent(intent)
                && Unspent(old(shared.files), intent) && Loadable(valid, shared.files, intent.operationId)
                && shared.files.intents == old(shared.files).intents[intent.operationId := intent]
                && claims == old(claims)[intent.operationId := r.value]
      ensures !(r.Ok? && r.value != null) ==> claims == old(claims) && shared.files.intents == old(shared.files).intents
      ensures shared.files.dispatches == old(shared.files).dispatches && shared.files.results == old(shared.files).results
    {
      var recorded := RecordIntent(inputs, intent);
      if recorded.Err? { return Err(recorded.error); }
      if !recorded.value {
        assert shared.files.intents == old(shared.files).intents;
        return Ok(null);
      }
      var claim := new IntentClaim(intent.operationId, OfIntent(intent));
      claims := claims[intent.operationId := claim];
      assert InputsOf(shared.files, intent.operationId) == inputs;
      r := Ok(claim);
    }

    /**
      Dispatches under the lock.  The backend writes the marker at its last point before transport,
      once however often it asks; once it has been entered the claim is gone, whatever happened.
    */
    method DispatchOnce(claim: IntentClaim, startedAt: int, backend: Backend) returns (r: Result<(Dispatch, Response), JournalError>)
      modifies this, shared
      ensures shared.locked == old(shared.locked)
      ensures var op := claim.operationId;
              var entered := !old(shared.locked) && op in old(claims) && old(claims)[op] == claim
                             && DispatchAllowed(valid, old(shared.files), op, claim.intentSha, startedAt);
              && claims == (if entered then old(claims) - {op} else old(claims))
              && shared.files == (if entered && backend.marks > 0
                                  then old(shared.files).(dispatches := old(shared.files).dispatches[op := Dispatch(op, claim.intentSha, startedAt)])
                                  else old(shared.files))
              && (r.Ok? <==> entered && backend.marks > 0 && backend.reply.Some?)
              && (r.Ok? ==> r.value == (Dispatch(op, claim.intentSha, startedAt), backend.reply.value))
    {
      if shared.locked { return Err(LockHeld); }
      shared.locked := true;
      var op := claim.operationId;
      if op !in claims || claims[op] != claim {
        r := Err(NotOwned);
      } else if !Loadable(valid, shared.files, op) || claim.intentSha != OfIntent(shared.files.intents[op]) {
        r := Err(NotLoadable);
      } else if op in shared.files.results {
        r := Err(ResultExists);
      } else if startedAt < shared.files.intents[op].startedAt {
        r := Err(BadTimeline);
      } else if op in shared.files.dispatches {
        r := Err(DispatchExists);
      } else {
        var dispatch := Dispatch(op, claim.intentSha, startedAt);
        var recorded := Send(dispatch, backend);
        claims := claims - {op};
        r := if backend.reply.None? then Err(BackendFailed)
             else if recorded.None? then Err(NeverDispatched)
             else Ok((recorded.value, backend.reply.value));
      }
      shared.locked := false;
    }

    /** The backend at work, with the marker it was handed: only its first call writes the record. */
    method Send(dispatch: Dispatch, backend: Backend) returns (recorded: Option<Dispatch>)
      modifies shared`files
      ensures recorded == if backend.marks > 0 then Some(dispatch) else None
      ensures shared.files == if backend.marks > 0
                              then old(shared.files).(dispatches := old(shared.files).dispatches[dispatch.operationId := dispatch])
                              else old(shared.files)
    {
      recorded := None;
      for calls := 0 to backend.marks
        invariant recorded == if calls > 0 then Some(dispatch) else None
        invariant shared.files == if calls > 0
                                  then old(shared.files).(dispatches := old(shared.files).dispatches[dispatch.operationId := dispatch])
                                  else old(shared.files)
      {
        if recorded.None? {
          shared.files := shared.files.(dispatches := shared.files.dispatches[dispatch.operationId := dispatch]);
          recorded := Some(dispatch);
        }
      }
    }

    method RecordResult(result: MergeResult) returns (r: Result<(), JournalError>)
      modifies shared
      ensures shared.locked == old(shared.locked)
      ensures var d, op := old(shared.files), result.operationId;
              r.Ok? <==>
                && !old(shared.locked) && Loadable(valid, d, op)
                && ResultValid(InputsOf(d, op), d.intents[op], if op in d.dispatches then Some(d.dispatches[op]) else None, result)
                && Writable(d.results, op, result)
      ensures shared.files == if r.Ok? then old(shared.files).(results := old(shared.files).results[result.operationId := result])
                              else old(shared.files)
    {
      if shared.locked { return Err(LockHeld); }
      shared.locked := true;
      var op := result.operationId;
      if !Loadable(valid, shared.files, op) {
        r := Err(NotLoadable);
      } else {
        var dispatch := if op in shared.files.dispatches then Some(shared.files.dispatches[op]) else None;
        if !ResultValid(InputsOf(shared.files, op), shared.files.intents[op], dispatch, result) {
          r := Err(ResultRejected);
        } else if !Writable(shared.files.results, op, result) {
          r := Err(DifferentDocument);
        } else {
          shared.files := shared.files.(results := shared.files.results[op := result]);
          r := Ok(());
        }
      }
      shared.locked := false;
    }

    /** Reads an operation without the lock; a stored result has to pass validation again. */
    method Load(op: OperationId) returns (r: Result<Loaded, JournalError>)
      ensures var d := shared.files;
              var dispatch := if op in d.dispatches then Some(d.dispatches[op]) else None;
              && (r.Ok? <==>
                    && Loadable(valid, d, op)
                    && (dispatch.Some? ==> dispatch.value.operationId == op && dispatch.value.intentSha == OfIntent(d.intents[op]))
                    && (op in d.results ==> ResultValid(InputsOf(d, op), d.intents[op], dispatch, d.results[op])))
              && (r.Ok? ==> r.value == if op in d.results then Terminal(dispatch, d.results[op]) else Pending(dispatch))
    {
      var d := shared.files;
      if !Loadable(valid, d, op) { return Err(NotLoadable); }
      var dispatch := if op in d.dispatches then Some(d.dispatches[op]) else None;
      if dispatch.Some? && (dispatch.value.operationId != op || dispatch.value.intentSha != OfIntent(d.intents[op])) {
        return Err(NotLoadable);
      }
      if op !in d.results { return Ok(Pending(dispatch)); }
      if !ResultValid(InputsOf(d, op), d.intents[op], dispatch, d.results[op]) { return Err(ResultRejected); }
      r := Ok(Terminal(dispatch, d.results[op]));
    }
  }
}
