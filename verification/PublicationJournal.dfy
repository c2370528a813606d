/**
  The publication journal object (pathfinder_core/publication_journal.py): the shared files and,
  per process, the claims its own fresh requests earned, proved against the predicates of
  `PublicationProtocol`.
*/
module PublicationJournal {
  import opened Wrappers
  import opened PublicationProtocol

  datatype JournalError = LockHeld | RequestRejected | AuthorityClaimed | DifferentDocument | NotOwned | NotAllowed | NotLoadable | ReceiptRejected

  class PublicationClaim {
    const id: RequestId
    const requestSha: RequestHash

    constructor (id: RequestId, requestSha: RequestHash)
      ensures this.id == id && this.requestSha == requestSha
    {
      this.id, this.requestSha := id, requestSha;
    }
  }

  class SharedFiles {
    var files: Directory
    var locked: bool

    constructor ()
      ensures files == Directory(map[], map[], map[]) && !locked
    {
      files, locked := Directory(map[], map[], map[]), false;
    }
  }

  class PublicationJournal {
    const shared: SharedFiles
    const valid: Validity
    var claims: map<RequestId, PublicationClaim>

    constructor (shared: SharedFiles, valid: Validity)
      ensures this.shared == shared && this.valid == valid && claims == map[]
    {
      this.shared, this.valid, claims := shared, valid, map[];
    }

    /** Looks through every persisted request for one under the same authority or for the same commit. */
    method AssertUnclaimed(request: Request) returns (unclaimed: bool)
      ensures unclaimed <==> Unclaimed(valid, shared.files, request)
    {
      var remaining := shared.files.requests.Keys;
      while remaining != {}
        invariant remaining <= shared.files.requests.Keys
        invariant forall id :: id in shared.files.requests && id !in remaining ==>
                    RequestValid(valid, shared.files.requests[id]) && (id == request.id || !SharesAuthority(shared.files.requests[id], request))
        decreases |remaining|
      {
        var id :| id in remaining;
        var existing := shared.files.requests[id];
        if !RequestValid(valid, existing) || (id != request.id && SharesAuthority(existing, request)) { return false; }
        remaining := remaining - {id};
      }
      unclaimed := true;
    }

    /** A claim for the call that persisted the request; null if the same request was there already. */
    method ClaimRequest(request: Request) returns (r: Result<PublicationClaim?, JournalError>)
      modifies this, shared
      ensures shared.locked == old(shared.locked)
      ensures var d := old(shared.files);
              && (r.Ok? <==>
                    && RequestValid(valid, request) && !old(shared.locked)
                    && if request.id in d.requests then d.requests[request.id] == request else Unclaimed(valid, d, request))
              && (r.Ok? ==> (r.value == null <==> request.id in d.requests))
              && (if r.Ok? && r.value != null
                  then && fresh(r.value) && r.value.id == request.id && r.value.requestSha == OfRequest(request)
                       && shared.files == d.(requests := d.requests[request.id := request])
                       && claims == old(claims)[request.id := r.value]
                  else shared.files == d && claims == old(claims))
    {
      if !RequestValid(valid, request) { return Err(RequestRejected); }
      if shared.locked { return Err(LockHeld); }
      shared.locked := true;
      if request.id in shared.files.requests {
        r := if shared.files.requests[request.id] == request then Ok(null) else Err(DifferentDocument);
      } else {
        var unclaimed := AssertUnclaimed(request);
        if unclaimed {
          shared.files := shared.files.(requests := shared.files.requests[request.id := request]);
          var claim := new PublicationClaim(request.id, OfRequest(request));
          claims := claims[request.id := claim];
          r := Ok(claim);
        } else {
          r := Err(AuthorityClaimed);
        }
      }
      shared.locked := false;
    }

    /** Marks the dispatch under the lock and spends the claim; the caller sends after this returns. */
    method MarkDispatch(claim: PublicationClaim, startedAt: int) returns (r: Result<Dispatch, JournalError>)
      modifies this, shared
      ensures shared.locked == old(shared.locked)
      ensures var d, id := old(shared.files), claim.id;
              && (r.Ok? <==>
                    && !old(shared.locked) && id in old(claims) && old(claims)[id] == claim && id in d.requests && d.requests[id].id == id
                    && claim.requestSha == OfRequest(d.requests[id]) && DispatchAllowed(valid, d, d.requests[id], startedAt))
              && (if r.Ok?
                  then && r.value == Dispatch(id, claim.requestSha, startedAt)
                       && shared.files == d.(dispatches := d.dispatches[id := r.value]) && claims == old(claims) - {id}
                  else shared.files == d && claims == old(claims))
    {
      if shared.locked { return Err(LockHeld); }
      shared.locked := true;
      var id := claim.id;
      if id !in claims || claims[id] != claim {
        r := Err(NotOwned);
      } else if id !in shared.files.requests || shared.files.requests[id].id != id || claim.requestSha != OfRequest(shared.files.requests[id])
                || !DispatchAllowed(valid, shared.files, shared.files.requests[id], startedAt) {
        r := Err(NotAllowed);
      } else {
        var dispatch := Dispatch(id, claim.requestSha, startedAt);
        shared.files := shared.files.(dispatches := shared.files.dispatches[id := dispatch]);
        claims := claims - {id};
        r := Ok(dispatch);
      }
      shared.locked := false;
    }

    method RecordReceipt(receipt: Receipt) returns (r: Result<(), JournalError>)
      modifies shared
      ensures shared.locked == old(shared.locked)
      ensures r.Ok? <==> !old(shared.locked) && RecordAllowed(valid, old(shared.files), receipt)
      ensures shared.files == if r.Ok? then old(shared.files).(receipts := old(shared.files).receipts[receipt.id := receipt])
                              else old(shared.files)
    {
      if shared.locked { return Err(LockHeld); }
      shared.locked := true;
      if receipt.id !in shared.files.requests || receipt.id !in shared.files.dispatches
         || !ReceiptValid(valid, shared.files.requests[receipt.id], shared.files.dispatches[receipt.id], receipt) {
        r := Err(ReceiptRejected);
      } else if receipt.id in shared.files.receipts && shared.files.receipts[receipt.id] != receipt {
        r := Err(DifferentDocument);
      } else {
        shared.files := shared.files.(receipts := shared.files.receipts[receipt.id := receipt]);
        r := Ok(());
      }
      shared.locked := false;
    }
  }
}
