/**
  The read-only projection of a mission (pathfinder_core/projections.py): every operation artifact
  is checked against the contracts, and a verified state must show a successful verification.
*/
module Projections {
  import opened Wrappers
  import opened MissionState
  import opened HostDocuments
  import opened HostMission
  import opened HostMissionLaws

  datatype Status = Recorded(outcome: Outcome) | RecoveryPending | NeedsReconciliation

  datatype OperationView = OperationView(key: OperationKey, action: Action, status: Status, startedAt: int)

  datatype Verification = VerificationOk | VerificationFail | VerificationBlocked | VerificationNotRun

  datatype Projection = Projection(operations: seq<OperationView>, verification: Verification, reconcile: bool)

  datatype ProjectionError = IdentityMismatch | OperationMismatch | VerificationMissing

  predicate VerifiedState(state: State) { state in {Verified, Committed, Published, AwaitingReview, Merged} }

  predicate IdentityMatches(c: Contracts, d: Document) {
    && d.identity.missionId == c.binding.identity.missionId && d.identity.goalId == c.binding.identity.goalId
    && d.identity.bindingId == c.binding.identity.bindingId && d.identity.baseCommit == c.binding.identity.baseCommit
    && c.authorization.missionId == d.identity.missionId && c.authorization.bindingId == d.identity.bindingId
    && c.authorization.baseCommit == d.identity.baseCommit
    && (Get(d.fields, AuthorizationId) != Null ==> Get(d.fields, AuthorizationId) == Str(c.authorization.authorizationId))
  }

  /** `_validate_receipt`: against the intent, and against the operation result if there is one. */
  predicate ReceiptMatches(h: HostSchemas, intent: Intent, r: Receipt, result: Option<OperationResult>) {
    && h.receipt(r)
    && r.key == intent.key && r.action == intent.action && r.request == intent.request
    && r.authorization == intent.authorization && r.boundary == intent.boundary
    && (result.Some? ==>
          && result.value.outcome == (if r.outcome == ManualHandoff then Failed else r.outcome)
          && result.value.completedAt == r.completedAt && result.value.externalId == r.evidence.stableId
          && result.value.exitStatus == r.evidence.exitStatus && result.value.output == OfReceipt(r))
  }

  function Lookup<K, V>(files: map<K, V>, k: K): Option<V> { if k in files then Some(files[k]) else None }

  /** The checks on one operation's files. */
  predicate OperationFits(h: HostSchemas, c: Contracts, d: Document, j: Journal, k: OperationKey) {
    && JournalLoads(h, j, k)
    && var intent := j.intents[k];
       && intent.key.missionId == d.identity.missionId && intent.key.attempt == Get(d.fields, MissionState.AttemptId)
       && intent.authorization == OfAuthorization(c.authorization) && intent.boundary == OfBoundary(c.boundary)
       && intent.protection == OfProtection(c.protection)
       && (if k in j.receipts then ReceiptMatches(h, intent, j.receipts[k], Lookup(j.results, k)) else k !in j.results)
  }

  /** A recorded outcome is the status, so a recorded reconcile-required reads like a missing receipt. */
  function StatusOf(j: Journal, k: OperationKey): Status {
    if k in j.results && k in j.receipts then
      if j.receipts[k].outcome == ReconcileRequired then NeedsReconciliation else Recorded(j.receipts[k].outcome)
    else if k in j.receipts then RecoveryPending else NeedsReconciliation
  }

  function ViewOf(j: Journal, k: OperationKey): OperationView
    requires k in j.intents
  {
    OperationView(k, j.intents[k].action, StatusOf(j, k), j.intents[k].startedAt)
  }

  function Stage(a: Action): nat {
    match a
    case PrepareWorktree => 0
    case ActivateGoal => 1
    case Implement => 2
    case Verify => 3
    case Commit => 4
    case CompleteGoal => 5
  }

  /** The order of the projection; ties between equal times are broken by id and not modelled. */
  predicate Before(a: OperationView, b: OperationView) {
    Stage(a.action) < Stage(b.action) || (a.action == b.action && a.startedAt <= b.startedAt)
  }

  ghost predicate Ordered(views: seq<OperationView>) {
    forall i, k :: 0 <= i < k < |views| ==> Before(views[i], views[k])
  }

  /** One view for every key, and no others. */
  ghost predicate Shows(j: Journal, keys: set<OperationKey>, views: seq<OperationView>) {
    && (forall i :: 0 <= i < |views| ==> views[i].key in keys && views[i].key in j.intents && views[i] == ViewOf(j, views[i].key))
    && (forall k :: k in keys ==> exists i :: 0 <= i < |views| && views[i].key == k)
    && (forall i, k :: 0 <= i < k < |views| ==> views[i].key != views[k].key)
  }

  method Insert(views: seq<OperationView>, v: OperationView) returns (r: seq<OperationView>)
    requires Ordered(views)
    ensures Ordered(r)
    ensures exists p :: 0 <= p <= |views| && r == views[..p] + [v] + views[p..]
  {
    var p := |views|;
    while p > 0 && !Before(views[p - 1], v)
      invariant 0 <= p <= |views|
      invariant forall i :: p <= i < |views| ==> Before(v, views[i])
    {
      p := p - 1;
    }
    r := views[..p] + [v] + views[p..];
  }

  lemma InsertShows(j: Journal, keys: set<OperationKey>, views: seq<OperationView>, k: OperationKey, p: nat)
    requires Shows(j, keys, views) && k in j.intents && k !in keys && p <= |views|
    ensures Shows(j, keys + {k}, views[..p] + [ViewOf(j, k)] + views[p..])
  {
    var r := views[..p] + [ViewOf(j, k)] + views[p..];
    forall key | key in keys + {k}
      ensures exists i :: 0 <= i < |r| && r[i].key == key
    {
      if key == k {
        assert r[p].key == k;
      } else {
        var i :| 0 <= i < |views| && views[i].key == key;
        assert r[if i < p then i else i + 1].key == key;
      }
    }
  }

  ghost function AllKeys(j: Journal): set<OperationKey> { j.intents.Keys + j.receipts.Keys + j.results.Keys }

  lemma NothingShown(j: Journal)
    ensures Shows(j, {}, [])
  {}

  lemma FitsHasIntent(h: HostSchemas, c: Contracts, d: Document, j: Journal, k: OperationKey)
    requires OperationFits(h, c, d, j, k)
    ensures k in j.intents
  {}

  ghost predicate AllFit(h: HostSchemas, c: Contracts, d: Document, j: Journal, keys: set<OperationKey>) {
    forall k :: k in keys ==> OperationFits(h, c, d, j, k)
  }

  lemma OneMoreFits(h: HostSchemas, c: Contracts, d: Document, j: Journal, keys: set<OperationKey>, k: OperationKey)
    requires AllFit(h, c, d, j, keys) && OperationFits(h, c, d, j, k)
    ensures AllFit(h, c, d, j, keys + {k})
  {
    hide OperationFits;
  }

  method AddView(h: HostSchemas, c: Contracts, d: Document, j: Journal, ghost shown: set<OperationKey>,
                 views: seq<OperationView>, k: OperationKey) returns (r: seq<OperationView>)
    requires Ordered(views) && Shows(j, shown, views) && k !in shown && OperationFits(h, c, d, j, k)
    ensures Ordered(r) && Shows(j, shown + {k}, r)
  {
    FitsHasIntent(h, c, d, j, k);
    hide OperationFits, ViewOf, Shows;
    r := Insert(views, ViewOf(j, k));
    ghost var p :| 0 <= p <= |views| && r == views[..p] + [ViewOf(j, k)] + views[p..];
    InsertShows(j, shown, views, k, p);
  }

  /** Loads every operation on disk, stopping at the first one that does not fit. */
  method LoadOperations(h: HostSchemas, c: Contracts, d: Document, j: Journal) returns (fit: bool, views: seq<OperationView>)
    ensures fit <==> AllFit(h, c, d, j, AllKeys(j))
    ensures fit ==> Ordered(views) && Shows(j, AllKeys(j), views)
  {
    var remaining := j.intents.Keys + j.receipts.Keys + j.results.Keys;
    views := [];
    NothingShown(j);
    assert AllKeys(j) - remaining == {};
    while remaining != {}
      invariant remaining <= AllKeys(j)
      invariant Ordered(views) && Shows(j, AllKeys(j) - remaining, views)
      invariant AllFit(h, c, d, j, AllKeys(j) - remaining)
    {
      hide OperationFits, ViewOf, Ordered, Shows, AllKeys;
      var k :| k in remaining;
      if !OperationFits(h, c, d, j, k) { return false, []; }
      views := AddView(h, c, d, j, AllKeys(j) - remaining, views, k);
      OneMoreFits(h, c, d, j, AllKeys(j) - remaining, k);
      hide AllFit;
      assert AllKeys(j) - (remaining - {k}) == (AllKeys(j) - remaining) + {k};
      remaining := remaining - {k};
    }
    assert AllKeys(j) - remaining == AllKeys(j);
    fit := true;
  }

  /** The status of the last verification, if any. */
  function LastVerify(views: seq<OperationView>): Option<Status> {
    if |views| == 0 then None
    else if views[|views| - 1].action == Verify then Some(views[|views| - 1].status)
    else LastVerify(views[..|views| - 1])
  }

  function VerificationOf(d: Document, views: seq<OperationView>, reconcile: bool): Verification {
    if LastVerify(views) == Some(Recorded(Succeeded)) then VerificationOk
    else if LastVerify(views) == Some(Recorded(Failed)) then VerificationFail
    else if reconcile || d.state == Blocked then VerificationBlocked else VerificationNotRun
  }

  /** No receipt was ever recorded for the operation, or the one recorded says that the host could not tell. */
  ghost predicate Unreconciled(j: Journal, k: OperationKey) {
    k in j.intents && (k !in j.receipts || (k in j.results && j.receipts[k].outcome == ReconcileRequired))
  }

  method Project(h: HostSchemas, c: Contracts, d: Document, j: Journal) returns (r: Result<Projection, ProjectionError>)
    ensures r.Ok? ==>
              && d.identity == c.binding.identity.(dirtyPolicy := d.identity.dirtyPolicy)
              && c.authorization.missionId == d.identity.missionId && c.authorization.bindingId == d.identity.bindingId
              && c.authorization.baseCommit == d.identity.baseCommit
              && Get(d.fields, AuthorizationId) in {Null, Str(c.authorization.authorizationId)}
              && AllFit(h, c, d, j, AllKeys(j))
              && Ordered(r.value.operations) && Shows(j, AllKeys(j), r.value.operations)
              && (r.value.reconcile <==> exists k :: Unreconciled(j, k))
              && r.value.verification == VerificationOf(d, r.value.operations, r.value.reconcile)
              && (d.state in {Verified, Committed, Published, AwaitingReview, Merged} ==> r.value.verification == VerificationOk)
    ensures Agree(h, c, d, j) ==> r.Ok?
  {
    if !IdentityMatches(c, d) {
      IdentityMatchesWhenAgreed(h, c, d, j);
      return Err(IdentityMismatch);
    }
    var fit, views := LoadOperations(h, c, d, j);
    if !fit {
      if Agree(h, c, d, j) { EveryOperationFits(h, c, d, j); }
      return Err(OperationMismatch);
    }
    var reconcile := exists v :: v in views && v.status == NeedsReconciliation;
    ReconcileMeansPending(h, c, d, j, views);
    var verification := VerificationOf(d, views, reconcile);
    if VerifiedState(d.state) && verification != VerificationOk {
      if Agree(h, c, d, j) { VerifiedStateIsVerified(h, c, d, j, views); }
      return Err(VerificationMissing);
    }
    r := Ok(Projection(views, verification, reconcile));
  }

  lemma ReconcileMeansPending(h: HostSchemas, c: Contracts, d: Document, j: Journal, views: seq<OperationView>)
    requires Shows(j, AllKeys(j), views)
    requires AllFit(h, c, d, j, AllKeys(j))
    ensures (exists v :: v in views && v.status == NeedsReconciliation) <==> exists k :: Unreconciled(j, k)
  {
    hide JournalLoads, ReceiptMatches;
    if k :| Unreconciled(j, k) {
      var i :| 0 <= i < |views| && views[i].key == k;
      assert views[i] in views && views[i].status == NeedsReconciliation;
    }
    if v :| v in views && v.status == NeedsReconciliation {
      var i :| 0 <= i < |views| && views[i] == v;
      assert OperationFits(h, c, d, j, v.key);
      assert Unreconciled(j, v.key);
    }
  }

  // ---------------------------------------------------------------- reachable missions always project

  lemma EveryOperationFits(h: HostSchemas, c: Contracts, d: Document, j: Journal)
    requires Agree(h, c, d, j)
    ensures AllFit(h, c, d, j, AllKeys(j))
  {
    forall k | k in AllKeys(j)
      ensures OperationFits(h, c, d, j, k)
    {
      OperationFitsWhenAgreed(h, c, d, j, k);
    }
    hide Agree, OperationFits;
  }

  lemma IdentityMatchesWhenAgreed(h: HostSchemas, c: Contracts, d: Document, j: Journal)
    ensures Agree(h, c, d, j) ==> IdentityMatches(c, d)
  {}

  lemma OperationFitsWhenAgreed(h: HostSchemas, c: Contracts, d: Document, j: Journal, k: OperationKey)
    requires Agree(h, c, d, j) && k in AllKeys(j)
    ensures OperationFits(h, c, d, j, k)
  {
    hide PathRecorded;
  }

  /** A mission has at most one operation of each kind, so there is only one verification to look at. */
  lemma {:induction false} LastVerifyIs(views: seq<OperationView>, i: nat)
    requires i < |views| && views[i].action == Verify
    requires forall p, q :: 0 <= p < q < |views| ==> views[p].action != views[q].action
    ensures LastVerify(views) == Some(views[i].status)
    decreases |views|
  {
    if views[|views| - 1].action == Verify {
      assert i == |views| - 1;
    } else {
      LastVerifyIs(views[..|views| - 1], i);
    }
  }

  lemma OneOfEachKind(h: HostSchemas, c: Contracts, d: Document, j: Journal, views: seq<OperationView>)
    requires Agree(h, c, d, j) && Shows(j, AllKeys(j), views)
    ensures forall p, q :: 0 <= p < q < |views| ==> views[p].action != views[q].action
  {
    hide ReceiptsOk, ResultsOk, PathRecorded, OnPath;
    forall p, q | 0 <= p < q < |views|
      ensures views[p].action != views[q].action
    {
      SameActionSameKey(h, c, d, j, views[p].key, views[q].key);
    }
  }

  lemma SameActionSameKey(h: HostSchemas, c: Contracts, d: Document, j: Journal, k1: OperationKey, k2: OperationKey)
    requires IntentsOk(h, c, d, j) && k1 in j.intents && k2 in j.intents
    ensures j.intents[k1].action == k1.action && j.intents[k2].action == k2.action
    ensures k1.action == k2.action ==> k1 == k2
  {}

  /**
    In every reachable mission, a state at or past verification has its successful verification
    among the operations, fully recorded.
  */
  lemma VerifiedStateIsVerified(h: HostSchemas, c: Contracts, d: Document, j: Journal, views: seq<OperationView>)
    requires Agree(h, c, d, j) && Shows(j, AllKeys(j), views) && VerifiedState(d.state)
    ensures LastVerify(views) == Some(Recorded(Succeeded))
  {
    var k := KeyAt(h, c, 4);
    assert Passed(d, j, k) && k.action == Verify by { assert Done(d) >= 4; }
    OneOfEachKind(h, c, d, j, views);
    var i :| 0 <= i < |views| && views[i].key == k;
    SameActionSameKey(h, c, d, j, k, k);
    hide Agree, Applied;
    LastVerifyIs(views, i);
  }

  // ---------------------------------------------------------------- what a projection says

  /** One operation as its files say: its receipt's outcome once the result is there too, and otherwise what is missing. */
  ghost predicate Says(j: Journal, v: OperationView) {
    && v.key in j.intents && v.action == j.intents[v.key].action && v.startedAt == j.intents[v.key].startedAt
    && (v.status == RecoveryPending <==> v.key in j.receipts && v.key !in j.results)
    && (v.status == NeedsReconciliation <==> v.key !in j.receipts || (v.key in j.results && j.receipts[v.key].outcome == ReconcileRequired))
    && (forall o :: v.status == Recorded(o) <==> v.key in j.receipts && v.key in j.results && j.receipts[v.key].outcome == o && o != ReconcileRequired)
  }

  lemma ViewSays(j: Journal, k: OperationKey)
    requires k in j.intents && (k in j.results ==> k in j.receipts)
    ensures Says(j, ViewOf(j, k))
  {}

  /** What the checks ask of one operation's files, of the intent, of the receipt and of the result. */
  lemma FitExactly(h: HostSchemas, c: Contracts, d: Document, j: Journal, k: OperationKey)
    ensures OperationFits(h, c, d, j, k) <==>
              && k in j.intents && h.intent(j.intents[k])
              && var i := j.intents[k];
                 && i.key.missionId == d.identity.missionId && i.key.attempt == Get(d.fields, MissionState.AttemptId)
                 && i.authorization == OfAuthorization(c.authorization) && i.boundary == OfBoundary(c.boundary) && i.protection == OfProtection(c.protection)
                 && (k in j.receipts ==> var r := j.receipts[k];
                       && h.receipt(r) && r.key == i.key && r.action == i.action && r.request == i.request
                       && r.authorization == i.authorization && r.boundary == i.boundary)
                 && (k in j.results ==>
                       && k in j.receipts && h.result(j.results[k])
                       && var s, r := j.results[k], j.receipts[k];
                          && s.bound == i && s.completedAt == r.completedAt && s.externalId == r.evidence.stableId
                          && s.exitStatus == r.evidence.exitStatus && s.output == OfReceipt(r)
                          && (s.outcome == r.outcome || (r.outcome == ManualHandoff && s.outcome == Failed)) && s.outcome != ManualHandoff)
  {}

  /** The verification looked at is the last one shown. */
  lemma {:induction false} LastVerifyExactly(views: seq<OperationView>, s: Status)
    ensures LastVerify(views) == Some(s) <==>
              exists i :: && 0 <= i < |views| && views[i].action == Verify && views[i].status == s
                          && forall k :: i < k < |views| ==> views[k].action != Verify
    decreases |views|
  {
    if |views| > 0 {
      var n := |views| - 1;
      LastVerifyExactly(views[..n], s);
      assert forall k :: 0 <= k < n ==> views[..n][k] == views[k];
    }
  }

  /** The recorded outcome of the mission's verification. */
  ghost predicate Verification?(j: Journal, o: Outcome) {
    exists k :: k in j.intents && k in j.receipts && k in j.results && j.intents[k].action == Verify && j.receipts[k].outcome == o
  }

  /**
    On every reachable mission the verification shown is what its one verify operation came to: passed or failed
    if that is recorded, and otherwise blocked exactly when something awaits reconciliation or the mission is blocked.
  */
  lemma VerificationExactly(h: HostSchemas, c: Contracts, d: Document, j: Journal, views: seq<OperationView>, reconcile: bool)
    requires Agree(h, c, d, j) && Shows(j, AllKeys(j), views) && (reconcile <==> exists k :: Unreconciled(j, k))
    ensures VerificationOf(d, views, reconcile) ==
              if Verification?(j, Succeeded) then VerificationOk
              else if Verification?(j, Failed) then VerificationFail
              else if (exists k :: Unreconciled(j, k)) || d.state == Blocked then VerificationBlocked else VerificationNotRun
  {
    OneOfEachKind(h, c, d, j, views);
    ShownVerification(h, c, d, j, views, Succeeded);
    ShownVerification(h, c, d, j, views, Failed);
    hide Agree, Shows, LastVerify, Verification?, Unreconciled;
  }

  lemma ShownVerification(h: HostSchemas, c: Contracts, d: Document, j: Journal, views: seq<OperationView>, o: Outcome)
    requires Agree(h, c, d, j) && Shows(j, AllKeys(j), views) && o != ReconcileRequired
    requires forall p, q :: 0 <= p < q < |views| ==> views[p].action != views[q].action
    ensures LastVerify(views) == Some(Recorded(o)) <==> Verification?(j, o)
  {
    hide Agree, LastVerify, ReceiptMatches;
    LastVerifyExactly(views, Recorded(o));
    if LastVerify(views) == Some(Recorded(o)) {
      var i :| 0 <= i < |views| && views[i].action == Verify && views[i].status == Recorded(o);
      assert views[i] == ViewOf(j, views[i].key);
    }
    if k :| k in j.intents && k in j.receipts && k in j.results && j.intents[k].action == Verify && j.receipts[k].outcome == o {
      var i :| 0 <= i < |views| && views[i].key == k;
      assert views[i].action == Verify && views[i].status == Recorded(o);
    }
  }

  /** On every reachable mission the operations are listed in the order of the revisions they were issued at. */
  lemma ViewsFollowThePath(h: HostSchemas, c: Contracts, d: Document, j: Journal, views: seq<OperationView>, i: nat, k: nat)
    requires Agree(h, c, d, j) && Shows(j, AllKeys(j), views) && Ordered(views) && i < k < |views|
    ensures views[i].key.revision < views[k].key.revision
  {
    OneOfEachKind(h, c, d, j, views);
    PathStage(h, c, d, j, views[i].key);
    PathStage(h, c, d, j, views[k].key);
    hide Agree;
    assert Before(views[i], views[k]);
  }

  lemma PathStage(h: HostSchemas, c: Contracts, d: Document, j: Journal, k: OperationKey)
    requires IntentsOk(h, c, d, j) && k in j.intents
    ensures Stage(j.intents[k].action) + 1 == k.revision
  {}

  /** The place of an action on the path. */
  function Place(a: Action): nat {
    match a case PrepareWorktree => 1 case ActivateGoal => 2 case Implement => 3 case Verify => 4 case Commit => 5 case CompleteGoal => 6
  }

  /** The order of a projection: by the place of the action, and among operations of one action by the time they started. */
  lemma OrderedExactly(views: seq<OperationView>)
    ensures Ordered(views) <==>
              forall i, k :: 0 <= i < k < |views| ==>
                && Place(views[i].action) <= Place(views[k].action)
                && (views[i].action == views[k].action ==> views[i].startedAt <= views[k].startedAt)
  {
    forall i, k | 0 <= i < k < |views|
      ensures Before(views[i], views[k]) <==>
                && Place(views[i].action) <= Place(views[k].action)
                && (views[i].action == views[k].action ==> views[i].startedAt <= views[k].startedAt)
    {
      BeforeExactly(views[i], views[k]);
    }
    hide Before, Place;
  }

  lemma BeforeExactly(a: OperationView, b: OperationView)
    ensures Before(a, b) <==> Place(a.action) <= Place(b.action) && (a.action == b.action ==> a.startedAt <= b.startedAt)
  {}
}
