/** Exactly when the evaluator's reviews, checks and rules add no block, said of the evidence alone. */
module PolicyPassing {
  import opened Wrappers
  import opened PolicyTypes
  import Reviews = PolicyReviews
  import Ambiguity = PolicyAmbiguity
  import Checks = PolicyChecks
  import Rules = PolicyRules

  // ---------------------------------------------------------------- reviews

  /** A review the evaluator takes at its word. */
  ghost predicate SoundReview(r: Reviews.Review, completedAt: int) {
    && r.submittedAt.Some? && r.submittedAt.value <= completedAt && r.state != Reviews.PendingReview
    && (r.state == Reviews.DismissedReview <==> r.dismissed)
  }

  ghost predicate SoundReviews(reviews: seq<Reviews.Review>, completedAt: int) {
    && (forall k :: 0 <= k < |reviews| ==> SoundReview(reviews[k], completedAt))
    && (forall j, k :: 0 <= j < k < |reviews| ==> reviews[j].id != reviews[k].id)
    && (forall a :: !Ambiguity.MeetsTie(reviews, a))
  }

  lemma {:induction false} IdsAre(reviews: seq<Reviews.Review>, completedAt: int)
    ensures forall id :: id in Reviews.ScanReviews(reviews, completedAt, {}).ids <==> exists k :: 0 <= k < |reviews| && reviews[k].id == id
    decreases |reviews|
  {
    if |reviews| > 0 {
      var n := |reviews| - 1;
      IdsAre(reviews[..n], completedAt);
      assert forall k :: 0 <= k < n ==> reviews[..n][k] == reviews[k];
      LastId(reviews, completedAt);
      hide Reviews.ScanReviews;
    }
  }

  lemma LastId(reviews: seq<Reviews.Review>, completedAt: int)
    requires |reviews| > 0
    ensures Reviews.ScanReviews(reviews, completedAt, {}).ids
            == Reviews.ScanReviews(reviews[..|reviews| - 1], completedAt, {}).ids + {reviews[|reviews| - 1].id}
  {
    hide Reviews.SingleReviewBlocks, Reviews.TieBlocks, Reviews.Choose, When;
  }

  /** What the last review of a scan adds. */
  lemma LastReviewClear(reviews: seq<Reviews.Review>, completedAt: int)
    requires |reviews| > 0
    ensures var earlier, last := Reviews.ScanReviews(reviews[..|reviews| - 1], completedAt, {}), reviews[|reviews| - 1];
            Reviews.ScanReviews(reviews, completedAt, {}).blocks == {} <==>
              && earlier.blocks == {} && last.id !in earlier.ids && Reviews.SingleReviewBlocks(last, completedAt) == {}
              && (Reviews.Counts(last) ==> Reviews.TieBlocks(earlier.effective, last) == {})
  {
    hide Reviews.SingleReviewBlocks, Reviews.TieBlocks, Reviews.Choose, When;
  }

  lemma SingleClear(r: Reviews.Review, completedAt: int)
    ensures Reviews.SingleReviewBlocks(r, completedAt) == {} <==> SoundReview(r, completedAt)
  {}

  lemma TieClear(earlier: seq<Reviews.Review>, last: Reviews.Review)
    ensures (Reviews.Counts(last) ==> Reviews.TieBlocks(Reviews.EffectiveReviews(earlier), last) == {})
            <==> forall a :: !Ambiguity.MeetsLast(earlier, last, a)
  {
    forall a ensures Ambiguity.MeetsLast(earlier, last, a) <==>
                       Reviews.Decided(last, a) && a in Reviews.EffectiveReviews(earlier) && Reviews.EffectiveReviews(earlier)[a].submittedAt == last.submittedAt
    {
      Ambiguity.LastMeetsTie(earlier, last, a);
    }
    hide Reviews.EffectiveReviews, Ambiguity.MeetsLast;
    assert Reviews.Counts(last) <==> Reviews.Decided(last, last.actorId);
  }

  lemma ScanEffective(reviews: seq<Reviews.Review>, completedAt: int)
    ensures Reviews.ScanReviews(reviews, completedAt, {}).effective == Reviews.EffectiveReviews(reviews)
  {
    Reviews.ScanFactors(reviews, completedAt, 0, {});
  }

  lemma NothingScanned(reviews: seq<Reviews.Review>, completedAt: int)
    requires |reviews| == 0
    ensures Reviews.ScanReviews(reviews, completedAt, {}).blocks == {} && forall a :: !Ambiguity.MeetsTie(reviews, a)
  {
    forall a ensures !Ambiguity.MeetsTie(reviews, a) {}
  }

  /** The loop over reviews adds nothing exactly when each is sound, no id is repeated and no tie is met. */
  lemma {:induction false} ScanClearExactly(reviews: seq<Reviews.Review>, completedAt: int)
    ensures Reviews.ScanReviews(reviews, completedAt, {}).blocks == {} <==> SoundReviews(reviews, completedAt)
    decreases |reviews|
  {
    hide Reviews.ScanReviews, Reviews.SingleReviewBlocks, Reviews.TieBlocks, Ambiguity.MeetsTie, Ambiguity.MeetsLast, SoundReview, Reviews.EffectiveReviews;
    if |reviews| > 0 {
      var n := |reviews| - 1;
      var earlier, last := reviews[..n], reviews[n];
      ScanClearExactly(earlier, completedAt);
      LastReviewClear(reviews, completedAt);
      IdsAre(earlier, completedAt);
      SingleClear(last, completedAt);
      TieClear(earlier, last);
      assert reviews == earlier + [last];
      forall a ensures Ambiguity.MeetsTie(reviews, a) <==> Ambiguity.MeetsTie(earlier, a) || Ambiguity.MeetsLast(earlier, last, a) {
        Ambiguity.MeetsLater(earlier, last, a);
      }
      ScanEffective(earlier, completedAt);
      assert forall k :: 0 <= k < n ==> earlier[k] == reviews[k];
    } else {
      NothingScanned(reviews, completedAt);
    }
  }

  /** The actor's latest decisive review asks for changes. */
  ghost predicate AsksForChanges(reviews: seq<Reviews.Review>, a: int) {
    exists r :: Reviews.LatestOf(reviews, a, r) && r.state == Reviews.RequestedChanges && !r.dismissed
  }

  /** The actor's latest decisive review approves the commit. */
  ghost predicate Approves(reviews: seq<Reviews.Review>, sha: string, a: int) {
    exists r :: Reviews.LatestOf(reviews, a, r) && Reviews.ApprovalOf(sha, r)
  }

  lemma LatestIsUnique(reviews: seq<Reviews.Review>, a: int, q: Reviews.Review, r: Reviews.Review)
    requires forall j, k :: 0 <= j < k < |reviews| ==> reviews[j].id != reviews[k].id
    requires Reviews.LatestOf(reviews, a, q) && Reviews.LatestOf(reviews, a, r)
    ensures q == r
  {}

  lemma LatestIsEffective(reviews: seq<Reviews.Review>, a: int, r: Reviews.Review)
    requires forall j, k :: 0 <= j < k < |reviews| ==> reviews[j].id != reviews[k].id
    ensures Reviews.LatestOf(reviews, a, r) <==> a in Reviews.EffectiveReviews(reviews) && Reviews.EffectiveReviews(reviews)[a] == r
  {
    Reviews.EffectiveIsLatest(reviews);
    hide Reviews.EffectiveReviews;
    if Reviews.LatestOf(reviews, a, r) {
      assert a in Reviews.EffectiveReviews(reviews) by { hide Reviews.LatestOf; DecidedIsLatest(reviews, a, r); }
      LatestIsUnique(reviews, a, r, Reviews.EffectiveReviews(reviews)[a]);
    }
  }

  lemma DecidedIsLatest(reviews: seq<Reviews.Review>, a: int, r: Reviews.Review)
    requires Reviews.LatestOf(reviews, a, r)
    ensures r in reviews && Reviews.Decided(r, a)
  {}

  /** Whose approval counts, when no two reviews share an id. */
  lemma ApprovalsExactly(i: Reviews.ReviewInputs, a: int)
    requires forall j, k :: 0 <= j < k < |i.reviews| ==> i.reviews[j].id != i.reviews[k].id
    ensures a in Reviews.Approvals(i) <==> a in i.humans && a !in i.excluded && Approves(i.reviews, i.requiredSha, a)
  {
    hide Reviews.EffectiveReviews, Reviews.Approvals, Reviews.LatestOf, Reviews.ApprovalOf;
    Reviews.ApprovedExactly(i, a);
    forall r ensures Reviews.LatestOf(i.reviews, a, r) <==> a in Reviews.EffectiveReviews(i.reviews) && Reviews.EffectiveReviews(i.reviews)[a] == r {
      LatestIsEffective(i.reviews, a, r);
    }
  }

  /**
    The reviews add no block exactly when they are sound, nobody's latest asks for changes, GitHub's own
    decision is settled, no code owner or thread is open, and enough approvals count.
  */
  lemma ReviewsPassExactly(i: Reviews.ReviewInputs, required: int)
    ensures Reviews.ReviewBlocks(i, required) == {} <==>
              && SoundReviews(i.reviews, i.completedAt) && (forall a :: !AsksForChanges(i.reviews, a))
              && i.decision == Reviews.DecisionOther
              && (forall k :: 0 <= k < |i.codeOwnerRequests| ==> !i.codeOwnerRequests[k])
              && (forall k :: 0 <= k < |i.unresolvedThreads| ==> !i.unresolvedThreads[k])
              && |Reviews.Approvals(i)| >= required
  {
    hide Reviews.EffectiveReviews, Reviews.Approvals, Reviews.LatestOf, Reviews.ScanReviews, SoundReviews, Reviews.ChangeBlocks, Reviews.DecisionBlocks;
    ScanClearExactly(i.reviews, i.completedAt);
    DecisionClear(i.decision);
    if SoundReviews(i.reviews, i.completedAt) { ChangesClear(i.reviews, i.completedAt); }
  }

  lemma DecisionClear(d: Reviews.Decision)
    ensures Reviews.DecisionBlocks(d) == {} <==> d == Reviews.DecisionOther
  {}

  lemma ChangesClear(reviews: seq<Reviews.Review>, completedAt: int)
    requires SoundReviews(reviews, completedAt)
    ensures var effective := Reviews.EffectiveReviews(reviews);
            Reviews.ChangeBlocks(effective, effective.Keys) == {} <==> forall a :: !AsksForChanges(reviews, a)
  {
    var effective := Reviews.EffectiveReviews(reviews);
    forall a, r ensures Reviews.LatestOf(reviews, a, r) <==> a in effective && effective[a] == r { LatestIsEffective(reviews, a, r); }
    hide Reviews.EffectiveReviews, Reviews.LatestOf, SoundReview, Ambiguity.MeetsTie;
    if Reviews.ChangeBlocks(effective, effective.Keys) == {} { Reviews.NoChangesRequested(effective); }
    if b :| b in Reviews.ChangeBlocks(effective, effective.Keys) {
      var a :| a in effective && effective[a].state == Reviews.RequestedChanges && !effective[a].dismissed;
      assert AsksForChanges(reviews, a);
    }
  }

  // ---------------------------------------------------------------- checks

  /** `a` was completed before `b`, or at the same instant under a smaller id. */
  ghost predicate Before(a: Checks.Check, b: Checks.Check) {
    && a.completedAt.Some? && b.completedAt.Some?
    && (a.completedAt.value.at < b.completedAt.value.at || (a.completedAt.value.at == b.completedAt.value.at && a.id < b.id))
  }

  /** Of the checks that `of` picks there is at least one, all have concluded, and the latest succeeded. */
  ghost predicate LatestSucceeded(checks: seq<Checks.Check>, of: Checks.Check -> bool) {
    exists m: Checks.Check ::
      && m in checks && of(m) && m.completed && m.completedAt.Some? && m.conclusion == Some("success")
      && forall c :: c in checks && of(c) && c != m ==> c.completed && c.completedAt.Some? && c.conclusion.Some? && Before(c, m)
  }

  /** A run of the required context and app on the commit. */
  function RunOn(r: CheckRequirement, sha: string): Checks.Check -> bool {
    (c: Checks.Check) => c.source == Checks.CheckRun && c.context == r.context && c.appId == Some(r.appId) && c.sha == sha
  }

  /** A commit status of the context on the commit. */
  function StatusOn(context: string, sha: string): Checks.Check -> bool {
    (c: Checks.Check) => c.source == Checks.CommitStatus && c.context == context && c.sha == sha
  }

  /**
    A required check is proven: its latest run on the commit succeeded, GitHub marks one as required if the
    rules enforce it, and a commit status of the same name, if there is any, has its latest on the commit too.
  */
  ghost predicate ProvenCheck(checks: seq<Checks.Check>, sha: string, r: CheckRequirement, enforced: set<CheckRequirement>) {
    && LatestSucceeded(checks, RunOn(r, sha))
    && (r in enforced ==> exists c :: c in checks && RunOn(r, sha)(c) && c.required)
    && ((exists c :: c in checks && c.source == Checks.CommitStatus && c.context == r.context) ==> LatestSucceeded(checks, StatusOn(r.context, sha)))
  }

  /** Nothing that GitHub marks as required is missing from the rules. */
  ghost predicate RequiredIsEnforced(checks: seq<Checks.Check>, enforced: set<CheckRequirement>) {
    && (forall c :: c in checks && c.required && c.source == Checks.CheckRun && c.appId.Some? ==> CheckRequirement(c.context, c.appId.value) in enforced)
    && (forall c :: c in checks && c.required && c.source == Checks.CommitStatus ==> exists r :: r in enforced && r.context == c.context)
  }

  ghost predicate SoundChecks(checks: seq<Checks.Check>, completedAt: int) {
    && (forall c :: c in checks && c.completedAt.Some? ==> c.completedAt.value.at <= completedAt)
    && forall j, k :: 0 <= j < k < |checks| ==> checks[j].source != checks[k].source || checks[j].id != checks[k].id
  }

  lemma DistinctIs(checks: seq<Checks.Check>, completedAt: int)
    requires SoundChecks(checks, completedAt)
    ensures Checks.DistinctChecks(checks)
  {}

  lemma {:induction false} CheckIdsAre(checks: seq<Checks.Check>)
    ensures forall x :: x in Checks.IdsOf(checks) <==> exists k :: 0 <= k < |checks| && (checks[k].source, checks[k].id) == x
    decreases |checks|
  {
    if |checks| > 0 {
      var n := |checks| - 1;
      CheckIdsAre(checks[..n]);
      assert forall k :: 0 <= k < n ==> checks[..n][k] == checks[k];
    }
  }

  lemma {:induction false} AuditExactly(checks: seq<Checks.Check>, completedAt: int)
    ensures Checks.AuditBlocks(checks, completedAt) == {} <==> SoundChecks(checks, completedAt)
    decreases |checks|
  {
    if |checks| > 0 {
      var n := |checks| - 1;
      var earlier, last := checks[..n], checks[n];
      AuditExactly(earlier, completedAt);
      CheckIdsAre(earlier);
      AuditOneClear(last, Checks.IdsOf(earlier), completedAt);
      hide Checks.AuditOne, Checks.IdsOf, SoundChecks;
      assert checks == earlier + [last];
      SoundGrows(earlier, last, completedAt);
    }
  }

  lemma SoundGrows(earlier: seq<Checks.Check>, last: Checks.Check, completedAt: int)
    ensures SoundChecks(earlier + [last], completedAt) <==>
              && SoundChecks(earlier, completedAt) && (last.completedAt.Some? ==> last.completedAt.value.at <= completedAt)
              && forall k :: 0 <= k < |earlier| ==> (earlier[k].source, earlier[k].id) != (last.source, last.id)
  {
    var all := earlier + [last];
    assert forall k :: 0 <= k < |earlier| ==> all[k] == earlier[k];
    assert all[|earlier|] == last;
  }

  lemma AuditOneClear(c: Checks.Check, ids: set<(Checks.Source, int)>, completedAt: int)
    ensures Checks.AuditOne(c, ids, completedAt) == {} <==>
              (c.source, c.id) !in ids && (c.completedAt.Some? ==> c.completedAt.value.at <= completedAt)
  {}

  lemma SucceededInSequence(checks: seq<Checks.Check>, items: seq<Checks.Check>, of: Checks.Check -> bool, m: nat)
    requires Checks.AllConcluded(items) && forall c :: c in items <==> c in checks && of(c)
    requires m < |items| && items[m].conclusion == Some("success") && forall k :: 0 <= k < |items| && k != m ==> Checks.KeyLess(items[k], items[m])
    ensures LatestSucceeded(checks, of)
  {
    var x := items[m];
    assert x in items;
    forall c | c in checks && of(c) && c != x
      ensures c.completed && c.completedAt.Some? && c.conclusion.Some? && Before(c, x)
    {
      assert c in items;
      var k :| 0 <= k < |items| && items[k] == c;
    }
  }

  lemma SucceededAmong(checks: seq<Checks.Check>, items: seq<Checks.Check>, of: Checks.Check -> bool)
    requires Checks.DistinctIds(items) && (forall c :: c in items <==> c in checks && of(c)) && LatestSucceeded(checks, of)
    ensures Checks.AllConcluded(items)
    ensures exists m :: && 0 <= m < |items| && items[m].conclusion == Some("success")
                        && forall k :: 0 <= k < |items| && k != m ==> Checks.KeyLess(items[k], items[m])
  {
    var x: Checks.Check :| x in checks && of(x) && x.completed && x.completedAt.Some? && x.conclusion == Some("success")
      && forall c :: c in checks && of(c) && c != x ==> c.completed && c.completedAt.Some? && c.conclusion.Some? && Before(c, x);
    var m :| 0 <= m < |items| && items[m] == x;
    forall k | 0 <= k < |items| ensures items[k].completed && items[k].completedAt.Some? && items[k].conclusion.Some? { assert items[k] in items; }
    forall k | 0 <= k < |items| && k != m ensures Checks.KeyLess(items[k], items[m]) { assert items[k] in items && items[k].id != items[m].id; }
  }

  /** A sub-sequence with different ids passes exactly when its latest succeeded. */
  lemma LatestPassesExactly(checks: seq<Checks.Check>, items: seq<Checks.Check>, of: Checks.Check -> bool, context: string)
    requires |items| > 0 && Checks.DistinctIds(items) && forall c :: c in items <==> c in checks && of(c)
    ensures Checks.LatestBlocks(items, context) == {} <==> LatestSucceeded(checks, of)
  {
    hide Checks.LatestBlocks, LatestSucceeded, Checks.DistinctIds;
    Checks.LatestOfDistinctSucceedsExactly(items, context);
    if Checks.LatestBlocks(items, context) == {} {
      var m :| 0 <= m < |items| && items[m].conclusion == Some("success") && forall k :: 0 <= k < |items| && k != m ==> Checks.KeyLess(items[k], items[m]);
      SucceededInSequence(checks, items, of, m);
    }
    if LatestSucceeded(checks, of) { SucceededAmong(checks, items, of); }
  }

  lemma NoneSucceeded(checks: seq<Checks.Check>, items: seq<Checks.Check>, of: Checks.Check -> bool)
    requires items == [] && forall c :: c in items <==> c in checks && of(c)
    ensures !LatestSucceeded(checks, of)
  {
    forall m | m in checks ensures !of(m) { assert m in items <==> of(m); }
  }

  lemma CurrentStatusesAre(i: Checks.CheckInputs, context: string)
    requires Checks.DistinctChecks(i.checks)
    ensures forall c :: c in Checks.CurrentStatuses(i, context) <==> c in i.checks && StatusOn(context, i.requiredSha)(c)
    ensures forall c :: c in Checks.StatusesOf(i.checks, context) <==> c in i.checks && c.source == Checks.CommitStatus && c.context == context
    ensures Checks.DistinctIds(Checks.CurrentStatuses(i, context))
  {
    hide Checks.DistinctChecks, Checks.DistinctIds;
    var of := (c: Checks.Check) => c.source == Checks.CommitStatus && c.context == context;
    Checks.FilterKeepsDistinct(i.checks, of);
    Checks.FilterKeepsDistinct(Checks.StatusesOf(i.checks, context), Checks.AtSha(i.requiredSha));
    StatusesDiffer(Checks.CurrentStatuses(i, context));
  }

  lemma StatusesDiffer(items: seq<Checks.Check>)
    requires Checks.DistinctChecks(items) && forall c :: c in items ==> c.source == Checks.CommitStatus
    ensures Checks.DistinctIds(items)
  {
    forall j, k | 0 <= j < k < |items| ensures items[j].id != items[k].id { assert items[j] in items && items[k] in items; }
  }

  lemma StatusPassesExactly(i: Checks.CheckInputs, context: string)
    requires Checks.DistinctChecks(i.checks)
    ensures Checks.StatusBlocks(i, context) == {} <==>
              ((exists c :: c in i.checks && c.source == Checks.CommitStatus && c.context == context) ==> LatestSucceeded(i.checks, StatusOn(context, i.requiredSha)))
  {
    hide Checks.LatestBlocks, Checks.DistinctChecks, Checks.DistinctIds, LatestSucceeded, Checks.StatusesOf, Checks.CurrentStatuses;
    CurrentStatusesAre(i, context);
    var all, current, of := Checks.StatusesOf(i.checks, context), Checks.CurrentStatuses(i, context), StatusOn(context, i.requiredSha);
    if |all| > 0 { assert all[0] in all; }
    if |current| > 0 { LatestPassesExactly(i.checks, current, of, context); } else { NoneSucceeded(i.checks, current, of); }
  }

  /** A requirement adds no block exactly when its check is proven. */
  lemma RequirementPassesExactly(i: Checks.CheckInputs, r: CheckRequirement, enforced: set<CheckRequirement>)
    requires Checks.DistinctChecks(i.checks)
    ensures Checks.RequirementBlocks(i, r, enforced) == {} <==> ProvenCheck(i.checks, i.requiredSha, r, enforced)
  {
    hide Checks.LatestBlocks, Checks.DistinctChecks, Checks.DistinctIds, LatestSucceeded, Checks.AppRuns, Checks.RunsOf, Checks.CurrentRuns, Checks.StatusBlocks;
    StatusPassesExactly(i, r.context);
    Checks.CurrentRunsAre(i, r);
    Checks.CurrentRunsDiffer(i, r);
    AppRunsAre(i, r);
    var app, current := Checks.AppRuns(i.checks, r), Checks.CurrentRuns(i, r);
    if |current| > 0 {
      assert current[0] in app;
      LatestPassesExactly(i.checks, current, RunOn(r, i.requiredSha), r.context);
    } else {
      NoneSucceeded(i.checks, current, RunOn(r, i.requiredSha));
    }
  }

  lemma AppRunsAre(i: Checks.CheckInputs, r: CheckRequirement)
    ensures forall c :: c in Checks.CurrentRuns(i, r) ==> c in Checks.AppRuns(i.checks, r)
  {}

  lemma EnforcedExactly(checks: seq<Checks.Check>, enforced: set<CheckRequirement>)
    ensures Checks.EvidenceEnforced(checks, enforced) <==> RequiredIsEnforced(checks, enforced)
  {
    if RequiredIsEnforced(checks, enforced) {
      forall k | 0 <= k < |checks| ensures checks[k] in checks {}
    }
  }

  /** The checks add no block exactly when they are sound, what GitHub requires is enforced, and every required one is proven. */
  lemma ChecksPassExactly(i: Checks.CheckInputs, required: set<CheckRequirement>, enforced: set<CheckRequirement>)
    ensures Checks.CheckBlocks(i, required, enforced) == {} <==>
              && SoundChecks(i.checks, i.completedAt) && RequiredIsEnforced(i.checks, enforced)
              && forall r :: r in required ==> ProvenCheck(i.checks, i.requiredSha, r, enforced)
  {
    hide Checks.AuditBlocks, Checks.RequirementBlocks, SoundChecks, RequiredIsEnforced, ProvenCheck, Checks.EvidenceEnforced, Checks.DistinctChecks;
    AuditExactly(i.checks, i.completedAt);
    EnforcedExactly(i.checks, enforced);
    if SoundChecks(i.checks, i.completedAt) {
      DistinctIs(i.checks, i.completedAt);
      forall r ensures Checks.RequirementBlocks(i, r, enforced) == {} <==> ProvenCheck(i.checks, i.requiredSha, r, enforced) {
        RequirementPassesExactly(i, r, enforced);
      }
      if Checks.AllRequirementBlocks(i, required, enforced) == {} {
        forall r | r in required ensures Checks.RequirementBlocks(i, r, enforced) == {} { Checks.NoneOfAll(i, required, r, enforced); }
      }
    }
  }

  /** The latest of `items` by time and, at the same time, by id; of two that are the same in both, the one given last. */
  ghost predicate LatestAt(items: seq<Checks.Check>, m: nat) {
    && m < |items| && items[m].completedAt.Some?
    && forall k :: 0 <= k < |items| && k != m ==> Before(items[k], items[m]) || (items[k].completedAt.Some? && !Before(items[m], items[k]) && k < m)
  }

  /** A run that is not completed and, as it should be, says nothing of how it ended. */
  ghost predicate Waiting(c: Checks.Check) { !c.completed && c.conclusion.None? && c.completedAt.None? }

  lemma CodeSays(code: DenyCode, surface: Surface, detail: string, condition: bool)
    ensures forall c :: Says({Block(code, surface, detail)}, c) <==> c == code
    ensures forall c :: Says(When(condition, code, surface, detail), c) <==> c == code && condition
  {
    forall c
      ensures Says({Block(code, surface, detail)}, c) <==> c == code
      ensures Says(When(condition, code, surface, detail), c) <==> c == code && condition
    {
      WhenSays(condition, code, surface, detail, c);
    }
  }

  lemma LastIsLatestAt(items: seq<Checks.Check>, m: nat)
    requires Checks.AllTimed(items)
    ensures Checks.Last(items, m) <==> LatestAt(items, m)
  {}

  /**
    Why a required check blocks: it is pending if some run is waiting and every completed one has its time; it has
    failed if all runs are concluded, the latest without success and not written like the one before it; anything
    else that is not a success is evidence that cannot be judged.
  */
  lemma LatestBlocksSay(items: seq<Checks.Check>, context: string)
    requires |items| > 0
    ensures forall code :: Says(Checks.LatestBlocks(items, context), code) ==> code in {RequiredCheckPending, RequiredCheckFailed, CheckEvidenceIncomplete}
    ensures Says(Checks.LatestBlocks(items, context), RequiredCheckPending) <==>
              && (exists c :: c in items && !c.completed)
              && forall c :: c in items ==> if c.completed then c.completedAt.Some? else Waiting(c)
    ensures Says(Checks.LatestBlocks(items, context), RequiredCheckFailed) <==>
              && Checks.AllConcluded(items)
              && exists m: nat :: && LatestAt(items, m) && items[m].conclusion != Some("success")
                                  && forall n: nat :: LatestAt(Checks.Without(items, m), n) ==>
                                       items[m].id != Checks.Without(items, m)[n].id || items[m].completedAt != Checks.Without(items, m)[n].completedAt
  {
    PendingSays(items);
    Checks.ConcludedIs(items);
    if Checks.AllConcluded(items) { LatestSays(items); }
    hide Checks.EndedWhilePending, Checks.Untimed, Checks.Pending, Checks.Unconcluded, Checks.Ambiguous, Checks.LatestIndex, LatestAt, Waiting, Checks.Without, Checks.AllConcluded;
    OneBlock(items, context);
    hide Checks.LatestBlocks;
  }

  lemma OneBlock(items: seq<Checks.Check>, context: string)
    requires |items| > 0
    ensures forall code :: Says(Checks.LatestBlocks(items, context), code) ==> code in {RequiredCheckPending, RequiredCheckFailed, CheckEvidenceIncomplete}
    ensures Says(Checks.LatestBlocks(items, context), RequiredCheckPending) <==>
              !Checks.EndedWhilePending(items) && !Checks.Untimed(items) && Checks.Pending(items)
    ensures Says(Checks.LatestBlocks(items, context), RequiredCheckFailed) <==>
              && !Checks.EndedWhilePending(items) && !Checks.Untimed(items) && !Checks.Pending(items) && !Checks.Unconcluded(items)
              && !Checks.Ambiguous(items) && items[Checks.LatestIndex(items)].conclusion != Some("success")
  {
    hide Checks.EndedWhilePending, Checks.Untimed, Checks.Pending, Checks.Unconcluded, Checks.Ambiguous, Checks.LatestIndex, Says, When;
    ConcludedForIndex(items);
    CodeSays(CheckEvidenceIncomplete, Named(context), "pending check has terminal fields", true);
    CodeSays(CheckEvidenceIncomplete, Named(context), "completed check has no timestamp", true);
    CodeSays(RequiredCheckPending, Named(context), "required check is pending", true);
    CodeSays(CheckEvidenceIncomplete, Named(context), "completed check has no conclusion", true);
    CodeSays(CheckEvidenceIncomplete, Named(context), "latest check is ambiguous", true);
    if !Checks.Untimed(items) && !Checks.Pending(items) {
      CodeSays(RequiredCheckFailed, Named(context), "required check did not succeed", items[Checks.LatestIndex(items)].conclusion != Some("success"));
    }
  }

  lemma ConcludedForIndex(items: seq<Checks.Check>)
    ensures !Checks.Untimed(items) && !Checks.Pending(items) ==> Checks.AllTimed(items)
  {}

  lemma PendingSays(items: seq<Checks.Check>)
    ensures !Checks.EndedWhilePending(items) && !Checks.Untimed(items) && Checks.Pending(items) <==>
              && (exists c :: c in items && !c.completed)
              && forall c :: c in items ==> if c.completed then c.completedAt.Some? else Waiting(c)
  {
    if Checks.Pending(items) { var k :| 0 <= k < |items| && !items[k].completed; assert items[k] in items; }
    if forall c :: c in items ==> if c.completed then c.completedAt.Some? else Waiting(c) {
      forall k | 0 <= k < |items| ensures if items[k].completed then items[k].completedAt.Some? else Waiting(items[k]) { assert items[k] in items; }
    }
  }

  lemma LatestSays(items: seq<Checks.Check>)
    requires |items| > 0 && Checks.AllConcluded(items)
    ensures !Checks.Ambiguous(items) && items[Checks.LatestIndex(items)].conclusion != Some("success") <==>
              exists m: nat :: && LatestAt(items, m) && items[m].conclusion != Some("success")
                               && forall n: nat :: LatestAt(Checks.Without(items, m), n) ==>
                                    items[m].id != Checks.Without(items, m)[n].id || items[m].completedAt != Checks.Without(items, m)[n].completedAt
  {
    hide Checks.Last, LatestAt, Checks.KeyLess, Checks.Without;
    var m := Checks.LatestIndex(items);
    Checks.LatestIsLast(items);
    forall k: nat ensures Checks.Last(items, k) <==> LatestAt(items, k) { LastIsLatestAt(items, k); }
    Checks.RestIsTimed(items, m);
    var rest := Checks.Without(items, m);
    forall k: nat ensures Checks.Last(rest, k) <==> LatestAt(rest, k) { LastIsLatestAt(rest, k); }
    if |items| > 1 { Checks.LatestIsLast(rest); } else { Checks.NothingLast(rest); }
    assert LatestAt(items, m);
  }

  // ---------------------------------------------------------------- rules

  /** The code each rule type that is not supported is reported under. */
  lemma UnsupportedExactly(ruleType: string)
    ensures Rules.UnsupportedType(ruleType) == Some(MergeQueueRequired) <==> ruleType == "merge_queue"
    ensures Rules.UnsupportedType(ruleType) == Some(UnsupportedRequiredDeployments) <==> ruleType == "required_deployments"
    ensures Rules.UnsupportedType(ruleType) == Some(UnsupportedRequiredSignatures) <==> ruleType == "required_signatures"
    ensures Rules.UnsupportedType(ruleType) == Some(UnsupportedCodeScanning) <==> ruleType == "code_scanning"
    ensures Rules.UnsupportedType(ruleType) == Some(UnsupportedCodeQuality) <==> ruleType == "code_quality"
    ensures Rules.UnsupportedType(ruleType) == Some(UnsupportedFileRestriction) <==> ruleType == "file_path_restriction"
    ensures Rules.UnsupportedType(ruleType) == Some(UnsupportedMetadataRestriction) <==> ruleType == "max_file_size"
  {
    assert "code_scanning"[0] == 'c' && "max_file_size"[0] == 'm';
  }

  /** Classic protection is known and asks for nothing the evaluator cannot judge. */
  ghost predicate SoundClassic(c: Rules.Classic) {
    match c
    case ClassicUnknown => false
    case ClassicAbsent(clean) => clean
    case ClassicPresent(settings, _, complete) =>
      && settings.Some? && complete
      && !settings.value.signatures && !settings.value.codeOwner && !settings.value.restrictions && !settings.value.dismissal
  }

  /** A rule of one of the three supported types, with that type's parameters and no others. */
  ghost predicate SoundRule(r: Rules.Rule) {
    && r.sourceMatches
    && ((r.ruleType == "pull_request" && r.approvalCount.Some? && "squash" in r.methods && r.codeOwner.Some? && !r.codeOwner.value && r.requiredChecks == {} && r.strict.None?)
        || (r.ruleType == "required_status_checks" && r.requiredChecks != {} && r.strict.Some? && r.approvalCount.None? && r.methods == [] && r.codeOwner.None?)
        || (r.ruleType == "required_linear_history" && r.requiredChecks == {} && r.strict.None? && r.approvalCount.None? && r.methods == [] && r.codeOwner.None?))
  }

  lemma RuleClear(r: Rules.Rule)
    ensures Rules.RuleBlocks(r) == {} <==> SoundRule(r)
  {
    SupportedTypes();
    hide Rules.UnsupportedType, When;
    assert |"pull_request"| == 12 && |"required_status_checks"| == 22 && |"required_linear_history"| == 23;
    SquashMeans(r);
    assert Rules.RuleBlocks(r) == {} <==> r.sourceMatches && Rules.TypeBlocks(r) == {};
    if r.ruleType == "pull_request" {
      assert Rules.TypeBlocks(r) == {} <==> Rules.WellFormedPullRequest(r) && r.codeOwner != Some(true) && "squash" in r.methods;
      assert r.codeOwner.Some? ==> (r.codeOwner == Some(true) <==> r.codeOwner.value);
    }
  }

  lemma SquashMeans(r: Rules.Rule)
    ensures "squash" in r.methods ==> |r.methods| > 0
    ensures r.methods == [] <==> |r.methods| == 0
  {}

  lemma SupportedTypes()
    ensures Rules.UnsupportedType("pull_request") == None && Rules.UnsupportedType("required_status_checks") == None
    ensures Rules.UnsupportedType("required_linear_history") == None
  {
    assert "pull_request"[0] == 'p' && "code_quality"[0] == 'c';
  }

  /** The parameters are those of the rule's type, if it is a supported one. */
  ghost predicate OwnParameters(r: Rules.Rule) {
    && (r.ruleType == "pull_request" ==> r.approvalCount.Some? && r.methods != [] && r.requiredChecks == {} && r.strict.None? && r.codeOwner.Some?)
    && (r.ruleType == "required_status_checks" ==> r.approvalCount.None? && r.methods == [] && r.requiredChecks != {} && r.strict.Some? && r.codeOwner.None?)
    && (r.ruleType == "required_linear_history" ==> r.approvalCount.None? && r.methods == [] && r.requiredChecks == {} && r.strict.None? && r.codeOwner.None?)
  }

  /** A rule is reported as drifted exactly if its source differs or its parameters are not those of its type. */
  lemma RuleDriftExactly(r: Rules.Rule)
    ensures Says(Rules.RuleBlocks(r), RulesetDrift) <==> !r.sourceMatches || !OwnParameters(r)
  {
    hide Says, When, OwnParameters;
    var source := When(!r.sourceMatches, RulesetDrift, Rules.RuleSurface(r), "rule source differs");
    WhenSays(!r.sourceMatches, RulesetDrift, Rules.RuleSurface(r), "rule source differs", RulesetDrift);
    BothSay(source, Rules.TypeBlocks(r), RulesetDrift);
    TypeDrift(r);
    hide Rules.TypeBlocks;
  }

  lemma TypeDrift(r: Rules.Rule)
    ensures Says(Rules.TypeBlocks(r), RulesetDrift) <==> !OwnParameters(r)
  {
    hide Says, Rules.TypeBlocks, OwnParameters;
    if r.ruleType == "pull_request" { PullRequestTypeDrift(r); }
    else if r.ruleType == "required_status_checks" { ChecksTypeDrift(r); }
    else if r.ruleType == "required_linear_history" { HistoryTypeDrift(r); }
    else { OtherTypeDrift(r); }
  }

  lemma PullRequestTypeDrift(r: Rules.Rule)
    requires r.ruleType == "pull_request"
    ensures Says(Rules.TypeBlocks(r), RulesetDrift) <==> !OwnParameters(r)
  {
    hide Says, When, Rules.UnsupportedType;
    SupportedTypes();
    assert |"pull_request"| == 12 && |"required_status_checks"| == 22 && |"required_linear_history"| == 23;
    SquashMeans(r);
    PullRequestDrift(r);
  }

  lemma ChecksTypeDrift(r: Rules.Rule)
    requires r.ruleType == "required_status_checks"
    ensures Says(Rules.TypeBlocks(r), RulesetDrift) <==> !OwnParameters(r)
  {
    hide Says, When, Rules.UnsupportedType;
    SupportedTypes();
    assert |"pull_request"| == 12 && |"required_status_checks"| == 22 && |"required_linear_history"| == 23;
    SquashMeans(r);
    WhenSays(!Rules.WellFormedChecks(r), RulesetDrift, Rules.RuleSurface(r), "check parameters differ", RulesetDrift);
  }

  lemma HistoryTypeDrift(r: Rules.Rule)
    requires r.ruleType == "required_linear_history"
    ensures Says(Rules.TypeBlocks(r), RulesetDrift) <==> !OwnParameters(r)
  {
    hide Says, When, Rules.UnsupportedType;
    SupportedTypes();
    assert |"pull_request"| == 12 && |"required_status_checks"| == 22 && |"required_linear_history"| == 23;
    SquashMeans(r);
    WhenSays(!Rules.WellFormedHistory(r), RulesetDrift, Rules.RuleSurface(r), "linear-history parameters differ", RulesetDrift);
  }

  lemma OtherTypeDrift(r: Rules.Rule)
    requires r.ruleType != "pull_request" && r.ruleType != "required_status_checks" && r.ruleType != "required_linear_history"
    ensures !Says(Rules.TypeBlocks(r), RulesetDrift) && OwnParameters(r)
  {
    hide Says, When, Rules.UnsupportedType;
    UnsupportedIsBeyond(r.ruleType);
    WhenSays(true, UnsupportedActiveRule, Rules.RuleSurface(r), r.ruleType, RulesetDrift);
    if Rules.UnsupportedType(r.ruleType).Some? { WhenSays(true, Rules.UnsupportedType(r.ruleType).value, Rules.RuleSurface(r), r.ruleType, RulesetDrift); }
  }

  lemma UnsupportedIsBeyond(ruleType: string)
    ensures Rules.UnsupportedType(ruleType).Some? ==> Rules.UnsupportedType(ruleType).value != RulesetDrift
  {}

  lemma PullRequestDrift(r: Rules.Rule)
    ensures var a := When(!Rules.WellFormedPullRequest(r), RulesetDrift, Rules.RuleSurface(r), "pull-request parameters differ");
            var b := When(r.codeOwner == Some(true), UnsupportedActiveRule, Item("active_rules.code_owner_review_required", r.rulesetId),
                          "ruleset code-owner approval cannot be attributed");
            var c := When("squash" !in r.methods, UnsupportedMergeMethod, Rules.RuleSurface(r), "ruleset does not allow squash");
            Says(a + b + c, RulesetDrift) <==> !Rules.WellFormedPullRequest(r)
  {
    hide Says, When, Rules.WellFormedPullRequest;
    var a := When(!Rules.WellFormedPullRequest(r), RulesetDrift, Rules.RuleSurface(r), "pull-request parameters differ");
    var b := When(r.codeOwner == Some(true), UnsupportedActiveRule, Item("active_rules.code_owner_review_required", r.rulesetId),
                  "ruleset code-owner approval cannot be attributed");
    var c := When("squash" !in r.methods, UnsupportedMergeMethod, Rules.RuleSurface(r), "ruleset does not allow squash");
    WhenSays(!Rules.WellFormedPullRequest(r), RulesetDrift, Rules.RuleSurface(r), "pull-request parameters differ", RulesetDrift);
    WhenSays(r.codeOwner == Some(true), UnsupportedActiveRule, Item("active_rules.code_owner_review_required", r.rulesetId),
             "ruleset code-owner approval cannot be attributed", RulesetDrift);
    WhenSays("squash" !in r.methods, UnsupportedMergeMethod, Rules.RuleSurface(r), "ruleset does not allow squash", RulesetDrift);
    BothSay(a, b, RulesetDrift);
    BothSay(a + b, c, RulesetDrift);
  }

  lemma ClassicClear(c: Rules.Classic)
    ensures Rules.ClassicBlocks(c) == {} <==> SoundClassic(c)
  {}

  /** GitHub itself asks for an approval. */
  ghost predicate ReviewEnforced(c: Rules.Classic, rules: seq<Rules.Rule>) {
    || (c.ClassicPresent? && c.settings.Some? && c.settings.value.reviewCount >= 1)
    || exists r :: r in rules && r.ruleType == "pull_request" && r.approvalCount.Some? && r.approvalCount.value >= 1
  }

  /** GitHub itself asks for the check. */
  ghost predicate CheckEnforced(c: Rules.Classic, rules: seq<Rules.Rule>, check: CheckRequirement) {
    || (c.ClassicPresent? && check in c.requiredChecks)
    || exists r :: r in rules && r.ruleType == "required_status_checks" && check in r.requiredChecks
  }

  ghost predicate SoundRules(c: Rules.Classic, rules: seq<Rules.Rule>) {
    SoundClassic(c) && forall r :: r in rules ==> SoundRule(r)
  }

  /** What is gathered says of the rules what it should. */
  ghost predicate GatheredFrom(c: Rules.Classic, rules: seq<Rules.Rule>, g: Rules.Gathered) {
    && (g.blocks == {} <==> SoundRules(c, rules))
    && (g.blocks == {} ==> (g.reviewEnforced <==> ReviewEnforced(c, rules)))
    && (forall check :: check in g.enforced <==> CheckEnforced(c, rules, check))
  }

  lemma StepGathers(c: Rules.Classic, earlier: seq<Rules.Rule>, last: Rules.Rule, g: Rules.Gathered)
    requires GatheredFrom(c, earlier, g)
    ensures GatheredFrom(c, earlier + [last], Rules.RuleStep(g, last))
  {
    hide Rules.RuleBlocks, SoundClassic, SoundRule, Rules.RuleStep, ReviewEnforced, CheckEnforced;
    RuleClear(last);
    StepIs(g, last);
    EnforcementGrows(c, earlier, last);
    assert forall r :: r in earlier + [last] <==> r in earlier || r == last;
    assert SoundRules(c, earlier + [last]) <==> SoundRules(c, earlier) && SoundRule(last);
  }

  lemma StepIs(g: Rules.Gathered, r: Rules.Rule)
    ensures var t := Rules.RuleStep(g, r);
            && t.blocks == g.blocks + Rules.RuleBlocks(r)
            && t.enforced == g.enforced + (if r.ruleType == "required_status_checks" then r.requiredChecks else {})
            && (SoundRule(r) ==> (t.reviewEnforced <==> g.reviewEnforced || (r.ruleType == "pull_request" && r.approvalCount.Some? && r.approvalCount.value >= 1)))
  {
    hide Rules.RuleBlocks;
    SquashMeans(r);
  }

  lemma EnforcementGrows(c: Rules.Classic, earlier: seq<Rules.Rule>, last: Rules.Rule)
    ensures ReviewEnforced(c, earlier + [last]) <==>
              ReviewEnforced(c, earlier) || (last.ruleType == "pull_request" && last.approvalCount.Some? && last.approvalCount.value >= 1)
    ensures forall check :: CheckEnforced(c, earlier + [last], check) <==>
              CheckEnforced(c, earlier, check) || (last.ruleType == "required_status_checks" && check in last.requiredChecks)
  {}

  lemma ClassicGathers(i: Rules.RuleInputs)
    ensures GatheredFrom(i.classic, [], Rules.AfterClassic(i, {}))
  {
    ClassicClear(i.classic);
    hide Rules.ClassicBlocks;
  }

  lemma {:induction false} GatherExactly(i: Rules.RuleInputs, rules: seq<Rules.Rule>)
    ensures GatheredFrom(i.classic, rules, Rules.Gather(i, rules))
    decreases |rules|
  {
    hide GatheredFrom, Rules.RuleBlocks, Rules.RuleStep, Rules.AfterClassic;
    if |rules| == 0 {
      assert rules == [];
      ClassicGathers(i);
    } else {
      var n := |rules| - 1;
      GatherExactly(i, rules[..n]);
      Rules.GatherLast(i, rules);
      StepGathers(i.classic, rules[..n], rules[n], Rules.Gather(i, rules[..n]));
      assert rules == rules[..n] + [rules[n]];
    }
  }

  /** The rules add no block exactly when each can be judged and GitHub itself enforces an approval and a check. */
  lemma RulesPassExactly(i: Rules.RuleInputs)
    ensures Rules.RulesBlocks(i) == {} <==>
              && SoundRules(i.classic, i.rules) && ReviewEnforced(i.classic, i.rules) && exists c :: CheckEnforced(i.classic, i.rules, c)
    ensures forall c :: c in Rules.Gather(i, i.rules).enforced <==> CheckEnforced(i.classic, i.rules, c)
  {
    hide Rules.Gather, SoundRules, CheckEnforced;
    GatherExactly(i, i.rules);
    var g := Rules.Gather(i, i.rules);
    if g.enforced != {} { var c :| c in g.enforced; }
  }
}
