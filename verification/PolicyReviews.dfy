/**
  Review evaluation (pathfinder_core/merge_policy_proofs.py): the latest decisive review of each
  actor, and the independent human approvals among them.
*/
module PolicyReviews {
  import opened Wrappers
  import opened PolicyTypes

  datatype ReviewState = Approved | RequestedChanges | DismissedReview | Commented | PendingReview

  datatype Decision = DecisionUnknown | DecisionChangesRequested | DecisionReviewRequired | DecisionOther

  /** `submittedAt` is None when the time does not parse. */
  datatype Review = Review(id: int, actorId: int, state: ReviewState, dismissed: bool, submittedAt: Option<int>,
                           commitSha: string, human: bool, permission: string, association: string)

  datatype ReviewInputs = ReviewInputs(
    decision: Decision, completedAt: int, reviews: seq<Review>, codeOwnerRequests: seq<bool>, unresolvedThreads: seq<bool>,
    requiredSha: string, excluded: set<int>, humans: set<int>)

  const EligiblePermissions: set<string> := {"admin", "write"}
  const EligibleAssociations: set<string> := {"OWNER", "MEMBER", "COLLABORATOR"}

  predicate Decisive(r: Review) { r.state in {Approved, RequestedChanges, DismissedReview} || r.dismissed }

  /** A review that takes part in choosing an actor's latest. */
  predicate Counts(r: Review) { Decisive(r) && r.submittedAt.Some? }

  predicate Later(a: Review, b: Review)
    requires a.submittedAt.Some? && b.submittedAt.Some?
  {
    a.submittedAt.value > b.submittedAt.value || (a.submittedAt.value == b.submittedAt.value && a.id > b.id)
  }

  // ---------------------------------------------------------------- one review after the other

  datatype Scan = Scan(effective: map<int, Review>, ids: set<int>, blocks: set<Block>)

  function SingleReviewBlocks(r: Review, completedAt: int): set<Block> {
    if r.submittedAt.None? then {Block(ReviewStateUnknown, Part("reviews"), "review time is invalid")}
    else
      When(r.submittedAt.value > completedAt, ReviewDrift, Item("reviews", r.id), "review postdates observation")
      + When(r.state == PendingReview, ReviewStateUnknown, Item("reviews", r.id), "review is pending")
      + When((r.state == DismissedReview) != r.dismissed, ReviewStateUnknown, Item("reviews", r.id), "review dismissal fields disagree")
  }

  ghost predicate Dated(effective: map<int, Review>) { forall a :: a in effective ==> effective[a].submittedAt.Some? }

  function Choose(effective: map<int, Review>, r: Review): map<int, Review>
    requires r.submittedAt.Some? && Dated(effective)
  {
    if r.actorId !in effective || Later(r, effective[r.actorId]) then effective[r.actorId := r] else effective
  }

  function TieBlocks(effective: map<int, Review>, r: Review): set<Block> {
    When(r.actorId in effective && effective[r.actorId].submittedAt == r.submittedAt, ReviewDrift, Item("reviews", r.actorId),
         "latest review is ambiguous")
  }

  function ScanStep(s: Scan, r: Review, completedAt: int): (t: Scan)
    requires Dated(s.effective)
    ensures Dated(t.effective)
  {
    var repeated := When(r.id in s.ids, ReviewDrift, Item("reviews", r.id), "review id is duplicated");
    var blocks := s.blocks + repeated + SingleReviewBlocks(r, completedAt);
    if !Counts(r) then Scan(s.effective, s.ids + {r.id}, blocks)
    else Scan(Choose(s.effective, r), s.ids + {r.id}, blocks + TieBlocks(s.effective, r))
  }

  function ScanReviews(reviews: seq<Review>, completedAt: int, found: set<Block>): (s: Scan)
    ensures Dated(s.effective)
  {
    if |reviews| == 0 then Scan(map[], {}, found)
    else ScanStep(ScanReviews(reviews[..|reviews| - 1], completedAt, found), reviews[|reviews| - 1], completedAt)
  }

  /** The reviews chosen do not depend on what was found before. */
  function EffectiveReviews(reviews: seq<Review>): (effective: map<int, Review>)
    ensures Dated(effective)
  {
    ScanReviews(reviews, 0, {}).effective
  }

  // ---------------------------------------------------------------- the whole evaluation

  predicate ApprovesIndependently(i: ReviewInputs, r: Review) {
    && r.state == Approved && !r.dismissed && r.commitSha == i.requiredSha && r.human
    && r.permission in EligiblePermissions && r.association in EligibleAssociations
    && r.actorId in i.humans && r.actorId !in i.excluded
  }

  function ApprovalsAmong(i: ReviewInputs, effective: map<int, Review>, actors: set<int>): set<int> {
    set a | a in actors && a in effective && ApprovesIndependently(i, effective[a])
  }

  function Approvals(i: ReviewInputs): set<int> {
    var effective := EffectiveReviews(i.reviews);
    ApprovalsAmong(i, effective, effective.Keys)
  }

  function ChangeBlock(r: Review): Block { Block(ChangesRequested, Item("reviews", r.id), "effective changes are requested") }

  function ChangeBlocks(effective: map<int, Review>, actors: set<int>): set<Block> {
    set a | a in actors && a in effective && effective[a].state == RequestedChanges && !effective[a].dismissed :: ChangeBlock(effective[a])
  }

  function DecisionBlocks(d: Decision): set<Block> {
    match d
    case DecisionUnknown => {Block(ReviewStateUnknown, Part("mergeability.review_decision"), "review decision is unknown")}
    case DecisionChangesRequested => {Block(ChangesRequested, Part("mergeability.review_decision"), "GitHub reports requested changes")}
    case DecisionReviewRequired => {Block(IndependentReviewMissing, Part("mergeability.review_decision"), "GitHub still requires review")}
    case DecisionOther => {}
  }

  function ReviewBlocks(i: ReviewInputs, required: int): set<Block> {
    var effective := EffectiveReviews(i.reviews);
    DecisionBlocks(i.decision) + ScanReviews(i.reviews, i.completedAt, {}).blocks + ChangeBlocks(effective, effective.Keys)
    + When(true in i.codeOwnerRequests, CodeOwnerReviewMissing, Part("review_requests"), "code-owner review is still requested")
    + When(true in i.unresolvedThreads, UnresolvedThread, Part("review_threads"), "a current review thread is unresolved")
    + When(|Approvals(i)| < required, IndependentReviewMissing, Part("reviews"), "independent approval floor is unmet")
  }

  lemma {:induction false} ScanFactors(reviews: seq<Review>, completedAt: int, other: int, found: set<Block>)
    ensures ScanReviews(reviews, completedAt, found).blocks == found + ScanReviews(reviews, completedAt, {}).blocks
    ensures ScanReviews(reviews, completedAt, found).effective == ScanReviews(reviews, other, {}).effective
    ensures ScanReviews(reviews, completedAt, found).ids == ScanReviews(reviews, other, {}).ids
    decreases |reviews|
  {
    if |reviews| > 0 {
      ScanFactors(reviews[..|reviews| - 1], completedAt, other, found);
      ScanFactors(reviews[..|reviews| - 1], completedAt, other, {});
      hide SingleReviewBlocks, TieBlocks, When;
    }
  }

  /** The blocks a review earns by itself. */
  method AddSingleReview(r: Review, completedAt: int, blocks: Blocks)
    requires blocks.Valid()
    modifies blocks
    ensures blocks.Valid() && blocks.seen == old(blocks.seen) + SingleReviewBlocks(r, completedAt)
  {
    if r.submittedAt.None? {
      blocks.Add(ReviewStateUnknown, Part("reviews"), "review time is invalid");
      return;
    }
    blocks.AddWhen(r.submittedAt.value > completedAt, ReviewDrift, Item("reviews", r.id), "review postdates observation");
    blocks.AddWhen(r.state == PendingReview, ReviewStateUnknown, Item("reviews", r.id), "review is pending");
    blocks.AddWhen((r.state == DismissedReview) != r.dismissed, ReviewStateUnknown, Item("reviews", r.id), "review dismissal fields disagree");
  }

  /** One review of the loop. */
  method ScanOne(r: Review, completedAt: int, effective: map<int, Review>, ids: set<int>, blocks: Blocks)
    returns (effective': map<int, Review>, ids': set<int>)
    requires blocks.Valid() && Dated(effective)
    modifies blocks
    ensures blocks.Valid() && Scan(effective', ids', blocks.seen) == ScanStep(Scan(effective, ids, old(blocks.seen)), r, completedAt)
  {
    blocks.AddWhen(r.id in ids, ReviewDrift, Item("reviews", r.id), "review id is duplicated");
    effective', ids' := effective, ids + {r.id};
    AddSingleReview(r, completedAt, blocks);
    hide SingleReviewBlocks, When;
    if r.submittedAt.None? { return; }
    if r.state !in {Approved, RequestedChanges, DismissedReview} && !r.dismissed { return; }
    blocks.AddWhen(r.actorId in effective && effective[r.actorId].submittedAt == r.submittedAt, ReviewDrift, Item("reviews", r.actorId),
                   "latest review is ambiguous");
    if r.actorId !in effective || Later(r, effective[r.actorId]) { effective' := effective[r.actorId := r]; }
  }

  method ScanLoop(reviews: seq<Review>, completedAt: int, blocks: Blocks) returns (effective: map<int, Review>)
    requires blocks.Valid()
    modifies blocks
    ensures blocks.Valid() && effective == EffectiveReviews(reviews)
    ensures blocks.seen == old(blocks.seen) + ScanReviews(reviews, completedAt, {}).blocks
  {
    effective := map[];
    var ids: set<int> := {};
    for k := 0 to |reviews|
      invariant blocks.Valid() && Scan(effective, ids, blocks.seen) == ScanReviews(reviews[..k], completedAt, old(blocks.seen))
    {
      assert reviews[..k + 1][..k] == reviews[..k];
      hide ScanStep;
      effective, ids := ScanOne(reviews[k], completedAt, effective, ids, blocks);
    }
    assert reviews[..|reviews|] == reviews;
    ScanFactors(reviews, completedAt, 0, old(blocks.seen));
  }

  lemma OneMoreActor(i: ReviewInputs, effective: map<int, Review>, actors: set<int>, a: int)
    requires a in effective
    ensures ApprovalsAmong(i, effective, actors + {a}) == ApprovalsAmong(i, effective, actors) + (if ApprovesIndependently(i, effective[a]) then {a} else {})
    ensures ChangeBlocks(effective, actors + {a}) == ChangeBlocks(effective, actors)
            + When(effective[a].state == RequestedChanges && !effective[a].dismissed, ChangesRequested, Item("reviews", effective[a].id), "effective changes are requested")
  {
    var r := effective[a];
    var more := ChangeBlocks(effective, actors) + When(r.state == RequestedChanges && !r.dismissed, ChangesRequested, Item("reviews", r.id), "effective changes are requested");
    assert more <= ChangeBlocks(effective, actors + {a}) by {
      if r.state == RequestedChanges && !r.dismissed { assert ChangeBlock(effective[a]) in ChangeBlocks(effective, actors + {a}); }
    }
  }

  lemma SomeActor(actors: set<int>)
    ensures actors != {} ==> exists a :: a in actors
  {
    if forall a :: a !in actors { assert actors == {}; }
  }

  /** One actor's effective review. */
  method JudgeActor(i: ReviewInputs, effective: map<int, Review>, ghost judged: set<int>, a: int, approvals: set<int>,
                    ghost start: set<Block>, blocks: Blocks)
    returns (approvals': set<int>)
    requires blocks.Valid() && a in effective && approvals == ApprovalsAmong(i, effective, judged)
    requires blocks.seen == start + ChangeBlocks(effective, judged)
    modifies blocks
    ensures blocks.Valid() && approvals' == ApprovalsAmong(i, effective, judged + {a})
    ensures blocks.seen == start + ChangeBlocks(effective, judged + {a})
  {
    var r := effective[a];
    OneMoreActor(i, effective, judged, a);
    hide ApprovalsAmong, ChangeBlocks, When;
    blocks.AddWhen(r.state == RequestedChanges && !r.dismissed, ChangesRequested, Item("reviews", r.id), "effective changes are requested");
    approvals' := if ApprovesIndependently(i, r) then approvals + {a} else approvals;
  }

  method CollectApprovals(i: ReviewInputs, effective: map<int, Review>, blocks: Blocks) returns (approvals: set<int>)
    requires blocks.Valid()
    modifies blocks
    ensures blocks.Valid() && approvals == ApprovalsAmong(i, effective, effective.Keys)
    ensures blocks.seen == old(blocks.seen) + ChangeBlocks(effective, effective.Keys)
  {
    var remaining := effective.Keys;
    ghost var judged: set<int> := {};
    approvals := {};
    assert ApprovalsAmong(i, effective, judged) == {} && ChangeBlocks(effective, judged) == {};
    hide ApprovalsAmong, ChangeBlocks, When;
    while remaining != {}
      invariant blocks.Valid() && judged == effective.Keys - remaining && remaining <= effective.Keys
      invariant approvals == ApprovalsAmong(i, effective, judged)
      invariant blocks.seen == old(blocks.seen) + ChangeBlocks(effective, judged)
      decreases |remaining|
    {
      SomeActor(remaining);
      var a :| a in remaining;
      approvals := JudgeActor(i, effective, judged, a, approvals, old(blocks.seen), blocks);
      judged, remaining := judged + {a}, remaining - {a};
    }
    assert judged == effective.Keys;
  }

  method AddDecision(d: Decision, blocks: Blocks)
    requires blocks.Valid()
    modifies blocks
    ensures blocks.Valid() && blocks.seen == old(blocks.seen) + DecisionBlocks(d)
  {
    match d {
      case DecisionUnknown => blocks.Add(ReviewStateUnknown, Part("mergeability.review_decision"), "review decision is unknown");
      case DecisionChangesRequested => blocks.Add(ChangesRequested, Part("mergeability.review_decision"), "GitHub reports requested changes");
      case DecisionReviewRequired => blocks.Add(IndependentReviewMissing, Part("mergeability.review_decision"), "GitHub still requires review");
      case DecisionOther =>
    }
  }

  /** `evaluate_reviews`. */
  method EvaluateReviews(i: ReviewInputs, required: int, blocks: Blocks) returns (approvals: set<int>)
    requires blocks.Valid()
    modifies blocks
    ensures blocks.Valid() && approvals == Approvals(i)
    ensures blocks.seen == old(blocks.seen) + ReviewBlocks(i, required)
  {
    hide When, DecisionBlocks, ScanReviews, EffectiveReviews, ChangeBlocks, ApprovalsAmong, ReviewBlocks;
    AddDecision(i.decision, blocks);
    var effective := ScanLoop(i.reviews, i.completedAt, blocks);
    approvals := CollectApprovals(i, effective, blocks);
    blocks.AddWhen(true in i.codeOwnerRequests, CodeOwnerReviewMissing, Part("review_requests"), "code-owner review is still requested");
    blocks.AddWhen(true in i.unresolvedThreads, UnresolvedThread, Part("review_threads"), "a current review thread is unresolved");
    blocks.AddWhen(|approvals| < required, IndependentReviewMissing, Part("reviews"), "independent approval floor is unmet");
    ReviewBlocksAdd(i, required, old(blocks.seen));
  }

  lemma ReviewBlocksAdd(i: ReviewInputs, required: int, start: set<Block>)
    ensures var effective := EffectiveReviews(i.reviews);
            start + ReviewBlocks(i, required)
            == start + DecisionBlocks(i.decision) + ScanReviews(i.reviews, i.completedAt, {}).blocks + ChangeBlocks(effective, effective.Keys)
               + When(true in i.codeOwnerRequests, CodeOwnerReviewMissing, Part("review_requests"), "code-owner review is still requested")
               + When(true in i.unresolvedThreads, UnresolvedThread, Part("review_threads"), "a current review thread is unresolved")
               + When(|Approvals(i)| < required, IndependentReviewMissing, Part("reviews"), "independent approval floor is unmet")
  {
    hide When, DecisionBlocks, ScanReviews, EffectiveReviews, ChangeBlocks, Approvals;
  }

  // ---------------------------------------------------------------- the latest review per actor

  /** `a` approved, rejected or had a review dismissed at a time that parses. */
  ghost predicate Decided(r: Review, a: int) {
    r.actorId == a && r.submittedAt.Some? && (r.state == Approved || r.state == RequestedChanges || r.state == DismissedReview || r.dismissed)
  }

  /** `r` is the latest decisive review of its actor among `reviews`, by time and then by id. */
  ghost predicate LatestOf(reviews: seq<Review>, a: int, r: Review) {
    && r in reviews && Decided(r, a)
    && forall q :: q in reviews && Decided(q, a) ==>
         q.submittedAt.value < r.submittedAt.value || (q.submittedAt == r.submittedAt && q.id <= r.id)
  }

  /** The fold keeps, for exactly the actors with a counting review, the latest one. */
  lemma {:induction false} EffectiveIsLatest(reviews: seq<Review>)
    ensures var effective := EffectiveReviews(reviews);
            && (forall a :: a in effective ==> LatestOf(reviews, a, effective[a]))
            && (forall r, a :: r in reviews && Decided(r, a) ==> a in effective)
    decreases |reviews|
  {
    if |reviews| > 0 {
      var earlier, last := reviews[..|reviews| - 1], reviews[|reviews| - 1];
      EffectiveIsLatest(earlier);
      assert reviews == earlier + [last];
      var before, after := EffectiveReviews(earlier), EffectiveReviews(reviews);
      assert after == if Counts(last) then Choose(before, last) else before;
      hide ScanReviews, EffectiveReviews;
      forall a | a in after
        ensures LatestOf(reviews, a, after[a])
      {
        LatestStays(earlier, last, before, a);
      }
    }
  }

  lemma LatestStays(earlier: seq<Review>, last: Review, before: map<int, Review>, a: int)
    requires Dated(before) && (forall a :: a in before ==> LatestOf(earlier, a, before[a]))
    requires forall r :: r in earlier && Counts(r) ==> r.actorId in before
    ensures var after := if Counts(last) then Choose(before, last) else before;
            a in after ==> LatestOf(earlier + [last], a, after[a])
  {
    assert a in before ==> LatestOf(earlier, a, before[a]);
  }

  /**
    The review chosen for each actor does not depend on the order of the reviews, as long as no two
    different reviews of an actor have the same time and id.
  */
  lemma EffectiveIgnoresOrder(reviews: seq<Review>, shuffled: seq<Review>)
    requires forall r :: r in reviews <==> r in shuffled
    requires forall q, r :: q in reviews && r in reviews && q.actorId == r.actorId && q.id == r.id && q.submittedAt == r.submittedAt ==> q == r
    ensures EffectiveReviews(reviews) == EffectiveReviews(shuffled)
  {
    EffectiveIsLatest(reviews);
    EffectiveIsLatest(shuffled);
    var one, two := EffectiveReviews(reviews), EffectiveReviews(shuffled);
    hide EffectiveReviews, Decisive;
    forall a | a in one || a in two
      ensures a in one && a in two && one[a] == two[a]
    {
      if a in one { assert LatestOf(reviews, a, one[a]); }
      if a in two { assert LatestOf(shuffled, a, two[a]); }
    }
  }

  // ---------------------------------------------------------------- what no block means

  /** An approval of the commit `sha` by a human whom the repository trusts with writing. */
  ghost predicate ApprovalOf(sha: string, r: Review) {
    && r.state == Approved && !r.dismissed && r.commitSha == sha && r.human
    && (r.permission == "admin" || r.permission == "write")
    && (r.association == "OWNER" || r.association == "MEMBER" || r.association == "COLLABORATOR")
  }

  /** An actor is counted exactly when it is listed, not excluded, and its latest decisive review approves the required commit. */
  lemma ApprovedExactly(i: ReviewInputs, a: int)
    ensures a in Approvals(i) <==>
              && a in i.humans && a !in i.excluded
              && a in EffectiveReviews(i.reviews) && LatestOf(i.reviews, a, EffectiveReviews(i.reviews)[a])
              && ApprovalOf(i.requiredSha, EffectiveReviews(i.reviews)[a])
  {
    EffectiveIsLatest(i.reviews);
    hide EffectiveReviews;
    if a in EffectiveReviews(i.reviews) { assert LatestOf(i.reviews, a, EffectiveReviews(i.reviews)[a]); }
  }

  /**
    If the evaluation adds no block, at least `required` distinct listed humans, none of them
    excluded, have as their latest decisive review an undismissed approval of the required commit,
    and nobody's latest asks for changes.
  */
  lemma NoReviewBlockMeans(i: ReviewInputs, required: int)
    requires ReviewBlocks(i, required) == {}
    ensures |Approvals(i)| >= required
    ensures forall a :: a in Approvals(i) ==>
              a in i.humans && a !in i.excluded && exists r :: LatestOf(i.reviews, a, r) && ApprovalOf(i.requiredSha, r)
    ensures forall a :: a in EffectiveReviews(i.reviews) ==>
              LatestOf(i.reviews, a, EffectiveReviews(i.reviews)[a])
              && (EffectiveReviews(i.reviews)[a].state != RequestedChanges || EffectiveReviews(i.reviews)[a].dismissed)
    ensures !(true in i.codeOwnerRequests) && !(true in i.unresolvedThreads) && i.decision == DecisionOther
  {
    EffectiveIsLatest(i.reviews);
    var effective := EffectiveReviews(i.reviews);
    assert ChangeBlocks(effective, effective.Keys) == {} && DecisionBlocks(i.decision) == {};
    NoChangesRequested(effective);
    hide EffectiveReviews, ScanReviews, Approvals, ApprovalOf, LatestOf;
    forall a | a in Approvals(i)
      ensures a in i.humans && a !in i.excluded && exists r :: LatestOf(i.reviews, a, r) && ApprovalOf(i.requiredSha, r)
    {
      ApprovedExactly(i, a);
    }
  }

  lemma NoChangesRequested(effective: map<int, Review>)
    requires ChangeBlocks(effective, effective.Keys) == {}
    ensures forall a :: a in effective ==> effective[a].state != RequestedChanges || effective[a].dismissed
  {
    forall a | a in effective
      ensures effective[a].state != RequestedChanges || effective[a].dismissed
    {
      assert ChangeBlock(effective[a]) !in ChangeBlocks(effective, effective.Keys);
    }
  }
}
