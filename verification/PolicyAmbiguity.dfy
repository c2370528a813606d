/**
  When "latest review is ambiguous" is reported (pathfinder_core/merge_policy_proofs.py): the loop
  compares each review with the latest met so far, so the report can depend on the order of the input.
*/
module PolicyAmbiguity {
  import opened Wrappers
  import opened PolicyTypes
  import opened PolicyReviews

  /** The block that reports actor `a`. */
  function TieBlock(a: int): Block { Block(ReviewDrift, Item("reviews", a), "latest review is ambiguous") }

  ghost predicate Reported(reviews: seq<Review>, a: int, completedAt: int) {
    TieBlock(a) in ScanReviews(reviews, completedAt, {}).blocks
  }

  /** No review of `a` that counts is later than `at`. */
  ghost predicate NoneAfter(reviews: multiset<Review>, a: int, at: int) {
    forall r :: r in reviews && Decided(r, a) ==> r.submittedAt.value <= at
  }

  /** Two reviews of `a` that count and have the same time; the same review given twice is two. */
  ghost predicate Tied(reviews: multiset<Review>, a: int, q: Review, r: Review) {
    && q in reviews && r in reviews && (q == r ==> reviews[r] >= 2)
    && Decided(q, a) && Decided(r, a) && q.submittedAt == r.submittedAt
  }

  ghost predicate SharesTime(reviews: multiset<Review>, a: int) { exists q, r :: Tied(reviews, a, q, r) }

  ghost predicate SharesLatest(reviews: multiset<Review>, a: int) {
    exists q, r :: Tied(reviews, a, q, r) && NoneAfter(reviews, a, r.submittedAt.value)
  }

  // ---------------------------------------------------------------- what one order reports

  /** At position `i` the loop meets a review as late as the latest of the actor before it. */
  ghost predicate MetTie(reviews: seq<Review>, a: int, j: int, i: int) {
    && 0 <= j < i < |reviews| && Decided(reviews[j], a) && Decided(reviews[i], a)
    && reviews[j].submittedAt == reviews[i].submittedAt
    && forall k :: 0 <= k < i && Decided(reviews[k], a) ==> reviews[k].submittedAt.value <= reviews[i].submittedAt.value
  }

  ghost predicate MeetsTie(reviews: seq<Review>, a: int) { exists j, i :: MetTie(reviews, a, j, i) }

  /** The other blocks of a review say something else. */
  lemma OtherBlocksDiffer(s: Scan, r: Review, completedAt: int, a: int)
    requires Dated(s.effective)
    ensures TieBlock(a) in ScanStep(s, r, completedAt).blocks
            <==> TieBlock(a) in s.blocks || (Counts(r) && TieBlock(a) in TieBlocks(s.effective, r))
  {
    var detail := TieBlock(a).detail;
    assert detail[0] == 'l' && detail[7] == 'r';
    assert "review id is duplicated"[0] == 'r' && "review time is invalid"[0] == 'r' && "review postdates observation"[0] == 'r'
      && "review is pending"[0] == 'r' && "review dismissal fields disagree"[0] == 'r';
  }

  /** An actor is reported in a given order exactly when the loop meets a tie with the latest so far. */
  lemma {:induction false} ReportedExactly(reviews: seq<Review>, a: int, completedAt: int)
    ensures Reported(reviews, a, completedAt) <==> MeetsTie(reviews, a)
    decreases |reviews|
  {
    if |reviews| > 0 {
      var earlier, last := reviews[..|reviews| - 1], reviews[|reviews| - 1];
      ReportedExactly(earlier, a, completedAt);
      OtherBlocksDiffer(ScanReviews(earlier, completedAt, {}), last, completedAt, a);
      ScanFactors(earlier, completedAt, 0, {});
      LastMeetsTie(earlier, last, a);
      MeetsLater(earlier, last, a);
      hide ScanReviews, ScanStep, MeetsTie, EffectiveReviews;
      assert reviews == earlier + [last];
      assert TieBlock(a) in TieBlocks(EffectiveReviews(earlier), last) <==>
        last.actorId == a && a in EffectiveReviews(earlier) && EffectiveReviews(earlier)[a].submittedAt == last.submittedAt;
    }
  }

  ghost predicate MeetsLast(earlier: seq<Review>, last: Review, a: int) {
    exists j :: MetTie(earlier + [last], a, j, |earlier|)
  }

  lemma MeetsLater(earlier: seq<Review>, last: Review, a: int)
    ensures MeetsTie(earlier + [last], a) <==> MeetsTie(earlier, a) || MeetsLast(earlier, last, a)
  {
    var all := earlier + [last];
    forall j, i | MetTie(earlier, a, j, i) ensures MetTie(all, a, j, i) {}
    forall j, i | MetTie(all, a, j, i) && i < |earlier| ensures MetTie(earlier, a, j, i) {
      forall k | 0 <= k < i && Decided(earlier[k], a) ensures earlier[k].submittedAt.value <= earlier[i].submittedAt.value { assert all[k] == earlier[k]; }
    }
  }

  lemma LastMeetsTie(earlier: seq<Review>, last: Review, a: int)
    ensures MeetsLast(earlier, last, a) <==>
              Decided(last, a) && a in EffectiveReviews(earlier) && EffectiveReviews(earlier)[a].submittedAt == last.submittedAt
  {
    EffectiveIsLatest(earlier);
    hide EffectiveReviews;
    var all, n := earlier + [last], |earlier|;
    if j :| MetTie(all, a, j, n) {
      assert all[j] == earlier[j] && earlier[j] in earlier;
      var r := EffectiveReviews(earlier)[a];
      assert LatestOf(earlier, a, r);
      var k :| 0 <= k < n && earlier[k] == r;
      assert all[k] == r;
    }
    if Decided(last, a) && a in EffectiveReviews(earlier) && EffectiveReviews(earlier)[a].submittedAt == last.submittedAt {
      var r := EffectiveReviews(earlier)[a];
      assert LatestOf(earlier, a, r);
      var k :| 0 <= k < n && earlier[k] == r;
      forall m | 0 <= m < n && Decided(all[m], a) ensures all[m].submittedAt.value <= last.submittedAt.value { assert all[m] == earlier[m] && earlier[m] in earlier; }
      assert MetTie(all, a, k, n);
    }
  }

  // ---------------------------------------------------------------- positions and multisets

  lemma PositionsAreTied(reviews: seq<Review>, a: int, j: int, i: int)
    requires 0 <= j < i < |reviews| && Decided(reviews[j], a) && Decided(reviews[i], a) && reviews[j].submittedAt == reviews[i].submittedAt
    ensures Tied(multiset(reviews), a, reviews[j], reviews[i])
  {
    assert reviews == reviews[..i] + reviews[i..];
    assert multiset(reviews) == multiset(reviews[..i]) + multiset(reviews[i..]);
    assert reviews[j] in reviews[..i] && reviews[i..][0] == reviews[i];
  }

  /** Two tied reviews stand at two positions. */
  lemma TiedHasPositions(reviews: seq<Review>, a: int, q: Review, r: Review) returns (j: nat, i: nat)
    requires Tied(multiset(reviews), a, q, r)
    ensures j < i < |reviews| && {reviews[j], reviews[i]} == {q, r}
  {
    j :| 0 <= j < |reviews| && reviews[j] == q;
    var before, after := reviews[..j], reviews[j + 1..];
    assert reviews == before + [q] + after;
    assert multiset(reviews) == multiset(before) + multiset{q} + multiset(after);
    assert r in before || r in after;
    if r in before {
      i := j;
      j :| 0 <= j < |before| && before[j] == r;
    } else {
      var k :| 0 <= k < |after| && after[k] == r;
      i := j + 1 + k;
    }
  }

  /** `reviews` with positions `j` and `i` first. */
  lemma TwoFirst(reviews: seq<Review>, j: nat, i: nat) returns (shuffled: seq<Review>)
    requires j < i < |reviews|
    ensures multiset(shuffled) == multiset(reviews) && |shuffled| >= 2 && shuffled[0] == reviews[j] && shuffled[1] == reviews[i]
  {
    shuffled := [reviews[j], reviews[i]] + reviews[..j] + reviews[j + 1..i] + reviews[i + 1..];
    assert reviews == reviews[..j] + [reviews[j]] + reviews[j + 1..i] + [reviews[i]] + reviews[i + 1..];
  }

  /** `reviews` with position `i` first. */
  lemma OneFirst(reviews: seq<Review>, i: nat) returns (shuffled: seq<Review>)
    requires i < |reviews|
    ensures multiset(shuffled) == multiset(reviews) && |shuffled| >= 1 && shuffled[0] == reviews[i]
  {
    shuffled := [reviews[i]] + reviews[..i] + reviews[i + 1..];
    assert reviews == reviews[..i] + [reviews[i]] + reviews[i + 1..];
  }

  // ---------------------------------------------------------------- every order

  /** What any order reports is a tie somewhere. */
  lemma ReportedShares(reviews: seq<Review>, a: int)
    requires MeetsTie(reviews, a)
    ensures SharesTime(multiset(reviews), a)
  {
    var j, i :| MetTie(reviews, a, j, i);
    PositionsAreTied(reviews, a, j, i);
  }

  /** A tie for the latest time is met in every order: at the later of the first two reviews with that time. */
  lemma LatestIsAlwaysMet(reviews: seq<Review>, a: int)
    requires SharesLatest(multiset(reviews), a)
    ensures MeetsTie(reviews, a)
  {
    var q, r :| Tied(multiset(reviews), a, q, r) && NoneAfter(multiset(reviews), a, r.submittedAt.value);
    var j, i := TiedHasPositions(reviews, a, q, r);
    forall k | 0 <= k < i && Decided(reviews[k], a) ensures reviews[k].submittedAt.value <= reviews[i].submittedAt.value {
      assert reviews[k] in multiset(reviews);
    }
    assert MetTie(reviews, a, j, i);
  }

  /** Any tie is met by the order that begins with it. */
  lemma TieCanBeMet(reviews: seq<Review>, a: int) returns (shuffled: seq<Review>)
    requires SharesTime(multiset(reviews), a)
    ensures multiset(shuffled) == multiset(reviews) && MeetsTie(shuffled, a)
  {
    var q, r :| Tied(multiset(reviews), a, q, r);
    var j, i := TiedHasPositions(reviews, a, q, r);
    shuffled := TwoFirst(reviews, j, i);
    assert MetTie(shuffled, a, 0, 1);
  }

  /** A tie below the latest time is not met by the order that begins with the latest. */
  lemma OlderTieCanBeMissed(reviews: seq<Review>, a: int) returns (shuffled: seq<Review>)
    requires !SharesLatest(multiset(reviews), a)
    ensures multiset(shuffled) == multiset(reviews) && !MeetsTie(shuffled, a)
  {
    EffectiveIsLatest(reviews);
    if a in EffectiveReviews(reviews) {
      var latest := EffectiveReviews(reviews)[a];
      assert LatestOf(reviews, a, latest);
      var p :| 0 <= p < |reviews| && reviews[p] == latest;
      shuffled := OneFirst(reviews, p);
      LatestFirst(reviews, shuffled, a, latest);
    } else {
      shuffled := reviews;
    }
  }

  lemma LatestFirst(reviews: seq<Review>, shuffled: seq<Review>, a: int, latest: Review)
    requires multiset(shuffled) == multiset(reviews) && |shuffled| > 0 && shuffled[0] == latest
    requires LatestOf(reviews, a, latest) && !SharesLatest(multiset(reviews), a)
    ensures !MeetsTie(shuffled, a)
  {
    if MeetsTie(shuffled, a) {
      var j, i :| MetTie(shuffled, a, j, i);
      PositionsAreTied(shuffled, a, j, i);
    }
  }

  /** Two orders of the same reviews. */
  ghost predicate SameReviews(one: seq<Review>, two: seq<Review>) { multiset(one) == multiset(two) }

  /**
    Whether an actor is reported, over all orders of the same reviews: always if two of its counting
    reviews share its latest time, never if no two share a time, and otherwise, when only older ones do,
    by one order and not by another.
  */
  lemma ReportOverOrders(reviews: seq<Review>, a: int, completedAt: int)
    ensures SharesLatest(multiset(reviews), a) ==>
              forall s | SameReviews(s, reviews) :: Reported(s, a, completedAt)
    ensures !SharesTime(multiset(reviews), a) ==>
              forall s | SameReviews(s, reviews) :: !Reported(s, a, completedAt)
    ensures SharesTime(multiset(reviews), a) && !SharesLatest(multiset(reviews), a) ==>
              && (exists s :: SameReviews(s, reviews) && Reported(s, a, completedAt))
              && (exists s :: SameReviews(s, reviews) && !Reported(s, a, completedAt))
  {
    hide Reported, SharesTime, SharesLatest, MeetsTie;
    forall s | SameReviews(s, reviews)
      ensures Reported(s, a, completedAt) ==> SharesTime(multiset(reviews), a)
      ensures SharesLatest(multiset(reviews), a) ==> Reported(s, a, completedAt)
    {
      ReportedExactly(s, a, completedAt);
      if MeetsTie(s, a) { ReportedShares(s, a); }
      if SharesLatest(multiset(s), a) { LatestIsAlwaysMet(s, a); }
    }
    if SharesTime(multiset(reviews), a) && !SharesLatest(multiset(reviews), a) {
      var met := TieCanBeMet(reviews, a);
      ReportedExactly(met, a, completedAt);
      var missed := OlderTieCanBeMissed(reviews, a);
      ReportedExactly(missed, a, completedAt);
      assert SameReviews(met, reviews) && SameReviews(missed, reviews);
    }
  }

  /**
    An actor is reported alike in every order of the reviews if and only if no two of its counting
    reviews share a time, or two share its latest time.
  */
  lemma ReportIgnoresOrderExactly(reviews: seq<Review>, a: int, completedAt: int)
    ensures (forall s, t | SameReviews(s, reviews) && SameReviews(t, reviews) :: Reported(s, a, completedAt) == Reported(t, a, completedAt))
            <==> !SharesTime(multiset(reviews), a) || SharesLatest(multiset(reviews), a)
  {
    ReportOverOrders(reviews, a, completedAt);
    hide Reported, SharesTime, SharesLatest;
  }

  /** The report is among the blocks that `evaluate_reviews` adds exactly when the loop over reviews adds it. */
  lemma ReportIsAdded(i: ReviewInputs, required: int, a: int)
    ensures TieBlock(a) in ReviewBlocks(i, required) <==> Reported(i.reviews, a, i.completedAt)
  {
    hide ScanReviews, EffectiveReviews, Approvals;
  }

  lemma ScanOfThree(a: Review, b: Review, c: Review)
    ensures ScanReviews([a, b, c], 9, {}) == ScanStep(ScanStep(ScanStep(Scan(map[], {}, {}), a, 9), b, 9), c, 9)
  {
    assert [a][..0] == [] && [a, b][..1] == [a] && [a, b, c][..2] == [a, b];
    hide ScanStep;
    assert ScanReviews([a], 9, {}) == ScanStep(Scan(map[], {}, {}), a, 9);
    assert ScanReviews([a, b], 9, {}) == ScanStep(ScanReviews([a], 9, {}), b, 9);
  }

  /** The ambiguity block does depend on it: an older tie is only reported if it is met before a later review. */
  lemma AmbiguityDependsOnOrder()
    ensures exists reviews: seq<Review>, shuffled: seq<Review> ::
              && multiset(reviews) == multiset(shuffled)
              && ScanReviews(reviews, 9, {}).blocks != {} && ScanReviews(shuffled, 9, {}).blocks == {}
  {
    var a := Review(1, 7, Approved, false, Some(1), "sha", true, "write", "MEMBER");
    var b := a.(id := 2);
    var c := a.(id := 3, submittedAt := Some(2));
    ScanOfThree(a, b, c);
    ScanOfThree(c, a, b);
    hide ScanReviews;
    assert multiset([a, b, c]) == multiset([c, a, b]);
    assert ScanReviews([a, b, c], 9, {}).blocks != {};
    assert ScanReviews([c, a, b], 9, {}).blocks == {};
  }
}
