/** Exactly which candidates are eligible, said of the policy and the evidence alone. */
module PolicyEligibility {
  import opened Wrappers
  import opened PolicyTypes
  import Reviews = PolicyReviews
  import Checks = PolicyChecks
  import Rules = PolicyRules
  import Diff = PolicyDiff
  import Bypass = PolicyBypass
  import opened PolicyPassing
  import opened PolicyOpenings
  import opened PolicyEvaluator

  // ---------------------------------------------------------------- the diff

  ghost predicate SoundFile(glob: Diff.Component, p: Diff.PathPolicy, f: Diff.File) {
    && f.changes == f.additions + f.deletions && !f.untouched
    && f.claimed == [] && f.classified == Some([]) && f.claimedSpecial == [] && f.derivedSpecial == []
    && Permitted(glob, p, f.path) && (f.previous.Some? ==> Permitted(glob, p, f.previous.value))
    && f.changes <= 500 && f.changes <= p.limits.fileLines
  }

  /** Some allowed pattern fits the path, cut at its slashes, and no denied one does. */
  ghost predicate Permitted(glob: Diff.Component, p: Diff.PathPolicy, path: Diff.Parts) {
    && (exists pattern, cuts :: pattern in p.allowed && Diff.Segments(glob, pattern, path, cuts))
    && (forall pattern, cuts :: pattern in p.denied ==> !Diff.Segments(glob, pattern, path, cuts))
  }

  /** The diff is what its evidence says, touches nothing protected, and is within the shipped and the policy's limits. */
  ghost predicate SoundDiff(glob: Diff.Component, p: Diff.PathPolicy, d: Diff.DiffInputs) {
    && d.objectHash && d.filesHash && d.diffHash && d.categories == [] && d.special == []
    && 0 < |d.files| <= 25 && |d.files| <= p.limits.files && d.count == |d.files|
    && d.totalLines == Diff.Sum(d.files) && d.totalLines <= 1000 && d.totalLines <= p.limits.totalLines
    && d.patchBytes <= 262144 && d.patchBytes <= p.limits.patchBytes
    && (forall j, k :: 0 <= j < k < |d.files| ==> Diff.TextLess(d.files[j].name, d.files[k].name))
    && forall k :: 0 <= k < |d.files| ==> SoundFile(glob, p, d.files[k])
  }

  lemma MatchesAnyExactly(glob: Diff.Component, patterns: set<Diff.Parts>, path: Diff.Parts)
    ensures Diff.MatchesAny(glob, patterns, path) <==> exists pattern, cuts :: pattern in patterns && Diff.Segments(glob, pattern, path, cuts)
  {
    forall pattern ensures Diff.Walk(glob, pattern, path) <==> exists cuts :: Diff.Segments(glob, pattern, path, cuts) {
      Diff.MatchesExactly(glob, pattern, path);
    }
    hide Diff.Walk, Diff.Segments;
    if pattern, cuts :| pattern in patterns && Diff.Segments(glob, pattern, path, cuts) { assert Diff.Walk(glob, pattern, path); }
  }

  lemma PermittedExactly(glob: Diff.Component, p: Diff.PathPolicy, path: Diff.Parts)
    ensures Diff.PathOk(glob, p, path) <==> Permitted(glob, p, path)
  {
    MatchesAnyExactly(glob, p.allowed, path);
    MatchesAnyExactly(glob, p.denied, path);
    hide Diff.MatchesAny, Diff.Segments;
  }

  lemma AscendingExactly(files: seq<Diff.File>)
    ensures Diff.Ascending(Diff.Names(files)) <==> forall j, k :: 0 <= j < k < |files| ==> Diff.TextLess(files[j].name, files[k].name)
  {
    var names := Diff.Names(files);
    if Diff.Ascending(names) {
      forall j, k | 0 <= j < k < |files| ensures Diff.TextLess(files[j].name, files[k].name) { Diff.AscendingMeans(names, j, k); }
    }
    hide Diff.TextLess;
  }

  lemma DiffPassesExactly(glob: Diff.Component, p: Diff.PathPolicy, d: Diff.DiffInputs)
    ensures Diff.DiffBlocks(glob, p, d) == {} <==> SoundDiff(glob, p, d)
  {
    hide Diff.DiffBlocks, Diff.PathOk, Permitted, Diff.Ascending, Diff.TextLess, Diff.Sum, Diff.Names;
    Diff.DiffOkExactly(glob, p, d);
    AscendingExactly(d.files);
    forall path ensures Diff.PathOk(glob, p, path) <==> Permitted(glob, p, path) { PermittedExactly(glob, p, path); }
  }

  // ---------------------------------------------------------------- what is asked for

  /** Read and completed before `now`, and neither the host's, the policy's nor the shipped time is over. */
  ghost predicate InTime(p: Policy, e: Evidence, now: int) {
    && e.observedAt <= e.completedAt <= now < e.expiresAt
    && now < e.observedAt + 60_000_000 && now < e.observedAt + p.maxAgeSeconds * 1_000_000
  }

  /** Somebody asks for `count` approvals. */
  ghost predicate AskedApprovals(p: Policy, e: Evidence, count: int) {
    || count == 1 || count == p.floor
    || (e.classic.ClassicPresent? && e.classic.settings.Some? && count == e.classic.settings.value.reviewCount)
    || exists r :: r in e.rules && r.ruleType == "pull_request" && r.approvalCount == Some(count)
  }

  /** Somebody asks for the check. */
  ghost predicate AskedCheck(p: Policy, e: Evidence, c: CheckRequirement) {
    c in p.checks || CheckEnforced(e.classic, e.rules, c)
  }

  /** A listed human with no part in the change, whose latest decisive review approves the head commit. */
  ghost predicate Approver(p: Policy, implementers: set<int>, e: Evidence, a: int) {
    && a in p.humans && a !in implementers && a != e.authorId && a != e.pusherId && a != e.mergeActor.id
    && (forall c :: c in e.checks ==> c.creator != a)
    && Approves(e.reviews, e.headSha, a)
  }

  /** `approvers` are all there are, and as many as anybody asks for. */
  ghost predicate Suffice(p: Policy, implementers: set<int>, e: Evidence, approvers: set<int>) {
    && (forall a :: a in approvers <==> Approver(p, implementers, e, a))
    && (forall count :: AskedApprovals(p, e, count) ==> count <= |approvers|)
  }

  ghost predicate EnoughApprovers(p: Policy, implementers: set<int>, e: Evidence) {
    exists approvers :: Suffice(p, implementers, e, approvers)
  }

  /** `enforced` are the checks that GitHub itself asks for, and every check asked for is proven under them. */
  ghost predicate ProvenUnder(p: Policy, e: Evidence, enforced: set<CheckRequirement>) {
    && (forall c :: c in enforced <==> CheckEnforced(e.classic, e.rules, c)) && RequiredIsEnforced(e.checks, enforced)
    && forall c :: AskedCheck(p, e, c) ==> ProvenCheck(e.checks, e.headSha, c, enforced)
  }

  ghost predicate ChecksProven(p: Policy, e: Evidence) { exists enforced :: ProvenUnder(p, e, enforced) }

  /** The bypass evidence next to the active rules. */
  function Openings(e: Evidence): Bypass.BypassInputs {
    Bypass.BypassInputs(seq(|e.rules|, k requires 0 <= k < |e.rules| => Bypass.RuleKey(e.rules[k].rulesetId, e.rules[k].ruleType)),
                        e.bypass.classicKeys, e.bypass.classicMetadata, e.bypass.rulesets, e.bypass.memberships, e.audits, e.mergeActor, e.owner, e.completedAt)
  }

  ghost predicate ReviewsSettled(e: Evidence) {
    && SoundReviews(e.reviews, e.completedAt) && (forall a :: !AsksForChanges(e.reviews, a)) && e.decision == Reviews.DecisionOther
    && (forall k :: 0 <= k < |e.reviewRequests| ==> !e.reviewRequests[k]) && (forall k :: 0 <= k < |e.threads| ==> !e.threads[k])
  }

  ghost predicate RulesSettled(e: Evidence) {
    && SoundRules(e.classic, e.rules) && ReviewEnforced(e.classic, e.rules) && exists c :: CheckEnforced(e.classic, e.rules, c)
  }

  /** The evidence passes the policy. */
  ghost predicate Passes(glob: Diff.Component, p: Policy, implementers: set<int>, e: Evidence, now: int) {
    && InTime(p, e, now) && e.requiredSha == e.headSha
    && SoundDiff(glob, p.paths, e.diff) && RulesSettled(e) && NothingOpen(Openings(e))
    && ReviewsSettled(e) && EnoughApprovers(p, implementers, e)
    && SoundChecks(e.checks, e.completedAt) && ChecksProven(p, e)
  }

  // ---------------------------------------------------------------- the parts together

  lemma WindowExactly(p: Policy, e: Evidence, now: int)
    ensures InSnapshotWindow(p, e, now) <==> InTime(p, e, now)
  {}

  lemma OwnBlocksExactly(glob: Diff.Component, p: Policy, implementers: set<int>, e: Evidence, now: int)
    ensures var g := Rules.Gather(RulesOf(p, e), e.rules);
            OwnBlocks(glob, p, implementers, e, now) == {} <==>
              && InSnapshotWindow(p, e, now) && e.requiredSha == e.headSha && Diff.DiffBlocks(glob, p.paths, e.diff) == {}
              && Rules.RulesBlocks(RulesOf(p, e)) == {} && Bypass.BypassBlocks(BypassOf(e)) == {}
              && Reviews.ReviewBlocks(ReviewsOf(p, implementers, e), g.approvals) == {}
              && Checks.CheckBlocks(ChecksOf(e), g.required, g.enforced) == {}
  {
    hide Diff.DiffBlocks, Rules.RulesBlocks, Bypass.BypassBlocks, BypassOf, Reviews.ReviewBlocks, Checks.CheckBlocks, Rules.Gather, ReviewsOf;
  }

  lemma GatheredExactly(p: Policy, e: Evidence)
    requires RulesSettled(e)
    ensures var g := Rules.Gather(RulesOf(p, e), e.rules);
            && AskedApprovals(p, e, g.approvals) && (forall count :: AskedApprovals(p, e, count) ==> count <= g.approvals)
            && (forall c :: c in g.required <==> AskedCheck(p, e, c)) && (forall c :: c in g.enforced <==> CheckEnforced(e.classic, e.rules, c))
  {
    RulesPassExactly(RulesOf(p, e));
    GatheredClear(RulesOf(p, e));
    Rules.GatheredIsDemanded(RulesOf(p, e), e.rules);
    hide Rules.Gather, Rules.RulesBlocks;
    DemandsAre(p, e);
    hide Rules.Demands, Rules.DemandsCheck, AskedApprovals, AskedCheck;
  }

  lemma DemandsAre(p: Policy, e: Evidence)
    ensures forall count :: Rules.Demands(RulesOf(p, e), e.rules, count) <==> AskedApprovals(p, e, count)
    ensures forall c :: Rules.DemandsCheck(RulesOf(p, e), e.rules, c) <==> AskedCheck(p, e, c)
  {}

  lemma ApproversExactly(p: Policy, implementers: set<int>, e: Evidence, a: int)
    requires SoundReviews(e.reviews, e.completedAt) && e.requiredSha == e.headSha
    ensures a in Reviews.Approvals(ReviewsOf(p, implementers, e)) <==> Approver(p, implementers, e, a)
  {
    hide Reviews.Approvals, Approves;
    ApprovalsExactly(ReviewsOf(p, implementers, e), a);
  }

  lemma ReviewsPass(p: Policy, implementers: set<int>, e: Evidence)
    requires RulesSettled(e) && e.requiredSha == e.headSha
    ensures var g := Rules.Gather(RulesOf(p, e), e.rules);
            Reviews.ReviewBlocks(ReviewsOf(p, implementers, e), g.approvals) == {} <==> ReviewsSettled(e) && EnoughApprovers(p, implementers, e)
  {
    hide Reviews.Approvals, Reviews.ReviewBlocks, Rules.Gather, SoundReviews, AsksForChanges, Approver, AskedApprovals, RulesSettled;
    GatheredExactly(p, e);
    var i, g := ReviewsOf(p, implementers, e), Rules.Gather(RulesOf(p, e), e.rules);
    ReviewsPassExactly(i, g.approvals);
    if ReviewsSettled(e) {
      forall a ensures a in Reviews.Approvals(i) <==> Approver(p, implementers, e, a) { ApproversExactly(p, implementers, e, a); }
      if EnoughApprovers(p, implementers, e) {
        var approvers :| Suffice(p, implementers, e, approvers);
        assert forall a :: a in approvers <==> Approver(p, implementers, e, a);
        assert approvers == Reviews.Approvals(i) by { assert forall a :: a in approvers <==> a in Reviews.Approvals(i); }
      }
      if |Reviews.Approvals(i)| >= g.approvals { assert Suffice(p, implementers, e, Reviews.Approvals(i)); }
    }
  }

  lemma ChecksPass(p: Policy, e: Evidence)
    requires RulesSettled(e) && e.requiredSha == e.headSha
    ensures var g := Rules.Gather(RulesOf(p, e), e.rules);
            Checks.CheckBlocks(ChecksOf(e), g.required, g.enforced) == {} <==> SoundChecks(e.checks, e.completedAt) && ChecksProven(p, e)
  {
    hide Checks.CheckBlocks, Rules.Gather, SoundChecks, CheckEnforced, AskedCheck, ProvenCheck, RequiredIsEnforced, RulesSettled;
    GatheredExactly(p, e);
    var g := Rules.Gather(RulesOf(p, e), e.rules);
    ChecksPassExactly(ChecksOf(e), g.required, g.enforced);
    if ChecksProven(p, e) {
      var enforced :| ProvenUnder(p, e, enforced);
      assert enforced == g.enforced;
    }
    assert ProvenUnder(p, e, g.enforced) ==> ChecksProven(p, e);
  }

  lemma OpeningsAre(e: Evidence)
    ensures BypassOf(e) == Openings(e)
  {}

  /** The modelled parts add no block exactly when the evidence passes. */
  lemma PassesExactly(glob: Diff.Component, p: Policy, implementers: set<int>, e: Evidence, now: int)
    ensures OwnBlocks(glob, p, implementers, e, now) == {} <==> Passes(glob, p, implementers, e, now)
  {
    hide OwnBlocks, InSnapshotWindow, InTime, Diff.DiffBlocks, Rules.RulesBlocks, Bypass.BypassBlocks, BypassOf, Openings, Reviews.ReviewBlocks, Checks.CheckBlocks, Rules.Gather,
         ReviewsOf, SoundDiff, NothingOpen, ReviewsSettled, EnoughApprovers, SoundChecks, ChecksProven;
    OwnBlocksExactly(glob, p, implementers, e, now);
    WindowExactly(p, e, now);
    DiffPassesExactly(glob, p.paths, e.diff);
    RulesPassExactly(RulesOf(p, e));
    OpeningsAre(e);
    BypassPassesExactly(BypassOf(e));
    if RulesSettled(e) && e.requiredSha == e.headSha {
      ReviewsPass(p, implementers, e);
      ChecksPass(p, e);
    }
    hide SoundRules, ReviewEnforced, CheckEnforced;
  }

  /** Every input is there, valid, and brings no block from the comparisons not modelled. */
  ghost predicate Complete(i: Inputs) {
    i.policy.Some? && i.implementers.Some? && i.protectedPolicy && i.evidence.Some? && i.invalid == {} && i.elsewhere == {}
  }

  /**
    A candidate is eligible exactly when the inputs are complete and the evidence passes.  The verdict
    then names the approvers, the largest number of approvals anybody asks for, and the checks asked for.
  */
  lemma EligibleExactly(glob: Diff.Component, i: Inputs, now: int)
    ensures var v := VerdictOf(glob, i, now);
            && (v.outcome == Eligible <==> Complete(i) && Passes(glob, i.policy.value, i.implementers.value, i.evidence.value, now))
            && (v.outcome == Eligible ==>
                  var p, e := i.policy.value, i.evidence.value;
                  && (forall a :: a in v.approvals <==> Approver(p, i.implementers.value, e, a))
                  && AskedApprovals(p, e, v.requiredApprovals) && (forall count :: AskedApprovals(p, e, count) ==> count <= v.requiredApprovals)
                  && (forall c :: c in v.requiredChecks <==> AskedCheck(p, e, c)))
  {
    hide OwnBlocks, OutcomeOf, Reviews.Approvals, Rules.Gather, ReviewsOf, RulesOf, Passes, AskedApprovals, AskedCheck, Approver;
    EligibleHasNoBlocks(VerdictOf(glob, i, now).blocks);
    if i.policy.Some? && i.implementers.Some? && i.evidence.Some? {
      var p, m, e := i.policy.value, i.implementers.value, i.evidence.value;
      PassesExactly(glob, p, m, e, now);
      if Passes(glob, p, m, e, now) { PassingVerdict(glob, p, m, e, now); }
    }
  }

  lemma PassingVerdict(glob: Diff.Component, p: Policy, implementers: set<int>, e: Evidence, now: int)
    requires Passes(glob, p, implementers, e, now)
    ensures forall a :: a in Reviews.Approvals(ReviewsOf(p, implementers, e)) <==> Approver(p, implementers, e, a)
    ensures var g := Rules.Gather(RulesOf(p, e), e.rules);
            && AskedApprovals(p, e, g.approvals) && (forall count :: AskedApprovals(p, e, count) ==> count <= g.approvals)
            && (forall c :: c in g.required <==> AskedCheck(p, e, c))
  {
    hide InTime, SoundDiff, NothingOpen, EnoughApprovers, SoundChecks, ChecksProven, SoundReviews, Reviews.Approvals, Approver, RulesSettled, Rules.Gather, AskedApprovals, AskedCheck;
    GatheredExactly(p, e);
    forall a ensures a in Reviews.Approvals(ReviewsOf(p, implementers, e)) <==> Approver(p, implementers, e, a) { ApproversExactly(p, implementers, e, a); }
  }
}
