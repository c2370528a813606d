/**
  The evaluator as a whole (pathfinder_core/merge_policy.py, merge_policy_freshness.py): one
  snapshot, and two snapshots compared.  The identity, authority and pagination comparisons, long
  conjunctions without a loop, are represented by the blocks they add, `elsewhere`.
*/
module PolicyEvaluator {
  import opened Wrappers
  import opened PolicyTypes
  import opened PolicyReviews
  import opened PolicyChecks
  import opened PolicyRules
  import opened PolicyDiff
  import opened PolicyBypass

  const SECOND := 1_000_000
  const MaxSnapshotAge := 60 * SECOND

  datatype Policy = Policy(floor: int, checks: set<CheckRequirement>, humans: set<int>, paths: PathPolicy, maxAgeSeconds: int)

  /** The parts of an observation; `bindings` to `completeness` are compared only for equality. */
  datatype Evidence = Evidence(
    evidenceId: string, evidenceSha: string, receiptId: string, policyRead: string, requestIds: seq<string>,
    observedAt: int, completedAt: int, expiresAt: int,
    decision: Decision, reviews: seq<Review>, reviewRequests: seq<bool>, threads: seq<bool>,
    requiredSha: string, headSha: string, authorId: int, pusherId: int, mergeActor: Actor, owner: string,
    classic: Classic, rules: seq<Rule>, checks: seq<Check>, diff: DiffInputs,
    bindings: string, repository: string, actor: string, pullRequest: string, bypass: BypassEvidence, audits: map<string, Audit>, completeness: string)

  /** What the caller passes, with the verdicts of the parts that are not modelled. */
  datatype Inputs = Inputs(policy: Option<Policy>, implementers: Option<set<int>>, protectedPolicy: bool, evidence: Option<Evidence>,
                           invalid: set<Block>, elsewhere: set<Block>)

  datatype Verdict = Verdict(outcome: Outcome, blocks: set<Block>, requiredApprovals: int, approvals: set<int>,
                             requiredChecks: set<CheckRequirement>)

  // ---------------------------------------------------------------- one snapshot

  predicate InSnapshotWindow(p: Policy, e: Evidence, now: int) {
    e.observedAt <= e.completedAt <= now < PolicyDiff.Min(e.expiresAt, e.observedAt + PolicyDiff.Min(MaxSnapshotAge, p.maxAgeSeconds * SECOND))
  }

  function WindowBlocks(p: Policy, e: Evidence, now: int): set<Block> {
    When(!InSnapshotWindow(p, e, now), EvidenceExpired, Part("observation"), "evidence exceeds its host expiry or effective freshness window")
  }

  function HeadBlocks(e: Evidence): set<Block> {
    When(e.requiredSha != e.headSha, CheckShaDrift, Part("mergeability.required_sha"), "required SHA differs from head")
  }

  function CreatorsOf(checks: seq<Check>): set<int> { set c | c in checks :: c.creator }

  function ReviewsOf(p: Policy, implementers: set<int>, e: Evidence): ReviewInputs {
    ReviewInputs(e.decision, e.completedAt, e.reviews, e.reviewRequests, e.threads, e.requiredSha,
                 {e.authorId, e.pusherId, e.mergeActor.id} + implementers + CreatorsOf(e.checks), p.humans)
  }

  function RulesOf(p: Policy, e: Evidence): RuleInputs { RuleInputs(p.floor, p.checks, e.classic, e.rules) }

  function ChecksOf(e: Evidence): CheckInputs { CheckInputs(e.checks, e.requiredSha, e.completedAt) }

  function BypassOf(e: Evidence): BypassInputs {
    BypassInputs(seq(|e.rules|, k requires 0 <= k < |e.rules| => RuleKey(e.rules[k].rulesetId, e.rules[k].ruleType)),
                 e.bypass.classicKeys, e.bypass.classicMetadata, e.bypass.rulesets, e.bypass.memberships, e.audits, e.mergeActor, e.owner, e.completedAt)
  }

  /** The blocks of the parts of the evaluator that are modelled here. */
  function OwnBlocks(glob: Component, p: Policy, implementers: set<int>, e: Evidence, now: int): set<Block> {
    var g := PolicyRules.Gather(RulesOf(p, e), e.rules);
    WindowBlocks(p, e, now) + HeadBlocks(e) + DiffBlocks(glob, p.paths, e.diff) + RulesBlocks(RulesOf(p, e)) + BypassBlocks(BypassOf(e))
    + ReviewBlocks(ReviewsOf(p, implementers, e), g.approvals) + CheckBlocks(ChecksOf(e), g.required, g.enforced)
  }

  function MissingBlocks(i: Inputs): set<Block> {
    When(i.policy.None?, PolicyMissing, Part("policy"), "policy input is required")
    + When(i.implementers.None?, AuthorizationMissing, Part("authorization"), "authorization input is required")
    + When(!i.protectedPolicy, ProtectedPolicyMissing, Part("protected_policy"), "protected_policy input is required")
    + When(i.evidence.None?, EvidenceMissing, Part("evidence"), "evidence input is required")
  }

  ghost function Refused(blocks: set<Block>): Verdict { Verdict(OutcomeOf(blocks), blocks, 0, {}, {}) }

  ghost function CompleteVerdict(glob: Component, p: Policy, implementers: set<int>, e: Evidence, elsewhere: set<Block>, now: int): Verdict {
    var g := PolicyRules.Gather(RulesOf(p, e), e.rules);
    var blocks := elsewhere + OwnBlocks(glob, p, implementers, e, now);
    Verdict(OutcomeOf(blocks), blocks, g.approvals, Approvals(ReviewsOf(p, implementers, e)), g.required)
  }

  /** The verdict of `evaluate`. */
  ghost function VerdictOf(glob: Component, i: Inputs, now: int): Verdict {
    if MissingBlocks(i) != {} then Refused(MissingBlocks(i))
    else if i.invalid != {} then Refused(i.invalid)
    else CompleteVerdict(glob, i.policy.value, i.implementers.value, i.evidence.value, i.elsewhere, now)
  }

  method AddAll(given: set<Block>, blocks: Blocks)
    requires blocks.Valid()
    modifies blocks
    ensures blocks.Valid() && blocks.seen == old(blocks.seen) + given
  {
    var remaining := given;
    while remaining != {}
      invariant blocks.Valid() && remaining <= given && blocks.seen + remaining == old(blocks.seen) + given
      decreases |remaining|
    {
      var b :| b in remaining;
      blocks.Add(b.code, b.surface, b.detail);
      remaining := remaining - {b};
    }
  }

  method AddMissing(i: Inputs, blocks: Blocks)
    requires blocks.Valid()
    modifies blocks
    ensures blocks.Valid() && blocks.seen == old(blocks.seen) + MissingBlocks(i)
  {
    blocks.AddWhen(i.policy.None?, PolicyMissing, Part("policy"), "policy input is required");
    blocks.AddWhen(i.implementers.None?, AuthorizationMissing, Part("authorization"), "authorization input is required");
    blocks.AddWhen(!i.protectedPolicy, ProtectedPolicyMissing, Part("protected_policy"), "protected_policy input is required");
    blocks.AddWhen(i.evidence.None?, EvidenceMissing, Part("evidence"), "evidence input is required");
  }

  /** Runs the modelled parts in order over one accumulator. */
  method EvaluateParts(glob: Component, p: Policy, implementers: set<int>, e: Evidence, now: int, blocks: Blocks)
    returns (required: int, approvals: set<int>, checks: set<CheckRequirement>)
    requires blocks.Valid()
    modifies blocks
    ensures blocks.Valid() && blocks.seen == old(blocks.seen) + OwnBlocks(glob, p, implementers, e, now)
    ensures required == PolicyRules.Gather(RulesOf(p, e), e.rules).approvals && checks == PolicyRules.Gather(RulesOf(p, e), e.rules).required
    ensures approvals == Approvals(ReviewsOf(p, implementers, e))
  {
    hide When, OwnBlocks, InSnapshotWindow, DiffBlocks, RulesBlocks, BypassBlocks, BypassOf, ReviewBlocks, CheckBlocks, PolicyRules.Gather, Approvals, ReviewsOf;
    blocks.AddWhen(!InSnapshotWindow(p, e, now), EvidenceExpired, Part("observation"), "evidence exceeds its host expiry or effective freshness window");
    blocks.AddWhen(e.requiredSha != e.headSha, CheckShaDrift, Part("mergeability.required_sha"), "required SHA differs from head");
    EvaluateDiff(glob, p.paths, e.diff, blocks);
    var enforced;
    required, checks, enforced := EvaluateRules(RulesOf(p, e), blocks);
    EvaluateBypass(BypassOf(e), blocks);
    approvals := EvaluateReviews(ReviewsOf(p, implementers, e), required, blocks);
    EvaluateChecks(ChecksOf(e), checks, enforced, blocks);
    OwnBlocksAdd(glob, p, implementers, e, now, old(blocks.seen));
  }

  lemma OwnBlocksAdd(glob: Component, p: Policy, implementers: set<int>, e: Evidence, now: int, start: set<Block>)
    ensures var g := PolicyRules.Gather(RulesOf(p, e), e.rules);
            start + OwnBlocks(glob, p, implementers, e, now)
            == start
               + When(!InSnapshotWindow(p, e, now), EvidenceExpired, Part("observation"), "evidence exceeds its host expiry or effective freshness window")
               + When(e.requiredSha != e.headSha, CheckShaDrift, Part("mergeability.required_sha"), "required SHA differs from head")
               + DiffBlocks(glob, p.paths, e.diff) + RulesBlocks(RulesOf(p, e)) + BypassBlocks(BypassOf(e))
               + ReviewBlocks(ReviewsOf(p, implementers, e), g.approvals) + CheckBlocks(ChecksOf(e), g.required, g.enforced)
  {
    hide When, DiffBlocks, RulesBlocks, BypassBlocks, BypassOf, ReviewBlocks, CheckBlocks, PolicyRules.Gather, ReviewsOf, InSnapshotWindow;
  }

  method Conclude(blocks: Blocks, required: int, approvals: set<int>, checks: set<CheckRequirement>) returns (v: Verdict)
    requires blocks.Valid()
    ensures v == Verdict(OutcomeOf(blocks.seen), blocks.seen, required, approvals, checks)
  {
    var outcome := blocks.Outcome();
    v := Verdict(outcome, blocks.seen, required, approvals, checks);
  }

  method Refuse(blocks: Blocks) returns (v: Verdict)
    requires blocks.Valid()
    ensures v == Refused(blocks.seen)
  {
    v := Conclude(blocks, 0, {}, {});
  }

  method EvaluateComplete(glob: Component, p: Policy, implementers: set<int>, e: Evidence, elsewhere: set<Block>, now: int)
    returns (v: Verdict)
    ensures v == CompleteVerdict(glob, p, implementers, e, elsewhere, now)
  {
    hide OwnBlocks, OutcomeOf, PolicyRules.GatherOnto, Approvals, ReviewsOf, RulesOf;
    var blocks := new Blocks();
    AddAll(elsewhere, blocks);
    assert blocks.seen == elsewhere;
    var required, approvals, checks := EvaluateParts(glob, p, implementers, e, now, blocks);
    v := Conclude(blocks, required, approvals, checks);
  }

  method Evaluate(glob: Component, i: Inputs, now: int) returns (v: Verdict)
    ensures v == VerdictOf(glob, i, now)
  {
    hide MissingBlocks, CompleteVerdict, Refused;
    var blocks := new Blocks();
    AddMissing(i, blocks);
    assert blocks.seen == MissingBlocks(i);
    if blocks.seen != {} {
      v := Refuse(blocks);
    } else if i.invalid != {} {
      AddAll(i.invalid, blocks);
      assert blocks.seen == i.invalid;
      v := Refuse(blocks);
    } else {
      NothingMissing(i);
      v := EvaluateComplete(glob, i.policy.value, i.implementers.value, i.evidence.value, i.elsewhere, now);
    }
  }

  lemma NothingMissing(i: Inputs)
    requires MissingBlocks(i) == {}
    ensures i.policy.Some? && i.implementers.Some? && i.evidence.Some?
  {}

  // ---------------------------------------------------------------- what eligible means

  lemma EligibleHasNoBlocks(blocks: set<Block>)
    ensures OutcomeOf(blocks) == Eligible <==> blocks == {}
  {
    hide UnknownCodes, UnsupportedCodes;
  }

  /** The evidence an eligible verdict stands on. */
  ghost predicate ApprovedBy(p: Policy, implementers: set<int>, e: Evidence, a: int) {
    && a in p.humans && a !in {e.authorId, e.pusherId, e.mergeActor.id} + implementers + CreatorsOf(e.checks)
    && exists r :: LatestOf(e.reviews, a, r) && ApprovalOf(e.headSha, r)
  }

  /** No actor's latest review asks for changes. */
  ghost predicate NobodyWantsChanges(e: Evidence) {
    forall a :: a in EffectiveReviews(e.reviews) ==>
      EffectiveReviews(e.reviews)[a].state != RequestedChanges || EffectiveReviews(e.reviews)[a].dismissed
  }

  lemma OwnBlocksClear(glob: Component, p: Policy, implementers: set<int>, e: Evidence, now: int)
    requires OwnBlocks(glob, p, implementers, e, now) == {}
    ensures var g := PolicyRules.Gather(RulesOf(p, e), e.rules);
            && InSnapshotWindow(p, e, now) && e.requiredSha == e.headSha && DiffBlocks(glob, p.paths, e.diff) == {}
            && RulesBlocks(RulesOf(p, e)) == {} && BypassBlocks(BypassOf(e)) == {}
            && ReviewBlocks(ReviewsOf(p, implementers, e), g.approvals) == {}
            && CheckBlocks(ChecksOf(e), g.required, g.enforced) == {}
  {
    hide DiffBlocks, RulesBlocks, BypassBlocks, BypassOf, ReviewBlocks, CheckBlocks, PolicyRules.Gather, ReviewsOf;
  }

  /**
    If the verdict is eligible: the snapshot is fresh and on the head commit; at least as many
    distinct approvals as anything demands (one, the policy floor, classic protection, every active
    pull-request rule) come from listed humans who are not the author, pusher, merge actor, an
    implementer or a check creator, each with an approval of the head commit as latest decisive
    review; no actor's latest review asks for changes; every check that the policy, classic
    protection or a ruleset demands has its latest run on that commit successful; and the merge actor
    can bypass none of it.
  */
  lemma EligibleMeans(glob: Component, i: Inputs, now: int)
    requires VerdictOf(glob, i, now).outcome == Eligible
    ensures i.policy.Some? && i.implementers.Some? && i.evidence.Some?
    ensures var p, m, e := i.policy.value, i.implementers.value, i.evidence.value;
            var v := VerdictOf(glob, i, now);
            && InSnapshotWindow(p, e, now) && e.requiredSha == e.headSha
            && (forall count :: Demands(RulesOf(p, e), e.rules, count) ==> count <= v.requiredApprovals <= |v.approvals|)
            && (forall a :: a in v.approvals ==> ApprovedBy(p, m, e, a))
            && NobodyWantsChanges(e)
            && (forall c :: DemandsCheck(RulesOf(p, e), e.rules, c) ==> Proven(ChecksOf(e), c))
            && CannotBypass(BypassOf(e))
  {
    hide OwnBlocks, OutcomeOf, MissingBlocks, Approvals, PolicyRules.Gather, Demands, DemandsCheck, Proven, ApprovedBy, EffectiveReviews, InSnapshotWindow, CannotBypass, NobodyWantsChanges;
    EligibleHasNoBlocks(VerdictOf(glob, i, now).blocks);
    NothingMissing(i);
    PartsMean(glob, i.policy.value, i.implementers.value, i.evidence.value, now);
  }

  lemma PartsMean(glob: Component, p: Policy, m: set<int>, e: Evidence, now: int)
    requires OwnBlocks(glob, p, m, e, now) == {}
    ensures var g := PolicyRules.Gather(RulesOf(p, e), e.rules);
            && InSnapshotWindow(p, e, now) && e.requiredSha == e.headSha
            && (forall count :: Demands(RulesOf(p, e), e.rules, count) ==> count <= g.approvals)
            && g.approvals <= |Approvals(ReviewsOf(p, m, e))|
            && (forall a :: a in Approvals(ReviewsOf(p, m, e)) ==> ApprovedBy(p, m, e, a))
            && NobodyWantsChanges(e)
            && (forall c :: DemandsCheck(RulesOf(p, e), e.rules, c) ==> Proven(ChecksOf(e), c))
            && CannotBypass(BypassOf(e))
  {
    hide OwnBlocks, DiffBlocks, BypassBlocks, BypassOf, CannotBypass, ReviewBlocks, CheckBlocks, PolicyRules.GatherOnto, Approvals, Proven, Demands, DemandsCheck,
         EffectiveReviews, InSnapshotWindow, RulesBlocks, ReviewsOf, ApprovedBy;
    OwnBlocksClear(glob, p, m, e, now);
    var g := PolicyRules.Gather(RulesOf(p, e), e.rules);
    GatheredClear(RulesOf(p, e));
    GatheredIsDemanded(RulesOf(p, e), e.rules);
    ReviewsMean(p, m, e, g.approvals);
    NoCheckBlockMeans(ChecksOf(e), g.required, g.enforced);
    NoBypassBlockMeans(BypassOf(e));
  }

  lemma GatheredClear(i: RuleInputs)
    requires RulesBlocks(i) == {}
    ensures PolicyRules.Gather(i, i.rules).blocks == {}
  {
    hide PolicyRules.Gather;
  }

  lemma ReviewsMean(p: Policy, m: set<int>, e: Evidence, required: int)
    requires ReviewBlocks(ReviewsOf(p, m, e), required) == {} && e.requiredSha == e.headSha
    ensures required <= |Approvals(ReviewsOf(p, m, e))| && NobodyWantsChanges(e)
    ensures forall a :: a in Approvals(ReviewsOf(p, m, e)) ==> ApprovedBy(p, m, e, a)
  {
    hide ReviewBlocks, Approvals, EffectiveReviews;
    NoReviewBlockMeans(ReviewsOf(p, m, e), required);
  }

  // ---------------------------------------------------------------- a stricter policy

  ghost predicate StricterPaths(p: PathPolicy, q: PathPolicy) {
    && p.allowed <= q.allowed && p.denied >= q.denied && p.deniedCategories >= q.deniedCategories
    && p.limits.files <= q.limits.files && p.limits.totalLines <= q.limits.totalLines
    && p.limits.fileLines <= q.limits.fileLines && p.limits.patchBytes <= q.limits.patchBytes
  }

  /** `p` asks for at least what `q` asks for, and allows at most what `q` allows. */
  ghost predicate Stricter(p: Policy, q: Policy) {
    && p.floor >= q.floor && p.checks >= q.checks && p.humans <= q.humans && p.maxAgeSeconds <= q.maxAgeSeconds
    && StricterPaths(p.paths, q.paths)
  }

  lemma StricterDiff(glob: Component, p: PathPolicy, q: PathPolicy, d: DiffInputs)
    requires StricterPaths(p, q) && DiffBlocks(glob, p, d) == {}
    ensures DiffBlocks(glob, q, d) == {}
  {
    DiffOkExactly(glob, p, d);
    DiffOkExactly(glob, q, d);
    hide DiffBlocks;
    forall k | 0 <= k < |d.files|
      ensures FileOk(glob, q, d.files[k])
    {
      assert FileOk(glob, p, d.files[k]);
    }
  }

  lemma {:induction false} StricterRules(p: RuleInputs, q: RuleInputs, rules: seq<Rule>)
    requires p.floor >= q.floor && p.policyChecks >= q.policyChecks && p.classic == q.classic
    ensures var g, h := PolicyRules.Gather(p, rules), PolicyRules.Gather(q, rules);
            && g.approvals >= h.approvals && g.required >= h.required && g.enforced == h.enforced
            && g.reviewEnforced == h.reviewEnforced && g.blocks == h.blocks
    decreases |rules|
  {
    hide RuleBlocks, ClassicBlocks, WellFormedPullRequest;
    if |rules| > 0 { StricterRules(p, q, rules[..|rules| - 1]); }
  }

  lemma StricterReviews(p: ReviewInputs, q: ReviewInputs, required: int, fewer: int)
    requires q == p.(humans := q.humans) && p.humans <= q.humans && fewer <= required
    requires ReviewBlocks(p, required) == {}
    ensures ReviewBlocks(q, fewer) == {}
  {
    forall a | a in Approvals(p)
      ensures a in Approvals(q)
    {
      assert ApprovesIndependently(q, EffectiveReviews(p.reviews)[a]);
    }
    FewerIsSmaller(Approvals(p), Approvals(q));
    hide ScanReviews, EffectiveReviews, Approvals, ChangeBlocks, DecisionBlocks;
  }

  lemma FewerIsSmaller(a: set<int>, b: set<int>)
    requires a <= b
    ensures |a| <= |b|
  {
    assert a + (b - a) == b && |a + (b - a)| == |a| + |b - a|;
  }

  lemma StricterChecks(i: CheckInputs, required: set<CheckRequirement>, fewer: set<CheckRequirement>, enforced: set<CheckRequirement>)
    requires fewer <= required && CheckBlocks(i, required, enforced) == {}
    ensures CheckBlocks(i, fewer, enforced) == {}
  {
    hide RequirementBlocks, AuditBlocks, EvidenceEnforced;
    assert AllRequirementBlocks(i, fewer, enforced) <= AllRequirementBlocks(i, required, enforced);
  }

  lemma StricterParts(glob: Component, p: Policy, q: Policy, implementers: set<int>, e: Evidence, now: int)
    requires Stricter(p, q) && OwnBlocks(glob, p, implementers, e, now) == {}
    ensures OwnBlocks(glob, q, implementers, e, now) == {}
  {
    hide BypassBlocks, BypassOf, DiffBlocks, ReviewBlocks, CheckBlocks, PolicyRules.Gather, InSnapshotWindow, StricterPaths, EnforcementBlocks, RulesBlocks, OwnBlocks;
    OwnBlocksClear(glob, p, implementers, e, now);
    StricterDiff(glob, p.paths, q.paths, e.diff);
    StricterRules(RulesOf(p, e), RulesOf(q, e), e.rules);
    var g, h := PolicyRules.Gather(RulesOf(p, e), e.rules), PolicyRules.Gather(RulesOf(q, e), e.rules);
    StricterReviews(ReviewsOf(p, implementers, e), ReviewsOf(q, implementers, e), g.approvals, h.approvals);
    StricterChecks(ChecksOf(e), g.required, h.required, g.enforced);
    StricterWindow(p, q, e, now);
    StricterEnforcement(RulesOf(p, e), RulesOf(q, e));
    NoPartBlocks(glob, q, implementers, e, now);
  }

  lemma StricterWindow(p: Policy, q: Policy, e: Evidence, now: int)
    requires Stricter(p, q) && InSnapshotWindow(p, e, now)
    ensures InSnapshotWindow(q, e, now)
  {}

  lemma StricterEnforcement(p: RuleInputs, q: RuleInputs)
    requires RulesBlocks(p) == {} && p.classic == q.classic && p.rules == q.rules
    requires var g, h := PolicyRules.Gather(p, p.rules), PolicyRules.Gather(q, q.rules);
             g.enforced == h.enforced && g.reviewEnforced == h.reviewEnforced && g.blocks == h.blocks
    ensures RulesBlocks(q) == {}
  {
    hide PolicyRules.Gather;
  }

  lemma NoPartBlocks(glob: Component, p: Policy, implementers: set<int>, e: Evidence, now: int)
    requires var g := PolicyRules.Gather(RulesOf(p, e), e.rules);
             && InSnapshotWindow(p, e, now) && e.requiredSha == e.headSha && DiffBlocks(glob, p.paths, e.diff) == {}
             && RulesBlocks(RulesOf(p, e)) == {} && BypassBlocks(BypassOf(e)) == {}
             && ReviewBlocks(ReviewsOf(p, implementers, e), g.approvals) == {}
             && CheckBlocks(ChecksOf(e), g.required, g.enforced) == {}
    ensures OwnBlocks(glob, p, implementers, e, now) == {}
  {
    hide DiffBlocks, RulesBlocks, BypassBlocks, BypassOf, ReviewBlocks, CheckBlocks, PolicyRules.Gather, ReviewsOf, InSnapshotWindow;
  }

  /**
    Making a policy stricter never turns an ineligible candidate eligible: with the same evidence, and
    as long as the laxer policy brings no block from the comparisons not modelled here, whatever is
    eligible under the stricter policy is eligible under the laxer one.
  */
  lemma StricterNeverHelps(glob: Component, strict: Inputs, lax: Inputs, now: int)
    requires strict.policy.Some? && lax.policy.Some? && Stricter(strict.policy.value, lax.policy.value)
    requires lax == strict.(policy := lax.policy, elsewhere := lax.elsewhere) && lax.elsewhere <= strict.elsewhere
    ensures VerdictOf(glob, strict, now).outcome == Eligible ==> VerdictOf(glob, lax, now).outcome == Eligible
  {
    hide OwnBlocks, OutcomeOf, Approvals, PolicyRules.Gather, Stricter;
    EligibleHasNoBlocks(VerdictOf(glob, strict, now).blocks);
    EligibleHasNoBlocks(VerdictOf(glob, lax, now).blocks);
    if VerdictOf(glob, strict, now).outcome == Eligible {
      NothingMissing(strict);
      StricterParts(glob, strict.policy.value, lax.policy.value, strict.implementers.value, strict.evidence.value, now);
    }
  }

  /** And no policy lifts the shipped ceilings. */
  lemma ShippedCeilingsHold(glob: Component, i: Inputs, now: int)
    requires VerdictOf(glob, i, now).outcome == Eligible
    ensures i.policy.Some? && i.implementers.Some? && i.evidence.Some? && WithinShipped(i.evidence.value.diff)
  {
    hide OutcomeOf, Approvals, PolicyRules.Gather, OwnBlocks, DiffBlocks, MissingBlocks;
    EligibleHasNoBlocks(VerdictOf(glob, i, now).blocks);
    NothingMissing(i);
    OwnBlocksClear(glob, i.policy.value, i.implementers.value, i.evidence.value, now);
    DiffOkExactly(glob, i.policy.value.paths, i.evidence.value.diff);
  }
}
