/**
  Two complete snapshots (pathfinder_core/merge_policy.py, merge_policy_freshness.py): merge intent
  needs both to be eligible and nothing to have changed in between.
*/
module PolicyReread {
  import opened Wrappers
  import opened PolicyTypes
  import opened PolicyReviews
  import opened PolicyChecks
  import opened PolicyRules
  import opened PolicyDiff
  import opened PolicyBypass
  import opened PolicyEvaluator
  import Eligibility = PolicyEligibility

  predicate Disjoint(a: seq<string>, b: seq<string>) { forall x :: x in a ==> x !in b }

  /** A compared domain: its deny code, its surface, and whether both snapshots agree on it. */
  datatype Domain = Domain(code: DenyCode, surface: string, same: bool)

  function Domains(a: Evidence, b: Evidence): seq<Domain> {
    [Domain(IdentityDrift, "reread.authority", a.bindings == b.bindings),
     Domain(IdentityDrift, "reread.repository", a.repository == b.repository && a.owner == b.owner),
     Domain(IdentityDrift, "reread.actor", a.actor == b.actor && a.mergeActor == b.mergeActor),
     Domain(IdentityDrift, "reread.pull_request",
            a.pullRequest == b.pullRequest && a.requiredSha == b.requiredSha && a.headSha == b.headSha
            && a.authorId == b.authorId && a.pusherId == b.pusherId),
     Domain(DiffDrift, "reread.diff", a.diff == b.diff),
     Domain(RulesetDrift, "reread.rules", a.classic == b.classic && a.rules == b.rules && a.bypass == b.bypass),
     Domain(ReviewDrift, "reread.reviews",
            a.decision == b.decision && a.reviews == b.reviews && a.reviewRequests == b.reviewRequests && a.threads == b.threads),
     Domain(CheckEvidenceIncomplete, "reread.checks", a.checks == b.checks),
     Domain(FieldUnknown, "reread.completeness", a.completeness == b.completeness)]
  }

  const Differs := "complete reread differs; start a new snapshot cycle"

  function DomainBlocks(domains: seq<Domain>): set<Block> {
    if |domains| == 0 then {}
    else
      var d := domains[|domains| - 1];
      DomainBlocks(domains[..|domains| - 1]) + When(!d.same, d.code, Part(d.surface), Differs)
  }

  predicate FreshIdentity(a: Evidence, b: Evidence) {
    a.evidenceId != b.evidenceId && a.evidenceSha != b.evidenceSha && Disjoint(a.requestIds, b.requestIds) && a.receiptId != b.receiptId
  }

  function CompareBlocks(a: Evidence, b: Evidence): set<Block> {
    When(a.completedAt >= b.observedAt, EvidenceExpired, Part("reread.observation"), "complete reread must start after the initial snapshot completes")
    + When(!FreshIdentity(a, b), IdentityDrift, Part("reread.observation"), "reread must have a new evidence identity and disjoint request ids")
    + When(a.policyRead != b.policyRead, IdentityDrift, Part("reread.policy_read"), "host policy changed between complete snapshots")
    + DomainBlocks(Domains(a, b))
  }

  method CompareDomains(domains: seq<Domain>, blocks: Blocks)
    requires blocks.Valid()
    modifies blocks
    ensures blocks.Valid() && blocks.seen == old(blocks.seen) + DomainBlocks(domains)
  {
    for k := 0 to |domains|
      invariant blocks.Valid() && blocks.seen == old(blocks.seen) + DomainBlocks(domains[..k])
    {
      assert domains[..k + 1][..k] == domains[..k];
      hide When;
      blocks.AddWhen(!domains[k].same, domains[k].code, Part(domains[k].surface), Differs);
    }
    assert domains[..|domains|] == domains;
  }

  /** `compare_complete_reread`. */
  method CompareCompleteReread(a: Evidence, b: Evidence, blocks: Blocks)
    requires blocks.Valid()
    modifies blocks
    ensures blocks.Valid() && blocks.seen == old(blocks.seen) + CompareBlocks(a, b)
  {
    hide When, DomainBlocks, FreshIdentity, Domains;
    blocks.AddWhen(a.completedAt >= b.observedAt, EvidenceExpired, Part("reread.observation"), "complete reread must start after the initial snapshot completes");
    blocks.AddWhen(!FreshIdentity(a, b), IdentityDrift, Part("reread.observation"), "reread must have a new evidence identity and disjoint request ids");
    blocks.AddWhen(a.policyRead != b.policyRead, IdentityDrift, Part("reread.policy_read"), "host policy changed between complete snapshots");
    CompareDomains(Domains(a, b), blocks);
  }

  lemma {:induction false} NoDomainBlock(domains: seq<Domain>)
    ensures DomainBlocks(domains) == {} <==> forall k :: 0 <= k < |domains| ==> domains[k].same
    decreases |domains|
  {
    if |domains| > 0 {
      var earlier := domains[..|domains| - 1];
      NoDomainBlock(earlier);
      assert forall k :: 0 <= k < |domains| - 1 ==> earlier[k] == domains[k];
    }
  }

  /** Both snapshots, with the parts of the evaluation that are not modelled; `comparable` says that both observations fit their schema. */
  datatype RereadInputs = RereadInputs(policy: Option<Policy>, implementers: Option<set<int>>, protectedPolicy: bool,
                                       initial: Option<Evidence>, reread: Option<Evidence>,
                                       initialInvalid: set<Block>, rereadInvalid: set<Block>,
                                       initialElsewhere: set<Block>, rereadElsewhere: set<Block>, comparable: bool, proofValid: bool)

  function InitialInputs(i: RereadInputs): Inputs {
    Inputs(i.policy, i.implementers, i.protectedPolicy, i.initial, i.initialInvalid, i.initialElsewhere)
  }

  function AgainInputs(i: RereadInputs): Inputs {
    Inputs(i.policy, i.implementers, i.protectedPolicy, i.reread, i.rereadInvalid, i.rereadElsewhere)
  }

  function ComparedBlocks(i: RereadInputs): set<Block> {
    if i.reread.None? then {Block(EvidenceMissing, Part("reread"), "complete reread is required")}
    else if i.initial.Some? && i.comparable then CompareBlocks(i.initial.value, i.reread.value) else {}
  }

  ghost function RereadBlocks(glob: Component, i: RereadInputs, now: int): set<Block> {
    VerdictOf(glob, InitialInputs(i), now).blocks + VerdictOf(glob, AgainInputs(i), now).blocks + ComparedBlocks(i)
  }

  /** `intent_ready`: eligible over everything, and the readiness proof fits its schema. */
  ghost predicate IntentReady(glob: Component, i: RereadInputs, now: int) {
    RereadBlocks(glob, i, now) == {} && i.proofValid
  }

  /** `evaluate_reread`. */
  method EvaluateReread(glob: Component, i: RereadInputs, now: int) returns (v: Verdict, ready: bool)
    ensures ready <==> IntentReady(glob, i, now)
    ensures var expected := RereadBlocks(glob, i, now);
            && v.blocks == (if expected == {} && !i.proofValid then {Block(InputInvalid, Part("readiness_proof"), "generated readiness proof does not match its closed schema")} else expected)
            && v.outcome == OutcomeOf(v.blocks)
    ensures var again := VerdictOf(glob, AgainInputs(i), now);
            v.requiredApprovals == again.requiredApprovals && v.approvals == again.approvals && v.requiredChecks == again.requiredChecks
  {
    hide VerdictOf, OutcomeOf, CompareBlocks;
    var initial := Evaluate(glob, InitialInputs(i), now);
    var again := Evaluate(glob, AgainInputs(i), now);
    var blocks := new Blocks();
    AddAll(initial.blocks, blocks);
    AddAll(again.blocks, blocks);
    AddCompared(i, blocks);
    assert blocks.seen == RereadBlocks(glob, i, now);
    ready := blocks.seen == {} && i.proofValid;
    blocks.AddWhen(blocks.seen == {} && !i.proofValid, InputInvalid, Part("readiness_proof"), "generated readiness proof does not match its closed schema");
    v := Conclude(blocks, again.requiredApprovals, again.approvals, again.requiredChecks);
  }

  method AddCompared(i: RereadInputs, blocks: Blocks)
    requires blocks.Valid()
    modifies blocks
    ensures blocks.Valid() && blocks.seen == old(blocks.seen) + ComparedBlocks(i)
  {
    hide CompareBlocks;
    if i.reread.None? {
      blocks.Add(EvidenceMissing, Part("reread"), "complete reread is required");
    } else if i.initial.Some? && i.comparable {
      CompareCompleteReread(i.initial.value, i.reread.value, blocks);
    }
  }

  // ---------------------------------------------------------------- what intent-ready means

  /** The second snapshot was read after the first, by other requests, and shows the same. */
  ghost predicate Unchanged(a: Evidence, b: Evidence) {
    && a.completedAt < b.observedAt
    && a.evidenceId != b.evidenceId && a.evidenceSha != b.evidenceSha && a.receiptId != b.receiptId
    && (forall j, k :: 0 <= j < |a.requestIds| && 0 <= k < |b.requestIds| ==> a.requestIds[j] != b.requestIds[k])
    && a.policyRead == b.policyRead && a.bindings == b.bindings
    && a.repository == b.repository && a.owner == b.owner && a.actor == b.actor && a.mergeActor == b.mergeActor
    && a.pullRequest == b.pullRequest && a.requiredSha == b.requiredSha && a.headSha == b.headSha && a.authorId == b.authorId && a.pusherId == b.pusherId
    && a.diff == b.diff && a.classic == b.classic && a.rules == b.rules && a.bypass == b.bypass
    && a.decision == b.decision && a.reviews == b.reviews && a.reviewRequests == b.reviewRequests && a.threads == b.threads
    && a.checks == b.checks && a.completeness == b.completeness
  }

  lemma DisjointExactly(a: seq<string>, b: seq<string>)
    ensures Disjoint(a, b) <==> forall j, k :: 0 <= j < |a| && 0 <= k < |b| ==> a[j] != b[k]
  {
    if Disjoint(a, b) {
      forall j, k | 0 <= j < |a| && 0 <= k < |b| ensures a[j] != b[k] { assert a[j] in a && b[k] in b; }
    } else {
      var x :| x in a && x in b;
      var j, k :| 0 <= j < |a| && a[j] == x && 0 <= k < |b| && b[k] == x;
      assert a[j] == b[k];
    }
  }

  /** The comparison adds no block exactly when the second snapshot is a new one and nothing that matters has changed. */
  lemma UnchangedMeans(a: Evidence, b: Evidence)
    ensures CompareBlocks(a, b) == {} <==> Unchanged(a, b)
  {
    NoDomainBlock(Domains(a, b));
    DisjointExactly(a.requestIds, b.requestIds);
    SameDomains(a, b);
    hide DomainBlocks, Domains, Disjoint;
  }

  lemma SameDomains(a: Evidence, b: Evidence)
    ensures (forall k :: 0 <= k < |Domains(a, b)| ==> Domains(a, b)[k].same) <==>
              && a.bindings == b.bindings && a.repository == b.repository && a.owner == b.owner && a.actor == b.actor && a.mergeActor == b.mergeActor
              && a.pullRequest == b.pullRequest && a.requiredSha == b.requiredSha && a.headSha == b.headSha && a.authorId == b.authorId && a.pusherId == b.pusherId
              && a.diff == b.diff && a.classic == b.classic && a.rules == b.rules && a.bypass == b.bypass
              && a.decision == b.decision && a.reviews == b.reviews && a.reviewRequests == b.reviewRequests && a.threads == b.threads
              && a.checks == b.checks && a.completeness == b.completeness
  {
    var domains := Domains(a, b);
    if forall k :: 0 <= k < |domains| ==> domains[k].same {
      assert domains[0].same && domains[1].same && domains[2].same && domains[3].same && domains[4].same;
      assert domains[5].same && domains[6].same && domains[7].same && domains[8].same;
    }
  }

  /** The approvers and required checks of two unchanged snapshots are the same. */
  lemma UnchangedVerdicts(p: Policy, implementers: set<int>, a: Evidence, b: Evidence)
    requires CompareBlocks(a, b) == {}
    ensures Approvals(ReviewsOf(p, implementers, a)) == Approvals(ReviewsOf(p, implementers, b))
    ensures PolicyRules.Gather(RulesOf(p, a), a.rules) == PolicyRules.Gather(RulesOf(p, b), b.rules)
  {
    UnchangedMeans(a, b);
    hide EffectiveReviews, PolicyRules.Gather, CompareBlocks;
    assert RulesOf(p, a) == RulesOf(p, b);
    var r, s := ReviewsOf(p, implementers, a), ReviewsOf(p, implementers, b);
    assert s == r.(completedAt := b.completedAt);
    forall actor | actor in EffectiveReviews(r.reviews)
      ensures ApprovesIndependently(r, EffectiveReviews(r.reviews)[actor]) == ApprovesIndependently(s, EffectiveReviews(r.reviews)[actor])
    {}
  }

  /** An observation that does not fit its schema has added a block. */
  ghost predicate Consistent(i: RereadInputs) { i.comparable || i.initialInvalid != {} || i.rereadInvalid != {} }

  /** A verdict without blocks had complete and valid inputs. */
  lemma NoBlocksMeans(glob: Component, i: Inputs, now: int)
    requires VerdictOf(glob, i, now).blocks == {}
    ensures MissingBlocks(i) == {} && i.invalid == {} && VerdictOf(glob, i, now).outcome == Eligible
  {
    EligibleHasNoBlocks({});
    hide OutcomeOf, OwnBlocks, MissingBlocks, PolicyRules.Gather, Approvals;
  }

  lemma ReadyParts(glob: Component, i: RereadInputs, now: int)
    requires IntentReady(glob, i, now) && Consistent(i)
    ensures i.policy.Some? && i.implementers.Some? && i.initial.Some? && i.reread.Some?
    ensures VerdictOf(glob, InitialInputs(i), now).outcome == Eligible && VerdictOf(glob, AgainInputs(i), now).outcome == Eligible
    ensures CompareBlocks(i.initial.value, i.reread.value) == {}
  {
    hide OutcomeOf, OwnBlocks, CompareBlocks, MissingBlocks, VerdictOf;
    NoBlocksMeans(glob, InitialInputs(i), now);
    NoBlocksMeans(glob, AgainInputs(i), now);
    NothingMissing(InitialInputs(i));
    NothingMissing(AgainInputs(i));
  }

  /**
    Intent is ready only if both snapshots are eligible by themselves, were read with disjoint
    requests, one after the other, agree on the approvers and on the required checks, and the whole
    cycle, from the first observation to the completion of the reread, took less than 60 seconds.
  */
  lemma IntentReadyMeans(glob: Component, i: RereadInputs, now: int)
    requires IntentReady(glob, i, now) && Consistent(i)
    ensures i.policy.Some? && i.implementers.Some? && i.initial.Some? && i.reread.Some?
    ensures var one, two := VerdictOf(glob, InitialInputs(i), now), VerdictOf(glob, AgainInputs(i), now);
            var a, b := i.initial.value, i.reread.value;
            && one.outcome == Eligible && two.outcome == Eligible
            && one.approvals == two.approvals && one.requiredChecks == two.requiredChecks && one.requiredApprovals == two.requiredApprovals
            && Disjoint(a.requestIds, b.requestIds) && a.evidenceId != b.evidenceId
            && a.observedAt <= a.completedAt < b.observedAt <= b.completedAt <= now < a.observedAt + MaxSnapshotAge
  {
    hide CompareBlocks, OutcomeOf, OwnBlocks, PolicyRules.Gather, Approvals, VerdictOf, ReviewsOf, RulesOf, IntentReady, Consistent;
    ReadyParts(glob, i, now);
    var p, m, a, b := i.policy.value, i.implementers.value, i.initial.value, i.reread.value;
    UnchangedMeans(a, b);
    UnchangedVerdicts(p, m, a, b);
    Windows(glob, i, now);
    VerdictParts(glob, InitialInputs(i), now);
    VerdictParts(glob, AgainInputs(i), now);
  }

  lemma VerdictParts(glob: Component, i: Inputs, now: int)
    requires VerdictOf(glob, i, now).outcome == Eligible
    ensures i.policy.Some? && i.implementers.Some? && i.evidence.Some?
    ensures var v, p, e := VerdictOf(glob, i, now), i.policy.value, i.evidence.value;
            && v.approvals == Approvals(ReviewsOf(p, i.implementers.value, e))
            && v.requiredChecks == PolicyRules.Gather(RulesOf(p, e), e.rules).required
            && v.requiredApprovals == PolicyRules.Gather(RulesOf(p, e), e.rules).approvals
  {
    hide OwnBlocks, OutcomeOf, MissingBlocks, Approvals, PolicyRules.Gather;
    EligibleHasNoBlocks(VerdictOf(glob, i, now).blocks);
    NothingMissing(i);
  }

  lemma Windows(glob: Component, i: RereadInputs, now: int)
    requires VerdictOf(glob, InitialInputs(i), now).outcome == Eligible && VerdictOf(glob, AgainInputs(i), now).outcome == Eligible
    ensures i.policy.Some? && i.initial.Some? && i.reread.Some?
    ensures InSnapshotWindow(i.policy.value, i.initial.value, now) && InSnapshotWindow(i.policy.value, i.reread.value, now)
  {
    EligibleMeans(glob, InitialInputs(i), now);
    EligibleMeans(glob, AgainInputs(i), now);
    hide VerdictOf, InSnapshotWindow, Demands, DemandsCheck, ApprovedBy, Proven, EffectiveReviews;
  }

  /** The inputs of one snapshot. */
  function Snapshot(i: RereadInputs, evidence: Option<Evidence>, invalid: set<Block>, elsewhere: set<Block>): Inputs {
    Inputs(i.policy, i.implementers, i.protectedPolicy, evidence, invalid, elsewhere)
  }

  ghost predicate Ready(glob: Component, i: RereadInputs, now: int) {
    && Eligibility.Complete(Snapshot(i, i.initial, i.initialInvalid, i.initialElsewhere))
    && Eligibility.Complete(Snapshot(i, i.reread, i.rereadInvalid, i.rereadElsewhere))
    && Eligibility.Passes(glob, i.policy.value, i.implementers.value, i.initial.value, now)
    && Eligibility.Passes(glob, i.policy.value, i.implementers.value, i.reread.value, now)
    && Unchanged(i.initial.value, i.reread.value) && i.proofValid
  }

  /**
    Intent is ready exactly when both snapshots are complete and pass the policy, the second was read
    after the first and shows the same, and the readiness proof fits its schema.
  */
  lemma IntentReadyExactly(glob: Component, i: RereadInputs, now: int)
    requires Consistent(i)
    ensures IntentReady(glob, i, now) <==> Ready(glob, i, now)
  {
    hide OutcomeOf, CompareBlocks, VerdictOf, Eligibility.Passes, Unchanged;
    SnapshotClear(glob, InitialInputs(i), now);
    SnapshotClear(glob, AgainInputs(i), now);
    if i.initial.Some? && i.reread.Some? { UnchangedMeans(i.initial.value, i.reread.value); }
  }

  lemma SnapshotClear(glob: Component, i: Inputs, now: int)
    ensures VerdictOf(glob, i, now).blocks == {} <==>
              Eligibility.Complete(i) && Eligibility.Passes(glob, i.policy.value, i.implementers.value, i.evidence.value, now)
  {
    Eligibility.EligibleExactly(glob, i, now);
    EligibleHasNoBlocks(VerdictOf(glob, i, now).blocks);
    OutcomeIs(glob, i, now);
    hide VerdictOf, OutcomeOf, Eligibility.Passes, Eligibility.AskedCheck, Eligibility.AskedApprovals, Eligibility.Approver;
  }

  lemma OutcomeIs(glob: Component, i: Inputs, now: int)
    ensures VerdictOf(glob, i, now).outcome == OutcomeOf(VerdictOf(glob, i, now).blocks)
  {
    hide OutcomeOf, OwnBlocks, MissingBlocks, Approvals, PolicyRules.Gather;
  }

  // ---------------------------------------------------------------- what a change is called

  lemma {:induction false} DomainBlocksAre(domains: seq<Domain>, b: Block)
    ensures b in DomainBlocks(domains) <==> exists k :: 0 <= k < |domains| && !domains[k].same && b == Block(domains[k].code, Part(domains[k].surface), Differs)
    decreases |domains|
  {
    if |domains| > 0 {
      var n := |domains| - 1;
      DomainBlocksAre(domains[..n], b);
      assert forall k :: 0 <= k < n ==> domains[..n][k] == domains[k];
      var last := When(!domains[n].same, domains[n].code, Part(domains[n].surface), Differs);
      assert DomainBlocks(domains) == DomainBlocks(domains[..n]) + last;
      hide DomainBlocks;
      assert b in last <==> !domains[n].same && b == Block(domains[n].code, Part(domains[n].surface), Differs);
    }
  }

  /** The change of a domain is reported as such. */
  ghost predicate Named(a: Evidence, b: Evidence, code: DenyCode, surface: string) {
    Block(code, Part(surface), Differs) in CompareBlocks(a, b)
  }

  lemma DomainIsNamed(a: Evidence, b: Evidence, k: nat)
    requires k < |Domains(a, b)| && !Domains(a, b)[k].same
    ensures Named(a, b, Domains(a, b)[k].code, Domains(a, b)[k].surface)
  {
    var d := Domains(a, b)[k];
    DomainBlocksAre(Domains(a, b), Block(d.code, Part(d.surface), Differs));
    hide DomainBlocks, When, FreshIdentity;
  }

  /** Each difference is reported under its own code and surface. */
  lemma ChangesAreNamed(a: Evidence, b: Evidence)
    ensures a.bindings != b.bindings ==> Named(a, b, IdentityDrift, "reread.authority")
    ensures a.repository != b.repository || a.owner != b.owner ==> Named(a, b, IdentityDrift, "reread.repository")
    ensures a.actor != b.actor || a.mergeActor != b.mergeActor ==> Named(a, b, IdentityDrift, "reread.actor")
    ensures a.pullRequest != b.pullRequest || a.headSha != b.headSha || a.requiredSha != b.requiredSha || a.authorId != b.authorId || a.pusherId != b.pusherId ==>
              Named(a, b, IdentityDrift, "reread.pull_request")
    ensures a.diff != b.diff ==> Named(a, b, DiffDrift, "reread.diff")
    ensures a.classic != b.classic || a.rules != b.rules || a.bypass != b.bypass ==> Named(a, b, RulesetDrift, "reread.rules")
    ensures a.decision != b.decision || a.reviews != b.reviews || a.reviewRequests != b.reviewRequests || a.threads != b.threads ==>
              Named(a, b, ReviewDrift, "reread.reviews")
    ensures a.checks != b.checks ==> Named(a, b, CheckEvidenceIncomplete, "reread.checks")
    ensures a.completeness != b.completeness ==> Named(a, b, FieldUnknown, "reread.completeness")
  {
    hide Named;
    forall k: nat | k < |Domains(a, b)| && !Domains(a, b)[k].same ensures Named(a, b, Domains(a, b)[k].code, Domains(a, b)[k].surface) { DomainIsNamed(a, b, k); }
    var d := Domains(a, b);
    assert |d| == 9;
    assert !d[0].same ==> Named(a, b, d[0].code, d[0].surface);
    assert !d[1].same ==> Named(a, b, d[1].code, d[1].surface);
    assert !d[2].same ==> Named(a, b, d[2].code, d[2].surface);
    assert !d[3].same ==> Named(a, b, d[3].code, d[3].surface);
    assert !d[4].same ==> Named(a, b, d[4].code, d[4].surface);
    assert !d[5].same ==> Named(a, b, d[5].code, d[5].surface);
    assert !d[6].same ==> Named(a, b, d[6].code, d[6].surface);
    assert !d[7].same ==> Named(a, b, d[7].code, d[7].surface);
    assert !d[8].same ==> Named(a, b, d[8].code, d[8].surface);
  }

  /** A reread that differs in any way leaves the candidate unknown: no change is ever judged. */
  lemma ChangedIsUnknown(a: Evidence, b: Evidence)
    ensures CompareBlocks(a, b) != {} ==> OutcomeOf(CompareBlocks(a, b)) == Unknown
  {
    var blocks := CompareBlocks(a, b);
    OutcomeExactly(blocks);
    hide OutcomeOf, Judged, Beyond;
    if x :| x in blocks { ComparedCode(a, b, x); }
  }

  lemma ComparedCode(a: Evidence, b: Evidence, x: Block)
    requires x in CompareBlocks(a, b)
    ensures x.code in {EvidenceExpired, IdentityDrift, DiffDrift, RulesetDrift, ReviewDrift, CheckEvidenceIncomplete, FieldUnknown}
    ensures !Beyond(x.code) && !Judged(x.code)
  {
    hide DomainBlocks, FreshIdentity, When, Domains, Judged, Beyond;
    DomainBlocksAre(Domains(a, b), x);
    WhenCode(x, a.completedAt >= b.observedAt, EvidenceExpired, Part("reread.observation"), "complete reread must start after the initial snapshot completes");
    WhenCode(x, !FreshIdentity(a, b), IdentityDrift, Part("reread.observation"), "reread must have a new evidence identity and disjoint request ids");
    WhenCode(x, a.policyRead != b.policyRead, IdentityDrift, Part("reread.policy_read"), "host policy changed between complete snapshots");
    DomainCodes(a, b);
    DriftIsUnknown();
  }

  lemma WhenCode(x: Block, condition: bool, code: DenyCode, surface: Surface, detail: string)
    ensures x in When(condition, code, surface, detail) ==> x.code == code
  {}

  lemma DomainCodes(a: Evidence, b: Evidence)
    ensures forall k :: 0 <= k < |Domains(a, b)| ==>
              Domains(a, b)[k].code in {IdentityDrift, DiffDrift, RulesetDrift, ReviewDrift, CheckEvidenceIncomplete, FieldUnknown}
  {}

  lemma DriftIsUnknown()
    ensures forall code :: code in {EvidenceExpired, IdentityDrift, DiffDrift, RulesetDrift, ReviewDrift, CheckEvidenceIncomplete, FieldUnknown} ==>
              !Beyond(code) && !Judged(code)
  {}
}
