/**
  Protection rules (pathfinder_core/merge_policy.py): the approvals and checks that the policy,
  classic protection and the active rulesets require together.  Where the rules come from and who may
  bypass them is in `PolicyBypass`.
*/
module PolicyRules {
  import opened Wrappers
  import opened PolicyTypes

  datatype ClassicSettings = ClassicSettings(reviewCount: int, signatures: bool, codeOwner: bool, restrictions: bool, dismissal: bool)

  /** `settings` is None when any setting is null; `clean` says that absent protection has no settings. */
  datatype Classic =
    | ClassicUnknown
    | ClassicAbsent(clean: bool)
    | ClassicPresent(settings: Option<ClassicSettings>, requiredChecks: set<CheckRequirement>, bypassComplete: bool)

  /** `sourceMatches` says that the rule's ruleset is there, active, and of the type and id the rule names. */
  datatype Rule = Rule(rulesetId: int, ruleType: string, approvalCount: Option<int>, methods: seq<string>,
                       requiredChecks: set<CheckRequirement>, strict: Option<bool>, codeOwner: Option<bool>, sourceMatches: bool)

  datatype RuleInputs = RuleInputs(floor: int, policyChecks: set<CheckRequirement>, classic: Classic, rules: seq<Rule>)

  /** What has been gathered so far. */
  datatype Gathered = Gathered(approvals: int, required: set<CheckRequirement>, enforced: set<CheckRequirement>,
                               reviewEnforced: bool, blocks: set<Block>)

  function Max(a: int, b: int): int { if a >= b then a else b }

  function UnsupportedType(ruleType: string): Option<DenyCode> {
    if ruleType == "merge_queue" then Some(MergeQueueRequired)
    else if ruleType == "required_deployments" then Some(UnsupportedRequiredDeployments)
    else if ruleType == "required_signatures" then Some(UnsupportedRequiredSignatures)
    else if ruleType == "code_scanning" then Some(UnsupportedCodeScanning)
    else if ruleType == "code_quality" then Some(UnsupportedCodeQuality)
    else if ruleType == "file_path_restriction" then Some(UnsupportedFileRestriction)
    else if ruleType == "max_file_size" then Some(UnsupportedMetadataRestriction)
    else None
  }

  // ---------------------------------------------------------------- classic protection

  function SettingsBlocks(s: ClassicSettings): set<Block> {
    When(s.signatures, UnsupportedRequiredSignatures, Part("classic_protection.required_signatures"), "classic protection requires signed commits")
    + When(s.codeOwner, UnsupportedActiveRule, Part("classic_protection.code_owner_review_required"), "classic code-owner approval cannot be attributed")
    + When(s.restrictions, UnsupportedActiveRule, Part("classic_protection.restrictions_present"), "classic push restrictions are active")
    + When(s.dismissal, UnsupportedActiveRule, Part("classic_protection.dismissal_restrictions_present"), "classic review-dismissal restrictions are active")
  }

  function ClassicBlocks(c: Classic): set<Block> {
    match c
    case ClassicUnknown => {Block(ClassicProtectionUnknown, Part("classic_protection"), "classic protection is unknown")}
    case ClassicAbsent(clean) => When(!clean, ClassicProtectionUnknown, Part("classic_protection"), "absent protection has settings")
    case ClassicPresent(settings, _, complete) =>
      (if settings.None? then {Block(ClassicProtectionUnknown, Part("classic_protection"), "classic settings are incomplete")}
       else SettingsBlocks(settings.value))
      + When(!complete, BypassVisibilityUnknown, Part("classic_protection"), "classic bypass visibility is incomplete")
  }

  function AfterClassic(i: RuleInputs, found: set<Block>): Gathered {
    var start := Gathered(Max(1, i.floor), i.policyChecks, {}, false, found + ClassicBlocks(i.classic));
    match i.classic
    case ClassicPresent(settings, checks, _) =>
      var counted := if settings.None? then start
                     else start.(approvals := Max(start.approvals, settings.value.reviewCount), reviewEnforced := settings.value.reviewCount >= 1);
      counted.(enforced := checks, required := i.policyChecks + checks)
    case _ => start
  }

  // ---------------------------------------------------------------- one ruleset rule

  predicate WellFormedPullRequest(r: Rule) {
    r.approvalCount.Some? && |r.methods| > 0 && r.requiredChecks == {} && r.strict.None? && r.codeOwner.Some?
  }

  predicate WellFormedChecks(r: Rule) {
    r.approvalCount.None? && |r.methods| == 0 && r.requiredChecks != {} && r.strict.Some? && r.codeOwner.None?
  }

  predicate WellFormedHistory(r: Rule) {
    r.approvalCount.None? && |r.methods| == 0 && r.requiredChecks == {} && r.strict.None? && r.codeOwner.None?
  }

  function RuleSurface(r: Rule): Surface { Item("active_rules", r.rulesetId) }

  function TypeBlocks(r: Rule): set<Block> {
    if UnsupportedType(r.ruleType).Some? then {Block(UnsupportedType(r.ruleType).value, RuleSurface(r), r.ruleType)}
    else if r.ruleType == "pull_request" then
      When(!WellFormedPullRequest(r), RulesetDrift, RuleSurface(r), "pull-request parameters differ")
      + When(r.codeOwner == Some(true), UnsupportedActiveRule, Item("active_rules.code_owner_review_required", r.rulesetId),
             "ruleset code-owner approval cannot be attributed")
      + When("squash" !in r.methods, UnsupportedMergeMethod, RuleSurface(r), "ruleset does not allow squash")
    else if r.ruleType == "required_status_checks" then
      When(!WellFormedChecks(r), RulesetDrift, RuleSurface(r), "check parameters differ")
    else if r.ruleType == "required_linear_history" then
      When(!WellFormedHistory(r), RulesetDrift, RuleSurface(r), "linear-history parameters differ")
    else {Block(UnsupportedActiveRule, RuleSurface(r), r.ruleType)}
  }

  function RuleBlocks(r: Rule): set<Block> {
    When(!r.sourceMatches, RulesetDrift, RuleSurface(r), "rule source differs") + TypeBlocks(r)
  }

  function RuleStep(g: Gathered, r: Rule): Gathered {
    var noted := g.(blocks := g.blocks + RuleBlocks(r));
    if r.ruleType == "pull_request" && WellFormedPullRequest(r) then
      noted.(approvals := Max(g.approvals, r.approvalCount.value), reviewEnforced := g.reviewEnforced || r.approvalCount.value >= 1)
    else if r.ruleType == "required_status_checks" then
      noted.(enforced := g.enforced + r.requiredChecks, required := g.required + r.requiredChecks)
    else noted
  }

  /** Everything gathered, on top of the blocks found before. */
  function GatherOnto(i: RuleInputs, rules: seq<Rule>, found: set<Block>): Gathered {
    if |rules| == 0 then AfterClassic(i, found) else RuleStep(GatherOnto(i, rules[..|rules| - 1], found), rules[|rules| - 1])
  }

  function Gather(i: RuleInputs, rules: seq<Rule>): Gathered { GatherOnto(i, rules, {}) }

  function EnforcementBlocks(i: RuleInputs, g: Gathered): set<Block> {
    When(i.classic.ClassicAbsent? && |i.rules| == 0, PolicyUnenforced, Part("protection"), "GitHub enforces no merge policy")
    + When(!g.reviewEnforced, IndependentReviewNotEnforced, Part("reviews"), "GitHub does not enforce a human approval")
    + When(g.enforced == {}, RequiredCheckUnproven, Part("checks"), "GitHub does not enforce a pinned check")
  }

  function RulesBlocks(i: RuleInputs): set<Block> {
    var g := Gather(i, i.rules);
    g.blocks + EnforcementBlocks(i, g)
  }

  // ---------------------------------------------------------------- the loops

  method AddClassic(c: Classic, blocks: Blocks)
    requires blocks.Valid()
    modifies blocks
    ensures blocks.Valid() && blocks.seen == old(blocks.seen) + ClassicBlocks(c)
  {
    match c {
      case ClassicUnknown => blocks.Add(ClassicProtectionUnknown, Part("classic_protection"), "classic protection is unknown");
      case ClassicAbsent(clean) => blocks.AddWhen(!clean, ClassicProtectionUnknown, Part("classic_protection"), "absent protection has settings");
      case ClassicPresent(settings, _, complete) =>
        if settings.None? {
          blocks.Add(ClassicProtectionUnknown, Part("classic_protection"), "classic settings are incomplete");
        } else {
          AddSettings(settings.value, blocks);
        }
        blocks.AddWhen(!complete, BypassVisibilityUnknown, Part("classic_protection"), "classic bypass visibility is incomplete");
    }
  }

  method AddSettings(s: ClassicSettings, blocks: Blocks)
    requires blocks.Valid()
    modifies blocks
    ensures blocks.Valid() && blocks.seen == old(blocks.seen) + SettingsBlocks(s)
  {
    blocks.AddWhen(s.signatures, UnsupportedRequiredSignatures, Part("classic_protection.required_signatures"), "classic protection requires signed commits");
    blocks.AddWhen(s.codeOwner, UnsupportedActiveRule, Part("classic_protection.code_owner_review_required"), "classic code-owner approval cannot be attributed");
    blocks.AddWhen(s.restrictions, UnsupportedActiveRule, Part("classic_protection.restrictions_present"), "classic push restrictions are active");
    blocks.AddWhen(s.dismissal, UnsupportedActiveRule, Part("classic_protection.dismissal_restrictions_present"), "classic review-dismissal restrictions are active");
  }

  method AddRule(r: Rule, blocks: Blocks)
    requires blocks.Valid()
    modifies blocks
    ensures blocks.Valid() && blocks.seen == old(blocks.seen) + RuleBlocks(r)
  {
    blocks.AddWhen(!r.sourceMatches, RulesetDrift, RuleSurface(r), "rule source differs");
    var unsupported := UnsupportedType(r.ruleType);
    if unsupported.Some? {
      blocks.Add(unsupported.value, RuleSurface(r), r.ruleType);
    } else if r.ruleType == "pull_request" {
      blocks.AddWhen(!WellFormedPullRequest(r), RulesetDrift, RuleSurface(r), "pull-request parameters differ");
      blocks.AddWhen(r.codeOwner == Some(true), UnsupportedActiveRule, Item("active_rules.code_owner_review_required", r.rulesetId),
                     "ruleset code-owner approval cannot be attributed");
      blocks.AddWhen("squash" !in r.methods, UnsupportedMergeMethod, RuleSurface(r), "ruleset does not allow squash");
    } else if r.ruleType == "required_status_checks" {
      blocks.AddWhen(!WellFormedChecks(r), RulesetDrift, RuleSurface(r), "check parameters differ");
    } else if r.ruleType == "required_linear_history" {
      blocks.AddWhen(!WellFormedHistory(r), RulesetDrift, RuleSurface(r), "linear-history parameters differ");
    } else {
      blocks.Add(UnsupportedActiveRule, RuleSurface(r), r.ruleType);
    }
  }

  lemma {:induction false} GatherFactors(i: RuleInputs, rules: seq<Rule>, found: set<Block>)
    ensures var g, g0 := GatherOnto(i, rules, found), GatherOnto(i, rules, {});
            g == g0.(blocks := found + g0.blocks)
    decreases |rules|
  {
    hide ClassicBlocks, RuleBlocks, WellFormedPullRequest;
    if |rules| > 0 { GatherFactors(i, rules[..|rules| - 1], found); }
  }

  method StartRules(i: RuleInputs, blocks: Blocks)
    returns (approvals: int, required: set<CheckRequirement>, enforced: set<CheckRequirement>, reviewEnforced: bool)
    requires blocks.Valid()
    modifies blocks
    ensures blocks.Valid() && Gathered(approvals, required, enforced, reviewEnforced, blocks.seen) == AfterClassic(i, old(blocks.seen))
  {
    approvals, required, enforced, reviewEnforced := Max(1, i.floor), i.policyChecks, {}, false;
    AddClassic(i.classic, blocks);
    hide ClassicBlocks;
    if i.classic.ClassicPresent? {
      if i.classic.settings.Some? {
        approvals := Max(approvals, i.classic.settings.value.reviewCount);
        reviewEnforced := i.classic.settings.value.reviewCount >= 1;
      }
      enforced := enforced + i.classic.requiredChecks;
      required := required + enforced;
    }
  }

  method ApplyRule(r: Rule, approvals: int, required: set<CheckRequirement>, enforced: set<CheckRequirement>, reviewEnforced: bool, blocks: Blocks)
    returns (approvals': int, required': set<CheckRequirement>, enforced': set<CheckRequirement>, reviewEnforced': bool)
    requires blocks.Valid()
    modifies blocks
    ensures blocks.Valid()
    ensures Gathered(approvals', required', enforced', reviewEnforced', blocks.seen)
            == RuleStep(Gathered(approvals, required, enforced, reviewEnforced, old(blocks.seen)), r)
  {
    approvals', required', enforced', reviewEnforced' := approvals, required, enforced, reviewEnforced;
    AddRule(r, blocks);
    hide RuleBlocks;
    if r.ruleType == "pull_request" && WellFormedPullRequest(r) {
      approvals', reviewEnforced' := Max(approvals, r.approvalCount.value), reviewEnforced || r.approvalCount.value >= 1;
    } else if r.ruleType == "required_status_checks" {
      enforced', required' := enforced + r.requiredChecks, required + r.requiredChecks;
    }
  }

  /** The approvals, checks and enforced checks of `_rules`. */
  method EvaluateRules(i: RuleInputs, blocks: Blocks)
    returns (approvals: int, required: set<CheckRequirement>, enforced: set<CheckRequirement>)
    requires blocks.Valid()
    modifies blocks
    ensures blocks.Valid() && blocks.seen == old(blocks.seen) + RulesBlocks(i)
    ensures var g := Gather(i, i.rules); approvals == g.approvals && required == g.required && enforced == g.enforced
  {
    var reviewEnforced;
    approvals, required, enforced, reviewEnforced := StartRules(i, blocks);
    assert i.rules[..0] == [];
    hide RuleStep, AfterClassic;
    for k := 0 to |i.rules|
      invariant blocks.Valid()
      invariant Gathered(approvals, required, enforced, reviewEnforced, blocks.seen) == GatherOnto(i, i.rules[..k], old(blocks.seen))
    {
      assert i.rules[..k + 1][..k] == i.rules[..k];
      approvals, required, enforced, reviewEnforced := ApplyRule(i.rules[k], approvals, required, enforced, reviewEnforced, blocks);
    }
    assert i.rules[..|i.rules|] == i.rules;
    GatherFactors(i, i.rules, old(blocks.seen));
    hide GatherOnto, When, RulesBlocks;
    blocks.AddWhen(i.classic.ClassicAbsent? && |i.rules| == 0, PolicyUnenforced, Part("protection"), "GitHub enforces no merge policy");
    blocks.AddWhen(!reviewEnforced, IndependentReviewNotEnforced, Part("reviews"), "GitHub does not enforce a human approval");
    blocks.AddWhen(enforced == {}, RequiredCheckUnproven, Part("checks"), "GitHub does not enforce a pinned check");
    RulesBlocksAdd(i, old(blocks.seen));
  }

  lemma RulesBlocksAdd(i: RuleInputs, start: set<Block>)
    ensures var g := Gather(i, i.rules);
            start + RulesBlocks(i)
            == start + g.blocks
               + When(i.classic.ClassicAbsent? && |i.rules| == 0, PolicyUnenforced, Part("protection"), "GitHub enforces no merge policy")
               + When(!g.reviewEnforced, IndependentReviewNotEnforced, Part("reviews"), "GitHub does not enforce a human approval")
               + When(g.enforced == {}, RequiredCheckUnproven, Part("checks"), "GitHub does not enforce a pinned check")
  {
    hide When, Gather;
  }

  // ---------------------------------------------------------------- what no block means

  /** Everything that asks for approvals, as the rules are read declaratively. */
  ghost predicate Demands(i: RuleInputs, rules: seq<Rule>, count: int) {
    || count == 1 || count == i.floor
    || (i.classic.ClassicPresent? && i.classic.settings.Some? && count == i.classic.settings.value.reviewCount)
    || exists r :: r in rules && r.ruleType == "pull_request" && r.approvalCount == Some(count)
  }

  ghost predicate DemandsCheck(i: RuleInputs, rules: seq<Rule>, c: CheckRequirement) {
    || c in i.policyChecks
    || (i.classic.ClassicPresent? && c in i.classic.requiredChecks)
    || exists r :: r in rules && r.ruleType == "required_status_checks" && c in r.requiredChecks
  }

  /** The approvals are the largest number demanded, the checks are exactly those demanded. */
  ghost predicate AsDemanded(i: RuleInputs, rules: seq<Rule>, g: Gathered) {
    && Demands(i, rules, g.approvals) && (forall count :: Demands(i, rules, count) ==> count <= g.approvals)
    && (forall c :: c in g.required <==> DemandsCheck(i, rules, c))
  }

  lemma DemandsGrow(i: RuleInputs, earlier: seq<Rule>, last: Rule)
    ensures forall count :: Demands(i, earlier + [last], count) <==>
              Demands(i, earlier, count) || (last.ruleType == "pull_request" && last.approvalCount == Some(count))
    ensures forall c :: DemandsCheck(i, earlier + [last], c) <==>
              DemandsCheck(i, earlier, c) || (last.ruleType == "required_status_checks" && c in last.requiredChecks)
  {}

  lemma StepAsDemanded(i: RuleInputs, earlier: seq<Rule>, last: Rule, g: Gathered)
    requires AsDemanded(i, earlier, g) && RuleBlocks(last) == {}
    ensures AsDemanded(i, earlier + [last], RuleStep(g, last))
  {
    assert last.ruleType == "pull_request" ==> WellFormedPullRequest(last);
    hide RuleBlocks;
    DemandsGrow(i, earlier, last);
    hide Demands, DemandsCheck;
  }

  lemma ClassicAsDemanded(i: RuleInputs)
    requires Gather(i, []).blocks == {}
    ensures AsDemanded(i, [], Gather(i, []))
  {
    assert AfterClassic(i, {}).blocks == {};
    hide RuleBlocks, RuleStep;
  }

  lemma GatherLast(i: RuleInputs, rules: seq<Rule>)
    requires |rules| > 0
    ensures var earlier, last := Gather(i, rules[..|rules| - 1]), rules[|rules| - 1];
            Gather(i, rules) == RuleStep(earlier, last) && Gather(i, rules).blocks == earlier.blocks + RuleBlocks(last)
  {
    hide RuleBlocks;
  }

  /**
    Without a block, the approvals gathered are the largest number anything demands, and the checks
    gathered are exactly those anything demands.
  */
  lemma {:induction false} GatheredIsDemanded(i: RuleInputs, rules: seq<Rule>)
    requires Gather(i, rules).blocks == {}
    ensures AsDemanded(i, rules, Gather(i, rules))
    decreases |rules|
  {
    hide AsDemanded, RuleBlocks, Gather;
    if |rules| == 0 {
      assert rules == [];
      ClassicAsDemanded(i);
    } else {
      var earlier, last := rules[..|rules| - 1], rules[|rules| - 1];
      GatherLast(i, rules);
      GatheredIsDemanded(i, earlier);
      assert rules == earlier + [last];
      StepAsDemanded(i, earlier, last, Gather(i, earlier));
    }
  }
}
