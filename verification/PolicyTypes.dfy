/** Deny codes, blocks and outcomes of the merge evaluator (pathfinder_core/merge_policy_types.py, merge_policy.py). */
module PolicyTypes {
  import opened Wrappers

  datatype DenyCode =
    | PolicyMissing | AuthorizationMissing | EvidenceMissing | ProtectedPolicyMissing | InputInvalid | PolicyExpired
    | AuthorizationExpired | EvidenceExpired | IdentityDrift | DiffDrift | ApiVersionUnknown | PaginationIncomplete
    | ClassicProtectionUnknown | RulesetEvidenceIncomplete | RulesetDrift | BypassVisibilityUnknown | ActorIdentityUnknown
    | ReviewStateUnknown | CheckEvidenceIncomplete | MergeStateUnknown | DiffIncomplete | FieldUnknown | MergeQueueRequired
    | UnsupportedRequiredDeployments | UnsupportedRequiredSignatures | UnsupportedCodeScanning | UnsupportedCodeQuality
    | UnsupportedFileRestriction | UnsupportedMetadataRestriction | UnsupportedActiveRule | UnsupportedMergeMethod
    | RepositoryUnavailable | PullRequestNotOpen | DraftPullRequest | Fork | ControllerBranchUnproven | ProtectedSurface
    | PathNotAllowed | PathDenied | DiffLimitExceeded | PolicyUnenforced | IndependentReviewNotEnforced | MergeActorCanBypass
    | IndependentReviewMissing | ChangesRequested | CodeOwnerReviewMissing | UnresolvedThread | ReviewDrift
    | RequiredCheckUnproven | RequiredCheckPending | RequiredCheckFailed | UnexpectedCheckApp | CheckShaDrift | BaseBehind
    | MergeConflict

  const UnknownCodes: set<DenyCode> := {
    PolicyMissing, AuthorizationMissing, EvidenceMissing, ProtectedPolicyMissing, InputInvalid, PolicyExpired,
    AuthorizationExpired, EvidenceExpired, IdentityDrift, DiffDrift, ApiVersionUnknown, PaginationIncomplete,
    ClassicProtectionUnknown, RulesetEvidenceIncomplete, RulesetDrift, BypassVisibilityUnknown, ActorIdentityUnknown,
    ReviewStateUnknown, ReviewDrift, CheckEvidenceIncomplete, CheckShaDrift, MergeStateUnknown, DiffIncomplete, FieldUnknown}

  const UnsupportedCodes: set<DenyCode> := {
    MergeQueueRequired, UnsupportedRequiredDeployments, UnsupportedRequiredSignatures, UnsupportedCodeScanning,
    UnsupportedCodeQuality, UnsupportedFileRestriction, UnsupportedMetadataRestriction, UnsupportedActiveRule,
    UnsupportedMergeMethod}

  /** What a block is about: a named part of the evidence, one of its numbered items, or a path or context. */
  datatype Surface = Part(name: string) | Item(name: string, id: int) | Named(value: string) | AtPath(path: seq<string>)

  datatype Block = Block(code: DenyCode, surface: Surface, detail: string)

  datatype CheckRequirement = CheckRequirement(context: string, appId: int)

  datatype Outcome = Unknown | Unsupported | PolicyBlocked | Eligible

  ghost predicate HasCode(blocks: set<Block>, codes: set<DenyCode>) { exists b :: b in blocks && b.code in codes }

  /** What a set of blocks means. */
  ghost function OutcomeOf(blocks: set<Block>): Outcome {
    if HasCode(blocks, UnknownCodes) then Unknown
    else if HasCode(blocks, UnsupportedCodes) then Unsupported
    else if blocks != {} then PolicyBlocked else Eligible
  }

  /** The codes that say that the policy was judged, and not met. */
  ghost predicate Judged(code: DenyCode) {
    code in {RepositoryUnavailable, PullRequestNotOpen, DraftPullRequest, Fork, ControllerBranchUnproven, ProtectedSurface, PathNotAllowed, PathDenied,
             DiffLimitExceeded, PolicyUnenforced, IndependentReviewNotEnforced, MergeActorCanBypass, IndependentReviewMissing, ChangesRequested,
             CodeOwnerReviewMissing, UnresolvedThread, RequiredCheckUnproven, RequiredCheckPending, RequiredCheckFailed, UnexpectedCheckApp,
             BaseBehind, MergeConflict}
  }

  /** The codes that say that a rule cannot be judged here. */
  ghost predicate Beyond(code: DenyCode) {
    code in {MergeQueueRequired, UnsupportedRequiredDeployments, UnsupportedRequiredSignatures, UnsupportedCodeScanning, UnsupportedCodeQuality,
             UnsupportedFileRestriction, UnsupportedMetadataRestriction, UnsupportedActiveRule, UnsupportedMergeMethod}
  }

  lemma CodesAre(code: DenyCode)
    ensures code in UnsupportedCodes <==> Beyond(code)
    ensures code in UnknownCodes <==> !Beyond(code) && !Judged(code)
    ensures !(Beyond(code) && Judged(code))
  {
    match code { case _ => }
  }

  /** Blocked by policy: everything was known, supported and judged.  Unknown: something was neither judged nor beyond judging. */
  lemma OutcomeExactly(blocks: set<Block>)
    ensures OutcomeOf(blocks) == Eligible <==> blocks == {}
    ensures OutcomeOf(blocks) == PolicyBlocked <==> blocks != {} && forall b :: b in blocks ==> Judged(b.code)
    ensures OutcomeOf(blocks) == Unsupported <==> (exists b :: b in blocks && Beyond(b.code)) && forall b :: b in blocks ==> Beyond(b.code) || Judged(b.code)
    ensures OutcomeOf(blocks) == Unknown <==> exists b :: b in blocks && !Beyond(b.code) && !Judged(b.code)
  {
    hide Judged, Beyond, UnknownCodes, UnsupportedCodes;
    forall code ensures (code in UnsupportedCodes <==> Beyond(code)) && (code in UnknownCodes <==> !Beyond(code) && !Judged(code)) && !(Beyond(code) && Judged(code)) { CodesAre(code); }
  }

  function When(condition: bool, code: DenyCode, surface: Surface, detail: string): (b: set<Block>)
    ensures b == {} <==> !condition
  {
    if condition then {Block(code, surface, detail)} else {}
  }

  /** Some block is of the code. */
  ghost predicate Says(blocks: set<Block>, code: DenyCode) { exists b :: b in blocks && b.code == code }

  lemma OneSays(b: Block, c: DenyCode)
    ensures Says({b}, c) <==> c == b.code
  {
    assert b in {b};
  }

  lemma NoneSays(c: DenyCode)
    ensures !Says({}, c)
  {}

  lemma WhenSays(condition: bool, code: DenyCode, surface: Surface, detail: string, c: DenyCode)
    ensures Says(When(condition, code, surface, detail), c) <==> condition && c == code
    ensures Says({Block(code, surface, detail)}, c) <==> c == code
  {
    hide Says;
    OneSays(Block(code, surface, detail), c);
    NoneSays(c);
  }

  lemma BothSay(one: set<Block>, two: set<Block>, c: DenyCode)
    ensures Says(one + two, c) <==> Says(one, c) || Says(two, c)
  {}

  /** The accumulator every part of the evaluator adds to: in order, without repetition. */
  class Blocks {
    var items: seq<Block>
    var seen: set<Block>

    ghost predicate Valid()
      reads this
    {
      && (forall b :: b in seen <==> b in items)
      && (forall i, j :: 0 <= i < j < |items| ==> items[i] != items[j])
    }

    constructor ()
      ensures Valid() && seen == {} && items == []
    {
      items, seen := [], {};
    }

    method Add(code: DenyCode, surface: Surface, detail: string)
      requires Valid()
      modifies this
      ensures Valid() && seen == old(seen) + {Block(code, surface, detail)}
      ensures items == if Block(code, surface, detail) in old(seen) then old(items) else old(items) + [Block(code, surface, detail)]
    {
      var key := Block(code, surface, detail);
      if key !in seen {
        seen := seen + {key};
        items := items + [key];
      }
    }

    method AddWhen(condition: bool, code: DenyCode, surface: Surface, detail: string)
      requires Valid()
      modifies this
      ensures Valid() && seen == old(seen) + When(condition, code, surface, detail)
    {
      if condition { Add(code, surface, detail); }
    }

    /** `_outcome` looks at the codes only. */
    method Outcome() returns (outcome: Outcome)
      requires Valid()
      ensures outcome == OutcomeOf(seen)
    {
      var unknown, unsupported := false, false;
      for i := 0 to |items|
        invariant unknown <==> exists k :: 0 <= k < i && items[k].code in UnknownCodes
        invariant unsupported <==> exists k :: 0 <= k < i && items[k].code in UnsupportedCodes
      {
        unknown := unknown || items[i].code in UnknownCodes;
        unsupported := unsupported || items[i].code in UnsupportedCodes;
      }
      assert unknown <==> HasCode(seen, UnknownCodes);
      assert unsupported <==> HasCode(seen, UnsupportedCodes);
      assert items == [] <==> seen == {} by { if |items| > 0 { assert items[0] in seen; } }
      outcome := if unknown then Unknown else if unsupported then Unsupported else if |items| > 0 then PolicyBlocked else Eligible;
    }
  }
}
