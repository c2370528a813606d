/**
  Who may bypass the rules (the second half of `_rules` in pathfinder_core/merge_policy.py, and
  merge_bypass.py): the rulesets behind the active rules, their bypass actors, and the resolution of
  every team, role or administrator bypass to a membership of the merge actor.
*/
module PolicyBypass {
  import opened Wrappers
  import opened PolicyTypes

  /** The actor types whose bypass depends on a membership, and the others by name. */
  datatype Kind = Team | RepositoryRole | OrganizationAdmin | Direct(name: string)

  datatype Identity = Identity(kind: Kind, id: string)

  datatype RulesetKey = RulesetKey(identity: Identity, mode: string)

  datatype ClassicName = ClassicName(identity: Identity, name: string)

  datatype RulesetName = RulesetName(key: RulesetKey, name: string)

  /** `signature` says whether the recorded hash is that of the active rules; `updatedAt` is None when it does not parse. */
  datatype Ruleset = Ruleset(id: int, signature: bool, bypassComplete: bool, updatedAt: Option<int>,
                             keys: seq<RulesetKey>, metadata: seq<RulesetName>)

  datatype RuleKey = RuleKey(ruleset: int, ruleType: string)

  /** What a membership resolves: a bypass actor of classic protection or of one ruleset. */
  datatype Ref = ClassicRef(identity: Identity) | RulesetRef(ruleset: int, identity: Identity, mode: string)

  datatype Assessment = Match | NoMatch | NotKnown

  /** `name` is the team's slug or the role's name; `role` is the membership, organization or repository role. */
  datatype Membership = Membership(ref: Ref, subjectId: int, subjectLogin: string, organization: string, name: string,
                                   requestId: string, endpoint: string, state: string, permission: string, role: Option<string>)

  datatype Audit = Audit(target: string, status: int, qualified: bool)

  /** `selves` is the merge actor as an integration and as a user. */
  datatype Actor = Actor(id: int, login: string, selves: set<Identity>, claimed: Assessment, administers: bool, suspended: bool)

  /** The parts of an observation about bypassing. */
  datatype BypassEvidence = BypassEvidence(classicKeys: seq<Identity>, classicMetadata: seq<ClassicName>, rulesets: seq<Ruleset>,
                                           memberships: seq<Membership>)

  datatype BypassInputs = BypassInputs(
    ruleKeys: seq<RuleKey>, classicKeys: seq<Identity>, classicMetadata: seq<ClassicName>, rulesets: seq<Ruleset>,
    memberships: seq<Membership>, audits: map<string, Audit>, actor: Actor, owner: string, completedAt: int)

  predicate Distinct<T(==)>(s: seq<T>) { forall i, j :: 0 <= i < j < |s| ==> s[i] != s[j] }

  // ---------------------------------------------------------------- the rulesets behind the rules

  function RulesetIds(i: BypassInputs): seq<int> { seq(|i.rulesets|, k requires 0 <= k < |i.rulesets| => i.rulesets[k].id) }

  predicate SourcesAgree(i: BypassInputs) {
    && (set x | x in RulesetIds(i)) == (set k | k in i.ruleKeys :: k.ruleset)
    && Distinct(RulesetIds(i)) && Distinct(i.ruleKeys)
  }

  function SourceSurface(r: Ruleset): Surface { Item("source_rulesets", r.id) }

  function RulesetBlocks(r: Ruleset, completedAt: int): set<Block> {
    When(!r.signature, RulesetDrift, SourceSurface(r), "source and aggregate rule parameters differ")
    + When(!r.bypassComplete, BypassVisibilityUnknown, SourceSurface(r), "ruleset bypass visibility is incomplete")
    + UpdateBlocks(r, completedAt)
    + When(!MetadataFits(r), BypassVisibilityUnknown, Item("source_rulesets.bypass_actor_metadata", r.id), "ruleset bypass metadata differs from actor keys")
  }

  function UpdateBlocks(r: Ruleset, completedAt: int): set<Block> {
    match r.updatedAt
    case None => {Block(RulesetDrift, SourceSurface(r), "ruleset update time is invalid")}
    case Some(at) => When(at > completedAt, RulesetDrift, SourceSurface(r), "ruleset update postdates observation")
  }

  predicate MetadataFits(r: Ruleset) {
    && Distinct(seq(|r.metadata|, k requires 0 <= k < |r.metadata| => r.metadata[k].key))
    && forall m :: m in r.metadata ==> m.key in r.keys
  }

  predicate ClassicMetadataFits(i: BypassInputs) {
    && Distinct(seq(|i.classicMetadata|, k requires 0 <= k < |i.classicMetadata| => i.classicMetadata[k].identity))
    && forall m :: m in i.classicMetadata ==> m.identity in i.classicKeys
  }

  function AllRulesetBlocks(rulesets: seq<Ruleset>, completedAt: int): set<Block> {
    if |rulesets| == 0 then {}
    else AllRulesetBlocks(rulesets[..|rulesets| - 1], completedAt) + RulesetBlocks(rulesets[|rulesets| - 1], completedAt)
  }

  // ---------------------------------------------------------------- who may bypass

  /** `bypass_actor_type(key) in AMBIGUOUS_MEMBERSHIP_TYPES`. */
  predicate Ambiguous(identity: Identity) { !identity.kind.Direct? }

  function DirectOfRulesets(rulesets: seq<Ruleset>): set<Identity> {
    set r, k | r in rulesets && k in r.keys && !Ambiguous(k.identity) :: k.identity
  }

  function DirectActors(i: BypassInputs): set<Identity> {
    (set k | k in i.classicKeys && !Ambiguous(k)) + DirectOfRulesets(i.rulesets)
  }

  /** The memberships that have to be resolved. */
  function Expected(i: BypassInputs): set<Ref> {
    (set k | k in i.classicKeys && Ambiguous(k) :: ClassicRef(k))
    + (set r, k | r in i.rulesets && k in r.keys && Ambiguous(k.identity) :: RulesetRef(r.id, k.identity, k.mode))
  }

  datatype Entry = Entry(ref: Ref, name: string)

  function RulesetEntries(r: Ruleset): seq<Entry> {
    seq(|r.metadata|, k requires 0 <= k < |r.metadata| =>
          Entry(RulesetRef(r.id, r.metadata[k].key.identity, r.metadata[k].key.mode), r.metadata[k].name))
  }

  function AllRulesetEntries(rulesets: seq<Ruleset>): seq<Entry> {
    if |rulesets| == 0 then [] else AllRulesetEntries(rulesets[..|rulesets| - 1]) + RulesetEntries(rulesets[|rulesets| - 1])
  }

  /** The names in the metadata, in order. */
  function Entries(i: BypassInputs): seq<Entry> {
    seq(|i.classicMetadata|, k requires 0 <= k < |i.classicMetadata| => Entry(ClassicRef(i.classicMetadata[k].identity), i.classicMetadata[k].name))
    + AllRulesetEntries(i.rulesets)
  }

  /** The names given for one reference. */
  function NamesIn(entries: seq<Entry>, ref: Ref): seq<string> {
    if |entries| == 0 then []
    else NamesIn(entries[..|entries| - 1], ref) + (if entries[|entries| - 1].ref == ref then [entries[|entries| - 1].name] else [])
  }

  function NamesOf(i: BypassInputs, ref: Ref): seq<string> { if ref in Expected(i) then NamesIn(Entries(i), ref) else [] }

  /** `bypass_membership_assessment`. */
  function Assess(m: Membership): Assessment {
    match m.ref.identity.kind
    case Team =>
      if m.state == "active" && m.role in {Some("member"), Some("maintainer")} then Match
      else if m.state == "absent" && m.role == None then NoMatch else NotKnown
    case OrganizationAdmin =>
      if m.state == "active" && m.role == Some("admin") then Match
      else if (m.state == "active" && m.role == Some("member")) || (m.state == "absent" && m.role == None) then NoMatch else NotKnown
    case RepositoryRole =>
      if m.permission == "none" && m.role == None then NoMatch
      else if m.permission != "none" && m.role.Some? then (if m.role.value == m.name then Match else NotKnown)
      else NotKnown
    case Direct(_) => NotKnown
  }

  /** `bypass_membership_status`. */
  function StatusOf(m: Membership): int {
    if m.ref.identity.kind in {Team, OrganizationAdmin} && m.state == "absent" then 404 else 200
  }

  predicate Audited(i: BypassInputs, m: Membership) {
    && m.requestId in i.audits
    && var audit := i.audits[m.requestId]; audit.target == m.endpoint && audit.status == StatusOf(m) && audit.qualified
  }

  /** The membership is about the merge actor and one expected reference, named as in the metadata, with an audit of its own. */
  predicate Resolves(i: BypassInputs, m: Membership) {
    && m.subjectId == i.actor.id && m.subjectLogin == i.actor.login
    && (m.ref.identity.kind in {Team, OrganizationAdmin} ==> m.organization == i.owner)
    && m.ref in Expected(i)
    && |NamesOf(i, m.ref)| == 1
    && (m.ref.identity.kind in {Team, RepositoryRole} ==> m.name == NamesOf(i, m.ref)[0])
    && Audited(i, m)
  }

  datatype Scan = Scan(seen: set<Ref>, requests: set<string>, assessments: set<Assessment>, blocks: set<Block>)

  predicate Accepted(i: BypassInputs, s: Scan, m: Membership) {
    Resolves(i, m) && m.ref !in s.seen && m.requestId !in s.requests
  }

  function ScanStep(i: BypassInputs, s: Scan, m: Membership, index: int): Scan {
    Scan(s.seen + {m.ref}, s.requests + {m.requestId}, s.assessments + {Assess(m)},
         s.blocks + When(!Accepted(i, s, m), BypassVisibilityUnknown, Item("bypass_memberships", index),
                         "membership resolution identity or coverage differs"))
  }

  /** The loop over the first `n` memberships. */
  function ScanTo(i: BypassInputs, n: nat): Scan
    requires n <= |i.memberships|
  {
    if n == 0 then Scan({}, {}, {}, {}) else ScanStep(i, ScanTo(i, n - 1), i.memberships[n - 1], n - 1)
  }

  function CoverageBlocks(i: BypassInputs, s: Scan): set<Block> {
    When(s.seen != Expected(i), BypassVisibilityUnknown, Part("bypass_memberships"), "membership resolution coverage is incomplete")
    + When(s.requests != i.audits.Keys, BypassVisibilityUnknown, Part("observation.requests"), "membership request audits do not have exact resolution coverage")
    + When(NotKnown in s.assessments, BypassVisibilityUnknown, Part("bypass_memberships"), "membership state is not authoritative")
  }

  /** `match` needs only one way to bypass; any doubt about a membership is doubt about all. */
  function Derived(i: BypassInputs, s: Scan): Assessment {
    if s.blocks + CoverageBlocks(i, s) != {} then NotKnown
    else if Match in s.assessments || i.actor.selves * DirectActors(i) != {} then Match else NoMatch
  }

  function ActorBlocks(i: BypassInputs, s: Scan): set<Block> {
    var bypasses := Match in s.assessments || i.actor.selves * DirectActors(i) != {} || i.actor.administers;
    When(i.actor.claimed != Derived(i, s), BypassVisibilityUnknown, Part("actor.bypass_assessment"), "actor bypass assessment differs from typed evidence")
    + When(bypasses, MergeActorCanBypass, Part("actor"), "merge actor may bypass policy")
    + When(!bypasses && Derived(i, s) != NoMatch, BypassVisibilityUnknown, Part("actor"), "actor bypass assessment is unknown")
    + When(i.actor.suspended, ActorIdentityUnknown, Part("actor"), "merge actor is suspended")
  }

  function BypassBlocks(i: BypassInputs): set<Block> {
    var s := ScanTo(i, |i.memberships|);
    When(!SourcesAgree(i), RulesetDrift, Part("source_rulesets"), "source and aggregate ruleset ids differ")
    + AllRulesetBlocks(i.rulesets, i.completedAt)
    + When(!ClassicMetadataFits(i), BypassVisibilityUnknown, Part("classic_protection.bypass_actor_metadata"), "classic bypass metadata differs from actor keys")
    + s.blocks + CoverageBlocks(i, s) + ActorBlocks(i, s)
  }

  // ---------------------------------------------------------------- the loops

  method AddUpdate(r: Ruleset, completedAt: int, blocks: Blocks)
    requires blocks.Valid()
    modifies blocks
    ensures blocks.Valid() && blocks.seen == old(blocks.seen) + UpdateBlocks(r, completedAt)
  {
    if r.updatedAt.None? {
      blocks.Add(RulesetDrift, SourceSurface(r), "ruleset update time is invalid");
    } else {
      blocks.AddWhen(r.updatedAt.value > completedAt, RulesetDrift, SourceSurface(r), "ruleset update postdates observation");
    }
  }

  method AddRuleset(r: Ruleset, completedAt: int, blocks: Blocks)
    requires blocks.Valid()
    modifies blocks
    ensures blocks.Valid() && blocks.seen == old(blocks.seen) + RulesetBlocks(r, completedAt)
  {
    hide When, MetadataFits, UpdateBlocks, SourceSurface;
    blocks.AddWhen(!r.signature, RulesetDrift, SourceSurface(r), "source and aggregate rule parameters differ");
    blocks.AddWhen(!r.bypassComplete, BypassVisibilityUnknown, SourceSurface(r), "ruleset bypass visibility is incomplete");
    AddUpdate(r, completedAt, blocks);
    blocks.AddWhen(!MetadataFits(r), BypassVisibilityUnknown, Item("source_rulesets.bypass_actor_metadata", r.id),
                   "ruleset bypass metadata differs from actor keys");
  }

  method AddRulesets(rulesets: seq<Ruleset>, completedAt: int, blocks: Blocks)
    requires blocks.Valid()
    modifies blocks
    ensures blocks.Valid() && blocks.seen == old(blocks.seen) + AllRulesetBlocks(rulesets, completedAt)
  {
    hide RulesetBlocks;
    for k := 0 to |rulesets|
      invariant blocks.Valid() && blocks.seen == old(blocks.seen) + AllRulesetBlocks(rulesets[..k], completedAt)
    {
      assert rulesets[..k + 1][..k] == rulesets[..k];
      AddRuleset(rulesets[k], completedAt, blocks);
    }
    assert rulesets[..|rulesets|] == rulesets;
  }

  /** The dictionary from each expected reference to the names its metadata gives. */
  method GatherNames(i: BypassInputs) returns (names: map<Ref, seq<string>>)
    ensures forall ref :: NamesOf(i, ref) == if ref in names then names[ref] else []
  {
    names := map[];
    var entries, expected := Entries(i), Expected(i);
    hide Entries, Expected;
    for k := 0 to |entries|
      invariant forall ref :: (if ref in names then names[ref] else []) == if ref in expected then NamesIn(entries[..k], ref) else []
    {
      assert entries[..k + 1][..k] == entries[..k];
      var e := entries[k];
      if e.ref in expected { names := names[e.ref := (if e.ref in names then names[e.ref] else []) + [e.name]]; }
    }
    assert entries[..|entries|] == entries;
  }

  /** One membership of the loop. */
  method AddMembership(i: BypassInputs, names: map<Ref, seq<string>>, m: Membership, index: int, seen: set<Ref>, requests: set<string>, blocks: Blocks)
    returns (refused: bool)
    requires blocks.Valid() && forall ref :: NamesOf(i, ref) == if ref in names then names[ref] else []
    modifies blocks
    ensures blocks.Valid() && refused == !(Resolves(i, m) && m.ref !in seen && m.requestId !in requests)
    ensures blocks.seen == old(blocks.seen) + When(refused, BypassVisibilityUnknown, Item("bypass_memberships", index),
                                                   "membership resolution identity or coverage differs")
  {
    hide Expected, NamesOf, When, Entries, Audited;
    var given := if m.ref in names then names[m.ref] else [];
    assert given == NamesOf(i, m.ref);
    refused :=
      || m.subjectId != i.actor.id || m.subjectLogin != i.actor.login
      || (m.ref.identity.kind in {Team, OrganizationAdmin} && m.organization != i.owner)
      || m.ref !in Expected(i) || m.ref in seen || |given| != 1
      || (m.ref.identity.kind == Team && m.name != given[0]) || (m.ref.identity.kind == RepositoryRole && m.name != given[0])
      || m.requestId in requests || !Audited(i, m);
    blocks.AddWhen(refused, BypassVisibilityUnknown, Item("bypass_memberships", index), "membership resolution identity or coverage differs");
  }

  method ScanMemberships(i: BypassInputs, names: map<Ref, seq<string>>, blocks: Blocks)
    returns (seen: set<Ref>, requests: set<string>, assessments: set<Assessment>, unknown: bool)
    requires blocks.Valid() && forall ref :: NamesOf(i, ref) == if ref in names then names[ref] else []
    modifies blocks
    ensures var s := ScanTo(i, |i.memberships|);
            && blocks.Valid() && blocks.seen == old(blocks.seen) + s.blocks
            && seen == s.seen && requests == s.requests && assessments == s.assessments && unknown == (s.blocks != {})
  {
    hide Resolves, Assess, When, NamesOf;
    seen, requests, assessments, unknown := {}, {}, {}, false;
    for n := 0 to |i.memberships|
      invariant blocks.Valid() && blocks.seen == old(blocks.seen) + ScanTo(i, n).blocks
      invariant seen == ScanTo(i, n).seen && requests == ScanTo(i, n).requests && assessments == ScanTo(i, n).assessments
      invariant unknown == (ScanTo(i, n).blocks != {})
    {
      var m := i.memberships[n];
      var refused := AddMembership(i, names, m, n, seen, requests, blocks);
      unknown := unknown || refused;
      seen, requests, assessments := seen + {m.ref}, requests + {m.requestId}, assessments + {Assess(m)};
    }
  }

  method AddCoverage(i: BypassInputs, ghost s: Scan, seen: set<Ref>, requests: set<string>, assessments: set<Assessment>, blocks: Blocks)
    requires blocks.Valid() && seen == s.seen && requests == s.requests && assessments == s.assessments
    modifies blocks
    ensures blocks.Valid() && blocks.seen == old(blocks.seen) + CoverageBlocks(i, s)
  {
    hide When, Expected;
    blocks.AddWhen(seen != Expected(i), BypassVisibilityUnknown, Part("bypass_memberships"), "membership resolution coverage is incomplete");
    blocks.AddWhen(requests != i.audits.Keys, BypassVisibilityUnknown, Part("observation.requests"),
                   "membership request audits do not have exact resolution coverage");
    blocks.AddWhen(NotKnown in assessments, BypassVisibilityUnknown, Part("bypass_memberships"), "membership state is not authoritative");
  }

  method AddActor(i: BypassInputs, ghost s: Scan, derived: Assessment, matched: bool, blocks: Blocks)
    requires blocks.Valid() && derived == Derived(i, s) && matched == (Match in s.assessments || i.actor.selves * DirectActors(i) != {})
    modifies blocks
    ensures blocks.Valid() && blocks.seen == old(blocks.seen) + ActorBlocks(i, s)
  {
    hide When, Derived, DirectActors;
    blocks.AddWhen(i.actor.claimed != derived, BypassVisibilityUnknown, Part("actor.bypass_assessment"), "actor bypass assessment differs from typed evidence");
    blocks.AddWhen(matched || i.actor.administers, MergeActorCanBypass, Part("actor"), "merge actor may bypass policy");
    blocks.AddWhen(!(matched || i.actor.administers) && derived != NoMatch, BypassVisibilityUnknown, Part("actor"), "actor bypass assessment is unknown");
    blocks.AddWhen(i.actor.suspended, ActorIdentityUnknown, Part("actor"), "merge actor is suspended");
  }

  /** Coverage, and what the merge actor may do. */
  method ConcludeBypass(i: BypassInputs, ghost s: Scan, seen: set<Ref>, requests: set<string>, assessments: set<Assessment>, refused: bool, blocks: Blocks)
    requires blocks.Valid() && seen == s.seen && requests == s.requests && assessments == s.assessments && refused == (s.blocks != {})
    modifies blocks
    ensures blocks.Valid() && blocks.seen == old(blocks.seen) + CoverageBlocks(i, s) + ActorBlocks(i, s)
  {
    hide Expected, DirectActors, CoverageBlocks, ActorBlocks;
    AddCoverage(i, s, seen, requests, assessments, blocks);
    var unknown := refused || seen != Expected(i) || requests != i.audits.Keys || NotKnown in assessments;
    var matched := Match in assessments || i.actor.selves * DirectActors(i) != {};
    DerivedIs(i, s, unknown);
    AddActor(i, s, if unknown then NotKnown else if matched then Match else NoMatch, matched, blocks);
  }

  lemma DerivedIs(i: BypassInputs, s: Scan, unknown: bool)
    requires unknown == (s.blocks != {} || s.seen != Expected(i) || s.requests != i.audits.Keys || NotKnown in s.assessments)
    ensures unknown <==> s.blocks + CoverageBlocks(i, s) != {}
  {
    hide Expected;
    var c := CoverageBlocks(i, s);
    assert c == {} <==> s.seen == Expected(i) && s.requests == i.audits.Keys && NotKnown !in s.assessments;
  }

  /** The sources, bypass actors and memberships of `_rules`. */
  method EvaluateBypass(i: BypassInputs, blocks: Blocks)
    requires blocks.Valid()
    modifies blocks
    ensures blocks.Valid() && blocks.seen == old(blocks.seen) + BypassBlocks(i)
  {
    hide When, SourcesAgree, AllRulesetBlocks, ClassicMetadataFits, NamesOf, ScanTo, BypassBlocks, CoverageBlocks, ActorBlocks;
    blocks.AddWhen(!SourcesAgree(i), RulesetDrift, Part("source_rulesets"), "source and aggregate ruleset ids differ");
    AddRulesets(i.rulesets, i.completedAt, blocks);
    blocks.AddWhen(!ClassicMetadataFits(i), BypassVisibilityUnknown, Part("classic_protection.bypass_actor_metadata"),
                   "classic bypass metadata differs from actor keys");
    var names := GatherNames(i);
    var seen, requests, assessments, unknown := ScanMemberships(i, names, blocks);
    ConcludeBypass(i, ScanTo(i, |i.memberships|), seen, requests, assessments, unknown, blocks);
    BypassBlocksAdd(i, old(blocks.seen));
  }

  lemma BypassBlocksAdd(i: BypassInputs, start: set<Block>)
    ensures var s := ScanTo(i, |i.memberships|);
            start + BypassBlocks(i)
            == start
               + When(!SourcesAgree(i), RulesetDrift, Part("source_rulesets"), "source and aggregate ruleset ids differ")
               + AllRulesetBlocks(i.rulesets, i.completedAt)
               + When(!ClassicMetadataFits(i), BypassVisibilityUnknown, Part("classic_protection.bypass_actor_metadata"), "classic bypass metadata differs from actor keys")
               + s.blocks + CoverageBlocks(i, s) + ActorBlocks(i, s)
  {
    hide When, SourcesAgree, AllRulesetBlocks, ClassicMetadataFits, ScanTo, CoverageBlocks, ActorBlocks;
  }

  // ---------------------------------------------------------------- what no block means

  /** What a scan of the first `n` memberships has seen. */
  ghost predicate ScanSaw(i: BypassInputs, n: nat, s: Scan)
    requires n <= |i.memberships|
  {
    && (forall ref :: ref in s.seen <==> exists k :: 0 <= k < n && i.memberships[k].ref == ref)
    && (forall k :: 0 <= k < n ==> i.memberships[k].requestId in s.requests && Assess(i.memberships[k]) in s.assessments)
  }

  lemma SawOneMore(i: BypassInputs, n: nat, s: Scan)
    requires n < |i.memberships| && ScanSaw(i, n, s)
    ensures ScanSaw(i, n + 1, ScanStep(i, s, i.memberships[n], n))
  {
    hide Accepted, Assess, When;
    var t := ScanStep(i, s, i.memberships[n], n);
    forall ref | ref in t.seen ensures exists k :: 0 <= k < n + 1 && i.memberships[k].ref == ref {
      if ref in s.seen {
        var k :| 0 <= k < n && i.memberships[k].ref == ref;
      } else {
        assert i.memberships[n].ref == ref;
      }
    }
  }

  lemma {:induction false} ScanSees(i: BypassInputs, n: nat)
    requires n <= |i.memberships|
    ensures ScanSaw(i, n, ScanTo(i, n))
  {
    hide ScanStep;
    if n > 0 {
      ScanSees(i, n - 1);
      SawOneMore(i, n - 1, ScanTo(i, n - 1));
    }
  }

  /** Without a refused membership, those scanned are resolved, with different references and different requests. */
  ghost predicate ScanClean(i: BypassInputs, n: nat)
    requires n <= |i.memberships|
  {
    && (forall k :: 0 <= k < n ==> Resolves(i, i.memberships[k]))
    && (forall j, k :: 0 <= j < k < n ==> i.memberships[j].ref != i.memberships[k].ref && i.memberships[j].requestId != i.memberships[k].requestId)
  }

  lemma LastAccepted(i: BypassInputs, n: nat)
    requires 0 < n <= |i.memberships| && ScanTo(i, n).blocks == {}
    ensures ScanTo(i, n - 1).blocks == {} && Accepted(i, ScanTo(i, n - 1), i.memberships[n - 1])
  {
    hide Accepted;
  }

  lemma CleanStep(i: BypassInputs, n: nat, s: Scan)
    requires n < |i.memberships| && ScanClean(i, n) && ScanSaw(i, n, s) && Accepted(i, s, i.memberships[n])
    ensures ScanClean(i, n + 1)
  {
    hide Resolves, Assess;
  }

  lemma {:induction false} CleanScan(i: BypassInputs, n: nat)
    requires n <= |i.memberships| && ScanTo(i, n).blocks == {}
    ensures ScanClean(i, n)
  {
    hide Resolves, Accepted, ScanSaw, ScanStep;
    if n > 0 {
      LastAccepted(i, n);
      CleanScan(i, n - 1);
      ScanSees(i, n - 1);
      CleanStep(i, n - 1, ScanTo(i, n - 1));
    }
  }

  /** The one membership that resolves a reference, and says that the merge actor is not among its members. */
  ghost predicate ResolvedAway(i: BypassInputs, ref: Ref) {
    exists m :: m in i.memberships && m.ref == ref && Resolves(i, m) && Assess(m) == NoMatch
                && forall other :: other in i.memberships && other.ref == ref ==> other == m
  }

  /** No way to bypass is open to the merge actor, and none is in doubt. */
  ghost predicate CannotBypass(i: BypassInputs) {
    && (forall d :: d in DirectActors(i) ==> d !in i.actor.selves)
    && (forall ref :: ref in Expected(i) ==> ResolvedAway(i, ref))
    && (forall m :: m in i.memberships ==> m.ref in Expected(i))
    && i.actor.claimed == NoMatch && !i.actor.administers && !i.actor.suspended
  }

  lemma ClearParts(i: BypassInputs)
    requires BypassBlocks(i) == {}
    ensures var s := ScanTo(i, |i.memberships|);
            && SourcesAgree(i) && ClassicMetadataFits(i) && AllRulesetBlocks(i.rulesets, i.completedAt) == {}
            && s.blocks == {} && CoverageBlocks(i, s) == {} && ActorBlocks(i, s) == {}
  {
    hide SourcesAgree, ClassicMetadataFits, AllRulesetBlocks, ScanTo, CoverageBlocks, ActorBlocks;
  }

  lemma ClearActor(i: BypassInputs, s: Scan)
    requires s.blocks == {} && CoverageBlocks(i, s) == {} && ActorBlocks(i, s) == {}
    ensures s.seen == Expected(i) && s.requests == i.audits.Keys && NotKnown !in s.assessments && Match !in s.assessments
    ensures i.actor.selves * DirectActors(i) == {} && i.actor.claimed == NoMatch && !i.actor.administers && !i.actor.suspended
  {
    hide Expected, DirectActors;
  }

  /**
    If nothing blocks, the merge actor cannot bypass the rules: it is none of the actors named directly, it
    is authoritatively no member of any team, role or administration that may bypass, each resolved exactly
    once, and the evidence's own assessment says the same.
  */
  lemma NoBypassBlockMeans(i: BypassInputs)
    requires BypassBlocks(i) == {}
    ensures SourcesAgree(i) && CannotBypass(i)
  {
    hide BypassBlocks, SourcesAgree, Resolves, Expected, DirectActors, Assess, ScanTo, CoverageBlocks, ActorBlocks, ScanClean, ScanSaw, ResolvedAway;
    ClearParts(i);
    var n := |i.memberships|;
    CleanScan(i, n);
    ScanSees(i, n);
    ClearActor(i, ScanTo(i, n));
    forall ref | ref in Expected(i) ensures ResolvedAway(i, ref) { SeenIsResolvedAway(i, ref); }
    forall m | m in i.memberships ensures m.ref in Expected(i) { SeenIsExpected(i, m); }
    assert forall d :: d in DirectActors(i) && d in i.actor.selves ==> d in i.actor.selves * DirectActors(i);
  }

  lemma SeenIsExpected(i: BypassInputs, m: Membership)
    requires ScanSaw(i, |i.memberships|, ScanTo(i, |i.memberships|)) && ScanTo(i, |i.memberships|).seen == Expected(i) && m in i.memberships
    ensures m.ref in Expected(i)
  {
    var k :| 0 <= k < |i.memberships| && i.memberships[k] == m;
    hide Expected, ScanTo;
  }

  lemma ThreeAssessments(a: Assessment)
    ensures a == Match || a == NoMatch || a == NotKnown
  {}

  lemma SeenIsResolvedAway(i: BypassInputs, ref: Ref)
    requires var s := ScanTo(i, |i.memberships|);
             s.seen == Expected(i) && NotKnown !in s.assessments && Match !in s.assessments
    requires ScanClean(i, |i.memberships|) && ScanSaw(i, |i.memberships|, ScanTo(i, |i.memberships|)) && ref in Expected(i)
    ensures ResolvedAway(i, ref)
  {
    hide Expected, Resolves, Assess, ScanTo;
    var n := |i.memberships|;
    var k :| 0 <= k < n && i.memberships[k].ref == ref;
    var m := i.memberships[k];
    assert Assess(m) in ScanTo(i, n).assessments;
    ThreeAssessments(Assess(m));
    forall other | other in i.memberships && other.ref == ref ensures other == m {
      var j :| 0 <= j < n && i.memberships[j] == other;
    }
    assert m in i.memberships && Resolves(i, m);
  }
}
