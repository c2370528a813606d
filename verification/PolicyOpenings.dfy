/** Exactly when the bypass evidence adds no block, said of the evidence alone. */
module PolicyOpenings {
  import opened Wrappers
  import opened PolicyTypes
  import opened PolicyBypass

  // ---------------------------------------------------------------- the evidence

  ghost predicate SoundRuleset(r: Ruleset, completedAt: int) {
    && r.signature && r.bypassComplete && r.updatedAt.Some? && r.updatedAt.value <= completedAt
    && (forall j, k :: 0 <= j < k < |r.metadata| ==> r.metadata[j].key != r.metadata[k].key)
    && (forall k :: 0 <= k < |r.metadata| ==> r.metadata[k].key in r.keys)
  }

  ghost predicate RuledBy(i: BypassInputs, id: int) { exists k :: k in i.ruleKeys && k.ruleset == id }

  ghost predicate RulesetGiven(i: BypassInputs, id: int) { exists r :: r in i.rulesets && r.id == id }

  /** The rulesets are those the active rules come from, and no rule, ruleset or classic name is given twice. */
  ghost predicate SoundSources(i: BypassInputs) {
    && (forall r :: r in i.rulesets ==> SoundRuleset(r, i.completedAt)) && (forall id :: RulesetGiven(i, id) <==> RuledBy(i, id))
    && (forall j, k :: 0 <= j < k < |i.rulesets| ==> i.rulesets[j].id != i.rulesets[k].id)
    && (forall j, k :: 0 <= j < k < |i.ruleKeys| ==> i.ruleKeys[j] != i.ruleKeys[k])
    && (forall j, k :: 0 <= j < k < |i.classicMetadata| ==> i.classicMetadata[j].identity != i.classicMetadata[k].identity)
    && (forall k :: 0 <= k < |i.classicMetadata| ==> i.classicMetadata[k].identity in i.classicKeys)
  }

  /** A bypass actor that is an integration or a user, and so needs no membership. */
  ghost predicate NamedDirectly(i: BypassInputs, d: Identity) {
    d.kind.Direct? && (d in i.classicKeys || exists r, k :: r in i.rulesets && k in r.keys && k.identity == d)
  }

  /** A team, role or administration that may bypass classic protection or a ruleset. */
  ghost predicate MayBypass(i: BypassInputs, ref: Ref) {
    match ref
    case ClassicRef(identity) => identity in i.classicKeys && !identity.kind.Direct?
    case RulesetRef(id, identity, mode) => !identity.kind.Direct? && exists r :: r in i.rulesets && r.id == id && RulesetKey(identity, mode) in r.keys
  }

  ghost predicate Called(i: BypassInputs, ref: Ref, name: string) {
    match ref
    case ClassicRef(identity) => ClassicName(identity, name) in i.classicMetadata
    case RulesetRef(id, identity, mode) => exists r :: r in i.rulesets && r.id == id && RulesetName(RulesetKey(identity, mode), name) in r.metadata
  }

  /** The membership says that the merge actor does not belong. */
  ghost predicate Outside(m: Membership) {
    || (m.ref.identity.kind == Team && m.state == "absent" && m.role == None)
    || (m.ref.identity.kind == OrganizationAdmin && m.state == "absent" && m.role == None)
    || (m.ref.identity.kind == OrganizationAdmin && m.state == "active" && m.role == Some("member"))
    || (m.ref.identity.kind == RepositoryRole && m.permission == "none" && m.role == None)
  }

  /** It is about the merge actor and something that may bypass, under its name, and was read by an audited request of its own. */
  ghost predicate About(i: BypassInputs, m: Membership) {
    && m.subjectId == i.actor.id && m.subjectLogin == i.actor.login
    && (m.ref.identity.kind == Team || m.ref.identity.kind == OrganizationAdmin ==> m.organization == i.owner)
    && MayBypass(i, m.ref)
    && (exists name :: Called(i, m.ref, name) && (m.ref.identity.kind == Team || m.ref.identity.kind == RepositoryRole ==> m.name == name))
    && m.requestId in i.audits && i.audits[m.requestId].target == m.endpoint && i.audits[m.requestId].qualified
    && i.audits[m.requestId].status == (if m.state == "absent" && (m.ref.identity.kind == Team || m.ref.identity.kind == OrganizationAdmin) then 404 else 200)
  }

  /** One of the first `n` memberships is about `ref`. */
  ghost predicate Met(i: BypassInputs, n: nat, ref: Ref)
    requires n <= |i.memberships|
  {
    exists k :: 0 <= k < n && i.memberships[k].ref == ref
  }

  /** One of the first `n` memberships was read by the request `id`. */
  ghost predicate Requested(i: BypassInputs, n: nat, id: string)
    requires n <= |i.memberships|
  {
    exists k :: 0 <= k < n && i.memberships[k].requestId == id
  }

  /** Everything that may bypass is resolved once, each request is accounted for, and the merge actor belongs to none of it. */
  ghost predicate AllOutside(i: BypassInputs) {
    && (forall k :: 0 <= k < |i.memberships| ==> About(i, i.memberships[k]) && Outside(i.memberships[k]))
    && (forall j, k :: 0 <= j < k < |i.memberships| ==> i.memberships[j].ref != i.memberships[k].ref && i.memberships[j].requestId != i.memberships[k].requestId)
    && (forall ref :: MayBypass(i, ref) ==> Met(i, |i.memberships|, ref))
    && (forall id :: id in i.audits ==> Requested(i, |i.memberships|, id))
  }

  ghost predicate NothingOpen(i: BypassInputs) {
    && SoundSources(i) && AllOutside(i)
    && (forall d :: NamedDirectly(i, d) ==> d !in i.actor.selves)
    && i.actor.claimed == NoMatch && !i.actor.administers && !i.actor.suspended
  }

  // ---------------------------------------------------------------- sources

  lemma RulesetClear(r: Ruleset, completedAt: int)
    ensures RulesetBlocks(r, completedAt) == {} <==> SoundRuleset(r, completedAt)
  {
    MetadataClear(r);
    hide MetadataFits;
  }

  lemma MetadataClear(r: Ruleset)
    ensures MetadataFits(r) <==>
              && (forall j, k :: 0 <= j < k < |r.metadata| ==> r.metadata[j].key != r.metadata[k].key)
              && (forall k :: 0 <= k < |r.metadata| ==> r.metadata[k].key in r.keys)
  {
    var keys := seq(|r.metadata|, k requires 0 <= k < |r.metadata| => r.metadata[k].key);
    assert forall k :: 0 <= k < |keys| ==> keys[k] == r.metadata[k].key;
    forall k | 0 <= k < |r.metadata| ensures r.metadata[k] in r.metadata {}
  }

  lemma ClassicNamesClear(i: BypassInputs)
    ensures ClassicMetadataFits(i) <==>
              && (forall j, k :: 0 <= j < k < |i.classicMetadata| ==> i.classicMetadata[j].identity != i.classicMetadata[k].identity)
              && (forall k :: 0 <= k < |i.classicMetadata| ==> i.classicMetadata[k].identity in i.classicKeys)
  {
    var keys := seq(|i.classicMetadata|, k requires 0 <= k < |i.classicMetadata| => i.classicMetadata[k].identity);
    assert forall k :: 0 <= k < |keys| ==> keys[k] == i.classicMetadata[k].identity;
    forall k | 0 <= k < |i.classicMetadata| ensures i.classicMetadata[k] in i.classicMetadata {}
  }

  lemma {:induction false} RulesetsClear(rulesets: seq<Ruleset>, completedAt: int)
    ensures AllRulesetBlocks(rulesets, completedAt) == {} <==> forall r :: r in rulesets ==> SoundRuleset(r, completedAt)
    decreases |rulesets|
  {
    if |rulesets| > 0 {
      var n := |rulesets| - 1;
      RulesetsClear(rulesets[..n], completedAt);
      RulesetClear(rulesets[n], completedAt);
      assert rulesets == rulesets[..n] + [rulesets[n]];
      hide RulesetBlocks, SoundRuleset;
    }
  }

  lemma IdsClear(i: BypassInputs)
    ensures SourcesAgree(i) <==>
              && (forall id :: RulesetGiven(i, id) <==> RuledBy(i, id))
              && (forall j, k :: 0 <= j < k < |i.rulesets| ==> i.rulesets[j].id != i.rulesets[k].id)
              && (forall j, k :: 0 <= j < k < |i.ruleKeys| ==> i.ruleKeys[j] != i.ruleKeys[k])
  {
    var ids, ruled := set x | x in RulesetIds(i), set k | k in i.ruleKeys :: k.ruleset;
    assert forall k :: 0 <= k < |i.rulesets| ==> RulesetIds(i)[k] == i.rulesets[k].id;
    forall x ensures x in ids <==> RulesetGiven(i, x) { GivenIds(i, x); }
    assert forall x :: x in ruled <==> RuledBy(i, x);
    hide RulesetGiven, RuledBy;
    assert ids == ruled <==> forall x :: x in ids <==> x in ruled;
  }

  lemma GivenIds(i: BypassInputs, x: int)
    ensures x in RulesetIds(i) <==> RulesetGiven(i, x)
  {
    if x in RulesetIds(i) {
      var k :| 0 <= k < |i.rulesets| && RulesetIds(i)[k] == x;
      assert i.rulesets[k] in i.rulesets;
    }
    if r :| r in i.rulesets && r.id == x {
      var k :| 0 <= k < |i.rulesets| && i.rulesets[k] == r;
      assert RulesetIds(i)[k] == x;
    }
  }

  // ---------------------------------------------------------------- references and names

  lemma DirectAre(i: BypassInputs)
    ensures forall d :: d in DirectActors(i) <==> NamedDirectly(i, d)
  {}

  lemma ExpectedAre(i: BypassInputs)
    ensures forall ref :: ref in Expected(i) <==> MayBypass(i, ref)
  {}

  ghost predicate DistinctRefs(entries: seq<Entry>) { forall j, k :: 0 <= j < k < |entries| ==> entries[j].ref != entries[k].ref }

  lemma NamesGrow(entries: seq<Entry>, ref: Ref)
    requires |entries| > 0
    ensures var n := |entries| - 1;
            NamesIn(entries, ref) == if entries[n].ref == ref then NamesIn(entries[..n], ref) + [entries[n].name] else NamesIn(entries[..n], ref)
  {
    var n := |entries| - 1;
    assert NamesIn(entries[..n], ref) + [] == NamesIn(entries[..n], ref);
  }

  /** Some entry is of the reference. */
  ghost predicate Listed(entries: seq<Entry>, ref: Ref) { exists k :: 0 <= k < |entries| && entries[k].ref == ref }

  lemma {:induction false} NamesAre(entries: seq<Entry>, ref: Ref)
    requires DistinctRefs(entries)
    ensures |NamesIn(entries, ref)| <= 1 && (forall name :: NamesIn(entries, ref) == [name] <==> Entry(ref, name) in entries)
    ensures NamesIn(entries, ref) == [] <==> !Listed(entries, ref)
    decreases |entries|
  {
    if |entries| > 0 {
      var n := |entries| - 1;
      var earlier, last := entries[..n], entries[n];
      ListedGrows(entries, ref);
      NamesAre(earlier, ref);
      NamesGrow(entries, ref);
      hide NamesIn, Listed, DistinctRefs;
      assert entries == earlier + [last];
      if last.ref == ref { OneName(NamesIn(entries, ref), earlier, last); }
    }
  }

  lemma ListedGrows(entries: seq<Entry>, ref: Ref)
    requires |entries| > 0 && DistinctRefs(entries)
    ensures Listed(entries, ref) <==> Listed(entries[..|entries| - 1], ref) || entries[|entries| - 1].ref == ref
    ensures entries[|entries| - 1].ref == ref ==> !Listed(entries[..|entries| - 1], ref)
    ensures DistinctRefs(entries[..|entries| - 1])
  {
    var n := |entries| - 1;
    assert forall k :: 0 <= k < n ==> entries[..n][k] == entries[k];
    if entries[n].ref == ref { assert forall k :: 0 <= k < n ==> entries[k].ref != entries[n].ref; }
  }

  lemma OneName(names: seq<string>, earlier: seq<Entry>, last: Entry)
    requires names == [last.name] && !Listed(earlier, last.ref)
    ensures forall name :: names == [name] <==> Entry(last.ref, name) in earlier + [last]
  {
    assert forall e :: e in earlier ==> e.ref != last.ref;
    forall name ensures names == [name] <==> last.name == name { assert [last.name][0] == last.name && [name][0] == name; }
  }

  lemma RulesetEntriesAre(r: Ruleset, completedAt: int)
    requires SoundRuleset(r, completedAt)
    ensures DistinctRefs(RulesetEntries(r)) && forall e :: e in RulesetEntries(r) ==> e.ref.RulesetRef? && e.ref.ruleset == r.id
    ensures forall e :: e in RulesetEntries(r) <==> e.ref.RulesetRef? && e.ref.ruleset == r.id && RulesetName(RulesetKey(e.ref.identity, e.ref.mode), e.name) in r.metadata
  {
    var entries := RulesetEntries(r);
    forall e: Entry | e.ref.RulesetRef? && e.ref.ruleset == r.id && RulesetName(RulesetKey(e.ref.identity, e.ref.mode), e.name) in r.metadata
      ensures e in entries
    {
      var k :| 0 <= k < |r.metadata| && r.metadata[k] == RulesetName(RulesetKey(e.ref.identity, e.ref.mode), e.name);
      assert entries[k] == e;
    }
  }

  lemma {:induction false} AllRulesetEntriesAre(rulesets: seq<Ruleset>, completedAt: int)
    requires forall r :: r in rulesets ==> SoundRuleset(r, completedAt)
    requires forall j, k :: 0 <= j < k < |rulesets| ==> rulesets[j].id != rulesets[k].id
    ensures DistinctRefs(AllRulesetEntries(rulesets))
    ensures forall e :: e in AllRulesetEntries(rulesets) <==> exists r :: r in rulesets && e in RulesetEntries(r)
    decreases |rulesets|
  {
    if |rulesets| > 0 {
      var n := |rulesets| - 1;
      var earlier, last := rulesets[..n], rulesets[n];
      assert rulesets == earlier + [last];
      assert forall k :: 0 <= k < n ==> earlier[k] == rulesets[k];
      AllRulesetEntriesAre(earlier, completedAt);
      RulesetEntriesAre(last, completedAt);
      forall e | e in AllRulesetEntries(earlier) ensures e.ref.RulesetRef? && e.ref.ruleset != last.id {
        var r :| r in earlier && e in RulesetEntries(r);
        RulesetEntriesAre(r, completedAt);
      }
      hide RulesetEntries, SoundRuleset;
      AppendRefs(AllRulesetEntries(earlier), RulesetEntries(last));
    }
  }

  lemma AppendRefs(a: seq<Entry>, b: seq<Entry>)
    requires DistinctRefs(a) && DistinctRefs(b) && forall d, e :: d in a && e in b ==> d.ref != e.ref
    ensures DistinctRefs(a + b)
  {
    forall j, k | 0 <= j < k < |a + b| ensures (a + b)[j].ref != (a + b)[k].ref {
      if j < |a| <= k { assert a[j] in a && b[k - |a|] in b; }
    }
  }

  /** With sound sources, a reference has one name exactly when the evidence calls it that. */
  lemma NamesExactly(i: BypassInputs, ref: Ref)
    requires SoundSources(i) && MayBypass(i, ref)
    ensures |NamesOf(i, ref)| <= 1 && forall name :: NamesOf(i, ref) == [name] <==> Called(i, ref, name)
    ensures |NamesOf(i, ref)| == 1 <==> exists name :: Called(i, ref, name)
  {
    ExpectedAre(i);
    EntriesAre(i);
    NamesAre(Entries(i), ref);
    hide Expected, Entries, MayBypass, SoundSources;
    if |NamesOf(i, ref)| == 1 { assert NamesOf(i, ref) == [NamesOf(i, ref)[0]]; }
  }

  lemma EntriesAre(i: BypassInputs)
    requires SoundSources(i)
    ensures DistinctRefs(Entries(i)) && forall ref, name :: Entry(ref, name) in Entries(i) <==> Called(i, ref, name)
  {
    var classic := seq(|i.classicMetadata|, k requires 0 <= k < |i.classicMetadata| => Entry(ClassicRef(i.classicMetadata[k].identity), i.classicMetadata[k].name));
    AllRulesetEntriesAre(i.rulesets, i.completedAt);
    forall r | r in i.rulesets
      ensures forall e :: e in RulesetEntries(r) <==> e.ref.RulesetRef? && e.ref.ruleset == r.id && RulesetName(RulesetKey(e.ref.identity, e.ref.mode), e.name) in r.metadata
    {
      RulesetEntriesAre(r, i.completedAt);
    }
    ClassicEntriesAre(i, classic);
    hide SoundRuleset, RulesetEntries;
    assert forall d, e :: d in classic && e in AllRulesetEntries(i.rulesets) ==> d.ref != e.ref;
    AppendRefs(classic, AllRulesetEntries(i.rulesets));
    hide AllRulesetEntries, DistinctRefs, SoundSources;
    forall ref, name ensures Entry(ref, name) in Entries(i) <==> Called(i, ref, name) {}
  }

  lemma ClassicEntriesAre(i: BypassInputs, classic: seq<Entry>)
    requires SoundSources(i)
    requires classic == seq(|i.classicMetadata|, k requires 0 <= k < |i.classicMetadata| => Entry(ClassicRef(i.classicMetadata[k].identity), i.classicMetadata[k].name))
    ensures DistinctRefs(classic) && forall e :: e in classic <==> e.ref.ClassicRef? && ClassicName(e.ref.identity, e.name) in i.classicMetadata
  {
    forall e: Entry | e.ref.ClassicRef? && ClassicName(e.ref.identity, e.name) in i.classicMetadata ensures e in classic {
      var k :| 0 <= k < |i.classicMetadata| && i.classicMetadata[k] == ClassicName(e.ref.identity, e.name);
      assert classic[k] == e;
    }
  }

  // ---------------------------------------------------------------- memberships

  lemma AssessExactly(m: Membership)
    ensures Assess(m) == NoMatch <==> Outside(m)
  {}

  lemma ResolvesExactly(i: BypassInputs, m: Membership)
    requires SoundSources(i)
    ensures Resolves(i, m) <==> About(i, m)
  {
    ExpectedAre(i);
    hide Expected, NamesOf, SoundSources, MayBypass, Called, Audited;
    if MayBypass(i, m.ref) { NamesExactly(i, m.ref); }
    AuditedExactly(i, m);
    if |NamesOf(i, m.ref)| == 1 { assert NamesOf(i, m.ref) == [NamesOf(i, m.ref)[0]]; }
  }

  lemma AuditedExactly(i: BypassInputs, m: Membership)
    ensures Audited(i, m) <==>
              && m.requestId in i.audits && i.audits[m.requestId].target == m.endpoint && i.audits[m.requestId].qualified
              && i.audits[m.requestId].status == (if m.state == "absent" && (m.ref.identity.kind == Team || m.ref.identity.kind == OrganizationAdmin) then 404 else 200)
  {}

  /** One of the first `n` memberships is assessed as `a`. */
  ghost predicate Judged(i: BypassInputs, n: nat, a: Assessment)
    requires n <= |i.memberships|
  {
    exists k :: 0 <= k < n && Assess(i.memberships[k]) == a
  }

  /** What a scan of the first `n` memberships has gathered. */
  ghost predicate Scanned(i: BypassInputs, n: nat, s: Scan)
    requires n <= |i.memberships|
  {
    && (forall ref :: ref in s.seen <==> Met(i, n, ref))
    && (forall id :: id in s.requests <==> Requested(i, n, id))
    && (forall a :: a in s.assessments <==> Judged(i, n, a))
    && (s.blocks == {} <==> ScanClean(i, n))
  }

  lemma OneMoreMet(i: BypassInputs, n: nat, ref: Ref, id: string, a: Assessment)
    requires n < |i.memberships|
    ensures Met(i, n + 1, ref) <==> Met(i, n, ref) || i.memberships[n].ref == ref
    ensures Requested(i, n + 1, id) <==> Requested(i, n, id) || i.memberships[n].requestId == id
    ensures Judged(i, n + 1, a) <==> Judged(i, n, a) || Assess(i.memberships[n]) == a
  {
    hide Assess;
  }

  lemma ScanGrows(i: BypassInputs, n: nat, s: Scan)
    requires n < |i.memberships| && Scanned(i, n, s)
    ensures var t := ScanStep(i, s, i.memberships[n], n);
            && (forall ref :: ref in t.seen <==> Met(i, n + 1, ref))
            && (forall id :: id in t.requests <==> Requested(i, n + 1, id))
            && (forall a :: a in t.assessments <==> Judged(i, n + 1, a))
  {
    hide Accepted, Assess, When, ScanClean, Met, Requested, Judged;
    forall ref, id, a
      ensures Met(i, n + 1, ref) <==> Met(i, n, ref) || i.memberships[n].ref == ref
      ensures Requested(i, n + 1, id) <==> Requested(i, n, id) || i.memberships[n].requestId == id
      ensures Judged(i, n + 1, a) <==> Judged(i, n, a) || Assess(i.memberships[n]) == a
    {
      OneMoreMet(i, n, ref, id, a);
    }
  }

  lemma CleanGrows(i: BypassInputs, n: nat, s: Scan)
    requires n < |i.memberships| && Scanned(i, n, s)
    ensures ScanStep(i, s, i.memberships[n], n).blocks == {} <==> ScanClean(i, n + 1)
  {
    hide Resolves, Assess;
  }

  lemma {:induction false} ScanIs(i: BypassInputs, n: nat)
    requires n <= |i.memberships|
    ensures Scanned(i, n, ScanTo(i, n))
  {
    hide ScanStep, Scanned;
    if n > 0 {
      ScanIs(i, n - 1);
      ScannedGrows(i, n - 1, ScanTo(i, n - 1));
    } else {
      NothingScanned(i);
    }
  }

  lemma NothingScanned(i: BypassInputs)
    ensures Scanned(i, 0, Scan({}, {}, {}, {}))
  {}

  lemma ScannedGrows(i: BypassInputs, n: nat, s: Scan)
    requires n < |i.memberships| && Scanned(i, n, s)
    ensures Scanned(i, n + 1, ScanStep(i, s, i.memberships[n], n))
  {
    hide ScanStep, ScanClean, Met, Requested, Judged;
    ScanGrows(i, n, s);
    CleanGrows(i, n, s);
  }

  // ---------------------------------------------------------------- altogether

  lemma PartsClear(i: BypassInputs)
    ensures var s := ScanTo(i, |i.memberships|);
            BypassBlocks(i) == {} <==>
              && SourcesAgree(i) && ClassicMetadataFits(i) && AllRulesetBlocks(i.rulesets, i.completedAt) == {}
              && s.blocks == {} && CoverageBlocks(i, s) == {} && ActorBlocks(i, s) == {}
  {
    hide SourcesAgree, ClassicMetadataFits, AllRulesetBlocks, ScanTo, CoverageBlocks, ActorBlocks;
  }

  lemma SourcesClear(i: BypassInputs)
    ensures SourcesAgree(i) && ClassicMetadataFits(i) && AllRulesetBlocks(i.rulesets, i.completedAt) == {} <==> SoundSources(i)
  {
    hide SourcesAgree, ClassicMetadataFits, AllRulesetBlocks, RulesetGiven, RuledBy, SoundRuleset;
    IdsClear(i);
    ClassicNamesClear(i);
    RulesetsClear(i.rulesets, i.completedAt);
  }

  lemma ActorClear(i: BypassInputs, s: Scan)
    requires s.blocks == {}
    ensures CoverageBlocks(i, s) == {} && ActorBlocks(i, s) == {} <==>
              && s.seen == Expected(i) && s.requests == i.audits.Keys && NotKnown !in s.assessments && Match !in s.assessments
              && i.actor.selves * DirectActors(i) == {} && i.actor.claimed == NoMatch && !i.actor.administers && !i.actor.suspended
  {
    hide Expected, DirectActors;
    assert CoverageBlocks(i, s) == {} <==> s.seen == Expected(i) && s.requests == i.audits.Keys && NotKnown !in s.assessments;
    hide CoverageBlocks;
    assert s.blocks + CoverageBlocks(i, s) == CoverageBlocks(i, s);
  }

  lemma SelvesClear(i: BypassInputs)
    ensures i.actor.selves * DirectActors(i) == {} <==> forall d :: NamedDirectly(i, d) ==> d !in i.actor.selves
  {
    DirectAre(i);
    hide DirectActors, NamedDirectly;
    if i.actor.selves * DirectActors(i) == {} {
      forall d | NamedDirectly(i, d) ensures d !in i.actor.selves { assert d !in i.actor.selves * DirectActors(i); }
    }
  }

  /** The scan is clean and covers everything exactly when every membership is in order and says no. */
  lemma MembershipsClear(i: BypassInputs, s: Scan)
    requires SoundSources(i) && Scanned(i, |i.memberships|, s)
    ensures s.blocks == {} && s.seen == Expected(i) && s.requests == i.audits.Keys && NotKnown !in s.assessments && Match !in s.assessments
            <==> AllOutside(i)
  {
    hide SoundSources, Expected, MayBypass, Resolves, About, Assess, Outside, AllOutside, Scanned;
    ExpectedAre(i);
    forall k | 0 <= k < |i.memberships|
      ensures Resolves(i, i.memberships[k]) <==> About(i, i.memberships[k])
      ensures Assess(i.memberships[k]) == NoMatch <==> Outside(i.memberships[k])
    {
      ResolvesExactly(i, i.memberships[k]);
      AssessExactly(i.memberships[k]);
    }
    if AllOutside(i) { OutsideIsClear(i, s); }
    if s.blocks == {} && s.seen == Expected(i) && s.requests == i.audits.Keys && NotKnown !in s.assessments && Match !in s.assessments {
      ClearIsOutside(i, s);
    }
  }

  lemma OutsideIsClear(i: BypassInputs, s: Scan)
    requires Scanned(i, |i.memberships|, s) && AllOutside(i) && (forall ref :: ref in Expected(i) <==> MayBypass(i, ref))
    requires forall k :: 0 <= k < |i.memberships| ==>
               (Resolves(i, i.memberships[k]) <==> About(i, i.memberships[k])) && (Assess(i.memberships[k]) == NoMatch <==> Outside(i.memberships[k]))
    ensures s.blocks == {} && s.seen == Expected(i) && s.requests == i.audits.Keys && NotKnown !in s.assessments && Match !in s.assessments
  {
    hide Expected, MayBypass, Resolves, About, Assess, Outside, Met, Requested, Judged;
    var n := |i.memberships|;
    forall ref | Met(i, n, ref) ensures ref in Expected(i) { MetMayBypass(i, ref); }
    forall id | Requested(i, n, id) ensures id in i.audits { RequestedIsAudited(i, id); }
    forall a | Judged(i, n, a) ensures a == NoMatch { JudgedIsOutside(i, a); }
    assert forall ref :: ref in s.seen <==> ref in Expected(i);
    assert forall id :: id in s.requests <==> id in i.audits.Keys;
  }

  lemma MetMayBypass(i: BypassInputs, ref: Ref)
    requires AllOutside(i) && Met(i, |i.memberships|, ref)
    ensures MayBypass(i, ref)
  {
    hide MayBypass, Called;
    var k :| 0 <= k < |i.memberships| && i.memberships[k].ref == ref;
    assert About(i, i.memberships[k]);
  }

  lemma RequestedIsAudited(i: BypassInputs, id: string)
    requires AllOutside(i) && Requested(i, |i.memberships|, id)
    ensures id in i.audits
  {
    hide MayBypass, Called, Met;
    var k :| 0 <= k < |i.memberships| && i.memberships[k].requestId == id;
    assert About(i, i.memberships[k]);
  }

  lemma JudgedIsOutside(i: BypassInputs, a: Assessment)
    requires AllOutside(i) && Judged(i, |i.memberships|, a)
    ensures a == NoMatch
  {
    hide MayBypass, Assess, About, Outside, Met, Requested;
    var k :| 0 <= k < |i.memberships| && Assess(i.memberships[k]) == a;
    AssessExactly(i.memberships[k]);
  }

  lemma ClearIsOutside(i: BypassInputs, s: Scan)
    requires Scanned(i, |i.memberships|, s) && (forall ref :: ref in Expected(i) <==> MayBypass(i, ref))
    requires forall k :: 0 <= k < |i.memberships| ==>
               (Resolves(i, i.memberships[k]) <==> About(i, i.memberships[k])) && (Assess(i.memberships[k]) == NoMatch <==> Outside(i.memberships[k]))
    requires s.blocks == {} && s.seen == Expected(i) && s.requests == i.audits.Keys && NotKnown !in s.assessments && Match !in s.assessments
    ensures AllOutside(i)
  {
    hide Expected, MayBypass, Resolves, About, Assess, Outside, Met, Requested;
    forall k | 0 <= k < |i.memberships| ensures Outside(i.memberships[k]) {
      ThreeAssessments(Assess(i.memberships[k]));
      assert Judged(i, |i.memberships|, Assess(i.memberships[k]));
    }
    assert forall ref :: MayBypass(i, ref) ==> ref in s.seen;
    assert forall id :: id in i.audits ==> id in s.requests;
  }

  /** The bypass evidence adds no block exactly when no way to bypass is open to the merge actor, or in doubt. */
  lemma BypassPassesExactly(i: BypassInputs)
    ensures BypassBlocks(i) == {} <==> NothingOpen(i)
  {
    hide BypassBlocks, SourcesAgree, ClassicMetadataFits, AllRulesetBlocks, ScanTo, CoverageBlocks, ActorBlocks, SoundSources, AllOutside, Expected, DirectActors, NamedDirectly, Scanned;
    PartsClear(i);
    SourcesClear(i);
    SelvesClear(i);
    var s := ScanTo(i, |i.memberships|);
    ScanIs(i, |i.memberships|);
    if s.blocks == {} { ActorClear(i, s); }
    if SoundSources(i) { MembershipsClear(i, s); }
  }

  // ---------------------------------------------------------------- who can bypass

  /** The membership says that the merge actor belongs. */
  ghost predicate Inside(m: Membership) {
    || (m.ref.identity.kind == Team && m.state == "active" && (m.role == Some("member") || m.role == Some("maintainer")))
    || (m.ref.identity.kind == OrganizationAdmin && m.state == "active" && m.role == Some("admin"))
    || (m.ref.identity.kind == RepositoryRole && m.permission != "none" && m.role == Some(m.name))
  }

  lemma MatchExactly(m: Membership)
    ensures Assess(m) == Match <==> Inside(m)
    ensures Assess(m) == NotKnown <==> !Inside(m) && !Outside(m)
  {}

  lemma {:induction false} RulesetsSayNothing(rulesets: seq<Ruleset>, completedAt: int)
    ensures !Says(AllRulesetBlocks(rulesets, completedAt), MergeActorCanBypass)
    decreases |rulesets|
  {
    if |rulesets| > 0 {
      RulesetsSayNothing(rulesets[..|rulesets| - 1], completedAt);
      OneRulesetSaysNothing(rulesets[|rulesets| - 1], completedAt);
      BothSay(AllRulesetBlocks(rulesets[..|rulesets| - 1], completedAt), RulesetBlocks(rulesets[|rulesets| - 1], completedAt), MergeActorCanBypass);
      hide RulesetBlocks, Says;
    }
  }

  lemma OneRulesetSaysNothing(r: Ruleset, completedAt: int)
    ensures !Says(RulesetBlocks(r, completedAt), MergeActorCanBypass)
  {
    hide MetadataFits, Says, When;
    var code := MergeActorCanBypass;
    var a := When(!r.signature, RulesetDrift, SourceSurface(r), "source and aggregate rule parameters differ");
    var b := When(!r.bypassComplete, BypassVisibilityUnknown, SourceSurface(r), "ruleset bypass visibility is incomplete");
    var c := UpdateBlocks(r, completedAt);
    var d := When(!MetadataFits(r), BypassVisibilityUnknown, Item("source_rulesets.bypass_actor_metadata", r.id), "ruleset bypass metadata differs from actor keys");
    WhenSays(!r.signature, RulesetDrift, SourceSurface(r), "source and aggregate rule parameters differ", code);
    WhenSays(!r.bypassComplete, BypassVisibilityUnknown, SourceSurface(r), "ruleset bypass visibility is incomplete", code);
    WhenSays(!MetadataFits(r), BypassVisibilityUnknown, Item("source_rulesets.bypass_actor_metadata", r.id), "ruleset bypass metadata differs from actor keys", code);
    UpdateSaysNothing(r, completedAt);
    hide UpdateBlocks;
    BothSay(a, b, code);
    BothSay(a + b, c, code);
    BothSay(a + b + c, d, code);
  }

  lemma UpdateSaysNothing(r: Ruleset, completedAt: int)
    ensures !Says(UpdateBlocks(r, completedAt), MergeActorCanBypass)
  {
    hide Says, When;
    WhenSays(true, RulesetDrift, SourceSurface(r), "ruleset update time is invalid", MergeActorCanBypass);
    if r.updatedAt.Some? { WhenSays(r.updatedAt.value > completedAt, RulesetDrift, SourceSurface(r), "ruleset update postdates observation", MergeActorCanBypass); }
  }

  lemma {:induction false} ScanSaysNothing(i: BypassInputs, n: nat)
    requires n <= |i.memberships|
    ensures !Says(ScanTo(i, n).blocks, MergeActorCanBypass)
  {
    hide Says, When, Accepted, Assess;
    if n > 0 {
      ScanSaysNothing(i, n - 1);
      var s, m := ScanTo(i, n - 1), i.memberships[n - 1];
      var more := When(!Accepted(i, s, m), BypassVisibilityUnknown, Item("bypass_memberships", n - 1), "membership resolution identity or coverage differs");
      WhenSays(!Accepted(i, s, m), BypassVisibilityUnknown, Item("bypass_memberships", n - 1), "membership resolution identity or coverage differs", MergeActorCanBypass);
      BothSay(s.blocks, more, MergeActorCanBypass);
    } else {
      NoneSays(MergeActorCanBypass);
    }
  }

  lemma ActorSays(i: BypassInputs, s: Scan)
    ensures Says(ActorBlocks(i, s), MergeActorCanBypass) <==>
              Match in s.assessments || i.actor.selves * DirectActors(i) != {} || i.actor.administers
  {
    hide Derived, DirectActors, Says, When;
    var code := MergeActorCanBypass;
    var bypasses := Match in s.assessments || i.actor.selves * DirectActors(i) != {} || i.actor.administers;
    var a := When(i.actor.claimed != Derived(i, s), BypassVisibilityUnknown, Part("actor.bypass_assessment"), "actor bypass assessment differs from typed evidence");
    var b := When(bypasses, MergeActorCanBypass, Part("actor"), "merge actor may bypass policy");
    var c := When(!bypasses && Derived(i, s) != NoMatch, BypassVisibilityUnknown, Part("actor"), "actor bypass assessment is unknown");
    var d := When(i.actor.suspended, ActorIdentityUnknown, Part("actor"), "merge actor is suspended");
    WhenSays(i.actor.claimed != Derived(i, s), BypassVisibilityUnknown, Part("actor.bypass_assessment"), "actor bypass assessment differs from typed evidence", code);
    WhenSays(bypasses, MergeActorCanBypass, Part("actor"), "merge actor may bypass policy", code);
    WhenSays(!bypasses && Derived(i, s) != NoMatch, BypassVisibilityUnknown, Part("actor"), "actor bypass assessment is unknown", code);
    WhenSays(i.actor.suspended, ActorIdentityUnknown, Part("actor"), "merge actor is suspended", code);
    BothSay(a, b, code);
    BothSay(a + b, c, code);
    BothSay(a + b + c, d, code);
  }

  lemma CoverageSaysNothing(i: BypassInputs, s: Scan)
    ensures !Says(CoverageBlocks(i, s), MergeActorCanBypass)
  {
    hide Expected, Says, When;
    var code := MergeActorCanBypass;
    var a := When(s.seen != Expected(i), BypassVisibilityUnknown, Part("bypass_memberships"), "membership resolution coverage is incomplete");
    var b := When(s.requests != i.audits.Keys, BypassVisibilityUnknown, Part("observation.requests"), "membership request audits do not have exact resolution coverage");
    var c := When(NotKnown in s.assessments, BypassVisibilityUnknown, Part("bypass_memberships"), "membership state is not authoritative");
    WhenSays(s.seen != Expected(i), BypassVisibilityUnknown, Part("bypass_memberships"), "membership resolution coverage is incomplete", code);
    WhenSays(s.requests != i.audits.Keys, BypassVisibilityUnknown, Part("observation.requests"), "membership request audits do not have exact resolution coverage", code);
    WhenSays(NotKnown in s.assessments, BypassVisibilityUnknown, Part("bypass_memberships"), "membership state is not authoritative", code);
    BothSay(a, b, code);
    BothSay(a + b, c, code);
  }

  /**
    The merge actor is reported as able to bypass exactly if some membership says it belongs, it is an actor named
    directly, or it administers the repository, whatever else is in doubt.
  */
  lemma BypassedExactly(i: BypassInputs)
    ensures Says(BypassBlocks(i), MergeActorCanBypass) <==>
              || (exists k :: 0 <= k < |i.memberships| && Inside(i.memberships[k]))
              || (exists d :: NamedDirectly(i, d) && d in i.actor.selves)
              || i.actor.administers
  {
    hide Inside, NamedDirectly, Says, SourcesAgree, ClassicMetadataFits, AllRulesetBlocks, ScanTo, CoverageBlocks, ActorBlocks, DirectActors, Assess, When;
    var n, s := |i.memberships|, ScanTo(i, |i.memberships|);
    BypassSays(i);
    RulesetsSayNothing(i.rulesets, i.completedAt);
    ScanSaysNothing(i, n);
    ActorSays(i, s);
    CoverageSaysNothing(i, s);
    ScanIs(i, n);
    SelvesClear(i);
    forall k | 0 <= k < n ensures Assess(i.memberships[k]) == Match <==> Inside(i.memberships[k]) { MatchExactly(i.memberships[k]); }
  }

  lemma BypassSays(i: BypassInputs)
    ensures var s := ScanTo(i, |i.memberships|);
            Says(BypassBlocks(i), MergeActorCanBypass) <==>
              || Says(AllRulesetBlocks(i.rulesets, i.completedAt), MergeActorCanBypass) || Says(s.blocks, MergeActorCanBypass)
              || Says(CoverageBlocks(i, s), MergeActorCanBypass) || Says(ActorBlocks(i, s), MergeActorCanBypass)
  {
    hide SourcesAgree, ClassicMetadataFits, AllRulesetBlocks, ScanTo, CoverageBlocks, ActorBlocks, Says, When;
    var s, code := ScanTo(i, |i.memberships|), MergeActorCanBypass;
    var a := When(!SourcesAgree(i), RulesetDrift, Part("source_rulesets"), "source and aggregate ruleset ids differ");
    var b := AllRulesetBlocks(i.rulesets, i.completedAt);
    var c := When(!ClassicMetadataFits(i), BypassVisibilityUnknown, Part("classic_protection.bypass_actor_metadata"), "classic bypass metadata differs from actor keys");
    WhenSays(!SourcesAgree(i), RulesetDrift, Part("source_rulesets"), "source and aggregate ruleset ids differ", code);
    WhenSays(!ClassicMetadataFits(i), BypassVisibilityUnknown, Part("classic_protection.bypass_actor_metadata"), "classic bypass metadata differs from actor keys", code);
    BothSay(a, b, code);
    BothSay(a + b, c, code);
    BothSay(a + b + c, s.blocks, code);
    BothSay(a + b + c + s.blocks, CoverageBlocks(i, s), code);
    BothSay(a + b + c + s.blocks + CoverageBlocks(i, s), ActorBlocks(i, s), code);
  }
}
