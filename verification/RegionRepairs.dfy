/**
  The two repairs of generated Markdown (pathfinder_core/rendering.py) and their laws: only the region
  changes, the last repair wins, and repairs of different regions commute.
*/
module RegionRepairs {
  import opened Wrappers
  import opened MarkdownBlocks
  import opened GeneratedRegions
  import opened RegionLaws

  type Repair = Result<string, RenderError>

  function CandidatesRepaired(markdown: string, d: Candidates): Repair {
    if !d.supported then Err(UnsupportedVersion) else Replaced(markdown, CandidatesName, "v1", CandidatesBlock(d))
  }

  function VerificationRepaired(markdown: string, d: Verification): Repair {
    if !d.supported then Err(UnsupportedVersion) else Replaced(markdown, VerificationName, "v1", VerificationBlock(d))
  }

  /** `repair_candidates_markdown`. */
  method RepairCandidatesMarkdown(markdown: string, d: Candidates) returns (r: Repair)
    ensures r == CandidatesRepaired(markdown, d)
  {
    var block := RenderCandidatesBlock(d);
    if block.Err? { return Err(block.error); }
    r := ReplaceGeneratedRegion(markdown, CandidatesName, "v1", block.value);
  }

  /** `repair_verification_markdown`. */
  method RepairVerificationMarkdown(markdown: string, d: Verification) returns (r: Repair)
    ensures r == VerificationRepaired(markdown, d)
  {
    var block := RenderVerificationBlock(d);
    if block.Err? { return Err(block.error); }
    r := ReplaceGeneratedRegion(markdown, VerificationName, "v1", block.value);
  }

  // ---------------------------------------------------------------- when a repair succeeds

  /** A well-marked document with exactly one region of the name. */
  ghost predicate Repairable(doc: string, name: string) {
    WellMarked(doc) && exists t: nat :: OnlyTarget(Regions(doc), t, name, "v1")
  }

  lemma BlockFitsItsMarkers(block: string, name: string)
    requires Block(block, name)
    ensures StartsWith(block, TagText(Tag(name, "v1", Begin))) && EndsWith(block, TagText(Tag(name, "v1", End)))
  {
    var body :| IsBlock(block, name, "v1", body);
    hide TagText;
  }

  /** A rendered block replaces its region exactly when the document is well marked and holds one such region. */
  lemma RepairsExactly(doc: string, name: string, block: string)
    requires Block(block, name)
    ensures Replaced(doc, name, "v1", block).Ok? <==> Repairable(doc, name)
    ensures forall t: nat :: WellMarked(doc) && OnlyTarget(Regions(doc), t, name, "v1") ==>
              Replaced(doc, name, "v1", block).Ok? && Rewrites(doc, t, block, Replaced(doc, name, "v1", block).value)
  {
    BlockFitsItsMarkers(block, name);
    LocateExactly(doc, name, "v1");
    LocatedRegion(doc, name, "v1");
    hide TagText, StartsWith, EndsWith, Locate, WellMarked, OnlyTarget, Regions;
    forall t: nat | WellMarked(doc) && OnlyTarget(Regions(doc), t, name, "v1")
      ensures Replaced(doc, name, "v1", block).Ok? && Rewrites(doc, t, block, Replaced(doc, name, "v1", block).value)
    {
      TargetIs(doc, t, name);
    }
  }

  lemma TargetIs(doc: string, t: nat, name: string)
    requires OnlyTarget(Regions(doc), t, name, "v1")
    ensures t < |Regions(doc)| && Regions(doc)[t].name == name && Regions(doc)[t].version == "v1"
  {
    assert IsTarget(Regions(doc)[t], name, "v1");
  }

  // ---------------------------------------------------------------- only the region changes

  ghost function RegionText(doc: string, r: Region): string
    requires r.start <= r.end <= |doc|
  {
    doc[r.start..r.end]
  }

  /**
    After a repair the named region holds the block, every other region holds what it held, and so
    does the text before and after the region.
  */
  lemma OnlyTheRegionChanges(doc: string, name: string, block: string, t: nat)
    requires Block(block, name) && WellMarked(doc) && OnlyTarget(Regions(doc), t, name, "v1")
    ensures Replaced(doc, name, "v1", block).Ok?
    ensures var after := Replaced(doc, name, "v1", block).value;
            && WellMarked(after) && OnlyTarget(Regions(after), t, name, "v1") && |Regions(after)| == |Regions(doc)|
            && Regions(doc)[t].start <= Regions(doc)[t].end <= |doc| && Regions(after)[t].start <= Regions(after)[t].end <= |after|
            && after[..Regions(after)[t].start] == doc[..Regions(doc)[t].start] && after[Regions(after)[t].end..] == doc[Regions(doc)[t].end..]
            && RegionText(after, Regions(after)[t]) == block
  {
    RepairsExactly(doc, name, block);
    var after := Replaced(doc, name, "v1", block).value;
    assert Rewrites(doc, t, block, after);
    RewrittenRegions(doc, t, block, after);
    RewrittenParts(doc, t, block, after);
    SameTargets(doc, t, block, after, name, t);
    hide Rewrites, Replaced, WellMarked, Regions, OnlyTarget, Block, RegionHolds, LineStart, LineEndsAt;
    assert Regions(after)[t] == RegionAfter(Regions(doc)[t], t, t, Regions(doc)[t].start + |block|, ShiftOf(doc, t, block));
  }

  lemma OtherRegionsKeep(doc: string, name: string, block: string, t: nat, k: nat)
    requires Block(block, name) && WellMarked(doc) && OnlyTarget(Regions(doc), t, name, "v1") && k < |Regions(doc)| && k != t
    ensures Replaced(doc, name, "v1", block).Ok?
    ensures var after := Replaced(doc, name, "v1", block).value;
            && k < |Regions(after)| && Regions(doc)[k].start <= Regions(doc)[k].end <= |doc| && Regions(after)[k].start <= Regions(after)[k].end <= |after|
            && Regions(after)[k].name == Regions(doc)[k].name && Regions(after)[k].version == Regions(doc)[k].version
            && RegionText(after, Regions(after)[k]) == RegionText(doc, Regions(doc)[k])
  {
    hide Replaced, WellMarked, Regions, OnlyTarget, Block;
    RepairRewrites(doc, name, block, t);
    RewriteKeeps(doc, t, block, Replaced(doc, name, "v1", block).value, k);
  }

  lemma RewriteKeeps(doc: string, t: nat, block: string, after: string, k: nat)
    requires Rewrites(doc, t, block, after) && k < |Regions(doc)| && k != t
    ensures && k < |Regions(after)| && Regions(doc)[k].start <= Regions(doc)[k].end <= |doc| && Regions(after)[k].start <= Regions(after)[k].end <= |after|
            && Regions(after)[k].name == Regions(doc)[k].name && Regions(after)[k].version == Regions(doc)[k].version
            && RegionText(after, Regions(after)[k]) == RegionText(doc, Regions(doc)[k])
  {
    hide Rewrites, WellMarked, Regions, LineStart, LineEndsAt, TextAt, ValidName, ValidVersion, Standalone, RegionAfter, RegionText, TagText, RegionHolds;
    RewriteIs(doc, t, block, after);
    RewrittenRegion(doc, t, block, after, k);
    RewrittenParts(doc, t, block, after);
    RegionFits(doc, k);
    if k < t { RegionsApart(doc, k, t); } else { RegionsApart(doc, t, k); }
    KeptText(doc, Regions(doc)[k], k, t, Regions(doc)[t], block, after);
  }

  lemma KeptText(doc: string, r: Region, k: nat, t: nat, s: Region, block: string, after: string)
    requires r.start <= r.end <= |doc| && s.start <= s.end <= |doc| && s.start + |block| <= |after|
    requires after[..s.start] == doc[..s.start] && after[s.start + |block|..] == doc[s.end..]
    requires if k < t then r.end <= s.start else k > t && s.end <= r.start
    ensures var r' := RegionAfter(r, k, t, s.start + |block|, |block| - (s.end - s.start));
            r'.name == r.name && r'.version == r.version && r'.start <= r'.end <= |after| && RegionText(after, r') == RegionText(doc, r)
  {
    assert |after| - (s.start + |block|) == |after[s.start + |block|..]| == |doc[s.end..]| == |doc| - s.end;
    if k < t {
      SliceOfTake(after, s.start, r.start, r.end);
      SliceOfTake(doc, s.start, r.start, r.end);
    } else {
      SliceAfter(doc, s.end, after, s.start + |block|, r.start, r.end - r.start);
    }
  }

  lemma SliceOfTake(s: string, n: nat, i: nat, j: nat)
    requires i <= j <= n <= |s|
    ensures s[i..j] == s[..n][i..j]
  {
  }

  /** Regions stand one after the other. */
  lemma RegionsApart(doc: string, t: nat, u: nat)
    requires WellMarked(doc) && t < u < |Regions(doc)|
    ensures Regions(doc)[t].end <= Regions(doc)[u].start
  {
    hide Paired, MarkersIn, MatchAt, AllMarked, Matched, Ascending;
    MarkersInOrder(doc, 0, |doc|);
    LaterStarts(doc, Markers(doc), 2 * t + 1);
  }

  /** Which region is the only one of a name does not depend on the text of another. */
  lemma SameTargets(doc: string, t: nat, block: string, after: string, name: string, u: nat)
    requires t < |Regions(doc)| && SameRegions(doc, t, block, after)
    ensures OnlyTarget(Regions(after), u, name, "v1") <==> OnlyTarget(Regions(doc), u, name, "v1")
  {
    hide WellMarked, Regions;
    var rs, rs' := Regions(doc), Regions(after);
    forall k | 0 <= k < |rs| ensures IsTarget(rs'[k], name, "v1") <==> IsTarget(rs[k], name, "v1") {
      assert rs'[k] == RegionAfter(rs[k], k, t, rs[t].start + |block|, ShiftOf(doc, t, block));
    }
  }

  /** A repair changes no name, so it neither makes nor breaks another repair. */
  lemma StaysRepairable(doc: string, name: string, block: string, other: string)
    requires Block(block, name) && Replaced(doc, name, "v1", block).Ok?
    ensures Repairable(Replaced(doc, name, "v1", block).value, other) <==> Repairable(doc, other)
  {
    RepairsExactly(doc, name, block);
    var t: nat :| OnlyTarget(Regions(doc), t, name, "v1");
    var after := Replaced(doc, name, "v1", block).value;
    assert Rewrites(doc, t, block, after);
    RewrittenRegions(doc, t, block, after);
    hide Replaced, Regions, WellMarked, Block;
    TargetIs(doc, t, name);
    forall u: nat ensures OnlyTarget(Regions(after), u, other, "v1") <==> OnlyTarget(Regions(doc), u, other, "v1") {
      SameTargets(doc, t, block, after, other, u);
    }
    hide OnlyTarget, Rewrites;
  }

  // ---------------------------------------------------------------- the last repair wins

  /** Repairing a repaired document is repairing the original: nothing of the first block remains. */
  lemma LastRepairWins(doc: string, name: string, first: string, second: string)
    requires Block(first, name) && Block(second, name) && Replaced(doc, name, "v1", first).Ok?
    ensures Replaced(Replaced(doc, name, "v1", first).value, name, "v1", second) == Replaced(doc, name, "v1", second)
  {
    RepairsExactly(doc, name, first);
    var t: nat :| OnlyTarget(Regions(doc), t, name, "v1");
    var after := Replaced(doc, name, "v1", first).value;
    OnlyTheRegionChanges(doc, name, first, t);
    RepairsExactly(doc, name, second);
    RepairsExactly(after, name, second);
    hide Replaced, Regions, WellMarked, Block, OnlyTarget, Repairable;
    SameSplice(doc, Regions(doc)[t], after, Regions(after)[t], second);
  }

  lemma SameSplice(doc: string, r: Region, after: string, r': Region, block: string)
    requires r.start <= r.end <= |doc| && r'.start <= r'.end <= |after|
    requires after[..r'.start] == doc[..r.start] && after[r'.end..] == doc[r.end..]
    ensures Spliced(after, r'.start, r'.end, block) == Spliced(doc, r.start, r.end, block)
  {
  }

  // ---------------------------------------------------------------- repairs of two regions commute

  /** Two splices at places apart, in either order. */
  lemma SplicesCommute(doc: string, s1: nat, e1: nat, s2: nat, e2: nat, first: string, second: string)
    requires s1 <= e1 <= s2 <= e2 <= |doc|
    ensures var shift := |first| - (e1 - s1);
            && e2 + shift <= |Spliced(doc, s1, e1, first)| && e1 <= |Spliced(doc, s2, e2, second)| && 0 <= s2 + shift
            && Spliced(Spliced(doc, s1, e1, first), s2 + shift, e2 + shift, second)
               == Spliced(Spliced(doc, s2, e2, second), s1, e1, first)
  {
    var a, b, shift := Spliced(doc, s1, e1, first), Spliced(doc, s2, e2, second), |first| - (e1 - s1);
    assert a[..s2 + shift] == doc[..s1] + first + doc[e1..s2];
    assert a[e2 + shift..] == doc[e2..];
    assert b[..s1] == doc[..s1];
    assert b[e1..] == doc[e1..s2] + second + doc[e2..];
  }

  lemma RewritesCommute(doc: string, t: nat, u: nat, first: string, second: string, a: string, b: string, ab: string, ba: string)
    requires t < u && Rewrites(doc, t, first, a) && Rewrites(doc, u, second, b) && Rewrites(a, u, second, ab) && Rewrites(b, t, first, ba)
    ensures ab == ba
  {
    hide WellMarked, Regions, IsBlock, Spliced, RegionAfter, Rewrites;
    RewriteIs(doc, t, first, a);
    RewriteIs(doc, u, second, b);
    RegionsApart(doc, t, u);
    RewriteIs(a, u, second, ab);
    RewriteIs(b, t, first, ba);
    var r, s := Regions(doc)[t], Regions(doc)[u];
    SplicesCommute(doc, r.start, r.end, s.start, s.end, first, second);
    RewrittenRegion(doc, t, first, a, u);
    RewrittenRegion(doc, u, second, b, t);
    RegionMoved(s, u, t, r.start + |first|, ShiftOf(doc, t, first));
    RegionStays(r, t, u, s.start + |second|, ShiftOf(doc, u, second));
  }

  lemma RewriteIs(doc: string, t: nat, block: string, after: string)
    requires Rewrites(doc, t, block, after)
    ensures WellMarked(doc) && t < |Regions(doc)| && Regions(doc)[t].start <= Regions(doc)[t].end <= |doc|
    ensures after == Spliced(doc, Regions(doc)[t].start, Regions(doc)[t].end, block)
  {
  }

  lemma RewrittenRegion(doc: string, t: nat, block: string, after: string, k: nat)
    requires Rewrites(doc, t, block, after) && k < |Regions(doc)|
    ensures k < |Regions(after)| && Regions(after)[k] == RegionAfter(Regions(doc)[k], k, t, Regions(doc)[t].start + |block|, ShiftOf(doc, t, block))
  {
    RewrittenRegions(doc, t, block, after);
    hide Regions, WellMarked;
  }

  lemma RegionMoved(r: Region, k: nat, t: nat, end: nat, shift: int)
    requires k > t && r.start + shift >= 0 && r.end + shift >= 0
    ensures RegionAfter(r, k, t, end, shift) == r.(start := r.start + shift, end := r.end + shift)
  {
  }

  lemma RegionStays(r: Region, k: nat, t: nat, end: nat, shift: int)
    requires k < t
    ensures RegionAfter(r, k, t, end, shift) == r
  {
  }

  /** Both repairs, in the given order. */
  function Both(doc: string, name: string, block: string, other: string, next: string): Repair {
    var one := Replaced(doc, name, "v1", block);
    if one.Err? then one else Replaced(one.value, other, "v1", next)
  }

  /** Repairs of two different regions succeed together in either order, with the same document. */
  lemma BothCommute(doc: string, name: string, block: string, other: string, next: string)
    requires name != other && Block(block, name) && Block(next, other)
    ensures Both(doc, name, block, other, next).Ok? <==> Repairable(doc, name) && Repairable(doc, other)
    ensures Both(doc, name, block, other, next).Ok? <==> Both(doc, other, next, name, block).Ok?
    ensures Both(doc, name, block, other, next).Ok? ==> Both(doc, name, block, other, next) == Both(doc, other, next, name, block)
  {
    BothExactly(doc, name, block, other, next);
    BothExactly(doc, other, next, name, block);
    if Repairable(doc, name) && Repairable(doc, other) {
      var t: nat :| OnlyTarget(Regions(doc), t, name, "v1");
      var u: nat :| OnlyTarget(Regions(doc), u, other, "v1");
      TargetIs(doc, t, name);
      TargetIs(doc, u, other);
      assert t != u;
      if t < u { BothCommuteAt(doc, name, block, t, other, next, u); } else { BothCommuteAt(doc, other, next, u, name, block, t); }
    }
    hide Both, Repairable;
  }

  lemma BothExactly(doc: string, name: string, block: string, other: string, next: string)
    requires Block(block, name) && Block(next, other)
    ensures Both(doc, name, block, other, next).Ok? <==> Repairable(doc, name) && Repairable(doc, other)
  {
    hide Replaced, Repairable, Block;
    RepairsExactly(doc, name, block);
    var one := Replaced(doc, name, "v1", block);
    if one.Ok? {
      StaysRepairable(doc, name, block, other);
      RepairsExactly(one.value, other, next);
    }
  }

  lemma BothCommuteAt(doc: string, name: string, block: string, t: nat, other: string, next: string, u: nat)
    requires Block(block, name) && Block(next, other) && WellMarked(doc) && t < u
    requires OnlyTarget(Regions(doc), t, name, "v1") && OnlyTarget(Regions(doc), u, other, "v1")
    ensures Both(doc, name, block, other, next).Ok? && Both(doc, name, block, other, next) == Both(doc, other, next, name, block)
  {
    hide Replaced, Block, WellMarked, OnlyTarget, Regions;
    RepairRewrites(doc, name, block, t);
    RepairRewrites(doc, other, next, u);
    var a, b := Replaced(doc, name, "v1", block).value, Replaced(doc, other, "v1", next).value;
    KeepsTarget(doc, name, block, t, a, other, u);
    KeepsTarget(doc, other, next, u, b, name, t);
    RepairRewrites(a, other, next, u);
    RepairRewrites(b, name, block, t);
    var ab, ba := Replaced(a, other, "v1", next).value, Replaced(b, name, "v1", block).value;
    RewritesCommute(doc, t, u, block, next, a, b, ab, ba);
    hide Rewrites;
  }

  lemma RepairRewrites(doc: string, name: string, block: string, t: nat)
    requires Block(block, name) && WellMarked(doc) && OnlyTarget(Regions(doc), t, name, "v1")
    ensures Replaced(doc, name, "v1", block).Ok? && Rewrites(doc, t, block, Replaced(doc, name, "v1", block).value)
  {
    RepairsExactly(doc, name, block);
  }

  lemma KeepsTarget(doc: string, name: string, block: string, t: nat, after: string, other: string, u: nat)
    requires Block(block, name) && Rewrites(doc, t, block, after) && OnlyTarget(Regions(doc), u, other, "v1")
    ensures WellMarked(after) && OnlyTarget(Regions(after), u, other, "v1")
  {
    RewrittenRegions(doc, t, block, after);
    SameTargets(doc, t, block, after, other, u);
  }

  // ---------------------------------------------------------------- the laws of the two repairs

  lemma NamesAreValid()
    ensures ValidName(CandidatesName) && ValidName(VerificationName) && ValidVersion("v1") && CandidatesName != VerificationName
  {
    assert CandidatesName[0] == 'c' && VerificationName[0] == 'v';
  }

  /** Whatever two candidate documents say, repairing with the second after the first is repairing with the second. */
  lemma CandidatesRepairedTwice(markdown: string, first: Candidates, second: Candidates)
    requires CandidatesRepaired(markdown, first).Ok?
    ensures CandidatesRepaired(CandidatesRepaired(markdown, first).value, second) == CandidatesRepaired(markdown, second)
  {
    CandidatesBlockIsABlock(first);
    CandidatesBlockIsABlock(second);
    hide Replaced, CandidatesBlock, Block;
    LastRepairWins(markdown, CandidatesName, CandidatesBlock(first), CandidatesBlock(second));
  }

  lemma VerificationRepairedTwice(markdown: string, first: Verification, second: Verification)
    requires VerificationRepaired(markdown, first).Ok?
    ensures VerificationRepaired(VerificationRepaired(markdown, first).value, second) == VerificationRepaired(markdown, second)
  {
    VerificationBlockIsABlock(first);
    VerificationBlockIsABlock(second);
    hide Replaced, VerificationBlock, Block;
    LastRepairWins(markdown, VerificationName, VerificationBlock(first), VerificationBlock(second));
  }

  function CandidatesThenVerification(markdown: string, c: Candidates, v: Verification): Repair {
    var one := CandidatesRepaired(markdown, c);
    if one.Err? then one else VerificationRepaired(one.value, v)
  }

  function VerificationThenCandidates(markdown: string, c: Candidates, v: Verification): Repair {
    var one := VerificationRepaired(markdown, v);
    if one.Err? then one else CandidatesRepaired(one.value, c)
  }

  /**
    The two repairs commute on every document: they succeed together, exactly when both versions are
    supported and the document is well marked with one region of each name, and give the same text.
  */
  lemma RepairsCommute(markdown: string, c: Candidates, v: Verification)
    ensures CandidatesThenVerification(markdown, c, v).Ok? <==>
              c.supported && v.supported && Repairable(markdown, CandidatesName) && Repairable(markdown, VerificationName)
    ensures VerificationThenCandidates(markdown, c, v).Ok? <==> CandidatesThenVerification(markdown, c, v).Ok?
    ensures CandidatesThenVerification(markdown, c, v).Ok? ==> CandidatesThenVerification(markdown, c, v) == VerificationThenCandidates(markdown, c, v)
  {
    NamesAreValid();
    CandidatesBlockIsABlock(c);
    VerificationBlockIsABlock(v);
    hide Replaced, CandidatesBlock, VerificationBlock, Block, Repairable, ValidName;
    BothCommute(markdown, CandidatesName, CandidatesBlock(c), VerificationName, VerificationBlock(v));
  }

  /** A rendered block neither depends on nor disturbs anything outside its region. */
  lemma CandidatesRepairChangesOneRegion(markdown: string, d: Candidates)
    requires CandidatesRepaired(markdown, d).Ok?
    ensures exists start, end :: ReplacesOnly(markdown, start, end, CandidatesName, CandidatesBlock(d), CandidatesRepaired(markdown, d).value)
  {
    CandidatesBlockIsABlock(d);
    hide CandidatesBlock;
    RepairChangesOneRegion(markdown, CandidatesName, CandidatesBlock(d));
  }

  /** `after` is `doc` but for one stretch that began and ended with the name's markers. */
  ghost predicate ReplacesOnly(doc: string, start: nat, end: nat, name: string, block: string, after: string) {
    var e := TagText(Tag(name, "v1", End));
    && start <= end <= |doc| && after == doc[..start] + block + doc[end..]
    && TextAt(doc, start, TagText(Tag(name, "v1", Begin))) && start <= end - |e| && TextAt(doc, end - |e|, e)
  }

  lemma RepairChangesOneRegion(doc: string, name: string, block: string)
    requires Block(block, name) && Replaced(doc, name, "v1", block).Ok?
    ensures exists start, end :: ReplacesOnly(doc, start, end, name, block, Replaced(doc, name, "v1", block).value)
  {
    hide Replaced, Block, TagText, Regions, WellMarked, TextAt, LineStart, LineEndsAt, IsBlock, ValidName, ValidVersion;
    RepairsExactly(doc, name, block);
    var t: nat :| OnlyTarget(Regions(doc), t, name, "v1");
    TargetIs(doc, t, name);
    RegionsHoldHere(doc, t);
    var r, after := Regions(doc)[t], Replaced(doc, name, "v1", block).value;
    assert Rewrites(doc, t, block, after);
    hide OnlyTarget;
    assert ReplacesOnly(doc, r.start, r.end, name, block, after);
  }

  lemma RegionFits(doc: string, t: nat)
    requires WellMarked(doc) && t < |Regions(doc)|
    ensures Regions(doc)[t].start <= Regions(doc)[t].end <= |doc|
  {
    RegionsHold(doc, t);
  }

  lemma RegionsHoldHere(doc: string, t: nat)
    requires WellMarked(doc) && t < |Regions(doc)|
    ensures RegionHolds(doc, Regions(doc)[t])
  {
    RegionsHold(doc, t);
  }
}
