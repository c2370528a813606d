/**
  The diff checks of the merge evaluator (pathfinder_core/merge_policy.py): allowed and denied path
  patterns, protected categories, and diff limits that no policy can lift.
*/
module PolicyDiff {
  import opened Wrappers
  import opened PolicyTypes

  /** A path or pattern, split at its slashes. */
  type Parts = seq<string>

  /** `fnmatch` on one component: (component, pattern component). */
  type Component = (string, string) -> bool

  // ---------------------------------------------------------------- path patterns

  /** `_matches`: `**` stands for any number of components. */
  function Walk(glob: Component, pattern: Parts, path: Parts): bool
    decreases |pattern| + |path|
  {
    if |pattern| == 0 then |path| == 0
    else if pattern[0] == "**" then
      Walk(glob, pattern[1..], path) || (|path| > 0 && Walk(glob, pattern, path[1..]))
    else |path| > 0 && glob(path[0], pattern[0]) && Walk(glob, pattern[1..], path[1..])
  }

  /** The path cut into one piece per pattern component: `cuts[k]..cuts[k + 1]` goes to component `k`. */
  ghost predicate Segments(glob: Component, pattern: Parts, path: Parts, cuts: seq<nat>) {
    && |cuts| == |pattern| + 1 && cuts[0] == 0 && cuts[|pattern|] == |path|
    && forall k :: 0 <= k < |pattern| ==> Piece(glob, pattern[k], path, cuts[k], cuts[k + 1])
  }

  ghost predicate Piece(glob: Component, part: string, path: Parts, from: nat, to: nat) {
    && from <= to <= |path|
    && (part == "**" || (to == from + 1 && glob(path[from], part)))
  }

  /** Moving a piece along with the path it is cut from. */
  lemma PieceShifts(glob: Component, part: string, path: Parts, from: nat, to: nat, d: nat)
    requires d <= |path|
    ensures Piece(glob, part, path[d..], from, to) <==> Piece(glob, part, path, from + d, to + d)
  {}

  function Shift(cuts: seq<nat>, d: nat): (shifted: seq<nat>)
    ensures |shifted| == |cuts|
  {
    seq(|cuts|, k requires 0 <= k < |cuts| => cuts[k] + d)
  }

  lemma PrependSegment(glob: Component, pattern: Parts, path: Parts, d: nat, cuts: seq<nat>)
    requires |pattern| > 0 && Piece(glob, pattern[0], path, 0, d) && Segments(glob, pattern[1..], path[d..], cuts)
    ensures Segments(glob, pattern, path, [0] + Shift(cuts, d))
  {
    var all := [0] + Shift(cuts, d);
    forall k | 0 <= k < |pattern|
      ensures Piece(glob, pattern[k], path, all[k], all[k + 1])
    {
      if k > 0 {
        assert pattern[k] == pattern[1..][k - 1];
        PieceShifts(glob, pattern[k], path, cuts[k - 1], cuts[k], d);
      }
    }
  }

  lemma {:induction false} WalkSegments(glob: Component, pattern: Parts, path: Parts)
    requires Walk(glob, pattern, path)
    ensures exists cuts :: Segments(glob, pattern, path, cuts)
    decreases |pattern| + |path|
  {
    if |pattern| == 0 {
      assert Segments(glob, pattern, path, [0]);
    } else if pattern[0] == "**" && Walk(glob, pattern[1..], path) {
      WalkSegments(glob, pattern[1..], path);
      var cuts :| Segments(glob, pattern[1..], path, cuts);
      assert path[0..] == path;
      PrependSegment(glob, pattern, path, 0, cuts);
    } else if pattern[0] == "**" {
      WalkSegments(glob, pattern, path[1..]);
      var cuts :| Segments(glob, pattern, path[1..], cuts);
      StretchFirst(glob, pattern, path, cuts);
    } else {
      WalkSegments(glob, pattern[1..], path[1..]);
      var cuts :| Segments(glob, pattern[1..], path[1..], cuts);
      PrependSegment(glob, pattern, path, 1, cuts);
    }
  }

  /** A leading `**` takes one more component. */
  lemma StretchFirst(glob: Component, pattern: Parts, path: Parts, cuts: seq<nat>)
    requires |pattern| > 0 && pattern[0] == "**" && |path| > 0 && Segments(glob, pattern, path[1..], cuts)
    ensures Segments(glob, pattern, path, [0] + Shift(cuts[1..], 1))
  {
    var all := [0] + Shift(cuts[1..], 1);
    assert Piece(glob, pattern[0], path[1..], cuts[0], cuts[1]);
    forall k | 0 <= k < |pattern|
      ensures Piece(glob, pattern[k], path, all[k], all[k + 1])
    {
      if k > 0 { PieceShifts(glob, pattern[k], path, cuts[k], cuts[k + 1], 1); }
    }
  }

  lemma DropSegment(glob: Component, pattern: Parts, path: Parts, cuts: seq<nat>)
    requires |pattern| > 0 && Segments(glob, pattern, path, cuts)
    ensures cuts[1] <= |path| && exists rest :: Segments(glob, pattern[1..], path[cuts[1]..], rest)
  {
    assert Piece(glob, pattern[0], path, cuts[0], cuts[1]);
    SegmentsAscend(glob, pattern, path, cuts);
    var d := cuts[1];
    var rest := seq(|pattern|, k requires 0 <= k < |pattern| => (cuts[k + 1] - d) as nat);
    forall k | 0 <= k < |pattern| - 1
      ensures Piece(glob, pattern[1..][k], path[d..], rest[k], rest[k + 1])
    {
      assert Piece(glob, pattern[k + 1], path, cuts[k + 1], cuts[k + 2]);
      PieceShifts(glob, pattern[k + 1], path, rest[k], rest[k + 1], d);
    }
    assert Segments(glob, pattern[1..], path[d..], rest);
  }

  lemma {:induction false} SegmentsAscend(glob: Component, pattern: Parts, path: Parts, cuts: seq<nat>)
    requires |pattern| > 0 && Segments(glob, pattern, path, cuts)
    ensures forall k :: 1 <= k < |cuts| ==> cuts[1] <= cuts[k]
  {
    var k := 1;
    while k < |cuts| - 1
      invariant 1 <= k < |cuts|
      invariant forall m :: 1 <= m <= k ==> cuts[1] <= cuts[m]
    {
      assert Piece(glob, pattern[k], path, cuts[k], cuts[k + 1]);
      k := k + 1;
    }
  }

  lemma {:induction false} SegmentsWalk(glob: Component, pattern: Parts, path: Parts, cuts: seq<nat>)
    requires Segments(glob, pattern, path, cuts)
    ensures Walk(glob, pattern, path)
    decreases |pattern|
  {
    if |pattern| > 0 {
      DropSegment(glob, pattern, path, cuts);
      var d := cuts[1];
      var rest :| Segments(glob, pattern[1..], path[d..], rest);
      SegmentsWalk(glob, pattern[1..], path[d..], rest);
      assert Piece(glob, pattern[0], path, 0, d);
      if pattern[0] == "**" { StarTakes(glob, pattern, path, d); }
    }
  }

  lemma {:induction false} StarTakes(glob: Component, pattern: Parts, path: Parts, d: nat)
    requires |pattern| > 0 && pattern[0] == "**" && d <= |path| && Walk(glob, pattern[1..], path[d..])
    ensures Walk(glob, pattern, path)
    decreases d
  {
    if d == 0 {
      assert path[0..] == path;
    } else {
      assert path[1..][d - 1..] == path[d..];
      StarTakes(glob, pattern, path[1..], d - 1);
    }
  }

  /** A path matches exactly when it can be cut into one piece per pattern component, any piece for a `**`. */
  lemma MatchesExactly(glob: Component, pattern: Parts, path: Parts)
    ensures Walk(glob, pattern, path) <==> exists cuts :: Segments(glob, pattern, path, cuts)
  {
    if Walk(glob, pattern, path) { WalkSegments(glob, pattern, path); }
    if cuts :| Segments(glob, pattern, path, cuts) { SegmentsWalk(glob, pattern, path, cuts); }
  }

  // ---------------------------------------------------------------- the diff

  /**
    A changed file: `name` is the whole path; `claimed` and `claimedSpecial` are the evidence's own
    classification, `classified` and `derivedSpecial` what the protected registry (None when it refuses a
    path) and the Git evidence derive, in order.
  */
  datatype File = File(
    name: string, path: Parts, previous: Option<Parts>, additions: int, deletions: int, changes: int, untouched: bool,
    claimed: seq<string>, classified: Option<seq<string>>, claimedSpecial: seq<string>, derivedSpecial: seq<string>)

  datatype Limits = Limits(files: int, totalLines: int, fileLines: int, patchBytes: int)

  const Shipped := Limits(25, 1000, 500, 262144)

  datatype PathPolicy = PathPolicy(allowed: set<Parts>, denied: set<Parts>, deniedCategories: set<string>, limits: Limits)

  /** The three `Hash` fields say whether the recorded hashes are those of the evidence. */
  datatype DiffInputs = DiffInputs(
    files: seq<File>, count: int, totalLines: int, patchBytes: int, categories: seq<string>, special: seq<string>,
    objectHash: bool, filesHash: bool, diffHash: bool)

  function Min(a: int, b: int): int { if a <= b then a else b }

  function Effective(l: Limits): Limits {
    Limits(Min(l.files, Shipped.files), Min(l.totalLines, Shipped.totalLines),
           Min(l.fileLines, Shipped.fileLines), Min(l.patchBytes, Shipped.patchBytes))
  }

  predicate MatchesAny(glob: Component, patterns: set<Parts>, path: Parts) { exists p :: p in patterns && Walk(glob, p, path) }

  function PathBlocks(glob: Component, p: PathPolicy, path: Parts): set<Block> {
    When(!MatchesAny(glob, p.allowed, path), PathNotAllowed, AtPath(path), "path is outside the host allowlist")
    + When(MatchesAny(glob, p.denied, path), PathDenied, AtPath(path), "path matches a host deny pattern")
  }

  function FileBlocks(glob: Component, p: PathPolicy, f: File): set<Block> {
    PathBlocks(glob, p, f.path) + (if f.previous.Some? then PathBlocks(glob, p, f.previous.value) else {})
  }

  function AllFileBlocks(glob: Component, p: PathPolicy, files: seq<File>): set<Block> {
    if |files| == 0 then {} else AllFileBlocks(glob, p, files[..|files| - 1]) + FileBlocks(glob, p, files[|files| - 1])
  }

  // ---------------------------------------------------------------- classification and totals

  function Elements(s: seq<string>): set<string> { set x | x in s }

  function Claimed(files: seq<File>): set<string> {
    if |files| == 0 then {} else Claimed(files[..|files| - 1]) + Elements(files[|files| - 1].claimed)
  }

  function ClaimedSpecial(files: seq<File>): set<string> {
    if |files| == 0 then {} else ClaimedSpecial(files[..|files| - 1]) + Elements(files[|files| - 1].claimedSpecial)
  }

  function ClassifiedOf(f: File): set<string> { if f.classified.Some? then Elements(f.classified.value) else {} }

  function Derived(files: seq<File>): set<string> {
    if |files| == 0 then {} else Derived(files[..|files| - 1]) + ClassifiedOf(files[|files| - 1])
  }

  function DerivedSpecial(files: seq<File>): set<string> {
    if |files| == 0 then {} else DerivedSpecial(files[..|files| - 1]) + Elements(files[|files| - 1].derivedSpecial)
  }

  function Touched(files: seq<File>): set<string> { Claimed(files) + Derived(files) }

  function Specials(files: seq<File>): set<string> { ClaimedSpecial(files) + DerivedSpecial(files) }

  function Sum(files: seq<File>): int { if |files| == 0 then 0 else Sum(files[..|files| - 1]) + files[|files| - 1].changes }

  /** Python's order on strings. */
  predicate TextLess(a: string, b: string) {
    |b| > 0 && (|a| == 0 || a[0] < b[0] || (a[0] == b[0] && TextLess(a[1..], b[1..])))
  }

  /** Sorted without repetition: each stands before the next. */
  predicate Ascending(s: seq<string>) { forall k :: 0 <= k < |s| - 1 ==> TextLess(s[k], s[k + 1]) }

  lemma {:induction false} TextLessTransitive(a: string, b: string, c: string)
    requires TextLess(a, b) && TextLess(b, c)
    ensures TextLess(a, c)
    decreases |a|
  {
    if |a| > 0 && a[0] == b[0] == c[0] { TextLessTransitive(a[1..], b[1..], c[1..]); }
  }

  lemma {:induction false} TextLessIrreflexive(a: string)
    ensures !TextLess(a, a)
  {
    if |a| > 0 { TextLessIrreflexive(a[1..]); }
  }

  /** `a` ends where `b` goes on, or has the smaller character where they first differ. */
  ghost predicate DiffersAt(a: string, b: string, i: nat) {
    && i <= |a| && i < |b| && (forall k :: 0 <= k < i ==> a[k] == b[k])
    && (i == |a| || a[i] < b[i])
  }

  lemma {:induction false} TextLessExactly(a: string, b: string)
    ensures TextLess(a, b) <==> exists i: nat :: DiffersAt(a, b, i)
    decreases |a|
  {
    if |b| > 0 && (|a| == 0 || a[0] < b[0]) {
      assert DiffersAt(a, b, 0);
    } else if |b| > 0 && a[0] == b[0] {
      TextLessExactly(a[1..], b[1..]);
      if i: nat :| DiffersAt(a[1..], b[1..], i) {
        assert forall k :: 1 <= k < i + 1 ==> a[k] == a[1..][k - 1] && b[k] == b[1..][k - 1];
        assert DiffersAt(a, b, i + 1);
      }
      if i: nat :| DiffersAt(a, b, i) {
        assert i > 0;
        assert forall k :: 0 <= k < i - 1 ==> a[1..][k] == a[k + 1] && b[1..][k] == b[k + 1];
        assert DiffersAt(a[1..], b[1..], i - 1);
      }
    }
  }

  /** Comparing neighbours is enough: an ascending sequence is sorted and repeats nothing. */
  lemma {:induction false} AscendingMeans(s: seq<string>, i: nat, j: nat)
    requires Ascending(s) && i < j < |s|
    ensures TextLess(s[i], s[j]) && s[i] != s[j]
    decreases j
  {
    if i < j - 1 {
      AscendingMeans(s, i, j - 1);
      TextLessTransitive(s[i], s[j - 1], s[j]);
    }
    TextLessIrreflexive(s[i]);
  }

  function Names(files: seq<File>): seq<string> { seq(|files|, k requires 0 <= k < |files| => files[k].name) }

  predicate TotalsAgree(d: DiffInputs) {
    && |d.files| > 0 && Ascending(Names(d.files)) && d.count == |d.files| && d.totalLines == Sum(d.files)
    && forall k :: 0 <= k < |d.files| ==> d.files[k].changes == d.files[k].additions + d.files[k].deletions && !d.files[k].untouched
  }

  /** `sorted(values) == listed`. */
  predicate Lists(values: set<string>, listed: seq<string>) { Ascending(listed) && Elements(listed) == values }

  function ClassifyBlocks(f: File): set<Block> {
    match f.classified
    case None => {Block(DiffDrift, Part("diff.changed_files"), "changed path cannot be classified by the protected policy")}
    case Some(expected) =>
      When(f.claimed != expected, DiffDrift, AtPath(f.path), "protected classification differs from the effective registry")
  }

  function SpecialBlocks(f: File): set<Block> {
    When(f.claimedSpecial != f.derivedSpecial, DiffDrift, AtPath(f.path), "special-file classification differs from controller Git evidence")
  }

  function AllClassifyBlocks(files: seq<File>): set<Block> {
    if |files| == 0 then {} else AllClassifyBlocks(files[..|files| - 1]) + ClassifyBlocks(files[|files| - 1])
  }

  function AllSpecialBlocks(files: seq<File>): set<Block> {
    if |files| == 0 then {} else AllSpecialBlocks(files[..|files| - 1]) + SpecialBlocks(files[|files| - 1])
  }

  /** The blocks for evidence that contradicts itself or what it is derived from. */
  function DriftBlocks(d: DiffInputs): set<Block> {
    When(!d.objectHash, DiffDrift, Part("diff.object_evidence"), "controller Git object evidence hash differs")
    + When(!d.filesHash, DiffDrift, Part("diff.changed_files"), "changed-file hash differs")
    + When(!d.diffHash, DiffDrift, Part("diff"), "diff hash differs")
    + When(!TotalsAgree(d), DiffDrift, Part("diff"), "diff totals or ordering differ")
    + AllClassifyBlocks(d.files) + AllSpecialBlocks(d.files)
    + When(!(Lists(Claimed(d.files), d.categories) && Lists(ClaimedSpecial(d.files), d.special)), DiffDrift, Part("diff"),
           "protected classifications differ")
  }

  predicate OverLimit(l: Limits, d: DiffInputs) {
    || |d.files| > l.files || d.totalLines > l.totalLines || d.patchBytes > l.patchBytes
    || exists k :: 0 <= k < |d.files| && d.files[k].changes > l.fileLines
  }

  function DiffBlocks(glob: Component, p: PathPolicy, d: DiffInputs): set<Block> {
    DriftBlocks(d)
    + When(Touched(d.files) != {} || Specials(d.files) != {}, ProtectedSurface, Part("diff"), "diff touches a protected or special surface")
    + When(p.deniedCategories * Touched(d.files) != {}, ProtectedSurface, Part("diff.protected_categories"), "host-denied category is present")
    + AllFileBlocks(glob, p, d.files)
    + When(OverLimit(Effective(p.limits), d), DiffLimitExceeded, Part("diff"), "effective diff ceiling is exceeded")
  }

  method AddPath(glob: Component, p: PathPolicy, path: Parts, blocks: Blocks)
    requires blocks.Valid()
    modifies blocks
    ensures blocks.Valid() && blocks.seen == old(blocks.seen) + PathBlocks(glob, p, path)
  {
    blocks.AddWhen(!MatchesAny(glob, p.allowed, path), PathNotAllowed, AtPath(path), "path is outside the host allowlist");
    blocks.AddWhen(MatchesAny(glob, p.denied, path), PathDenied, AtPath(path), "path matches a host deny pattern");
  }

  method AddFiles(glob: Component, p: PathPolicy, files: seq<File>, blocks: Blocks)
    requires blocks.Valid()
    modifies blocks
    ensures blocks.Valid() && blocks.seen == old(blocks.seen) + AllFileBlocks(glob, p, files)
  {
    for k := 0 to |files|
      invariant blocks.Valid() && blocks.seen == old(blocks.seen) + AllFileBlocks(glob, p, files[..k])
    {
      assert files[..k + 1][..k] == files[..k];
      hide PathBlocks;
      AddPath(glob, p, files[k].path, blocks);
      if files[k].previous.Some? { AddPath(glob, p, files[k].previous.value, blocks); }
    }
    assert files[..|files|] == files;
  }

  method ClassifyOne(f: File, blocks: Blocks)
    requires blocks.Valid()
    modifies blocks
    ensures blocks.Valid() && blocks.seen == old(blocks.seen) + ClassifyBlocks(f)
  {
    if f.classified.None? {
      blocks.Add(DiffDrift, Part("diff.changed_files"), "changed path cannot be classified by the protected policy");
    } else {
      blocks.AddWhen(f.claimed != f.classified.value, DiffDrift, AtPath(f.path), "protected classification differs from the effective registry");
    }
  }

  /** The first loop over files: what is claimed, what the registry derives, and where they differ. */
  method Classify(files: seq<File>, blocks: Blocks) returns (claimed: set<string>, derived: set<string>)
    requires blocks.Valid()
    modifies blocks
    ensures blocks.Valid() && blocks.seen == old(blocks.seen) + AllClassifyBlocks(files)
    ensures claimed == Claimed(files) && derived == Derived(files)
  {
    claimed, derived := {}, {};
    hide Elements, When, ClassifyBlocks, ClassifiedOf;
    for k := 0 to |files|
      invariant blocks.Valid() && blocks.seen == old(blocks.seen) + AllClassifyBlocks(files[..k])
      invariant claimed == Claimed(files[..k]) && derived == Derived(files[..k])
    {
      assert files[..k + 1][..k] == files[..k];
      ClassifyOne(files[k], blocks);
      claimed, derived := claimed + Elements(files[k].claimed), derived + ClassifiedOf(files[k]);
    }
    assert files[..|files|] == files;
  }

  /** The second one, over special files. */
  method ClassifySpecial(files: seq<File>, blocks: Blocks) returns (claimed: set<string>, derived: set<string>)
    requires blocks.Valid()
    modifies blocks
    ensures blocks.Valid() && blocks.seen == old(blocks.seen) + AllSpecialBlocks(files)
    ensures claimed == ClaimedSpecial(files) && derived == DerivedSpecial(files)
  {
    claimed, derived := {}, {};
    for k := 0 to |files|
      invariant blocks.Valid() && blocks.seen == old(blocks.seen) + AllSpecialBlocks(files[..k])
      invariant claimed == ClaimedSpecial(files[..k]) && derived == DerivedSpecial(files[..k])
    {
      assert files[..k + 1][..k] == files[..k];
      hide Elements, When;
      var f := files[k];
      claimed, derived := claimed + Elements(f.claimedSpecial), derived + Elements(f.derivedSpecial);
      blocks.AddWhen(f.claimedSpecial != f.derivedSpecial, DiffDrift, AtPath(f.path), "special-file classification differs from controller Git evidence");
    }
    assert files[..|files|] == files;
  }

  method Total(files: seq<File>) returns (total: int)
    ensures total == Sum(files)
  {
    total := 0;
    for k := 0 to |files|
      invariant total == Sum(files[..k])
    {
      assert files[..k + 1][..k] == files[..k];
      total := total + files[k].changes;
    }
    assert files[..|files|] == files;
  }

  /** The hashes and totals that open `_diff`. */
  method AddTotals(d: DiffInputs, blocks: Blocks)
    requires blocks.Valid()
    modifies blocks
    ensures blocks.Valid()
    ensures blocks.seen == old(blocks.seen)
              + When(!d.objectHash, DiffDrift, Part("diff.object_evidence"), "controller Git object evidence hash differs")
              + When(!d.filesHash, DiffDrift, Part("diff.changed_files"), "changed-file hash differs")
              + When(!d.diffHash, DiffDrift, Part("diff"), "diff hash differs")
              + When(!TotalsAgree(d), DiffDrift, Part("diff"), "diff totals or ordering differ")
  {
    hide When, Ascending, Names;
    blocks.AddWhen(!d.objectHash, DiffDrift, Part("diff.object_evidence"), "controller Git object evidence hash differs");
    blocks.AddWhen(!d.filesHash, DiffDrift, Part("diff.changed_files"), "changed-file hash differs");
    blocks.AddWhen(!d.diffHash, DiffDrift, Part("diff"), "diff hash differs");
    var total := Total(d.files);
    blocks.AddWhen(|d.files| == 0 || !Ascending(Names(d.files)) || d.count != |d.files| || d.totalLines != total
                   || (exists k :: 0 <= k < |d.files| && (d.files[k].changes != d.files[k].additions + d.files[k].deletions || d.files[k].untouched)),
                   DiffDrift, Part("diff"), "diff totals or ordering differ");
  }

  /** `_diff`. */
  method EvaluateDiff(glob: Component, p: PathPolicy, d: DiffInputs, blocks: Blocks)
    requires blocks.Valid()
    modifies blocks
    ensures blocks.Valid() && blocks.seen == old(blocks.seen) + DiffBlocks(glob, p, d)
  {
    hide AllFileBlocks, AllClassifyBlocks, AllSpecialBlocks, Claimed, Derived, ClaimedSpecial, DerivedSpecial, When, Lists, TotalsAgree,
         DiffBlocks, OverLimit;
    AddTotals(d, blocks);
    var claimed, derived := Classify(d.files, blocks);
    var claimedSpecial, derivedSpecial := ClassifySpecial(d.files, blocks);
    blocks.AddWhen(!(Lists(claimed, d.categories) && Lists(claimedSpecial, d.special)), DiffDrift, Part("diff"), "protected classifications differ");
    var categories, special := claimed + derived, claimedSpecial + derivedSpecial;
    blocks.AddWhen(categories != {} || special != {}, ProtectedSurface, Part("diff"), "diff touches a protected or special surface");
    blocks.AddWhen(p.deniedCategories * categories != {}, ProtectedSurface, Part("diff.protected_categories"), "host-denied category is present");
    AddFiles(glob, p, d.files, blocks);
    blocks.AddWhen(OverLimit(Effective(p.limits), d), DiffLimitExceeded, Part("diff"), "effective diff ceiling is exceeded");
    DiffBlocksAdd(glob, p, d, old(blocks.seen));
  }

  lemma DiffBlocksAdd(glob: Component, p: PathPolicy, d: DiffInputs, start: set<Block>)
    ensures start + DiffBlocks(glob, p, d)
            == start
               + When(!d.objectHash, DiffDrift, Part("diff.object_evidence"), "controller Git object evidence hash differs")
               + When(!d.filesHash, DiffDrift, Part("diff.changed_files"), "changed-file hash differs")
               + When(!d.diffHash, DiffDrift, Part("diff"), "diff hash differs")
               + When(!TotalsAgree(d), DiffDrift, Part("diff"), "diff totals or ordering differ")
               + AllClassifyBlocks(d.files) + AllSpecialBlocks(d.files)
               + When(!(Lists(Claimed(d.files), d.categories) && Lists(ClaimedSpecial(d.files), d.special)), DiffDrift, Part("diff"),
                      "protected classifications differ")
               + When(Touched(d.files) != {} || Specials(d.files) != {}, ProtectedSurface, Part("diff"), "diff touches a protected or special surface")
               + When(p.deniedCategories * Touched(d.files) != {}, ProtectedSurface, Part("diff.protected_categories"), "host-denied category is present")
               + AllFileBlocks(glob, p, d.files)
               + When(OverLimit(Effective(p.limits), d), DiffLimitExceeded, Part("diff"), "effective diff ceiling is exceeded")
  {
    hide When, AllClassifyBlocks, AllSpecialBlocks, AllFileBlocks, Touched, Specials, Lists, TotalsAgree, OverLimit, Claimed, ClaimedSpecial, DriftBlocks;
    DriftBlocksAdd(d, start);
  }

  lemma DriftBlocksAdd(d: DiffInputs, start: set<Block>)
    ensures start + DriftBlocks(d)
            == start
               + When(!d.objectHash, DiffDrift, Part("diff.object_evidence"), "controller Git object evidence hash differs")
               + When(!d.filesHash, DiffDrift, Part("diff.changed_files"), "changed-file hash differs")
               + When(!d.diffHash, DiffDrift, Part("diff"), "diff hash differs")
               + When(!TotalsAgree(d), DiffDrift, Part("diff"), "diff totals or ordering differ")
               + AllClassifyBlocks(d.files) + AllSpecialBlocks(d.files)
               + When(!(Lists(Claimed(d.files), d.categories) && Lists(ClaimedSpecial(d.files), d.special)), DiffDrift, Part("diff"),
                      "protected classifications differ")
  {
    hide When, AllClassifyBlocks, AllSpecialBlocks, Lists, TotalsAgree, Claimed, ClaimedSpecial;
  }

  // ---------------------------------------------------------------- what no block means

  lemma {:induction false} NoFileBlock(glob: Component, p: PathPolicy, files: seq<File>)
    ensures AllFileBlocks(glob, p, files) == {} <==>
              forall k :: 0 <= k < |files| ==> FileBlocks(glob, p, files[k]) == {}
    decreases |files|
  {
    hide FileBlocks;
    if |files| > 0 {
      var earlier := files[..|files| - 1];
      NoFileBlock(glob, p, earlier);
      assert forall k :: 0 <= k < |files| - 1 ==> earlier[k] == files[k];
    }
  }

  /** A path passes if the policy allows it and does not deny it. */
  ghost predicate PathOk(glob: Component, p: PathPolicy, path: Parts) { MatchesAny(glob, p.allowed, path) && !MatchesAny(glob, p.denied, path) }

  ghost predicate FileOk(glob: Component, p: PathPolicy, f: File) {
    PathOk(glob, p, f.path) && (f.previous.Some? ==> PathOk(glob, p, f.previous.value))
  }

  lemma FileOkExactly(glob: Component, p: PathPolicy, f: File)
    ensures FileBlocks(glob, p, f) == {} <==> FileOk(glob, p, f)
  {
    hide MatchesAny;
  }

  ghost predicate WithinShipped(d: DiffInputs) {
    && |d.files| <= Shipped.files && d.totalLines <= Shipped.totalLines && d.patchBytes <= Shipped.patchBytes
    && forall k :: 0 <= k < |d.files| ==> d.files[k].changes <= Shipped.fileLines
  }

  /** Nothing is claimed or derived for the file, and nothing was refused. */
  ghost predicate Unprotected(f: File) {
    f.claimed == [] && f.classified == Some([]) && f.claimedSpecial == [] && f.derivedSpecial == []
  }

  lemma ElementsEmpty(s: seq<string>)
    ensures Elements(s) == {} <==> s == []
  {
    if |s| > 0 { assert s[0] in Elements(s); }
  }

  lemma {:induction false} NothingTouched(files: seq<File>)
    ensures Touched(files) == {} && Specials(files) == {} && AllClassifyBlocks(files) == {} && AllSpecialBlocks(files) == {}
            <==> forall k :: 0 <= k < |files| ==> Unprotected(files[k])
    decreases |files|
  {
    if |files| > 0 {
      var earlier, f := files[..|files| - 1], files[|files| - 1];
      NothingTouched(earlier);
      assert forall k :: 0 <= k < |files| - 1 ==> earlier[k] == files[k];
      FileUntouched(f);
      hide Elements, ClassifyBlocks, SpecialBlocks, Unprotected, ClassifiedOf;
    }
  }

  lemma FileUntouched(f: File)
    ensures Unprotected(f) <==>
              && Elements(f.claimed) == {} && ClassifiedOf(f) == {} && Elements(f.claimedSpecial) == {} && Elements(f.derivedSpecial) == {}
              && ClassifyBlocks(f) == {} && SpecialBlocks(f) == {}
  {
    ElementsEmpty(f.claimed);
    ElementsEmpty(f.claimedSpecial);
    ElementsEmpty(f.derivedSpecial);
    if f.classified.Some? { ElementsEmpty(f.classified.value); }
  }

  lemma NothingListed(values: set<string>, listed: seq<string>)
    requires values == {}
    ensures Lists(values, listed) <==> listed == []
  {
    ElementsEmpty(listed);
  }

  ghost predicate FilesOk(glob: Component, p: PathPolicy, files: seq<File>) {
    forall k :: 0 <= k < |files| ==> Unprotected(files[k]) && FileOk(glob, p, files[k])
  }

  /**
    The diff passes exactly when its hashes, totals and order agree, neither the evidence nor the registry
    classifies any file as protected or special, every path passes, and both the policy's and the shipped
    limits hold.
  */
  lemma DiffOkExactly(glob: Component, p: PathPolicy, d: DiffInputs)
    ensures DiffBlocks(glob, p, d) == {} <==>
              && d.objectHash && d.filesHash && d.diffHash && TotalsAgree(d) && d.categories == [] && d.special == []
              && FilesOk(glob, p, d.files) && !OverLimit(p.limits, d) && WithinShipped(d)
  {
    hide When, FileBlocks, FileOk, AllFileBlocks, AllClassifyBlocks, AllSpecialBlocks, Claimed, Derived, ClaimedSpecial, DerivedSpecial,
         Unprotected, TotalsAgree, OverLimit, WithinShipped, Lists;
    NothingTouched(d.files);
    NoFileBlock(glob, p, d.files);
    forall k | 0 <= k < |d.files|
      ensures FileBlocks(glob, p, d.files[k]) == {} <==> FileOk(glob, p, d.files[k])
    {
      FileOkExactly(glob, p, d.files[k]);
    }
    LimitsExactly(p.limits, d);
    if Touched(d.files) == {} && Specials(d.files) == {} {
      NothingListed(Claimed(d.files), d.categories);
      NothingListed(ClaimedSpecial(d.files), d.special);
    }
  }

  lemma LimitsExactly(l: Limits, d: DiffInputs)
    ensures !OverLimit(Effective(l), d) <==> !OverLimit(l, d) && WithinShipped(d)
  {}
}
