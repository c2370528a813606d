/**
  What repairing generated regions keeps: the text outside, the other regions, the last repair, and
  the order of two different repairs does not matter (pathfinder_core/rendering.py).
*/
module RegionLaws {
  import opened Wrappers
  import opened MarkdownBlocks
  import opened GeneratedRegions

  // ---------------------------------------------------------------- text before a line start

  lemma MarkerBefore(d1: string, d2: string, s: nat, p: nat, tag: Tag)
    requires p < s <= |d1| && s <= |d2| && d1[..s] == d2[..s] && LineStart(d1, s) && MarkerAt(d1, p, tag)
    ensures MarkerAt(d2, p, tag)
  {
    TagTextIsPlain(tag);
    hide TagText, ValidTag;
    var text := TagText(tag);
    var q := p + |text|;
    assert forall i {:trigger d1[i]} :: p <= i < q ==> d1[i] == d1[p..q][i - p] == text[i - p];
    assert forall i {:trigger d1[i]} {:trigger d2[i]} :: 0 <= i < s ==> d1[i] == d1[..s][i] == d2[..s][i] == d2[i];
    assert q < s;
    assert d2[p..q] == d1[p..q];
  }

  lemma MatchBefore(d1: string, d2: string, s: nat, p: nat)
    requires p < s <= |d1| && s <= |d2| && d1[..s] == d2[..s] && LineStart(d1, s)
    ensures MatchAt(d1, p) == MatchAt(d2, p)
  {
    hide MatchAt, MarkerAt;
    assert d1[s - 1] == d1[..s][s - 1] == d2[..s][s - 1] == d2[s - 1];
    if MatchAt(d1, p).Some? {
      var tag := MatchAt(d1, p).value.tag;
      MatchExactly(d1, p, tag);
      MarkerBefore(d1, d2, s, p, tag);
      MatchExactly(d2, p, tag);
    } else if MatchAt(d2, p).Some? {
      var tag := MatchAt(d2, p).value.tag;
      MatchExactly(d2, p, tag);
      MarkerBefore(d2, d1, s, p, tag);
      MatchExactly(d1, p, tag);
    }
  }

  lemma PrefixBefore(d1: string, d2: string, s: nat, p: nat)
    requires p < s <= |d1| && s <= |d2| && d1[..s] == d2[..s] && LineStart(d1, s) && PrefixAt(d2, p)
    ensures PrefixAt(d1, p)
  {
    PrefixIsPlain();
    hide Prefix;
    var q := p + |Prefix()|;
    assert forall i {:trigger d2[i]} :: p <= i < q ==> d2[i] == d2[p..q][i - p] == Prefix()[i - p];
    assert forall i {:trigger d1[i]} {:trigger d2[i]} :: 0 <= i < s ==> d1[i] == d1[..s][i] == d2[..s][i] == d2[i];
    assert q < s;
    assert d1[p..q] == d2[p..q];
  }

  // ---------------------------------------------------------------- text after a line's last marker

  lemma SliceAfter(d1: string, e1: nat, d2: string, e2: nat, p: nat, n: nat)
    requires e1 <= p && p + n <= |d1| && e2 <= |d2| && d1[e1..] == d2[e2..]
    ensures p - e1 + e2 + n <= |d2| && d1[p..p + n] == d2[p - e1 + e2..p - e1 + e2 + n]
  {
    var tail, i := d1[e1..], p - e1;
    assert |tail| == |d1| - e1 == |d2| - e2;
    assert d1[p..p + n] == tail[i..i + n];
    assert d2[i + e2..i + e2 + n] == tail[i..i + n];
  }

  lemma MarkerAfter(d1: string, e1: nat, d2: string, e2: nat, p: nat, tag: Tag)
    requires e1 <= p <= |d1| && e2 <= |d2| && d1[e1..] == d2[e2..] && !LineStart(d1, e1) && MarkerAt(d1, p, tag)
    ensures p - e1 + e2 <= |d2| && MarkerAt(d2, p - e1 + e2, tag)
  {
    hide TagText, ValidTag;
    var text, q := TagText(tag), p - e1 + e2;
    assert |d1| - e1 == |d2| - e2;
    SliceAfter(d1, e1, d2, e2, p, |text|);
    assert forall i {:trigger d1[i]} :: e1 <= i < |d1| ==> d1[i] == d1[e1..][i - e1] == d2[e2..][i - e1] == d2[i - e1 + e2];
  }

  lemma MatchAfter(d1: string, e1: nat, d2: string, e2: nat, p: nat)
    requires e1 <= p <= |d1| && e2 <= |d2| && d1[e1..] == d2[e2..] && !LineStart(d1, e1) && !LineStart(d2, e2)
    ensures 0 <= p + (e2 - e1) <= |d2| && SameMatch(MatchAt(d1, p), MatchAt(d2, p + (e2 - e1)), e2 - e1)
  {
    hide MatchAt, MarkerAt, LineStart, TagText;
    assert |d1| - e1 == |d2| - e2;
    var q := p + (e2 - e1);
    if MatchAt(d1, p).Some? {
      var tag := MatchAt(d1, p).value.tag;
      MatchExactly(d1, p, tag);
      MarkerAfter(d1, e1, d2, e2, p, tag);
      MatchExactly(d2, q, tag);
      MatchSpan(d1, p);
    } else if MatchAt(d2, q).Some? {
      var tag := MatchAt(d2, q).value.tag;
      MatchExactly(d2, q, tag);
      MarkerAfter(d2, e2, d1, e1, q, tag);
      MatchExactly(d1, p, tag);
    }
  }

  lemma PrefixAfter(d1: string, e1: nat, d2: string, e2: nat, p: nat)
    requires e1 <= p <= |d1| && e2 <= |d2| && d1[e1..] == d2[e2..] && PrefixAt(d1, p)
    ensures p - e1 + e2 <= |d2| && PrefixAt(d2, p - e1 + e2)
  {
    hide Prefix;
    var n := |Prefix()|;
    assert |d1| - e1 == |d2| - e2;
    SliceAfter(d1, e1, d2, e2, p, n);
  }

  // ---------------------------------------------------------------- inside a block

  ghost predicate Standalone(doc: string, s: nat, block: string) {
    TextAt(doc, s, block) && LineStart(doc, s) && LineEndsAt(doc, s + |block|)
  }

  function BeginOf(name: string, version: string, s: nat): Marker {
    var tag := Tag(name, version, Begin);
    Marker(tag, s, s + |TagText(tag)|)
  }

  function EndOf(name: string, version: string, e: nat): Marker
    requires e >= |TagText(Tag(name, version, End))|
  {
    var tag := Tag(name, version, End);
    Marker(tag, e - |TagText(tag)|, e)
  }

  lemma BlockBegins(doc: string, s: nat, block: string, name: string, version: string, body: string)
    requires Standalone(doc, s, block) && IsBlock(block, name, version, body) && ValidName(name) && ValidVersion(version)
    ensures MatchAt(doc, s) == Some(BeginOf(name, version, s))
  {
    hide TagText, ValidName, ValidVersion, Standalone, MatchAt;
    var tag := Tag(name, version, Begin);
    var text := TagText(tag);
    assert block[..|text|] == text && block[|text|] == '\n';
    StandsFirst(doc, s, block, text);
    MatchExactly(doc, s, tag);
  }

  lemma StandsFirst(doc: string, s: nat, block: string, text: string)
    requires Standalone(doc, s, block) && |text| < |block| && block[..|text|] == text && block[|text|] == '\n'
    ensures TextAt(doc, s, text) && LineStart(doc, s) && LineEndsAt(doc, s + |text|)
  {
    assert doc[s..s + |text|] == doc[s..s + |block|][..|text|];
    assert doc[s + |text|] == doc[s..s + |block|][|text|];
  }

  lemma StandsLast(doc: string, s: nat, block: string, text: string)
    requires Standalone(doc, s, block) && |text| < |block| && block[|block| - |text|..] == text && block[|block| - |text| - 1] == '\n'
    ensures var p := s + |block| - |text|; TextAt(doc, p, text) && LineStart(doc, p) && LineEndsAt(doc, p + |text|)
  {
    var n := |block| - |text|;
    assert doc[s + n..s + |block|] == doc[s..s + |block|][n..];
    assert doc[s + n - 1] == doc[s..s + |block|][n - 1];
  }

  lemma BlockEnds(doc: string, s: nat, block: string, name: string, version: string, body: string)
    requires Standalone(doc, s, block) && IsBlock(block, name, version, body) && ValidName(name) && ValidVersion(version)
    ensures s + |block| - |TagText(Tag(name, version, End))| > s
    ensures MatchAt(doc, s + |block| - |TagText(Tag(name, version, End))|) == Some(EndOf(name, version, s + |block|))
  {
    hide TagText, ValidName, ValidVersion, Standalone, MatchAt;
    var tag := Tag(name, version, End);
    var text := TagText(tag);
    assert block[|block| - |text|..] == text && block[|block| - |text| - 1] == '\n';
    StandsLast(doc, s, block, text);
    MatchExactly(doc, s + |block| - |text|, tag);
  }

  lemma BlockHoldsNoOther(block: string, name: string, version: string, body: string, i: nat)
    requires IsBlock(block, name, version, body) && ValidName(name) && ValidVersion(version)
    requires 0 < i < |block| && i != |block| - |TagText(Tag(name, version, End))|
    ensures block[i] != '<'
  {
    var b, e := TagText(Tag(name, version, Begin)), TagText(Tag(name, version, End));
    TagTextIsPlain(Tag(name, version, Begin));
    TagTextIsPlain(Tag(name, version, End));
    hide TagText, ValidName, ValidVersion;
    if i < |b| {
      assert block[i] == b[i];
    } else if i == |b| {
      assert block[i] == '\n';
    } else if i < |b| + 1 + |body| {
      assert block[i] == body[i - |b| - 1];
    } else if i == |b| + 1 + |body| {
      assert block[i] == '\n';
    } else {
      assert block[i] == e[i - |b| - |body| - 2];
    }
  }

  lemma NothingBetween(doc: string, s: nat, block: string, name: string, version: string, body: string, p: nat)
    requires Standalone(doc, s, block) && IsBlock(block, name, version, body) && ValidName(name) && ValidVersion(version)
    requires s < p < s + |block| && p != s + |block| - |TagText(Tag(name, version, End))|
    ensures MatchAt(doc, p).None? && !PrefixAt(doc, p)
  {
    BlockHoldsNoOther(block, name, version, body, p - s);
    assert doc[p] == doc[s..s + |block|][p - s];
    if MatchAt(doc, p).Some? { MatchHasPrefix(doc, p); }
    if PrefixAt(doc, p) { PrefixOpens(doc, p); }
  }

  /** A block alone on its lines contributes exactly its own two markers. */
  lemma BlockMarkers(doc: string, s: nat, block: string, name: string, version: string, body: string)
    requires Standalone(doc, s, block) && IsBlock(block, name, version, body) && ValidName(name) && ValidVersion(version)
    ensures s + |block| >= |TagText(Tag(name, version, End))|
    ensures MarkersIn(doc, s, s + |block|) == [BeginOf(name, version, s), EndOf(name, version, s + |block|)]
    ensures forall p :: s <= p < s + |block| && PrefixAt(doc, p) ==> MatchAt(doc, p).Some?
  {
    hide IsBlock, Standalone, MatchAt, PrefixAt, TagText, ValidName, ValidVersion;
    BlockBegins(doc, s, block, name, version, body);
    BlockEnds(doc, s, block, name, version, body);
    var m, n := s + |block| - |TagText(Tag(name, version, End))|, s + |block|;
    assert m < n <= |doc| by { BlockFits(doc, s, block, name, version); }
    forall p | s < p < n && p != m ensures MatchAt(doc, p).None? && !PrefixAt(doc, p) {
      NothingBetween(doc, s, block, name, version, body, p);
    }
    NoMarkersIn(doc, s + 1, m);
    NoMarkersIn(doc, m + 1, n);
    MarkersSplit(doc, s + 1, m, n);
  }

  lemma BlockFits(doc: string, s: nat, block: string, name: string, version: string)
    requires Standalone(doc, s, block)
    ensures s + |block| <= |doc| && |TagText(Tag(name, version, End))| > 0
  {
  }

  // ---------------------------------------------------------------- one region replaced

  /** `after` is `doc` with region `t` replaced by a block of the same name and version. */
  ghost predicate Rewrites(doc: string, t: nat, block: string, after: string) {
    && WellMarked(doc) && t < |Regions(doc)| && Regions(doc)[t].start <= Regions(doc)[t].end <= |doc|
    && after == Spliced(doc, Regions(doc)[t].start, Regions(doc)[t].end, block)
    && exists body :: IsBlock(block, Regions(doc)[t].name, Regions(doc)[t].version, body)
  }

  ghost function ShiftOf(doc: string, t: nat, block: string): int
    requires t < |Regions(doc)|
  {
    |block| - (Regions(doc)[t].end - Regions(doc)[t].start)
  }

  lemma RewrittenParts(doc: string, t: nat, block: string, after: string)
    requires Rewrites(doc, t, block, after)
    ensures var r := Regions(doc)[t];
            && r.start + |block| <= |after| && after[..r.start] == doc[..r.start] && after[r.start + |block|..] == doc[r.end..]
            && RegionHolds(doc, r) && Standalone(after, r.start, block) && !LineStart(after, r.start + |block|)
  {
    RegionsHold(doc, t);
    hide WellMarked, Regions, TextAt;
    var r := Regions(doc)[t];
    var body :| IsBlock(block, r.name, r.version, body);
    assert after == doc[..r.start] + block + doc[r.end..];
    BlockStandsAlone(doc, r, block, body, after);
  }

  lemma BlockStandsAlone(doc: string, r: Region, block: string, body: string, after: string)
    requires RegionHolds(doc, r) && IsBlock(block, r.name, r.version, body) && after == doc[..r.start] + block + doc[r.end..]
    ensures Standalone(after, r.start, block) && !LineStart(after, r.start + |block|)
  {
    var end := Tag(r.name, r.version, End);
    TagTextIsPlain(end);
    hide TagText, ValidName, ValidVersion;
    var e := r.start + |block|;
    assert after[r.start..e] == block && after[e..] == doc[r.end..] && |after| - e == |doc| - r.end;
    assert r.start > 0 ==> after[r.start - 1] == doc[r.start - 1];
    assert forall i {:trigger doc[i]} :: r.end <= i < |doc| ==> doc[i] == after[i - r.end + e];
    assert after[e - 1] == block[|block| - 1] == TagText(end)[|TagText(end)| - 1];
  }

  /** The block's two markers stand where the region's stood. */
  lemma RewrittenBlock(doc: string, t: nat, block: string, after: string)
    requires Rewrites(doc, t, block, after)
    ensures var r, e := Regions(doc)[t], Regions(doc)[t].start + |block|;
            && e <= |after| && e >= |TagText(Tag(r.name, r.version, End))|
            && MarkersIn(after, r.start, e) == [BeginOf(r.name, r.version, r.start), EndOf(r.name, r.version, e)]
  {
    RewrittenParts(doc, t, block, after);
    hide IsBlock, Standalone, WellMarked, Regions, TagText, MatchAt, PrefixAt, ValidName, ValidVersion, MarkersIn;
    var r := Regions(doc)[t];
    var body :| IsBlock(block, r.name, r.version, body);
    BlockMarkers(after, r.start, block, r.name, r.version, body);
  }

  lemma RewrittenBlockIsMarked(doc: string, t: nat, block: string, after: string)
    requires Rewrites(doc, t, block, after)
    ensures forall p :: Regions(doc)[t].start <= p < Regions(doc)[t].start + |block| && PrefixAt(after, p) ==> p <= |after| && MatchAt(after, p).Some?
  {
    RewrittenParts(doc, t, block, after);
    hide IsBlock, Standalone, WellMarked, Regions, TagText, MatchAt, PrefixAt, ValidName, ValidVersion, MarkersIn;
    var r := Regions(doc)[t];
    var body :| IsBlock(block, r.name, r.version, body);
    BlockMarkers(after, r.start, block, r.name, r.version, body);
  }

  /** The other markers stand where they stood, those after the block moved with the text. */
  lemma RewrittenAround(doc: string, t: nat, block: string, after: string)
    requires Rewrites(doc, t, block, after)
    ensures var r, e := Regions(doc)[t], Regions(doc)[t].start + |block|;
            && r.end <= |doc| && e <= |after|
            && MarkersIn(after, 0, r.start) == MarkersIn(doc, 0, r.start)
            && AllMoved(MarkersIn(doc, r.end, |doc|), MarkersIn(after, e, |after|), ShiftOf(doc, t, block))
  {
    RewrittenParts(doc, t, block, after);
    hide Standalone, WellMarked, Regions, TextAt, ValidName, ValidVersion, MarkersIn, Rewrites;
    var r, e := Regions(doc)[t], Regions(doc)[t].start + |block|;
    MarkersBefore(doc, after, r.start);
    MarkersAfter(doc, r.end, after, e);
  }

  lemma RewrittenIsMarked(doc: string, t: nat, block: string, after: string)
    requires Rewrites(doc, t, block, after)
    ensures AllMarked(after, 0)
  {
    RewrittenParts(doc, t, block, after);
    RewrittenBlockIsMarked(doc, t, block, after);
    assert AllMarked(doc, 0);
    hide Standalone, WellMarked, Regions, TextAt, ValidName, ValidVersion, MarkersIn, Rewrites, AllMarked, TagText, PrefixAt, MatchAt, LineStart;
    var r, e := Regions(doc)[t], Regions(doc)[t].start + |block|;
    MarkedAround(doc, r.start, r.end, after, e);
  }

  lemma MarkersBefore(d1: string, d2: string, s: nat)
    requires s <= |d1| && s <= |d2| && d1[..s] == d2[..s] && LineStart(d1, s)
    ensures MarkersIn(d2, 0, s) == MarkersIn(d1, 0, s)
  {
    forall p | 0 <= p < s ensures SameMatch(MatchAt(d1, p), MatchAt(d2, p), 0) { MatchBefore(d1, d2, s, p); }
    MarkersMove(d1, 0, s, d2, 0);
  }

  lemma MarkersAfter(d1: string, e1: nat, d2: string, e2: nat)
    requires e1 <= |d1| && e2 <= |d2| && d1[e1..] == d2[e2..] && !LineStart(d1, e1) && !LineStart(d2, e2)
    ensures AllMoved(MarkersIn(d1, e1, |d1|), MarkersIn(d2, e2, |d2|), e2 - e1)
  {
    hide MatchAt, LineStart;
    assert |d1| - e1 == |d2| - e2;
    forall p | e1 <= p < |d1| ensures SameMatch(MatchAt(d1, p), MatchAt(d2, p + (e2 - e1)), e2 - e1) { MatchAfter(d1, e1, d2, e2, p); }
    MarkersMove(d1, e1, |d1|, d2, e2 - e1);
  }

  lemma MarkedAround(doc: string, s: nat, e: nat, after: string, e2: nat)
    requires s <= e <= |doc| && s <= e2 <= |after| && AllMarked(doc, 0) && LineStart(doc, s)
    requires after[..s] == doc[..s] && after[e2..] == doc[e..] && !LineStart(doc, e) && !LineStart(after, e2)
    requires forall p :: s <= p < e2 && PrefixAt(after, p) ==> MatchAt(after, p).Some?
    ensures AllMarked(after, 0)
  {
    hide MatchAt, PrefixAt, LineStart;
    forall p | 0 <= p <= |after| && PrefixAt(after, p) ensures MatchAt(after, p).Some? {
      if p < s {
        PrefixBefore(doc, after, s, p);
        MatchBefore(doc, after, s, p);
      } else if p >= e2 {
        PrefixAfter(after, e2, doc, e, p);
        MatchAfter(after, e2, doc, e, p);
      }
    }
  }

  // ---------------------------------------------------------------- regions of a rewritten document

  /** Region `t`'s two markers are the only ones between its ends. */
  lemma MarkersAround(doc: string, t: nat)
    requires Paired(Markers(doc)) && t < |Regions(doc)|
    ensures RegionHolds(doc, Regions(doc)[t])
    ensures MarkersIn(doc, 0, Regions(doc)[t].start) == Markers(doc)[..2 * t]
    ensures MarkersIn(doc, Regions(doc)[t].end, |doc|) == Markers(doc)[2 * t + 2..]
  {
    RegionsHold(doc, t);
    hide RegionHolds, Paired, MatchAt, MarkersIn, InOrder, SplitsAt;
    var ms := Markers(doc);
    MarkersInOrder(doc, 0, |doc|);
    SplitsAtBegin(doc, ms, 2 * t);
    SplitsAtEnd(doc, ms, 2 * t + 1);
    CutAt(doc, ms[2 * t].start, 2 * t);
    CutAt(doc, ms[2 * t + 1].end, 2 * t + 2);
  }

  ghost predicate SplitsAt(ms: seq<Marker>, p: nat, k: nat) {
    forall i :: 0 <= i < |ms| ==> (ms[i].start < p <==> i < k)
  }

  /** Cutting the document at a position cuts its markers where they start there or later. */
  lemma CutAt(doc: string, p: nat, k: nat)
    requires p <= |doc| && k <= |Markers(doc)|
    requires SplitsAt(Markers(doc), p, k)
    ensures MarkersIn(doc, 0, p) == Markers(doc)[..k] && MarkersIn(doc, p, |doc|) == Markers(doc)[k..]
  {
    MarkersSplit(doc, 0, p, |doc|);
    MarkersInOrder(doc, 0, p);
    MarkersInOrder(doc, p, |doc|);
    hide MarkersIn, MatchAt;
    var ms, a := Markers(doc), MarkersIn(doc, 0, p);
    assert k < |ms| ==> (ms[k].start < p <==> k < |a|);
    assert |a| < |ms| ==> ms[|a|].start >= p;
  }

  lemma SplitsAtBegin(doc: string, ms: seq<Marker>, i: nat)
    requires InOrder(doc, ms, 0, |doc|) && i < |ms|
    ensures ms[i].start <= |doc| && SplitsAt(ms, ms[i].start, i)
  {
    assert MatchedIn(doc, ms[i], 0, |doc|);
    hide Matched, MatchedIn, Ascending;
    forall k | 0 <= k < |ms| ensures ms[k].start < ms[i].start <==> k < i { AscendingAt(ms, k, i); }
  }

  lemma SplitsAtEnd(doc: string, ms: seq<Marker>, i: nat)
    requires InOrder(doc, ms, 0, |doc|) && i < |ms|
    ensures ms[i].end <= |doc| && SplitsAt(ms, ms[i].end, i + 1)
  {
    hide Matched, Ascending;
    LaterStarts(doc, ms, i);
    forall k | 0 <= k < |ms| ensures ms[k].start < ms[i].end <==> k < i + 1 { AscendingAt(ms, k, i); }
  }

  lemma AscendingAt(ms: seq<Marker>, k: nat, i: nat)
    requires Ascending(ms) && k < |ms| && i < |ms|
    ensures ms[k].start < ms[i].start <==> k < i
    ensures ms[k].start == ms[i].start <==> k == i
  {
  }

  lemma LaterStarts(doc: string, ms: seq<Marker>, i: nat)
    requires InOrder(doc, ms, 0, |doc|) && i < |ms|
    ensures ms[i].start < ms[i].end <= |doc|
    ensures forall k :: i < k < |ms| ==> ms[k].start >= ms[i].end
  {
    hide MatchAt, MarkerAt, TagText, ValidTag, TextAt, LineStart, LineEndsAt;
    assert MatchedIn(doc, ms[i], 0, |doc|);
    MarkerHolds(doc, ms[i]);
    forall k | i < k < |ms| ensures ms[k].start >= ms[i].end {
      assert MatchedIn(doc, ms[k], 0, |doc|);
      MarkersOnOtherLines(doc, ms[i], ms[k]);
    }
  }

  /** Two markers never overlap. */
  lemma MarkersOnOtherLines(doc: string, m: Marker, n: Marker)
    requires m.start < n.start <= |doc| && MatchAt(doc, m.start) == Some(m) && MatchAt(doc, n.start) == Some(n)
    ensures n.start >= m.end
  {
    hide MatchAt, TagText, ValidTag;
    MarkerHolds(doc, m);
    MarkerHolds(doc, n);
    TagTextIsPlain(m.tag);
    if n.start < m.end {
      assert false;
    }
  }

  /**
    Replacing a region by a block of its own name leaves a well-marked document with the same regions:
    those before stand where they stood, this one has the block's length, those after move with the text.
  */
  ghost predicate SameRegions(doc: string, t: nat, block: string, after: string)
    requires t < |Regions(doc)|
  {
    var rs, rs', shift := Regions(doc), Regions(after), ShiftOf(doc, t, block);
    && WellMarked(after) && |rs'| == |rs|
    && forall k :: 0 <= k < |rs| ==> rs'[k] == RegionAfter(rs[k], k, t, rs[t].start + |block|, shift)
  }

  ghost function RegionAfter(r: Region, k: nat, t: nat, end: nat, shift: int): Region {
    if k < t then r
    else if k == t then r.(end := end)
    else if r.start + shift >= 0 && r.end + shift >= 0 then r.(start := r.start + shift, end := r.end + shift)
    else r
  }

  lemma RewrittenRegions(doc: string, t: nat, block: string, after: string)
    requires Rewrites(doc, t, block, after)
    ensures SameRegions(doc, t, block, after)
  {
    assert WellMarked(doc) && t < |Regions(doc)|;
    SplicedMarkers(doc, t, block, after);
    RewrittenIsMarked(doc, t, block, after);
    hide Rewrites, AllMarked, TagText, AllMoved, MarkersIn, Paired, RegionsOf;
    var r, e := Regions(doc)[t], Regions(doc)[t].start + |block|;
    RegionsOfSpliced(Markers(doc), Markers(after), t, r, e, MarkersIn(after, e, |after|), ShiftOf(doc, t, block));
  }

  lemma SplicedMarkers(doc: string, t: nat, block: string, after: string)
    requires Rewrites(doc, t, block, after)
    ensures var r, e := Regions(doc)[t], Regions(doc)[t].start + |block|;
            && e <= |after| && e >= |TagText(Tag(r.name, r.version, End))| && 2 * t + 1 < |Markers(doc)|
            && AllMoved(Markers(doc)[2 * t + 2..], MarkersIn(after, e, |after|), ShiftOf(doc, t, block))
            && Markers(after) == Markers(doc)[..2 * t] + [BeginOf(r.name, r.version, r.start), EndOf(r.name, r.version, e)] + MarkersIn(after, e, |after|)
  {
    assert WellMarked(doc) && t < |Regions(doc)|;
    assert 2 * t + 1 < |Markers(doc)| && Paired(Markers(doc));
    hide Rewrites, RegionHolds, AllMarked, TagText, AllMoved, Markers, MarkersIn, Paired, MatchAt, PrefixAt, Regions, WellMarked;
    RewrittenBlock(doc, t, block, after);
    RewrittenAround(doc, t, block, after);
    MarkersAround(doc, t);
    JoinedMarkers(after, Regions(doc)[t].start, Regions(doc)[t].start + |block|);
  }

  lemma JoinedMarkers(doc: string, s: nat, e: nat)
    requires s <= e <= |doc|
    ensures Markers(doc) == MarkersIn(doc, 0, s) + MarkersIn(doc, s, e) + MarkersIn(doc, e, |doc|)
  {
    MarkersSplit(doc, 0, s, |doc|);
    MarkersSplit(doc, s, e, |doc|);
    hide MarkersIn;
  }

  lemma RegionsOfSpliced(ms: seq<Marker>, ms': seq<Marker>, t: nat, r: Region, e: nat, rest: seq<Marker>, shift: int)
    requires Paired(ms) && 2 * t + 1 < |ms| && r == RegionsOf(ms)[t] && e >= |TagText(Tag(r.name, r.version, End))|
    requires AllMoved(ms[2 * t + 2..], rest, shift)
    requires ms' == ms[..2 * t] + [BeginOf(r.name, r.version, r.start), EndOf(r.name, r.version, e)] + rest
    ensures Paired(ms') && |RegionsOf(ms')| == |RegionsOf(ms)|
    ensures forall k :: 0 <= k < |RegionsOf(ms)| ==> RegionsOf(ms')[k] == RegionAfter(RegionsOf(ms)[k], k, t, e, shift)
  {
    hide TagText;
    forall k | 0 <= k < |ms| / 2
      ensures 2 * k + 1 < |ms'| && PairAt(ms', k) && RegionOf(ms'[2 * k], ms'[2 * k + 1]) == RegionAfter(RegionOf(ms[2 * k], ms[2 * k + 1]), k, t, e, shift)
    {
      assert PairAt(ms, k);
      if k < t {
        assert ms'[2 * k] == ms[2 * k] && ms'[2 * k + 1] == ms[2 * k + 1];
      } else if k == t {
        assert ms'[2 * k] == BeginOf(r.name, r.version, r.start) && ms'[2 * k + 1] == EndOf(r.name, r.version, e);
      } else {
        assert ms'[2 * k] == rest[2 * (k - t - 1)] && ms'[2 * k + 1] == rest[2 * (k - t - 1) + 1];
        assert ms[2 * k] == ms[2 * t + 2..][2 * (k - t - 1)] && ms[2 * k + 1] == ms[2 * t + 2..][2 * (k - t - 1) + 1];
      }
    }
  }
}
