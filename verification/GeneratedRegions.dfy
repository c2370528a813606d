/**
  Finding and replacing one generated region of a Markdown document
  (`_replace_generated_region` of pathfinder_core/rendering.py).
*/
module GeneratedRegions {
  import opened Wrappers
  import opened MarkdownBlocks

  // ---------------------------------------------------------------- one marker

  predicate NameChar(c: char) { 'a' <= c <= 'z' || c == '-' }

  predicate Digit(c: char) { '0' <= c <= '9' }

  function NameEnd(s: string, i: nat): (j: nat)
    requires i <= |s|
    ensures i <= j <= |s| && (forall k :: i <= k < j ==> NameChar(s[k])) && (j < |s| ==> !NameChar(s[j]))
    decreases |s| - i
  {
    if i < |s| && NameChar(s[i]) then NameEnd(s, i + 1) else i
  }

  function DigitEnd(s: string, i: nat): (j: nat)
    requires i <= |s|
    ensures i <= j <= |s| && (forall k :: i <= k < j ==> Digit(s[k])) && (j < |s| ==> !Digit(s[j]))
    decreases |s| - i
  {
    if i < |s| && Digit(s[i]) then DigitEnd(s, i + 1) else i
  }

  /** The expression of a marker, applied to a whole text. */
  function ParseTag(s: string): Option<Tag> {
    if |s| < |Prefix()| || s[..|Prefix()|] != Prefix() then None
    else
      var n := NameEnd(s, |Prefix()|);
      if n == |Prefix()| || n + 2 >= |s| || s[n] != ':' || s[n + 1] != 'v' || !('1' <= s[n + 2] <= '9') then None
      else
        var d := DigitEnd(s, n + 3);
        if s[d..] == KindText(Begin) then Some(Tag(s[|Prefix()|..n], s[n + 1..d], Begin))
        else if s[d..] == KindText(End) then Some(Tag(s[|Prefix()|..n], s[n + 1..d], End))
        else None
  }

  ghost predicate ValidName(name: string) { |name| > 0 && forall i :: 0 <= i < |name| ==> NameChar(name[i]) }

  ghost predicate ValidVersion(version: string) {
    |version| >= 2 && version[0] == 'v' && '1' <= version[1] <= '9' && forall i :: 2 <= i < |version| ==> Digit(version[i])
  }

  ghost predicate ValidTag(tag: Tag) { ValidName(tag.name) && ValidVersion(tag.version) }

  /** A valid name is of lower-case letters and hyphens, by their codes; a valid version a `v` and a number without a leading zero. */
  lemma ValidExactly(name: string, version: string)
    ensures ValidName(name) <==> name != "" && forall i :: 0 <= i < |name| ==> 97 <= name[i] as int < 123 || name[i] as int == 45
    ensures ValidVersion(version) <==>
              && |version| > 1 && version[0] as int == 118 && version[1] != '0'
              && forall i :: 1 <= i < |version| ==> 48 <= version[i] as int < 58
  {}

  /** A tag is read off a text exactly when the text is that tag's. */
  lemma ParseTagExactly(s: string, tag: Tag)
    ensures ParseTag(s) == Some(tag) <==> ValidTag(tag) && s == TagText(tag)
  {
    if ParseTag(s) == Some(tag) {
      ParsedIsValid(s, tag);
      ParsedIsText(s, tag);
    }
    if ValidTag(tag) && s == TagText(tag) { TextIsParsed(tag); }
  }

  lemma ParsedIsValid(s: string, tag: Tag)
    requires ParseTag(s) == Some(tag)
    ensures ValidTag(tag)
  {
    hide KindText, Prefix;
  }

  lemma ParsedIsText(s: string, tag: Tag)
    requires ParseTag(s) == Some(tag)
    ensures s == TagText(tag)
  {
    hide KindText, Prefix, NameEnd, DigitEnd;
    var n := NameEnd(s, |Prefix()|);
    var d := DigitEnd(s, n + 3);
    assert s[n..n + 1] == ":";
    assert s == s[..|Prefix()|] + s[|Prefix()|..n] + s[n..n + 1] + s[n + 1..d] + s[d..];
  }

  lemma NameEndIs(s: string, i: nat, n: nat)
    requires i <= n < |s| && (forall k :: i <= k < n ==> NameChar(s[k])) && !NameChar(s[n])
    ensures NameEnd(s, i) == n
  {
    hide NameChar;
  }

  lemma DigitEndIs(s: string, i: nat, n: nat)
    requires i <= n < |s| && (forall k :: i <= k < n ==> Digit(s[k])) && !Digit(s[n])
    ensures DigitEnd(s, i) == n
  {
    hide Digit;
  }

  lemma KindColon(kind: Kind)
    ensures |KindText(kind)| > 0 && KindText(kind)[0] == ':' && !Digit(':') && !NameChar(':')
  {}

  /** Where the parts of a tag's text are. */
  lemma TextParts(tag: Tag)
    requires ValidTag(tag)
    ensures var s, n, d := TagText(tag), |Prefix()| + |tag.name|, |Prefix()| + |tag.name| + 1 + |tag.version|;
            && |Prefix()| < n && n + 3 <= d < |s| && s[..|Prefix()|] == Prefix() && s[|Prefix()|..n] == tag.name && s[n] == ':'
            && s[n + 1..d] == tag.version && s[d..] == KindText(tag.kind) && s[d] == ':' && s[n + 1] == 'v' && '1' <= s[n + 2] <= '9'
            && (forall k :: |Prefix()| <= k < n ==> NameChar(s[k])) && (forall k :: n + 3 <= k < d ==> Digit(s[k]))
  {
    hide KindText, Prefix, NameChar, Digit;
    KindColon(tag.kind);
    var s := TagText(tag);
    var n, d := |Prefix()| + |tag.name|, |Prefix()| + |tag.name| + 1 + |tag.version|;
    assert s[..|Prefix()|] == Prefix() && s[|Prefix()|..n] == tag.name && s[n] == ':' && s[n + 1..d] == tag.version && s[d..] == KindText(tag.kind);
    assert forall k :: |Prefix()| <= k < n ==> s[k] == tag.name[k - |Prefix()|];
    assert forall k :: n + 1 <= k < d ==> s[k] == tag.version[k - n - 1];
    assert s[d] == s[d..][0];
  }

  lemma TextIsParsed(tag: Tag)
    requires ValidTag(tag)
    ensures ParseTag(TagText(tag)) == Some(tag)
  {
    TextParts(tag);
    KindColon(tag.kind);
    hide TagText, Prefix, KindText, ValidTag, NameEnd, DigitEnd, NameChar, Digit;
    var s := TagText(tag);
    var n, d := |Prefix()| + |tag.name|, |Prefix()| + |tag.name| + 1 + |tag.version|;
    NameEndIs(s, |Prefix()|, n);
    DigitEndIs(s, n + 3, d);
    KindsDiffer();
  }

  lemma KindsDiffer()
    ensures KindText(Begin) != KindText(End)
  {
    assert KindText(Begin)[1] == 'b' && KindText(End)[1] == 'e';
  }

  // ---------------------------------------------------------------- markers in a document

  datatype Marker = Marker(tag: Tag, start: nat, end: nat)

  predicate LineStart(doc: string, p: nat)
    requires p <= |doc|
  {
    p == 0 || doc[p - 1] == '\n'
  }

  function LineEnd(doc: string, p: nat): (q: nat)
    requires p <= |doc|
    ensures p <= q <= |doc| && (forall k :: p <= k < q ==> doc[k] != '\n') && (q < |doc| ==> doc[q] == '\n')
    decreases |doc| - p
  {
    if p < |doc| && doc[p] != '\n' then LineEnd(doc, p + 1) else p
  }

  function WithoutReturn(line: string): string {
    if |line| > 0 && line[|line| - 1] == '\r' then line[..|line| - 1] else line
  }

  /** The multi-line expression `^marker(?=\r?$)` at one position. */
  function MatchAt(doc: string, p: nat): Option<Marker>
    requires p <= |doc|
  {
    if !LineStart(doc, p) then None
    else
      var line := WithoutReturn(doc[p..LineEnd(doc, p)]);
      match ParseTag(line)
      case None => None
      case Some(tag) => Some(Marker(tag, p, p + |line|))
  }

  /** At `q` the line ends, but for a carriage return. */
  ghost predicate LineEndsAt(doc: string, q: nat)
    requires q <= |doc|
  {
    q == |doc| || doc[q] == '\n' || (doc[q] == '\r' && (q + 1 == |doc| || doc[q + 1] == '\n'))
  }

  ghost predicate TextAt(doc: string, p: nat, text: string) { p + |text| <= |doc| && doc[p..p + |text|] == text }

  ghost predicate MarkerAt(doc: string, p: nat, tag: Tag) {
    TextAt(doc, p, TagText(tag)) && ValidTag(tag) && LineStart(doc, p) && LineEndsAt(doc, p + |TagText(tag)|)
  }

  lemma TagTextIsPlain(tag: Tag)
    requires ValidTag(tag)
    ensures |TagText(tag)| > |Prefix()| && TagText(tag)[..|Prefix()|] == Prefix()
    ensures forall i :: 0 <= i < |TagText(tag)| ==> TagText(tag)[i] != '\n' && TagText(tag)[i] != '\r' && (TagText(tag)[i] == '<' <==> i == 0)
    ensures TagText(tag)[|TagText(tag)| - 1] == '>'
  {
    PrefixIsPlain();
    KindIsPlain(tag.kind);
    var s, n := TagText(tag), |Prefix()| + |tag.name| + 1;
    assert forall i {:trigger s[i]} :: 0 <= i < |Prefix()| ==> s[i] == Prefix()[i];
    assert forall i {:trigger s[i]} :: |Prefix()| <= i < n - 1 ==> s[i] == tag.name[i - |Prefix()|];
    assert s[n - 1] == ':';
    assert forall i {:trigger s[i]} :: n <= i < n + |tag.version| ==> s[i] == tag.version[i - n];
    assert forall i {:trigger s[i]} :: n + |tag.version| <= i < |s| ==> s[i] == KindText(tag.kind)[i - n - |tag.version|];
    hide TagText, KindText;
  }

  lemma PrefixIsPlain()
    ensures forall i :: 0 <= i < |Prefix()| ==> Prefix()[i] != '\n' && Prefix()[i] != '\r' && (Prefix()[i] == '<' <==> i == 0)
  {
  }

  lemma KindIsPlain(kind: Kind)
    ensures forall i :: 0 <= i < |KindText(kind)| ==> KindText(kind)[i] != '\n' && KindText(kind)[i] != '\r' && KindText(kind)[i] != '<'
    ensures |KindText(kind)| > 0 && KindText(kind)[|KindText(kind)| - 1] == '>'
  {
  }

  /** Matching finds exactly the tags that stand alone on their line. */
  lemma MatchExactly(doc: string, p: nat, tag: Tag)
    requires p <= |doc|
    ensures MatchAt(doc, p) == Some(Marker(tag, p, p + |TagText(tag)|)) <==> MarkerAt(doc, p, tag)
    ensures MatchAt(doc, p).Some? && MatchAt(doc, p).value.tag == tag ==> MarkerAt(doc, p, tag)
  {
    hide TagText, ParseTag, ValidTag, WithoutReturn, LineEnd, LineEndsAt, TextAt, LineStart;
    var line := WithoutReturn(doc[p..LineEnd(doc, p)]);
    ParseTagExactly(line, tag);
    if ValidTag(tag) {
      TagTextIsPlain(tag);
      LineExactly(doc, p, TagText(tag));
    }
  }

  /** A plain text is the whole line exactly when it stands there and the line ends after it. */
  lemma LineExactly(doc: string, p: nat, text: string)
    requires p <= |doc| && |text| > 0 && forall i :: 0 <= i < |text| ==> text[i] != '\n' && text[i] != '\r'
    ensures WithoutReturn(doc[p..LineEnd(doc, p)]) == text <==> TextAt(doc, p, text) && LineEndsAt(doc, p + |text|)
  {
    var q := LineEnd(doc, p);
    var line := doc[p..q];
    if TextAt(doc, p, text) && LineEndsAt(doc, p + |text|) {
      LineOfText(doc, p, text);
    }
  }

  lemma LineOfText(doc: string, p: nat, text: string)
    requires p <= |doc| && |text| > 0 && forall i :: 0 <= i < |text| ==> text[i] != '\n' && text[i] != '\r'
    requires TextAt(doc, p, text) && LineEndsAt(doc, p + |text|)
    ensures WithoutReturn(doc[p..LineEnd(doc, p)]) == text
  {
    var q, end := LineEnd(doc, p), p + |text|;
    assert forall i {:trigger doc[i]} :: p <= i < end ==> doc[i] == doc[p..end][i - p] == text[i - p];
    assert q >= end;
    if q == end {
      assert doc[p..q][|text| - 1] == text[|text| - 1];
    } else {
      assert q == end + 1 && doc[p..q][..|text|] == doc[p..end];
    }
  }

  /** All matches that start in `[i..j)`, in order. */
  function MarkersIn(doc: string, i: nat, j: nat): seq<Marker>
    requires i <= j <= |doc|
    decreases j - i
  {
    if i == j then []
    else (if MatchAt(doc, i).Some? then [MatchAt(doc, i).value] else []) + MarkersIn(doc, i + 1, j)
  }

  function Markers(doc: string): seq<Marker> { MarkersIn(doc, 0, |doc|) }

  lemma {:induction false} MarkersSplit(doc: string, i: nat, j: nat, k: nat)
    requires i <= j <= k <= |doc|
    ensures MarkersIn(doc, i, k) == MarkersIn(doc, i, j) + MarkersIn(doc, j, k)
    decreases j - i
  {
    hide MatchAt;
    if i < j { MarkersSplit(doc, i + 1, j, k); }
  }

  ghost predicate InOrder(doc: string, ms: seq<Marker>, i: nat, j: nat) { Matched(doc, ms, i, j) && Ascending(ms) }

  ghost predicate Matched(doc: string, ms: seq<Marker>, i: nat, j: nat) {
    forall k :: 0 <= k < |ms| ==> MatchedIn(doc, ms[k], i, j)
  }

  ghost predicate MatchedIn(doc: string, m: Marker, i: nat, j: nat) {
    i <= m.start < j <= |doc| && MatchAt(doc, m.start) == Some(m)
  }

  ghost predicate Ascending(ms: seq<Marker>) {
    forall k, l :: 0 <= k < l < |ms| ==> ms[k].start < ms[l].start
  }

  lemma {:induction false} MarkersInOrder(doc: string, i: nat, j: nat)
    requires i <= j <= |doc|
    ensures InOrder(doc, MarkersIn(doc, i, j), i, j)
    decreases j - i
  {
    if i < j {
      MarkersInOrder(doc, i + 1, j);
      StartsHere(doc, i);
      MatchesAppend(doc, i, j, MarkersIn(doc, i + 1, j));
    }
  }

  lemma MatchesAppend(doc: string, i: nat, j: nat, rest: seq<Marker>)
    requires i < j <= |doc| && InOrder(doc, rest, i + 1, j) && (MatchAt(doc, i).Some? ==> MatchAt(doc, i).value.start == i)
    ensures InOrder(doc, (if MatchAt(doc, i).Some? then [MatchAt(doc, i).value] else []) + rest, i, j)
  {
    hide MatchAt;
    if MatchAt(doc, i).Some? {
      var first := MatchAt(doc, i).value;
      forall k | 0 <= k <= |rest| ensures MatchedIn(doc, ([first] + rest)[k], i, j) {
        if k > 0 { assert MatchedIn(doc, rest[k - 1], i + 1, j); }
      }
    } else {
      assert [] + rest == rest;
    }
  }

  lemma StartsHere(doc: string, p: nat)
    requires p <= |doc|
    ensures MatchAt(doc, p).Some? ==> MatchAt(doc, p).value.start == p
  {
  }

  function Moved(m: Marker, shift: int): Marker
    requires m.start + shift >= 0 && m.end + shift >= 0
  {
    Marker(m.tag, m.start + shift, m.end + shift)
  }

  ghost predicate SameMatch(a: Option<Marker>, b: Option<Marker>, shift: int) {
    if a.None? then b.None? else a.value.start + shift >= 0 && a.value.end + shift >= 0 && b == Some(Moved(a.value, shift))
  }

  /** `b` is `a`, moved. */
  ghost predicate AllMoved(a: seq<Marker>, b: seq<Marker>, shift: int) {
    |a| == |b| && forall k :: 0 <= k < |a| ==> a[k].start + shift >= 0 && a[k].end + shift >= 0 && b[k] == Moved(a[k], shift)
  }

  lemma {:induction false} MarkersMove(d1: string, i: nat, j: nat, d2: string, shift: int)
    requires i <= j <= |d1| && 0 <= i + shift && j + shift <= |d2|
    requires forall p :: i <= p < j ==> SameMatch(MatchAt(d1, p), MatchAt(d2, p + shift), shift)
    ensures AllMoved(MarkersIn(d1, i, j), MarkersIn(d2, i + shift, j + shift), shift)
    decreases j - i
  {
    hide MatchAt;
    if i < j { MarkersMove(d1, i + 1, j, d2, shift); }
  }

  lemma {:induction false} NoMarkersIn(doc: string, i: nat, j: nat)
    requires i <= j <= |doc| && forall p :: i <= p < j ==> MatchAt(doc, p).None?
    ensures MarkersIn(doc, i, j) == []
    decreases j - i
  {
    hide MatchAt;
    if i < j { NoMarkersIn(doc, i + 1, j); }
  }

  // ---------------------------------------------------------------- counting prefixes

  predicate PrefixAt(doc: string, p: nat) { p + |Prefix()| <= |doc| && doc[p..p + |Prefix()|] == Prefix() }

  /** `document.count(prefix)`: occurrences from the left that do not overlap. */
  function CountFrom(doc: string, p: nat): nat
    requires p <= |doc|
    decreases |doc| - p
  {
    if p + |Prefix()| > |doc| then 0 else if PrefixAt(doc, p) then 1 + CountFrom(doc, p + |Prefix()|) else CountFrom(doc, p + 1)
  }

  /** No prefix stands outside a marker. */
  ghost predicate AllMarked(doc: string, i: nat) {
    forall p :: i <= p <= |doc| && PrefixAt(doc, p) ==> MatchAt(doc, p).Some?
  }

  lemma MatchHasPrefix(doc: string, p: nat)
    requires p <= |doc| && MatchAt(doc, p).Some?
    ensures PrefixAt(doc, p) && doc[p] == '<'
  {
    hide MatchAt, TagText, ValidTag, LineStart, LineEndsAt;
    var tag := MatchAt(doc, p).value.tag;
    MatchExactly(doc, p, tag);
    TagTextIsPlain(tag);
    assert doc[p..p + |Prefix()|] == doc[p..p + |TagText(tag)|][..|Prefix()|];
    PrefixOpens(doc, p);
  }

  lemma PrefixOpens(doc: string, p: nat)
    requires PrefixAt(doc, p)
    ensures doc[p] == '<'
  {
    assert doc[p] == doc[p..p + |Prefix()|][0];
  }

  lemma PrefixesDoNotOverlap(doc: string, p: nat, q: nat)
    requires PrefixAt(doc, p) && p < q < p + |Prefix()|
    ensures !PrefixAt(doc, q) && MatchAt(doc, q).None?
  {
    PrefixIsPlain();
    assert doc[q] == doc[p..p + |Prefix()|][q - p];
    if PrefixAt(doc, q) { PrefixOpens(doc, q); }
    if MatchAt(doc, q).Some? { MatchHasPrefix(doc, q); }
  }

  /** The counts agree exactly when every prefix opens a marker. */
  lemma {:induction false} CountsAgreeExactly(doc: string, p: nat)
    requires p <= |doc|
    ensures CountFrom(doc, p) >= |MarkersIn(doc, p, |doc|)|
    ensures CountFrom(doc, p) == |MarkersIn(doc, p, |doc|)| <==> AllMarked(doc, p)
    decreases |doc| - p
  {
    hide MatchAt;
    if p + |Prefix()| > |doc| {
      forall q | p <= q <= |doc| ensures !PrefixAt(doc, q) && MatchAt(doc, q).None? {
        if MatchAt(doc, q).Some? { MatchHasPrefix(doc, q); }
      }
      NoMarkersIn(doc, p, |doc|);
    } else if PrefixAt(doc, p) {
      var q := p + |Prefix()|;
      CountsAgreeExactly(doc, q);
      forall k | p < k < q ensures !PrefixAt(doc, k) && MatchAt(doc, k).None? { PrefixesDoNotOverlap(doc, p, k); }
      NoMarkersIn(doc, p + 1, q);
      MarkersSplit(doc, p + 1, q, |doc|);
      hide PrefixAt;
    } else {
      CountsAgreeExactly(doc, p + 1);
      if MatchAt(doc, p).Some? { MatchHasPrefix(doc, p); }
      hide PrefixAt;
    }
  }

  // ---------------------------------------------------------------- pairing markers

  datatype Region = Region(name: string, version: string, start: nat, end: nat)

  function RegionOf(b: Marker, e: Marker): Region { Region(b.tag.name, b.tag.version, b.start, e.end) }

  predicate SameIdentity(b: Marker, e: Marker) { b.tag.name == e.tag.name && b.tag.version == e.tag.version }

  function Before(first: seq<Region>, rest: Result<seq<Region>, RenderError>): Result<seq<Region>, RenderError> {
    if rest.Ok? then Ok(first + rest.value) else rest
  }

  /** The regions that remain to be found, given the marker left open. */
  function Pair(ms: seq<Marker>, open: Option<Marker>): Result<seq<Region>, RenderError> {
    if |ms| == 0 then (if open.Some? then Err(UnclosedMarker) else Ok([]))
    else if ms[0].tag.kind == Begin then (if open.Some? then Err(NestedMarkers) else Pair(ms[1..], Some(ms[0])))
    else if open.None? || !SameIdentity(open.value, ms[0]) then Err(MismatchedMarkers)
    else Before([RegionOf(open.value, ms[0])], Pair(ms[1..], None))
  }

  lemma NothingBefore(rest: Result<seq<Region>, RenderError>)
    ensures Before([], rest) == rest
  {
    assert rest.Ok? ==> [] + rest.value == rest.value;
  }

  lemma OneBefore(regions: seq<Region>, r: Region, rest: Result<seq<Region>, RenderError>)
    ensures Before(regions, Before([r], rest)) == Before(regions + [r], rest)
  {
    assert rest.Ok? ==> regions + ([r] + rest.value) == regions + [r] + rest.value;
  }

  /** The loop over markers with its one-place stack. */
  method PairMarkers(ms: seq<Marker>) returns (r: Result<seq<Region>, RenderError>)
    ensures r == Pair(ms, None)
  {
    var stack: Option<Marker>, regions: seq<Region> := None, [];
    assert ms[0..] == ms;
    NothingBefore(Pair(ms, None));
    for i := 0 to |ms|
      invariant Pair(ms, None) == Before(regions, Pair(ms[i..], stack))
    {
      var marker := ms[i];
      assert ms[i..][1..] == ms[i + 1..];
      if marker.tag.kind == Begin {
        if stack.Some? { return Err(NestedMarkers); }
        stack := Some(marker);
      } else {
        if stack.None? || !SameIdentity(stack.value, marker) { return Err(MismatchedMarkers); }
        OneBefore(regions, RegionOf(stack.value, marker), Pair(ms[i + 1..], None));
        regions := regions + [RegionOf(stack.value, marker)];
        stack := None;
      }
    }
    assert ms[|ms|..] == [];
    if stack.Some? { return Err(UnclosedMarker); }
    assert regions + [] == regions;
    r := Ok(regions);
  }

  /** Markers come in pairs: a begin, then an end of the same name and version. */
  ghost predicate Paired(ms: seq<Marker>) {
    |ms| % 2 == 0 && forall k :: 0 <= k < |ms| / 2 ==> PairAt(ms, k)
  }

  ghost predicate PairAt(ms: seq<Marker>, k: nat)
    requires 2 * k + 1 < |ms|
  {
    ms[2 * k].tag.kind == Begin && ms[2 * k + 1].tag.kind == End && SameIdentity(ms[2 * k], ms[2 * k + 1])
  }

  ghost function RegionsOf(ms: seq<Marker>): seq<Region> {
    seq(|ms| / 2, k requires 0 <= k < |ms| / 2 => RegionOf(ms[2 * k], ms[2 * k + 1]))
  }

  /** The loop succeeds exactly on paired markers, with one region a pair. */
  lemma {:induction false} PairsExactly(ms: seq<Marker>)
    ensures Pair(ms, None).Ok? <==> Paired(ms)
    ensures Pair(ms, None).Ok? ==> Pair(ms, None).value == RegionsOf(ms)
  {
    if |ms| >= 2 && PairAt(ms, 0) {
      var rest := ms[2..];
      PairsExactly(rest);
      assert ms[1..][1..] == rest;
      assert forall k {:trigger PairAt(rest, k)} :: 0 <= k < |rest| / 2 ==> (PairAt(rest, k) <==> PairAt(ms, k + 1));
      if Paired(rest) {
        forall k | 0 <= k < |ms| / 2 ensures PairAt(ms, k) {
          if k > 0 { assert PairAt(rest, k - 1); }
        }
      }
    } else if |ms| >= 2 {
      if ms[0].tag.kind == Begin { assert Pair(ms, None) == Pair(ms[1..], Some(ms[0])); }
    } else if |ms| == 1 {
      assert ms[1..] == [];
    }
  }

  // ---------------------------------------------------------------- replacing

  function IsTarget(r: Region, name: string, version: string): bool { r.name == name && r.version == version }

  function Targets(regions: seq<Region>, name: string, version: string): seq<Region> {
    if |regions| == 0 then [] else (if IsTarget(regions[0], name, version) then [regions[0]] else []) + Targets(regions[1..], name, version)
  }

  /** Where the one region of this name and version stands. */
  function Locate(doc: string, name: string, version: string): Result<Region, RenderError> {
    if CountFrom(doc, 0) != |Markers(doc)| then Err(MalformedMarker)
    else
      match Pair(Markers(doc), None)
      case Err(e) => Err(e)
      case Ok(regions) =>
        var targets := Targets(regions, name, version);
        if |targets| != 1 then Err(NotExactlyOneRegion) else Ok(targets[0])
  }

  predicate StartsWith(s: string, prefix: string) { |s| >= |prefix| && s[..|prefix|] == prefix }

  predicate EndsWith(s: string, suffix: string) { |s| >= |suffix| && s[|s| - |suffix|..] == suffix }

  function Spliced(doc: string, start: nat, end: nat, replacement: string): string
    requires start <= end <= |doc|
  {
    doc[..start] + replacement + doc[end..]
  }

  /** `_replace_generated_region`, for the markers of one name and version. */
  method ReplaceGeneratedRegion(doc: string, name: string, version: string, replacement: string)
    returns (r: Result<string, RenderError>)
    ensures r == Replaced(doc, name, version, replacement)
  {
    var begin, end := TagText(Tag(name, version, Begin)), TagText(Tag(name, version, End));
    hide TagText, Pair, CountFrom, MarkersIn;
    var markers := Markers(doc);
    if CountFrom(doc, 0) != |markers| { return Err(MalformedMarker); }
    var paired := PairMarkers(markers);
    if paired.Err? { return Err(paired.error); }
    var targets := Targets(paired.value, name, version);
    if |targets| != 1 { return Err(NotExactlyOneRegion); }
    LocatedRegion(doc, name, version);
    if !StartsWith(doc[targets[0].start..], begin) { return Err(MalformedBegin); }
    if !StartsWith(replacement, begin) || !EndsWith(replacement, end) { return Err(MalformedBlock); }
    r := Ok(doc[..targets[0].start] + replacement + doc[targets[0].end..]);
  }

  function Replaced(doc: string, name: string, version: string, replacement: string): Result<string, RenderError> {
    match Locate(doc, name, version)
    case Err(e) => Err(e)
    case Ok(region) =>
      LocatedRegion(doc, name, version);
      if !StartsWith(replacement, TagText(Tag(name, version, Begin))) || !EndsWith(replacement, TagText(Tag(name, version, End)))
      then Err(MalformedBlock)
      else Ok(Spliced(doc, region.start, region.end, replacement))
  }

  /** `s` is `prefix` and something after it. */
  ghost predicate Begins(s: string, prefix: string) { exists rest :: s == prefix + rest }

  ghost predicate Ends(s: string, suffix: string) { exists rest :: s == rest + suffix }

  lemma BeginsExactly(s: string, prefix: string)
    ensures StartsWith(s, prefix) <==> Begins(s, prefix)
    ensures EndsWith(s, prefix) <==> Ends(s, prefix)
  {
    if StartsWith(s, prefix) { assert s == prefix + s[|prefix|..]; }
    if rest :| s == prefix + rest { assert s[..|prefix|] == prefix; }
    if EndsWith(s, prefix) { assert s == s[..|s| - |prefix|] + prefix; }
    if rest :| s == rest + prefix { assert s[|s| - |prefix|..] == prefix; }
  }

  /** An opening of a marker stands at `p`. */
  lemma PrefixExactly(doc: string, p: nat)
    requires p <= |doc|
    ensures PrefixAt(doc, p) <==> Begins(doc[p..], "<!-- pathfinder:generated:")
  {
    BeginsExactly(doc[p..], Prefix());
    if p + |Prefix()| <= |doc| { assert doc[p..][..|Prefix()|] == doc[p..p + |Prefix()|]; }
    hide Begins;
  }

  /** A replacement succeeds exactly on a located region and with a text that begins and ends as the region does; the rest stays. */
  lemma ReplacedExactly(doc: string, name: string, version: string, replacement: string)
    ensures var found, r := Locate(doc, name, version), Replaced(doc, name, version, replacement);
            && (found.Err? ==> r == Err(found.error))
            && (found.Ok? && !(Begins(replacement, TagText(Tag(name, version, Begin))) && Ends(replacement, TagText(Tag(name, version, End)))) ==> r == Err(MalformedBlock))
            && (found.Ok? && Begins(replacement, TagText(Tag(name, version, Begin))) && Ends(replacement, TagText(Tag(name, version, End))) ==>
                  && found.value.start <= found.value.end <= |doc|
                  && r == Ok(doc[..found.value.start] + replacement + doc[found.value.end..]))
  {
    BeginsExactly(replacement, TagText(Tag(name, version, Begin)));
    BeginsExactly(replacement, TagText(Tag(name, version, End)));
    if Locate(doc, name, version).Ok? { LocatedRegion(doc, name, version); }
    hide Locate, Begins, Ends, StartsWith, EndsWith, TagText;
  }

  // ---------------------------------------------------------------- well-marked documents

  ghost predicate WellMarked(doc: string) { AllMarked(doc, 0) && Paired(Markers(doc)) }

  ghost function Regions(doc: string): seq<Region> { RegionsOf(Markers(doc)) }

  /** Region `t` is the only one of its name and version. */
  ghost predicate OnlyTarget(regions: seq<Region>, t: nat, name: string, version: string) {
    t < |regions| && forall k :: 0 <= k < |regions| ==> (IsTarget(regions[k], name, version) <==> k == t)
  }

  lemma {:induction false} TargetsExactly(regions: seq<Region>, name: string, version: string)
    ensures |Targets(regions, name, version)| == 0 <==> forall k :: 0 <= k < |regions| ==> !IsTarget(regions[k], name, version)
    ensures |Targets(regions, name, version)| == 1 <==> exists t: nat :: OnlyTarget(regions, t, name, version)
    ensures forall t: nat :: OnlyTarget(regions, t, name, version) ==> Targets(regions, name, version) == [regions[t]]
  {
    if |regions| > 0 {
      var rest := regions[1..];
      TargetsExactly(rest, name, version);
      assert forall k {:trigger rest[k]} :: 0 <= k < |rest| ==> rest[k] == regions[k + 1];
      if IsTarget(regions[0], name, version) {
        if |Targets(rest, name, version)| == 0 {
          forall k | 0 <= k < |regions| ensures IsTarget(regions[k], name, version) <==> k == 0 {
            if k > 0 { assert !IsTarget(rest[k - 1], name, version); }
          }
          assert OnlyTarget(regions, 0, name, version);
        }
        forall t: nat | OnlyTarget(regions, t, name, version) ensures Targets(regions, name, version) == [regions[t]] {
          forall k | 0 <= k < |rest| ensures !IsTarget(rest[k], name, version) { assert !IsTarget(regions[k + 1], name, version); }
        }
      } else {
        forall t: nat | OnlyTarget(rest, t, name, version) ensures OnlyTarget(regions, t + 1, name, version) {
          forall k | 0 <= k < |regions| ensures IsTarget(regions[k], name, version) <==> k == t + 1 {
            if k > 0 { assert IsTarget(rest[k - 1], name, version) <==> k - 1 == t; }
          }
        }
        forall t: nat | OnlyTarget(regions, t, name, version)
          ensures t > 0 && OnlyTarget(rest, t - 1, name, version) && regions[t] == rest[t - 1]
        {
          forall k | 0 <= k < |rest| ensures IsTarget(rest[k], name, version) <==> k == t - 1 {
            assert IsTarget(regions[k + 1], name, version) <==> k + 1 == t;
          }
        }
      }
    }
  }

  /** A region is located exactly when the document is well marked and has one region of that name and version. */
  lemma LocateExactly(doc: string, name: string, version: string)
    ensures Locate(doc, name, version).Ok? <==> WellMarked(doc) && exists t: nat :: OnlyTarget(Regions(doc), t, name, version)
    ensures WellMarked(doc) ==> forall t: nat :: OnlyTarget(Regions(doc), t, name, version) ==> Locate(doc, name, version) == Ok(Regions(doc)[t])
  {
    CountsAgreeExactly(doc, 0);
    PairsExactly(Markers(doc));
    if Paired(Markers(doc)) { TargetsExactly(Regions(doc), name, version); }
    hide AllMarked, Paired, RegionsOf, OnlyTarget, Targets, Pair, CountFrom, MarkersIn;
  }

  /** A region begins with its begin marker and ends with its end marker, each alone on its line. */
  ghost predicate RegionHolds(doc: string, r: Region) {
    && r.start < r.end <= |doc| && TextAt(doc, r.start, TagText(Tag(r.name, r.version, Begin)))
    && r.start <= r.end - |TagText(Tag(r.name, r.version, End))| && TextAt(doc, r.end - |TagText(Tag(r.name, r.version, End))|, TagText(Tag(r.name, r.version, End)))
    && LineStart(doc, r.start) && LineEndsAt(doc, r.end) && !LineStart(doc, r.end)
    && ValidName(r.name) && ValidVersion(r.version)
  }

  lemma RegionsHold(doc: string, t: nat)
    requires Paired(Markers(doc)) && t < |Regions(doc)|
    ensures RegionHolds(doc, Regions(doc)[t])
  {
    hide MatchAt, TagText, ValidName, ValidVersion, MarkersIn, LineEndsAt, LineStart, TextAt;
    var ms := Markers(doc);
    MarkersInOrder(doc, 0, |doc|);
    assert PairAt(ms, t);
    var b, e := ms[2 * t], ms[2 * t + 1];
    assert b.start < e.start && MatchAt(doc, b.start) == Some(b) && MatchAt(doc, e.start) == Some(e);
    MarkerHolds(doc, b);
    MarkerHolds(doc, e);
    hide Paired, InOrder;
    assert b.tag == Tag(Regions(doc)[t].name, Regions(doc)[t].version, Begin) && e.tag == Tag(Regions(doc)[t].name, Regions(doc)[t].version, End);
  }

  lemma MarkerHolds(doc: string, m: Marker)
    requires m.start <= |doc| && MatchAt(doc, m.start) == Some(m)
    ensures TextAt(doc, m.start, TagText(m.tag)) && m.start < m.end == m.start + |TagText(m.tag)| <= |doc|
    ensures LineStart(doc, m.start) && LineEndsAt(doc, m.end) && !LineStart(doc, m.end) && ValidTag(m.tag)
  {
    hide MatchAt, TagText, ValidTag, LineEndsAt;
    MatchExactly(doc, m.start, m.tag);
    TagTextIsPlain(m.tag);
    MatchSpan(doc, m.start);
    LastCharAt(doc, m.start, TagText(m.tag));
  }

  lemma LastCharAt(doc: string, p: nat, text: string)
    requires TextAt(doc, p, text) && |text| > 0
    ensures doc[p + |text| - 1] == text[|text| - 1]
  {
    assert doc[p..p + |text|][|text| - 1] == text[|text| - 1];
  }

  lemma MatchSpan(doc: string, p: nat)
    requires p <= |doc| && MatchAt(doc, p).Some?
    ensures MatchAt(doc, p).value.start == p && MatchAt(doc, p).value.end == p + |TagText(MatchAt(doc, p).value.tag)|
  {
    MatchExactly(doc, p, MatchAt(doc, p).value.tag);
  }

  lemma LocatedRegion(doc: string, name: string, version: string)
    ensures Locate(doc, name, version).Ok? ==>
              var r := Locate(doc, name, version).value;
              r.start <= r.end <= |doc| && r.name == name && r.version == version && StartsWith(doc[r.start..], TagText(Tag(name, version, Begin)))
  {
    if Locate(doc, name, version).Ok? {
      LocateExactly(doc, name, version);
      var t: nat :| OnlyTarget(Regions(doc), t, name, version);
      RegionsHold(doc, t);
      hide Locate, TagText, RegionsOf, Paired, AllMarked;
      var r, text := Regions(doc)[t], TagText(Tag(name, version, Begin));
      assert IsTarget(r, name, version);
      assert doc[r.start..][..|text|] == doc[r.start..r.start + |text|];
    }
  }
}
