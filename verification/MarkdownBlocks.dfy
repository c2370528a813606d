/**
  How values and documents become Markdown blocks (pathfinder_core/rendering.py): one escaping
  function for every value, and the two generated blocks between their markers.
*/
module MarkdownBlocks {
  import opened Wrappers

  /** `None`, a bool, or anything else as its `str` text. */
  datatype Value = Null | Flag(set_: bool) | Text(text: string)

  // ---------------------------------------------------------------- escaping

  /** Python's `s.replace(c, replacement)` for a single character `c`. */
  function ReplaceChar(s: string, c: char, replacement: string): string {
    if |s| == 0 then "" else (if s[0] == c then replacement else [s[0]]) + ReplaceChar(s[1..], c, replacement)
  }

  /** `s.replace("\r\n", "\n")`. */
  function JoinLineBreaks(s: string): string {
    if |s| == 0 then ""
    else if |s| >= 2 && s[0] == '\r' && s[1] == '\n' then "\n" + JoinLineBreaks(s[2..])
    else [s[0]] + JoinLineBreaks(s[1..])
  }

  function Inline(v: Value): string {
    match v
    case Null => "none"
    case Flag(b) => if b then "true" else "false"
    case Text(t) => ReplaceChar(ReplaceChar(JoinLineBreaks(t), '\r', "\n"), '\n', " ")
  }

  const Specials: string := "\\`*_{}[]#|"

  /** What one character becomes. */
  function EscapeChar(c: char): string {
    if c == '&' then "&amp;" else if c == '<' then "&lt;" else if c == '>' then "&gt;"
    else if c in Specials then ['\\', c] else [c]
  }

  /** Every character escaped by itself, none twice. */
  function Escaped(s: string): string {
    if |s| == 0 then "" else EscapeChar(s[0]) + Escaped(s[1..])
  }

  /** The first `n` special characters escaped, after the HTML ones. */
  function EscapeCharTo(c: char, n: nat): string
    requires n <= |Specials|
  {
    if c == '&' then "&amp;" else if c == '<' then "&lt;" else if c == '>' then "&gt;"
    else if c in Specials[..n] then ['\\', c] else [c]
  }

  function EscapedTo(s: string, n: nat): string
    requires n <= |Specials|
  {
    if |s| == 0 then "" else EscapeCharTo(s[0], n) + EscapedTo(s[1..], n)
  }

  /** `_markdown_inline`: replacing one character after the other escapes each exactly once. */
  method MarkdownInline(v: Value) returns (rendered: string)
    ensures rendered == Escaped(Inline(v))
  {
    rendered := HtmlEscaped(Inline(v));
    HtmlEscapesEach(Inline(v));
    for n := 0 to |Specials|
      invariant rendered == EscapedTo(Inline(v), n)
    {
      OneMoreEscaped(Inline(v), n);
      rendered := ReplaceChar(rendered, Specials[n], ['\\', Specials[n]]);
    }
    AllEscaped(Inline(v));
  }

  /** `html.escape(s, quote=False)`. */
  function HtmlEscaped(s: string): string {
    ReplaceChar(ReplaceChar(ReplaceChar(s, '&', "&amp;"), '<', "&lt;"), '>', "&gt;")
  }

  lemma {:induction false} ReplaceAppends(s: string, t: string, c: char, replacement: string)
    ensures ReplaceChar(s + t, c, replacement) == ReplaceChar(s, c, replacement) + ReplaceChar(t, c, replacement)
  {
    if |s| == 0 {
      assert s + t == t;
    } else {
      var one, rest := ReplaceChar([s[0]], c, replacement), s[1..];
      ReplaceAppends(rest, t, c, replacement);
      ReplaceFirst(s, c, replacement);
      ReplaceFirst(s + t, c, replacement);
      assert (s + t)[1..] == rest + t;
      hide ReplaceChar;
      assert one + (ReplaceChar(rest, c, replacement) + ReplaceChar(t, c, replacement))
        == (one + ReplaceChar(rest, c, replacement)) + ReplaceChar(t, c, replacement);
    }
  }

  lemma ReplaceFirst(s: string, c: char, replacement: string)
    requires |s| > 0
    ensures ReplaceChar(s, c, replacement) == ReplaceChar([s[0]], c, replacement) + ReplaceChar(s[1..], c, replacement)
  {
    ReplaceOne(s[0], c, replacement);
  }

  lemma {:induction false} ReplaceNothing(s: string, c: char, replacement: string)
    requires c !in s
    ensures ReplaceChar(s, c, replacement) == s
  {
    if |s| > 0 { ReplaceNothing(s[1..], c, replacement); }
  }

  lemma {:induction false} HtmlEscapesEach(s: string)
    ensures HtmlEscaped(s) == EscapedTo(s, 0)
  {
    if |s| > 0 {
      var c, rest := s[0], s[1..];
      HtmlEscapesEach(rest);
      assert s == [c] + rest;
      ReplaceAppends([c], rest, '&', "&amp;");
      var first := ReplaceChar([c], '&', "&amp;");
      ReplaceAppends(first, ReplaceChar(rest, '&', "&amp;"), '<', "&lt;");
      var second := ReplaceChar(first, '<', "&lt;");
      ReplaceAppends(second, ReplaceChar(ReplaceChar(rest, '&', "&amp;"), '<', "&lt;"), '>', "&gt;");
      HtmlEscapesOne(c);
    }
  }

  lemma HtmlEscapesOne(c: char)
    ensures HtmlEscaped([c]) == EscapeCharTo(c, 0)
  {
    ReplaceOne(c, '&', "&amp;");
    ReplaceOne(c, '<', "&lt;");
    ReplaceOne(c, '>', "&gt;");
    assert ReplaceChar(ReplaceChar("&amp;", '<', "&lt;"), '>', "&gt;") == "&amp;" by {
      ReplaceNothing("&amp;", '<', "&lt;");
      ReplaceNothing("&amp;", '>', "&gt;");
    }
    assert ReplaceChar("&lt;", '>', "&gt;") == "&lt;" by { ReplaceNothing("&lt;", '>', "&gt;"); }
    hide ReplaceChar;
  }

  lemma ReplaceOne(x: char, c: char, replacement: string)
    ensures ReplaceChar([x], c, replacement) == if x == c then replacement else [x]
  {
    assert [x][1..] == [];
  }

  lemma {:induction false} OneMoreEscaped(s: string, n: nat)
    requires n < |Specials|
    ensures ReplaceChar(EscapedTo(s, n), Specials[n], ['\\', Specials[n]]) == EscapedTo(s, n + 1)
  {
    if |s| > 0 {
      OneMoreEscaped(s[1..], n);
      ReplaceAppends(EscapeCharTo(s[0], n), EscapedTo(s[1..], n), Specials[n], ['\\', Specials[n]]);
      OneMoreChar(s[0], n);
    }
  }

  lemma OneMoreChar(c: char, n: nat)
    requires n < |Specials|
    ensures ReplaceChar(EscapeCharTo(c, n), Specials[n], ['\\', Specials[n]]) == EscapeCharTo(c, n + 1)
  {
    var special := Specials[n];
    assert special !in "&amp;" && special !in "&lt;" && special !in "&gt;";
    if c == '&' || c == '<' || c == '>' || c in Specials[..n] {
      assert c in Specials[..n] ==> exists k :: 0 <= k < n && Specials[k] == c;
      assert n > 0 ==> special != '\\';
      assert special !in EscapeCharTo(c, n);
      ReplaceNothing(EscapeCharTo(c, n), special, ['\\', special]);
    } else {
      assert ReplaceChar([c], special, ['\\', special]) == if c == special then ['\\', c] else [c];
      assert Specials[..n + 1] == Specials[..n] + [special];
    }
  }

  lemma {:induction false} AllEscaped(s: string)
    ensures EscapedTo(s, |Specials|) == Escaped(s)
  {
    if |s| > 0 {
      AllEscaped(s[1..]);
      assert Specials[..|Specials|] == Specials;
    }
  }

  // ---------------------------------------------------------------- what escaping promises

  /** Cannot open a marker, and stays on its line. */
  predicate Harmless(s: string) { forall i :: 0 <= i < |s| ==> s[i] != '<' && s[i] != '\n' && s[i] != '\r' }

  predicate NoOpening(s: string) { forall i :: 0 <= i < |s| ==> s[i] != '<' }

  lemma {:induction false} ReplacedHas(s: string, c: char, replacement: string, d: char)
    ensures d in ReplaceChar(s, c, replacement) <==> (d in s && d != c) || (c in s && d in replacement)
  {
    if |s| > 0 { ReplacedHas(s[1..], c, replacement, d); }
  }

  lemma {:induction false} EscapedKeepsHarmless(s: string)
    requires '\n' !in s && '\r' !in s
    ensures Harmless(Escaped(s))
  {
    if |s| > 0 { EscapedKeepsHarmless(s[1..]); }
  }

  /** No rendered value contains a `<`, a newline or a carriage return. */
  lemma RenderedValuesAreHarmless(v: Value)
    ensures Harmless(Escaped(Inline(v)))
  {
    if v.Text? {
      var joined := JoinLineBreaks(v.text);
      ReplacedHas(joined, '\r', "\n", '\r');
      ReplacedHas(ReplaceChar(joined, '\r', "\n"), '\n', " ", '\n');
      ReplacedHas(ReplaceChar(joined, '\r', "\n"), '\n', " ", '\r');
    }
    EscapedKeepsHarmless(Inline(v));
  }

  function Unescaped(s: string): string {
    if |s| == 0 then ""
    else if s[0] == '\\' && |s| >= 2 then [s[1]] + Unescaped(s[2..])
    else if |s| >= 5 && s[..5] == "&amp;" then "&" + Unescaped(s[5..])
    else if |s| >= 4 && s[..4] == "&lt;" then "<" + Unescaped(s[4..])
    else if |s| >= 4 && s[..4] == "&gt;" then ">" + Unescaped(s[4..])
    else [s[0]] + Unescaped(s[1..])
  }

  lemma UnescapesFirst(c: char, rest: string)
    ensures Unescaped(EscapeChar(c) + rest) == [c] + Unescaped(rest)
  {
    var first := EscapeChar(c);
    var all := first + rest;
    assert all[|first|..] == rest && all[..|first|] == first;
    if c == '&' {
      assert all[0] == '&' && all[..5] == "&amp;";
    } else if c == '<' {
      assert all[0] == '&' && all[1] == 'l' && all[..4] == "&lt;";
      assert |all| >= 5 ==> all[..5][1] == 'l' && "&amp;"[1] == 'a';
    } else if c == '>' {
      assert all[0] == '&' && all[1] == 'g' && all[..4] == "&gt;";
      assert |all| >= 5 ==> all[..5][1] == 'g' && "&amp;"[1] == 'a';
      assert all[..4][1] == 'g' && "&lt;"[1] == 'l';
    } else if c in Specials {
      assert all[0] == '\\' && all[1] == c;
    } else {
      assert c != '\\' by { assert Specials[0] == '\\'; }
      assert all[0] == c;
      assert |all| >= 5 ==> all[..5][0] == c && "&amp;"[0] == '&';
      assert |all| >= 4 ==> all[..4][0] == c && "&lt;"[0] == '&' && "&gt;"[0] == '&';
    }
  }

  /** Escaping loses nothing: it can be undone. */
  lemma {:induction false} EscapingIsReversible(s: string)
    ensures Unescaped(Escaped(s)) == s
  {
    if |s| > 0 {
      var first, rest := EscapeChar(s[0]), Escaped(s[1..]);
      EscapingIsReversible(s[1..]);
      assert Escaped(s) == first + rest && Escaped(s)[..|first|] == first && Escaped(s)[|first|..] == rest;
      UnescapesFirst(s[0], rest);
    }
  }

  // ---------------------------------------------------------------- lines

  /** `separator.join(values)`. */
  function Join(values: seq<string>, separator: string): string {
    if |values| == 0 then "" else if |values| == 1 then values[0] else values[0] + separator + Join(values[1..], separator)
  }

  function EscapedAll(values: seq<Value>): seq<string> {
    seq(|values|, i requires 0 <= i < |values| => Escaped(Inline(values[i])))
  }

  function JoinedValues(values: seq<Value>): string {
    if |values| > 0 then Join(EscapedAll(values), ", ") else "none"
  }

  /** `_markdown_joined`. */
  method MarkdownJoined(values: seq<Value>) returns (rendered: string)
    ensures rendered == JoinedValues(values)
  {
    if |values| == 0 { return "none"; }
    var each: seq<string> := [];
    for i := 0 to |values|
      invariant each == EscapedAll(values)[..i]
    {
      var one := MarkdownInline(values[i]);
      each := each + [one];
    }
    assert each == EscapedAll(values);
    rendered := Join(each, ", ");
  }

  lemma {:induction false} JoinHas(values: seq<string>, separator: string, c: char)
    requires c !in separator && forall i :: 0 <= i < |values| ==> c !in values[i]
    ensures c !in Join(values, separator)
  {
    if |values| > 1 { JoinHas(values[1..], separator, c); }
  }

  lemma JoinedValuesAreHarmless(values: seq<Value>)
    ensures Harmless(JoinedValues(values))
  {
    var each := EscapedAll(values);
    forall i | 0 <= i < |each| ensures Harmless(each[i]) { RenderedValuesAreHarmless(values[i]); }
    JoinHas(each, ", ", '<');
    JoinHas(each, ", ", '\n');
    JoinHas(each, ", ", '\r');
  }

  function Decimal(n: nat): string {
    if n < 10 then [('0' as int + n) as char] else Decimal(n / 10) + [('0' as int + n % 10) as char]
  }

  lemma {:induction false} DecimalIsHarmless(n: nat)
    ensures Harmless(Decimal(n))
  {
    if n >= 10 { DecimalIsHarmless(n / 10); }
  }

  // ---------------------------------------------------------------- markers and blocks

  datatype Kind = Begin | End

  datatype Tag = Tag(name: string, version: string, kind: Kind)

  function Prefix(): string { "<!-- pathfinder:generated:" }

  function KindText(kind: Kind): string { if kind == Begin then ":begin -->" else ":end -->" }

  function TagText(tag: Tag): string { Prefix() + tag.name + ":" + tag.version + KindText(tag.kind) }

  /** A block's markers around lines that cannot contain another. */
  predicate IsBlock(text: string, name: string, version: string, body: string) {
    NoOpening(body) && text == TagText(Tag(name, version, Begin)) + "\n" + body + "\n" + TagText(Tag(name, version, End))
  }

  function BlockLines(name: string, middle: seq<string>): seq<string> {
    [TagText(Tag(name, "v1", Begin))] + middle + [TagText(Tag(name, "v1", End))]
  }

  lemma {:induction false} JoinAppends(values: seq<string>, last: string, separator: string)
    requires |values| > 0
    ensures Join(values + [last], separator) == Join(values, separator) + separator + last
  {
    var all := values + [last];
    assert all[1..] == values[1..] + [last] && all[0] == values[0] && |all| > 1;
    if |values| > 1 {
      JoinAppends(values[1..], last, separator);
    } else {
      assert all[1..] == [last];
    }
  }

  ghost predicate AllHarmless(lines: seq<string>) { forall i :: 0 <= i < |lines| ==> Harmless(lines[i]) }

  lemma LinesMakeABlock(name: string, middle: seq<string>)
    requires |middle| > 0 && AllHarmless(middle)
    ensures IsBlock(Join(BlockLines(name, middle), "\n"), name, "v1", Join(middle, "\n"))
  {
    var first, last := TagText(Tag(name, "v1", Begin)), TagText(Tag(name, "v1", End));
    assert NoOpening(Join(middle, "\n")) by { JoinHas(middle, "\n", '<'); }
    JoinAppends([first] + middle, last, "\n");
    assert Join([first] + middle, "\n") == first + "\n" + Join(middle, "\n") by { assert ([first] + middle)[1..] == middle; }
    hide TagText, Join, NoOpening, AllHarmless;
  }

  // ---------------------------------------------------------------- the two blocks

  datatype RenderError = UnsupportedVersion | MalformedMarker | NestedMarkers | MismatchedMarkers | UnclosedMarker
                       | NotExactlyOneRegion | MalformedBegin | MalformedBlock

  datatype Candidate = Candidate(
    candidateId: Value, title: Value, findingIds: seq<Value>, evidenceGrade: Value, expectedValue: Value, risk: Value,
    protectedSurfaces: seq<Value>, proofAvailable: Value, uncertainty: seq<Value>, status: Value, rankingBasis: Value)

  datatype Candidates = Candidates(supported: bool, missionId: Value, generatedAt: Value, searchStopReason: Value, candidates: seq<Candidate>)

  datatype Verdict = Verdict(candidateId: Value, verdict: Value, finalGrade: Value, proofGaps: seq<Value>, adjudication: Value)

  datatype Verification = Verification(supported: bool, missionId: Value, verifiedAt: Value, verifierDepth: Value, lenses: seq<Value>, results: seq<Verdict>)

  /** A line showing one field. */
  datatype Line = Plain(fixed: string) | One(before: string, value: Value) | Many(before: string, values: seq<Value>)
                | Heading(position: nat, id: Value, title: Value)

  function LineText(l: Line): string {
    match l
    case Plain(t) => t
    case One(b, v) => b + Escaped(Inline(v))
    case Many(b, vs) => b + JoinedValues(vs)
    case Heading(n, id, title) => "### " + Decimal(n) + ". " + Escaped(Inline(id)) + " - " + Escaped(Inline(title))
  }

  predicate FixedIsHarmless(l: Line) {
    match l
    case Plain(t) => Harmless(t)
    case One(b, _) => Harmless(b)
    case Many(b, _) => Harmless(b)
    case Heading(_, _, _) => true
  }

  lemma LineIsHarmless(l: Line)
    requires FixedIsHarmless(l)
    ensures Harmless(LineText(l))
  {
    match l
    case Plain(t) =>
    case One(b, v) => RenderedValuesAreHarmless(v);
    case Many(b, vs) => JoinedValuesAreHarmless(vs);
    case Heading(n, id, title) => HeadingIsHarmless(n, id, title);
  }

  lemma HeadingIsHarmless(n: nat, id: Value, title: Value)
    ensures Harmless(LineText(Heading(n, id, title)))
  {
    DecimalIsHarmless(n);
    RenderedValuesAreHarmless(id);
    RenderedValuesAreHarmless(title);
    HarmlessAppends("### ", Decimal(n));
    HarmlessAppends("### " + Decimal(n), ". ");
    HarmlessAppends("### " + Decimal(n) + ". ", Escaped(Inline(id)));
    HarmlessAppends("### " + Decimal(n) + ". " + Escaped(Inline(id)), " - ");
    HarmlessAppends("### " + Decimal(n) + ". " + Escaped(Inline(id)) + " - ", Escaped(Inline(title)));
  }

  lemma HarmlessAppends(a: string, b: string)
    requires Harmless(a) && Harmless(b)
    ensures Harmless(a + b)
  {
  }

  function CandidateLines(position: nat, c: Candidate): seq<Line> {
    [Plain(""), Heading(position, c.candidateId, c.title), Plain(""), Many("- finding_ids: ", c.findingIds),
     One("- evidence_grade: ", c.evidenceGrade), One("- expected_value: ", c.expectedValue), One("- risk: ", c.risk),
     Many("- protected_surfaces: ", c.protectedSurfaces), One("- proof_available: ", c.proofAvailable),
     Many("- uncertainty: ", c.uncertainty), One("- status: ", c.status), One("- ranking_basis: ", c.rankingBasis)]
  }

  function CandidatesHead(d: Candidates): seq<Line> {
    [Plain("## Structured candidates"), Plain(""), One("- mission_id: ", d.missionId), One("- generated_at: ", d.generatedAt),
     One("- search_stop_reason: ", d.searchStopReason)]
  }

  /** Head and the first `n` candidates, numbered from one. */
  function CandidatesLines(d: Candidates, n: nat): seq<Line>
    requires n <= |d.candidates|
  {
    if n == 0 then CandidatesHead(d) else CandidatesLines(d, n - 1) + CandidateLines(n, d.candidates[n - 1])
  }

  function VerdictLines(v: Verdict): seq<Line> {
    [Plain(""), One("### ", v.candidateId), Plain(""), One("- verdict: ", v.verdict), One("- final_grade: ", v.finalGrade),
     Many("- proof_gaps: ", v.proofGaps), One("- adjudication: ", v.adjudication)]
  }

  function VerificationHead(d: Verification): seq<Line> {
    [Plain("## Structured verification results"), Plain(""), One("- mission_id: ", d.missionId), One("- verified_at: ", d.verifiedAt),
     One("- verifier_depth: ", d.verifierDepth), Many("- lenses: ", d.lenses)]
  }

  function VerificationLines(d: Verification, n: nat): seq<Line>
    requires n <= |d.results|
  {
    if n == 0 then VerificationHead(d) else VerificationLines(d, n - 1) + VerdictLines(d.results[n - 1])
  }

  function Texts(lines: seq<Line>): seq<string> { seq(|lines|, i requires 0 <= i < |lines| => LineText(lines[i])) }

  const CandidatesName := "candidates"
  const VerificationName := "verification"

  function CandidatesBlock(d: Candidates): string { Join(BlockLines(CandidatesName, Texts(CandidatesLines(d, |d.candidates|))), "\n") }

  function VerificationBlock(d: Verification): string { Join(BlockLines(VerificationName, Texts(VerificationLines(d, |d.results|))), "\n") }

  ghost predicate FixedHarmless(lines: seq<Line>) { forall i :: 0 <= i < |lines| ==> FixedIsHarmless(lines[i]) }

  lemma FixedAppends(a: seq<Line>, b: seq<Line>)
    requires FixedHarmless(a) && FixedHarmless(b)
    ensures FixedHarmless(a + b)
  {
    hide FixedIsHarmless;
  }

  lemma CandidateIsHarmless(position: nat, c: Candidate)
    ensures FixedHarmless(CandidateLines(position, c))
  {
    hide Harmless;
    FirstLabels();
    MiddleLabels();
    LastLabels();
  }

  lemma FirstLabels()
    ensures Harmless("- finding_ids: ") && Harmless("- evidence_grade: ") && Harmless("- expected_value: ")
  {
  }

  lemma MiddleLabels()
    ensures Harmless("- risk: ") && Harmless("- protected_surfaces: ") && Harmless("- proof_available: ")
  {
  }

  lemma LastLabels()
    ensures Harmless("") && Harmless("- uncertainty: ") && Harmless("- status: ") && Harmless("- ranking_basis: ")
  {
  }

  lemma HeadLabels()
    ensures Harmless("") && Harmless("- mission_id: ")
  {
  }

  lemma CandidatesHeadLabels()
    ensures Harmless("## Structured candidates") && Harmless("- generated_at: ") && Harmless("- search_stop_reason: ")
  {
  }

  lemma CandidatesHeadIsHarmless(d: Candidates)
    ensures FixedHarmless(CandidatesHead(d))
  {
    hide Harmless;
    HeadLabels();
    CandidatesHeadLabels();
  }

  lemma VerificationHeadLabels()
    ensures Harmless("## Structured verification results") && Harmless("- verified_at: ")
  {
  }

  lemma DepthLabels()
    ensures Harmless("- verifier_depth: ") && Harmless("- lenses: ")
  {
  }

  lemma VerificationHeadIsHarmless(d: Verification)
    ensures FixedHarmless(VerificationHead(d))
  {
    hide Harmless;
    HeadLabels();
    VerificationHeadLabels();
    DepthLabels();
  }

  lemma {:induction false} CandidatesAreHarmless(d: Candidates, n: nat)
    requires n <= |d.candidates|
    ensures |CandidatesLines(d, n)| > 0 && FixedHarmless(CandidatesLines(d, n))
  {
    hide FixedHarmless, CandidateLines;
    CandidatesHeadIsHarmless(d);
    if n > 0 {
      CandidatesAreHarmless(d, n - 1);
      CandidateIsHarmless(n, d.candidates[n - 1]);
      FixedAppends(CandidatesLines(d, n - 1), CandidateLines(n, d.candidates[n - 1]));
    }
  }

  lemma VerdictIsHarmless(v: Verdict)
    ensures FixedHarmless(VerdictLines(v))
  {
  }

  lemma {:induction false} VerificationIsHarmless(d: Verification, n: nat)
    requires n <= |d.results|
    ensures |VerificationLines(d, n)| > 0 && FixedHarmless(VerificationLines(d, n))
  {
    hide FixedHarmless, VerdictLines;
    VerificationHeadIsHarmless(d);
    if n > 0 {
      VerificationIsHarmless(d, n - 1);
      VerdictIsHarmless(d.results[n - 1]);
      FixedAppends(VerificationLines(d, n - 1), VerdictLines(d.results[n - 1]));
    }
  }

  lemma TextsMakeABlock(name: string, lines: seq<Line>)
    requires |lines| > 0 && FixedHarmless(lines)
    ensures IsBlock(Join(BlockLines(name, Texts(lines)), "\n"), name, "v1", Join(Texts(lines), "\n"))
  {
    forall i | 0 <= i < |lines| ensures Harmless(Texts(lines)[i]) { LineIsHarmless(lines[i]); }
    hide Harmless;
    LinesMakeABlock(name, Texts(lines));
  }

  ghost predicate Block(text: string, name: string) { exists body :: IsBlock(text, name, "v1", body) }

  /** Whatever the document says, the rendered block holds exactly its own two markers. */
  lemma CandidatesBlockIsABlock(d: Candidates)
    ensures Block(CandidatesBlock(d), CandidatesName)
  {
    hide IsBlock, Join, BlockLines, Texts, FixedHarmless;
    CandidatesAreHarmless(d, |d.candidates|);
    TextsMakeABlock(CandidatesName, CandidatesLines(d, |d.candidates|));
  }

  lemma VerificationBlockIsABlock(d: Verification)
    ensures Block(VerificationBlock(d), VerificationName)
  {
    hide IsBlock, Join, BlockLines, Texts, FixedHarmless;
    VerificationIsHarmless(d, |d.results|);
    TextsMakeABlock(VerificationName, VerificationLines(d, |d.results|));
  }

  // ---------------------------------------------------------------- the renderers

  method RenderLine(l: Line) returns (text: string)
    ensures text == LineText(l)
  {
    match l
    case Plain(t) => text := t;
    case One(b, v) =>
      var one := MarkdownInline(v);
      text := b + one;
    case Many(b, vs) =>
      var many := MarkdownJoined(vs);
      text := b + many;
    case Heading(n, id, title) =>
      var first := MarkdownInline(id);
      var second := MarkdownInline(title);
      text := "### " + Decimal(n) + ". " + first + " - " + second;
  }

  method RenderLines(lines: seq<Line>) returns (texts: seq<string>)
    ensures texts == Texts(lines)
  {
    texts := [];
    for i := 0 to |lines|
      invariant texts == Texts(lines)[..i]
    {
      var one := RenderLine(lines[i]);
      texts := texts + [one];
    }
  }

  lemma TextsAppend(a: seq<Line>, b: seq<Line>)
    ensures Texts(a + b) == Texts(a) + Texts(b)
  {
  }

  /** `render_candidates_block`. */
  method RenderCandidatesBlock(d: Candidates) returns (r: Result<string, RenderError>)
    ensures r == if d.supported then Ok(CandidatesBlock(d)) else Err(UnsupportedVersion)
  {
    if !d.supported { return Err(UnsupportedVersion); }
    var lines := RenderLines(CandidatesHead(d));
    for n := 0 to |d.candidates|
      invariant lines == Texts(CandidatesLines(d, n))
    {
      hide Texts, CandidateLines;
      var more := RenderLines(CandidateLines(n + 1, d.candidates[n]));
      TextsAppend(CandidatesLines(d, n), CandidateLines(n + 1, d.candidates[n]));
      lines := lines + more;
    }
    r := Ok(Join([TagText(Tag(CandidatesName, "v1", Begin))] + lines + [TagText(Tag(CandidatesName, "v1", End))], "\n"));
  }

  /** `render_verification_block`. */
  method RenderVerificationBlock(d: Verification) returns (r: Result<string, RenderError>)
    ensures r == if d.supported then Ok(VerificationBlock(d)) else Err(UnsupportedVersion)
  {
    if !d.supported { return Err(UnsupportedVersion); }
    var lines := RenderLines(VerificationHead(d));
    for n := 0 to |d.results|
      invariant lines == Texts(VerificationLines(d, n))
    {
      hide Texts, VerdictLines;
      var more := RenderLines(VerdictLines(d.results[n]));
      TextsAppend(VerificationLines(d, n), VerdictLines(d.results[n]));
      lines := lines + more;
    }
    r := Ok(Join([TagText(Tag(VerificationName, "v1", Begin))] + lines + [TagText(Tag(VerificationName, "v1", End))], "\n"));
  }
}
