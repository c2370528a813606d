/** What single values, numbers and markers look like in a rendered document (pathfinder_core/rendering.py). */
module MarkdownTexts {
  import opened Wrappers
  import opened MarkdownBlocks

  // ---------------------------------------------------------------- line breaks

  /** A carriage return with its line feed becomes one line feed, and the texts around it are treated on their own. */
  lemma {:induction false} BreakJoins(a: string, b: string)
    ensures JoinLineBreaks(a + "\r\n" + b) == JoinLineBreaks(a) + "\n" + JoinLineBreaks(b)
    decreases |a|
  {
    var s := a + "\r\n" + b;
    if |a| == 0 {
      assert s == "\r\n" + b && s[2..] == b;
    } else if |a| >= 2 && a[0] == '\r' && a[1] == '\n' {
      assert s[2..] == a[2..] + "\r\n" + b;
      BreakJoins(a[2..], b);
      Associates("\n", JoinLineBreaks(a[2..]), "\n", JoinLineBreaks(b));
    } else {
      assert s[1..] == a[1..] + "\r\n" + b && s[0] == a[0];
      assert !(s[0] == '\r' && s[1] == '\n') by { if |a| >= 2 { assert s[1] == a[1]; } else { assert s[1] == '\r'; } }
      BreakJoins(a[1..], b);
      Associates([a[0]], JoinLineBreaks(a[1..]), "\n", JoinLineBreaks(b));
    }
  }

  lemma Associates(a: string, b: string, c: string, d: string)
    ensures a + (b + c + d) == (a + b) + c + d
  {}

  /** No carriage return stands before a line feed. */
  ghost predicate NoPairs(s: string) { forall i :: 0 <= i < |s| - 1 ==> !(s[i] == '\r' && s[i + 1] == '\n') }

  /** A text without such a pair stays. */
  lemma {:induction false} UnpairedStays(s: string)
    requires NoPairs(s)
    ensures JoinLineBreaks(s) == s
  {
    if |s| > 0 {
      assert !(|s| >= 2 && s[0] == '\r' && s[1] == '\n');
      forall i | 0 <= i < |s| - 2 ensures !(s[1..][i] == '\r' && s[1..][i + 1] == '\n') { assert !(s[i + 1] == '\r' && s[i + 2] == '\n'); }
      UnpairedStays(s[1..]);
    }
  }

  // ---------------------------------------------------------------- values

  /** Replacing one character by another keeps every position. */
  lemma {:induction false} ReplacedEach(s: string, c: char, r: char)
    ensures |ReplaceChar(s, c, [r])| == |s| && forall i :: 0 <= i < |s| ==> ReplaceChar(s, c, [r])[i] == if s[i] == c then r else s[i]
  {
    if |s| > 0 { ReplacedEach(s[1..], c, r); }
  }

  /** Nothing and truth values have fixed texts; a text is shown as it is, but every way to break a line as one space. */
  lemma InlineIs(a: string, b: string, t: string)
    requires NoPairs(t)
    ensures Inline(Null) == "none" && Inline(Flag(true)) == "true" && Inline(Flag(false)) == "false"
    ensures |Inline(Text(t))| == |t| && forall i :: 0 <= i < |t| ==> Inline(Text(t))[i] == if t[i] in {'\r', '\n'} then ' ' else t[i]
    ensures Inline(Text(a + "\r\n" + b)) == Inline(Text(a)) + " " + Inline(Text(b))
  {
    UnpairedStays(t);
    ReplacedEach(t, '\r', '\n');
    ReplacedEach(ReplaceChar(t, '\r', "\n"), '\n', ' ');
    PairIsSpace(a, b);
    hide ReplaceChar;
  }

  lemma PairIsSpace(a: string, b: string)
    ensures Inline(Text(a + "\r\n" + b)) == Inline(Text(a)) + " " + Inline(Text(b))
  {
    BreakJoins(a, b);
    var x, y := JoinLineBreaks(a), JoinLineBreaks(b);
    hide JoinLineBreaks;
    ReplaceAround(x, "\n", y, '\r', "\n");
    LineFeedStays();
    ReplaceAround(ReplaceChar(x, '\r', "\n"), "\n", ReplaceChar(y, '\r', "\n"), '\n', " ");
  }

  lemma LineFeedStays()
    ensures ReplaceChar("\n", '\r', "\n") == "\n" && ReplaceChar("\n", '\n', " ") == " "
  {
    assert "\n"[1..] == "";
  }

  lemma ReplaceAround(x: string, y: string, z: string, c: char, replacement: string)
    ensures ReplaceChar(x + y + z, c, replacement) == ReplaceChar(x, c, replacement) + ReplaceChar(y, c, replacement) + ReplaceChar(z, c, replacement)
  {
    ReplaceAppends(x + y, z, c, replacement);
    ReplaceAppends(x, y, c, replacement);
  }

  /** What a special character is shown as. */
  lemma EscapesAre(c: char)
    ensures EscapeChar('&') == "&amp;" && EscapeChar('<') == "&lt;" && EscapeChar('>') == "&gt;"
    ensures c in {'\\', '`', '*', '_', '{', '}', '[', ']', '#', '|'} ==> EscapeChar(c) == ['\\', c]
    ensures c !in {'&', '<', '>', '\\', '`', '*', '_', '{', '}', '[', ']', '#', '|'} ==> EscapeChar(c) == [c]
  {
    SpecialsAre(c);
    hide Specials;
  }

  lemma SpecialsAre(c: char)
    ensures c in Specials <==> c in {'\\', '`', '*', '_', '{', '}', '[', ']', '#', '|'}
  {
    var s := Specials;
    assert s[0] == '\\' && s[1] == '`' && s[2] == '*' && s[3] == '_' && s[4] == '{' && s[5] == '}' && s[6] == '[' && s[7] == ']' && s[8] == '#' && s[9] == '|';
  }

  // ---------------------------------------------------------------- numbers

  /** The number a sequence of decimal digits stands for. */
  function Number(s: string): int { if |s| == 0 then 0 else 10 * Number(s[..|s| - 1]) + (s[|s| - 1] as int - 48) }

  /** A number is shown in decimal digits that read back as it, without a leading zero unless it is zero. */
  lemma {:induction false} DecimalReads(n: nat)
    ensures var s := Decimal(n);
            && Number(s) == n && |s| > 0 && (forall i :: 0 <= i < |s| ==> 48 <= s[i] as int < 58) && (s[0] == '0' ==> n == 0)
  {
    if n < 10 {
      assert Decimal(n)[..0] == "" && Number("") == 0;
    } else {
      DecimalReads(n / 10);
      var s := Decimal(n);
      assert s[..|s| - 1] == Decimal(n / 10);
    }
  }

  // ---------------------------------------------------------------- markers

  /** A marker is an HTML comment naming the tool, the region, its version and the end it marks. */
  lemma MarkersAre(name: string, version: string)
    ensures TagText(Tag(name, version, Begin)) == "<!-- pathfinder:generated:" + name + ":" + version + ":begin -->"
    ensures TagText(Tag(name, version, End)) == "<!-- pathfinder:generated:" + name + ":" + version + ":end -->"
  {}
}
