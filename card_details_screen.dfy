/**
 * `CardDetailScreen` and `shareCard`: the texts chosen by orientation, and the share
 * text built line by line with `appendLine` (the image file and the share intent are
 * not modelled).
 */
module CardDetailsScreen {
  import opened Catalog

  /** The description shown: the upright text when upright, the reversed text otherwise. */
  function Description(c: CardOfDay): (s: string)
    ensures c.isUpright ==> s == c.card.uprightDescription
    ensures !c.isUpright ==> s == c.card.reversedDescription
  {
    if c.isUpright then c.card.uprightDescription else c.card.reversedDescription
  }

  /** The meanings shown: the upright list when upright, the reversed list otherwise. */
  function Meanings(c: CardOfDay): (m: seq<string>)
    ensures c.isUpright ==> m == c.card.uprightMeanings
    ensures !c.isUpright ==> m == c.card.reversedMeanings
  {
    if c.isUpright then c.card.uprightMeanings else c.card.reversedMeanings
  }

  /** The orientation label of the detail screen and of the share text. */
  function OrientationLabel(isUpright: bool): (s: string)
    ensures s == "Upright" <==> isUpright
    ensures s == "Reversed" <==> !isUpright
  {
    if isUpright then "Upright" else "Reversed"
  }

  /** One bullet line per meaning. */
  function Bullet(meaning: string): string
  {
    "• " + meaning
  }

  function Bullets(meanings: seq<string>): (lines: seq<string>)
    ensures |lines| == |meanings|
    ensures forall i :: 0 <= i < |meanings| ==> lines[i] == Bullet(meanings[i])
  {
    seq(|meanings|, i requires 0 <= i < |meanings| => Bullet(meanings[i]))
  }

  const ShareHeading := "My Tarot Card of the Day:"
  const ShareMeaningsHeading := "Key Meanings:"
  const ShareFooter := "Shared from Lunear Tarot App"

  /** The lines `shareCard` appends, in order, before the line terminators. */
  function ShareLines(c: CardOfDay): (lines: seq<string>)
    ensures |lines| == 8 + |Meanings(c)|
  {
    ShareHeader(c) + Bullets(Meanings(c)) + ShareTrailer()
  }

  /** What each share line holds. */
  lemma ShareLinesContent(c: CardOfDay)
    ensures var lines := ShareLines(c);
      && lines[0] == ShareHeading
      && lines[1] == c.card.name + " (" + OrientationLabel(c.isUpright) + ")"
      && lines[2] == "" && lines[3] == Description(c) && lines[4] == ""
      && lines[5] == ShareMeaningsHeading
      && (forall i :: 0 <= i < |Meanings(c)| ==> lines[6 + i] == Bullet(Meanings(c)[i]))
      && lines[|lines| - 2] == "" && lines[|lines| - 1] == ShareFooter
  {
  }

  function ShareHeader(c: CardOfDay): seq<string>
  {
    [ShareHeading, c.card.name + " (" + OrientationLabel(c.isUpright) + ")", "", Description(c), "", ShareMeaningsHeading]
  }

  function ShareTrailer(): seq<string>
  {
    ["", ShareFooter]
  }

  /** `appendLine` on each line in turn: every line followed by a line feed. */
  function JoinLines(lines: seq<string>): (text: string)
    ensures |text| >= |lines|
  {
    if lines == [] then "" else JoinLines(lines[..|lines| - 1]) + lines[|lines| - 1] + "\n"
  }

  lemma {:induction false} JoinLinesAppend(a: seq<string>, b: seq<string>)
    ensures JoinLines(a + b) == JoinLines(a) + JoinLines(b)
    decreases |b|
  {
    if b == [] {
      assert a + b == a;
    } else {
      var last := b[|b| - 1];
      assert (a + b)[..|a + b| - 1] == a + b[..|b| - 1];
      JoinLinesAppend(a, b[..|b| - 1]);
    }
  }

  /** The share text. */
  function ShareText(c: CardOfDay): (text: string)
    ensures |text| > |ShareFooter| && text[|text| - |ShareFooter| - 1..] == ShareFooter + "\n"
  {
    var lines := ShareLines(c);
    assert lines[|lines| - 1] == ShareFooter;
    assert JoinLines(lines) == JoinLines(lines[..|lines| - 1]) + (ShareFooter + "\n");
    JoinLines(lines)
  }

  /** One `appendLine`: the text of `lines + [line]` is the text of `lines` followed by the line and a line feed. */
  lemma AppendLine(lines: seq<string>, line: string)
    ensures JoinLines(lines + [line]) == JoinLines(lines) + line + "\n"
  {
    assert (lines + [line])[..|lines|] == lines;
  }

  /** One more meaning adds its bullet line to the bullets' text. */
  lemma BulletStep(meanings: seq<string>, i: nat)
    requires i < |meanings|
    ensures JoinLines(Bullets(meanings[..i + 1])) == JoinLines(Bullets(meanings[..i])) + "• " + meanings[i] + "\n"
  {
    assert Bullets(meanings[..i + 1]) == Bullets(meanings[..i]) + [Bullet(meanings[i])];
    AppendLine(Bullets(meanings[..i]), Bullet(meanings[i]));
  }

  /** `appendLine` for each of `lines` in turn. */
  method AppendLines(text: string, lines: seq<string>) returns (r: string)
    ensures r == text + JoinLines(lines)
  {
    r := text;
    var k := 0;
    while k < |lines|
      invariant 0 <= k <= |lines|
      invariant r == text + JoinLines(lines[..k])
    {
      AppendLine(lines[..k], lines[k]);
      assert lines[..k + 1] == lines[..k] + [lines[k]];
      r := r + lines[k] + "\n";
      k := k + 1;
    }
    assert lines[..k] == lines;
  }

  /** The `forEach` over the meanings: one bullet line per meaning. */
  method AppendBullets(text: string, meanings: seq<string>) returns (r: string)
    ensures r == text + JoinLines(Bullets(meanings))
  {
    r := text;
    var i := 0;
    while i < |meanings|
      invariant 0 <= i <= |meanings|
      invariant r == text + JoinLines(Bullets(meanings[..i]))
    {
      BulletStep(meanings, i);
      r := r + "• " + meanings[i] + "\n";
      i := i + 1;
    }
    assert meanings[..i] == meanings;
  }

  /** The share text is the header's text, then the bullets' text, then the trailer's text. */
  lemma ShareTextParts(c: CardOfDay)
    ensures ShareText(c) == JoinLines(ShareHeader(c)) + JoinLines(Bullets(Meanings(c))) + JoinLines(ShareTrailer())
  {
    JoinLinesAppend(ShareHeader(c), Bullets(Meanings(c)));
    JoinLinesAppend(ShareHeader(c) + Bullets(Meanings(c)), ShareTrailer());
  }

  /** `shareCard`'s `buildString` block: header lines, one bullet per meaning, then the trailer. */
  method BuildShareText(c: CardOfDay) returns (text: string)
    ensures text == ShareText(c)
  {
    var isUpright := c.isUpright;
    var orientation := if isUpright then "Upright" else "Reversed";
    var header := [ShareHeading, c.card.name + " (" + orientation + ")", "",
                   if isUpright then c.card.uprightDescription else c.card.reversedDescription,
                   "", ShareMeaningsHeading];
    assert header == ShareHeader(c);
    text := AppendLines("", header);
    assert text == JoinLines(ShareHeader(c));
    var meanings := if isUpright then c.card.uprightMeanings else c.card.reversedMeanings;
    assert meanings == Meanings(c);
    text := AppendBullets(text, meanings);
    var trailer := ["", ShareFooter];
    assert trailer == ShareTrailer();
    text := AppendLines(text, trailer);
    ShareTextParts(c);
  }

  predicate NoLineFeed(s: string)
  {
    forall i :: 0 <= i < |s| ==> s[i] != '\n'
  }

  /** Splits a text of line-feed-terminated lines back into its lines (a trailing partial line is ignored). */
  function SplitLines(text: string): seq<string>
    decreases |text|
  {
    SplitFrom(text, "")
  }

  function SplitFrom(text: string, pending: string): seq<string>
    decreases |text|
  {
    if text == [] then []
    else if text[0] == '\n' then [pending] + SplitFrom(text[1..], "")
    else SplitFrom(text[1..], pending + [text[0]])
  }

  lemma {:induction false} SplitLineThenRest(line: string, pending: string, rest: string)
    requires NoLineFeed(line)
    ensures SplitFrom(line + "\n" + rest, pending) == [pending + line] + SplitFrom(rest, "")
    decreases |line|
  {
    if line == [] {
      assert line + "\n" + rest == "\n" + rest;
      assert pending + line == pending;
    } else {
      var t := line + "\n" + rest;
      assert t[0] == line[0];
      assert t[1..] == line[1..] + "\n" + rest;
      assert pending + line == (pending + [line[0]]) + line[1..];
      SplitLineThenRest(line[1..], pending + [line[0]], rest);
    }
  }

  function JoinFront(lines: seq<string>): string
  {
    if lines == [] then "" else lines[0] + "\n" + JoinFront(lines[1..])
  }

  lemma {:induction false} JoinFrontIsJoin(lines: seq<string>)
    ensures JoinFront(lines) == JoinLines(lines)
    decreases |lines|
  {
    if lines != [] {
      JoinFrontIsJoin(lines[1..]);
      JoinLinesAppend([lines[0]], lines[1..]);
      assert [lines[0]] + lines[1..] == lines;
      assert JoinLines([lines[0]]) == JoinLines([]) + lines[0] + "\n";
    }
  }

  lemma {:induction false} SplitJoinFront(lines: seq<string>)
    requires forall i :: 0 <= i < |lines| ==> NoLineFeed(lines[i])
    ensures SplitLines(JoinFront(lines)) == lines
    decreases |lines|
  {
    if lines != [] {
      SplitLineThenRest(lines[0], "", JoinFront(lines[1..]));
      assert "" + lines[0] == lines[0];
      SplitJoinFront(lines[1..]);
    }
  }

  /** Joining lines that hold no line feed and splitting the result gives the lines back. */
  lemma SplitJoinRoundTrip(lines: seq<string>)
    requires forall i :: 0 <= i < |lines| ==> NoLineFeed(lines[i])
    ensures SplitLines(JoinLines(lines)) == lines
  {
    JoinFrontIsJoin(lines);
    SplitJoinFront(lines);
  }

  /** A line made of line-feed-free parts holds no line feed. */
  lemma ConcatNoLineFeed(a: string, b: string)
    requires NoLineFeed(a) && NoLineFeed(b)
    ensures NoLineFeed(a + b)
  {
    forall k | 0 <= k < |a + b| ensures (a + b)[k] != '\n' {
      if k >= |a| {
        assert (a + b)[k] == b[k - |a|];
      }
    }
  }

  /** When name, description and meanings hold no line feed, no line of the share text does. */
  lemma ShareLinesNoLineFeed(c: CardOfDay)
    requires NoLineFeed(c.card.name) && NoLineFeed(Description(c))
    requires forall i :: 0 <= i < |Meanings(c)| ==> NoLineFeed(Meanings(c)[i])
    ensures forall i :: 0 <= i < |ShareLines(c)| ==> NoLineFeed(ShareLines(c)[i])
  {
    var lines := ShareLines(c);
    ShareLinesContent(c);
    var orientation := OrientationLabel(c.isUpright);
    assert NoLineFeed(" (") && NoLineFeed(")") && NoLineFeed("• ") && NoLineFeed(orientation);
    ConcatNoLineFeed(c.card.name, " (");
    ConcatNoLineFeed(c.card.name + " (", orientation);
    ConcatNoLineFeed(c.card.name + " (" + orientation, ")");
    forall i | 0 <= i < |Meanings(c)| ensures NoLineFeed(Bullet(Meanings(c)[i])) {
      ConcatNoLineFeed("• ", Meanings(c)[i]);
    }
    forall i | 0 <= i < |lines| ensures NoLineFeed(lines[i]) {
      if 6 <= i < 6 + |Meanings(c)| {
        assert lines[i] == Bullet(Meanings(c)[i - 6]);
      }
    }
  }

  /**
   * When the card's name, description and meanings hold no line feed, the share text
   * consists of exactly 8 + n line-feed-terminated lines for n meanings, and they are
   * the lines of `ShareLines`.
   */
  lemma ShareTextLines(c: CardOfDay)
    requires NoLineFeed(c.card.name) && NoLineFeed(Description(c))
    requires forall i :: 0 <= i < |Meanings(c)| ==> NoLineFeed(Meanings(c)[i])
    ensures SplitLines(ShareText(c)) == ShareLines(c)
    ensures |SplitLines(ShareText(c))| == 8 + |Meanings(c)|
    ensures ShareText(c)[|ShareText(c)| - 1] == '\n'
  {
    var lines := ShareLines(c);
    ShareLinesNoLineFeed(c);
    SplitJoinRoundTrip(lines);
    AppendLine(lines[..|lines| - 1], lines[|lines| - 1]);
    assert lines[..|lines| - 1] + [lines[|lines| - 1]] == lines;
  }
}
