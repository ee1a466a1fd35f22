/**
 * Text layout: splitting on line breaks, stacking lines at multiples of the
 * line spacing, and the text commands `add_text` emits.
 */
module TextLayout {
  import opened Geometry
  import opened GuiTypes

  /** `str::split('\n')`: always at least one piece; a trailing break yields an empty last piece. */
  function SplitLines(s: string): (r: seq<string>)
    ensures |r| >= 1
    decreases |s|
  {
    if |s| == 0 then [""]
    else if s[0] == '\n' then [""] + SplitLines(s[1..])
    else
      var rest := SplitLines(s[1..]);
      [[s[0]] + rest[0]] + rest[1..]
  }

  /** Joins lines with line breaks. */
  function JoinLines(ls: seq<string>): string
    requires |ls| >= 1
    decreases |ls|
  {
    if |ls| == 1 then ls[0] else ls[0] + "\n" + JoinLines(ls[1..])
  }

  /** Splitting loses nothing and leaves no line break inside a line. */
  lemma {:induction false} SplitLinesJoin(s: string)
    ensures JoinLines(SplitLines(s)) == s
    ensures forall i :: 0 <= i < |SplitLines(s)| ==> '\n' !in SplitLines(s)[i]
    decreases |s|
  {
    if |s| > 0 {
      var rest := SplitLines(s[1..]);
      SplitLinesJoin(s[1..]);
      if s[0] == '\n' {
        assert SplitLines(s)[1..] == rest;
        assert s == "\n" + s[1..];
      } else {
        var r := SplitLines(s);
        assert r[0] == [s[0]] + rest[0];
        assert r[1..] == rest[1..];
        forall i | 0 <= i < |r| ensures '\n' !in r[i] {
          if i > 0 { assert r[i] == rest[i]; }
        }
        if |rest| == 1 {
          assert JoinLines(r) == [s[0]] + rest[0];
        } else {
          assert JoinLines(r) == [s[0]] + rest[0] + "\n" + JoinLines(rest[1..]);
          assert JoinLines(rest) == rest[0] + "\n" + JoinLines(rest[1..]);
        }
        assert s == [s[0]] + s[1..];
      }
    }
  }

  datatype TextFragment = TextFragment(xOffsets: Offsets, yOffset: real, text: string)

  /** The width of one laid-out line: its last x offset. */
  function LineWidth(font: Font, line: string): real {
    var offsets := font.layoutSingleLine(line);
    offsets[|offsets| - 1]
  }

  /** Line `i` is laid out on its own, at height `i` line spacings. */
  function Fragments(font: Font, lines: seq<string>): (r: seq<TextFragment>)
    ensures |r| == |lines|
  {
    seq(|lines|, i requires 0 <= i < |lines| =>
      TextFragment(font.layoutSingleLine(lines[i]), i as real * font.lineSpacing, lines[i]))
  }

  /** The widest line, or 0 for no lines (folded in line order, as the layout loop does). */
  function MaxLineWidth(font: Font, lines: seq<string>): real
    decreases |lines|
  {
    if |lines| == 0 then 0.0
    else MaxOf(LineWidth(font, lines[|lines| - 1]), MaxLineWidth(font, lines[..|lines| - 1]))
  }

  lemma {:induction false} MaxLineWidthIsMax(font: Font, lines: seq<string>)
    ensures MaxLineWidth(font, lines) >= 0.0
    ensures forall i :: 0 <= i < |lines| ==> MaxLineWidth(font, lines) >= LineWidth(font, lines[i])
    ensures MaxLineWidth(font, lines) == 0.0
         || exists i :: 0 <= i < |lines| && MaxLineWidth(font, lines) == LineWidth(font, lines[i])
    decreases |lines|
  {
    if |lines| > 0 {
      var front := lines[..|lines| - 1];
      MaxLineWidthIsMax(font, front);
      var w := MaxLineWidth(font, lines);
      forall i | 0 <= i < |lines| ensures w >= LineWidth(font, lines[i]) {
        if i < |lines| - 1 { assert lines[i] == front[i]; }
      }
      if w != 0.0 && w != LineWidth(font, lines[|lines| - 1]) {
        var j :| 0 <= j < |front| && MaxLineWidth(font, front) == LineWidth(font, front[j]);
        assert lines[j] == front[j];
      }
    }
  }

  /** Laying out one more line appends its fragment and widens the maximum by it. */
  lemma LayoutOneMoreLine(font: Font, lines: seq<string>, k: nat)
    requires k < |lines|
    ensures Fragments(font, lines[..k + 1])
         == Fragments(font, lines[..k]) + [TextFragment(font.layoutSingleLine(lines[k]), k as real * font.lineSpacing, lines[k])]
    ensures MaxLineWidth(font, lines[..k + 1]) == MaxOf(LineWidth(font, lines[k]), MaxLineWidth(font, lines[..k]))
  {
    var longer, shorter := lines[..k + 1], lines[..k];
    assert longer[..k] == shorter;
    var a := Fragments(font, longer);
    var b := Fragments(font, shorter) + [TextFragment(font.layoutSingleLine(lines[k]), k as real * font.lineSpacing, lines[k])];
    forall i | 0 <= i < |a| ensures a[i] == b[i] {
      if i < k { assert longer[i] == shorter[i]; }
    }
  }

  /** The bounding size `layout_text` reports: widest line by the stacked line heights. */
  function LaidOutSize(font: Font, text: string): Vec2 {
    var lines := SplitLines(text);
    Vec2(MaxLineWidth(font, lines), |lines| as real * font.lineSpacing)
  }

  /** The fragments `layout_text` produces for `text`. */
  function LaidOutFragments(font: Font, text: string): (r: seq<TextFragment>)
    ensures |r| == |SplitLines(text)|
  {
    Fragments(font, SplitLines(text))
  }

  /** The commands `add_text` pushes: one text command per fragment, offset by the fragment's height. */
  function TextCommands(pos: Vec2, fragments: seq<TextFragment>): (r: seq<GuiCmd>)
    ensures |r| == |fragments|
    ensures forall i :: 0 <= i < |r| ==>
      r[i] == Text(Vec2(pos.x, pos.y + fragments[i].yOffset), Label, fragments[i].text, fragments[i].xOffsets)
  {
    seq(|fragments|, i requires 0 <= i < |fragments| =>
      Text(pos.Plus(Vec2(0.0, fragments[i].yOffset)), Label, fragments[i].text, fragments[i].xOffsets))
  }
}
