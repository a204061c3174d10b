/**
 * `add_background_and_corner_radius` (ui_utils.py): the text rewrite applied
 * to chart code before it is executed. The code is split on newlines, a fixed
 * styling line is inserted before the first line that draws the figure, and
 * the lines are joined again.
 */
module ChartCode {
  import opened Wrappers
  import opened Strings

  /** The styling statement; it ends in its own newline, so joining adds a blank line after it. */
  const CUSTOMIZATION_LINE: string := "fig.update_layout(paper_bgcolor='#244466', plot_bgcolor='#244466')\n"

  /** The text that marks the line drawing the figure. */
  const DRAW_CALL: string := "st.plotly_chart(fig"

  /** `"\n".join(lines)` */
  function Join(lines: seq<string>): string {
    if |lines| == 0 then ""
    else if |lines| == 1 then lines[0]
    else lines[0] + "\n" + Join(lines[1..])
  }

  /** `s.split("\n")`: never empty, the lines hold no newline, and joining them gives `s` back. */
  function SplitLines(s: string): (lines: seq<string>)
    ensures |lines| >= 1
    ensures Join(lines) == s
    ensures forall k :: 0 <= k < |lines| ==> '\n' !in lines[k]
    decreases |s|
  {
    if s == "" then [""]
    else if s[0] == '\n' then
      var rest := SplitLines(s[1..]);
      assert "\n" + s[1..] == s;
      [""] + rest
    else
      var rest := SplitLines(s[1..]);
      assert [s[0]] + s[1..] == s;
      assert |rest| > 1 ==> rest == [rest[0]] + rest[1..];
      assert forall c :: c in [s[0]] + rest[0] ==> c == s[0] || c in rest[0];
      [[s[0]] + rest[0]] + rest[1..]
  }

  /** The first line, from index `i` on, that contains the draw call. */
  function FirstDrawCall(lines: seq<string>, i: nat): (r: Option<nat>)
    ensures r.Some? ==> i <= r.value < |lines| && Contains(lines[r.value], DRAW_CALL)
    ensures r.Some? ==> forall k :: i <= k < r.value ==> !Contains(lines[k], DRAW_CALL)
    ensures r.None? ==> forall k :: i <= k < |lines| ==> !Contains(lines[k], DRAW_CALL)
    decreases |lines| - i
  {
    if i >= |lines| then None
    else if Contains(lines[i], DRAW_CALL) then Some(i)
    else FirstDrawCall(lines, i + 1)
  }

  /** The line list after the insertion (or unchanged when no line draws). */
  function Customized(lines: seq<string>): seq<string> {
    match FirstDrawCall(lines, 0)
    case None => lines
    case Some(i) => lines[..i] + [CUSTOMIZATION_LINE] + lines[i..]
  }

  /** The whole rewrite, as a specification. */
  function Customize(code: string): string {
    Join(Customized(SplitLines(code)))
  }

  /** add_background_and_corner_radius: the loop that inserts into `split_lines` and breaks. */
  method AddBackgroundAndCornerRadius(code: string) returns (r: string)
    ensures r == Customize(code)
  {
    var splitLines := SplitLines(code);
    ghost var original := splitLines;
    var i := 0;
    while i < |splitLines|
      invariant 0 <= i <= |splitLines| && splitLines == original
      invariant FirstDrawCall(original, 0) == FirstDrawCall(original, i)
    {
      if Contains(splitLines[i], DRAW_CALL) {
        splitLines := splitLines[..i] + [CUSTOMIZATION_LINE] + splitLines[i..];
        break;
      }
      i := i + 1;
    }
    r := Join(splitLines);
  }

  /** A line's occurrence of `p` is an occurrence in the joined text. */
  lemma {:induction false} JoinContains(lines: seq<string>, k: nat, p: string)
    requires k < |lines| && Contains(lines[k], p)
    ensures Contains(Join(lines), p)
    decreases |lines|
  {
    if |lines| > 1 {
      if k == 0 {
        ContainsAppend(lines[0], "\n" + Join(lines[1..]), p);
        assert lines[0] + ("\n" + Join(lines[1..])) == Join(lines);
      } else {
        JoinContains(lines[1..], k - 1, p);
        ContainsPrepend(lines[0] + "\n", Join(lines[1..]), p);
      }
    }
  }

  /** Code that does not contain the draw call comes back exactly as it was. */
  lemma CustomizeWithoutDrawCall(code: string)
    requires !Contains(code, DRAW_CALL)
    ensures Customize(code) == code
  {
    var lines := SplitLines(code);
    forall k | 0 <= k < |lines|
      ensures !Contains(lines[k], DRAW_CALL)
    {
      if Contains(lines[k], DRAW_CALL) {
        JoinContains(lines, k, DRAW_CALL);
      }
    }
  }

  /**
   * Otherwise exactly one element, the styling line, is added, at the index of
   * the first drawing line: removing it gives the original lines in order.
   */
  lemma CustomizedInsertsOnce(lines: seq<string>, k: nat)
    requires k < |lines| && Contains(lines[k], DRAW_CALL)
    requires forall j :: 0 <= j < k ==> !Contains(lines[j], DRAW_CALL)
    ensures |Customized(lines)| == |lines| + 1
    ensures Customized(lines)[k] == CUSTOMIZATION_LINE
    ensures Customized(lines)[..k] + Customized(lines)[k + 1..] == lines
    ensures forall j :: k < j <= |lines| ==> Customized(lines)[j] == lines[j - 1]
  {
    assert FirstDrawCall(lines, 0) == Some(k);
    var r := Customized(lines);
    assert r[..k] == lines[..k];
    assert r[k + 1..] == lines[k..];
    assert lines[..k] + lines[k..] == lines;
  }
}
