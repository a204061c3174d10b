/**
 * The rendering variant of ui_utils.py: `chart_block` only executes the
 * restyled chart code, and catches and writes whatever that raises;
 * `render_message` draws the blocks, the fallback chart and the three
 * disclosures unconditionally, and shows no suggestion buttons. Nothing here
 * raises, so a render is a plain sequence of draws.
 */
module UiUtils {
  import opened Wrappers
  import opened Strings
  import opened Segmenter
  import opened Autoplot
  import opened ChartCode
  import opened Chat

  /**
   * chart_block(df, waii_chart_spec): nothing for falsy code; otherwise the
   * outline CSS, then the restyled code executed with only `df` bound, then
   * the written exception if it raised.
   */
  function ChartBlockDraws(df: Option<Frame>, spec: Option<string>, fails: ExecFails): seq<Draw> {
    if Truthy(spec) then
      var code := Customize(spec.value);
      [OutlineStyle, ExecSpec(code, df)] + (if fails(code, df) then [ExecError] else [])
    else []
  }

  /** chart_block: the guarded call inside `try`, with `except Exception` writing the error. */
  method RunChartBlock(df: Option<Frame>, spec: Option<string>, fails: ExecFails) returns (ds: seq<Draw>)
    ensures ds == ChartBlockDraws(df, spec, fails)
  {
    ds := [];
    if Truthy(spec) {
      ds := ds + [OutlineStyle];
      var modified := AddBackgroundAndCornerRadius(spec.value);
      ds := ds + [ExecSpec(modified, df)];
      if fails(modified, df) {
        ds := ds + [ExecError];
      }
    }
  }

  /**
   * The chart block draws nothing exactly when the code is falsy. Otherwise
   * it executes the restyled code once, with the frame it was given, and
   * writes an error exactly when that raises; code without a draw call is
   * executed as it is.
   */
  lemma ChartBlockContained(df: Option<Frame>, spec: Option<string>, fails: ExecFails)
    ensures ChartBlockDraws(df, spec, fails) == [] <==> !Truthy(spec)
    ensures Truthy(spec) ==> ChartBlockDraws(df, spec, fails)[..2] == [OutlineStyle, ExecSpec(Customize(spec.value), df)]
    ensures ExecError in ChartBlockDraws(df, spec, fails) <==> Truthy(spec) && fails(Customize(spec.value), df)
    ensures Truthy(spec) && !Contains(spec.value, DRAW_CALL) ==> ExecSpec(spec.value, df) in ChartBlockDraws(df, spec, fails)
  {
    if Truthy(spec) && !Contains(spec.value, DRAW_CALL) {
      CustomizeWithoutDrawCall(spec.value);
      assert ChartBlockDraws(df, spec, fails)[1] == ExecSpec(spec.value, df);
    }
  }

  /** The draws of one block: markdown, inlined SQL, inlined table, or a chart block. */
  function BlockDraws(b: Piece, m: Message, fails: ExecFails): Draw
    requires b.Marker? ==> b.kind in Available(m)
  {
    match b
    case Text(s) => Markdown(s)
    case Marker(k) =>
      match k
      case Sql => Code(m.sql.value, "sql")
      case Data => DataFrame(m.data.value)
      case Chart => ChartBlock(ChartBlockDraws(m.data, m.chart, fails))
  }

  /** The block loop: one draw per block, in order. */
  function InlineDraws(blocks: seq<Piece>, m: Message, fails: ExecFails): (ds: seq<Draw>)
    requires MarkersAvailable(blocks, m)
    ensures |ds| == |blocks|
  {
    seq(|blocks|, i requires 0 <= i < |blocks| => BlockDraws(blocks[i], m, fails))
  }

  /** What render_message draws inside the chat bubble, as a specification. */
  function RenderBody(m: Message, fails: ExecFails): seq<Draw> {
    var blocks := Segments(m.text, Available(m));
    SegmentsAvailable(m);
    InlineDraws(blocks, m, fails) + Fallback(m, blocks, fails) + Disclosures(m, blocks)
  }

  /** The chart block drawn after the loop when no chart marker was drawn and there is data. */
  function Fallback(m: Message, blocks: seq<Piece>, fails: ExecFails): seq<Draw> {
    if Marker(Kind.Chart) !in blocks && m.data.Some? then [ChartBlock(ChartBlockDraws(m.data, m.chart, fails))] else []
  }

  /** render_message: one chat bubble, with the avatar for Otto only. */
  function Render(m: Message, fails: ExecFails): seq<Draw> {
    [ChatMessage(m.name, Avatar(m.name), RenderBody(m, fails))]
  }

  lemma {:induction false} InlineChartBlocks(blocks: seq<Piece>, m: Message, fails: ExecFails)
    requires MarkersAvailable(blocks, m)
    ensures ChartBlockCalls(InlineDraws(blocks, m, fails)) == ChartMarkers(blocks)
    decreases |blocks|
  {
    if |blocks| > 0 {
      InlineChartBlocks(blocks[1..], m, fails);
      InlineDrawsCons(blocks, m, fails);
      assert ChartMarkers(blocks) == (if blocks[0] == Marker(Kind.Chart) then 1 else 0) + ChartMarkers(blocks[1..]);
    }
  }

  /** The block loop's first draw and the loop over the remaining blocks. */
  lemma InlineDrawsCons(blocks: seq<Piece>, m: Message, fails: ExecFails)
    requires |blocks| > 0 && MarkersAvailable(blocks, m)
    ensures MarkersAvailable(blocks[1..], m)
    ensures ChartBlockCalls(InlineDraws(blocks, m, fails))
      == (if blocks[0] == Marker(Kind.Chart) then 1 else 0) + ChartBlockCalls(InlineDraws(blocks[1..], m, fails))
  {
    var ds := InlineDraws(blocks, m, fails);
    assert ds[1..] == InlineDraws(blocks[1..], m, fails);
    assert ds[0].ChartBlock? <==> blocks[0] == Marker(Kind.Chart);
  }

  /**
   * `chart_block` ran once per chart marker plus once more exactly when no
   * chart marker was drawn and there is data.
   */
  lemma RenderFallback(m: Message, fails: ExecFails)
    ensures var blocks := Segments(m.text, Available(m));
      ChartBlockCalls(RenderBody(m, fails))
        == ChartMarkers(blocks) + (if Marker(Kind.Chart) !in blocks && m.data.Some? then 1 else 0)
  {
    var blocks := Segments(m.text, Available(m));
    SegmentsAvailable(m);
    InlineChartBlocks(blocks, m, fails);
    DisclosureEffects(m, blocks);
    var inline := InlineDraws(blocks, m, fails);
    var fallback := Fallback(m, blocks, fails);
    ChartBlockCallsAppend(inline, fallback);
    ChartBlockCallsAppend(inline + fallback, Disclosures(m, blocks));
  }

  /**
   * The expanders are, in order: "SQL Query" exactly when the query is
   * truthy and no block inlined it, "Data" exactly when there is data, and
   * "Waii Chart Specification" exactly when the chart code is truthy. No
   * button is drawn, whatever suggestions the message holds.
   */
  lemma RenderDisclosures(m: Message, fails: ExecFails)
    ensures var blocks := Segments(m.text, Available(m));
      ExpanderTitles(RenderBody(m, fails))
        == (if Truthy(m.sql) && Marker(Sql) !in blocks then [SQL_EXPANDER] else [])
         + (if m.data.Some? then [DATA_EXPANDER] else [])
         + (if Truthy(m.chart) then [SPEC_EXPANDER] else [])
    ensures ButtonLabels(RenderBody(m, fails)) == []
  {
    var blocks := Segments(m.text, Available(m));
    SegmentsAvailable(m);
    DisclosureEffects(m, blocks);
    var head := InlineDraws(blocks, m, fails) + Fallback(m, blocks, fails);
    HeadBlockDraws(blocks, m, fails);
    ExpanderTitlesAppend(head, Disclosures(m, blocks));
    ButtonLabelsAppend(head, Disclosures(m, blocks));
  }

  /** The blocks and the fallback chart show neither an expander nor a button. */
  lemma HeadBlockDraws(blocks: seq<Piece>, m: Message, fails: ExecFails)
    requires MarkersAvailable(blocks, m)
    ensures var head := InlineDraws(blocks, m, fails) + Fallback(m, blocks, fails);
      ButtonLabels(head) == [] && ExpanderTitles(head) == []
  {
    var head := InlineDraws(blocks, m, fails) + Fallback(m, blocks, fails);
    assert forall i :: 0 <= i < |head| ==> IsBlockDraw(head[i]);
    BlockDrawsOnly(head);
  }

  /**
   * The `for block in blocks` loop of render_message: it draws each block and
   * notes whether a chart marker was drawn.
   */
  method DrawBlocks(blocks: seq<Piece>, m: Message, fails: ExecFails) returns (body: seq<Draw>, includesChart: bool)
    requires MarkersAvailable(blocks, m)
    ensures body == InlineDraws(blocks, m, fails)
    ensures includesChart <==> Marker(Kind.Chart) in blocks
  {
    body, includesChart := [], false;
    for i := 0 to |blocks|
      invariant body == InlineDraws(blocks[..i], m, fails)
      invariant includesChart <==> Marker(Kind.Chart) in blocks[..i]
    {
      assert blocks[..i + 1] == blocks[..i] + [blocks[i]];
      match blocks[i]
      case Text(t) =>
        body := body + [Markdown(t)];
      case Marker(k) =>
        if k == Sql {
          body := body + [Code(m.sql.value, "sql")];
        } else if k == Data {
          body := body + [DataFrame(m.data.value)];
        } else {
          includesChart := true;
          var c := RunChartBlock(m.data, m.chart, fails);
          body := body + [ChartBlock(c)];
        }
    }
    assert blocks[..|blocks|] == blocks;
  }

  /**
   * render_message(message, persist): append first when persisting, then
   * draw the bubble.
   */
  method RenderMessage(s: Session, m: Message, persist: bool, fails: ExecFails) returns (ds: seq<Draw>)
    modifies s
    ensures ds == Render(m, fails)
    ensures s.messages == if persist then old(s.messages) + [m] else old(s.messages)
    ensures s.prevResponseUuid == old(s.prevResponseUuid)
  {
    if persist {
      s.Append(m);
    }
    var body := DrawBody(m, fails);
    ds := [ChatMessage(m.name, Avatar(m.name), body)];
  }

  /**
   * What render_message draws inside the bubble: the replacements, the
   * blocks, the fallback chart when no chart marker was drawn and there is
   * data, then the disclosures.
   */
  method DrawBody(m: Message, fails: ExecFails) returns (body: seq<Draw>)
    ensures body == RenderBody(m, fails)
  {
    var available: set<Kind> := {};
    var df: Option<Frame> := None;
    if Truthy(m.sql) {
      available := available + {Sql};
    }
    if m.data.Some? {
      df := m.data;
      available := available + {Data};
    }
    if Truthy(m.chart) {
      available := available + {Kind.Chart};
    }
    assert available == Available(m);
    var blocks := SplitAndInsert(m.text, available);
    SegmentsAvailable(m);
    var includesChart;
    body, includesChart := DrawBlocks(blocks, m, fails);
    if !includesChart && df.Some? {
      var c := RunChartBlock(df, m.chart, fails);
      body := body + [ChartBlock(c)];
    }
    var disclosures := DrawDisclosures(m, blocks);
    body := body + disclosures;
  }
}
