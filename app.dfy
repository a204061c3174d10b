/**
 * The layout and session logic of app.py: `chart_block` with its four tabs,
 * `render_message` with blocks, fallback chart, debug disclosures and
 * suggestion buttons, `ask` with its turn linkage, and the redraw of the
 * history on every rerun. Nothing in app.py catches an exception, so one
 * raised by chart code (or by `autoplot(None)`) ends the run: an `Outcome`
 * records the draws made up to that point and whether it ended that way.
 */
module App {
  import opened Wrappers
  import opened Strings
  import opened Segmenter
  import opened Autoplot
  import opened Chat

  /** The draws a step made, and whether it raised (nothing after it runs). */
  datatype Outcome = Outcome(draws: seq<Draw>, raised: bool)

  /** Run `b` after `a`, unless `a` raised. */
  function Then(a: Outcome, b: Outcome): Outcome {
    if a.raised then a else Outcome(a.draws + b.draws, b.raised)
  }

  /** Running three steps in a row does not depend on how they are grouped. */
  lemma ThenAssoc(a: Outcome, b: Outcome, c: Outcome)
    ensures Then(Then(a, b), c) == Then(a, Then(b, c))
  {
    AppendAssoc(a.draws, b.draws, c.draws);
  }

  const WAII_TAB: string := "Waii Chart"
  const BAR_TAB: string := "Bar Chart"
  const PIE_TAB: string := "Pie Chart"
  const LINE_TAB: string := "Line Chart"

  function TabTitles(ts: seq<Tab>): seq<string> {
    seq(|ts|, i requires 0 <= i < |ts| => ts[i].title)
  }

  /** The contents of a figure tab: the figure when `autoplot` gave one. */
  function FigureTab(p: PlotResult): seq<Draw> {
    if p.Plotted? then [PlotlyChart(p.figure)] else []
  }

  /** The contents of the Waii tab: the chart code is executed only when truthy. */
  function WaiiTab(df: Frame, spec: Option<string>): seq<Draw> {
    if Truthy(spec) then [ExecSpec(spec.value, Some(df))] else []
  }

  /**
   * chart_block(df, waii_chart_spec). With no frame, `autoplot` fails on
   * `None.copy()`. With no bar, pie or line figure, nothing is drawn.
   * Otherwise the four tabs are created first and then filled; chart code
   * that raises leaves the three figure tabs empty.
   */
  function ChartBlockDraws(df: Option<Frame>, spec: Option<string>, fails: ExecFails): (o: Outcome)
    ensures |o.draws| <= 1
    ensures |o.draws| == 1 ==> o.draws[0].Tabs? && |o.draws[0].tabs| == 4
    ensures df.Some? && Truthy(spec) && !fails(spec.value, df) ==> !o.raised
  {
    if df.None? then Outcome([], true)
    else
      var bar := ChooseChart(df.value, "bar");
      var pie := ChooseChart(df.value, "pie");
      var line := ChooseChart(df.value, "line");
      if !(bar.Plotted? || pie.Plotted? || line.Plotted?) then Outcome([], false)
      else if Truthy(spec) && fails(spec.value, df) then
        Outcome([Tabs([Tab(WAII_TAB, WaiiTab(df.value, spec)), Tab(BAR_TAB, []), Tab(PIE_TAB, []), Tab(LINE_TAB, [])])], true)
      else
        Outcome([Tabs([Tab(WAII_TAB, WaiiTab(df.value, spec)), Tab(BAR_TAB, FigureTab(bar)),
                       Tab(PIE_TAB, FigureTab(pie)), Tab(LINE_TAB, FigureTab(line))])], false)
  }

  /**
   * `chart_block` raises exactly when there is no frame, or when the chart
   * code runs (a frame that gives figures and truthy code) and fails; it
   * draws nothing exactly when there is no frame or the frame declines.
   */
  lemma ChartBlockOutcome(df: Option<Frame>, spec: Option<string>, fails: ExecFails)
    ensures ChartBlockDraws(df, spec, fails).raised
      <==> df.None? || (!Declines(df.value) && Truthy(spec) && fails(spec.value, df))
    ensures ChartBlockDraws(df, spec, fails).draws == [] <==> df.None? || Declines(df.value)
  {
    if df.Some? {
      BarPieLineAgree(df.value);
    }
  }

  /**
   * For a frame that does not decline there are four tabs, "Waii Chart"
   * first; the Waii tab executes the code only when it is truthy; and unless
   * that code raised, each of the bar, pie and line tabs shows its figure:
   * all three or (declining frame, see ChartBlockOutcome) none.
   */
  lemma ChartBlockTabs(df: Frame, spec: Option<string>, fails: ExecFails)
    requires !Declines(df)
    ensures var o := ChartBlockDraws(Some(df), spec, fails);
      && |o.draws| == 1 && o.draws[0].Tabs?
      && TabTitles(o.draws[0].tabs) == [WAII_TAB, BAR_TAB, PIE_TAB, LINE_TAB]
      && (ExecSpec(spec.GetOr(""), Some(df)) in o.draws[0].tabs[0].body <==> Truthy(spec))
      && (!o.raised ==> ChooseChart(df, "bar").Plotted? && o.draws[0].tabs[1].body == [PlotlyChart(ChooseChart(df, "bar").figure)])
      && (!o.raised ==> ChooseChart(df, "pie").Plotted? && o.draws[0].tabs[2].body == [PlotlyChart(ChooseChart(df, "pie").figure)])
      && (!o.raised ==> ChooseChart(df, "line").Plotted? && o.draws[0].tabs[3].body == [PlotlyChart(ChooseChart(df, "line").figure)])
      && (o.raised ==> o.draws[0].tabs[1].body == [] && o.draws[0].tabs[2].body == [] && o.draws[0].tabs[3].body == [])
  {
    BarPieLineAgree(df);
    var o := ChartBlockDraws(Some(df), spec, fails);
    assert TabTitles(o.draws[0].tabs) == [WAII_TAB, BAR_TAB, PIE_TAB, LINE_TAB];
  }

  /** One `chart_block` call as a block of the message: what it drew, and whether it raised. */
  function ChartCall(m: Message, fails: ExecFails): Outcome {
    var c := ChartBlockDraws(m.data, m.chart, fails);
    Outcome([ChartBlock(c.draws)], c.raised)
  }

  /** The draws of one block: markdown, inlined SQL, inlined table, or a chart block. */
  function BlockDraws(b: Piece, m: Message, fails: ExecFails): Outcome
    requires b.Marker? ==> b.kind in Available(m)
  {
    match b
    case Text(s) => Outcome([Markdown(s)], false)
    case Marker(k) =>
      match k
      case Sql => Outcome([Code(m.sql.value, "sql")], false)
      case Data => Outcome([DataFrame(m.data.value)], false)
      case Chart => ChartCall(m, fails)
  }

  /** The block loop, which stops at the first block that raises. */
  function InlineDraws(blocks: seq<Piece>, m: Message, fails: ExecFails): Outcome
    requires MarkersAvailable(blocks, m)
  {
    if |blocks| == 0 then Outcome([], false)
    else Then(BlockDraws(blocks[0], m, fails), InlineDraws(blocks[1..], m, fails))
  }

  /** The buttons of the suggestions, in order (none when the key is absent). */
  function SuggestionButtons(m: Message): seq<Draw> {
    var s := m.suggestions.GetOr([]);
    seq(|s|, i requires 0 <= i < |s| => Button(s[i]))
  }

  /** What render_message draws inside the chat bubble, as a specification. */
  function RenderBody(m: Message, fails: ExecFails): Outcome {
    var blocks := Segments(m.text, Available(m));
    SegmentsAvailable(m);
    var fallback := if Marker(Kind.Chart) !in blocks && m.data.Some? then ChartCall(m, fails) else Outcome([], false);
    Then(Then(InlineDraws(blocks, m, fails), fallback), Outcome(Disclosures(m, blocks) + SuggestionButtons(m), false))
  }

  /** render_message: one chat bubble, with the avatar for Otto only. */
  function Render(m: Message, fails: ExecFails): Outcome {
    var body := RenderBody(m, fails);
    Outcome([ChatMessage(m.name, Avatar(m.name), body.draws)], body.raised)
  }

  /**
   * The block loop draws only block draws; unless it raised, it made one
   * chart-block call per chart marker; it raised exactly when there is a
   * chart marker and the chart block raises.
   */
  lemma InlineEffects(blocks: seq<Piece>, m: Message, fails: ExecFails)
    requires MarkersAvailable(blocks, m)
    ensures forall i :: 0 <= i < |InlineDraws(blocks, m, fails).draws| ==> IsBlockDraw(InlineDraws(blocks, m, fails).draws[i])
    ensures InlineDraws(blocks, m, fails).raised <==> Marker(Kind.Chart) in blocks && ChartCall(m, fails).raised
    ensures !InlineDraws(blocks, m, fails).raised ==> ChartBlockCalls(InlineDraws(blocks, m, fails).draws) == ChartMarkers(blocks)
  {
    InlineBlockDraws(blocks, m, fails);
    InlineRaises(blocks, m, fails);
    InlineChartCalls(blocks, m, fails);
  }

  lemma {:induction false} InlineBlockDraws(blocks: seq<Piece>, m: Message, fails: ExecFails)
    requires MarkersAvailable(blocks, m)
    ensures forall i :: 0 <= i < |InlineDraws(blocks, m, fails).draws| ==> IsBlockDraw(InlineDraws(blocks, m, fails).draws[i])
    decreases |blocks|
  {
    if |blocks| > 0 {
      InlineBlockDraws(blocks[1..], m, fails);
    }
  }

  lemma {:induction false} InlineRaises(blocks: seq<Piece>, m: Message, fails: ExecFails)
    requires MarkersAvailable(blocks, m)
    ensures InlineDraws(blocks, m, fails).raised <==> Marker(Kind.Chart) in blocks && ChartCall(m, fails).raised
    decreases |blocks|
  {
    if |blocks| > 0 {
      InlineRaises(blocks[1..], m, fails);
      assert blocks == [blocks[0]] + blocks[1..];
      assert Marker(Kind.Chart) in blocks <==> blocks[0] == Marker(Kind.Chart) || Marker(Kind.Chart) in blocks[1..];
    }
  }

  lemma {:induction false} InlineChartCalls(blocks: seq<Piece>, m: Message, fails: ExecFails)
    requires MarkersAvailable(blocks, m)
    ensures !InlineDraws(blocks, m, fails).raised ==> ChartBlockCalls(InlineDraws(blocks, m, fails).draws) == ChartMarkers(blocks)
    decreases |blocks|
  {
    if |blocks| > 0 {
      InlineChartCalls(blocks[1..], m, fails);
      var b := BlockDraws(blocks[0], m, fails);
      var rest := InlineDraws(blocks[1..], m, fails);
      if !b.raised {
        ChartBlockCallsAppend(b.draws, rest.draws);
        assert ChartBlockCalls(b.draws) == if blocks[0] == Marker(Kind.Chart) then 1 else 0;
      }
    }
  }

  lemma {:induction false} ButtonsOfSuggestions(s: seq<string>, ds: seq<Draw>)
    requires ds == seq(|s|, i requires 0 <= i < |s| => Button(s[i]))
    ensures ButtonLabels(ds) == s && ExpanderTitles(ds) == [] && ChartBlockCalls(ds) == 0
    decreases |s|
  {
    if |s| > 0 {
      ButtonsOfSuggestions(s[1..], ds[1..]);
    }
  }

  /** Disclosures and buttons together: their expanders, labels and (no) chart blocks. */
  lemma TailEffects(m: Message, blocks: seq<Piece>)
    ensures var t := Disclosures(m, blocks) + SuggestionButtons(m);
      && ExpanderTitles(t) == ExpanderTitles(Disclosures(m, blocks))
      && ButtonLabels(t) == m.suggestions.GetOr([])
      && ChartBlockCalls(t) == 0
  {
    DisclosureEffects(m, blocks);
    ButtonsOfSuggestions(m.suggestions.GetOr([]), SuggestionButtons(m));
    ExpanderTitlesAppend(Disclosures(m, blocks), SuggestionButtons(m));
    ButtonLabelsAppend(Disclosures(m, blocks), SuggestionButtons(m));
    ChartBlockCallsAppend(Disclosures(m, blocks), SuggestionButtons(m));
  }

  /**
   * Rendering raises exactly when some chart block is called (a chart
   * marker, or data for the fallback) and that call raises: with no data, or
   * with a frame that plots and chart code that fails.
   */
  lemma RenderRaises(m: Message, fails: ExecFails)
    ensures RenderBody(m, fails).raised
      <==> (Marker(Kind.Chart) in Segments(m.text, Available(m)) || m.data.Some?)
           && ChartBlockDraws(m.data, m.chart, fails).raised
  {
    var blocks := Segments(m.text, Available(m));
    SegmentsAvailable(m);
    InlineEffects(blocks, m, fails);
  }

  /**
   * Unless the bubble raised, `chart_block` ran once per chart marker plus
   * once more exactly when no chart marker was drawn and there is data.
   */
  lemma RenderFallback(m: Message, fails: ExecFails)
    ensures var blocks := Segments(m.text, Available(m));
      !RenderBody(m, fails).raised ==>
        ChartBlockCalls(RenderBody(m, fails).draws)
          == ChartMarkers(blocks) + (if Marker(Kind.Chart) !in blocks && m.data.Some? then 1 else 0)
  {
    var blocks := Segments(m.text, Available(m));
    SegmentsAvailable(m);
    InlineEffects(blocks, m, fails);
    TailEffects(m, blocks);
    var inline := InlineDraws(blocks, m, fails);
    var fallback := if Marker(Kind.Chart) !in blocks && m.data.Some? then ChartCall(m, fails) else Outcome([], false);
    if !RenderBody(m, fails).raised {
      ChartBlockCallsAppend(inline.draws, fallback.draws);
      ChartBlockCallsAppend(inline.draws + fallback.draws, Disclosures(m, blocks) + SuggestionButtons(m));
    }
  }

  /**
   * Unless the bubble raised, the expanders are, in order: "SQL Query" exactly
   * when the query is truthy and no block inlined it, "Data" exactly when
   * there is data, "Waii Chart Specification" exactly when the chart code is
   * truthy; and the buttons are the suggestions in order. A bubble that
   * raised shows neither.
   */
  lemma RenderDisclosuresAndButtons(m: Message, fails: ExecFails)
    ensures var blocks := Segments(m.text, Available(m));
      !RenderBody(m, fails).raised ==>
        && ExpanderTitles(RenderBody(m, fails).draws)
             == (if Truthy(m.sql) && Marker(Sql) !in blocks then [SQL_EXPANDER] else [])
              + (if m.data.Some? then [DATA_EXPANDER] else [])
              + (if Truthy(m.chart) then [SPEC_EXPANDER] else [])
        && ButtonLabels(RenderBody(m, fails).draws) == m.suggestions.GetOr([])
    ensures RenderBody(m, fails).raised ==>
      ExpanderTitles(RenderBody(m, fails).draws) == [] && ButtonLabels(RenderBody(m, fails).draws) == []
  {
    var blocks := Segments(m.text, Available(m));
    SegmentsAvailable(m);
    InlineEffects(blocks, m, fails);
    TailEffects(m, blocks);
    DisclosureEffects(m, blocks);
    var inline := InlineDraws(blocks, m, fails);
    var fallback := if Marker(Kind.Chart) !in blocks && m.data.Some? then ChartCall(m, fails) else Outcome([], false);
    var head := Then(inline, fallback);
    assert forall i :: 0 <= i < |head.draws| ==> IsBlockDraw(head.draws[i]);
    BlockDrawsOnly(head.draws);
    if !head.raised {
      ExpanderTitlesAppend(head.draws, Disclosures(m, blocks) + SuggestionButtons(m));
      ButtonLabelsAppend(head.draws, Disclosures(m, blocks) + SuggestionButtons(m));
    }
  }

  /** One step of the block loop: the first remaining block, then the rest. */
  lemma InlineStep(blocks: seq<Piece>, i: nat, m: Message, fails: ExecFails, body: seq<Draw>)
    requires i < |blocks| && MarkersAvailable(blocks, m)
    ensures MarkersAvailable(blocks[i..], m) && MarkersAvailable(blocks[i + 1..], m)
    ensures Then(Outcome(body, false), InlineDraws(blocks[i..], m, fails))
      == Then(Then(Outcome(body, false), BlockDraws(blocks[i], m, fails)), InlineDraws(blocks[i + 1..], m, fails))
  {
    assert blocks[i..][0] == blocks[i] && blocks[i..][1..] == blocks[i + 1..];
    ThenAssoc(Outcome(body, false), BlockDraws(blocks[i], m, fails), InlineDraws(blocks[i + 1..], m, fails));
  }

  /**
   * The `for block in blocks` loop of render_message: it draws each block and
   * notes whether a chart marker was drawn; a raising chart block ends it.
   */
  method DrawBlocks(blocks: seq<Piece>, m: Message, fails: ExecFails)
    returns (body: seq<Draw>, includesChart: bool, raised: bool)
    requires MarkersAvailable(blocks, m)
    ensures Outcome(body, raised) == InlineDraws(blocks, m, fails)
    ensures !raised ==> (includesChart <==> Marker(Kind.Chart) in blocks)
  {
    body, includesChart, raised := [], false, false;
    assert blocks[0..] == blocks;
    for i := 0 to |blocks|
      invariant InlineDraws(blocks, m, fails) == Then(Outcome(body, false), InlineDraws(blocks[i..], m, fails))
      invariant includesChart <==> Marker(Kind.Chart) in blocks[..i]
    {
      InlineStep(blocks, i, m, fails, body);
      ghost var step := Then(Outcome(body, false), BlockDraws(blocks[i], m, fails));
      assert blocks[..i + 1] == blocks[..i] + [blocks[i]];
      match blocks[i]
      case Text(t) =>
        body := body + [Markdown(t)];
      case Marker(k) =>
        if k == Sql {
          body := body + [Code(m.sql.value, "sql")];
        } else if k == Data {
          body := body + [DataFrame(m.data.value)];
        } else {
          includesChart := true;
          var c := ChartBlockDraws(m.data, m.chart, fails);
          body := body + [ChartBlock(c.draws)];
          if c.raised {
            return body, includesChart, true;
          }
        }
      assert step == Outcome(body, false);
    }
    assert blocks[..|blocks|] == blocks && blocks[|blocks|..] == [];
  }

  /** The `for suggestion in message["suggestions"]` loop: one button per suggestion. */
  method DrawButtons(m: Message) returns (buttons: seq<Draw>)
    ensures buttons == SuggestionButtons(m)
  {
    buttons := [];
    if m.suggestions.Some? {
      var suggestions := m.suggestions.value;
      for j := 0 to |suggestions|
        invariant buttons == seq(j, i requires 0 <= i < j => Button(suggestions[i]))
      {
        buttons := buttons + [Button(suggestions[j])];
      }
    }
  }

  /**
   * render_message(message, persist): append first when persisting, then
   * draw the blocks, the fallback chart, the disclosures and the buttons.
   * A raising chart block ends the call with what was drawn so far.
   */
  method RenderMessage(s: Session, m: Message, persist: bool, fails: ExecFails) returns (o: Outcome)
    modifies s
    ensures o == Render(m, fails)
    ensures s.messages == if persist then old(s.messages) + [m] else old(s.messages)
    ensures s.prevResponseUuid == old(s.prevResponseUuid)
  {
    if persist {
      s.Append(m);
    }
    var body := DrawBody(m, fails);
    o := Outcome([ChatMessage(m.name, Avatar(m.name), body.draws)], body.raised);
  }

  /**
   * What render_message draws inside the bubble: the replacements, the
   * blocks, the fallback chart, the disclosures and the buttons, stopping at
   * the first chart block that raises.
   */
  method DrawBody(m: Message, fails: ExecFails) returns (o: Outcome)
    ensures o == RenderBody(m, fails)
  {
    var available: set<Kind> := {};
    var df: Option<Frame> := None;
    if Truthy(m.sql) {
      available := available + {Sql};
    }
    if m.data.Some? {
      df := m.data;
      available := available + {Data};
    }
    if Truthy(m.chart) {
      available := available + {Kind.Chart};
    }
    assert available == Available(m);
    var blocks := SplitAndInsert(m.text, available);
    SegmentsAvailable(m);
    var body, includesChart, raised := DrawBlocks(blocks, m, fails);
    if raised {
      return Outcome(body, true);
    }
    if !includesChart && df.Some? {
      var c := ChartBlockDraws(df, m.chart, fails);
      body := body + [ChartBlock(c.draws)];
      if c.raised {
        return Outcome(body, true);
      }
    }
    assert Then(InlineDraws(blocks, m, fails), if Marker(Kind.Chart) !in blocks && m.data.Some? then ChartCall(m, fails) else Outcome([], false))
      == Outcome(body, false);
    var disclosures := DrawDisclosures(m, blocks);
    var buttons := DrawButtons(m);
    body := body + (disclosures + buttons);
    o := Outcome(body, false);
  }

  /** The request `ask` sends: the question and the id of the previous reply. */
  datatype ChatRequest = ChatRequest(ask: string, parentUuid: Option<string>)

  /** The parts of a reply: `query` (with its `query` text), `data` (as a frame), `chart` (with its `plot` code). */
  datatype QueryReply = QueryReply(query: Option<string>)
  datatype ChartReply = ChartReply(plot: Option<string>)
  datatype ResponseData = ResponseData(query: Option<QueryReply>, data: Option<Frame>, chart: Option<ChartReply>)
  datatype ChatResponse = ChatResponse(chatUuid: Option<string>, response: string, responseData: ResponseData)

  const USER: string := "user"

  /** The message `ask` records for the question. */
  function UserMessage(question: string): (m: Message)
    ensures m.name != OTTO && m.text == question
    ensures m.sql.None? && m.data.None? && m.chart.None? && m.suggestions.None?
    ensures Available(m) == {}
  {
    Message(USER, question, None, None, None, None)
  }

  /** The message `ask` records for the reply: each absent part becomes `None`, and no suggestions. */
  function OttoMessage(r: ChatResponse): (m: Message)
    ensures m.name == OTTO && m.text == r.response && m.suggestions.None?
    ensures r.responseData.query.None? ==> m.sql.None?
    ensures r.responseData.query.Some? ==> m.sql == r.responseData.query.value.query
    ensures m.data == r.responseData.data
    ensures r.responseData.chart.None? ==> m.chart.None?
    ensures r.responseData.chart.Some? ==> m.chart == r.responseData.chart.value.plot
  {
    var d := r.responseData;
    Message(OTTO, r.response,
      if d.query.Some? then d.query.value.query else None,
      d.data,
      if d.chart.Some? then d.chart.value.plot else None,
      None)
  }

  /** The Markdown texts among `ds`, in order. */
  function MarkdownTexts(ds: seq<Draw>): seq<string> {
    if |ds| == 0 then [] else (if ds[0].Markdown? then [ds[0].text] else []) + MarkdownTexts(ds[1..])
  }

  lemma {:induction false} InlineTextOnly(blocks: seq<Piece>, m: Message, fails: ExecFails)
    requires forall i :: 0 <= i < |blocks| ==> blocks[i].Text?
    ensures !InlineDraws(blocks, m, fails).raised
    ensures InlineDraws(blocks, m, fails).draws == seq(|blocks|, i requires 0 <= i < |blocks| => Markdown(Original(blocks[i])))
    ensures MarkdownTexts(InlineDraws(blocks, m, fails).draws) == Originals(blocks)
    decreases |blocks|
  {
    if |blocks| > 0 {
      InlineTextOnly(blocks[1..], m, fails);
      var rest := seq(|blocks| - 1, i requires 0 <= i < |blocks| - 1 => Markdown(Original(blocks[1..][i])));
      assert seq(|blocks|, i requires 0 <= i < |blocks| => Markdown(Original(blocks[i]))) == [Markdown(blocks[0].s)] + rest;
      assert Originals(blocks) == [blocks[0].s] + Originals(blocks[1..]);
    }
  }

  /**
   * The bubble of a question never raises and holds nothing but its text as
   * Markdown: the texts concatenate back to the question.
   */
  lemma UserTurnPlain(question: string, fails: ExecFails)
    ensures !RenderBody(UserMessage(question), fails).raised
    ensures RenderBody(UserMessage(question), fails).draws == InlineDraws(Segments(question, {}), UserMessage(question), fails).draws
    ensures forall d :: d in RenderBody(UserMessage(question), fails).draws ==> d.Markdown?
    ensures Concat(MarkdownTexts(RenderBody(UserMessage(question), fails).draws)) == question
  {
    var m := UserMessage(question);
    var blocks := Segments(question, {});
    SegmentsMarkers(question, {});
    assert forall i :: 0 <= i < |blocks| ==> blocks[i].Text?;
    SegmentsAvailable(m);
    InlineTextOnly(blocks, m, fails);
    SegmentsRoundTrip(question, {});
    assert Disclosures(m, blocks) == [] && SuggestionButtons(m) == [];
    assert InlineDraws(blocks, m, fails).draws + [] == InlineDraws(blocks, m, fails).draws;
  }

  lemma UserTurnNeverRaises(question: string, fails: ExecFails)
    ensures !Render(UserMessage(question), fails).raised
  {
    UserTurnPlain(question, fails);
  }

  /**
   * ask(question): render and record the question, send it with the id of
   * the previous reply, keep the new reply's id, then render and record the
   * reply. The reply is an input: the network call is not modelled.
   */
  method Ask(s: Session, question: string, reply: ChatResponse, fails: ExecFails)
    returns (request: ChatRequest, userOut: Outcome, aiOut: Outcome)
    modifies s
    ensures request == ChatRequest(question, old(s.prevResponseUuid))
    ensures s.prevResponseUuid == reply.chatUuid
    ensures s.messages == old(s.messages) + [UserMessage(question), OttoMessage(reply)]
    ensures userOut == Render(UserMessage(question), fails) && !userOut.raised
    ensures aiOut == Render(OttoMessage(reply), fails)
  {
    ghost var before := s.messages;
    userOut := RenderMessage(s, UserMessage(question), true, fails);
    UserTurnNeverRaises(question, fails);
    request := ChatRequest(question, s.prevResponseUuid);
    s.prevResponseUuid := reply.chatUuid;
    aiOut := RenderMessage(s, OttoMessage(reply), true, fails);
    AppendAssoc(before, [UserMessage(question)], [OttoMessage(reply)]);
  }

  /**
   * Two questions in a fresh session: the first request has no parent, the
   * second names the first reply, and the history holds the four messages
   * in order.
   */
  method TwoTurns(q1: string, r1: ChatResponse, q2: string, r2: ChatResponse, fails: ExecFails)
    returns (first: ChatRequest, second: ChatRequest, history: seq<Message>)
    ensures first == ChatRequest(q1, None)
    ensures second == ChatRequest(q2, r1.chatUuid)
    ensures history == [UserMessage(q1), OttoMessage(r1), UserMessage(q2), OttoMessage(r2)]
  {
    var s := new Session();
    var o1, o2, o3, o4;
    first, o1, o2 := Ask(s, q1, r1, fails);
    second, o3, o4 := Ask(s, q2, r2, fails);
    history := s.messages;
  }

  /** The rerun: every recorded message is rendered again, in order, until one raises. */
  function History(msgs: seq<Message>, fails: ExecFails): Outcome {
    if |msgs| == 0 then Outcome([], false)
    else Then(Render(msgs[0], fails), History(msgs[1..], fails))
  }

  /**
   * The redraw raises exactly when some message's bubble does; otherwise it
   * shows one bubble per message, in order.
   */
  lemma {:induction false} HistoryEffects(msgs: seq<Message>, fails: ExecFails)
    ensures History(msgs, fails).raised <==> exists i :: 0 <= i < |msgs| && Render(msgs[i], fails).raised
    ensures !History(msgs, fails).raised ==>
      |History(msgs, fails).draws| == |msgs|
      && forall i :: 0 <= i < |msgs| ==> History(msgs, fails).draws[i] == Render(msgs[i], fails).draws[0]
    decreases |msgs|
  {
    if |msgs| > 0 {
      HistoryEffects(msgs[1..], fails);
      if Render(msgs[0], fails).raised {
        assert 0 < |msgs| && Render(msgs[0], fails).raised;
      } else {
        forall i | 1 <= i < |msgs| ensures msgs[i] == msgs[1..][i - 1] { }
      }
    }
  }

  /** The loop over `messages` that redraws the history (with `persist` off). */
  method Redraw(s: Session, fails: ExecFails) returns (o: Outcome)
    modifies s
    ensures o == History(old(s.messages), fails)
    ensures s.messages == old(s.messages) && s.prevResponseUuid == old(s.prevResponseUuid)
  {
    var msgs := s.messages;
    var draws: seq<Draw> := [];
    for i := 0 to |msgs|
      invariant s.messages == msgs && s.prevResponseUuid == old(s.prevResponseUuid)
      invariant History(msgs, fails) == Then(Outcome(draws, false), History(msgs[i..], fails))
    {
      assert msgs[i..][0] == msgs[i] && msgs[i..][1..] == msgs[i + 1..];
      ThenAssoc(Outcome(draws, false), Render(msgs[i], fails), History(msgs[i + 1..], fails));
      var r := RenderMessage(s, msgs[i], false, fails);
      draws := draws + r.draws;
      if r.raised {
        return Outcome(draws, true);
      }
    }
    o := Outcome(draws, false);
  }
}
