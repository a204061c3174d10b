/**
 * What app.py and ui_utils.py share around the renderer: the message record,
 * the session state the two `render_message` functions append to, and the
 * draw commands that stand for Streamlit calls.
 */
module Chat {
  import opened Wrappers
  import opened Segmenter
  import opened Autoplot

  /**
   * One transcript entry. For `sql`, `data` and `chart` a key the dict lacks
   * and a key holding `None` are both `None` here: `render_message` treats
   * them alike. For `suggestions`, `None` is a dict without the key.
   */
  datatype Message = Message(
    name: string,
    text: string,
    sql: Option<string>,
    data: Option<Frame>,
    chart: Option<string>,
    suggestions: Option<seq<string>>)

  /** Python truthiness of an optional string: present and not empty. */
  predicate Truthy(s: Option<string>) {
    s.Some? && s.value != ""
  }

  /** The keys `render_message` puts in `replacements`. */
  function Available(m: Message): set<Kind> {
    (if Truthy(m.sql) then {Sql} else {})
    + (if m.data.Some? then {Data} else {})
    + (if Truthy(m.chart) then {Kind.Chart} else {})
  }

  /**
   * Abstract Streamlit output. `ChartBlock` records one call of `chart_block`
   * with what it drew; `ExecSpec` one `exec` of chart code with only `df`
   * bound; `ExecError` the `st.write(e)` of a caught exception; `OutlineStyle`
   * the CSS markdown `chart_block` injects in ui_utils.py.
   */
  datatype Draw =
    | ChatMessage(name: string, avatar: Option<string>, body: seq<Draw>)
    | Markdown(text: string)
    | Code(source: string, language: string)
    | DataFrame(frame: Frame)
    | ChartBlock(body: seq<Draw>)
    | Tabs(tabs: seq<Tab>)
    | PlotlyChart(figure: Figure)
    | OutlineStyle
    | ExecSpec(code: string, df: Option<Frame>)
    | ExecError
    | Expander(title: string, body: seq<Draw>)
    | Button(caption: string)

  datatype Tab = Tab(title: string, body: seq<Draw>)

  /** Whether `exec(code, {"df": df})` raises: foreign code, so an input of the model. */
  type ExecFails = (string, Option<Frame>) -> bool

  const OTTO: string := "Otto"
  const OTTO_AVATAR: string := "otto_avatar.png"

  function Avatar(name: string): Option<string> {
    if name == OTTO then Some(OTTO_AVATAR) else None
  }

  const SQL_EXPANDER: string := "SQL Query"
  const DATA_EXPANDER: string := "Data"
  const SPEC_EXPANDER: string := "Waii Chart Specification"

  /**
   * The collapsed disclosures drawn after the blocks (under `DEBUG` in app.py,
   * always in ui_utils.py): the SQL unless a marker already showed it, the
   * data, and the chart code.
   */
  function Disclosures(m: Message, blocks: seq<Piece>): seq<Draw> {
    (if Truthy(m.sql) && Marker(Sql) !in blocks then [Expander(SQL_EXPANDER, [Code(m.sql.value, "sql")])] else [])
    + (if m.data.Some? then [Expander(DATA_EXPANDER, [DataFrame(m.data.value)])] else [])
    + (if Truthy(m.chart) then [Expander(SPEC_EXPANDER, [Code(m.chart.value, "python")])] else [])
  }

  /**
   * The sequence of `st.expander` calls itself, each under its own condition;
   * `Disclosures` is what it draws, as a value.
   */
  method DrawDisclosures(m: Message, blocks: seq<Piece>) returns (ds: seq<Draw>)
    ensures ds == Disclosures(m, blocks)
  {
    ds := [];
    if Truthy(m.sql) && Marker(Sql) !in blocks {
      ds := ds + [Expander(SQL_EXPANDER, [Code(m.sql.value, "sql")])];
    }
    if m.data.Some? {
      ds := ds + [Expander(DATA_EXPANDER, [DataFrame(m.data.value)])];
    }
    if Truthy(m.chart) {
      ds := ds + [Expander(SPEC_EXPANDER, [Code(m.chart.value, "python")])];
    }
  }

  /** A draw a block of the text can produce: no disclosure and no button. */
  predicate IsBlockDraw(d: Draw) {
    d.Markdown? || d.Code? || d.DataFrame? || d.ChartBlock?
  }

  /** The blocks hold only markers whose payload the message carries. */
  predicate MarkersAvailable(blocks: seq<Piece>, m: Message) {
    forall i :: 0 <= i < |blocks| && blocks[i].Marker? ==> blocks[i].kind in Available(m)
  }

  /** Segmenting the text against the message's own keys yields only available markers. */
  lemma SegmentsAvailable(m: Message)
    ensures MarkersAvailable(Segments(m.text, Available(m)), m)
  {
    SegmentsMarkers(m.text, Available(m));
  }

  /** The number of `chart_block` calls recorded in `ds`. */
  function ChartBlockCalls(ds: seq<Draw>): nat {
    if |ds| == 0 then 0 else (if ds[0].ChartBlock? then 1 else 0) + ChartBlockCalls(ds[1..])
  }

  lemma {:induction false} ChartBlockCallsAppend(a: seq<Draw>, b: seq<Draw>)
    ensures ChartBlockCalls(a + b) == ChartBlockCalls(a) + ChartBlockCalls(b)
    decreases |a|
  {
    if |a| == 0 {
      assert a + b == b;
    } else {
      assert (a + b)[1..] == a[1..] + b;
      ChartBlockCallsAppend(a[1..], b);
    }
  }

  /** The number of chart markers among the blocks. */
  function ChartMarkers(blocks: seq<Piece>): (n: nat)
    ensures n == 0 <==> Marker(Kind.Chart) !in blocks
  {
    if |blocks| == 0 then 0 else (if blocks[0] == Marker(Kind.Chart) then 1 else 0) + ChartMarkers(blocks[1..])
  }

  /** The labels of the buttons in `ds`, in order. */
  function ButtonLabels(ds: seq<Draw>): seq<string> {
    if |ds| == 0 then [] else (if ds[0].Button? then [ds[0].caption] else []) + ButtonLabels(ds[1..])
  }

  lemma {:induction false} ButtonLabelsAppend(a: seq<Draw>, b: seq<Draw>)
    ensures ButtonLabels(a + b) == ButtonLabels(a) + ButtonLabels(b)
    decreases |a|
  {
    if |a| == 0 {
      assert a + b == b;
    } else {
      assert (a + b)[1..] == a[1..] + b;
      ButtonLabelsAppend(a[1..], b);
    }
  }

  /** The titles of the expanders in `ds`, in order. */
  function ExpanderTitles(ds: seq<Draw>): seq<string> {
    if |ds| == 0 then [] else (if ds[0].Expander? then [ds[0].title] else []) + ExpanderTitles(ds[1..])
  }

  lemma {:induction false} ExpanderTitlesAppend(a: seq<Draw>, b: seq<Draw>)
    ensures ExpanderTitles(a + b) == ExpanderTitles(a) + ExpanderTitles(b)
    decreases |a|
  {
    if |a| == 0 {
      assert a + b == b;
    } else {
      assert (a + b)[0] == a[0] && (a + b)[1..] == a[1..] + b;
      ExpanderTitlesAppend(a[1..], b);
      assert ExpanderTitles(a + b) == ExpanderTitles([a[0]]) + ExpanderTitles(a[1..] + b);
    }
  }

  /** Draws of text blocks show neither a button nor an expander. */
  lemma {:induction false} BlockDrawsOnly(ds: seq<Draw>)
    requires forall i :: 0 <= i < |ds| ==> IsBlockDraw(ds[i])
    ensures ButtonLabels(ds) == [] && ExpanderTitles(ds) == []
    decreases |ds|
  {
    if |ds| > 0 {
      BlockDrawsOnly(ds[1..]);
    }
  }

  /**
   * The disclosures show, in this order, the SQL expander exactly when the
   * query is truthy and no block inlined it, the data expander exactly when
   * there is data, and the chart-code expander exactly when the chart code
   * is truthy; they add no button and no chart block.
   */
  lemma DisclosureEffects(m: Message, blocks: seq<Piece>)
    ensures ExpanderTitles(Disclosures(m, blocks))
      == (if Truthy(m.sql) && Marker(Sql) !in blocks then [SQL_EXPANDER] else [])
       + (if m.data.Some? then [DATA_EXPANDER] else [])
       + (if Truthy(m.chart) then [SPEC_EXPANDER] else [])
    ensures ButtonLabels(Disclosures(m, blocks)) == []
    ensures ChartBlockCalls(Disclosures(m, blocks)) == 0
  {
    DisclosureTitles(m, blocks);
    var ds := Disclosures(m, blocks);
    assert forall i :: 0 <= i < |ds| ==> ds[i].Expander?;
    NoButtonsNoChartBlocks(ds);
  }

  /** The title clause of DisclosureEffects, proved on its own to keep each proof small. */
  lemma DisclosureTitles(m: Message, blocks: seq<Piece>)
    ensures ExpanderTitles(Disclosures(m, blocks))
      == (if Truthy(m.sql) && Marker(Sql) !in blocks then [SQL_EXPANDER] else [])
       + (if m.data.Some? then [DATA_EXPANDER] else [])
       + (if Truthy(m.chart) then [SPEC_EXPANDER] else [])
  {
    var a := if Truthy(m.sql) && Marker(Sql) !in blocks then [Expander(SQL_EXPANDER, [Code(m.sql.value, "sql")])] else [];
    var b := if m.data.Some? then [Expander(DATA_EXPANDER, [DataFrame(m.data.value)])] else [];
    var c := if Truthy(m.chart) then [Expander(SPEC_EXPANDER, [Code(m.chart.value, "python")])] else [];
    ExpanderTitlesAppend(a + b, c);
    ExpanderTitlesAppend(a, b);
  }

  /** Expanders alone show no button and record no `chart_block` call. */
  lemma {:induction false} NoButtonsNoChartBlocks(ds: seq<Draw>)
    requires forall i :: 0 <= i < |ds| ==> ds[i].Expander?
    ensures ButtonLabels(ds) == [] && ChartBlockCalls(ds) == 0
    decreases |ds|
  {
    if |ds| > 0 {
      NoButtonsNoChartBlocks(ds[1..]);
    }
  }

  /**
   * The session state both files keep: the transcript `messages` and the
   * chat id of the last reply, `prev_response_uuid`.
   */
  class Session {
    var messages: seq<Message>
    var prevResponseUuid: Option<string>

    /** Session start: an empty transcript and no previous reply. */
    constructor ()
      ensures messages == [] && prevResponseUuid == None
    {
      messages := [];
      prevResponseUuid := None;
    }

    /** `st.session_state.messages.append(message)` */
    method Append(m: Message)
      modifies this
      ensures messages == old(messages) + [m]
      ensures prevResponseUuid == old(prevResponseUuid)
    {
      messages := messages + [m];
    }
  }
}
