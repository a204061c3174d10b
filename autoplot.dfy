/**
 * The structural chart-axis chooser `autoplot`, written identically in
 * app.py and ui_utils.py. A DataFrame is abstracted to its columns (name and
 * dtype after `infer_objects()`) and its row count; a plotly figure to the
 * constructor and the columns it is given.
 */
module Autoplot {
  import opened Wrappers

  datatype DType = Int64 | Float64 | Object | Bool | Other
  datatype Column = Column(name: string, dtype: DType)
  datatype Frame = Frame(columns: seq<Column>, rows: nat)

  /** `px.bar(df, x, y)`, `px.line(df, x, y)`, `px.pie(df, values, names)`, `px.sunburst(df, path, values)`. */
  datatype Figure =
    | Bar(x: string, y: string)
    | Line(x: string, y: string)
    | Pie(values: string, names: string)
    | Sunburst(path: seq<string>, values: string)

  /** What a call returns: `None`, a figure, or the `ValueError("Invalid chart type")` it raises. */
  datatype PlotResult = Declined | Plotted(figure: Figure) | InvalidChartType

  /** The name of the column the one-column promotion adds. */
  const PROMOTED_COLUMN: string := "x"

  /** The dtypes the chooser accepts for the value axis: `int64` and `float64`. */
  predicate IsNumeric(d: DType) {
    d == Int64 || d == Float64
  }

  /** `df["x"] = df.columns[0]; df = df[["x", df.columns[0]]]` for a one-column frame; other frames are unchanged. */
  function Promote(f: Frame): Frame {
    if |f.columns| == 1 then Frame([Column(PROMOTED_COLUMN, Object), f.columns[0]], f.rows) else f
  }

  /** The first column at index `i` or later whose dtype is numeric. */
  function FirstNumericFrom(cols: seq<Column>, i: nat): (r: Option<nat>)
    ensures r.Some? ==> i <= r.value < |cols| && IsNumeric(cols[r.value].dtype)
    ensures r.Some? ==> forall j :: i <= j < r.value ==> !IsNumeric(cols[j].dtype)
    ensures r.None? ==> forall j :: i <= j < |cols| ==> !IsNumeric(cols[j].dtype)
    decreases |cols| - i
  {
    if i >= |cols| then None
    else if IsNumeric(cols[i].dtype) then Some(i)
    else FirstNumericFrom(cols, i + 1)
  }

  /** The indices in `lo..hi` of the columns of dtype `object`, in increasing order. */
  function ObjectIndices(cols: seq<Column>, lo: nat, hi: nat): (r: seq<nat>)
    requires hi <= |cols|
    ensures forall k :: 0 <= k < |r| ==> lo <= r[k] < hi && cols[r[k]].dtype == Object
    ensures forall a, b :: 0 <= a < b < |r| ==> r[a] < r[b]
    ensures forall j :: lo <= j < hi && cols[j].dtype == Object ==> j in r
    decreases hi
  {
    if hi <= lo then []
    else ObjectIndices(cols, lo, hi - 1) + (if cols[hi - 1].dtype == Object then [hi - 1] else [])
  }

  function Names(cols: seq<Column>, idx: seq<nat>): seq<string>
    requires forall k :: 0 <= k < |idx| ==> idx[k] < |cols|
  {
    seq(|idx|, k requires 0 <= k < |idx| => cols[idx[k]].name)
  }

  /** The sunburst hierarchy: the x column, then every `object` column after it. */
  function SunburstPath(cols: seq<Column>): seq<string>
    requires |cols| > 0
  {
    [cols[0].name] + Names(cols, ObjectIndices(cols, 1, |cols|))
  }

  /** autoplot(df, chart_type), as a specification. */
  function ChooseChart(f: Frame, chartType: string): PlotResult {
    if |f.columns| == 0 then Declined
    else
      var g := Promote(f);
      if g.rows < 2 then Declined
      else
        match FirstNumericFrom(g.columns, 1)
        case None => Declined
        case Some(yi) =>
          var x := g.columns[0].name;
          var y := g.columns[yi].name;
          if chartType == "bar" then Plotted(Bar(x, y))
          else if chartType == "line" then Plotted(Line(x, y))
          else if chartType == "pie" then Plotted(Pie(y, x))
          else if chartType == "sunburst" then Plotted(Sunburst(SunburstPath(g.columns), y))
          else InvalidChartType
  }

  /** The loop `for col in df.columns[1:]: if df[col].dtype in ["int64", "float64"]: y_col = col; break`. */
  method FindValueColumn(cols: seq<Column>) returns (y: Option<nat>)
    ensures y == FirstNumericFrom(cols, 1)
  {
    y := None;
    var i := 1;
    while i < |cols|
      invariant 1 <= i <= |cols| || |cols| <= 1
      invariant FirstNumericFrom(cols, 1) == FirstNumericFrom(cols, i)
    {
      if IsNumeric(cols[i].dtype) {
        y := Some(i);
        break;
      }
      i := i + 1;
    }
  }

  /** The loop that starts the sunburst path with x and appends every later `object` column. */
  method BuildSunburstPath(cols: seq<Column>) returns (path: seq<string>)
    requires |cols| > 0
    ensures path == SunburstPath(cols)
  {
    path := [cols[0].name];
    for i := 1 to |cols|
      invariant path == [cols[0].name] + Names(cols, ObjectIndices(cols, 1, i))
    {
      if cols[i].dtype == Object {
        path := path + [cols[i].name];
      }
    }
  }

  /** autoplot: the decline checks in source order, then the figure for the chart type. */
  method Autoplot(df: Frame, chartType: string) returns (r: PlotResult)
    ensures r == ChooseChart(df, chartType)
  {
    if |df.columns| == 0 {
      return Declined;
    }
    var f := df;
    if |f.columns| == 1 {
      f := Frame([Column(PROMOTED_COLUMN, Object), f.columns[0]], f.rows);
    }
    if f.rows < 2 {
      return Declined;
    }
    var xCol := f.columns[0].name;
    var y := FindValueColumn(f.columns);
    if y.None? {
      return Declined;
    }
    var yCol := f.columns[y.value].name;
    if chartType == "bar" {
      r := Plotted(Bar(xCol, yCol));
    } else if chartType == "line" {
      r := Plotted(Line(xCol, yCol));
    } else if chartType == "pie" {
      r := Plotted(Pie(yCol, xCol));
    } else if chartType == "sunburst" {
      var path := BuildSunburstPath(f.columns);
      r := Plotted(Sunburst(path, yCol));
    } else {
      r := InvalidChartType;
    }
  }

  /** The chart types `autoplot` knows. */
  predicate KnownChartType(chartType: string) {
    chartType in {"bar", "line", "pie", "sunburst"}
  }

  /** The decline conditions, stated on the frame as given (before the promotion). */
  predicate Declines(f: Frame) {
    || |f.columns| == 0
    || f.rows < 2
    || (|f.columns| == 1 && !IsNumeric(f.columns[0].dtype))
    || (|f.columns| > 1 && forall j :: 1 <= j < |f.columns| ==> !IsNumeric(f.columns[j].dtype))
  }

  /**
   * `autoplot` returns None exactly when a decline condition holds, whatever
   * the chart type (so an invalid type on a declining frame still gives
   * None); otherwise it raises for an unknown type and draws for a known one.
   */
  lemma ChooseChartOutcome(f: Frame, chartType: string)
    ensures ChooseChart(f, chartType) == Declined <==> Declines(f)
    ensures ChooseChart(f, chartType) == InvalidChartType <==> !Declines(f) && !KnownChartType(chartType)
    ensures ChooseChart(f, chartType).Plotted? <==> !Declines(f) && KnownChartType(chartType)
  {
    if |f.columns| > 0 {
      var cols := Promote(f).columns;
      if |f.columns| == 1 {
        assert forall j :: 1 <= j < |cols| ==> cols[j] == f.columns[0];
      }
      var first := FirstNumericFrom(cols, 1);
      if first.Some? && |f.columns| > 1 {
        assert IsNumeric(f.columns[first.value].dtype);
      }
    }
  }

  /**
   * When the chooser does not decline, x is column 0 of the promoted frame
   * and y the first numeric column after it; pie swaps them into values and
   * names, and sunburst takes the path of `object` columns.
   */
  lemma ChartFromFirstNumeric(f: Frame, yi: nat)
    requires |f.columns| > 0 && f.rows >= 2
    requires 1 <= yi < |Promote(f).columns| && IsNumeric(Promote(f).columns[yi].dtype)
    requires forall j :: 1 <= j < yi ==> !IsNumeric(Promote(f).columns[j].dtype)
    ensures ChooseChart(f, "bar") == Plotted(Bar(Promote(f).columns[0].name, Promote(f).columns[yi].name))
    ensures ChooseChart(f, "line") == Plotted(Line(Promote(f).columns[0].name, Promote(f).columns[yi].name))
    ensures ChooseChart(f, "pie") == Plotted(Pie(Promote(f).columns[yi].name, Promote(f).columns[0].name))
    ensures ChooseChart(f, "sunburst") == Plotted(Sunburst(SunburstPath(Promote(f).columns), Promote(f).columns[yi].name))
  {
  }

  /**
   * A one-column frame is promoted to `["x", c]` with `"x"` of dtype object,
   * so its own column is the only value candidate, and the sunburst path
   * is just `["x"]`.
   */
  lemma OneColumnPromotion(f: Frame)
    requires |f.columns| == 1
    ensures Promote(f) == Frame([Column(PROMOTED_COLUMN, Object), f.columns[0]], f.rows)
    ensures ChooseChart(f, "bar")
      == if f.rows >= 2 && IsNumeric(f.columns[0].dtype) then Plotted(Bar(PROMOTED_COLUMN, f.columns[0].name)) else Declined
    ensures ChooseChart(f, "sunburst")
      == if f.rows >= 2 && IsNumeric(f.columns[0].dtype) then Plotted(Sunburst([PROMOTED_COLUMN], f.columns[0].name)) else Declined
  {
    var cols := Promote(f).columns;
    if IsNumeric(f.columns[0].dtype) {
      assert ObjectIndices(cols, 1, 2) == [];
      assert Names(cols, []) == [];
      assert SunburstPath(cols) == [PROMOTED_COLUMN];
    }
  }

  /** bar, pie and line share their decline conditions: either all three give a figure or none does. */
  lemma BarPieLineAgree(f: Frame)
    ensures ChooseChart(f, "bar").Plotted? <==> !Declines(f)
    ensures ChooseChart(f, "pie").Plotted? <==> !Declines(f)
    ensures ChooseChart(f, "line").Plotted? <==> !Declines(f)
  {
    ChooseChartOutcome(f, "bar");
    ChooseChartOutcome(f, "pie");
    ChooseChartOutcome(f, "line");
  }

  /** A frame with no rows or with one row gives no chart of any type. */
  lemma FewRowsDecline(f: Frame, chartType: string)
    requires f.rows < 2
    ensures ChooseChart(f, chartType) == Declined
  {
  }

  /** A single text column is promoted but still finds no numeric value column. */
  lemma ExampleSingleTextColumn(name: string, rows: nat)
    ensures ChooseChart(Frame([Column(name, Object)], rows), "bar") == Declined
    ensures ChooseChart(Frame([Column(name, Object)], rows), "line") == Declined
    ensures ChooseChart(Frame([Column(name, Object)], rows), "pie") == Declined
  {
  }

  /** `category` (text), `count` (int64), `flag` (bool): the bar chart plots `count` against `category`. */
  lemma ExampleCategoryCount(rows: nat)
    requires rows >= 2
    ensures ChooseChart(Frame([Column("category", Object), Column("count", Int64), Column("flag", Bool)], rows), "bar")
      == Plotted(Bar("category", "count"))
  {
  }
}
