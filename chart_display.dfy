/** The display rules of the chart panel: which chart is drawn and with
    which colours, the file name an export gets, the treemap's label rule,
    the PDF page orientation and when the analysis button and panel show.
    Drawing, image capture and the PDF writer are not modelled. */
module ChartDisplay {
  import opened Wrappers
  import opened Json
  import opened Text
  import opened Types
  import opened Constants
  import Gemini

  // ---------------------------------------------------------------------
  // Export file names: `title.replace(/\s+/g, '_') || 'grafico'`.

  /** `replace(/\s+/g, '_')`: every maximal run of white space becomes one
      underscore; everything else is kept. */
  function CollapseSpaces(s: string): (r: string)
    ensures NoSpace(r)
    ensures |r| <= |s|
    ensures r == [] <==> s == []
    decreases |s|
  {
    if s == [] then []
    else if IsSpace(s[0]) then
      var rest := CollapseSpaces(s[Span(s, IsSpace)..]);
      assert forall i :: 1 <= i < |"_" + rest| ==> ("_" + rest)[i] == rest[i - 1];
      "_" + rest
    else
      var rest := CollapseSpaces(s[1..]);
      assert forall i :: 1 <= i < |[s[0]] + rest| ==> ([s[0]] + rest)[i] == rest[i - 1];
      [s[0]] + rest
  }

  /** A title without white space is kept as it is. */
  lemma {:induction false} CollapseKeepsPlainText(s: string)
    requires NoSpace(s)
    ensures CollapseSpaces(s) == s
    decreases |s|
  {
    if s != [] {
      CollapseKeepsPlainText(s[1..]);
      assert s == [s[0]] + s[1..];
    }
  }

  /** Text, then a maximal run of white space, then the rest: the run turns
      into one underscore and the text before it is kept. */
  lemma {:induction false} CollapseRun(a: string, run: string, b: string)
    requires NoSpace(a) && run != [] && AllSpace(run)
    requires b == [] || !IsSpace(b[0])
    ensures CollapseSpaces(a + run + b) == a + "_" + CollapseSpaces(b)
    decreases |a|
  {
    var s := a + run + b;
    if a == [] {
      assert s == run + b;
      SpanOf(run, b, IsSpace);
      DropPrefix(run, b);
    } else {
      ConsSplit(a, run + b);
      Assoc(a, run, b);
      Assoc(a[1..], run, b);
      assert !IsSpace(s[0]) && s[1..] == a[1..] + run + b;
      CollapseRun(a[1..], run, b);
      var c := CollapseSpaces(b);
      ConsSplit(a, "_" + c);
      Assoc(a, "_", c);
      Assoc(a[1..], "_", c);
    }
  }

  lemma ConsSplit(a: string, b: string)
    requires a != []
    ensures (a + b)[0] == a[0] && (a + b)[1..] == a[1..] + b
    ensures a + b == [a[0]] + (a[1..] + b)
  {
    assert a == [a[0]] + a[1..];
  }

  /** A title made only of white space becomes a single underscore, which
      is not empty, so the fallback name is not used for it. */
  lemma CollapseBlankTitle(s: string)
    requires s != [] && AllSpace(s)
    ensures CollapseSpaces(s) == "_"
  {
    assert [] + s + [] == s;
    CollapseRun([], s, []);
  }

  datatype ExportFormat = Png | Pdf

  function Extension(f: ExportFormat): string {
    match f
    case Png => ".png"
    case Pdf => ".pdf"
  }

  const FallbackName: string := "grafico"

  /** The name the exported image or document is saved under.  The fallback
      is used for the empty title only. */
  function ExportFileName(title: string, f: ExportFormat): (name: string)
    ensures title == [] ==> name == FallbackName + Extension(f)
    ensures title != [] ==> name == CollapseSpaces(title) + Extension(f)
    ensures NoSpace(name)
  {
    var base := CollapseSpaces(title);
    var stem := if base == [] then FallbackName else base;
    assert NoSpace(FallbackName) && NoSpace(Extension(f));
    NoSpaceConcat(stem, Extension(f));
    stem + Extension(f)
  }

  // ---------------------------------------------------------------------
  // Colours.

  /** `PIE_CHART_COLORS[index % PIE_CHART_COLORS.length]`. */
  function PaletteColor(i: nat): (c: string)
    ensures c in PieChartColors
  {
    PieChartColors[i % |PieChartColors|]
  }

  /** Colours repeat every twelve positions, and two positions get the same
      colour exactly when they are the same modulo twelve. */
  lemma PaletteColorCycles(i: nat, j: nat)
    ensures PaletteColor(i + 12) == PaletteColor(i)
    ensures PaletteColor(i) == PaletteColor(j) <==> i % 12 == j % 12
  {
    PaletteDistinct();
    assert (i + 12) % 12 == i % 12;
    if i % 12 < j % 12 {
      assert PieChartColors[i % 12] != PieChartColors[j % 12];
    } else if j % 12 < i % 12 {
      assert PieChartColors[j % 12] != PieChartColors[i % 12];
    }
  }

  /** The kinds drawn in one colour taken from the options; the others
      colour each point from the palette. */
  predicate UsesOptionColor(k: ChartType) {
    k == Bar || k == Line || k == Area || k == Radar
  }

  /** `after` is `{...before, [key]: value}`: one field added or replaced,
      every other field kept. */
  predicate AddsField(before: map<string, JsonValue>, key: string, value: JsonValue, after: map<string, JsonValue>) {
    && after.Keys == before.Keys + {key}
    && after[key] == value
    && forall k :: k in before && k != key ==> after[k] == before[k]
  }

  /** `dataWithFill`: each point with a `fill` field holding its palette
      colour, in order; every other field is kept. */
  function DataWithFill(items: seq<DataItem>): (rows: seq<map<string, JsonValue>>)
    ensures |rows| == |items|
    ensures forall i :: 0 <= i < |items| ==> AddsField(Record(items[i]), "fill", JString(PaletteColor(i)), rows[i])
  {
    seq(|items|, i requires 0 <= i < |items| => Record(items[i])["fill" := JString(PaletteColor(i))])
  }

  /** The treemap's data: each point with an empty `children` array. */
  function TreemapData(items: seq<DataItem>): (rows: seq<map<string, JsonValue>>)
    ensures |rows| == |items|
    ensures forall i :: 0 <= i < |items| ==> AddsField(Record(items[i]), "children", JArray([]), rows[i])
  {
    seq(|items|, i requires 0 <= i < |items| => Record(items[i])["children" := JArray([])])
  }

  // ---------------------------------------------------------------------
  // renderChart

  /** What `renderChart` draws, with the parts of it this model follows:
      the data handed to the chart and the colours it is drawn in. */
  datatype Chart =
    | EmptyState
    | BarChart(data: seq<DataItem>, fill: string)
    | LineChart(data: seq<DataItem>, stroke: string)
    | AreaChart(data: seq<DataItem>, stroke: string, fill: string)
    | PieChart(data: seq<DataItem>, cellColors: seq<string>)
    | RadarChart(data: seq<DataItem>, seriesName: string, stroke: string, fill: string)
    | RadialBarChart(rows: seq<map<string, JsonValue>>)
    | TreemapChart(rows: seq<map<string, JsonValue>>, cellColors: seq<string>)

  function KindOf(c: Chart): ChartType
    requires !c.EmptyState?
  {
    match c
    case BarChart(_, _) => Bar
    case LineChart(_, _) => Line
    case AreaChart(_, _, _) => Area
    case PieChart(_, _) => Pie
    case RadarChart(_, _, _, _) => Radar
    case RadialBarChart(_) => RadialBar
    case TreemapChart(_, _) => Treemap
  }

  /** The palette colour of each position, as the cells of the pie and of
      the treemap take them. */
  function CellColors(n: nat): (cs: seq<string>)
    ensures |cs| == n && forall i :: 0 <= i < n ==> cs[i] == PaletteColor(i)
  {
    seq(n, i requires 0 <= i < n => PaletteColor(i))
  }

  /** `renderChart`.  No data gives the empty state whatever the kind;
      otherwise the chart of the selected kind over the data.  Bar, line,
      area and radar charts are drawn in the options' colour; pie, radial
      bar and treemap colour the i-th point with palette colour i. */
  function RenderChart(items: seq<DataItem>, options: ChartOptions): (c: Chart)
    ensures c.EmptyState? <==> items == []
    ensures items != [] ==> KindOf(c) == options.kind
    ensures c.BarChart? || c.LineChart? || c.AreaChart? || c.PieChart? || c.RadarChart? ==> c.data == items
    ensures c.BarChart? ==> c.fill == options.color
    ensures c.LineChart? ==> c.stroke == options.color
    ensures c.AreaChart? ==> c.stroke == options.color && c.fill == options.color
    ensures c.RadarChart? ==> c.stroke == options.color && c.fill == options.color && c.seriesName == options.title
    ensures c.PieChart? ==> |c.cellColors| == |items| && forall i :: 0 <= i < |items| ==> c.cellColors[i] == PaletteColor(i)
    ensures c.RadialBarChart? ==> c.rows == DataWithFill(items)
    ensures c.TreemapChart? ==> c.rows == TreemapData(items)
    ensures c.TreemapChart? ==> |c.cellColors| == |items| && forall i :: 0 <= i < |items| ==> c.cellColors[i] == PaletteColor(i)
  {
    if items == [] then EmptyState
    else
      match options.kind
      case Bar => BarChart(items, options.color)
      case Line => LineChart(items, options.color)
      case Area => AreaChart(items, options.color, options.color)
      case Pie => PieChart(items, CellColors(|items|))
      case Radar => RadarChart(items, options.title, options.color, options.color)
      case RadialBar => RadialBarChart(DataWithFill(items))
      case Treemap => TreemapChart(TreemapData(items), CellColors(|items|))
  }

  /** For pie, radial bar and treemap the chosen colour changes nothing. */
  lemma MultiColourIgnoresOptionColor(items: seq<DataItem>, options: ChartOptions, color: string)
    requires !UsesOptionColor(options.kind)
    ensures RenderChart(items, options) == RenderChart(items, options.(color := color))
  {
  }

  /** For bar, line, area and radar, with data, a different colour gives a
      different chart. */
  lemma SingleColourShowsOptionColor(items: seq<DataItem>, options: ChartOptions, color: string)
    requires UsesOptionColor(options.kind) && items != [] && color != options.color
    ensures RenderChart(items, options) != RenderChart(items, options.(color := color))
  {
    var c1, c2 := RenderChart(items, options), RenderChart(items, options.(color := color));
    match options.kind
    case Bar => assert c1.fill != c2.fill;
    case Line => assert c1.stroke != c2.stroke;
    case Area => assert c1.stroke != c2.stroke;
    case Radar => assert c1.stroke != c2.stroke;
  }

  // ---------------------------------------------------------------------
  // Geometry and visibility rules.

  /** A treemap cell shows its name when it is wider than 70 and taller
      than 25. */
  predicate TreemapLabelVisible(width: real, height: real) {
    width > 70.0 && height > 25.0
  }

  /** Growing a cell never hides its label, and a cell at either bound
      hides it. */
  lemma TreemapLabelMonotone(w: real, h: real, w2: real, h2: real)
    requires TreemapLabelVisible(w, h) && w <= w2 && h <= h2
    ensures TreemapLabelVisible(w2, h2)
    ensures !TreemapLabelVisible(70.0, h2) && !TreemapLabelVisible(w2, 25.0)
  {
  }

  datatype Orientation = Landscape | Portrait

  /** The PDF page is landscape when the chart is wider than tall. */
  function PdfOrientation(width: int, height: int): (o: Orientation)
    ensures o == Landscape <==> width > height
  {
    if width > height then Landscape else Portrait
  }

  /** Turning a chart that is not square by a quarter turn flips the page;
      a square chart is printed upright. */
  lemma PdfOrientationFlips(w: int, h: int)
    ensures w != h ==> PdfOrientation(w, h) != PdfOrientation(h, w)
    ensures PdfOrientation(w, w) == Portrait
  {
  }

  /** The analysis button is disabled while an analysis runs or when there
      is nothing to analyse. */
  predicate InsightsButtonDisabled(generating: bool, items: seq<DataItem>) {
    generating || |items| == 0
  }

  /** An enabled button always sends at least one point, and only when no
      analysis is running. */
  lemma EnabledInsightsSendData(generating: bool, items: seq<DataItem>)
    requires !InsightsButtonDisabled(generating, items)
    ensures !generating && |Gemini.Payload(items).items| == |items| > 0
  {
  }

  /** `(insights || isGeneratingInsights)`: an analysis text shows only when
      it is not empty. */
  predicate InsightsPanelVisible(insights: Option<string>, generating: bool) {
    generating || (insights.Some? && insights.value != [])
  }
}
