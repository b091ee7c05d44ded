/** The constant tables: the default colour, the chart-type menu, the seed
    data set and the palette for multi-colour charts. */
module Constants {
  import opened Types

  const DefaultChartColor: string := "#3b82f6"

  /** One entry of the chart-type menu: the kind and its Spanish caption
      (the source's `label`, a keyword of Dafny). */
  datatype ChartTypeOption = ChartTypeOption(value: ChartType, caption: string)

  const ChartTypes: seq<ChartTypeOption> := [
    ChartTypeOption(Bar, "Gráfico de Barras"),
    ChartTypeOption(Line, "Gráfico de Líneas"),
    ChartTypeOption(Pie, "Gráfico Circular"),
    ChartTypeOption(Area, "Gráfico de Área"),
    ChartTypeOption(Radar, "Gráfico de Radar"),
    ChartTypeOption(RadialBar, "Gráfico Radial"),
    ChartTypeOption(Treemap, "Mapa de Árbol")
  ]

  const InitialDataItems: seq<DataItem> := [
    DataItem("1", "Ene", 65.0, map[]),
    DataItem("2", "Feb", 59.0, map[]),
    DataItem("3", "Mar", 80.0, map[]),
    DataItem("4", "Abr", 81.0, map[]),
    DataItem("5", "May", 56.0, map[]),
    DataItem("6", "Jun", 55.0, map[])
  ]

  const PieChartColors: seq<string> := [
    "#3b82f6", "#ef4444", "#f97316", "#eab308",
    "#22c55e", "#14b8a6", "#6366f1", "#ec4899",
    "#8b5cf6", "#06b6d4", "#f59e0b", "#10b981"
  ]

  /** Where a kind sits in the menu. */
  function MenuIndex(t: ChartType): (i: nat)
    ensures i < |ChartTypes| && ChartTypes[i].value == t
  {
    match t
    case Bar => 0
    case Line => 1
    case Pie => 2
    case Area => 3
    case Radar => 4
    case RadialBar => 5
    case Treemap => 6
  }

  /** The menu offers every kind exactly once, in the order bar, line, pie,
      area, radar, radialBar, treemap. */
  lemma ChartTypesListEachKindOnce()
    ensures |ChartTypes| == 7
    ensures forall i :: 0 <= i < |ChartTypes| ==> ChartTypes[i].value == [Bar, Line, Pie, Area, Radar, RadialBar, Treemap][i]
    ensures forall t :: MenuIndex(t) < |ChartTypes| && ChartTypes[MenuIndex(t)].value == t
    ensures forall i, j :: 0 <= i < j < |ChartTypes| ==> ChartTypes[i].value != ChartTypes[j].value
  {
  }

  /** The seed data: six well-formed points with the ids "1" to "6", in that
      order, so no two share an id. */
  lemma InitialDataItemsDistinctIds()
    ensures |InitialDataItems| == 6 && AllWellFormed(InitialDataItems)
    ensures forall i :: 0 <= i < 6 ==> InitialDataItems[i].id == [('1' as int + i) as char]
    ensures forall i, j :: 0 <= i < j < |InitialDataItems| ==> InitialDataItems[i].id != InitialDataItems[j].id
  {
  }

  /** Twelve colours, no two alike, the first being the default colour. */
  lemma PaletteDistinct()
    ensures |PieChartColors| == 12
    ensures forall i, j :: 0 <= i < j < |PieChartColors| ==> PieChartColors[i] != PieChartColors[j]
    ensures DefaultChartColor == PieChartColors[0]
  {
  }
}
