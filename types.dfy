/** The domain records: chart kinds, data points and chart options. */
module Types {
  import opened Wrappers
  import opened Json

  /** The seven chart kinds; the enumeration is closed. */
  datatype ChartType = Bar | Line | Pie | Area | Radar | RadialBar | Treemap

  /** The string each kind carries in the enumeration, and so in stored and
      transmitted JSON. */
  function Tag(t: ChartType): string {
    match t
    case Bar => "bar"
    case Line => "line"
    case Pie => "pie"
    case Area => "area"
    case Radar => "radar"
    case RadialBar => "radialBar"
    case Treemap => "treemap"
  }

  /** Reading a tag back into a kind; anything else is not a chart kind. */
  function ChartTypeFromTag(s: string): (r: Option<ChartType>)
    ensures r.Some? ==> Tag(r.value) == s
    ensures r.None? ==> forall t :: Tag(t) != s
  {
    if s == "bar" then Some(Bar)
    else if s == "line" then Some(Line)
    else if s == "pie" then Some(Pie)
    else if s == "area" then Some(Area)
    else if s == "radar" then Some(Radar)
    else if s == "radialBar" then Some(RadialBar)
    else if s == "treemap" then Some(Treemap)
    else None
  }

  /** Distinct kinds have distinct tags, so a tag names exactly one kind. */
  lemma TagRoundTrip(t: ChartType)
    ensures ChartTypeFromTag(Tag(t)) == Some(t)
  {
  }

  /** A data point: `id`, `name` and `value`, plus whatever other fields the
      object carries (`extra`).  The three named fields are kept apart from
      the others, so `extra` never repeats one of them (`WellFormed`). */
  datatype DataItem = DataItem(id: string, name: string, value: real, extra: map<string, JsonValue>)

  const CoreKeys: set<string> := {"id", "name", "value"}

  predicate WellFormed(d: DataItem) {
    d.extra.Keys !! CoreKeys
  }

  predicate AllWellFormed(items: seq<DataItem>) {
    forall i :: 0 <= i < |items| ==> WellFormed(items[i])
  }

  /** The data point as the JavaScript object it is: every field by name. */
  function Record(d: DataItem): (r: map<string, JsonValue>)
    ensures r.Keys == d.extra.Keys + CoreKeys
    ensures r["id"] == JString(d.id) && r["name"] == JString(d.name) && r["value"] == JNumber(d.value)
    ensures forall k :: k in d.extra && k !in CoreKeys ==> r[k] == d.extra[k]
  {
    d.extra["id" := JString(d.id)]["name" := JString(d.name)]["value" := JNumber(d.value)]
  }

  /** Chart-wide settings.  The source's field `type` is `kind` here, since
      `type` is a keyword of Dafny. */
  datatype ChartOptions = ChartOptions(title: string, kind: ChartType, color: string)

  /** `Partial<ChartOptions>`: each field present or absent. */
  datatype OptionsPatch = OptionsPatch(title: Option<string>, kind: Option<ChartType>, color: Option<string>)
}
