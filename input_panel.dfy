/** The editing panel: adding and removing data points by hand, the AI
    prompt form and the chart settings controls. */
module InputPanel {
  import opened Wrappers
  import opened Text
  import opened Types
  import opened Gemini
  import opened Storage
  import opened App
  import ChartDisplay

  // ---------------------------------------------------------------------
  // The data list.

  /** The list after "Añadir Elemento": the point is appended when the name
      is not blank once trimmed and the value parses as a number (`parsed`
      is `parseFloat`'s result, `None` for NaN); it gets the trimmed name
      and the id `id`. */
  function AppendItem(items: seq<DataItem>, name: string, parsed: Option<real>, id: string): (r: Option<seq<DataItem>>)
    ensures r.Some? <==> Trim(name) != [] && parsed.Some?
    ensures r.Some? ==> |r.value| == |items| + 1 && r.value[..|items|] == items
    ensures r.Some? ==>
      var d := r.value[|items|];
      d.id == id && d.name == Trim(name) && d.value == parsed.value && d.extra == map[]
    ensures r.Some? && AllWellFormed(items) ==> AllWellFormed(r.value)
  {
    if Trim(name) != [] && parsed.Some? then
      var r := items + [DataItem(id, Trim(name), parsed.value, map[])];
      assert r[..|items|] == items;
      Some(r)
    else None
  }

  /** `dataItems.filter(item => item.id !== id)`. */
  function RemoveById(items: seq<DataItem>, id: string): (r: seq<DataItem>)
    ensures |r| <= |items|
    ensures forall i :: 0 <= i < |r| ==> r[i].id != id && r[i] in items
    ensures forall d :: d in items && d.id != id ==> d in r
  {
    if items == [] then []
    else
      var rest := RemoveById(items[1..], id);
      assert forall d :: d in items[1..] ==> d in items;
      assert forall d :: d in items ==> d == items[0] || d in items[1..];
      if items[0].id == id then rest else [items[0]] + rest
  }

  /** Filtering a concatenation filters each part and keeps them in order;
      together with `RemoveSingle` this fixes the result completely. */
  lemma {:induction false} RemoveDistributes(a: seq<DataItem>, b: seq<DataItem>, id: string)
    ensures RemoveById(a + b, id) == RemoveById(a, id) + RemoveById(b, id)
  {
    if a != [] {
      assert (a + b)[0] == a[0] && (a + b)[1..] == a[1..] + b;
      RemoveDistributes(a[1..], b, id);
    } else {
      assert a + b == b;
    }
  }

  lemma RemoveSingle(d: DataItem, id: string)
    ensures RemoveById([d], id) == if d.id == id then [] else [d]
  {
  }

  /** An id no point has leaves the list as it is. */
  lemma {:induction false} RemoveAbsent(items: seq<DataItem>, id: string)
    requires forall i :: 0 <= i < |items| ==> items[i].id != id
    ensures RemoveById(items, id) == items
  {
    if items != [] {
      RemoveAbsent(items[1..], id);
      assert items == [items[0]] + items[1..];
    }
  }

  /** Removing twice is removing once. */
  lemma RemoveIdempotent(items: seq<DataItem>, id: string)
    ensures RemoveById(RemoveById(items, id), id) == RemoveById(items, id)
  {
    RemoveAbsent(RemoveById(items, id), id);
  }

  /** Removing the point just added, under an id no other point has, gives
      the list back. */
  lemma AddThenRemove(items: seq<DataItem>, name: string, parsed: Option<real>, id: string)
    requires Trim(name) != [] && parsed.Some?
    requires forall i :: 0 <= i < |items| ==> items[i].id != id
    ensures RemoveById(AppendItem(items, name, parsed, id).value, id) == items
  {
    var d := DataItem(id, Trim(name), parsed.value, map[]);
    assert AppendItem(items, name, parsed, id).value == items + [d];
    RemoveDistributes(items, [d], id);
    RemoveAbsent(items, id);
    RemoveSingle(d, id);
    assert items + [] == items;
  }

  // ---------------------------------------------------------------------
  // Controls.

  const MultiColorChartTypes: seq<ChartType> := [Pie, RadialBar, Treemap]

  /** `!multiColorChartTypes.includes(chartOptions.type)`: the colour picker
      shows exactly for the kinds drawn in the options' colour. */
  predicate ShowsColorControl(k: ChartType)
    ensures ShowsColorControl(k) <==> ChartDisplay.UsesOptionColor(k)
  {
    assert MultiColorChartTypes[0] == Pie && MultiColorChartTypes[1] == RadialBar && MultiColorChartTypes[2] == Treemap;
    k !in MultiColorChartTypes
  }

  /** While the colour picker is hidden, no colour could have changed the
      chart. */
  lemma ColorControlMatchesChart(items: seq<DataItem>, options: ChartOptions, color: string)
    ensures !ShowsColorControl(options.kind) ==>
      ChartDisplay.RenderChart(items, options) == ChartDisplay.RenderChart(items, options.(color := color))
  {
    if !ShowsColorControl(options.kind) {
      ChartDisplay.MultiColourIgnoresOptionColor(items, options, color);
    }
  }

  /** `isGeneratingData || !aiPrompt`. */
  predicate SubmitDisabled(generating: bool, prompt: string) {
    generating || prompt == []
  }

  /** When no request runs, the button is disabled exactly for the prompt
      the handler would ignore: an enabled button always starts a request. */
  lemma SubmitDisabledWhenIgnored(s: AppState, prompt: string)
    requires !s.isLoading.data
    ensures SubmitDisabled(s.isLoading.data, prompt) <==> StartGenerateData(s, prompt) == s
    ensures !SubmitDisabled(s.isLoading.data, prompt) ==> StartGenerateData(s, prompt).isLoading.data
  {
  }

  // ---------------------------------------------------------------------
  // The component.

  /** The `InputPanel` component: its three text fields, and the
      application whose handlers it calls. */
  class InputPanel {
    var newItemName: string
    var newItemValue: string
    var aiPrompt: string
    const app: App

    constructor(app: App)
      ensures newItemName == [] && newItemValue == [] && aiPrompt == [] && this.app == app
    {
      newItemName := [];
      newItemValue := [];
      aiPrompt := [];
      this.app := app;
    }

    /** `handleAddItem`.  `parseFloat` reads the value field and `newId` is
        the id drawn for the point.  On success the list grows by the new
        point, it is saved and both fields are emptied; otherwise (where the
        source alerts) nothing changes. */
    method HandleAddItem(parseFloat: string -> Option<real>, newId: string) returns (added: bool)
      modifies this, app, app.storage
      requires app.Valid()
      ensures app.Valid() && aiPrompt == old(aiPrompt)
      ensures var r := AppendItem(old(app.dataItems), old(newItemName), parseFloat(old(newItemValue)), newId);
        && added == r.Some?
        && (added ==>
              && app.State() == SetDataItems(old(app.State()), r.value)
              && app.storage.entries == Saved(old(app.storage.entries), app.storage.accepts, app.codec, Kept(app.State()))
              && newItemName == [] && newItemValue == [])
        && (!added ==>
              && app.State() == old(app.State()) && app.storage.entries == old(app.storage.entries)
              && newItemName == old(newItemName) && newItemValue == old(newItemValue))
    {
      var r := AppendItem(app.dataItems, newItemName, parseFloat(newItemValue), newId);
      added := r.Some?;
      if added {
        app.HandleSetDataItems(r.value);
        newItemName := [];
        newItemValue := [];
      }
    }

    /** `handleRemoveItem`: the filtered list replaces the data and is
        saved. */
    method HandleRemoveItem(id: string)
      modifies app, app.storage
      requires app.Valid()
      ensures app.Valid()
      ensures app.State() == SetDataItems(old(app.State()), RemoveById(old(app.dataItems), id))
      ensures app.storage.entries == Saved(old(app.storage.entries), app.storage.accepts, app.codec, Kept(app.State()))
    {
      var kept := RemoveById(app.dataItems, id);
      assert AllWellFormed(kept) by {
        forall i | 0 <= i < |kept| ensures WellFormed(kept[i]) {
          assert kept[i] in app.dataItems;
        }
      }
      app.HandleSetDataItems(kept);
    }

    /** `handleAiSubmit`: the prompt as typed goes to `handleGenerateData`. */
    method HandleAiSubmit() returns (request: Option<DataRequest>)
      modifies app
      requires app.Valid()
      ensures app.Valid()
      ensures app.State() == StartGenerateData(old(app.State()), aiPrompt)
      ensures request == if aiPrompt == [] then None else Some(DataRequestFor(aiPrompt))
    {
      request := app.BeginGenerateData(aiPrompt);
    }

    /** Typing in the title field. */
    method EditTitle(title: string)
      modifies app, app.storage
      requires app.Valid()
      ensures app.Valid()
      ensures app.State() == old(app.State()).(chartOptions := old(app.chartOptions).(title := title))
      ensures app.storage.entries == Saved(old(app.storage.entries), app.storage.accepts, app.codec, Kept(app.State()))
    {
      app.HandleUpdateChartOptions(OptionsPatch(Some(title), None, None));
    }

    /** Choosing a kind in the chart-type menu. */
    method ChooseKind(kind: ChartType)
      modifies app, app.storage
      requires app.Valid()
      ensures app.Valid()
      ensures app.State() == old(app.State()).(chartOptions := old(app.chartOptions).(kind := kind))
      ensures app.storage.entries == Saved(old(app.storage.entries), app.storage.accepts, app.codec, Kept(app.State()))
    {
      app.HandleUpdateChartOptions(OptionsPatch(None, Some(kind), None));
    }

    /** Picking a colour, which the panel only offers for single-colour
        kinds. */
    method PickColor(color: string)
      modifies app, app.storage
      requires app.Valid() && ShowsColorControl(app.chartOptions.kind)
      ensures app.Valid()
      ensures app.State() == old(app.State()).(chartOptions := old(app.chartOptions).(color := color))
      ensures app.storage.entries == Saved(old(app.storage.entries), app.storage.accepts, app.codec, Kept(app.State()))
    {
      app.HandleUpdateChartOptions(OptionsPatch(None, None, Some(color)));
    }
  }
}
