/** The application's state and its transitions: the chart options merge,
    data replacement, the two requests to the AI service split into their
    start and their completion, and the load and save effects on the
    browser's store. */
module App {
  import opened Wrappers
  import opened Json
  import opened Types
  import opened Constants
  import opened Gemini
  import opened Storage
  import ChartDisplay

  /** `isLoading`: one flag per request. */
  datatype Loading = Loading(data: bool, insights: bool)

  datatype AppState = AppState(
    dataItems: seq<DataItem>,
    chartOptions: ChartOptions,
    isLoading: Loading,
    error: Option<string>,
    insights: Option<string>)

  const InitialOptions: ChartOptions := ChartOptions("Informe de Ventas T1-T2", Bar, DefaultChartColor)

  const InitialState: AppState := AppState(InitialDataItems, InitialOptions, Loading(false, false), None, None)

  /** The first render: the seed data, a bar chart titled "Informe de
      Ventas T1-T2" in the default colour, nothing running, nothing to
      report. */
  lemma InitialStateIsSeed()
    ensures InitialState.dataItems == InitialDataItems && AllWellFormed(InitialState.dataItems)
    ensures InitialState.chartOptions.title == "Informe de Ventas T1-T2"
    ensures InitialState.chartOptions.kind == Bar && InitialState.chartOptions.color == PieChartColors[0]
    ensures !InitialState.isLoading.data && !InitialState.isLoading.insights
    ensures InitialState.error.None? && InitialState.insights.None?
  {
    InitialDataItemsDistinctIds();
  }

  // ---------------------------------------------------------------------
  // Options.

  /** `{...prev, ...newOptions}`: each field the patch gives overrides;
      every other field keeps its previous value. */
  function MergeOptions(prev: ChartOptions, patch: OptionsPatch): (r: ChartOptions)
    ensures patch.title.Some? ==> r.title == patch.title.value
    ensures patch.title.None? ==> r.title == prev.title
    ensures patch.kind.Some? ==> r.kind == patch.kind.value
    ensures patch.kind.None? ==> r.kind == prev.kind
    ensures patch.color.Some? ==> r.color == patch.color.value
    ensures patch.color.None? ==> r.color == prev.color
  {
    ChartOptions(
      if patch.title.Some? then patch.title.value else prev.title,
      if patch.kind.Some? then patch.kind.value else prev.kind,
      if patch.color.Some? then patch.color.value else prev.color)
  }

  /** `{...first, ...second}` on patches. */
  function Then(first: OptionsPatch, second: OptionsPatch): OptionsPatch {
    OptionsPatch(
      if second.title.Some? then second.title else first.title,
      if second.kind.Some? then second.kind else first.kind,
      if second.color.Some? then second.color else first.color)
  }

  /** The merge is shallow: the empty patch changes nothing, a patch giving
      every field replaces everything, and two merges in a row are one merge
      of the combined patch, so repeating a patch changes nothing more. */
  lemma MergeLaws(prev: ChartOptions, a: OptionsPatch, b: OptionsPatch)
    ensures MergeOptions(prev, OptionsPatch(None, None, None)) == prev
    ensures a.title.Some? && a.kind.Some? && a.color.Some? ==>
      MergeOptions(prev, a) == ChartOptions(a.title.value, a.kind.value, a.color.value)
    ensures MergeOptions(MergeOptions(prev, a), b) == MergeOptions(prev, Then(a, b))
    ensures MergeOptions(MergeOptions(prev, a), a) == MergeOptions(prev, a)
  {
  }

  /** `updateChartOptions`: the options become the merge; the data, the
      flags, the error and the analysis are untouched. */
  function UpdateChartOptions(s: AppState, patch: OptionsPatch): (r: AppState)
    ensures r.chartOptions == MergeOptions(s.chartOptions, patch)
    ensures r.dataItems == s.dataItems && r.isLoading == s.isLoading
    ensures r.error == s.error && r.insights == s.insights
  {
    s.(chartOptions := MergeOptions(s.chartOptions, patch))
  }

  /** `setDataItems`: the data are replaced; the options, the flags, the
      error and the analysis are untouched. */
  function SetDataItems(s: AppState, items: seq<DataItem>): (r: AppState)
    ensures r.dataItems == items && r.chartOptions == s.chartOptions && r.isLoading == s.isLoading
    ensures r.error == s.error && r.insights == s.insights
  {
    s.(dataItems := items)
  }

  // ---------------------------------------------------------------------
  // The two requests.

  /** What a `catch` receives: an `Error` object, or any other thrown
      value. */
  datatype Thrown = ErrorObject(message: string) | OtherValue

  const DataFallbackMessage: string := "Error al generar los datos. Por favor, intente de nuevo."
  const InsightsFallbackMessage: string := "Error al generar las ideas. Por favor, intente de nuevo."

  /** `e instanceof Error ? e.message : fallback`: an `Error`'s own message,
      and the fallback text for anything else thrown. */
  function ErrorText(e: Thrown, fallback: string): (t: string)
    ensures e.ErrorObject? ==> t == e.message
    ensures e.OtherValue? ==> t == fallback
  {
    match e
    case ErrorObject(m) => m
    case OtherValue => fallback
  }

  /** `handleGenerateData` up to the `await`.  An empty prompt returns at
      once; otherwise the data flag goes up and the error and the analysis
      are cleared. */
  function StartGenerateData(s: AppState, prompt: string): (r: AppState)
    ensures prompt == [] ==> r == s
    ensures prompt != [] ==>
      && r.isLoading.data && r.isLoading.insights == s.isLoading.insights
      && r.error.None? && r.insights.None?
      && r.dataItems == s.dataItems && r.chartOptions == s.chartOptions
  {
    if prompt == [] then s
    else s.(isLoading := s.isLoading.(data := true), error := None, insights := None)
  }

  /** `handleGenerateData` after the `await`: the new data replace the old
      ones, or the error is set; either way the data flag goes down. */
  function FinishGenerateData(s: AppState, outcome: Result<seq<DataItem>, Thrown>): (r: AppState)
    ensures !r.isLoading.data && r.isLoading.insights == s.isLoading.insights
    ensures r.chartOptions == s.chartOptions && r.insights == s.insights
    ensures outcome.Ok? ==> r.dataItems == outcome.value && r.error == s.error
    ensures outcome.Err? ==> r.dataItems == s.dataItems && r.error == Some(ErrorText(outcome.error, DataFallbackMessage))
  {
    match outcome
    case Ok(items) => s.(dataItems := items, isLoading := s.isLoading.(data := false))
    case Err(e) => s.(error := Some(ErrorText(e, DataFallbackMessage)), isLoading := s.isLoading.(data := false))
  }

  /** What the `await` of the data service gives: the points, or the
      `Error` it throws. */
  function DataOutcome(response: Option<string>, decode: string -> Result<JsonValue, string>, newId: nat -> string)
    : (r: Result<seq<DataItem>, Thrown>)
    ensures r.Ok? <==> GenerateChartDataFromPrompt(response, decode, newId).Ok?
    ensures r.Ok? ==> r.value == GenerateChartDataFromPrompt(response, decode, newId).value
    ensures r.Ok? ==> AllWellFormed(r.value)
    ensures r.Err? ==> r.error == ErrorObject(DataFailureMessage)
  {
    match GenerateChartDataFromPrompt(response, decode, newId)
    case Ok(items) => Ok(items)
    case Err(m) => Err(ErrorObject(m))
  }

  /** The whole of `handleGenerateData` when no other event comes between
      its start and its end. */
  function GenerateData(s: AppState, prompt: string, response: Option<string>,
                        decode: string -> Result<JsonValue, string>, newId: nat -> string): AppState {
    if prompt == [] then s
    else FinishGenerateData(StartGenerateData(s, prompt), DataOutcome(response, decode, newId))
  }

  /** An empty prompt changes nothing at all. */
  lemma EmptyPromptIsNoOp(s: AppState, response: Option<string>, decode: string -> Result<JsonValue, string>,
                          newId: nat -> string)
    ensures GenerateData(s, [], response, decode, newId) == s
    ensures StartGenerateData(s, []) == s
  {
  }

  /** A data request, once answered: the data flag is down again and the
      analysis flag as it was; the analysis is cleared and the options kept.
      On success the data are the generated points and there is no error;
      on failure the data are kept and the error is the service's fixed
      message (never the fallback text, since the service always throws an
      `Error`). */
  lemma GenerateDataOutcome(s: AppState, prompt: string, response: Option<string>,
                            decode: string -> Result<JsonValue, string>, newId: nat -> string)
    requires prompt != []
    ensures var r := GenerateData(s, prompt, response, decode, newId);
      var g := GenerateChartDataFromPrompt(response, decode, newId);
      && !r.isLoading.data && r.isLoading.insights == s.isLoading.insights
      && r.insights.None? && r.chartOptions == s.chartOptions
      && (g.Ok? ==> r.dataItems == g.value && r.error.None?)
      && (g.Err? ==> r.dataItems == s.dataItems && r.error == Some(DataFailureMessage))
  {
    var g := GenerateChartDataFromPrompt(response, decode, newId);
    if g.Err? {
      assert DataOutcome(response, decode, newId) == Err(ErrorObject(DataFailureMessage));
    }
  }

  /** `handleGenerateInsights` up to the `await`. */
  function StartGenerateInsights(s: AppState): (r: AppState)
    ensures r.isLoading.insights && r.isLoading.data == s.isLoading.data
    ensures r.error.None? && r.insights.None?
    ensures r.dataItems == s.dataItems && r.chartOptions == s.chartOptions
  {
    s.(isLoading := s.isLoading.(insights := true), error := None, insights := None)
  }

  /** `handleGenerateInsights` after the `await`. */
  function FinishGenerateInsights(s: AppState, outcome: Result<string, Thrown>): (r: AppState)
    ensures !r.isLoading.insights && r.isLoading.data == s.isLoading.data
    ensures r.dataItems == s.dataItems && r.chartOptions == s.chartOptions
    ensures outcome.Ok? ==> r.insights == Some(outcome.value) && r.error == s.error
    ensures outcome.Err? ==> r.insights == s.insights && r.error == Some(ErrorText(outcome.error, InsightsFallbackMessage))
  {
    match outcome
    case Ok(text) => s.(insights := Some(text), isLoading := s.isLoading.(insights := false))
    case Err(e) => s.(error := Some(ErrorText(e, InsightsFallbackMessage)), isLoading := s.isLoading.(insights := false))
  }

  function InsightsOutcome(response: Option<string>): (r: Result<string, Thrown>)
    ensures r.Ok? <==> response.Some?
    ensures r.Ok? ==> r.value == response.value
    ensures r.Err? ==> r.error == ErrorObject(InsightsFailureMessage)
  {
    match GenerateChartInsights(response)
    case Ok(text) => Ok(text)
    case Err(m) => Err(ErrorObject(m))
  }

  function GenerateInsights(s: AppState, response: Option<string>): AppState {
    FinishGenerateInsights(StartGenerateInsights(s), InsightsOutcome(response))
  }

  /** An analysis never touches the data or the options, and never the data
      flag, at its start or at its end.  Answered, its flag is down again and
      the reply is shown verbatim, or the fixed message is the error. */
  lemma GenerateInsightsOutcome(s: AppState, response: Option<string>)
    ensures var m := StartGenerateInsights(s);
      && m.dataItems == s.dataItems && m.chartOptions == s.chartOptions && m.isLoading.data == s.isLoading.data
      && m.isLoading.insights && m.error.None? && m.insights.None?
    ensures var r := GenerateInsights(s, response);
      && r.dataItems == s.dataItems && r.chartOptions == s.chartOptions && r.isLoading == s.isLoading.(insights := false)
      && (response.Some? ==> r.insights == response && r.error.None?)
      && (response.None? ==> r.insights.None? && r.error == Some(InsightsFailureMessage))
  {
  }

  /** An empty analysis reply counts as a success: no error is set, and
      yet the panel stays hidden. */
  lemma EmptyAnalysisShowsNothing(s: AppState)
    ensures var r := GenerateInsights(s, Some([]));
      r.error.None? && !ChartDisplay.InsightsPanelVisible(r.insights, r.isLoading.insights)
  {
  }

  // ---------------------------------------------------------------------
  // Mounting: the load effect, then the save effect of the first render,
  // then the save effect of the render that shows the loaded state.

  function Kept(s: AppState): Snapshot {
    Snapshot(s.dataItems, s.chartOptions)
  }

  function MountedEntries(entries: map<string, string>, accepts: (string, string) -> bool, codec: JsonCodec,
                          first: Snapshot): map<string, string> {
    Saved(Saved(entries, accepts, codec, first), accepts, codec, Restored(entries, codec, first))
  }

  /** Reopening the page after a save the store took in full: the saved
      state is shown again and the store ends as it was. */
  lemma MountRestoresSaved(e0: map<string, string>, accepts: (string, string) -> bool, codec: JsonCodec,
                           snap: Snapshot, first: Snapshot)
    requires AllWellFormed(snap.items)
    requires RoundTrips(codec, ItemsJson(snap.items)) && RoundTrips(codec, OptionsJson(snap.options))
    requires accepts(DataKey, codec.stringify(ItemsJson(snap.items)))
    requires accepts(OptionsKey, codec.stringify(OptionsJson(snap.options)))
    ensures var entries := Saved(e0, accepts, codec, snap);
      && Restored(entries, codec, first) == snap
      && MountedEntries(entries, accepts, codec, first) == entries
  {
    var entries := Saved(e0, accepts, codec, snap);
    RestoreAfterSave(e0, accepts, codec, snap, first);
    SavedOverrides(entries, accepts, codec, first, snap);
    SavedIdempotent(e0, accepts, codec, snap);
  }

  /** Unparsable stored data leave the first render's state in place, and
      the saves then write that state over the stored entries. */
  lemma MountOverCorruptData(entries: map<string, string>, accepts: (string, string) -> bool, codec: JsonCodec,
                             first: Snapshot)
    requires Present(Lookup(entries, DataKey)) && codec.parse(entries[DataKey]).Err?
    ensures Restored(entries, codec, first) == first
    ensures MountedEntries(entries, accepts, codec, first) == Saved(entries, accepts, codec, first)
  {
    CorruptDataAbortsLoad(entries, codec, first);
    SavedIdempotent(entries, accepts, codec, first);
  }

  // ---------------------------------------------------------------------
  // The component.

  /** The `App` component: its five pieces of state, the browser's store
      and the JSON codec it uses. */
  class App {
    var dataItems: seq<DataItem>
    var chartOptions: ChartOptions
    var isLoading: Loading
    var error: Option<string>
    var insights: Option<string>
    const storage: LocalStorage
    const codec: JsonCodec

    function State(): AppState
      reads this
    {
      AppState(dataItems, chartOptions, isLoading, error, insights)
    }

    /** Every data point is an object whose named fields are not repeated
        among the others. */
    ghost predicate Valid()
      reads this
    {
      AllWellFormed(dataItems)
    }

    constructor(storage: LocalStorage, codec: JsonCodec)
      ensures State() == InitialState && Valid()
      ensures this.storage == storage && this.codec == codec
    {
      dataItems := InitialDataItems;
      chartOptions := InitialOptions;
      isLoading := Loading(false, false);
      error := None;
      insights := None;
      this.storage := storage;
      this.codec := codec;
      InitialStateIsSeed();
    }

    /** The save effect for a given state of the data and options. */
    method SaveSnapshot(snap: Snapshot)
      modifies storage
      ensures storage.entries == Saved(old(storage.entries), storage.accepts, codec, snap)
    {
      var ok := storage.SetItem(DataKey, codec.stringify(ItemsJson(snap.items)));
      if ok {
        ok := storage.SetItem(OptionsKey, codec.stringify(OptionsJson(snap.options)));
      }
    }

    /** The save effect, run whenever the data or the options change. */
    method Persist()
      modifies storage
      ensures storage.entries == Saved(old(storage.entries), storage.accepts, codec, Kept(State()))
    {
      SaveSnapshot(Kept(State()));
    }

    /** The load effect. */
    method Load()
      modifies this
      requires Valid()
      ensures Valid()
      ensures Kept(State()) == Restored(storage.entries, codec, old(Kept(State())))
      ensures isLoading == old(isLoading) && error == old(error) && insights == old(insights)
    {
      var savedData := storage.GetItem(DataKey);
      var savedOptions := storage.GetItem(OptionsKey);
      if Present(savedData) {
        match codec.parse(savedData.value) {
          case Err(_) =>
            return;
          case Ok(v) =>
            match ItemsFromJson(v) {
              case Some(items) => dataItems := items;
              case None =>
            }
        }
      }
      if Present(savedOptions) {
        match codec.parse(savedOptions.value) {
          case Err(_) =>
            return;
          case Ok(v) =>
            match OptionsFromJson(v) {
              case Some(o) => chartOptions := o;
              case None =>
            }
        }
      }
    }

    /** The first render's effects, in order: load, save the state the
        first render showed, and save the loaded state. */
    method Mount()
      modifies this, storage
      requires Valid()
      ensures Valid()
      ensures Kept(State()) == Restored(old(storage.entries), codec, old(Kept(State())))
      ensures storage.entries == MountedEntries(old(storage.entries), storage.accepts, codec, old(Kept(State())))
      ensures isLoading == old(isLoading) && error == old(error) && insights == old(insights)
    {
      var first := Kept(State());
      Load();
      SaveSnapshot(first);
      Persist();
    }

    /** `handleUpdateChartOptions`, then the save effect. */
    method HandleUpdateChartOptions(patch: OptionsPatch)
      modifies this, storage
      requires Valid()
      ensures Valid()
      ensures State() == UpdateChartOptions(old(State()), patch)
      ensures storage.entries == Saved(old(storage.entries), storage.accepts, codec, Kept(State()))
    {
      chartOptions := MergeOptions(chartOptions, patch);
      Persist();
    }

    /** `handleSetDataItems`, then the save effect. */
    method HandleSetDataItems(items: seq<DataItem>)
      modifies this, storage
      requires AllWellFormed(items)
      ensures Valid()
      ensures State() == SetDataItems(old(State()), items)
      ensures storage.entries == Saved(old(storage.entries), storage.accepts, codec, Kept(State()))
    {
      dataItems := items;
      Persist();
    }

    /** The start of `handleGenerateData`: the request to send, if any. */
    method BeginGenerateData(prompt: string) returns (request: Option<DataRequest>)
      modifies this
      requires Valid()
      ensures Valid()
      ensures State() == StartGenerateData(old(State()), prompt)
      ensures request == if prompt == [] then None else Some(DataRequestFor(prompt))
    {
      if prompt == [] {
        return None;
      }
      isLoading := isLoading.(data := true);
      error := None;
      insights := None;
      request := Some(DataRequestFor(prompt));
    }

    /** The completion of `handleGenerateData`; new data are saved. */
    method EndGenerateData(response: Option<string>, decode: string -> Result<JsonValue, string>, newId: nat -> string)
      modifies this, storage
      requires Valid()
      ensures Valid()
      ensures State() == FinishGenerateData(old(State()), DataOutcome(response, decode, newId))
      ensures storage.entries == if DataOutcome(response, decode, newId).Ok?
                                 then Saved(old(storage.entries), storage.accepts, codec, Kept(State()))
                                 else old(storage.entries)
    {
      var outcome := DataOutcome(response, decode, newId);
      ApplyDataOutcome(outcome);
    }

    /** What follows the `await` of `handleGenerateData`, for either outcome. */
    method ApplyDataOutcome(outcome: Result<seq<DataItem>, Thrown>)
      modifies this, storage
      requires Valid() && (outcome.Ok? ==> AllWellFormed(outcome.value))
      ensures Valid()
      ensures State() == FinishGenerateData(old(State()), outcome)
      ensures storage.entries == if outcome.Ok?
                                 then Saved(old(storage.entries), storage.accepts, codec, Kept(State()))
                                 else old(storage.entries)
    {
      var next := FinishGenerateData(State(), outcome);
      dataItems, error, isLoading := next.dataItems, next.error, next.isLoading;
      if outcome.Ok? {
        Persist();
      }
    }

    /** The start of `handleGenerateInsights`: the request to send. */
    method BeginGenerateInsights() returns (request: InsightsRequest)
      modifies this
      requires Valid()
      ensures Valid()
      ensures State() == StartGenerateInsights(old(State()))
      ensures request == InsightsRequestFor(dataItems, chartOptions)
    {
      isLoading := isLoading.(insights := true);
      error := None;
      insights := None;
      request := InsightsRequestFor(dataItems, chartOptions);
    }

    /** The completion of `handleGenerateInsights`; nothing is saved, since
        neither the data nor the options change. */
    method EndGenerateInsights(response: Option<string>)
      modifies this
      requires Valid()
      ensures Valid()
      ensures State() == FinishGenerateInsights(old(State()), InsightsOutcome(response))
    {
      match InsightsOutcome(response) {
        case Ok(text) =>
          insights := Some(text);
        case Err(e) =>
          error := Some(ErrorText(e, InsightsFallbackMessage));
      }
      isLoading := isLoading.(insights := false);
    }
  }
}
