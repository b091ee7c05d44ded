# Creador de Gráficos con IA — a verified model of its core

The application is a single-page chart editor. A user keeps a list of data
points (`DataItem`: an id, a name, a numeric value and any other fields), picks
one of seven chart kinds, a title and a colour, and sees the chart. Points can
be added and removed by hand, or generated from a free-text prompt by a
generative-AI service, which can also write a short analysis of the chart.
The data and the options are kept in the browser's `localStorage` under
"chartData" and "chartOptions" and read back when the page opens.

This project models, in Dafny:

- `types.dfy`, `constants.dfy`: the closed set of chart kinds and their tags,
  the `DataItem` and `ChartOptions` records, the chart-type menu, the seed data
  and the twelve-colour palette.
- `text.dfy`: JavaScript white space, `\w`, and `String.prototype.trim`.
- `gemini.dfy`: the service client's pure part. This covers `parseJsonResponse`,
  which trims the reply, strips an optional markdown code fence and decodes it.
  The fence pattern is modelled by the split a backtracking matcher reports,
  which is proved to be the only preferred split. It also covers the
  validation, the fresh ids and the single error message of
  `generateChartDataFromPrompt`, and the `{name, value}` payload of
  `generateChartInsights`. The service's answer, `JSON.parse` and the id source
  are parameters.
- `storage.dfy`: the JSON form of the records and the save and load effects.
  It has pure `Saved` and `Restored` functions and a `LocalStorage` class with
  `GetItem` and `SetItem`. The codec (`JSON.parse`/`JSON.stringify`) is a
  parameter. The save-then-load round trip is proved for any codec that
  reads back the two values written (`Storage.RoundTrips`).
- `app.dfy`: the application state as a value (`AppState`) and its
  transitions. These are the option merge, data replacement, and each AI
  request split into its start and its completion. The same steps also appear
  as methods of the class `App`, whose fields are the component's state and
  which saves after every change of data or options.
- `input_panel.dfy`: appending and removing points, the colour-control and
  submit rules, and the `InputPanel` class with its three text fields.
- `chart_display.dfy`: what `renderChart` draws and in which colours, export
  file names, the palette, `dataWithFill`, the treemap label rule, PDF
  orientation and the analysis button and panel rules.

Two behaviours of the code are worth knowing, and the model keeps both:

- Unparsable "chartData" aborts the whole load, so stored options are not
  applied either, even when they are valid (App.tsx:25-36).
- An empty analysis reply is returned as a success and shows nothing: no
  error is set and the analysis panel stays hidden (gemini.ts:93,
  App.tsx:80, ChartDisplay.tsx:228).

## Model

| member | source | states |
|---|---|---|
| Text.IsSpace | gemini.ts:12-13 | the ECMAScript white space and line terminators, which `trim` removes and `\s` matches |
| Text.IsWordChar | gemini.ts:13 | `\w`: ASCII letters, digits and the underscore |
| Text.Span | gemini.ts:13 | what a greedy `\w*` or `\s*` consumes: a prefix of matching characters followed by a non-matching one or the end |
| Text.Trim | gemini.ts:12 | the result has no white space at either end and is no longer than the input |
| Text.TrimPadded | gemini.ts:12 | trimming removes exactly the white space around a trimmed string |
| Text.TrimSplit | gemini.ts:12 | every string is its trimmed form with white space before and after |
| Text.TrimIgnoresPadding | gemini.ts:12 | white space added around a string does not change its trimmed form |
| Text.TrimIdempotent | gemini.ts:16 | trimming twice is trimming once, so re-trimming the fence body changes nothing |
| Types.ChartTypeFromTag | types.ts:8-16 | a tag names a kind exactly when some kind has that tag |
| Types.TagRoundTrip | types.ts:8-16 | reading back a kind's tag gives the kind, so the seven tags are distinct |
| Types.Record | types.ts:1-6 | the point as an object: the three named fields with their values plus every extra field unchanged |
| Constants.MenuIndex | constants.ts:6-14 | every kind has a position in the menu |
| Constants.ChartTypesListEachKindOnce | constants.ts:6-14 | the menu lists the seven kinds once each, in the order bar, line, pie, area, radar, radialBar, treemap |
| Constants.InitialDataItemsDistinctIds | constants.ts:16-23 | six well-formed seed points with ids "1" to "6", pairwise distinct |
| Constants.PaletteDistinct | constants.ts:25-29 | twelve pairwise distinct colours, the first being the default colour of constants.ts:4 |
| Gemini.HasFences | gemini.ts:13 | at least six characters, with three backticks at the start and at the end |
| Gemini.IsPreferredSplit | gemini.ts:13 | an accepted split in which the tag and the lead are maximal and the body does not end in white space, as a backtracking matcher chooses |
| Gemini.MatchFence | gemini.ts:13-14 | the fence pattern matches exactly when the trimmed reply starts and ends with three backticks (at least six characters), and then reports the preferred split |
| Gemini.GreedySplitIsPreferred | gemini.ts:13 | the greedy tag, greedy lead and shortest body form a split the pattern accepts and the matcher prefers |
| Gemini.PreferredSplitUnique | gemini.ts:13 | there is only one preferred split, so the modelled capture groups are the pattern's |
| Gemini.SplitHasFences | gemini.ts:13 | any way for the pattern to match needs the backticks at both ends |
| Gemini.Candidate | gemini.ts:12-17 | the text handed to the decoder has no white space at its ends, and is the trimmed reply when that lacks backticks at both ends |
| Gemini.ParseJsonResponse | gemini.ts:11-25 | succeeds exactly when the decoder accepts the candidate text, with the decoder's value; a failure is always the one fixed message, never the diagnostic |
| Gemini.CandidateIgnoresPadding | gemini.ts:12 | white space around the reply never changes what is decoded |
| Gemini.CandidateFenced | gemini.ts:13-16 | for a fenced reply with a maximal tag, the decoder gets the trimmed inside when it is not empty, else the whole trimmed reply |
| Gemini.FencedBody | gemini.ts:13 | behind a maximal tag, the captured body is the trimmed remainder of the inside |
| Gemini.BareWordFenceKeepsReply | gemini.ts:13-15 | "```123```" has its word taken as the tag, so the reply is decoded unchanged |
| Gemini.FencedParsesAsUnfenced | gemini.ts:11-20 | a JSON text in a fence, with any tag and padding, parses as the text alone |
| Gemini.TrimmedUnfenced | gemini.ts:12-17 | a trimmed text not opening with a backtick is its own candidate |
| Gemini.IsChartPoint | gemini.ts:54 | an element passes the `typeof` tests: an object with a string `name` and a number `value` |
| Gemini.IsChartData | gemini.ts:54 | the decoded value passes the validation exactly when it is an array and no element is malformed |
| Gemini.SomeMalformed | gemini.ts:54 | true exactly when some element is not an object with a string `name` and a number `value` |
| Gemini.WithId | gemini.ts:58-61 | the element with all its fields and `id` set to the new id, whether or not it had one |
| Gemini.WithFreshIds | gemini.ts:58-61 | same length and order; element i keeps its fields and gets id `newId(i)` |
| Gemini.Decoded | gemini.ts:51 | a value exactly when a reply came and parsed, namely the parsed value |
| Gemini.Synthesize | gemini.ts:41-62 | the transport, parse and validation failures and the success case, each exactly when it occurs |
| Gemini.GenerateChartDataFromPrompt | gemini.ts:28-67 | succeeds exactly when the reply decodes to an array of valid points; the result has the same length and order, keeps every field and carries fresh ids; every failure is one fixed message |
| Gemini.GeneratedIdsDistinct | gemini.ts:58-61 | with an id source that never repeats, the generated points have pairwise distinct ids |
| Gemini.DataRequestFor | gemini.ts:42-49 | the prompt is sent verbatim and JSON is requested |
| Gemini.Payload | gemini.ts:79 | element i is the object of item i's `name` and `value` only, in order |
| Gemini.PayloadIgnoresIdsAndExtras | gemini.ts:79 | ids and extra fields never reach the service |
| Gemini.InsightsRequestFor | gemini.ts:70-91 | the request carries the title, the kind and the payload, at temperature 0.7 |
| Gemini.GenerateChartInsights | gemini.ts:84-98 | the reply's text is returned verbatim, and a failed call gives the fixed message |
| Storage.ItemsJson | App.tsx:42 | the stored array holds each point's object, in order |
| Storage.ItemFromJson | App.tsx:29 | a point read back is well-formed |
| Storage.ItemRoundTrip | App.tsx:29-42 | a well-formed point survives being written and read back |
| Storage.ItemsFromSeq | App.tsx:29 | a list is read back element by element, in order |
| Storage.ItemsFromJson | App.tsx:29 | a list read back holds well-formed points |
| Storage.ItemsRoundTrip | App.tsx:29-42 | a well-formed list survives being written and read back |
| Storage.OptionsFromJson | App.tsx:32 | options are read from an object whose `title`, `type` and `color` hold exactly what is read, the kind by its tag |
| Storage.OptionsRoundTrip | App.tsx:32-43 | options survive being written and read back |
| Storage.Present | App.tsx:28 | an entry is used only when it exists and is not the empty string |
| Storage.Saved | App.tsx:40-47 | no other key changes; "chartData" is written first; if it is refused nothing is written, and if only "chartOptions" is refused the new "chartData" stays written and the old "chartOptions" is kept |
| Storage.SavedIdempotent | App.tsx:40-47 | saving the same state twice is saving it once |
| Storage.SavedOverrides | App.tsx:40-47 | a later save taken in full overrides an earlier one |
| Storage.WithStoredOptions | App.tsx:31-33 | the options step never changes the data |
| Storage.Restored | App.tsx:24-37 | an absent or empty entry leaves its field as it was |
| Storage.RoundTrips | App.tsx:29-43 | the codec gives back the value whose text it wrote, and that text is not empty |
| Storage.RestoreAfterSave | App.tsx:24-47 | when the codec reads back the two values written, what a save wrote in full is what a load gives back, whatever the starting state |
| Storage.CorruptDataAbortsLoad | App.tsx:25-36 | unparsable data leaves both data and options as they were |
| Storage.MissingDataStillLoadsOptions | App.tsx:28-33 | without stored data, stored options are still applied |
| Storage.CorruptOptionsKeepData | App.tsx:28-36 | unparsable options do not undo the data already read |
| Storage.LocalStorage.constructor | App.tsx:26 | the store starts with the given entries and write policy |
| Storage.LocalStorage.GetItem | App.tsx:26-27 | the text under the key, or nothing when absent |
| Storage.LocalStorage.SetItem | App.tsx:42-43 | a taken write stores the value under the key; a refused one changes nothing |
| App.InitialStateIsSeed | App.tsx:10-19 | the seed data, well-formed, a bar chart titled "Informe de Ventas T1-T2" in the default colour, no flag set, no error, no analysis |
| App.MergeOptions | App.tsx:51 | the spread merge: each field the patch gives overrides; the others keep their values |
| App.MergeLaws | App.tsx:50-52 | the empty patch changes nothing, a full patch replaces everything, two merges are one merge of the combined patch, repeating a patch changes nothing |
| App.UpdateChartOptions | App.tsx:50-52 | the options become the merge; data, flags, error and analysis are untouched |
| App.SetDataItems | App.tsx:54-56 | the data are replaced; options, flags, error and analysis are untouched |
| App.ErrorText | App.tsx:68 | an `Error`'s own message, and the fallback text for any other thrown value |
| App.StartGenerateData | App.tsx:59-62 | an empty prompt changes nothing; otherwise the data flag goes up, error and analysis are cleared, and data, options and the analysis flag are kept |
| App.FinishGenerateData | App.tsx:63-71 | the data flag goes down, options, analysis and analysis flag are kept; success replaces the data, failure keeps them and sets the error text |
| App.DataOutcome | App.tsx:64-68 | the await yields the service's points, or an `Error` carrying its fixed message |
| App.GenerateData | App.tsx:58-72 | a whole data request with nothing in between: no-op for the empty prompt, else start then finish |
| App.EmptyPromptIsNoOp | App.tsx:59 | an empty prompt changes no flag, error, analysis or data |
| App.GenerateDataOutcome | App.tsx:58-72 | once answered: data flag down, analysis flag untouched, analysis cleared, options kept; success replaces the data with no error; failure keeps the data and sets the fixed message |
| App.StartGenerateInsights | App.tsx:75-77 | the analysis flag goes up, error and analysis are cleared; data, options and the data flag are kept |
| App.FinishGenerateInsights | App.tsx:78-86 | the analysis flag goes down, data, options and the data flag are kept; success shows the reply, failure keeps the analysis and sets the error text |
| App.InsightsOutcome | App.tsx:78-83 | the await yields the reply verbatim, or an `Error` carrying the fixed message |
| App.GenerateInsights | App.tsx:74-87 | a whole analysis request with nothing in between: start then finish |
| App.GenerateInsightsOutcome | App.tsx:74-87 | at start and at end the data, the options and the data flag are untouched; the analysis flag goes up then down; the reply is shown verbatim or the fixed message is the error |
| App.EmptyAnalysisShowsNothing | App.tsx:80 | an empty reply sets no error, and the analysis panel stays hidden |
| App.MountRestoresSaved | App.tsx:23-47 | when the codec reads back the two values written, reopening after a full save shows the saved state and leaves the store as it was |
| App.MountOverCorruptData | App.tsx:23-47 | unparsable stored data keep the first render's state, which the saves then write over the store |
| App.App.constructor | App.tsx:10-19 | the component starts in the initial state |
| App.App.SaveSnapshot | App.tsx:40-47 | the store afterwards is `Saved` of the given state |
| App.App.Persist | App.tsx:40-47 | the store afterwards is `Saved` of the current data and options |
| App.App.Load | App.tsx:24-37 | the data and options afterwards are `Restored` from the store; flags, error and analysis untouched |
| App.App.Mount | App.tsx:23-47 | load, then the first render's save, then the save of the loaded state |
| App.App.HandleUpdateChartOptions | App.tsx:50-52 | the options become the merge and are saved; nothing else changes |
| App.App.HandleSetDataItems | App.tsx:54-56 | the data are replaced and saved; nothing else changes |
| App.App.BeginGenerateData | App.tsx:58-62 | the start transition, and the request for a non-empty prompt only |
| App.App.EndGenerateData | App.tsx:63-71 | the completion transition; new data are saved, a failure writes nothing |
| App.App.ApplyDataOutcome | App.tsx:64-71 | the step after the `await` for a given outcome; only a success is saved |
| App.App.BeginGenerateInsights | App.tsx:74-79 | the start transition and the request built from the current data and options |
| App.App.EndGenerateInsights | App.tsx:78-86 | the completion transition; nothing is saved |
| InputPanel.AppendItem | InputPanel.tsx:32-38 | a point is appended exactly when the trimmed name is not empty and the value parsed; the old points stay in front, the new one has the id, trimmed name and value and no other field |
| InputPanel.RemoveById | InputPanel.tsx:46-48 | no point with the id remains, every other point does, and nothing new appears |
| InputPanel.RemoveDistributes | InputPanel.tsx:47 | filtering a concatenation filters each part, in order |
| InputPanel.RemoveSingle | InputPanel.tsx:47 | a single point is dropped exactly when it has the id |
| InputPanel.RemoveAbsent | InputPanel.tsx:47 | an id no point has leaves the list unchanged |
| InputPanel.RemoveIdempotent | InputPanel.tsx:47 | removing twice is removing once |
| InputPanel.AddThenRemove | InputPanel.tsx:32-48 | removing the point just added under a new id gives the list back |
| InputPanel.ShowsColorControl | InputPanel.tsx:120 | the colour control shows exactly for the kinds drawn in the options' colour |
| InputPanel.ColorControlMatchesChart | InputPanel.tsx:120 | while the colour control is hidden, no colour could change the chart |
| InputPanel.SubmitDisabled | InputPanel.tsx:76 | the generate button is disabled while a data request runs or the prompt is empty |
| InputPanel.SubmitDisabledWhenIgnored | InputPanel.tsx:76 | with no request running, the button is disabled exactly for the prompt the handler ignores |
| InputPanel.InputPanel.constructor | InputPanel.tsx:26-28 | the three fields start empty |
| InputPanel.InputPanel.HandleAddItem | InputPanel.tsx:32-44 | on success the point is appended and saved and both fields are emptied; otherwise nothing changes |
| InputPanel.InputPanel.HandleRemoveItem | InputPanel.tsx:46-48 | the filtered list replaces the data and is saved |
| InputPanel.InputPanel.HandleAiSubmit | InputPanel.tsx:50-53 | the typed prompt starts a data request, as `handleGenerateData` does |
| InputPanel.InputPanel.EditTitle | InputPanel.tsx:101 | only the title changes, and the options are saved |
| InputPanel.InputPanel.ChooseKind | InputPanel.tsx:112 | only the kind changes, and the options are saved |
| InputPanel.InputPanel.PickColor | InputPanel.tsx:120-131 | only the colour changes, and the options are saved |
| ChartDisplay.CollapseSpaces | ChartDisplay.tsx:69 | no white space remains, the result is no longer, and it is empty exactly for the empty title |
| ChartDisplay.CollapseKeepsPlainText | ChartDisplay.tsx:69 | a title without white space is kept |
| ChartDisplay.CollapseRun | ChartDisplay.tsx:69 | a maximal white-space run becomes one underscore and the text before it is kept |
| ChartDisplay.CollapseBlankTitle | ChartDisplay.tsx:96 | an all-white-space title gives "_", not the fallback |
| ChartDisplay.ExportFileName | ChartDisplay.tsx:96 | "grafico" plus the extension for the empty title, else the collapsed title plus the extension; never any white space |
| ChartDisplay.PaletteColor | ChartDisplay.tsx:35 | every index gets a palette colour |
| ChartDisplay.PaletteColorCycles | ChartDisplay.tsx:162-164 | colours repeat every twelve positions, and two positions share a colour exactly when equal modulo twelve |
| ChartDisplay.UsesOptionColor | ChartDisplay.tsx:117-180 | the kinds drawn in the options' colour: bar, line, area and radar |
| ChartDisplay.DataWithFill | ChartDisplay.tsx:182-185 | same length and order; each point keeps every field and gains `fill` with its palette colour |
| ChartDisplay.TreemapData | ChartDisplay.tsx:203 | same length and order; each point keeps every field and gains an empty `children` |
| ChartDisplay.CellColors | ChartDisplay.tsx:162-164 | cell i gets palette colour i |
| ChartDisplay.RenderChart | ChartDisplay.tsx:104-215 | the empty state exactly when there are no data, whatever the kind; otherwise the chart of the selected kind, single-colour kinds in the options' colour, pie and treemap cell i in palette colour i, radial bar rows filled from the palette |
| ChartDisplay.MultiColourIgnoresOptionColor | ChartDisplay.tsx:150-211 | for pie, radial bar and treemap the options' colour changes nothing |
| ChartDisplay.SingleColourShowsOptionColor | ChartDisplay.tsx:117-180 | for bar, line, area and radar with data, another colour gives another chart |
| ChartDisplay.TreemapLabelVisible | ChartDisplay.tsx:26 | a treemap cell shows its name when wider than 70 and taller than 25 |
| ChartDisplay.TreemapLabelMonotone | ChartDisplay.tsx:26 | growing a cell never hides its label; a cell 70 wide or 25 tall hides it |
| ChartDisplay.PdfOrientation | ChartDisplay.tsx:90 | landscape exactly when wider than tall |
| ChartDisplay.PdfOrientationFlips | ChartDisplay.tsx:90 | turning a non-square chart flips the page; a square one is portrait |
| ChartDisplay.InsightsButtonDisabled | ChartDisplay.tsx:258 | the analysis button is disabled while an analysis runs or there are no data |
| ChartDisplay.InsightsPanelVisible | ChartDisplay.tsx:228 | the analysis panel shows while an analysis runs or when there is a non-empty analysis |
| ChartDisplay.EnabledInsightsSendData | ChartDisplay.tsx:258 | an enabled analysis button sends a non-empty payload, and only when no analysis runs |

## Left out

- Calls to the AI service, the instruction texts and the model settings beyond those listed: the reply is an input, `Some(text)`, or `None` when the call fails.
- Gemini.GenerateChartDataFromPrompt: a reply without text is treated as a failed call. This matches the source, where trimming the missing text throws inside the `try` and the fixed message results.
- Gemini.GenerateChartInsights: a reply without text is also treated as a failed call, which sets the error. The source instead returns `undefined` (gemini.ts:93), so it shows neither an error nor an analysis.
- `JSON.parse` and `JSON.stringify` are parameters (`decode`, `JsonCodec`). The round-trip lemmas assume that the codec reads back the two values written (`Storage.RoundTrips`) rather than proving it of `JSON.parse` and `JSON.stringify`.
- `self.crypto.randomUUID` is the parameter `newId`. Distinct ids are proved only for an id source that never repeats.
- `parseFloat` is a parameter returning `None` for NaN. JavaScript numbers are modelled as `real`, so floating-point rounding and the infinities that `parseFloat` can return are not modelled.
- Storage.Restored: the source installs whatever `JSON.parse` returns, unchecked. A parseable entry of the wrong shape (not an array of points, or options without a known `type`) is skipped here and the load goes on, because the model's state is typed.
- Storage.Saved: a refused write is decided by the key and the text alone (`accepts`). A quota that depends on the other entries is not modelled.
- Recharts rendering, the treemap layout, SVG styling, stroke widths and radii.
- ChartDisplay.RenderChart: the default "Seleccione un tipo de gráfico" branch is not modelled. The source reaches it only through stored options whose `type` is not one of the seven tags, which App.tsx:32 installs unchecked. The model skips such an entry (Storage.Restored), so its kind is always one of the seven.
- The PNG and PDF export pipeline (`toPng`, `jsPDF`, download links), `alert`, and `console.error` logging. Only the file-name and orientation rules are kept.
- React scheduling is simplified. The save effect runs after each handler that changes the data or the options. `App.App.Mount` runs the mount-time effects in their order.
- App.App.EndGenerateData and App.App.EndGenerateInsights: overlapping requests and stale replies are not modelled. The lemmas about whole requests assume nothing happens between start and end.
- The `instanceof Error` fallback texts are modelled (`App.ErrorText`) but never shown. Both service functions only throw `Error` objects.
- JSX markup, icons, the header and footer, and the build configuration (`vite.config.ts`).
