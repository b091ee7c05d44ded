/** The browser's key-value store and the two entries the application keeps
    in it: the data points under "chartData" and the options under
    "chartOptions", each as JSON text. */
module Storage {
  import opened Wrappers
  import opened Json
  import opened Types

  const DataKey: string := "chartData"
  const OptionsKey: string := "chartOptions"

  /** `JSON.parse` and `JSON.stringify`, which are not modelled. */
  datatype JsonCodec = JsonCodec(parse: string -> Result<JsonValue, string>, stringify: JsonValue -> string)

  /** What the real pair guarantees for a value the application writes, and
      what this model relies on: parsing the text written for `v` gives `v`
      back, and that text is not empty. */
  predicate RoundTrips(codec: JsonCodec, v: JsonValue) {
    codec.parse(codec.stringify(v)) == Ok(v) && codec.stringify(v) != []
  }

  /** The round-trip premise is one a codec can meet for any value. */
  lemma RoundTripsAchievable(v: JsonValue)
    ensures exists codec :: RoundTrips(codec, v)
  {
    var codec := JsonCodec(_ => Ok(v), _ => "null");
    assert RoundTrips(codec, v);
  }

  // ---------------------------------------------------------------------
  // Records as JSON values.

  function ItemJson(d: DataItem): JsonValue {
    JObject(Record(d))
  }

  function ItemsJson(items: seq<DataItem>): (j: JsonValue)
    ensures j.JArray? && |j.items| == |items|
    ensures forall i :: 0 <= i < |items| ==> j.items[i] == ItemJson(items[i])
  {
    JArray(seq(|items|, i requires 0 <= i < |items| => ItemJson(items[i])))
  }

  /** A stored object read back as a data point: it needs a string `id`, a
      string `name` and a number `value`; any other field is kept. */
  function ItemFromJson(j: JsonValue): (r: Option<DataItem>)
    ensures r.Some? ==> WellFormed(r.value)
  {
    if && j.JObject?
       && "id" in j.fields && j.fields["id"].JString?
       && "name" in j.fields && j.fields["name"].JString?
       && "value" in j.fields && j.fields["value"].JNumber?
    then Some(DataItem(j.fields["id"].s, j.fields["name"].s, j.fields["value"].n, j.fields - CoreKeys))
    else None
  }

  /** A data point survives being written out and read back. */
  lemma ItemRoundTrip(d: DataItem)
    requires WellFormed(d)
    ensures ItemFromJson(ItemJson(d)) == Some(d)
  {
    var f := Record(d);
    assert f - CoreKeys == d.extra;
  }

  function ItemsFromSeq(js: seq<JsonValue>): (r: Option<seq<DataItem>>)
    ensures r.Some? ==> |r.value| == |js| && AllWellFormed(r.value)
    ensures r.Some? ==> forall i :: 0 <= i < |js| ==> ItemFromJson(js[i]) == Some(r.value[i])
  {
    if js == [] then Some([])
    else
      match (ItemFromJson(js[0]), ItemsFromSeq(js[1..]))
      case (Some(d), Some(ds)) =>
        assert forall i :: 1 <= i < |js| ==> js[i] == js[1..][i - 1];
        Some([d] + ds)
      case _ => None
  }

  /** A stored array read back as data points: every element must be one. */
  function ItemsFromJson(j: JsonValue): (r: Option<seq<DataItem>>)
    ensures r.Some? ==> AllWellFormed(r.value)
  {
    if j.JArray? then ItemsFromSeq(j.items) else None
  }

  lemma {:induction false} ItemsFromSeqRoundTrip(items: seq<DataItem>)
    requires AllWellFormed(items)
    ensures ItemsFromSeq(ItemsJson(items).items) == Some(items)
  {
    if items != [] {
      var js := ItemsJson(items).items;
      ItemRoundTrip(items[0]);
      ItemsFromSeqRoundTrip(items[1..]);
      assert ItemsJson(items[1..]).items == js[1..];
      assert items == [items[0]] + items[1..];
    }
  }

  /** A list of well-formed points survives being written out and read back. */
  lemma ItemsRoundTrip(items: seq<DataItem>)
    requires AllWellFormed(items)
    ensures ItemsFromJson(ItemsJson(items)) == Some(items)
  {
    ItemsFromSeqRoundTrip(items);
  }

  function OptionsJson(o: ChartOptions): JsonValue {
    JObject(map["title" := JString(o.title), "type" := JString(Tag(o.kind)), "color" := JString(o.color)])
  }

  /** Stored options read back: a string `title`, a chart-kind tag under
      `type` and a string `color`.  What is read is exactly what those three
      fields hold, so writing it out again reproduces them. */
  function OptionsFromJson(j: JsonValue): (r: Option<ChartOptions>)
    ensures r.Some? ==> j.JObject? && "title" in j.fields && "type" in j.fields && "color" in j.fields
    ensures r.Some? ==>
      && j.fields["title"] == JString(r.value.title)
      && j.fields["type"] == JString(Tag(r.value.kind))
      && j.fields["color"] == JString(r.value.color)
  {
    if && j.JObject?
       && "title" in j.fields && j.fields["title"].JString?
       && "type" in j.fields && j.fields["type"].JString?
       && "color" in j.fields && j.fields["color"].JString?
       && ChartTypeFromTag(j.fields["type"].s).Some?
    then Some(ChartOptions(j.fields["title"].s, ChartTypeFromTag(j.fields["type"].s).value, j.fields["color"].s))
    else None
  }

  lemma OptionsRoundTrip(o: ChartOptions)
    ensures OptionsFromJson(OptionsJson(o)) == Some(o)
  {
    TagRoundTrip(o.kind);
  }

  // ---------------------------------------------------------------------
  // Saving and loading.

  /** The part of the application state that is kept. */
  datatype Snapshot = Snapshot(items: seq<DataItem>, options: ChartOptions)

  /** `localStorage.getItem`: the text under a key, or `null`. */
  function Lookup(entries: map<string, string>, key: string): Option<string> {
    if key in entries then Some(entries[key]) else None
  }

  /** `if (saved)`: a missing entry and an empty one are both skipped. */
  predicate Present(v: Option<string>) {
    v.Some? && v.value != []
  }

  /** The save effect: "chartData" is written, then "chartOptions".  The
      store may refuse a write (`accepts`, for a full quota); a refusal
      throws, so nothing after it is written, and the error is caught. */
  function Saved(entries: map<string, string>, accepts: (string, string) -> bool, codec: JsonCodec, snap: Snapshot)
    : (r: map<string, string>)
    ensures forall k :: k != DataKey && k != OptionsKey ==> Lookup(r, k) == Lookup(entries, k)
    ensures accepts(DataKey, codec.stringify(ItemsJson(snap.items))) ==>
      Lookup(r, DataKey) == Some(codec.stringify(ItemsJson(snap.items)))
    ensures !accepts(DataKey, codec.stringify(ItemsJson(snap.items))) ==> r == entries
    ensures accepts(DataKey, codec.stringify(ItemsJson(snap.items))) ==>
      Lookup(r, OptionsKey) == if accepts(OptionsKey, codec.stringify(OptionsJson(snap.options)))
                               then Some(codec.stringify(OptionsJson(snap.options)))
                               else Lookup(entries, OptionsKey)
  {
    var data := codec.stringify(ItemsJson(snap.items));
    var options := codec.stringify(OptionsJson(snap.options));
    if !accepts(DataKey, data) then entries
    else if !accepts(OptionsKey, options) then entries[DataKey := data]
    else entries[DataKey := data][OptionsKey := options]
  }

  /** Saving the same state twice leaves the store as saving it once. */
  lemma SavedIdempotent(entries: map<string, string>, accepts: (string, string) -> bool, codec: JsonCodec, snap: Snapshot)
    ensures Saved(Saved(entries, accepts, codec, snap), accepts, codec, snap) == Saved(entries, accepts, codec, snap)
  {
  }

  /** A later save of a state overrides an earlier one when the store takes
      both entries. */
  lemma SavedOverrides(entries: map<string, string>, accepts: (string, string) -> bool, codec: JsonCodec,
                       first: Snapshot, second: Snapshot)
    requires accepts(DataKey, codec.stringify(ItemsJson(second.items)))
    requires accepts(OptionsKey, codec.stringify(OptionsJson(second.options)))
    ensures Saved(Saved(entries, accepts, codec, first), accepts, codec, second)
         == Saved(entries, accepts, codec, second)
  {
  }

  /** The options step of the load effect, applied to `s`. */
  function WithStoredOptions(s: Snapshot, savedOptions: Option<string>, codec: JsonCodec): (r: Result<Snapshot, string>)
    ensures r.Ok? ==> r.value.items == s.items
  {
    if !Present(savedOptions) then Ok(s)
    else
      match codec.parse(savedOptions.value)
      case Err(e) => Err(e)
      case Ok(v) =>
        match OptionsFromJson(v)
        case Some(o) => Ok(s.(options := o))
        case None => Ok(s)
  }

  /** The load effect on a state `base`.  Each entry is applied only when
      present and not empty.  When "chartData" does not parse, the `catch`
      is reached before the options are looked at, so nothing is applied.
      When "chartOptions" does not parse, the data already read stays. */
  function Restored(entries: map<string, string>, codec: JsonCodec, base: Snapshot): (r: Snapshot)
    ensures !Present(Lookup(entries, DataKey)) ==> r.items == base.items
    ensures !Present(Lookup(entries, OptionsKey)) ==> r.options == base.options
  {
    var savedData := Lookup(entries, DataKey);
    var savedOptions := Lookup(entries, OptionsKey);
    var afterData: Result<Snapshot, string> :=
      if !Present(savedData) then Ok(base)
      else
        match codec.parse(savedData.value)
        case Err(e) => Err(e)
        case Ok(v) =>
          match ItemsFromJson(v)
          case Some(items) => Ok(base.(items := items))
          case None => Ok(base);
    match afterData
    case Err(_) => base
    case Ok(s) =>
      match WithStoredOptions(s, savedOptions, codec)
      case Ok(s2) => s2
      case Err(_) => s
  }

  /** What was saved is what is loaded: when the codec reads back the two
      values written, a store that took both entries gives the saved state
      back, whatever state the load starts from. */
  lemma RestoreAfterSave(entries: map<string, string>, accepts: (string, string) -> bool, codec: JsonCodec,
                         snap: Snapshot, base: Snapshot)
    requires AllWellFormed(snap.items)
    requires RoundTrips(codec, ItemsJson(snap.items)) && RoundTrips(codec, OptionsJson(snap.options))
    requires accepts(DataKey, codec.stringify(ItemsJson(snap.items)))
    requires accepts(OptionsKey, codec.stringify(OptionsJson(snap.options)))
    ensures Restored(Saved(entries, accepts, codec, snap), codec, base) == snap
  {
    ItemsRoundTrip(snap.items);
    OptionsRoundTrip(snap.options);
  }

  /** Unparsable data aborts the whole load: the options are not applied
      even when they are stored and valid. */
  lemma CorruptDataAbortsLoad(entries: map<string, string>, codec: JsonCodec, base: Snapshot)
    requires Present(Lookup(entries, DataKey)) && codec.parse(entries[DataKey]).Err?
    ensures Restored(entries, codec, base) == base
  {
  }

  /** Without stored data, stored options are still applied. */
  lemma MissingDataStillLoadsOptions(entries: map<string, string>, codec: JsonCodec, base: Snapshot, o: ChartOptions)
    requires !Present(Lookup(entries, DataKey))
    requires Present(Lookup(entries, OptionsKey)) && codec.parse(entries[OptionsKey]) == Ok(OptionsJson(o))
    ensures Restored(entries, codec, base) == Snapshot(base.items, o)
  {
    OptionsRoundTrip(o);
  }

  /** Unparsable options do not undo the data read before them. */
  lemma CorruptOptionsKeepData(entries: map<string, string>, codec: JsonCodec, base: Snapshot, items: seq<DataItem>)
    requires AllWellFormed(items)
    requires Present(Lookup(entries, DataKey)) && codec.parse(entries[DataKey]) == Ok(ItemsJson(items))
    requires Present(Lookup(entries, OptionsKey)) && codec.parse(entries[OptionsKey]).Err?
    ensures Restored(entries, codec, base) == Snapshot(items, base.options)
  {
    ItemsRoundTrip(items);
  }

  // ---------------------------------------------------------------------
  // The store itself.

  /** `window.localStorage`: a map from keys to texts.  Whether a write is
      taken (the quota) is fixed by `accepts`. */
  class LocalStorage {
    var entries: map<string, string>
    const accepts: (string, string) -> bool

    constructor(initial: map<string, string>, accepts: (string, string) -> bool)
      ensures entries == initial && this.accepts == accepts
    {
      entries := initial;
      this.accepts := accepts;
    }

    /** `getItem`: the text under `key`, or nothing. */
    method GetItem(key: string) returns (v: Option<string>)
      ensures v.Some? <==> key in entries
      ensures v.Some? ==> v.value == entries[key]
    {
      if key in entries {
        v := Some(entries[key]);
      } else {
        v := None;
      }
    }

    /** `setItem`: stores `value` under `key`, or reports that the store
      refused it (where the source throws) and changes nothing. */
    method SetItem(key: string, value: string) returns (ok: bool)
      modifies this
      ensures ok == accepts(key, value)
      ensures entries == if ok then old(entries)[key := value] else old(entries)
    {
      ok := accepts(key, value);
      if ok {
        entries := entries[key := value];
      }
    }
  }
}
