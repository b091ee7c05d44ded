/** The handling of the generative-AI service's answers: taking the JSON out
    of a reply that may be wrapped in a markdown code fence, checking the
    generated data points and giving them fresh ids, and the reduced data
    sent when asking for an analysis.  The service itself, `JSON.parse` and
    the id source are parameters. */
module Gemini {
  import opened Wrappers
  import opened Json
  import opened Text
  import opened Types

  const Fence: string := "```"

  const ParseFailureMessage: string :=
    "La respuesta de la IA no tenía el formato JSON esperado. Por favor, intente de nuevo."
  const BadShapeMessage: string := "La IA devolvió datos en un formato incorrecto."
  const DataFailureMessage: string :=
    "No se pudieron generar los datos del gráfico desde la IA. Verifique su clave de API y la consulta."
  const InsightsFailureMessage: string := "No se pudieron generar las ideas desde la IA."

  // ---------------------------------------------------------------------
  // Requests.  The wording of the two instructions is not modelled, only
  // what they carry.

  const ModelName: string := "gemini-2.5-flash-preview-04-17"

  datatype GenerationConfig = GenerationConfig(model: string, responseMimeType: Option<string>, temperature: real)

  const DataConfig: GenerationConfig := GenerationConfig(ModelName, Some("application/json"), 0.5)
  const InsightsConfig: GenerationConfig := GenerationConfig(ModelName, None, 0.7)

  /** A data-generation request: the user's prompt goes in verbatim. */
  datatype DataRequest = DataRequest(config: GenerationConfig, prompt: string)

  /** An analysis request: the chart's title and kind, and the data reduced
      to names and values (`Payload`). */
  datatype InsightsRequest = InsightsRequest(config: GenerationConfig, title: string, kind: ChartType, payload: JsonValue)

  // ---------------------------------------------------------------------
  // The code fence: `^```(\w*)?\s*\n?(.*?)\n?\s*```$` with the flag `s`.

  /** A way for the fence pattern to match: `tag` is capture group 1 and
      `body` capture group 2; `lead` is what `\s*\n?` takes and `trail` what
      `\n?\s*` takes, which in both cases is just a run of white space. */
  datatype FenceMatch = FenceMatch(tag: string, lead: string, body: string, trail: string)

  predicate IsFenceSplit(t: string, m: FenceMatch) {
    && t == Fence + m.tag + m.lead + m.body + m.trail + Fence
    && AllWord(m.tag) && AllSpace(m.lead) && AllSpace(m.trail)
  }

  /** The split a backtracking matcher reports: the greedy `\w*` and `\s*`
      take all they can, then the lazy `.*?` takes as little as it can. */
  predicate IsPreferredSplit(t: string, m: FenceMatch) {
    && IsFenceSplit(t, m)
    && !IsWordChar((m.lead + m.body + m.trail + Fence)[0])
    && !IsSpace((m.body + m.trail + Fence)[0])
    && (m.body == [] || !IsSpace(m.body[|m.body| - 1]))
  }

  predicate HasFences(t: string) {
    |t| >= 6 && t[..3] == Fence && t[|t| - 3..] == Fence
  }

  /** How the backtracking matcher cuts a string that has the fences: the
      longest run of word characters, then the longest run of white space,
      then the body up to the white space before the closing fence. */
  function GreedySplit(t: string): FenceMatch
    requires HasFences(t)
  {
    var inner := t[3..|t| - 3];
    var after := inner[Span(inner, IsWordChar)..];
    var rest := after[Span(after, IsSpace)..];
    var body := TrimEnd(rest);
    FenceMatch(inner[..Span(inner, IsWordChar)], after[..Span(after, IsSpace)], body, rest[|body|..])
  }

  /** Matching the fence pattern against the trimmed reply. */
  function MatchFence(t: string): (m: Option<FenceMatch>)
    ensures m.Some? <==> HasFences(t)
    ensures m.Some? ==> IsPreferredSplit(t, m.value)
  {
    if !HasFences(t) then None
    else
      GreedySplitIsPreferred(t);
      Some(GreedySplit(t))
  }

  /** The greedy cut is a way for the pattern to match, and the preferred one. */
  lemma GreedySplitIsPreferred(t: string)
    requires HasFences(t)
    ensures IsPreferredSplit(t, GreedySplit(t))
  {
    var m := GreedySplit(t);
    var inner := t[3..|t| - 3];
    var w := Span(inner, IsWordChar);
    var after := inner[w..];
    var rest := after[Span(after, IsSpace)..];
    GreedyPieces(t, inner, after, rest);
    Reassociate(t, m.tag, m.lead, m.body, m.trail);
    FirstAfterRun(inner, w, IsWordChar);
    FirstAfterRun(after, Span(after, IsSpace), IsSpace);
    Assoc(m.lead, m.body, m.trail);
  }

  /** The pieces of the greedy cut put back together give the string. */
  lemma GreedyPieces(t: string, inner: string, after: string, rest: string)
    requires HasFences(t) && inner == t[3..|t| - 3]
    requires after == inner[Span(inner, IsWordChar)..] && rest == after[Span(after, IsSpace)..]
    ensures var m := GreedySplit(t);
      && rest == m.body + m.trail && after == m.lead + rest && inner == m.tag + after
      && t == Fence + (m.tag + (m.lead + (m.body + m.trail))) + Fence
      && IsFenceSplit(t, m)
  {
    var w, v := Span(inner, IsWordChar), Span(after, IsSpace);
    var body := TrimEnd(rest);
    var m := GreedySplit(t);
    assert m == FenceMatch(inner[..w], after[..v], body, rest[|body|..]);
    assert rest == m.body + m.trail by { CutAt(rest, |body|); }
    assert after == m.lead + rest by { CutAt(after, v); }
    assert inner == m.tag + after by { CutAt(inner, w); }
    assert t == Fence + (m.tag + (m.lead + (m.body + m.trail))) + Fence by { Unfence(t); }
    assert AllWord(m.tag) && AllSpace(m.lead) && AllSpace(m.trail);
    Reassociate(t, m.tag, m.lead, m.body, m.trail);
  }

  lemma Unfence(t: string)
    requires HasFences(t)
    ensures t == Fence + t[3..|t| - 3] + Fence
  {
    assert t == t[..3] + t[3..|t| - 3] + t[|t| - 3..];
  }

  lemma Reassociate(t: string, a: string, b: string, c: string, d: string)
    requires t == Fence + (a + (b + (c + d))) + Fence
    ensures t == Fence + a + b + c + d + Fence
  {
  }

  /** After a maximal run of `p`-characters comes a character outside `p`,
      or the closing fence, whose backtick is neither a word character nor
      white space. */
  lemma FirstAfterRun(s: string, n: nat, p: char -> bool)
    requires n == Span(s, p)
    ensures !p('`') ==> !p((s[n..] + Fence)[0])
  {
  }

  /** A match needs the three backticks at both ends, so a reply without
      them is never matched. */
  lemma SplitHasFences(t: string, m: FenceMatch)
    requires IsFenceSplit(t, m)
    ensures HasFences(t)
  {
    assert t == Fence + (m.tag + m.lead + m.body + m.trail + Fence);
    assert t == (Fence + m.tag + m.lead + m.body + m.trail) + Fence;
  }

  /** A run of `p`-characters followed by a character outside `p` splits a
      string in one way only. */
  lemma RunSplitUnique(x1: string, y1: string, x2: string, y2: string, p: char -> bool)
    requires x1 + y1 == x2 + y2
    requires forall i :: 0 <= i < |x1| ==> p(x1[i])
    requires forall i :: 0 <= i < |x2| ==> p(x2[i])
    requires y1 != [] && !p(y1[0]) && y2 != [] && !p(y2[0])
    ensures x1 == x2 && y1 == y2
  {
    SpanOf(x1, y1, p);
    SpanOf(x2, y2, p);
    assert x1 == (x1 + y1)[..|x1|] && x2 == (x2 + y2)[..|x2|];
    assert y1 == (x1 + y1)[|x1|..] && y2 == (x2 + y2)[|x2|..];
  }

  /** A string that does not end in white space, followed by white space,
      splits a string in one way only. */
  lemma TrailSplitUnique(b1: string, t1: string, b2: string, t2: string)
    requires b1 + t1 == b2 + t2
    requires AllSpace(t1) && AllSpace(t2)
    requires b1 == [] || !IsSpace(b1[|b1| - 1])
    requires b2 == [] || !IsSpace(b2[|b2| - 1])
    ensures b1 == b2 && t1 == t2
  {
    TrimEndPadded(b1, t1);
    TrimEndPadded(b2, t2);
    assert t1 == (b1 + t1)[|b1|..] && t2 == (b2 + t2)[|b2|..];
  }

  /** The matcher's choice is the only preferred split, so `MatchFence`
      reports exactly the groups the regular expression captures. */
  lemma {:induction false} PreferredSplitUnique(t: string, a: FenceMatch, b: FenceMatch)
    requires IsPreferredSplit(t, a) && IsPreferredSplit(t, b)
    ensures a == b
  {
    var ya, yb := a.body + a.trail + Fence, b.body + b.trail + Fence;
    var xa, xb := a.lead + ya, b.lead + yb;
    Nest(a.tag, a.lead, a.body, a.trail);
    Nest(b.tag, b.lead, b.body, b.trail);
    CancelPrefix(a.tag + xa, b.tag + xb);
    RunSplitUnique(a.tag, xa, b.tag, xb, IsWordChar);
    RunSplitUnique(a.lead, ya, b.lead, yb, IsSpace);
    CancelSuffix(a.body + a.trail, b.body + b.trail);
    TrailSplitUnique(a.body, a.trail, b.body, b.trail);
  }

  lemma Nest(a: string, b: string, c: string, d: string)
    ensures Fence + a + b + c + d + Fence == Fence + (a + (b + (c + d + Fence)))
  {
  }

  lemma CancelPrefix(u: string, v: string)
    requires Fence + u == Fence + v
    ensures u == v
  {
    assert u == (Fence + u)[3..] && v == (Fence + v)[3..];
  }

  lemma CancelSuffix(u: string, v: string)
    requires u + Fence == v + Fence
    ensures u == v
  {
    assert u == (u + Fence)[..|u|] && v == (v + Fence)[..|v|];
  }

  // ---------------------------------------------------------------------
  // parseJsonResponse

  /** The text handed to the decoder: the trimmed reply, or, when the fence
      matched with a non-empty body, that body trimmed.  Either way it has
      no white space at its ends, and without backticks at both ends of the
      trimmed reply it is that reply. */
  function Candidate(raw: string): (c: string)
    ensures IsTrimmed(c)
    ensures !HasFences(Trim(raw)) ==> c == Trim(raw)
  {
    var t := Trim(raw);
    match MatchFence(t)
    case Some(m) => if m.body != [] then Trim(m.body) else t
    case None => t
  }

  /** `parseJsonResponse`.  `decode` is `JSON.parse`: a value, or a failure
      with its diagnostic.  The diagnostic is only logged; the caller sees
      one fixed message. */
  function ParseJsonResponse(raw: string, decode: string -> Result<JsonValue, string>): (r: Result<JsonValue, string>)
    ensures r.Ok? <==> decode(Candidate(raw)).Ok?
    ensures r.Ok? ==> r.value == decode(Candidate(raw)).value
    ensures r.Err? ==> r.error == ParseFailureMessage
  {
    match decode(Candidate(raw))
    case Ok(v) => Ok(v)
    case Err(_) => Err(ParseFailureMessage)
  }

  /** The reply is trimmed before anything else: white space around it
      changes nothing. */
  lemma CandidateIgnoresPadding(a: string, raw: string, b: string)
    requires AllSpace(a) && AllSpace(b)
    ensures Candidate(a + raw + b) == Candidate(raw)
  {
    TrimIgnoresPadding(a, raw, b);
  }

  /** With a fence, the tag being the longest run of word characters after
      the opening backticks, the decoder gets the trimmed inside when that
      is not empty, and the whole trimmed reply when it is. */
  lemma CandidateFenced(raw: string, tag: string, inner: string)
    requires Trim(raw) == Fence + tag + inner + Fence
    requires AllWord(tag)
    requires inner == [] || !IsWordChar(inner[0])
    ensures Candidate(raw) == if Trim(inner) != [] then Trim(inner) else Trim(raw)
  {
    FencedBody(Trim(raw), tag, inner);
    TrimIdempotent(inner);
  }

  /** Behind a maximal tag, the body the greedy cut finds is the trimmed rest. */
  lemma FencedBody(t: string, tag: string, inner: string)
    requires t == Fence + tag + inner + Fence
    requires AllWord(tag)
    requires inner == [] || !IsWordChar(inner[0])
    ensures HasFences(t) && GreedySplit(t).body == Trim(inner)
  {
    Assoc(Fence, tag, inner);
    FenceOf(t, tag + inner);
    SpanOf(tag, inner, IsWordChar);
    DropPrefix(tag, inner);
  }

  lemma FenceOf(t: string, x: string)
    requires t == Fence + x + Fence
    ensures HasFences(t) && t[3..|t| - 3] == x
  {
    assert t[..3] == Fence && t[|t| - 3..] == Fence;
  }

  /** A bare word between the fences is taken for the language tag, so the
      body is empty and the whole reply is decoded unchanged. */
  lemma BareWordFenceKeepsReply()
    ensures Candidate("```123```") == "```123```"
  {
    var raw := "```123```";
    assert IsTrimmed(raw);
    assert [] + raw + [] == raw;
    TrimPadded([], raw, []);
    assert raw == Fence + "123" + [] + Fence;
    CandidateFenced(raw, "123", []);
  }

  /** A JSON text wrapped in a fence, with any tag or none and any padding,
      parses as the JSON text alone. */
  lemma FencedParsesAsUnfenced(pre: string, tag: string, lead: string, text: string, trail: string, post: string,
                               decode: string -> Result<JsonValue, string>)
    requires AllSpace(pre) && AllSpace(lead) && AllSpace(trail) && AllSpace(post) && AllWord(tag)
    requires text != [] && IsTrimmed(text) && text[0] != '`'
    requires lead != [] || !IsWordChar(text[0])
    ensures ParseJsonResponse(pre + Fence + tag + lead + text + trail + Fence + post, decode)
         == ParseJsonResponse(text, decode)
  {
    var raw := pre + Fence + tag + lead + text + trail + Fence + post;
    var inner := lead + text + trail;
    TrimOfFenced(pre, tag, lead, text, trail, post);
    TrimPadded(lead, text, trail);
    HeadOfPadded(lead, text, trail);
    CandidateFenced(raw, tag, inner);
    TrimmedUnfenced(text);
  }

  /** White space around a fenced reply is trimmed away, and nothing else. */
  lemma TrimOfFenced(pre: string, tag: string, lead: string, text: string, trail: string, post: string)
    requires AllSpace(pre) && AllSpace(post)
    ensures Trim(pre + Fence + tag + lead + text + trail + Fence + post) == Fence + tag + (lead + text + trail) + Fence
  {
    var fenced := Fence + tag + (lead + text + trail) + Fence;
    assert pre + Fence + tag + lead + text + trail + Fence + post == pre + fenced + post;
    assert IsTrimmed(fenced);
    TrimPadded(pre, fenced, post);
  }

  lemma HeadOfPadded(lead: string, text: string, trail: string)
    requires text != []
    ensures (lead + text + trail)[0] == if lead != [] then lead[0] else text[0]
  {
  }

  /** A trimmed text that does not open with a backtick is decoded as it is. */
  lemma TrimmedUnfenced(text: string)
    requires IsTrimmed(text) && (text == [] || text[0] != '`')
    ensures Candidate(text) == text
  {
    assert [] + text + [] == text;
    TrimPadded([], text, []);
    NoFenceWithoutBacktick(text);
  }

  lemma NoFenceWithoutBacktick(t: string)
    requires t == [] || t[0] != '`'
    ensures !HasFences(t)
  {
    if |t| >= 3 {
      assert t[..3][0] == t[0];
    }
  }

  // ---------------------------------------------------------------------
  // generateChartDataFromPrompt

  /** What the validation accepts as an element: an object whose `name` is a
      string and whose `value` is a number.  Any other element fails the
      `typeof` tests (a `null` element makes the property access throw
      instead, and the same `catch` folds that into the same message). */
  predicate IsChartPoint(j: JsonValue) {
    && j.JObject?
    && "name" in j.fields && j.fields["name"].JString?
    && "value" in j.fields && j.fields["value"].JNumber?
  }

  /** The decoded value passes the validation: an array of chart points. */
  predicate IsChartData(v: JsonValue)
    ensures IsChartData(v) <==> v.JArray? && !SomeMalformed(v.items)
  {
    v.JArray? && forall i :: 0 <= i < |v.items| ==> IsChartPoint(v.items[i])
  }

  /** `data.some(item => typeof item.name !== 'string' || typeof item.value !== 'number')`. */
  function SomeMalformed(items: seq<JsonValue>): (b: bool)
    ensures b <==> exists i :: 0 <= i < |items| && !IsChartPoint(items[i])
  {
    if items == [] then false
    else if !IsChartPoint(items[0]) then true
    else
      var b := SomeMalformed(items[1..]);
      assert forall i :: 1 <= i < |items| ==> items[1..][i - 1] == items[i];
      b
  }

  /** `{...item, id}`: the element with its `id` field set to `id`, whether or
      not it had one. */
  function WithId(j: JsonValue, id: string): (d: DataItem)
    requires IsChartPoint(j)
    ensures WellFormed(d) && d.id == id
    ensures Record(d) == j.fields["id" := JString(id)]
  {
    var d := DataItem(id, j.fields["name"].s, j.fields["value"].n, j.fields - CoreKeys);
    assert Record(d).Keys == j.fields["id" := JString(id)].Keys;
    d
  }

  /** `data.map(item => ({...item, id: self.crypto.randomUUID()}))`; the i-th
      id drawn is `newId(i)`.  Each element keeps its fields, in order, with
      the new id in place of any it had. */
  function WithFreshIds(items: seq<JsonValue>, newId: nat -> string): (r: seq<DataItem>)
    requires forall i :: 0 <= i < |items| ==> IsChartPoint(items[i])
    ensures |r| == |items| && AllWellFormed(r)
    ensures forall i :: 0 <= i < |items| ==>
      && r[i].id == newId(i) && IsChartPoint(items[i])
      && Record(r[i]) == items[i].fields["id" := JString(newId(i))]
  {
    var r := seq(|items|, i requires 0 <= i < |items| => WithId(items[i], newId(i)));
    forall i | 0 <= i < |items|
      ensures IsChartPoint(items[i]) && WellFormed(r[i]) && r[i].id == newId(i)
      ensures Record(r[i]) == items[i].fields["id" := JString(newId(i))]
    {
      assert r[i] == WithId(items[i], newId(i));
    }
    r
  }

  /** Why data generation failed, as the service tells the cases apart
      internally: the call, the parse, or the validation. */
  datatype Failure = Transport | Unparsable(message: string) | BadShape(message: string)

  /** The decoded reply, when there is one. */
  function Decoded(response: Option<string>, decode: string -> Result<JsonValue, string>): (v: Option<JsonValue>)
    ensures v.Some? <==> response.Some? && ParseJsonResponse(response.value, decode).Ok?
    ensures v.Some? ==> v.value == ParseJsonResponse(response.value, decode).value
  {
    if response.Some? && decode(Candidate(response.value)).Ok? then Some(decode(Candidate(response.value)).value)
    else None
  }

  /** The body of the `try` block.  `response` is the reply's text, or `None`
      when the call to the service failed.  Each way of failing is told
      apart; success is a decoded array of chart points given fresh ids. */
  function Synthesize(response: Option<string>, decode: string -> Result<JsonValue, string>, newId: nat -> string)
    : (r: Result<seq<DataItem>, Failure>)
    ensures response.None? ==> r == Err(Transport)
    ensures response.Some? && Decoded(response, decode).None? ==> r == Err(Unparsable(ParseFailureMessage))
    ensures Decoded(response, decode).Some? && !IsChartData(Decoded(response, decode).value) ==>
      r == Err(BadShape(BadShapeMessage))
    ensures Decoded(response, decode).Some? && IsChartData(Decoded(response, decode).value) ==>
      r == Ok(WithFreshIds(Decoded(response, decode).value.items, newId))
  {
    match response
    case None => Err(Transport)
    case Some(text) =>
      match ParseJsonResponse(text, decode)
      case Err(msg) => Err(Unparsable(msg))
      case Ok(data) =>
        if !data.JArray? || SomeMalformed(data.items) then Err(BadShape(BadShapeMessage))
        else Ok(WithFreshIds(data.items, newId))
  }

  /** `generateChartDataFromPrompt` once the service has answered.  It
      succeeds exactly when a reply came, decoded, and is an array of chart
      points; then each point keeps its fields, in order, with a fresh id
      in place of any id the model gave.  Every failure, whichever kind,
      surfaces as one fixed message. */
  function GenerateChartDataFromPrompt(response: Option<string>, decode: string -> Result<JsonValue, string>,
                                       newId: nat -> string): (r: Result<seq<DataItem>, string>)
    ensures r.Ok? <==> Decoded(response, decode).Some? && IsChartData(Decoded(response, decode).value)
    ensures r.Ok? ==>
      var data := Decoded(response, decode).value.items;
      && |r.value| == |data| && AllWellFormed(r.value)
      && forall i :: 0 <= i < |data| ==>
        && r.value[i].id == newId(i) && IsChartPoint(data[i])
        && Record(r.value[i]) == data[i].fields["id" := JString(newId(i))]
    ensures r.Err? ==> r.error == DataFailureMessage
  {
    match Synthesize(response, decode, newId)
    case Ok(items) => Ok(items)
    case Err(_) => Err(DataFailureMessage)
  }

  /** With an id source that never repeats itself, the generated points
      have pairwise distinct ids. */
  lemma GeneratedIdsDistinct(response: Option<string>, decode: string -> Result<JsonValue, string>, newId: nat -> string)
    requires forall i, j :: 0 <= i < j ==> newId(i) != newId(j)
    ensures var r := GenerateChartDataFromPrompt(response, decode, newId);
      r.Ok? ==> forall i, j :: 0 <= i < j < |r.value| ==> r.value[i].id != r.value[j].id
  {
    var r := GenerateChartDataFromPrompt(response, decode, newId);
    if r.Ok? {
      forall i, j | 0 <= i < j < |r.value| ensures r.value[i].id != r.value[j].id {
        assert Record(r.value[i])["id"] == JString(newId(i));
        assert Record(r.value[j])["id"] == JString(newId(j));
      }
    }
  }

  /** The request sent for a data-generation prompt. */
  function DataRequestFor(prompt: string): (q: DataRequest)
    ensures q.prompt == prompt && q.config.responseMimeType == Some("application/json")
  {
    DataRequest(DataConfig, prompt)
  }

  // ---------------------------------------------------------------------
  // generateChartInsights

  const PayloadKeys: set<string> := {"name", "value"}

  /** `data.map(({name, value}) => ({name, value}))`: each point reduced to
      its name and value, in order. */
  function Payload(items: seq<DataItem>): (j: JsonValue)
    ensures j.JArray? && |j.items| == |items|
    ensures forall i :: 0 <= i < |items| ==>
      j.items[i] == JObject(map k | k in PayloadKeys :: Record(items[i])[k])
  {
    var objs := seq(|items|, i requires 0 <= i < |items| =>
      JObject(map["name" := JString(items[i].name), "value" := JNumber(items[i].value)]));
    assert forall i :: 0 <= i < |items| ==>
      objs[i].fields == map k | k in PayloadKeys :: Record(items[i])[k];
    JArray(objs)
  }

  /** Ids and extra fields do not reach the service: points with the same
      names and values give the same payload. */
  lemma PayloadIgnoresIdsAndExtras(a: seq<DataItem>, b: seq<DataItem>)
    requires |a| == |b|
    requires forall i :: 0 <= i < |a| ==> a[i].name == b[i].name && a[i].value == b[i].value
    ensures Payload(a) == Payload(b)
  {
    var pa, pb := Payload(a), Payload(b);
    forall i | 0 <= i < |a| ensures pa.items[i] == pb.items[i] {
      assert Record(a[i])["name"] == Record(b[i])["name"];
      assert Record(a[i])["value"] == Record(b[i])["value"];
      assert (map k | k in PayloadKeys :: Record(a[i])[k]) == (map k | k in PayloadKeys :: Record(b[i])[k]);
    }
    assert pa.items == pb.items;
  }

  function InsightsRequestFor(data: seq<DataItem>, options: ChartOptions): (q: InsightsRequest)
    ensures q.title == options.title && q.kind == options.kind && q.payload == Payload(data)
    ensures q.config.temperature == 0.7 && q.config.responseMimeType.None?
  {
    InsightsRequest(InsightsConfig, options.title, options.kind, Payload(data))
  }

  /** `generateChartInsights` once the service has answered: the reply's
      text verbatim, or one fixed message when the call failed. */
  function GenerateChartInsights(response: Option<string>): (r: Result<string, string>)
    ensures response.Some? ==> r == Ok(response.value)
    ensures response.None? ==> r == Err(InsightsFailureMessage)
  {
    match response
    case Some(text) => Ok(text)
    case None => Err(InsightsFailureMessage)
  }
}
