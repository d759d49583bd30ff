/** The browser's chat client: one request to the chat backend, the shaping of
    its answer, and the canned local answer used whenever the request fails.
    The network exchange is a parameter. */
module ChatClient {
  import opened Common
  import ChatApi

  datatype Language = En | My

  /** The assistant asked: the same two kinds as the backend. */
  type Assistant = ChatApi.Kind

  /** A value `JSON.parse` can give, with only the distinctions the client makes. */
  datatype Json =
    | JNull
    | JStr(text: string)
    | JArray(items: seq<Json>)
    | JObject(fields: map<string, Json>)
    | JOther

  /** What the exchange with the backend gave: an exception (network failure or the
      60-second abort), or a response with its status flag, its body text and the
      outcome of parsing that text (`None` when `JSON.parse` throws). */
  datatype Transport = Threw | Responded(ok: bool, raw: string, parsed: Option<Json>)

  /** A field of the result as JavaScript sees it: `undefined` or a JSON value. */
  type Field = Option<Json>

  datatype ChatResult = ChatResult(
    response: Field,
    category: Field,
    timestamp: Field,
    model: Field,
    error: bool,
    datasetRefs: Option<seq<Json>>)

  const FallbackModel := "local:fallback"

  const MentalTextEn :=
    "Let's try box breathing: inhale 4, hold 4, exhale 4, hold 4 (x4). "
      + "You’re not alone. If you're in immediate danger, call "
      + "199 now."
  const MentalTextMy :=
    "အကွက်အသက်ရှူ ၄-၄-၄-၄ (၄ ကြိမ်) လေ့ကျင့်ပါ။ "
      + "သင်တစ်ယောက်တည်း မဟုတ်ပါ။ အရေးပေါ် ဖြစ်ပါက "
      + "199 ကို ခေါ်ပါ။"
  const GeneralTextEn :=
    "Stay safe: Drop, Cover, Hold On. Move away from windows. Call "
      + "199 for real emergencies."
  const GeneralTextMy :=
    "လုံခြုံရေးကို ဦးစားပေးပါ — ခေါင်းပု၊ ဖုံး၊ ကိုင် လေ့ကျင့်ပါ။ "
      + "အရေးပေါ်ဖြစ်ပါက "
      + "199 ကို ခေါ်ပါ။"

  /** `localFallback`: the canned answer, by assistant and language, stamped with the
      current time. */
  function LocalFallback(language: Language, assistant: Assistant, nowIso: string): (r: ChatResult)
    ensures r.error && r.model == Some(JStr(FallbackModel)) && r.datasetRefs == None
    ensures r.category == Some(JStr("mental")) <==> assistant == ChatApi.Mental
    ensures r.category == Some(JStr("general")) <==> assistant == ChatApi.Emergency
    ensures r.timestamp == Some(JStr(nowIso))
  {
    assert "mental"[0] != "general"[0];
    match assistant
    case Mental =>
      ChatResult(Some(JStr(if language == En then MentalTextEn else MentalTextMy)), Some(JStr("mental")),
        Some(JStr(nowIso)), Some(JStr(FallbackModel)), true, None)
    case Emergency =>
      ChatResult(Some(JStr(if language == En then GeneralTextEn else GeneralTextMy)), Some(JStr("general")),
        Some(JStr(nowIso)), Some(JStr(FallbackModel)), true, None)
  }

  /** Every canned answer is a text that tells the reader to call 199. */
  lemma FallbackMentionsEmergencyNumber(language: Language, assistant: Assistant, nowIso: string)
    ensures var r := LocalFallback(language, assistant, nowIso);
      r.response.Some? && r.response.value.JStr? && Contains(r.response.value.text, "199")
  {
    var text := LocalFallback(language, assistant, nowIso).response.value.text;
    match (assistant, language)
    case (Mental, En) => ContainsWhereTailStarts(text, "199 now.", "199");
    case (Mental, My) => ContainsWhereTailStarts(text, "199 ကို ခေါ်ပါ။", "199");
    case (Emergency, En) => ContainsWhereTailStarts(text, "199 for real emergencies.", "199");
    case (Emergency, My) => ContainsWhereTailStarts(text, "199 ကို ခေါ်ပါ။", "199");
  }

  /** The body as JSON: an empty body and a body that does not parse both become `{}`
      (`safeJSON` and the empty-text guard before it). */
  function BodyJson(raw: string, parsed: Option<Json>): (r: Json)
    ensures r == JObject(map[]) <==> raw == "" || parsed == None || parsed == Some(JObject(map[]))
    ensures r != JObject(map[]) ==> Some(r) == parsed
  {
    if raw == "" then JObject(map[]) else parsed.GetOr(JObject(map[]))
  }

  /** Reading a property: `None` when the value is `null` (the read throws), else the
      property, `undefined` on anything that is not an object holding it. */
  function Property(json: Json, key: string): (r: Option<Field>)
    ensures r.None? <==> json.JNull?
    ensures r.Some? && r.value.Some? ==> json.JObject? && key in json.fields && r.value.value == json.fields[key]
  {
    match json
    case JNull => None
    case JObject(fields) => Some(if key in fields then Some(fields[key]) else None)
    case _ => Some(None)
  }

  /** `Array.isArray(x) ? x : undefined`. */
  function ArrayOnly(f: Field): (r: Option<seq<Json>>)
    ensures r.Some? <==> f.Some? && f.value.JArray?
    ensures r.Some? ==> f == Some(JArray(r.value))
  {
    if f.Some? && f.value.JArray? then Some(f.value.items) else None
  }

  /** `askChat`: a failed exchange, a non-OK status, or a body that parses to `null`
      (whose fields cannot be read) gives the local fallback; otherwise the backend's
      fields are passed through with `error` false. */
  function AskChat(language: Language, assistant: Assistant, transport: Transport, nowIso: string): (r: ChatResult)
    ensures transport.Threw? || !transport.ok ==> r == LocalFallback(language, assistant, nowIso)
    ensures r.error ==> r == LocalFallback(language, assistant, nowIso)
    ensures !r.error ==> transport.Responded? && transport.ok
  {
    match transport
    case Threw => LocalFallback(language, assistant, nowIso)
    case Responded(ok, raw, parsed) =>
      var json := BodyJson(raw, parsed);
      if !ok || json.JNull? then LocalFallback(language, assistant, nowIso)
      else
        ChatResult(
          Property(json, "response").value,
          Property(json, "category").value,
          Property(json, "timestamp").value,
          Property(json, "model").value,
          false,
          ArrayOnly(Property(json, "dataset_refs").value))
  }

  /** The exchange fails exactly when the client falls back. */
  predicate Failed(transport: Transport) {
    transport.Threw? || !transport.ok || (transport.raw != "" && transport.parsed == Some(JNull))
  }

  /** `error` is set exactly on the fallback path, and the fallback is then the answer. */
  lemma ErrorIffFailed(language: Language, assistant: Assistant, transport: Transport, nowIso: string)
    ensures AskChat(language, assistant, transport, nowIso).error <==> Failed(transport)
    ensures Failed(transport) ==> AskChat(language, assistant, transport, nowIso) == LocalFallback(language, assistant, nowIso)
  {
    if transport.Responded? && transport.ok {
      var json := BodyJson(transport.raw, transport.parsed);
      assert json.JNull? <==> transport.raw != "" && transport.parsed == Some(JNull);
    }
  }

  /** A successful answer passes the backend's fields through unchanged. */
  lemma SuccessPassesFields(language: Language, assistant: Assistant, raw: string, fields: map<string, Json>, nowIso: string)
    requires raw != ""
    ensures var r := AskChat(language, assistant, Responded(true, raw, Some(JObject(fields))), nowIso);
      && !r.error
      && (r.response.Some? <==> "response" in fields)
      && ("response" in fields ==> r.response == Some(fields["response"]))
      && ("category" in fields ==> r.category == Some(fields["category"]))
      && ("model" in fields ==> r.model == Some(fields["model"]))
  {
    var json := BodyJson(raw, Some(JObject(fields)));
    assert json == JObject(fields) by {
      if fields != map[] {
        assert json != JObject(map[]);
      }
    }
  }

  /** An empty or unparsable body with an OK status is not an error: every field is `undefined`. */
  lemma UnreadableBodyIsEmptyAnswer(language: Language, assistant: Assistant, raw: string, parsed: Option<Json>, nowIso: string)
    requires raw == "" || parsed == None
    ensures AskChat(language, assistant, Responded(true, raw, parsed), nowIso) == ChatResult(None, None, None, None, false, None)
  {
  }

  /** `dataset_refs` is kept exactly when the backend sent an array there. */
  lemma DatasetRefsOnlyArrays(language: Language, assistant: Assistant, transport: Transport, nowIso: string)
    ensures var r := AskChat(language, assistant, transport, nowIso);
      r.datasetRefs.Some? <==>
        (!Failed(transport) && transport.raw != "" && transport.parsed.Some? && transport.parsed.value.JObject?
        && "dataset_refs" in transport.parsed.value.fields && transport.parsed.value.fields["dataset_refs"].JArray?)
  {
    ErrorIffFailed(language, assistant, transport, nowIso);
  }
}
