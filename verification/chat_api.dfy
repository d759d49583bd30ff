/** The chat backend: request intake and language detection, retrieval-hit
    filtering, the character-budgeted context block, prompt assembly, the three
    remote providers with their own retry rules, the provider cascade and the
    JSON envelope of the `/chat` endpoint. Every remote answer is a parameter. */
module ChatApi {
  import opened Common

  // ---------------------------------------------------------------------
  // Configuration

  /** The environment the backend reads at start-up (keys and URLs already stripped). */
  datatype Config = Config(
    groqApiKey: string,
    groqModel: string,
    geminiUrl: string,
    geminiModel: string,
    ollamaModelEmergency: string,
    ollamaModelMental: string)

  /** The values used when no environment variable is set. */
  const Defaults := Config("", "llama-3.3-70b-versatile", "", "gemini-2.5-flash", "llama3.2:3b", "llama3.2:3b")

  /** Groq models in the order they are tried: the configured one, then two fixed ones. */
  function GroqModels(cfg: Config): seq<string> {
    [cfg.groqModel, "llama-3.1-8b-instant", "mixtral-8x7b-32768"]
  }

  // ---------------------------------------------------------------------
  // Assistants, languages, prompts

  datatype Kind = Emergency | Mental

  function KindName(k: Kind): string {
    match k
    case Emergency => "emergency"
    case Mental => "mental"
  }

  /** Looks an assistant name up in the prompt table; a name the table lacks has no prompt. */
  function ParseKind(name: string): (k: Option<Kind>)
    ensures k.Some? ==> KindName(k.value) == name
    ensures k.None? <==> name != "emergency" && name != "mental"
  {
    if name == "emergency" then Some(Emergency)
    else if name == "mental" then Some(Mental)
    else None
  }

  lemma ParseKindName(k: Kind)
    ensures ParseKind(KindName(k)) == Some(k)
  {
  }

  /** A character of the Myanmar block of the Unicode Standard, U+1000 to U+109F. */
  predicate IsMyanmarChar(c: char) {
    '\U{1000}' <= c <= '\U{109F}'
  }

  function IsBurmese(text: string): (r: bool)
    ensures r <==> exists i :: 0 <= i < |text| && IsMyanmarChar(text[i])
  {
    if text == [] then false
    else IsMyanmarChar(text[0]) || (assert forall i :: 0 < i < |text| ==> text[i] == text[1..][i - 1]; IsBurmese(text[1..]))
  }

  /** The language of a request: the given one when truthy, else detected from the message. */
  function DetectLanguage(language: Option<string>, message: string): (lang: string)
    ensures Truthy(language) ==> lang == language.value
    ensures !Truthy(language) ==> (lang == "my" <==> exists i :: 0 <= i < |message| && IsMyanmarChar(message[i]))
    ensures !Truthy(language) ==> (lang == "en" <==> forall i :: 0 <= i < |message| ==> !IsMyanmarChar(message[i]))
  {
    OrElse(language, if IsBurmese(message) then "my" else "en")
  }

  const EmergencyPromptEn :=
    "You are an AI assistant helping with "
      + "earthquake & emergency safety. Be "
      + "concise, practical, and safety-first. "
      + "If this is a real emergency, remind the "
      + "user to call "
      + "199."
  const EmergencyPromptMy :=
    "သင်သည် ငလျင်နှင့် အရေးပေါ် "
      + "လုံခြုံရေးအကြံပြုမှုအတွက် ကူညီပေးသော AI "
      + "ဖြစ်သည်။ တိုတောင်းသော်လည်း "
      + "အသုံးဝင်အောင်ဖြေပါ။ တကယ်အရေးပေါ်ဖြစ်ပါက "
      + "199 ကို ခေါ်ရန် အမြဲသတိပေးပါ။"
  const MentalPromptEn :=
    "You are a warm, supportive "
      + "mental-health companion (not a "
      + "clinician). Respond with empathy and "
      + "calming language. Offer grounding such "
      + "as box breathing (4-4-4-4). If the user "
      + "indicates crisis or self-harm risk, "
      + "suggest contacting a trusted person or "
      + "calling "
      + "199."
  const MentalPromptMy :=
    "သင်သည် နူးညံ့သိမ်မွေ့သော စိတ်ကျန်းမာရေး "
      + "အကူအညီပေးသူ (ဆေးဘက်ဝင်မဟုတ်) ဖြစ်သည်။ "
      + "နူးညံ့သိမ်မွေ့သောစကားဖြင့် အားပေးပါ။ "
      + "အကွက်အသက်ရှူ ၄-၄-၄-၄ ကဲ့သို့သော "
      + "ဂရောင်ဒင်းကို ပြောပြပါ။ "
      + "အရေးကြီးစိုးရိမ်မှု/ကိုယ်ပိုင်အန္တရာယ်ရှိပါက "
      + "ယုံကြည်ရသောသူ သို့မဟုတ် "
      + "199 ကို ဆက်သွယ်ရန် အကြံပြုပါ။"

  /** The four fixed system prompts, by assistant and by whether Burmese is wanted. */
  function Prompt(kind: Kind, burmese: bool): string {
    match (kind, burmese)
    case (Emergency, false) => EmergencyPromptEn
    case (Emergency, true) => EmergencyPromptMy
    case (Mental, false) => MentalPromptEn
    case (Mental, true) => MentalPromptMy
  }

  /** The system prompt: the Burmese text exactly when the language is "my", English for any other value. */
  function SystemPrompt(kind: Kind, lang: string): (r: string)
    ensures lang == "my" ==> r == MentalPromptMy || r == EmergencyPromptMy
    ensures lang != "my" ==> r == MentalPromptEn || r == EmergencyPromptEn
    ensures kind == Mental ==> r == MentalPromptMy || r == MentalPromptEn
    ensures kind == Emergency ==> r == EmergencyPromptMy || r == EmergencyPromptEn
  {
    Prompt(kind, lang == "my")
  }

  /** Every system prompt reminds the user of the emergency number 199. */
  lemma PromptsMentionEmergencyNumber(kind: Kind, burmese: bool)
    ensures Contains(Prompt(kind, burmese), "199")
  {
    match (kind, burmese)
    case (Emergency, false) => ContainsWhereTailStarts(EmergencyPromptEn, "199.", "199");
    case (Emergency, true) => ContainsWhereTailStarts(EmergencyPromptMy, "199 ကို ခေါ်ရန် အမြဲသတိပေးပါ။", "199");
    case (Mental, false) => ContainsWhereTailStarts(MentalPromptEn, "199.", "199");
    case (Mental, true) => ContainsWhereTailStarts(MentalPromptMy, "199 ကို ဆက်သွယ်ရန် အကြံပြုပါ။", "199");
  }

  function PickOllamaModel(cfg: Config, kind: Kind): (m: string)
    ensures kind == Mental ==> m == cfg.ollamaModelMental
    ensures kind == Emergency ==> m == cfg.ollamaModelEmergency
  {
    if kind == Mental then cfg.ollamaModelMental else cfg.ollamaModelEmergency
  }

  const MentalFallbackMy :=
    "အေးချမ်းသက်သာစေရန် အသက်ရှူ ၄-၄-၄-၄ "
      + "လေ့ကျင့်ပါ။ သင်တစ်ယောက်တည်းမဟုတ်ပါ။ "
      + "အရေးပေါ်ဖြစ်ပါက "
      + "199 ကို ခေါ်ပါ။"
  const MentalFallbackEn :=
    "Let's try box breathing (4-4-4-4). "
      + "You're not alone. If this is an "
      + "emergency, please call "
      + "199."
  const EmergencyFallbackMy :=
    "အရေးပေါ်အခြေအနေတွင် 'ခေါင်းပု၊ ဖုံး၊ "
      + "ကိုင်' လုပ်ပါ။ အရေးပေါ်ဖြစ်ပါက "
      + "199 ကို ခေါ်ပါ။"
  const EmergencyFallbackEn :=
    "Stay safe: Drop, Cover, Hold On. For "
      + "real emergencies, call "
      + "199."

  /** The canned answer given when every provider failed, by assistant and language. */
  function LocalFallback(lang: string, kind: Kind): (r: string)
    ensures lang == "my" ==> r == MentalFallbackMy || r == EmergencyFallbackMy
    ensures lang != "my" ==> r == MentalFallbackEn || r == EmergencyFallbackEn
    ensures kind == Mental ==> r == MentalFallbackMy || r == MentalFallbackEn
    ensures kind == Emergency ==> r == EmergencyFallbackMy || r == EmergencyFallbackEn
  {
    if kind == Mental then
      if lang == "my" then MentalFallbackMy else MentalFallbackEn
    else
      if lang == "my" then EmergencyFallbackMy else EmergencyFallbackEn
  }

  /** Every local answer is non-empty and reminds the user of the emergency number 199. */
  lemma LocalFallbackMentionsEmergencyNumber(lang: string, kind: Kind)
    ensures LocalFallback(lang, kind) != ""
    ensures Contains(LocalFallback(lang, kind), "199")
  {
    if kind == Mental {
      if lang == "my" {
        ContainsWhereTailStarts(MentalFallbackMy, "199 ကို ခေါ်ပါ။", "199");
      } else {
        ContainsWhereTailStarts(MentalFallbackEn, "199.", "199");
      }
    } else {
      if lang == "my" {
        ContainsWhereTailStarts(EmergencyFallbackMy, "199 ကို ခေါ်ပါ။", "199");
      } else {
        ContainsWhereTailStarts(EmergencyFallbackEn, "199.", "199");
      }
    }
  }

  // ---------------------------------------------------------------------
  // Retrieval hits

  /** A metadata field that is either a string or a list of strings. */
  datatype TextValue = Str(s: string) | Items(items: seq<string>)

  predicate TextTruthy(v: Option<TextValue>) {
    match v
    case None => false
    case Some(Str(s)) => s != ""
    case Some(Items(items)) => items != []
  }

  /** One record of the metadata file; the fields the backend reads. */
  datatype MetaDoc = MetaDoc(
    labelField: Option<string>,
    title: Option<string>,
    phaseName: Option<string>,
    text: Option<TextValue>,
    excerpt: Option<TextValue>,
    content: Option<TextValue>,
    fullConversation: Option<TextValue>)

  /** One raw search hit: a row number into the metadata (possibly out of range) and a score. */
  datatype Hit = Hit(index: int, score: real)

  /** A kept hit: the metadata record with its 1-based rank, score and row number. */
  datatype Retrieved = Retrieved(doc: MetaDoc, rank: nat, score: real, id: nat)

  predicate InRange(h: Hit, meta: seq<MetaDoc>) {
    0 <= h.index < |meta|
  }

  /** The hits that name an existing metadata row, each ranked by its position in the raw list. */
  function FilterHits(hits: seq<Hit>, meta: seq<MetaDoc>): (out: seq<Retrieved>)
    ensures |out| <= |hits|
    ensures forall r :: r in out ==>
      1 <= r.rank <= |hits| && r.id < |meta| && hits[r.rank - 1].index == r.id
      && r.doc == meta[r.id] && r.score == hits[r.rank - 1].score
  {
    if hits == [] then []
    else
      var h := hits[|hits| - 1];
      var front := FilterHits(hits[..|hits| - 1], meta);
      front + (if InRange(h, meta) then [Retrieved(meta[h.index], |hits|, h.score, h.index)] else [])
  }

  /** The kept ranks are strictly increasing, so kept hits stay in search order. */
  lemma {:induction false} FilterHitsRanksIncrease(hits: seq<Hit>, meta: seq<MetaDoc>)
    ensures forall i, j :: 0 <= i < j < |FilterHits(hits, meta)| ==>
      FilterHits(hits, meta)[i].rank < FilterHits(hits, meta)[j].rank
  {
    if hits != [] {
      FilterHitsRanksIncrease(hits[..|hits| - 1], meta);
      var front := FilterHits(hits[..|hits| - 1], meta);
      assert forall r :: r in front ==> r.rank <= |hits| - 1;
    }
  }

  /** Every raw hit that names an existing row is kept, with its position as rank. */
  lemma {:induction false} FilterHitsComplete(hits: seq<Hit>, meta: seq<MetaDoc>, k: nat)
    requires k < |hits| && InRange(hits[k], meta)
    ensures Retrieved(meta[hits[k].index], k + 1, hits[k].score, hits[k].index) in FilterHits(hits, meta)
  {
    if k < |hits| - 1 {
      FilterHitsComplete(hits[..|hits| - 1], meta, k);
    }
  }

  /** `retrieve` after the search: nothing without an index, else the in-range hits. */
  method Retrieve(indexLoaded: bool, hits: seq<Hit>, meta: seq<MetaDoc>) returns (out: seq<Retrieved>)
    ensures out == if indexLoaded then FilterHits(hits, meta) else []
  {
    out := [];
    if !indexLoaded {
      return;
    }
    var rank := 1;
    while rank <= |hits|
      invariant 1 <= rank <= |hits| + 1
      invariant out == FilterHits(hits[..rank - 1], meta)
    {
      var h := hits[rank - 1];
      assert hits[..rank][..rank - 1] == hits[..rank - 1];
      if 0 <= h.index < |meta| {
        out := out + [Retrieved(meta[h.index], rank, h.score, h.index)];
      }
      rank := rank + 1;
    }
    assert hits[..|hits|] == hits;
  }

  // ---------------------------------------------------------------------
  // Context snippets

  function TextOf(v: TextValue): string {
    match v
    case Str(s) => s
    case Items(items) => Join(items, " ")
  }

  /** label, else title, else phase name, else "snippet". */
  function DocLabel(d: MetaDoc): string {
    OrElse(d.labelField, OrElse(d.title, OrElse(d.phaseName, "snippet")))
  }

  /** The first truthy of text, excerpt, content and full conversation, as a string. */
  function DocText(d: MetaDoc): string {
    FirstText([d.text, d.excerpt, d.content, d.fullConversation])
  }

  /** The first truthy field, as a string, or "" when none is. */
  function FirstText(fields: seq<Option<TextValue>>): string {
    if fields == [] then ""
    else if TextTruthy(fields[0]) then TextOf(fields[0].value)
    else FirstText(fields[1..])
  }

  /** `str.replace("\n", " ")`: every newline becomes a space and every other character stays. */
  function ReplaceNewlines(s: string): (r: string)
    ensures |r| == |s| && '\n' !in r
    ensures forall i :: 0 <= i < |s| ==> r[i] == if s[i] == '\n' then ' ' else s[i]
  {
    if s == [] then [] else [if s[0] == '\n' then ' ' else s[0]] + ReplaceNewlines(s[1..])
  }

  /** One context line: "[rank] label: text", the text stripped and with newlines turned to spaces. */
  function SnippetLine(r: Retrieved): string {
    "[" + NatToString(r.rank) + "] " + DocLabel(r.doc) + ": " + ReplaceNewlines(Trim(Python, DocText(r.doc)))
  }

  /** The lines taken by the budget: each line is taken, and taking stops after the first
      line that brings the running total past the limit. */
  function Budgeted(lines: seq<string>, total: int, limit: int): seq<string> {
    if lines == [] then []
    else if total + |lines[0]| > limit then [lines[0]]
    else [lines[0]] + Budgeted(lines[1..], total + |lines[0]|, limit)
  }

  /** The budget keeps a non-empty prefix of the lines, in order. */
  lemma {:induction false} BudgetedPrefix(lines: seq<string>, total: int, limit: int)
    ensures |Budgeted(lines, total, limit)| <= |lines|
    ensures Budgeted(lines, total, limit) == lines[..|Budgeted(lines, total, limit)|]
    ensures lines != [] ==> |Budgeted(lines, total, limit)| >= 1
  {
    if lines != [] && total + |lines[0]| <= limit {
      BudgetedPrefix(lines[1..], total + |lines[0]|, limit);
    }
  }

  /** Every line but the last one taken keeps the total within the limit, and when lines
      are left over the taken ones have passed it. */
  lemma {:induction false} BudgetedStops(lines: seq<string>, total: int, limit: int)
    ensures var b := Budgeted(lines, total, limit);
      forall n :: 1 <= n < |b| ==> total + TotalLength(b[..n]) <= limit
    ensures var b := Budgeted(lines, total, limit);
      |b| < |lines| ==> total + TotalLength(b) > limit
  {
    var b := Budgeted(lines, total, limit);
    if lines != [] && total + |lines[0]| <= limit {
      var rest := Budgeted(lines[1..], total + |lines[0]|, limit);
      BudgetedStops(lines[1..], total + |lines[0]|, limit);
      assert b == [lines[0]] + rest;
      forall n | 1 <= n < |b|
        ensures total + TotalLength(b[..n]) <= limit
      {
        assert b[..n][0] == lines[0];
        assert b[..n][1..] == rest[..n - 1];
        if n == 1 {
          assert rest[..0] == [];
        }
      }
      assert b[1..] == rest;
    }
  }

  /** One turn of the budget loop: the next line is taken, and either ends the result or
      leaves the rest to be taken with the larger total. */
  lemma BudgetedStep(lines: seq<string>, i: nat, total: int, limit: int, parts: seq<string>)
    requires i < |lines|
    requires parts + Budgeted(lines[i..], total, limit) == Budgeted(lines, 0, limit)
    ensures total + |lines[i]| > limit ==> parts + [lines[i]] == Budgeted(lines, 0, limit)
    ensures total + |lines[i]| <= limit ==>
      (parts + [lines[i]]) + Budgeted(lines[i + 1..], total + |lines[i]|, limit) == Budgeted(lines, 0, limit)
  {
    assert lines[i..][0] == lines[i] && lines[i..][1..] == lines[i + 1..];
    if total + |lines[i]| <= limit {
      var rest := Budgeted(lines[i + 1..], total + |lines[i]|, limit);
      assert parts + ([lines[i]] + rest) == (parts + [lines[i]]) + rest;
    }
  }

  /** The loop of `make_context_snippets`: forms each record's line in turn, keeps it,
      and stops after the first line that takes the running total past the limit. */
  method BudgetedLines(docs: seq<Retrieved>, line: Retrieved -> string, limit: int) returns (parts: seq<string>)
    ensures parts == Budgeted(Map(docs, line), 0, limit)
  {
    ghost var lines := Map(docs, line);
    parts := [];
    var total := 0;
    var i := 0;
    while i < |docs|
      invariant 0 <= i <= |docs|
      invariant parts + Budgeted(lines[i..], total, limit) == Budgeted(lines, 0, limit)
    {
      var l := line(docs[i]);
      assert l == lines[i];
      BudgetedStep(lines, i, total, limit, parts);
      parts := parts + [l];
      total := total + |l|;
      if total > limit {
        break;
      }
      i := i + 1;
    }
    assert parts == Budgeted(lines, 0, limit) by {
      if i == |docs| {
        assert lines[i..] == [];
      }
    }
  }

  /** `make_context_snippets`: the budgeted context lines joined by newlines. */
  method MakeContextSnippets(docs: seq<Retrieved>, limit: int) returns (ctx: string)
    ensures ctx == Join(Budgeted(Map(docs, SnippetLine), 0, limit), "\n")
  {
    var parts := BudgetedLines(docs, SnippetLine, limit);
    ctx := Join(parts, "\n");
  }

  /** A context line has no newline of its own when its label has none. */
  lemma SnippetLineSingleLine(r: Retrieved)
    requires '\n' !in DocLabel(r.doc)
    ensures '\n' !in SnippetLine(r)
  {
    var digits := NatToString(r.rank);
    assert '\n' !in digits by {
      forall i | 0 <= i < |digits|
        ensures digits[i] != '\n'
      {
        assert '0' <= digits[i] <= '9';
      }
    }
    var cleaned := ReplaceNewlines(Trim(Python, DocText(r.doc)));
    assert SnippetLine(r) == "[" + digits + "] " + DocLabel(r.doc) + ": " + cleaned;
  }

  /** The context built from at least one retrieved record is non-empty. */
  lemma ContextNonEmpty(docs: seq<Retrieved>, limit: int)
    requires docs != []
    ensures Join(Budgeted(Map(docs, SnippetLine), 0, limit), "\n") != ""
  {
    var b := Budgeted(Map(docs, SnippetLine), 0, limit);
    BudgetedPrefix(Map(docs, SnippetLine), 0, limit);
    assert b[0] == SnippetLine(docs[0]);
    JoinNonEmpty(b, "\n");
  }

  // ---------------------------------------------------------------------
  // Messages

  datatype Role = System | User
  datatype ChatMessage = ChatMessage(role: Role, content: string)

  const ContextPrefix := "[Curated therapy context] "
  const AttachmentPrefix := "[User-attached content extracted] "

  /** The prompt: the system prompt, the curated context for the mental assistant, the
      attachment text cut to 2000 characters, and the user's text, in that order. */
  function BuildMessages(kind: Kind, lang: string, userText: string, ctx: string, fileText: string): (msgs: seq<ChatMessage>)
    ensures |msgs| == 2 + (if kind == Mental && ctx != "" then 1 else 0) + (if fileText != "" then 1 else 0)
    ensures msgs[0] == ChatMessage(System, SystemPrompt(kind, lang))
    ensures msgs[|msgs| - 1] == ChatMessage(User, userText)
    ensures forall i :: 0 <= i < |msgs| - 1 ==> msgs[i].role == System
    ensures kind == Mental && ctx != "" ==> msgs[1] == ChatMessage(System, ContextPrefix + ctx)
    ensures fileText != "" ==> msgs[|msgs| - 2] == ChatMessage(System, AttachmentPrefix + Take(fileText, 2000))
  {
    [ChatMessage(System, SystemPrompt(kind, lang))]
    + (if kind == Mental && ctx != "" then [ChatMessage(System, ContextPrefix + ctx)] else [])
    + (if fileText != "" then [ChatMessage(System, AttachmentPrefix + Take(fileText, 2000))] else [])
    + [ChatMessage(User, userText)]
  }

  predicate IsNonEmpty(t: string) {
    t != ""
  }

  /** The texts that are kept for the attachment block, in upload order. */
  function NonEmptyTexts(texts: seq<string>): (kept: seq<string>)
    ensures forall t :: t in kept <==> t in texts && t != ""
  {
    Filter(texts, IsNonEmpty)
  }

  /** The attachment block: the first 4000 characters of the non-empty texts joined by
      blank lines, all of it when shorter, and "" when no text is non-empty. */
  function AttachmentText(texts: seq<string>): (r: string)
    ensures var joined := Join(NonEmptyTexts(texts), "\n\n");
      |r| == (if |joined| < 4000 then |joined| else 4000) && r == joined[..|r|]
    ensures (forall t :: t in texts ==> t == "") ==> r == ""
  {
    var kept := NonEmptyTexts(texts);
    assert (forall t :: t in texts ==> t == "") ==> kept == [] by {
      if kept != [] {
        assert kept[0] in kept;
      }
    }
    Take(Join(kept, "\n\n"), 4000)
  }

  // ---------------------------------------------------------------------
  // Providers

  datatype Outcome = Ok(text: string) | Err(msg: string)

  /** What the Gemini edge function answered. */
  datatype GeminiReply =
    | GeminiUnreachable(reason: string)
    | GeminiStatus(status: int, body: string)
    | GeminiPayload(content: Option<string>, error: Option<string>)

  const SoftRefusal :=
    "မင်းမေးခဲ့တဲ့အကြောင်းအရာကို "
      + "လုံခြုံရေးနဲ့ ကိုယ်ရေးအချက်အလက် "
      + "ထိခိုက်နိုင်လို့ အတိအကျဖြေပါမယ်လို့ "
      + "မမြင်လို့ပါ။ အခြားပုံစံနဲ့ သို့မဟုတ် "
      + "အခြားမေးခွန်းနဲ့ စမ်းမေးကြည့်ပါမလား။"

  /** `call_gemini_via_supabase`: a stripped non-empty content is the answer; empty content
      with an error field fails; empty content without one is the fixed soft refusal. */
  function GeminiOutcome(configured: bool, reply: GeminiReply): (r: Outcome)
    ensures r.Ok? ==> r.text != ""
    ensures r.Ok? <==> (configured && reply.GeminiPayload?
      && (Trim(Python, OrElse(reply.content, "")) != "" || !Truthy(reply.error)))
    ensures configured && reply.GeminiPayload? && Trim(Python, OrElse(reply.content, "")) != "" ==>
      r == Ok(Trim(Python, OrElse(reply.content, "")))
    ensures configured && reply.GeminiPayload? && Trim(Python, OrElse(reply.content, "")) == "" && !Truthy(reply.error) ==>
      r == Ok(SoftRefusal)
  {
    if !configured then Err("SUPABASE_GEMINI_URL not configured")
    else
      match reply
      case GeminiUnreachable(e) => Err(e)
      case GeminiStatus(status, body) => Err("Gemini edge error " + IntToString(status) + ": " + Take(body, 500))
      case GeminiPayload(content, error) =>
        var text := Trim(Python, OrElse(content, ""));
        if text != "" then Ok(text)
        else if Truthy(error) then Err("Gemini edge error payload: " + error.value)
        else Ok(SoftRefusal)
  }

  /** What one Groq request produced. */
  datatype GroqReply =
    | GroqRaised(error: string)
    | GroqHttp(ok: bool, body: string, content: Option<string>)

  datatype GroqResult = GroqAnswer(content: string, model: string) | GroqFailure(msg: string)

  /** The answer a reply carries: a truthy content in a successful response. */
  function GroqContent(reply: GroqReply): Option<string> {
    if reply.GroqHttp? && reply.ok && Truthy(reply.content) then reply.content else None
  }

  /** The text kept as the last error of a failed attempt. */
  function GroqLast(reply: GroqReply): string {
    match reply
    case GroqRaised(e) => e
    case GroqHttp(_, body, _) => body
  }

  /** Python's rendering of an optional string inside an f-string. */
  function ShowOptional(o: Option<string>): string {
    match o
    case None => "None"
    case Some(s) => s
  }

  function GroqFrom(models: seq<string>, reply: nat -> GroqReply, i: nat, last: Option<string>): GroqResult
    requires i <= |models|
    decreases |models| - i
  {
    if i == |models| then GroqFailure("Groq failed: " + ShowOptional(last))
    else if GroqContent(reply(i)).Some? then GroqAnswer(GroqContent(reply(i)).value, models[i])
    else GroqFrom(models, reply, i + 1, Some(GroqLast(reply(i))))
  }

  /** `call_groq`, where `reply(i)` is what the i-th request returned. */
  function GroqOutcome(models: seq<string>, reply: nat -> GroqReply): GroqResult {
    GroqFrom(models, reply, 0, None)
  }

  lemma {:induction false} GroqFromFirstAnswer(models: seq<string>, reply: nat -> GroqReply, i: nat, last: Option<string>)
    requires i <= |models|
    ensures var r := GroqFrom(models, reply, i, last);
      r.GroqAnswer? ==> exists k :: (i <= k < |models| && r.model == models[k] && GroqContent(reply(k)) == Some(r.content)
        && forall j :: i <= j < k ==> GroqContent(reply(j)).None?)
    ensures var r := GroqFrom(models, reply, i, last);
      r.GroqFailure? <==> forall j :: i <= j < |models| ==> GroqContent(reply(j)).None?
    decreases |models| - i
  {
    if i < |models| && GroqContent(reply(i)).None? {
      GroqFromFirstAnswer(models, reply, i + 1, Some(GroqLast(reply(i))));
    }
  }

  /** Groq's answer comes from the first model, in list order, whose reply has content, and
      Groq fails only when no model gave content. */
  lemma GroqFirstAnswer(models: seq<string>, reply: nat -> GroqReply)
    ensures var r := GroqOutcome(models, reply);
      r.GroqAnswer? ==> r.content != "" && exists k :: (0 <= k < |models| && r.model == models[k]
        && GroqContent(reply(k)) == Some(r.content) && forall j :: 0 <= j < k ==> GroqContent(reply(j)).None?)
    ensures GroqOutcome(models, reply).GroqFailure? <==> forall j :: 0 <= j < |models| ==> GroqContent(reply(j)).None?
  {
    GroqFromFirstAnswer(models, reply, 0, None);
  }

  /** `call_groq`: tries the models in order, remembering the last error text. */
  method CallGroq(models: seq<string>, reply: nat -> GroqReply) returns (r: GroqResult)
    ensures r == GroqOutcome(models, reply)
  {
    var last: Option<string> := None;
    var i := 0;
    while i < |models|
      invariant 0 <= i <= |models|
      invariant GroqFrom(models, reply, i, last) == GroqOutcome(models, reply)
    {
      var rep := reply(i);
      if rep.GroqHttp? && rep.ok && Truthy(rep.content) {
        return GroqAnswer(rep.content.value, models[i]);
      }
      last := Some(match rep case GroqRaised(e) => e case GroqHttp(_, body, _) => body);
      i := i + 1;
    }
    r := GroqFailure("Groq failed: " + ShowOptional(last));
  }

  /** What one Ollama request produced: a (possibly null) content, or an error. */
  datatype HttpAnswer = Content(content: Option<string>) | Raised(error: string)

  /** The error texts that make the native retry run on the CPU. */
  const GpuErrorKeywords: seq<string> :=
    ["more system memory", "unable to load full model on gpu", "out of memory", "no supported gpu"]

  predicate ForceCpu(msg: string) {
    exists k :: 0 <= k < |GpuErrorKeywords| && Contains(Lower(msg), GpuErrorKeywords[k])
  }

  datatype OllamaAttempt = OpenAiEndpoint | NativeEndpoint(numGpuZero: bool)
  datatype OllamaResult = OllamaReturned(content: Option<string>) | OllamaRaised(error: string)

  /** `call_ollama`, where `reply(i)` is what the i-th request returned: the OpenAI-style
      endpoint, then the native one, then the native one on the CPU when not already forced. */
  function OllamaOutcome(reply: nat -> HttpAnswer): (r: OllamaResult)
    ensures r.OllamaReturned? ==> exists k :: 0 <= k < 3 && reply(k) == Content(r.content)
    ensures reply(0).Content? ==> r == OllamaReturned(reply(0).content)
    ensures r.OllamaRaised? ==> reply(1).Raised? && r.error == reply(1).error
    ensures r.OllamaRaised? <==>
      reply(0).Raised? && reply(1).Raised? && (ForceCpu(reply(0).error) || reply(2).Raised?)
    ensures reply(0).Raised? && reply(1).Content? ==> r == OllamaReturned(reply(1).content)
    ensures reply(0).Raised? && !ForceCpu(reply(0).error) && reply(1).Raised? && reply(2).Content? ==>
      r == OllamaReturned(reply(2).content)
  {
    if reply(0).Content? then OllamaReturned(reply(0).content)
    else if reply(1).Content? then OllamaReturned(reply(1).content)
    else if !ForceCpu(reply(0).error) && reply(2).Content? then OllamaReturned(reply(2).content)
    else OllamaRaised(reply(1).error)
  }

  /** `call_ollama`, also reporting the requests it made. */
  method CallOllama(reply: nat -> HttpAnswer) returns (r: OllamaResult, attempts: seq<OllamaAttempt>)
    ensures r == OllamaOutcome(reply)
    ensures 1 <= |attempts| <= 3 && attempts[0] == OpenAiEndpoint
    ensures |attempts| == 1 <==> reply(0).Content?
    ensures |attempts| >= 2 ==> attempts[1] == NativeEndpoint(ForceCpu(reply(0).error))
    ensures |attempts| == 3 <==> reply(0).Raised? && !ForceCpu(reply(0).error) && reply(1).Raised?
    ensures |attempts| == 3 ==> attempts[2] == NativeEndpoint(true)
    ensures r.OllamaReturned? ==> reply(|attempts| - 1) == Content(r.content)
  {
    attempts := [OpenAiEndpoint];
    var first := reply(0);
    if first.Content? {
      return OllamaReturned(first.content), attempts;
    }
    var forceCpu := ForceCpu(first.error);
    var numGpuZero := forceCpu;
    attempts := attempts + [NativeEndpoint(numGpuZero)];
    var second := reply(1);
    if second.Content? {
      return OllamaReturned(second.content), attempts;
    }
    if !numGpuZero {
      numGpuZero := true;
      attempts := attempts + [NativeEndpoint(numGpuZero)];
      var third := reply(2);
      if third.Content? {
        return OllamaReturned(third.content), attempts;
      }
    }
    r := OllamaRaised(second.error);
  }

  // ---------------------------------------------------------------------
  // The cascade

  datatype Provider = Gemini | Groq | Ollama
  datatype ProviderError = ProviderError(provider: Provider, message: string)

  /** What the cascade sends to every provider: the prompt and the sampling parameters. */
  datatype ProviderRequest = ProviderRequest(messages: seq<ChatMessage>, temperature: real, maxTokens: nat)

  /** Everything the remote providers answer to one provider request. */
  datatype Replies = Replies(gemini: GeminiReply, groq: nat -> GroqReply, ollama: nat -> HttpAnswer)

  /** The remote providers: their replies as a function of what they are sent. */
  type Network = ProviderRequest -> Replies

  /** The request of `chat`: the messages of `build_messages`, temperature 0.5 for the mental
      assistant and 0.7 for the emergency one, and at most 512 tokens. */
  function RequestFor(kind: Kind, lang: string, userText: string, ctx: string, fileText: string): (pr: ProviderRequest)
    ensures pr.messages == BuildMessages(kind, lang, userText, ctx, fileText)
    ensures pr.temperature == 0.5 <==> kind == Mental
    ensures pr.temperature == 0.7 <==> kind == Emergency
    ensures pr.maxTokens == 512
  {
    ProviderRequest(BuildMessages(kind, lang, userText, ctx, fileText), if kind == Mental then 0.5 else 0.7, 512)
  }

  const LocalModel := "local:fallback"

  /** What one provider gave: a text with the model label it is reported under, an error
      message, or (Ollama only) a reply without content and without an error. */
  datatype Attempt = Answered(text: string, model: string) | Failed(message: string) | NoText

  datatype Step = Step(provider: Provider, attempt: Attempt)

  /** What the three providers give for one request, each when asked. */
  datatype Outcomes = Outcomes(gemini: Outcome, groq: GroqResult, ollama: OllamaResult)

  function OutcomesOf(cfg: Config, replies: Replies): Outcomes {
    Outcomes(GeminiOutcome(true, replies.gemini), GroqOutcome(GroqModels(cfg), replies.groq), OllamaOutcome(replies.ollama))
  }

  /** Gemini and Groq report a result only with a non-empty text. */
  predicate NonEmptyAnswers(o: Outcomes) {
    (o.gemini.Ok? ==> o.gemini.text != "") && (o.groq.GroqAnswer? ==> o.groq.content != "")
  }

  lemma ProvidersAnswerNonEmpty(cfg: Config, replies: Replies)
    ensures NonEmptyAnswers(OutcomesOf(cfg, replies))
  {
    GroqFirstAnswer(GroqModels(cfg), replies.groq);
  }

  function GeminiStep(cfg: Config, o: Outcomes): Attempt {
    match o.gemini
    case Ok(text) => Answered(text, "gemini:" + cfg.geminiModel)
    case Err(msg) => Failed(msg)
  }

  function GroqStep(o: Outcomes): Attempt {
    match o.groq
    case GroqAnswer(content, m) => Answered(content, "groq:" + m)
    case GroqFailure(msg) => Failed(msg)
  }

  function OllamaStep(cfg: Config, kind: Kind, o: Outcomes): Attempt {
    match o.ollama
    case OllamaReturned(Some(text)) => Answered(text, "ollama:" + PickOllamaModel(cfg, kind))
    case OllamaReturned(None) => NoText
    case OllamaRaised(msg) => Failed(msg)
  }

  /** The last provider asked produced a result. */
  predicate Answers(steps: seq<Step>) {
    steps != [] && steps[|steps| - 1].attempt.Answered?
  }

  /** The providers asked for one request, in order, with what each gave: Gemini when its
      URL is configured, Groq when keyed and nothing has answered, Ollama when nothing has. */
  function Steps(cfg: Config, kind: Kind, o: Outcomes): seq<Step> {
    var gemini := if cfg.geminiUrl != "" then [Step(Gemini, GeminiStep(cfg, o))] else [];
    var groq := if !Answers(gemini) && cfg.groqApiKey != "" then [Step(Groq, GroqStep(o))] else [];
    var ollama := if !Answers(gemini + groq) then [Step(Ollama, OllamaStep(cfg, kind, o))] else [];
    gemini + groq + ollama
  }

  /** The errors recorded along the way: one per provider that raised, in order. */
  function ErrorsOf(steps: seq<Step>): seq<ProviderError> {
    if steps == [] then []
    else
      (if steps[0].attempt.Failed? then [ProviderError(steps[0].provider, steps[0].attempt.message)] else [])
      + ErrorsOf(steps[1..])
  }

  /** The reply of the cascade: the answering provider's text and label, else the local answer. */
  datatype Reply = Reply(response: string, model: string)

  function FinalReply(steps: seq<Step>, lang: string, kind: Kind): Reply {
    if Answers(steps) then
      var a := steps[|steps| - 1].attempt;
      Reply(a.text, a.model)
    else Reply(LocalFallback(lang, kind), LocalModel)
  }

  /** Gemini (when configured), then Groq (when keyed), then Ollama, then the local answer:
      each provider runs only while no earlier one produced a result. */
  method RunCascade(cfg: Config, kind: Kind, lang: string, o: Outcomes)
    returns (response: string, model: string, errors: seq<ProviderError>)
    ensures Reply(response, model) == FinalReply(Steps(cfg, kind, o), lang, kind)
    ensures errors == ErrorsOf(Steps(cfg, kind, o))
  {
    var result: Option<string> := None;
    var modelUsed := "";
    errors := [];
    StepsShape(cfg, kind, o);
    if cfg.geminiUrl != "" {
      match o.gemini {
        case Ok(text) =>
          result := Some(text);
          modelUsed := "gemini:" + cfg.geminiModel;
        case Err(msg) =>
          errors := errors + [ProviderError(Gemini, msg)];
      }
    }
    if result.None? && cfg.groqApiKey != "" {
      match o.groq {
        case GroqAnswer(content, gm) =>
          result := Some(content);
          modelUsed := "groq:" + gm;
        case GroqFailure(msg) =>
          errors := errors + [ProviderError(Groq, msg)];
      }
    }
    if result.None? {
      var om := PickOllamaModel(cfg, kind);
      match o.ollama {
        case OllamaReturned(content) =>
          result := content;
          modelUsed := "ollama:" + om;
        case OllamaRaised(msg) =>
          errors := errors + [ProviderError(Ollama, msg)];
      }
    }
    if result.None? {
      result := Some(LocalFallback(lang, kind));
      modelUsed := LocalModel;
    }
    response, model := result.value, modelUsed;
  }

  /** The rank of a provider in the cascade. */
  function Position(p: Provider): nat {
    match p
    case Gemini => 0
    case Groq => 1
    case Ollama => 2
  }

  predicate Asked(steps: seq<Step>, p: Provider) {
    exists i :: 0 <= i < |steps| && steps[i].provider == p
  }

  predicate GeminiAnswers(cfg: Config, o: Outcomes) {
    cfg.geminiUrl != "" && o.gemini.Ok?
  }

  predicate GroqAnswers(cfg: Config, o: Outcomes) {
    cfg.groqApiKey != "" && o.groq.GroqAnswer?
  }

  /** The seven shapes the list of asked providers can take. */
  lemma StepsShape(cfg: Config, kind: Kind, o: Outcomes)
    ensures var steps := Steps(cfg, kind, o);
      var g, q, l := Step(Gemini, GeminiStep(cfg, o)), Step(Groq, GroqStep(o)), Step(Ollama, OllamaStep(cfg, kind, o));
      if GeminiAnswers(cfg, o) then steps == [g]
      else if cfg.geminiUrl != "" && GroqAnswers(cfg, o) then steps == [g, q]
      else if cfg.geminiUrl != "" && cfg.groqApiKey != "" then steps == [g, q, l]
      else if cfg.geminiUrl != "" then steps == [g, l]
      else if GroqAnswers(cfg, o) then steps == [q]
      else if cfg.groqApiKey != "" then steps == [q, l]
      else steps == [l]
  {
  }

  /** The providers are asked in cascade order; Gemini exactly when configured, Groq exactly
      when keyed and Gemini did not answer, Ollama exactly when neither answered. */
  lemma CascadeAsks(cfg: Config, kind: Kind, o: Outcomes)
    ensures var steps := Steps(cfg, kind, o);
      forall i, j :: 0 <= i < j < |steps| ==> Position(steps[i].provider) < Position(steps[j].provider)
    ensures Asked(Steps(cfg, kind, o), Gemini) <==> cfg.geminiUrl != ""
    ensures Asked(Steps(cfg, kind, o), Groq) <==> cfg.groqApiKey != "" && !GeminiAnswers(cfg, o)
    ensures Asked(Steps(cfg, kind, o), Ollama) <==> !GeminiAnswers(cfg, o) && !GroqAnswers(cfg, o)
  {
    StepsShape(cfg, kind, o);
    var steps := Steps(cfg, kind, o);
    if cfg.geminiUrl != "" {
      assert steps[0].provider == Gemini;
    }
    if cfg.groqApiKey != "" && !GeminiAnswers(cfg, o) {
      assert steps[if cfg.geminiUrl != "" then 1 else 0].provider == Groq;
    }
    if !GeminiAnswers(cfg, o) && !GroqAnswers(cfg, o) {
      assert steps[|steps| - 1].provider == Ollama;
    }
  }

  /** The cascade moves on only past a provider that raised: every provider asked before the
      last one has an error recorded, and at most three are asked. */
  lemma CascadeMovesOnAfterErrors(cfg: Config, kind: Kind, o: Outcomes)
    ensures var steps := Steps(cfg, kind, o);
      1 <= |steps| <= 3 && forall i :: 0 <= i < |steps| - 1 ==> steps[i].attempt.Failed?
  {
    StepsShape(cfg, kind, o);
  }

  /** The recorded errors are exactly the failed providers' messages, in cascade order. */
  lemma {:induction false} ErrorsAreFailures(steps: seq<Step>)
    ensures var errs := ErrorsOf(steps);
      forall e :: e in errs ==> Step(e.provider, Failed(e.message)) in steps
    ensures |ErrorsOf(steps)| <= |steps|
  {
    if steps != [] {
      ErrorsAreFailures(steps[1..]);
    }
  }

  /** Where the reply comes from: the first provider that answers supplies the text and its
      label, and when none does the local fallback is reported as `local:fallback`. */
  lemma CascadeReplySource(cfg: Config, kind: Kind, lang: string, o: Outcomes)
    ensures var r := FinalReply(Steps(cfg, kind, o), lang, kind);
      GeminiAnswers(cfg, o) ==>
        r == Reply(o.gemini.text, "gemini:" + cfg.geminiModel)
    ensures var r := FinalReply(Steps(cfg, kind, o), lang, kind);
      !GeminiAnswers(cfg, o) && GroqAnswers(cfg, o) ==>
        var g := o.groq;
        r == Reply(g.content, "groq:" + g.model)
    ensures var r := FinalReply(Steps(cfg, kind, o), lang, kind);
      !GeminiAnswers(cfg, o) && !GroqAnswers(cfg, o) ==>
        match o.ollama
        case OllamaReturned(Some(text)) => r == Reply(text, "ollama:" + PickOllamaModel(cfg, kind))
        case _ => r == Reply(LocalFallback(lang, kind), LocalModel)
  {
  }

  /** Only Ollama can make the reply empty (an empty content is still a result), and the
      `local:fallback` label always comes with the local answer. */
  lemma CascadeReplyShape(cfg: Config, kind: Kind, lang: string, o: Outcomes)
    requires NonEmptyAnswers(o)
    ensures var r := FinalReply(Steps(cfg, kind, o), lang, kind);
      r.response == "" ==> r.model == "ollama:" + PickOllamaModel(cfg, kind)
    ensures var r := FinalReply(Steps(cfg, kind, o), lang, kind);
      r.model == LocalModel ==> r.response == LocalFallback(lang, kind)
  {
    var steps := Steps(cfg, kind, o);
    var r := FinalReply(steps, lang, kind);
    LocalFallbackMentionsEmergencyNumber(lang, kind);
    if Answers(steps) {
      var a := steps[|steps| - 1].attempt;
      assert a.model[0] != LocalModel[0];
    }
  }

  // ---------------------------------------------------------------------
  // The /chat endpoint

  /** The request body when it is not a form: a JSON object, or text that does not parse. */
  datatype Body =
    | FormBody
    | JsonBody(message: Option<string>, language: Option<string>, assistant: Option<string>)
    | MalformedJson(error: string)

  /** A chat request: the form fields, the texts extracted from the uploaded files, and the body. */
  datatype ChatRequest = ChatRequest(
    message: Option<string>,
    language: Option<string>,
    assistant: Option<string>,
    attachments: seq<string>,
    body: Body)

  datatype Intake =
    | Invalid
    | Rejected
    | Crashed(detail: string)
    | Accepted(message: string, lang: string, kindName: string, attachments: seq<string>)

  /** The form fields are declared with literal types: a non-empty `language` must be "en" or
      "my" and a non-empty `assistant` "emergency" or "mental" (an empty form value counts as
      absent). */
  predicate FormFieldsValid(req: ChatRequest) {
    (!Truthy(req.language) || req.language.value == "en" || req.language.value == "my")
    && (!Truthy(req.assistant) || req.assistant.value == "emergency" || req.assistant.value == "mental")
  }

  /** Reading the request: form values outside their literal types are refused before the
      handler runs; a missing form message falls back to a JSON body, whose values are not
      checked; an empty message is a bad request; the language and assistant get their defaults. */
  function ReadRequest(req: ChatRequest): (r: Intake)
    ensures r.Invalid? <==> !FormFieldsValid(req)
    ensures r.Crashed? <==> FormFieldsValid(req) && req.message.None? && req.body.MalformedJson?
    ensures FormFieldsValid(req) && req.message.None? && req.body.FormBody? ==> r.Rejected?
    ensures FormFieldsValid(req) && req.message.Some? ==> (r.Rejected? <==> req.message.value == "")
    ensures r.Accepted? ==> r.message != ""
    ensures r.Accepted? && req.message.Some? ==>
      r.message == req.message.value && r.attachments == req.attachments
      && r.lang == DetectLanguage(req.language, r.message) && r.kindName == OrElse(req.assistant, "emergency")
      && ParseKind(r.kindName).Some? && (r.lang == "en" || r.lang == "my")
    ensures r.Accepted? && req.message.None? ==>
      req.body.JsonBody? && r.attachments == []
      && r.lang == DetectLanguage(req.body.language, r.message) && r.kindName == OrElse(req.body.assistant, "emergency")
  {
    if !FormFieldsValid(req) then Invalid
    else if req.message.Some? then
      var m := req.message.value;
      if m == "" then Rejected
      else Accepted(m, DetectLanguage(req.language, m), OrElse(req.assistant, "emergency"), req.attachments)
    else
      match req.body
      case FormBody => Rejected
      case MalformedJson(e) => Crashed(e)
      case JsonBody(message, language, assistant) =>
        if !Truthy(message) then Rejected
        else
          var m := message.value;
          Accepted(m, DetectLanguage(language, m), OrElse(Some(OrElse(assistant, "emergency")), "emergency"), [])
  }

  /** One entry of `dataset_refs`. */
  datatype DatasetRef = DatasetRef(id: int, rank: int, score: real, labelText: string)

  function ToRef(r: Retrieved): DatasetRef {
    DatasetRef(r.id, r.rank, r.score, DocLabel(r.doc))
  }

  datatype ChatReply =
    | Unprocessable
    | BadRequest(detail: string)
    | ServerError(response: string, category: string, timestamp: string, model: string, detail: string)
    | Answer(response: string, category: string, timestamp: string, model: string, datasetRefs: Option<seq<DatasetRef>>)

  const MissingMessage := "Bad request: 'message' is required"

  /** What the search index holds and returns for this request's message. */
  datatype SearchState = SearchState(loaded: bool, hits: seq<Hit>, meta: seq<MetaDoc>)

  function CategoryOf(kindName: string): string {
    if kindName == "mental" then "mental" else "general"
  }

  /** The refs of the first five retrieved records. */
  function RefsOf(retrieved: seq<Retrieved>): (refs: seq<DatasetRef>)
    ensures |refs| == if |retrieved| < 5 then |retrieved| else 5
    ensures forall i :: 0 <= i < |refs| ==> refs[i] == ToRef(retrieved[i])
  {
    var top := Take(retrieved, 5);
    seq(|top|, i requires 0 <= i < |top| => ToRef(top[i]))
  }

  /** The records retrieved for a request: the search is run for the mental assistant only. */
  function RetrievedFor(kindName: string, search: SearchState): seq<Retrieved> {
    if kindName == "mental" && search.loaded then FilterHits(search.hits, search.meta) else []
  }

  /** The context block: the budgeted snippets of the retrieved records, "" when none. */
  function ContextFor(retrieved: seq<Retrieved>): string {
    if retrieved == [] then "" else Join(Budgeted(Map(retrieved, SnippetLine), 0, 1500), "\n")
  }

  /** The attachment block: "" without uploads. */
  function FileTextFor(attachments: seq<string>): string {
    if attachments == [] then "" else AttachmentText(attachments)
  }

  /** The answer to an accepted request whose assistant is known: the request built from the
      prompt is sent to the cascade, whose reply is returned with the assistant's category,
      and the first five retrieved records are cited. */
  method Respond(cfg: Config, kind: Kind, kindName: string, lang: string, message: string,
                 ctx: string, fileText: string, retrieved: seq<Retrieved>, net: Network, timestamp: string)
    returns (reply: ChatReply)
    requires ParseKind(kindName) == Some(kind)
    ensures reply.Answer? && reply.category == CategoryOf(kindName) && reply.timestamp == timestamp
    ensures Reply(reply.response, reply.model) ==
      FinalReply(Steps(cfg, kind, OutcomesOf(cfg, net(RequestFor(kind, lang, message, ctx, fileText)))), lang, kind)
    ensures reply.model == LocalModel ==> reply.response == LocalFallback(lang, kind)
    ensures reply.datasetRefs == if retrieved == [] then None else Some(RefsOf(retrieved))
  {
    var msgs := BuildMessages(kind, lang, message, ctx, fileText);
    var temperature := if kind == Mental then 0.5 else 0.7;
    var maxTokens := 512;
    var replies := net(ProviderRequest(msgs, temperature, maxTokens));
    var response, model, _ := RunCascade(cfg, kind, lang, OutcomesOf(cfg, replies));
    ProvidersAnswerNonEmpty(cfg, replies);
    CascadeReplyShape(cfg, kind, lang, OutcomesOf(cfg, replies));
    var refs: Option<seq<DatasetRef>> := None;
    if retrieved != [] {
      refs := Some(RefsOf(retrieved));
    }
    reply := Answer(response, CategoryOf(kindName), timestamp, model, refs);
  }

  /** The reply the cascade gives an accepted request with a known assistant. */
  function CascadeReplyFor(cfg: Config, a: Intake, search: SearchState, net: Network): Reply
    requires a.Accepted? && ParseKind(a.kindName).Some?
  {
    var kind := ParseKind(a.kindName).value;
    var request := RequestFor(kind, a.lang, a.message, ContextFor(RetrievedFor(a.kindName, search)), FileTextFor(a.attachments));
    FinalReply(Steps(cfg, kind, OutcomesOf(cfg, net(request))), a.lang, kind)
  }

  /** The `/chat` endpoint. `timestamp` is the formatted current UTC time. */
  method Chat(cfg: Config, req: ChatRequest, search: SearchState, net: Network, timestamp: string)
    returns (reply: ChatReply)
    ensures reply.Unprocessable? <==> !FormFieldsValid(req)
    ensures reply.BadRequest? <==> ReadRequest(req).Rejected?
    ensures reply.BadRequest? ==> reply.detail == MissingMessage
    ensures reply.ServerError? <==>
      ReadRequest(req).Crashed? || (ReadRequest(req).Accepted? && ParseKind(ReadRequest(req).kindName).None?)
    ensures reply.ServerError? ==>
      reply.response == LocalFallback("en", Emergency) && reply.category == "general" && reply.model == LocalModel
    ensures reply.Answer? ==>
      var a := ReadRequest(req);
      a.Accepted? && ParseKind(a.kindName).Some? && reply.category == CategoryOf(a.kindName)
      && reply.timestamp == timestamp
      && Reply(reply.response, reply.model) == CascadeReplyFor(cfg, a, search, net)
    ensures reply.Answer? ==>
      var retrieved := RetrievedFor(ReadRequest(req).kindName, search);
      reply.datasetRefs == if retrieved == [] then None else Some(RefsOf(retrieved))
  {
    var intake := ReadRequest(req);
    match intake
    case Invalid =>
      return Unprocessable;
    case Rejected =>
      return BadRequest(MissingMessage);
    case Crashed(detail) =>
      return ServerError(LocalFallback("en", Emergency), "general", timestamp, LocalModel, detail);
    case Accepted(message, lang, kindName, attachments) =>
      var retrieved: seq<Retrieved> := [];
      if kindName == "mental" {
        retrieved := Retrieve(search.loaded, search.hits, search.meta);
      }
      var ctx := "";
      if retrieved != [] {
        ctx := MakeContextSnippets(retrieved, 1500);
      }
      var fileText := if attachments != [] then AttachmentText(attachments) else "";
      var kind := ParseKind(kindName);
      if kind.None? {
        return ServerError(LocalFallback("en", Emergency), "general", timestamp, LocalModel, "'" + kindName + "'");
      }
      reply := Respond(cfg, kind.value, kindName, lang, message, ctx, fileText, retrieved, net, timestamp);
  }

  /** Only a JSON body can name an unknown assistant: the form's literal types keep every
      other request away from the 500 answer of a missing prompt. */
  lemma UnknownAssistantOnlyFromJson(req: ChatRequest)
    requires ReadRequest(req).Accepted? && ParseKind(ReadRequest(req).kindName).None?
    ensures req.message.None? && req.body.JsonBody?
    ensures Truthy(req.body.assistant) && req.body.assistant.value != "emergency" && req.body.assistant.value != "mental"
  {
  }
}
