/** The floating assistant window: the canned answer picked by keyword, the
    message list the send button appends to, and the badge colour of a category. */
module AiChat {
  import opened Common
  import LanguageProvider

  type Lang = LanguageProvider.Lang

  // ---------------------------------------------------------------------
  // generateResponse

  /** The canned answers, and the default when no keyword matches. */
  datatype Topic = Earthquake | Shelter | FirstAid | Contacts | Kit | NoTopic

  /** The place of a topic in the order the keywords are tried. */
  function Rank(t: Topic): nat {
    match t
    case Earthquake => 0
    case Shelter => 1
    case FirstAid => 2
    case Contacts => 3
    case Kit => 4
    case NoTopic => 5
  }

  /** The English and Burmese keywords that select a topic. */
  function Keywords(t: Topic): seq<string> {
    match t
    case Earthquake => ["earthquake", "ငလျင်"]
    case Shelter => ["shelter", "ခိုလှုံရာ"]
    case FirstAid => ["first aid", "ပထမအကူအညီ"]
    case Contacts => ["emergency", "phone", "အရေးပေါ်"]
    case Kit => ["kit", "supplies", "အသုံးအဆောင်"]
    case NoTopic => []
  }

  /** Some keyword of the list occurs in the text. */
  function ContainsAny(text: string, keys: seq<string>): (r: bool)
    ensures r <==> exists i :: 0 <= i < |keys| && Contains(text, keys[i])
  {
    if keys == [] then false
    else (
      Contains(text, keys[0]) || (
        assert forall i :: 1 <= i < |keys| ==> keys[i] == keys[1..][i - 1];
        ContainsAny(text, keys[1..])))
  }

  predicate Mentions(text: string, t: Topic) {
    ContainsAny(text, Keywords(t))
  }

  /** The topic of a message: the first topic, in rank order, one of whose keywords occurs
      in the message lower-cased; no topic when none does. */
  function Classify(message: string): (t: Topic)
    ensures t != NoTopic ==> Mentions(Lower(message), t)
    ensures forall u :: Rank(u) < Rank(t) ==> !Mentions(Lower(message), u)
  {
    var lower := Lower(message);
    if ContainsAny(lower, Keywords(Earthquake)) then Earthquake
    else if ContainsAny(lower, Keywords(Shelter)) then Shelter
    else if ContainsAny(lower, Keywords(FirstAid)) then FirstAid
    else if ContainsAny(lower, Keywords(Contacts)) then Contacts
    else if ContainsAny(lower, Keywords(Kit)) then Kit
    else NoTopic
  }

  const EarthquakeText :=
      "During an earthquake: 1) Drop "
      + "to hands and knees "
      + "immediately, 2) Take cover "
      + "under a sturdy desk or table, "
      + "3) Hold on until shaking "
      + "stops. Stay away from windows, "
      + "heavy objects, and exterior "
      + "walls. If outdoors, move away "
      + "from buildings, trees, and "
      + "power lines."
  const ShelterText :=
      "The nearest emergency shelters "
      + "are typically located at "
      + "schools, community centers, "
      + "and government buildings. "
      + "Check the map on our main page "
      + "for real-time shelter "
      + "locations near you. Shelters "
      + "provide food, water, medical "
      + "aid, and temporary "
      + "accommodation."
  const FirstAidText :=
      "Basic first aid steps: 1) "
      + "Check the scene for safety, 2) "
      + "Check for consciousness and "
      + "breathing, 3) Call emergency "
      + "services if needed, 4) Control "
      + "bleeding with direct pressure, "
      + "5) Keep the person warm and "
      + "comfortable, 6) Monitor their "
      + "condition until help arrives."
  const ContactsText :=
      "Emergency numbers in Myanmar: "
      + "Fire - 199, Police - 199, "
      + "Ambulance - 199. For "
      + "earthquake-specific "
      + "emergencies, also contact the "
      + "Disaster Management Department "
      + "at 067-409-888. Save these "
      + "numbers in your phone."
  const KitText :=
      "Emergency kit essentials: "
      + "Water (1 gallon/person/day for "
      + "3 days), Non-perishable food "
      + "(3-day supply), Flashlight and "
      + "batteries, First aid kit, "
      + "Medications, Whistle, Dust "
      + "masks, Manual can opener, "
      + "Local maps, Cell phone with "
      + "chargers, Important documents, "
      + "Cash, Emergency blanket."
  const DefaultTextEn :=
      "I understand you need help "
      + "with emergency preparedness. "
      + "For specific assistance, you "
      + "can ask about earthquake "
      + "safety, finding shelters, "
      + "first aid, emergency contacts, "
      + "or emergency kits. If this is "
      + "a real emergency, please call "
      + "199 immediately."
  const DefaultTextMy :=
      "အရေးပေါ်ပြင်ဆင်မှုအတွက် "
      + "ကူညီမှုလိုအပ်ကြောင်း "
      + "ကျွန်ုပ်နားလည်ပါသည်။ "
      + "သီးခြားအကူအညီများအတွက် "
      + "ငလျင်လုံခြုံရေး၊ "
      + "ခိုလှုံရာရှာဖွေခြင်း၊ "
      + "ပထမအကူအညီ၊ အရေးပေါ်ဆက်သွယ်ရန် "
      + "ဖုန်းနံပါတ်များ သို့မဟုတ် "
      + "အရေးပေါ်အသုံးအဆောင်ပစ္စည်းများအကြောင်း "
      + "မေးနိုင်ပါသည်။ အကယ်၍ ဤသည် "
      + "အရေးပေါ်အခြေအနေဖြစ်ပါက "
      + "ချက်ချင်း 199 ကိုခေါ်ပါ။"

  /** `generateResponse`: the topic's canned answer, which is English in either language,
      or the default text in the current language. */
  function GenerateResponse(message: string, language: Lang): (r: string)
    ensures r != ""
    ensures Classify(message) == NoTopic ==> (r == DefaultTextEn <==> language == LanguageProvider.En)
    ensures Classify(message) == NoTopic && language == LanguageProvider.My ==> r == DefaultTextMy
    ensures Mentions(Lower(message), Earthquake) ==> r == EarthquakeText
    ensures Classify(message) == Shelter ==> r == ShelterText
    ensures Classify(message) == FirstAid ==> r == FirstAidText
    ensures Classify(message) == Contacts ==> r == ContactsText
    ensures Classify(message) == Kit ==> r == KitText
  {
    match Classify(message)
    case Earthquake => EarthquakeText
    case Shelter => ShelterText
    case FirstAid => FirstAidText
    case Contacts => ContactsText
    case Kit => KitText
    case NoTopic => if language == LanguageProvider.En then DefaultTextEn else DefaultTextMy
  }

  /** The language changes the answer only when no keyword occurs. */
  lemma LanguageOnlyForDefault(message: string)
    ensures GenerateResponse(message, LanguageProvider.En) != GenerateResponse(message, LanguageProvider.My) ==>
      forall t :: !Mentions(Lower(message), t)
  {
    if Classify(message) != NoTopic {
      assert GenerateResponse(message, LanguageProvider.En) == GenerateResponse(message, LanguageProvider.My);
    }
  }

  // ---------------------------------------------------------------------
  // The message list

  datatype Role = User | Assistant

  datatype Message = Message(id: string, role: Role, content: string, category: Option<string>)

  const GreetingEn :=
      "Hello! I'm your AI assistant "
      + "for earthquake safety and "
      + "emergency response. How can I "
      + "help you today?"
  const GreetingMy :=
      "မင်္ဂလာပါ! ကျွန်ုပ်သည် "
      + "ငလျင်လုံခြုံရေးနှင့် "
      + "အရေးပေါ်တုန်းဆိုင်းမှု AI "
      + "လက်ထောက်ဖြစ်ပါသည်။ ကျွန်ုပ်ကို "
      + "ဘယ်လိုကူညီနိုင်ပါသလဲ?"

  function Greeting(language: Lang): string {
    if language == LanguageProvider.En then GreetingEn else GreetingMy
  }

  /** The message a send appends: its id is the clock reading in decimal. */
  function UserMessage(now: nat, text: string): Message {
    Message(IntToString(now), User, text, None)
  }

  /** The delayed answer: its id is one past the clock reading at answer time. */
  function AssistantMessage(now: nat, question: string, language: Lang): Message {
    Message(IntToString(now + 1), Assistant, GenerateResponse(question, language), Some("general"))
  }

  /** Nothing but whitespace, in the sense of `String.prototype.trim`. */
  predicate Blank(text: string) {
    forall i :: 0 <= i < |text| ==> IsWhitespace(JavaScript, text[i])
  }

  /** The open chat window's state. */
  class ChatWindow {
    var messages: seq<Message>
    var input: string
    var typing: bool
    var language: Lang

    /** A new window holds the greeting in the current language. */
    constructor (language: Lang)
      ensures messages == [Message("1", Assistant, Greeting(language), Some("general"))]
      ensures input == "" && !typing && this.language == language
    {
      messages := [Message("1", Assistant, Greeting(language), Some("general"))];
      input := "";
      typing := false;
      this.language := language;
    }

    /** Typing into the box replaces its text. */
    method Edit(text: string)
      modifies this
      ensures input == text
      ensures messages == old(messages) && typing == old(typing) && language == old(language)
    {
      input := text;
    }

    /** `handleSendMessage`: a blank box changes nothing; otherwise the text is appended as
        one user message, the box is cleared and the typing indicator shown. Returns the
        question the delayed answer will answer. */
    method Send(now: nat) returns (question: Option<string>)
      modifies this
      ensures question.None? <==> Blank(old(input))
      ensures question.None? ==> input == old(input) && messages == old(messages) && typing == old(typing)
      ensures question.Some? ==> question.value == old(input) && input == "" && typing
      ensures question.Some? ==> messages == old(messages) + [UserMessage(now, old(input))]
      ensures language == old(language)
    {
      TrimEmptyIffBlank(JavaScript, input);
      if Trim(JavaScript, input) == "" {
        question := None;
        return;
      }
      question := Some(input);
      messages := messages + [UserMessage(now, input)];
      input := "";
      typing := true;
    }

    /** The answer 1.5 seconds after a send: one assistant message answering the question
        that was sent, and the typing indicator hidden. */
    method Answer(question: string, now: nat)
      modifies this
      ensures messages == old(messages) + [AssistantMessage(now, question, old(language))]
      ensures !typing && input == old(input) && language == old(language)
    {
      messages := messages + [AssistantMessage(now, question, language)];
      typing := false;
    }

    /** `handleQuickAction`: the prompt is put in the box, but the send in the same handler
        still reads the box as it was, so the prompt itself is never sent by this click. */
    method QuickAction(prompt: string, now: nat) returns (question: Option<string>)
      modifies this
      ensures question.None? <==> Blank(old(input))
      ensures question.Some? ==> question.value == old(input)
      ensures question.None? ==> input == prompt && messages == old(messages) && typing == old(typing)
      ensures question.Some? ==> input == "" && typing && messages == old(messages) + [UserMessage(now, old(input))]
      ensures language == old(language)
    {
      var shown := input;
      input := prompt;
      TrimEmptyIffBlank(JavaScript, shown);
      if Trim(JavaScript, shown) == "" {
        question := None;
        return;
      }
      question := Some(shown);
      messages := messages + [UserMessage(now, shown)];
      input := "";
      typing := true;
    }
  }

  /** A send followed by its answer adds exactly two messages: the question, then its answer. */
  method SendThenAnswer(w: ChatWindow, sentAt: nat, answeredAt: nat) returns (question: Option<string>)
    modifies w
    ensures question.None? ==> w.messages == old(w.messages)
    ensures question.Some? ==>
      w.messages == old(w.messages) + [UserMessage(sentAt, old(w.input)), AssistantMessage(answeredAt, old(w.input), old(w.language))]
    ensures !Blank(old(w.input)) ==> |w.messages| == |old(w.messages)| + 2 && w.input == "" && !w.typing
  {
    question := w.Send(sentAt);
    if question.Some? {
      w.Answer(question.value, answeredAt);
    }
  }

  // ---------------------------------------------------------------------
  // getCategoryColor

  const GrayBadge := "bg-gray-100 text-gray-800"

  /** The badge classes of a category; gray for any other or no category. */
  function CategoryColor(category: Option<string>): (r: string)
    ensures r == GrayBadge <==> !(category.Some? && category.value in {"safety", "emergency", "location", "medical"})
  {
    if category == Some("safety") then "bg-blue-100 text-blue-800"
    else if category == Some("emergency") then "bg-red-100 text-red-800"
    else if category == Some("location") then "bg-green-100 text-green-800"
    else if category == Some("medical") then "bg-purple-100 text-purple-800"
    else GrayBadge
  }
}
