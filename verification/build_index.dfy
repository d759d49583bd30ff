/** The document collection of the offline index builder: JSON items from
    several dataset files are turned into trimmed, non-empty text records by
    three independent extraction rules, and each record is written to the
    metadata file under an id equal to its position. Embedding and the
    vector index itself are not part of this model. */
module BuildIndex {
  import opened Common

  /** A JSON value as the extraction rules use it: rendered by an f-string
      (`str()`) and checked by `or`. `Null` is also what `.get` gives for a
      missing key; `Other` is any other value with its `str()` text and its
      truthiness. */
  datatype Value = Str(s: string) | Null | Other(text: string, truthy: bool)

  /** Python truthiness of a value: a non-empty string, never null. */
  predicate IsTruthy(v: Value) {
    match v
    case Str(s) => s != ""
    case Null => false
    case Other(_, truthy) => truthy
  }

  /** `str(v)` as an f-string inserts it: null prints as "None". */
  function Render(v: Value): string {
    match v
    case Str(s) => s
    case Null => "None"
    case Other(text, _) => text
  }

  /** One element of a dataset array, with the keys the extraction rules read.
      `conversation` is `full_conversation` (None when the key is absent),
      `triples` is `three_turn_sequences` (empty when absent), `q` and `a`
      are None when the key is absent; the other keys are read with `.get`. */
  datatype Item = Item(
    conversation: Option<seq<string>>,
    sessionTopic: Value,
    traumaType: Value,
    subjectId: Value,
    triples: seq<seq<string>>,
    q: Option<Value>,
    a: Option<Value>)

  datatype Meta =
    | TherapySession(topic: Value, sessionId: Value)
    | Triple(sessionId: Value)
    | QA

  datatype Doc = Doc(text: string, source: string, meta: Meta)

  /** What reading one dataset file gave: the file may be missing, hold
      something other than an array, or fail to parse. */
  datatype Load = Missing | NotArray | ParseFailure | Loaded(items: seq<Item>)

  datatype Dataset = Dataset(path: string, load: Load)

  /** A line of meta.jsonl: the document with its id. */
  datatype MetaRecord = MetaRecord(id: nat, doc: Doc)

  datatype BuildOutcome = NothingToIndex | Written(meta: seq<MetaRecord>)

  /** `load_json_array`: the items of a parsed array, and nothing in every other case. */
  function LoadJsonArray(l: Load): (r: seq<Item>)
    ensures l.Loaded? ==> r == l.items
    ensures !l.Loaded? ==> r == []
  {
    if l.Loaded? then l.items else []
  }

  /** The characters after the last '/' of a string. */
  function LastSegment(p: string): string {
    if p == [] || p[|p| - 1] == '/' then []
    else LastSegment(p[..|p| - 1]) + [p[|p| - 1]]
  }

  /** The segment is a suffix with no '/' that is the whole string or follows a '/'. */
  lemma {:induction false} LastSegmentSpec(p: string)
    ensures '/' !in LastSegment(p)
    ensures |LastSegment(p)| <= |p| && LastSegment(p) == p[|p| - |LastSegment(p)|..]
    ensures |LastSegment(p)| < |p| ==> p[|p| - |LastSegment(p)| - 1] == '/'
  {
    if !(p == [] || p[|p| - 1] == '/') {
      var q := p[..|p| - 1];
      var c := p[|p| - 1];
      LastSegmentSpec(q);
      var r := LastSegment(q);
      assert LastSegment(p) == r + [c];
      var k := |q| - |r|;
      assert p[k..] == q[k..] + [c];
      if k > 0 {
        assert p[k - 1] == q[k - 1];
      }
    }
  }

  /** The segment after a separator (or at the start) is the whole of a slash-free tail. */
  lemma {:induction false} LastSegmentAfterSeparator(pre: string, f: string)
    requires pre == [] || pre[|pre| - 1] == '/'
    requires '/' !in f
    ensures LastSegment(pre + f) == f
    decreases |f|
  {
    if f != [] {
      var g := f[..|f| - 1];
      assert f == g + [f[|f| - 1]];
      assert (pre + f)[..|pre + f| - 1] == pre + g;
      LastSegmentAfterSeparator(pre, g);
    }
  }

  /** `PurePosixPath(p).name`: empty and "." components are dropped, so
      trailing '/' and "/." are ignored before the last component is taken. */
  function PathName(p: string): string
    decreases |p|
  {
    if p == [] then []
    else if p[|p| - 1] == '/' || p == "." || (|p| >= 2 && p[|p| - 2..] == "/.") then PathName(p[..|p| - 1])
    else LastSegment(p)
  }

  /** The name has no '/' and is never ".". */
  lemma {:induction false} PathNameSpec(p: string)
    ensures '/' !in PathName(p) && PathName(p) != "."
    decreases |p|
  {
    if p == [] {
    } else if p[|p| - 1] == '/' || p == "." || (|p| >= 2 && p[|p| - 2..] == "/.") {
      PathNameSpec(p[..|p| - 1]);
    } else {
      LastSegmentSpec(p);
      var r := LastSegment(p);
      if |r| == 1 && |r| < |p| {
        assert p[|p| - 2..] == [p[|p| - 2]] + r;
      }
    }
  }

  /** A trailing '/' or "/." does not change the name; the empty path and "." have none. */
  lemma TrailingSeparatorsIgnored(p: string)
    ensures PathName(p + "/") == PathName(p)
    ensures PathName(p + "/.") == PathName(p)
    ensures PathName("") == "" && PathName(".") == ""
  {
    assert (p + "/")[..|p|] == p;
    assert (p + "/.")[..|p| + 1] == p + "/";
    assert (p + "/.")[|p| + 2 - 2..] == "/.";
    assert "."[..0] == "";
  }

  /** The last component is the name, whatever directory precedes it. */
  lemma FileNameAfterDirectory(dir: string, f: string)
    requires f != "" && f != "." && '/' !in f
    ensures PathName(dir + "/" + f) == f
    ensures PathName(f) == f
  {
    var p := dir + "/" + f;
    assert p[|p| - 1] == f[|f| - 1];
    if |f| >= 2 {
      assert p[|p| - 2..] == f[|f| - 2..];
      assert f[|f| - 2] != '/';
      assert f[|f| - 2..] != "/.";
    } else {
      assert p[|p| - 2..] == "/" + f;
    }
    LastSegmentAfterSeparator(dir + "/", f);
    LastSegmentAfterSeparator([], f);
    assert [] + f == f;
  }

  /** A record is clean when its text is non-empty and already trimmed. */
  predicate Clean(d: Doc) {
    d.text != "" && Trim(Python, d.text) == d.text
  }

  /** What `add_doc` appends: the trimmed text, or nothing when that is empty. */
  function Kept(text: string, source: string, meta: Meta): seq<Doc> {
    var t := Trim(Python, text);
    if t == "" then [] else [Doc(t, source, meta)]
  }

  /** `add_doc` keeps exactly the texts with a non-whitespace character, and what it keeps is clean. */
  lemma KeptSpec(text: string, source: string, meta: Meta)
    ensures All(Kept(text, source, meta), Clean)
    ensures |Kept(text, source, meta)| <= 1
    ensures Kept(text, source, meta) == [] <==> forall i :: 0 <= i < |text| ==> IsWhitespace(Python, text[i])
  {
    TrimIdempotent(Python, text);
    TrimEmptyIffBlank(Python, text);
  }

  /** `session_topic or trauma_type or "session"`: the first truthy of the three. */
  function Topic(it: Item): (r: Value)
    ensures IsTruthy(r)
    ensures IsTruthy(it.sessionTopic) ==> r == it.sessionTopic
    ensures !IsTruthy(it.sessionTopic) && IsTruthy(it.traumaType) ==> r == it.traumaType
    ensures !IsTruthy(it.sessionTopic) && !IsTruthy(it.traumaType) ==> r == Str("session")
  {
    if IsTruthy(it.sessionTopic) then it.sessionTopic
    else if IsTruthy(it.traumaType) then it.traumaType
    else Str("session")
  }

  function SessionText(it: Item): string
    requires it.conversation.Some?
  {
    Render(Topic(it)) + "\n" + Join(it.conversation.value, "\n")
  }

  /** The long-conversation rule. */
  function SessionDocs(it: Item, name: string): seq<Doc> {
    if it.conversation.Some? then Kept(SessionText(it), name, TherapySession(Topic(it), it.subjectId))
    else []
  }

  /** The three-turn rule, one candidate record per sequence. */
  function TripleRule(sessionId: Value, name: string): seq<string> -> seq<Doc> {
    t => Kept(Join(t, "\n"), name, Triple(sessionId))
  }

  function TripleDocs(it: Item, name: string): seq<Doc> {
    FlatMap(it.triples, TripleRule(it.subjectId, name))
  }

  function QaText(q: Value, a: Value): string {
    "Q: " + Render(q) + "\nA: " + Render(a)
  }

  /** The question/answer rule. */
  function QaDocs(it: Item, name: string): seq<Doc> {
    if it.q.Some? && it.a.Some? then Kept(QaText(it.q.value, it.a.value), name, QA) else []
  }

  /** Everything one item contributes, in the order the rules run. */
  function ItemDocs(it: Item, name: string): seq<Doc> {
    SessionDocs(it, name) + TripleDocs(it, name) + QaDocs(it, name)
  }

  function ItemRule(name: string): Item -> seq<Doc> {
    it => ItemDocs(it, name)
  }

  /** Everything the items of one file contribute, in file order. */
  function FileDocs(d: Dataset): seq<Doc> {
    FlatMap(LoadJsonArray(d.load), ItemRule(PathName(d.path)))
  }

  /** Everything the dataset files contribute, files in argument order. */
  function AllDocs(ds: seq<Dataset>): seq<Doc> {
    FlatMap(ds, FileDocs)
  }

  // ---------------------------------------------------------------------
  // The builder

  /** The module-level `docs` list and the functions that append to it. */
  class IndexBuilder {
    var docs: seq<Doc>

    ghost predicate Valid()
      reads this
    {
      All(docs, Clean)
    }

    constructor()
      ensures docs == [] && Valid()
    {
      docs := [];
    }

    /** `add_doc`. */
    method AddDoc(text: string, source: string, meta: Meta)
      modifies this
      ensures docs == old(docs) + Kept(text, source, meta)
      ensures old(Valid()) ==> Valid()
    {
      KeptSpec(text, source, meta);
      assert Valid() ==> All(docs + Kept(text, source, meta), Clean) by {
        if Valid() {
          AllAppend(docs, Kept(text, source, meta), Clean);
        }
      }
      var t := Trim(Python, text);
      if t == "" {
        return;
      }
      docs := docs + [Doc(t, source, meta)];
    }

    /** The body of the per-item loop: the three rules in order. */
    method AddItem(it: Item, name: string)
      modifies this
      ensures docs == old(docs) + ItemDocs(it, name)
      ensures old(Valid()) ==> Valid()
    {
      if it.conversation.Some? {
        var convo := Join(it.conversation.value, "\n");
        var topic := if IsTruthy(it.sessionTopic) then it.sessionTopic else if IsTruthy(it.traumaType) then it.traumaType else Str("session");
        AddDoc(Render(topic) + "\n" + convo, name, TherapySession(topic, it.subjectId));
      }
      ghost var afterSession := docs;
      assert afterSession == old(docs) + SessionDocs(it, name);
      var j := 0;
      while j < |it.triples|
        invariant 0 <= j <= |it.triples|
        invariant docs == afterSession + FlatMap(it.triples[..j], TripleRule(it.subjectId, name))
        invariant old(Valid()) ==> Valid()
      {
        FlatMapStep(it.triples, j, TripleRule(it.subjectId, name));
        AppendAssoc(afterSession, FlatMap(it.triples[..j], TripleRule(it.subjectId, name)), TripleRule(it.subjectId, name)(it.triples[j]));
        assert TripleRule(it.subjectId, name)(it.triples[j]) == Kept(Join(it.triples[j], "\n"), name, Triple(it.subjectId));
        AddDoc(Join(it.triples[j], "\n"), name, Triple(it.subjectId));
        j := j + 1;
      }
      assert it.triples[..j] == it.triples;
      ghost var afterTriples := docs;
      if it.q.Some? && it.a.Some? {
        AddDoc("Q: " + Render(it.q.value) + "\nA: " + Render(it.a.value), name, QA);
      }
      AppendRegroup(old(docs), SessionDocs(it, name), TripleDocs(it, name), QaDocs(it, name));
    }

    /** The nested loop over the dataset files and their items. */
    method CollectDocs(ds: seq<Dataset>)
      modifies this
      ensures docs == old(docs) + AllDocs(ds)
      ensures old(Valid()) ==> Valid()
    {
      var i := 0;
      while i < |ds|
        invariant 0 <= i <= |ds|
        invariant docs == old(docs) + AllDocs(ds[..i])
        invariant old(Valid()) ==> Valid()
      {
        var items := LoadJsonArray(ds[i].load);
        var name := PathName(ds[i].path);
        ghost var before := docs;
        var k := 0;
        while k < |items|
          invariant 0 <= k <= |items|
          invariant docs == before + FlatMap(items[..k], ItemRule(name))
          invariant old(Valid()) ==> Valid()
        {
          FlatMapStep(items, k, ItemRule(name));
          AppendAssoc(before, FlatMap(items[..k], ItemRule(name)), ItemRule(name)(items[k]));
          assert ItemRule(name)(items[k]) == ItemDocs(items[k], name);
          AddItem(items[k], name);
          k := k + 1;
        }
        assert items[..k] == items;
        FlatMapStep(ds, i, FileDocs);
        AppendAssoc(old(docs), AllDocs(ds[..i]), FileDocs(ds[i]));
        i := i + 1;
      }
      assert ds[..i] == ds;
    }
  }

  /** The enumerate loop that writes meta.jsonl: line i carries id i and the i-th record. */
  method MetaLines(docs: seq<Doc>) returns (lines: seq<MetaRecord>)
    ensures |lines| == |docs|
    ensures forall i :: 0 <= i < |lines| ==> lines[i].id == i && lines[i].doc == docs[i]
  {
    lines := [];
    var i := 0;
    while i < |docs|
      invariant 0 <= i <= |docs|
      invariant |lines| == i
      invariant forall k :: 0 <= k < i ==> lines[k].id == k && lines[k].doc == docs[k]
    {
      lines := lines + [MetaRecord(i, docs[i])];
      i := i + 1;
    }
  }

  /** The whole build: collect, stop with status 0 when nothing was collected, else write the metadata. */
  method Build(ds: seq<Dataset>) returns (out: BuildOutcome)
    ensures out.NothingToIndex? <==> AllDocs(ds) == []
    ensures out.Written? ==> |out.meta| == |AllDocs(ds)|
    ensures out.Written? ==> forall i :: 0 <= i < |out.meta| ==> out.meta[i] == MetaRecord(i, AllDocs(ds)[i])
  {
    var builder := new IndexBuilder();
    builder.CollectDocs(ds);
    AppendEmpty(AllDocs(ds));
    if builder.docs == [] {
      return NothingToIndex;
    }
    var lines := MetaLines(builder.docs);
    out := Written(lines);
  }

  // ---------------------------------------------------------------------
  // Properties of the extraction rules

  lemma ItemDocsClean(it: Item, name: string)
    ensures All(ItemDocs(it, name), Clean)
  {
    if it.conversation.Some? {
      KeptSpec(SessionText(it), name, TherapySession(Topic(it), it.subjectId));
    }
    if it.q.Some? && it.a.Some? {
      KeptSpec(QaText(it.q.value, it.a.value), name, QA);
    }
    forall j | 0 <= j < |it.triples|
      ensures All(TripleRule(it.subjectId, name)(it.triples[j]), Clean)
    {
      KeptSpec(Join(it.triples[j], "\n"), name, Triple(it.subjectId));
    }
    FlatMapAll(it.triples, TripleRule(it.subjectId, name), Clean);
    AllAppend(SessionDocs(it, name), TripleDocs(it, name), Clean);
    AllAppend(SessionDocs(it, name) + TripleDocs(it, name), QaDocs(it, name), Clean);
  }

  /** Every collected record has non-empty text with no surrounding whitespace. */
  lemma AllDocsClean(ds: seq<Dataset>)
    ensures All(AllDocs(ds), Clean)
  {
    forall i | 0 <= i < |ds|
      ensures All(FileDocs(ds[i]), Clean)
    {
      var items := LoadJsonArray(ds[i].load);
      var name := PathName(ds[i].path);
      forall k | 0 <= k < |items|
        ensures All(ItemRule(name)(items[k]), Clean)
      {
        ItemDocsClean(items[k], name);
      }
      FlatMapAll(items, ItemRule(name), Clean);
    }
    FlatMapAll(ds, FileDocs, Clean);
  }

  /** A file that is missing, is not an array or fails to parse contributes nothing and does not stop the build. */
  lemma UnreadableFileSkipped(ds: seq<Dataset>, i: nat)
    requires i < |ds| && !ds[i].load.Loaded?
    ensures AllDocs(ds) == AllDocs(ds[..i]) + AllDocs(ds[i + 1..])
  {
    FlatMapSplit(ds, i, FileDocs);
    AppendEmptyMiddle(AllDocs(ds[..i]), FileDocs(ds[i]), AllDocs(ds[i + 1..]));
  }

  /** The documents of consecutive files follow each other: files are read in argument order. */
  lemma FilesInOrder(ds: seq<Dataset>, i: nat)
    requires i < |ds|
    ensures AllDocs(ds) == AllDocs(ds[..i]) + FileDocs(ds[i]) + AllDocs(ds[i + 1..])
  {
    FlatMapSplit(ds, i, FileDocs);
  }

  /** The question/answer rule gives exactly one record, the last of the item, and it is never dropped. */
  lemma QaDocLast(it: Item, name: string)
    requires it.q.Some? && it.a.Some?
    ensures var docs := ItemDocs(it, name);
      docs != [] && docs[|docs| - 1] == Doc(Trim(Python, QaText(it.q.value, it.a.value)), name, QA)
  {
    var s := QaText(it.q.value, it.a.value);
    assert s[0] == 'Q';
    TrimKeepsNonBlank(Python, s);
    var d := Doc(Trim(Python, s), name, QA);
    assert QaDocs(it, name) == [d];
    var front := SessionDocs(it, name) + TripleDocs(it, name);
    assert ItemDocs(it, name) == front + [d];
  }

  predicate IsTriple(d: Doc) {
    d.meta.Triple?
  }

  /** The three-turn rule gives at most one record per sequence, each marked as a triple. */
  lemma TripleDocsAreTriples(it: Item, name: string)
    ensures All(TripleDocs(it, name), IsTriple)
  {
    forall j | 0 <= j < |it.triples|
      ensures All(TripleRule(it.subjectId, name)(it.triples[j]), IsTriple)
    {
    }
    FlatMapAll(it.triples, TripleRule(it.subjectId, name), IsTriple);
  }

  /** Without both "q" and "a" an item yields no question/answer record. */
  lemma NoQaWithoutBoth(it: Item, name: string)
    requires it.q.None? || it.a.None?
    ensures forall i :: 0 <= i < |ItemDocs(it, name)| ==> !ItemDocs(it, name)[i].meta.QA?
  {
    TripleDocsAreTriples(it, name);
    var s := SessionDocs(it, name);
    var t := TripleDocs(it, name);
    forall i | 0 <= i < |ItemDocs(it, name)|
      ensures !ItemDocs(it, name)[i].meta.QA?
    {
      if i >= |s| {
        assert ItemDocs(it, name)[i] == t[i - |s|];
      }
    }
  }

  /** An item with a conversation and a topic that is not all whitespace starts with its session record. */
  lemma SessionDocFirst(it: Item, name: string, k: nat)
    requires it.conversation.Some?
    requires k < |Render(Topic(it))| && !IsWhitespace(Python, Render(Topic(it))[k])
    ensures var docs := ItemDocs(it, name);
      docs != [] && docs[0] == Doc(Trim(Python, SessionText(it)), name, TherapySession(Topic(it), it.subjectId))
  {
    var s := SessionText(it);
    assert s[k] == Render(Topic(it))[k];
    TrimEmptyIffBlank(Python, s);
  }

  /** An item without `full_conversation` yields no session record. */
  lemma NoSessionWithoutConversation(it: Item, name: string)
    requires it.conversation.None?
    ensures forall i :: 0 <= i < |ItemDocs(it, name)| ==> !ItemDocs(it, name)[i].meta.TherapySession?
  {
    TripleDocsAreTriples(it, name);
    var t := TripleDocs(it, name);
    var q := QaDocs(it, name);
    assert forall i :: 0 <= i < |q| ==> q[i].meta.QA?;
    AppendEmpty(t);
    assert ItemDocs(it, name) == t + q;
    forall i | 0 <= i < |t + q|
      ensures !(t + q)[i].meta.TherapySession?
    {
      if i < |t| {
        assert (t + q)[i] == t[i];
        assert IsTriple(t[i]);
      } else {
        assert (t + q)[i] == q[i - |t|];
      }
    }
  }

  /** When every three-turn sequence has a non-whitespace character, each yields its own record, in order. */
  lemma {:induction false} TripleDocsExact(triples: seq<seq<string>>, sessionId: Value, name: string)
    requires forall j :: 0 <= j < |triples| ==> Trim(Python, Join(triples[j], "\n")) != ""
    ensures |FlatMap(triples, TripleRule(sessionId, name))| == |triples|
    ensures forall j :: 0 <= j < |triples| ==>
      FlatMap(triples, TripleRule(sessionId, name))[j] == Doc(Trim(Python, Join(triples[j], "\n")), name, Triple(sessionId))
  {
    if triples != [] {
      var n := |triples| - 1;
      var f := TripleRule(sessionId, name);
      TripleDocsExact(triples[..n], sessionId, name);
      var t := Trim(Python, Join(triples[n], "\n"));
      assert f(triples[n]) == [Doc(t, name, Triple(sessionId))];
      forall j | 0 <= j < |triples|
        ensures FlatMap(triples, f)[j] == Doc(Trim(Python, Join(triples[j], "\n")), name, Triple(sessionId))
      {
        if j < n {
          assert triples[..n][j] == triples[j];
        }
      }
    }
  }
}
