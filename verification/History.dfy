/** The message history of a session: how tool calls and their answers pair up, how entries are
    stored, and how a stored session is read back. */
module History {
  import opened Basics
  import opened Json
  import opened Folding

  /** What a user sends: a text, or content blocks. */
  datatype Content = Plain(text: string) | Blocks(blocks: seq<Json>)

  predicate HasNonTextBlocks(c: Content) {
    c.Blocks? && exists i :: 0 <= i < |c.blocks| && !(c.blocks[i].Obj? && StrAt(c.blocks[i].fields, "type") == "text")
  }

  /** One message of the history. The role of an input is whatever the caller gave. */
  datatype Entry =
    | System(prompt: string)
    | Input(role: string, content: Content)
    | Assistant(text: string, images: seq<Image>, calls: seq<Call>)
    | Answer(callId: string, text: string)

  const TOOL_ROLE: string := "tool"

  predicate IsToolMessage(e: Entry) {
    e.Answer? || (e.Input? && e.role == "tool")
  }

  predicate Answers(es: seq<Entry>, calls: seq<Call>) {
    |es| == |calls| && forall i :: 0 <= i < |es| ==> es[i].Answer? && es[i].callId == calls[i].id
  }

  /** Every assistant message is followed by the answers to its calls, in order, and there are no
      other tool messages. */
  predicate WellPaired(h: seq<Entry>) {
    if h == [] then true
    else if h[0].Assistant? then
      var n := 1 + |h[0].calls|;
      n <= |h| && Answers(h[1..n], h[0].calls) && WellPaired(h[n..])
    else !IsToolMessage(h[0]) && WellPaired(h[1..])
  }

  /** Well-paired histories can be cut and joined freely. */
  lemma {:induction false} PairedAppend(a: seq<Entry>, b: seq<Entry>)
    requires WellPaired(a)
    ensures WellPaired(a + b) <==> WellPaired(b)
    decreases |a|
  {
    if a == [] {
      assert a + b == b;
    } else if a[0].Assistant? {
      var n := 1 + |a[0].calls|;
      assert (a + b)[1..n] == a[1..n] && (a + b)[n..] == a[n..] + b;
      PairedAppend(a[n..], b);
    } else {
      assert (a + b)[1..] == a[1..] + b;
      PairedAppend(a[1..], b);
    }
  }

  lemma SingletonPaired(e: Entry)
    ensures WellPaired([e]) <==> !IsToolMessage(e) && (e.Assistant? ==> e.calls == [])
  {
    assert [e][1..] == [];
    if e.Assistant? && e.calls == [] {
      assert [e][1..1] == [];
    }
  }

  /** An accepted input keeps a history well paired exactly when its role is not "tool". */
  lemma InputPaired(h: seq<Entry>, role: string, content: Content)
    requires WellPaired(h)
    ensures WellPaired(h + [Input(role, content)]) <==> role != "tool"
  {
    PairedAppend(h, [Input(role, content)]);
    SingletonPaired(Input(role, content));
  }

  lemma TurnPaired(h: seq<Entry>, text: string, images: seq<Image>, calls: seq<Call>, answers: seq<Entry>)
    requires WellPaired(h) && Answers(answers, calls)
    ensures WellPaired(h + [Assistant(text, images, calls)] + answers)
  {
    var block := [Assistant(text, images, calls)] + answers;
    BlockPaired(text, images, calls, answers);
    PairedAppend(h, block);
    assert h + [Assistant(text, images, calls)] + answers == h + block;
  }

  lemma BlockPaired(text: string, images: seq<Image>, calls: seq<Call>, answers: seq<Entry>)
    requires Answers(answers, calls)
    ensures WellPaired([Assistant(text, images, calls)] + answers)
  {
    var block := [Assistant(text, images, calls)] + answers;
    assert block[1..1 + |calls|] == answers;
    assert block[1 + |calls|..] == [];
  }

  /** The k-th call of the a-th message has its answer in its place. */
  predicate IsAnswered(h: seq<Entry>, a: nat, k: nat) {
    && a + 1 + k < |h| && h[a].Assistant? && k < |h[a].calls|
    && h[a + 1 + k].Answer? && h[a + 1 + k].callId == h[a].calls[k].id
  }

  /** The messages behind the a-th answer its calls, one for one. */
  predicate CallsAnswered(h: seq<Entry>, a: nat)
    requires a < |h| && h[a].Assistant?
  {
    forall k: nat :: k < |h[a].calls| ==> IsAnswered(h, a, k)
  }

  /** The i-th message answers some call before it. */
  ghost predicate AnswersCall(h: seq<Entry>, i: nat) {
    exists a: nat, k: nat :: IsAnswered(h, a, k) && i == a + 1 + k
  }

  /** The pairing said place by place: the answers follow their assistant message one by one with the
      same ids, and each tool message is one of those. */
  lemma {:induction false} PairingPlaceByPlace(h: seq<Entry>, i: nat)
    requires WellPaired(h) && i < |h|
    ensures h[i].Assistant? ==> CallsAnswered(h, i)
    ensures IsToolMessage(h[i]) ==> h[i].Answer? && AnswersCall(h, i)
    decreases |h|, 0
  {
    if h[0].Assistant? {
      var n := 1 + |h[0].calls|;
      forall k: nat | k < |h[0].calls|
        ensures IsAnswered(h, 0, k)
      {
        assert h[1..n][k] == h[1 + k];
      }
      if 0 < i < n {
        assert IsAnswered(h, 0, i - 1);
      } else if i >= n {
        PairingTail(h, n, i);
      }
    } else if i > 0 {
      PairingTail(h, 1, i);
    }
  }

  lemma {:induction false} PairingTail(h: seq<Entry>, n: nat, i: nat)
    requires 0 < n <= i < |h| && WellPaired(h[n..])
    ensures h[i].Assistant? ==> CallsAnswered(h, i)
    ensures IsToolMessage(h[i]) ==> h[i].Answer? && AnswersCall(h, i)
    decreases |h| - n, 1
  {
    var t, j := h[n..], i - n;
    PairingPlaceByPlace(t, j);
    assert t[j] == h[i];
    if h[i].Assistant? {
      forall k: nat | k < |h[i].calls|
        ensures IsAnswered(h, i, k)
      {
        assert IsAnswered(t, j, k);
      }
    }
    if IsToolMessage(h[i]) {
      var a: nat, k: nat :| IsAnswered(t, a, k) && j == a + 1 + k;
      assert IsAnswered(h, n + a, k);
    }
  }

  // ---- how entries are stored ----

  /** A value of a stored message: a list of objects built in memory is a slice of its own type until
      it has been through the file. */
  datatype Value = Plainly(json: Json) | Maps(maps: seq<Fields>)

  type Raw = map<string, Value>

  function RawImage(image: Image): Fields {
    map["type" := Str("image_url"), "image_url" := Obj(map["url" := Str(image.url)]),
        "media_type" := Str(image.mediaType)]
  }

  function RawCall(c: Call): Fields {
    map["id" := Str(c.id), "type" := Str("function"),
        "function" := Obj(map["name" := Str(c.name), "arguments" := Str(c.args)])]
  }

  function RawImages(images: seq<Image>): seq<Fields> {
    if images == [] then [] else RawImages(images[..|images| - 1]) + [RawImage(images[|images| - 1])]
  }

  function RawCalls(calls: seq<Call>): seq<Fields> {
    if calls == [] then [] else RawCalls(calls[..|calls| - 1]) + [RawCall(calls[|calls| - 1])]
  }

  /** encodeHistoryImages. */
  method EncodeHistoryImages(images: seq<Image>) returns (out: seq<Fields>)
    ensures out == RawImages(images)
  {
    out := [];
    var i := 0;
    while i < |images|
      invariant 0 <= i <= |images| && out == RawImages(images[..i])
    {
      assert images[..i + 1][..i] == images[..i];
      out := out + [RawImage(images[i])];
      i := i + 1;
    }
    assert images[..i] == images;
  }

  function RawContent(c: Content): Json {
    match c
    case Plain(text) => Str(text)
    case Blocks(blocks) => List(blocks)
  }

  /** What the runner puts into the history. */
  function Stored(e: Entry): Raw {
    match e
    case System(prompt) => map["role" := Plainly(Str("system")), "content" := Plainly(Str(prompt))]
    case Input(role, content) => map["role" := Plainly(Str(role)), "content" := Plainly(RawContent(content))]
    case Assistant(text, images, calls) =>
      map["role" := Plainly(Str("assistant")), "content" := Plainly(if text == "" then Null else Str(text))]
      + (if images == [] then map[] else map["images" := Maps(RawImages(images))])
      + (if calls == [] then map[] else map["tool_calls" := Maps(RawCalls(calls))])
    case Answer(callId, text) =>
      map["role" := Plainly(Str(TOOL_ROLE)), "tool_call_id" := Plainly(Str(callId)), "content" := Plainly(Str(text))]
  }

  /** What the session file gives back: every list is a plain list. */
  function Reloaded(raw: Raw): Raw {
    map k | k in raw :: match raw[k]
      case Plainly(j) => Plainly(j)
      case Maps(ms) => Plainly(List(seq(|ms|, i requires 0 <= i < |ms| => Obj(ms[i]))))
  }

  // ---- reading back ----

  datatype Block =
    | TextBlock(text: string)
    | ImageBlock(url: string, mediaType: string)
    | ToolUseBlock(id: string, name: string, input: Fields)
    | ToolResultBlock(callId: string, text: string, isError: bool)

  datatype Message =
    | SystemMessage(data: Json)
    | UserMessage(content: Content)
    | AssistantMessage(blocks: seq<Block>)

  /** JSON decoding of argument texts; None when the text is no object. */
  type ArgsDecoder = string -> Option<Fields>

  function JsonOf(raw: Raw, key: string): Json {
    if key in raw && raw[key].Plainly? then raw[key].json else Null
  }

  function StringOf(j: Json): string {
    if j.Str? then j.s else ""
  }

  function ObjectsOf(items: seq<Json>): seq<Fields> {
    if items == [] then []
    else (if items[0].Obj? then [items[0].fields] else []) + ObjectsOf(items[1..])
  }

  /** normalizeToolCalls and normalizeImages: either form of list, anything that is no object left out. */
  method Normalize(raw: Raw, key: string) returns (ms: seq<Fields>)
    ensures ms == MapsOf(raw, key)
  {
    if key !in raw {
      return [];
    }
    match raw[key] {
      case Maps(maps) => return maps;
      case Plainly(List(items)) =>
        ms := [];
        var i := 0;
        assert items[i..] == items;
        while i < |items|
          invariant 0 <= i <= |items|
          invariant ObjectsOf(items) == ms + ObjectsOf(items[i..])
        {
          assert items[i..] == [items[i]] + items[i + 1..];
          assert ObjectsOf(items[i..]) == (if items[i].Obj? then [items[i].fields] else []) + ObjectsOf(items[i + 1..]);
          if items[i].Obj? {
            ms := ms + [items[i].fields];
          }
          i := i + 1;
        }
      case _ => return [];
    }
  }

  function MapsOf(raw: Raw, key: string): seq<Fields> {
    if key !in raw then []
    else
      match raw[key]
      case Maps(maps) => maps
      case Plainly(List(items)) => ObjectsOf(items)
      case _ => []
  }

  function ImageUrl(m: Fields): string {
    if "image_url" in m && m["image_url"].Obj? then StrAt(m["image_url"].fields, "url") else StrAt(m, "url")
  }

  function ParseArguments(fn: Fields, decode: ArgsDecoder): Fields {
    if "arguments" in fn && fn["arguments"].Obj? then fn["arguments"].fields
    else if StrAt(fn, "arguments") == "" then map[]
    else GetOr(decode(StrAt(fn, "arguments")), map[])
  }

  function ReadImage(m: Fields): Block {
    ImageBlock(ImageUrl(m), StrAt(m, "media_type"))
  }

  function ReadCall(m: Fields, decode: ArgsDecoder): Block {
    var fn := if "function" in m && m["function"].Obj? then m["function"].fields else map[];
    ToolUseBlock(StrAt(m, "id"), StrAt(fn, "name"), ParseArguments(fn, decode))
  }

  function ReadContent(j: Json): Content {
    match j
    case Str(text) => Plain(text)
    case List(blocks) => Blocks(blocks)
    case _ => Plain("")
  }

  function ReadImages(ms: seq<Fields>): seq<Block> {
    if ms == [] then [] else ReadImages(ms[..|ms| - 1]) + [ReadImage(ms[|ms| - 1])]
  }

  function ReadCalls(ms: seq<Fields>, decode: ArgsDecoder): seq<Block> {
    if ms == [] then [] else ReadCalls(ms[..|ms| - 1], decode) + [ReadCall(ms[|ms| - 1], decode)]
  }

  function ReadText(text: string): seq<Block> {
    if text == "" then [] else [TextBlock(text)]
  }

  function ReadAssistant(raw: Raw, decode: ArgsDecoder): seq<Block> {
    ReadText(StringOf(JsonOf(raw, "content"))) + ReadImages(MapsOf(raw, "images")) +
      ReadCalls(MapsOf(raw, "tool_calls"), decode)
  }

  method AppendImages(blocks: seq<Block>, images: seq<Fields>) returns (out: seq<Block>)
    ensures out == blocks + ReadImages(images)
  {
    out := blocks;
    assert out == blocks + [];
    var i := 0;
    while i < |images|
      invariant 0 <= i <= |images| && out == blocks + ReadImages(images[..i])
    {
      assert images[..i + 1][..i] == images[..i];
      out := out + [ReadImage(images[i])];
      i := i + 1;
    }
    assert images[..i] == images;
  }

  method AppendCalls(blocks: seq<Block>, calls: seq<Fields>, decode: ArgsDecoder) returns (out: seq<Block>)
    ensures out == blocks + ReadCalls(calls, decode)
  {
    out := blocks;
    assert out == blocks + [];
    var i := 0;
    while i < |calls|
      invariant 0 <= i <= |calls| && out == blocks + ReadCalls(calls[..i], decode)
    {
      assert calls[..i + 1][..i] == calls[..i];
      out := out + [ReadCall(calls[i], decode)];
      i := i + 1;
    }
    assert calls[..i] == calls;
  }

  /** persistedSessionMessage. Unknown roles are skipped. */
  method PersistedSessionMessage(raw: Raw, decode: ArgsDecoder) returns (m: Option<Message>)
    ensures m == ReadMessage(raw, decode)
  {
    var role := StringOf(JsonOf(raw, "role"));
    if role == "system" {
      return Some(SystemMessage(JsonOf(raw, "content")));
    } else if role == "user" {
      return Some(UserMessage(ReadContent(JsonOf(raw, "content"))));
    } else if role == "assistant" {
      var text := StringOf(JsonOf(raw, "content"));
      var blocks := if text == "" then [] else [TextBlock(text)];
      var images := Normalize(raw, "images");
      blocks := AppendImages(blocks, images);
      var calls := Normalize(raw, "tool_calls");
      blocks := AppendCalls(blocks, calls, decode);
      if |blocks| > 0 {
        return Some(AssistantMessage(blocks));
      }
      return Some(AssistantMessage([TextBlock(text)]));
    } else if role == TOOL_ROLE {
      var callId, text := StringOf(JsonOf(raw, "tool_call_id")), StringOf(JsonOf(raw, "content"));
      return Some(AssistantMessage([ToolResultBlock(callId, text, false)]));
    }
    return None;
  }

  function ReadMessage(raw: Raw, decode: ArgsDecoder): Option<Message> {
    var role := StringOf(JsonOf(raw, "role"));
    if role == "system" then Some(SystemMessage(JsonOf(raw, "content")))
    else if role == "user" then Some(UserMessage(ReadContent(JsonOf(raw, "content"))))
    else if role == "assistant" then
      var blocks := ReadAssistant(raw, decode);
      Some(AssistantMessage(if blocks == [] then [TextBlock(StringOf(JsonOf(raw, "content")))] else blocks))
    else if role == TOOL_ROLE then
      var callId, text := StringOf(JsonOf(raw, "tool_call_id")), StringOf(JsonOf(raw, "content"));
      Some(AssistantMessage([ToolResultBlock(callId, text, false)]))
    else None
  }

  // ---- nothing is lost on the way ----

  function CallInput(c: Call, decode: ArgsDecoder): Fields {
    if c.args == "" then map[] else GetOr(decode(c.args), map[])
  }

  function ImageBlocks(images: seq<Image>): seq<Block> {
    if images == [] then []
    else ImageBlocks(images[..|images| - 1]) + [ImageBlock(images[|images| - 1].url, images[|images| - 1].mediaType)]
  }

  function UseBlocks(calls: seq<Call>, decode: ArgsDecoder): seq<Block> {
    if calls == [] then []
    else
      var c := calls[|calls| - 1];
      UseBlocks(calls[..|calls| - 1], decode) + [ToolUseBlock(c.id, c.name, CallInput(c, decode))]
  }

  /** The blocks an assistant entry stands for. */
  function AssistantBlocks(text: string, images: seq<Image>, calls: seq<Call>, decode: ArgsDecoder): seq<Block> {
    (if text == "" then [] else [TextBlock(text)]) + ImageBlocks(images) + UseBlocks(calls, decode)
  }

  /** What reading an entry back yields. Inputs keep their content under the role "user" only. */
  function Meaning(e: Entry, decode: ArgsDecoder): Option<Message> {
    match e
    case System(prompt) => Some(SystemMessage(Str(prompt)))
    case Input(role, content) =>
      if role == "user" then Some(UserMessage(content))
      else if role == "system" then Some(SystemMessage(RawContent(content)))
      else if role == "assistant" then Some(AssistantMessage([TextBlock(if content.Plain? then content.text else "")]))
      else if role == "tool" then
        Some(AssistantMessage([ToolResultBlock("", if content.Plain? then content.text else "", false)]))
      else None
    case Assistant(text, images, calls) =>
      var blocks := AssistantBlocks(text, images, calls, decode);
      Some(AssistantMessage(if blocks == [] then [TextBlock("")] else blocks))
    case Answer(callId, text) => Some(AssistantMessage([ToolResultBlock(callId, text, false)]))
  }

  lemma {:induction false} ObjectsBack(ms: seq<Fields>)
    ensures ObjectsOf(seq(|ms|, i requires 0 <= i < |ms| => Obj(ms[i]))) == ms
  {
    var items := seq(|ms|, i requires 0 <= i < |ms| => Obj(ms[i]));
    if ms != [] {
      var rest := ms[1..];
      assert items[1..] == seq(|rest|, i requires 0 <= i < |rest| => Obj(rest[i]));
      ObjectsBack(rest);
      assert ms == [ms[0]] + rest;
    }
  }

  lemma MapsSurvive(raw: Raw, key: string)
    requires key in raw ==> raw[key].Maps?
    ensures MapsOf(Reloaded(raw), key) == MapsOf(raw, key)
  {
    if key in raw {
      ObjectsBack(raw[key].maps);
    }
  }

  lemma {:induction false} ImagesBack(images: seq<Image>)
    ensures ReadImages(RawImages(images)) == ImageBlocks(images)
  {
    if images != [] {
      var n := |images| - 1;
      ImagesBack(images[..n]);
      var ms := RawImages(images[..n]);
      assert (ms + [RawImage(images[n])])[..|ms|] == ms;
    }
  }

  lemma {:induction false} CallsBack(calls: seq<Call>, decode: ArgsDecoder)
    ensures ReadCalls(RawCalls(calls), decode) == UseBlocks(calls, decode)
  {
    if calls != [] {
      var n := |calls| - 1;
      CallsBack(calls[..n], decode);
      var ms := RawCalls(calls[..n]);
      assert (ms + [RawCall(calls[n])])[..|ms|] == ms;
      var m := RawCall(calls[n]);
      assert StrAt(m["function"].fields, "arguments") == calls[n].args &&
        StrAt(m["function"].fields, "name") == calls[n].name;
      assert ReadCall(m, decode) == ToolUseBlock(calls[n].id, calls[n].name, CallInput(calls[n], decode));
    }
  }

  lemma StoredAssistant(text: string, images: seq<Image>, calls: seq<Call>)
    ensures var raw := Stored(Assistant(text, images, calls));
      && JsonOf(raw, "role") == Str("assistant") && StringOf(JsonOf(raw, "content")) == text
      && MapsOf(raw, "images") == RawImages(images) && MapsOf(raw, "tool_calls") == RawCalls(calls)
      && ("images" in raw ==> raw["images"].Maps?) && ("tool_calls" in raw ==> raw["tool_calls"].Maps?)
  {
  }

  lemma AssistantReadBack(text: string, images: seq<Image>, calls: seq<Call>, decode: ArgsDecoder)
    ensures ReadMessage(Stored(Assistant(text, images, calls)), decode) ==
        Meaning(Assistant(text, images, calls), decode)
  {
    StoredAssistant(text, images, calls);
    ImagesBack(images);
    CallsBack(calls, decode);
    var blocks := AssistantBlocks(text, images, calls, decode);
    assert ReadAssistant(Stored(Assistant(text, images, calls)), decode) == blocks;
    assert blocks == [] ==> |ReadText(text)| == 0;
  }

  lemma InputReadBack(role: string, content: Content, decode: ArgsDecoder)
    ensures ReadMessage(Stored(Input(role, content)), decode) == Meaning(Input(role, content), decode)
  {
    var raw := Stored(Input(role, content));
    assert MapsOf(raw, "images") == [] && MapsOf(raw, "tool_calls") == [];
    assert ReadAssistant(raw, decode) == ReadText(StringOf(JsonOf(raw, "content")));
    assert JsonOf(raw, "role") == Str(role);
  }

  /** Going through the session file changes nothing about how a message reads. */
  lemma ReloadReadsTheSame(raw: Raw, decode: ArgsDecoder)
    requires forall k :: k in raw && raw[k].Maps? ==> k == "images" || k == "tool_calls"
    requires "images" in raw ==> raw["images"].Maps?
    requires "tool_calls" in raw ==> raw["tool_calls"].Maps?
    ensures ReadMessage(Reloaded(raw), decode) == ReadMessage(raw, decode)
  {
    var back := Reloaded(raw);
    MapsSurvive(raw, "images");
    MapsSurvive(raw, "tool_calls");
    assert JsonOf(back, "role") == JsonOf(raw, "role");
    assert JsonOf(back, "content") == JsonOf(raw, "content");
    assert JsonOf(back, "tool_call_id") == JsonOf(raw, "tool_call_id");
  }

  /** Reading a stored entry back, from memory or after a trip through the session file, recovers its
      text, its images with URL and media type, its calls with id, name and decoded arguments, and its
      answers with id and text, all in order. Only whether an answer was an error is not kept. */
  lemma ReadBack(e: Entry, decode: ArgsDecoder)
    ensures ReadMessage(Stored(e), decode) == Meaning(e, decode)
    ensures ReadMessage(Reloaded(Stored(e)), decode) == Meaning(e, decode)
  {
    StoredShape(e);
    ReloadReadsTheSame(Stored(e), decode);
    match e {
      case Assistant(text, images, calls) =>
        AssistantReadBack(text, images, calls, decode);
      case Input(role, content) =>
        InputReadBack(role, content, decode);
      case System(prompt) =>
        assert JsonOf(Stored(e), "role") == Str("system");
      case Answer(callId, text) =>
        assert JsonOf(Stored(e), "role") == Str(TOOL_ROLE);
    }
  }

  /** The form in which entries are stored, and sent to the model: that of the chat interface. */
  lemma StoredAsSent(e: Entry, i: nat)
    ensures e.Answer? ==> Stored(e) == map["role" := Plainly(Str("tool")), "tool_call_id" := Plainly(Str(e.callId)),
                                           "content" := Plainly(Str(e.text))]
    ensures e.Assistant? ==>
      && JsonOf(Stored(e), "role") == Str("assistant")
      && JsonOf(Stored(e), "content") == (if e.text == "" then Null else Str(e.text))
      && ("images" in Stored(e) <==> e.images != []) && ("tool_calls" in Stored(e) <==> e.calls != [])
    ensures e.Assistant? && i < |e.images| ==>
      var sent := MapsOf(Stored(e), "images"); var image := e.images[i];
      && |sent| == |e.images|
      && sent[i] == map["type" := Str("image_url"), "image_url" := Obj(map["url" := Str(image.url)]),
                        "media_type" := Str(image.mediaType)]
    ensures e.Assistant? && i < |e.calls| ==>
      var sent := MapsOf(Stored(e), "tool_calls"); var call := e.calls[i];
      && |sent| == |e.calls|
      && sent[i] == map["id" := Str(call.id), "type" := Str("function"),
                        "function" := Obj(map["name" := Str(call.name), "arguments" := Str(call.args)])]
  {
    if e.Assistant? {
      StoredAssistant(e.text, e.images, e.calls);
      RawImagesAt(e.images, i);
      RawCallsAt(e.calls, i);
    }
  }

  lemma {:induction false} RawImagesAt(images: seq<Image>, i: nat)
    ensures |RawImages(images)| == |images|
    ensures i < |images| ==> RawImages(images)[i] == RawImage(images[i])
  {
    if images != [] {
      RawImagesAt(images[..|images| - 1], i);
    }
  }

  lemma {:induction false} RawCallsAt(calls: seq<Call>, i: nat)
    ensures |RawCalls(calls)| == |calls|
    ensures i < |calls| ==> RawCalls(calls)[i] == RawCall(calls[i])
  {
    if calls != [] {
      RawCallsAt(calls[..|calls| - 1], i);
    }
  }

  /** Only the lists of images and calls are built as lists of objects. */
  lemma StoredShape(e: Entry)
    ensures var raw := Stored(e);
      && (forall k :: k in raw && raw[k].Maps? ==> k == "images" || k == "tool_calls")
      && ("images" in raw ==> raw["images"].Maps?) && ("tool_calls" in raw ==> raw["tool_calls"].Maps?)
  {
    if e.Assistant? {
      StoredAssistant(e.text, e.images, e.calls);
    }
  }
}
