/** The events of the Responses interface and the forms an image comes in, written out as they are sent, and
    what each of them is read as. */
module ResponsesEvents {
  import opened Basics
  import opened Json
  import opened Folding
  import opened EventMapper

  /** What is sent. Parts and items come twice, when they are added and when they are done. */
  datatype Sent =
    | TextPiece(text: string)
    | RefusalPiece(text: string)
    | WholeText(text: string)
    | WholeRefusal(text: string)
    | Part(done: bool, piece: Piece)
    | ArgsPiece(index: int, callId: string, name: string, args: string)
    | WholeArgs(index: int, callId: string, name: string, whole: Json)
    | CallItem(done: bool, index: int, callId: string, id: string, name: string, whole: Json)
    | MessageItem(done: bool, pieces: seq<Piece>)
    | Completed
    | Incomplete
    | Failing(kind: string)
    | Unread(kind: string)

  function Typed(kind: string): Fields {
    map["type" := Str(kind)]
  }

  /** As it goes over the wire. */
  function Encoded(x: Sent): Fields {
    match x
    case TextPiece(text) => Typed("response.output_text.delta")["delta" := Str(text)]
    case RefusalPiece(text) => Typed("response.refusal.delta")["delta" := Str(text)]
    case WholeText(text) => Typed("response.output_text.done")["text" := Str(text)]
    case WholeRefusal(text) => Typed("response.refusal.done")["refusal" := Str(text)]
    case Part(done, piece) =>
      Typed(if done then "response.content_part.done" else "response.content_part.added")["part" := PartOf(piece)]
    case ArgsPiece(index, callId, name, args) =>
      Typed("response.function_call_arguments.delta")["output_index" := Num(index as real)]["call_id" := Str(callId)]
        ["name" := Str(name)]["delta" := Str(args)]
    case WholeArgs(index, callId, name, args) =>
      Typed("response.function_call_arguments.done")["output_index" := Num(index as real)]["call_id" := Str(callId)]
        ["name" := Str(name)]["arguments" := args]
    case CallItem(done, index, callId, id, name, args) =>
      Typed(if done then "response.output_item.done" else "response.output_item.added")
        ["output_index" := Num(index as real)]["item" := CallOf(callId, id, name, args)]
    case MessageItem(done, pieces) =>
      Typed(if done then "response.output_item.done" else "response.output_item.added")["item" := MessageOf(pieces)]
    case Completed => Typed("response.completed")
    case Incomplete => Typed("response.incomplete")
    case Failing(kind) => Typed(kind)
    case Unread(kind) => Typed(kind)
  }

  function CallOf(callId: string, id: string, name: string, args: Json): Json {
    Obj(map["type" := Str("function_call"), "call_id" := Str(callId), "id" := Str(id), "name" := Str(name),
            "arguments" := args])
  }

  function MessageOf(pieces: seq<Piece>): Json {
    Obj(map["type" := Str("message"), "content" := List(PartsOf(pieces))])
  }

  function Saying(text: string): seq<Chunk> {
    [Chunk(text, [], [], "")]
  }

  function SayingIfAny(text: string): seq<Chunk> {
    if text == "" then [] else Saying(text)
  }

  function Calling(index: int, id: string, name: string, args: string): seq<Chunk> {
    [Chunk("", [], [ToolDelta(index, id, name, args)], "")]
  }

  /** The kinds that are read, the ways to fail among them. */
  const READ_KINDS: set<string> :=
    {"response.output_text.delta", "response.refusal.delta", "response.output_text.done", "response.refusal.done",
     "response.content_part.added", "response.content_part.done", "response.function_call_arguments.delta",
     "response.function_call_arguments.done", "response.output_item.added", "response.output_item.done",
     "response.completed", "response.incomplete", "response.image_generation_call.partial_image",
     "response.image_generation_call.completed", "error", "response.error", "response.failed"}

  predicate Proper(x: Sent) {
    && (x.Failing? ==> x.kind == "error" || x.kind == "response.error" || x.kind == "response.failed")
    && (x.Unread? ==> x.kind !in READ_KINDS)
    && (x.CallItem? ==> Recognised(x.whole) == {})
  }

  /** Whole arguments are a text, or a value that is encoded as one; none at all are an empty text. */
  function ArgsMeant(args: Json, encode: Encoder): string {
    match args
    case Str(text) => text
    case Null => ""
    case _ => encode(args)
  }

  /** What it means. A call item, which must not hold what looks like an image, goes by its call_id, and by its id
      where that is empty. */
  function Meaning(x: Sent, encode: Encoder): Result<seq<Chunk>, MapError> {
    match x
    case TextPiece(text) => Ok(Saying(text))
    case RefusalPiece(text) => Ok(Saying(text))
    case WholeText(text) => Ok(SayingIfAny(text))
    case WholeRefusal(text) => Ok(SayingIfAny(text))
    case Part(_, piece) => Ok(SayingIfAny(piece.text))
    case ArgsPiece(index, callId, name, args) => Ok(Calling(index, callId, name, args))
    case WholeArgs(index, callId, name, args) => Ok(Calling(index, callId, name, ArgsMeant(args, encode)))
    case CallItem(_, index, callId, id, name, args) =>
      Ok(Calling(index, if callId != "" then callId else id, name, ArgsMeant(args, encode)))
    case MessageItem(_, pieces) => Ok(SayingIfAny(Concat(Texts(pieces))))
    case Completed => Ok([Chunk("", [], [], "stop")])
    case Incomplete => Ok([Chunk("", [], [], "length")])
    case Failing(kind) =>
      Err(ResponsesError(if kind == "response.failed" then "responses api failed" else "stream error"))
    case Unread(_) => Ok([])
  }

  // ---- nothing in them is taken for an image ----

  lemma NoImageInPart(piece: Piece, find: ImageFinder)
    requires FindsRecognised(find)
    ensures Recognised(PartOf(piece)) == {} && find(PartOf(piece)) == []
  {
    match piece {
      case Spoken(text) => NoImageInText(text);
      case Declined(text) =>
        assert PartOf(piece).fields.Keys == {"type", "refusal"};
        NoImageInObject(PartOf(piece));
    }
    FindsNothing(find, PartOf(piece));
  }

  lemma NoImageInCall(callId: string, id: string, name: string, args: Json)
    requires Recognised(args) == {}
    ensures Recognised(CallOf(callId, id, name, args)) == {}
  {
    var item := CallOf(callId, id, name, args);
    assert item.fields.Keys == {"type", "call_id", "id", "name", "arguments"};
    NoImageInObject(item);
  }

  lemma {:induction false} NoImageInParts(pieces: seq<Piece>, find: ImageFinder)
    requires FindsRecognised(find)
    ensures forall i :: 0 <= i < |PartsOf(pieces)| ==> Recognised(PartsOf(pieces)[i]) == {}
  {
    if pieces != [] {
      NoImageInPart(pieces[0], find);
      NoImageInParts(pieces[1..], find);
    }
  }

  lemma NoImageInMessage(pieces: seq<Piece>, find: ImageFinder)
    requires FindsRecognised(find)
    ensures find(MessageOf(pieces)) == []
  {
    var item := MessageOf(pieces);
    NoImageInParts(pieces, find);
    NoImageInList(PartsOf(pieces));
    assert item.fields.Keys == {"type", "content"};
    NoImageInObject(item);
    FindsNothing(find, item);
  }

  // ---- reading them ----

  lemma TextReads(x: Sent, find: ImageFinder, encode: Encoder)
    requires x.TextPiece? || x.RefusalPiece? || x.WholeText? || x.WholeRefusal?
    ensures ParseChunk(Encoded(x), find, encode) == Meaning(x, encode)
  {
    ByKind(Encoded(x), Encoded(x)["type"].s, find, encode);
  }

  lemma ItemEvent(raw: Fields, done: bool, find: ImageFinder, encode: Encoder)
    requires "error" !in raw && "choices" !in raw && "type" in raw && "item" in raw && raw["item"].Obj?
    requires raw["type"] == Str(if done then "response.output_item.done" else "response.output_item.added")
    ensures ParseChunk(raw, find, encode) == Ok(ItemChunks(raw, raw["item"], find, encode))
  {
    ByKind(raw, if done then "response.output_item.done" else "response.output_item.added", find, encode);
  }

  lemma PartEvent(raw: Fields, done: bool, find: ImageFinder, encode: Encoder)
    requires "error" !in raw && "choices" !in raw && "type" in raw && "part" in raw && raw["part"].Obj?
    requires raw["type"] == Str(if done then "response.content_part.done" else "response.content_part.added")
    ensures ParseChunk(raw, find, encode) == Ok(PartChunks(raw["part"], find))
  {
    ByKind(raw, if done then "response.content_part.done" else "response.content_part.added", find, encode);
  }

  lemma PartReads(done: bool, piece: Piece, find: ImageFinder, encode: Encoder)
    requires FindsRecognised(find)
    ensures ParseChunk(Encoded(Part(done, piece)), find, encode) == Meaning(Part(done, piece), encode)
  {
    NoImageInPart(piece, find);
    PartItself(piece, find);
    PartEvent(Encoded(Part(done, piece)), done, find, encode);
  }

  lemma PartItself(piece: Piece, find: ImageFinder)
    requires find(PartOf(piece)) == []
    ensures PartChunks(PartOf(piece), find) == SayingIfAny(piece.text)
  {
    assert StrAt(PartOf(piece).fields, "type") == if piece.Spoken? then "output_text" else "refusal";
  }

  lemma PieceOfArgsReads(x: Sent, find: ImageFinder, encode: Encoder)
    requires x.ArgsPiece?
    ensures ParseChunk(Encoded(x), find, encode) == Meaning(x, encode)
  {
    ByKind(Encoded(x), "response.function_call_arguments.delta", find, encode);
    assert IntAt(Encoded(x), "output_index") == x.index;
  }

  lemma WholeArgsRead(x: Sent, find: ImageFinder, encode: Encoder)
    requires x.WholeArgs?
    ensures ParseChunk(Encoded(x), find, encode) == Meaning(x, encode)
  {
    ByKind(Encoded(x), "response.function_call_arguments.done", find, encode);
    assert IntAt(Encoded(x), "output_index") == x.index;
  }

  lemma CallReads(x: Sent, find: ImageFinder, encode: Encoder)
    requires FindsRecognised(find) && x.CallItem? && Recognised(x.whole) == {}
    ensures ParseChunk(Encoded(x), find, encode) == Meaning(x, encode)
  {
    var raw, item := Encoded(x), CallOf(x.callId, x.id, x.name, x.whole);
    NoImageInCall(x.callId, x.id, x.name, x.whole);
    FindsNothing(find, item);
    assert raw["item"] == item && IntAt(raw, "output_index") == x.index;
    ItemEvent(raw, x.done, find, encode);
    CallItemReads(raw, x, find, encode);
  }

  lemma CallItemReads(raw: Fields, x: Sent, find: ImageFinder, encode: Encoder)
    requires x.CallItem? && IntAt(raw, "output_index") == x.index
    requires find(CallOf(x.callId, x.id, x.name, x.whole)) == []
    ensures Ok(ItemChunks(raw, CallOf(x.callId, x.id, x.name, x.whole), find, encode)) == Meaning(x, encode)
  {
    var m := CallOf(x.callId, x.id, x.name, x.whole).fields;
    assert StrAt(m, "type") == "function_call" && StrAt(m, "call_id") == x.callId && StrAt(m, "id") == x.id;
    assert StrAt(m, "name") == x.name && ArgsText(m, "arguments", encode) == ArgsMeant(x.whole, encode);
  }

  lemma MessageReads(done: bool, pieces: seq<Piece>, find: ImageFinder, encode: Encoder)
    requires FindsRecognised(find)
    ensures ParseChunk(Encoded(MessageItem(done, pieces)), find, encode) == Meaning(MessageItem(done, pieces), encode)
  {
    var raw := Encoded(MessageItem(done, pieces));
    NoImageInMessage(pieces, find);
    PartsReadBack(pieces);
    assert raw["item"] == MessageOf(pieces);
    ItemEvent(raw, done, find, encode);
    MessageItemReads(raw, pieces, find, encode);
  }

  lemma MessageItemReads(raw: Fields, pieces: seq<Piece>, find: ImageFinder, encode: Encoder)
    requires find(MessageOf(pieces)) == [] && PartsText(PartsOf(pieces)) == Concat(Texts(pieces))
    ensures ItemChunks(raw, MessageOf(pieces), find, encode) == SayingIfAny(Concat(Texts(pieces)))
  {
    assert StrAt(MessageOf(pieces).fields, "type") == "message";
  }

  lemma EndReads(x: Sent, find: ImageFinder, encode: Encoder)
    requires Proper(x) && (x.Completed? || x.Incomplete? || x.Failing?)
    ensures ParseChunk(Encoded(x), find, encode) == Meaning(x, encode)
  {
    ByKind(Encoded(x), Encoded(x)["type"].s, find, encode);
  }

  lemma UnreadReads(kind: string, find: ImageFinder, encode: Encoder)
    requires kind !in READ_KINDS
    ensures ParseChunk(Encoded(Unread(kind)), find, encode) == Ok([])
  {
    ByKind(Encoded(Unread(kind)), kind, find, encode);
  }

  /** Every event of the Responses interface is read as what it says: texts and refusals, whole or in pieces,
      calls with index, id, name and arguments, how the response ended, and its failures; events of any
      other kind are passed over. */
  lemma EventReadsBack(x: Sent, find: ImageFinder, encode: Encoder)
    requires FindsRecognised(find) && Proper(x)
    ensures ParseChunk(Encoded(x), find, encode) == Meaning(x, encode)
  {
    match x {
      case Part(done, piece) => PartReads(done, piece, find, encode);
      case ArgsPiece(_, _, _, _) => PieceOfArgsReads(x, find, encode);
      case WholeArgs(_, _, _, _) => WholeArgsRead(x, find, encode);
      case CallItem(_, _, _, _, _, _) => CallReads(x, find, encode);
      case MessageItem(done, pieces) => MessageReads(done, pieces, find, encode);
      case Unread(kind) => UnreadReads(kind, find, encode);
      case Completed => EndReads(x, find, encode);
      case Incomplete => EndReads(x, find, encode);
      case Failing(_) => EndReads(x, find, encode);
      case _ => TextReads(x, find, encode);
    }
  }

  predicate IsImageEvent(kind: string) {
    kind == "response.image_generation_call.partial_image" || kind == "response.image_generation_call.completed"
  }

  predicate IsPartEvent(kind: string) {
    kind == "response.content_part.added" || kind == "response.content_part.done"
  }

  predicate IsItemEvent(kind: string) {
    kind == "response.output_item.added" || kind == "response.output_item.done"
  }

  /** Where an event may hold images: in itself, in its part, or in its item. */
  predicate HoldsImages(raw: Fields, kind: string, holder: Json) {
    || (IsImageEvent(kind) && holder == Obj(raw))
    || (IsPartEvent(kind) && holder.Obj? && "part" in raw && raw["part"] == holder)
    || (IsItemEvent(kind) && holder.Obj? && "item" in raw && raw["item"] == holder)
  }

  lemma ImageEventCarries(raw: Fields, kind: string, find: ImageFinder, encode: Encoder)
    requires IsImageEvent(kind) && find(Obj(raw)) != []
    ensures ResponsesChunks(kind, raw, find, encode) == Ok([Chunk("", find(Obj(raw)), [], "")])
  {
  }

  lemma PartEventCarries(raw: Fields, kind: string, find: ImageFinder, encode: Encoder)
    requires IsPartEvent(kind) && "part" in raw && raw["part"].Obj? && find(raw["part"]) != []
    ensures ResponsesChunks(kind, raw, find, encode) == Ok([Chunk("", find(raw["part"]), [], "")])
  {
  }

  lemma ItemEventCarries(raw: Fields, kind: string, find: ImageFinder, encode: Encoder)
    requires IsItemEvent(kind) && "item" in raw && raw["item"].Obj? && find(raw["item"]) != []
    ensures ResponsesChunks(kind, raw, find, encode) == Ok([Chunk("", find(raw["item"]), [], "")])
  {
  }

  lemma FoundThere(find: ImageFinder, holder: Json) returns (images: seq<Image>)
    requires FindsRecognised(find) && Recognised(holder) != {}
    ensures images == find(holder) && images != [] && Urls(images) == Recognised(holder)
  {
    images := find(holder);
    assert Urls(images) == Recognised(holder);
  }

  /** Images there are all that such an event yields: each URL recognised, and nothing else. */
  lemma ImagesAreCarried(raw: Fields, kind: string, holder: Json, find: ImageFinder, encode: Encoder)
    returns (images: seq<Image>)
    requires "error" !in raw && "choices" !in raw && "type" in raw && raw["type"] == Str(kind)
    requires FindsRecognised(find) && HoldsImages(raw, kind, holder) && Recognised(holder) != {}
    ensures ParseChunk(raw, find, encode) == Ok([Chunk("", images, [], "")]) && Urls(images) == Recognised(holder)
  {
    images := FoundThere(find, holder);
    ByKind(raw, kind, find, encode);
    if IsImageEvent(kind) {
      ImageEventCarries(raw, kind, find, encode);
    } else if IsPartEvent(kind) {
      PartEventCarries(raw, kind, find, encode);
    } else {
      ItemEventCarries(raw, kind, find, encode);
    }
  }

  /** An error inside an event comes first, whatever else the event holds. */
  lemma ErrorComesFirst(raw: Fields, fields: Fields, find: ImageFinder, encode: Encoder)
    requires "error" in raw && raw["error"] == Obj(fields)
    ensures ParseChunk(raw, find, encode) ==
      Err(StreamError(if "message" in fields && fields["message"].Str? then fields["message"].s else ""))
    ensures "choices" in raw && !raw["choices"].List? ==>
      ParseChunk(raw - {"error"}, find, encode) == Err(InvalidChoices)
  {
  }

  // ---- a call streamed whole ----

  function PiecesSent(index: int, pieces: seq<string>): seq<Sent> {
    if pieces == [] then []
    else PiecesSent(index, pieces[..|pieces| - 1]) + [ArgsPiece(index, "", "", pieces[|pieces| - 1])]
  }

  function DeltasOf(xs: seq<Sent>, encode: Encoder): seq<ToolDelta> {
    if xs == [] then []
    else
      var m := Meaning(xs[|xs| - 1], encode);
      DeltasOf(xs[..|xs| - 1], encode) + if m.Ok? && m.value != [] then m.value[0].toolDeltas else []
  }

  /** The deltas are all for this index; what they come to. */
  predicate ComeTo(tds: seq<ToolDelta>, index: int, id: string, name: string, args: string) {
    ForIndex(tds, index) == tds && LastId(tds) == id && LastName(tds) == name && ArgsOf(tds) == args
  }

  lemma OneMorePiece(tds: seq<ToolDelta>, index: int, id: string, name: string, args: string, piece: string)
    requires ComeTo(tds, index, id, name, args)
    ensures ComeTo(tds + [ToolDelta(index, "", "", piece)], index, id, name, args + piece)
  {
    var all := tds + [ToolDelta(index, "", "", piece)];
    assert all[..|all| - 1] == tds;
  }

  lemma {:induction false} PiecesAdd(index: int, head: ToolDelta, pieces: seq<string>, encode: Encoder)
    requires head.index == index
    ensures ComeTo([head] + DeltasOf(PiecesSent(index, pieces), encode),
      index, head.id, head.name, head.args + JoinArgs(pieces))
  {
    if pieces == [] {
      assert [head] + [] == [head] && [head][..0] == [];
      assert head.args + [] == head.args;
    } else {
      var n := |pieces| - 1;
      var before, sent := DeltasOf(PiecesSent(index, pieces[..n]), encode), PiecesSent(index, pieces);
      PiecesAdd(index, head, pieces[..n], encode);
      OneMorePiece([head] + before, index, head.id, head.name, head.args + JoinArgs(pieces[..n]), pieces[n]);
      assert sent[..|sent| - 1] == PiecesSent(index, pieces[..n]);
      Associate([head], before, [ToolDelta(index, "", "", pieces[n])]);
      Associate(head.args, JoinArgs(pieces[..n]), pieces[n]);
    }
  }

  /** A call announced as an item and streamed in pieces that do not name it ends up with the item's id and
      name, and the arguments of the item and all pieces, in order. */
  lemma CallIsPutTogether(index: int, callId: string, id: string, name: string, args: string, pieces: seq<string>,
          encode: Encoder)
    ensures var item := ToolDelta(index, if callId != "" then callId else id, name, args);
      var calls := AddDeltas(map[], [item] + DeltasOf(PiecesSent(index, pieces), encode));
      index in calls && calls[index] == Call(if callId != "" then callId else id, name, args + JoinArgs(pieces))
  {
    var item := ToolDelta(index, if callId != "" then callId else id, name, args);
    PiecesAdd(index, item, pieces, encode);
    CallFromOwnDeltas([item] + DeltasOf(PiecesSent(index, pieces), encode), index);
  }

  // ---- the forms of an image ----

  /** A URL an image can have. */
  predicate IsImageUrl(url: string) {
    var u := TrimSpace(url);
    "data:image/" <= u || "https://" <= u || "http://" <= u
  }

  lemma {:induction false} CommaBehind(s: string, rest: string)
    requires ',' !in s
    ensures CommaAt(s + "," + rest) == |s|
  {
    if s == [] {
      assert (s + "," + rest)[0] == ',';
    } else {
      assert s[0] in s && (s + "," + rest)[1..] == s[1..] + "," + rest;
      CommaBehind(s[1..], rest);
    }
  }

  /** The media type of an image: the one given, else that of the data URL, else none. */
  lemma MediaTypeIs(given: string, kind: string, data: string, url: string)
    ensures TrimSpace(given) != "" ==> MediaTypeFromUrl(url, given) == TrimSpace(given)
    ensures TrimSpace(given) == "" && ',' !in kind ==>
      MediaTypeFromUrl("data:" + kind + ";base64," + data, given) == TrimSpace(kind)
    ensures TrimSpace(given) == "" && !("data:" <= url) ==> MediaTypeFromUrl(url, given) == ""
  {
    if ',' !in kind {
      var meta := "data:" + kind + ";base64";
      var whole := "data:" + kind + ";base64," + data;
      assert ',' !in meta;
      CommaBehind(meta, data);
      assert whole == meta + "," + data && whole[..|meta|] == meta;
      assert TrimPrefix(meta, "data:") == kind + ";base64";
      assert (kind + ";base64")[..|kind|] == kind && (kind + ";base64")[|kind|..] == ";base64";
    }
  }

  /** An image by its URL, directly or under image_url, and by its base64 data, which is a PNG unless another
      type is given. */
  lemma ImageFormsAreRead(url: string, given: string, data: string)
    ensures var direct, nested := Obj(map["url" := Str(url), "media_type" := Str(given)]),
                                  Obj(map["image_url" := Obj(map["url" := Str(url)]), "media_type" := Str(given)]);
      var image :=
        if IsImageUrl(url) then Some(Image(TrimSpace(url), MediaTypeFromUrl(TrimSpace(url), given))) else None;
      SingleImage(direct) == image && SingleImage(nested) == image
    ensures var kind := if TrimSpace(given) == "" then "image/png" else TrimSpace(given);
      SingleImage(Obj(map["b64_json" := Str(data), "media_type" := Str(given)])) ==
        if TrimSpace(data) == "" then None else Some(Image("data:" + kind + ";base64," + data, kind))
  {
    UrlFormsAreRead(url, given);
    TrimSpaceTrims(given);
  }

  /** With several of them in one object, image_url comes first, then a list of images, then base64 data, then
      the plain URL. */
  lemma FirstFormCounts(m: Fields, url: string, data: string)
    ensures "image_url" in m && m["image_url"] == Obj(map["url" := Str(url)]) && IsImageUrl(url) ==>
      SingleImage(Obj(m)).Some? && SingleImage(Obj(m)).value.url == TrimSpace(url)
    ensures "image_url" !in m && "images" in m && m["images"].List? && FirstImage(m["images"].items).Some? ==>
      SingleImage(Obj(m)) == FirstImage(m["images"].items)
    ensures "image_url" !in m && "images" !in m ==>
      "b64_json" in m && m["b64_json"] == Str(data) && TrimSpace(data) != "" ==>
      SingleImage(Obj(m)).Some? &&
      ";base64," + data <= SingleImage(Obj(m)).value.url[|SingleImage(Obj(m)).value.url| - |data| - 8..]
  {
    assert Obj(m).fields == m;
    assert (map["url" := Str(url)])["url"] == Str(url);
  }

  lemma UrlFormsAreRead(url: string, given: string)
    ensures var direct, nested := Obj(map["url" := Str(url), "media_type" := Str(given)]),
                                  Obj(map["image_url" := Obj(map["url" := Str(url)]), "media_type" := Str(given)]);
      var image :=
        if IsImageUrl(url) then Some(Image(TrimSpace(url), MediaTypeFromUrl(TrimSpace(url), given))) else None;
      SingleImage(direct) == image && SingleImage(nested) == image
  {
    TrimSpaceTrims(given);
    GivenTrimmed(TrimSpace(url), given);
    var inner: Fields := map["url" := Str(url)];
    assert ImageFromUrlMap(inner, TrimSpace(given)) ==
      if IsImageUrl(url) then Some(Image(TrimSpace(url), MediaTypeFromUrl(TrimSpace(url), given))) else None;
  }

  lemma GivenTrimmed(url: string, given: string)
    ensures MediaTypeFromUrl(url, TrimSpace(given)) == MediaTypeFromUrl(url, given)
  {
    TrimSpaceTrims(given);
    TrimSpaceTrims(TrimSpace(given));
  }
}
