/** From provider events to the pieces a turn is folded from: images found anywhere in a JSON tree,
    and the text and tool deltas of both API styles. */
module EventMapper {
  import opened Basics
  import opened Json
  import opened Folding

  // ---- recognising one image ----

  function TrimmedStrAt(m: Fields, key: string): string {
    TrimSpace(StrAt(m, key))
  }

  predicate LooksImageUrl(url: string) {
    var u := TrimSpace(url);
    HasPrefix(u, "data:image/") || HasPrefix(u, "https://") || HasPrefix(u, "http://")
  }

  /** The offset of the first comma, or the length. */
  function CommaAt(s: string): (i: nat)
    ensures i <= |s|
  {
    if s == [] || s[0] == ',' then 0 else 1 + CommaAt(s[1..])
  }

  function TrimSuffix(s: string, suffix: string): string {
    if |suffix| <= |s| && s[|s| - |suffix|..] == suffix then s[..|s| - |suffix|] else s
  }

  function TrimPrefix(s: string, prefix: string): string {
    if HasPrefix(s, prefix) then s[|prefix|..] else s
  }

  function MediaTypeFromUrl(url: string, fallback: string): string {
    if TrimSpace(fallback) != "" then TrimSpace(fallback)
    else if !HasPrefix(url, "data:") then ""
    else
      var i := CommaAt(url);
      if i == |url| then "" else TrimSpace(TrimSuffix(TrimPrefix(url[..i], "data:"), ";base64"))
  }

  function ImageFromUrlMap(m: Fields, fallback: string): Option<Image> {
    if "url" in m && m["url"].Str? && LooksImageUrl(m["url"].s) then
      var url := TrimSpace(m["url"].s);
      Some(Image(url, MediaTypeFromUrl(url, fallback)))
    else None
  }

  /** parseSingleImageDelta on an object. */
  function SingleImage(v: Json): (r: Option<Image>)
    requires v.Obj?
    decreases v, 0
  {
    var m := v.fields;
    var nested :=
      if "image_url" in m && m["image_url"].Obj? then
        ImageFromUrlMap(m["image_url"].fields, TrimmedStrAt(m, "media_type"))
      else None;
    if nested.Some? then nested
    else
      var listed := if "images" in m && m["images"].List? then FirstImage(m["images"].items) else None;
      if listed.Some? then listed
      else if "b64_json" in m && m["b64_json"].Str? && TrimSpace(m["b64_json"].s) != "" then
        var mediaType := if TrimmedStrAt(m, "media_type") == "" then "image/png" else TrimmedStrAt(m, "media_type");
        Some(Image("data:" + mediaType + ";base64," + m["b64_json"].s, mediaType))
      else ImageFromUrlMap(m, TrimmedStrAt(m, "media_type"))
  }

  function FirstImage(items: seq<Json>): Option<Image>
    decreases items
  {
    if items == [] then None
    else if items[0].Obj? && SingleImage(items[0]).Some? then SingleImage(items[0])
    else FirstImage(items[1..])
  }

  lemma {:induction false} ImagesHaveUrls(v: Json)
    requires v.Obj? && SingleImage(v).Some?
    ensures SingleImage(v).value.url != ""
    decreases v, 0
  {
    var m := v.fields;
    if "images" in m && m["images"].List? && FirstImage(m["images"].items).Some? {
      FirstImageHasUrl(m["images"].items);
    }
  }

  lemma {:induction false} FirstImageHasUrl(items: seq<Json>)
    requires FirstImage(items).Some?
    ensures FirstImage(items).value.url != ""
    decreases items
  {
    if items[0].Obj? && SingleImage(items[0]).Some? {
      ImagesHaveUrls(items[0]);
    } else {
      FirstImageHasUrl(items[1..]);
    }
  }

  // ---- collecting images from a tree ----

  /** The URL recognised at a node itself. */
  function OwnUrl(v: Json): set<string> {
    if v.Obj? && SingleImage(v).Some? then {SingleImage(v).value.url} else {}
  }

  /** The URLs recognised at any object of the tree. */
  function Recognised(v: Json): set<string> {
    match v
    case List(items) => set x, u | x in items && u in Recognised(x) :: u
    case Obj(fields) => OwnUrl(v) + (set k, u | k in fields.Keys && u in Recognised(fields[k]) :: u)
    case _ => {}
  }

  /** A tree is within another: it is that tree, or within one of its items or fields. */
  ghost predicate Within(w: Json, v: Json)
    decreases v
  {
    || w == v
    || (v.List? && exists i :: 0 <= i < |v.items| && Within(w, v.items[i]))
    || (v.Obj? && exists k :: k in v.fields && Within(w, v.fields[k]))
  }

  /** A URL is recognised exactly if, however deep in lists and objects, some object is an image with it. */
  lemma {:induction false} RecognisedIff(v: Json, url: string)
    ensures url in Recognised(v) <==>
      exists w :: Within(w, v) && w.Obj? && SingleImage(w).Some? && SingleImage(w).value.url == url
    decreases v
  {
    match v {
      case List(items) =>
        forall i | 0 <= i < |items|
          ensures url in Recognised(items[i]) <==> exists w :: Within(w, items[i]) && url in OwnUrl(w)
        {
          RecognisedIff(items[i], url);
        }
      case Obj(fields) =>
        forall k | k in fields
          ensures url in Recognised(fields[k]) <==> exists w :: Within(w, fields[k]) && url in OwnUrl(w)
        {
          RecognisedIff(fields[k], url);
        }
        assert url in OwnUrl(v) ==> Within(v, v);
      case _ =>
    }
  }

  /** The URLs seen so far, shared by the whole collection. */
  class Seen {
    var urls: set<string>

    constructor ()
      ensures urls == {}
    {
      urls := {};
    }
  }

  /** The outcome of a collection: a set of URLs fixed by the tree and by what was seen before, each
      of them once, in whatever order the entries of objects are visited. */
  ghost predicate Collected(out: seq<Image>, before: set<string>, after: set<string>, found: set<string>) {
    && after == before + found
    && Urls(out) == found - before
    && (forall i, j :: 0 <= i < j < |out| ==> out[i].url != out[j].url)
  }

  lemma CollectedInTurn(a: seq<Image>, b: seq<Image>, before: set<string>, mid: set<string>, after: set<string>,
                        foundA: set<string>, foundB: set<string>)
    requires Collected(a, before, mid, foundA) && Collected(b, mid, after, foundB)
    ensures Collected(a + b, before, after, foundA + foundB)
  {
    UrlsAppend(a, b);
    var c := a + b;
    forall i, j | 0 <= i < j < |c|
      ensures c[i].url != c[j].url
    {
      if i < |a| <= j {
        assert c[i].url in Urls(a) && c[j].url in Urls(b);
      }
    }
  }

  /** collectImageDeltas. */
  method CollectImageDeltas(v: Json, seen: Seen) returns (out: seq<Image>)
    modifies seen
    ensures Collected(out, old(seen.urls), seen.urls, Recognised(v))
    decreases v, 1
  {
    match v {
      case List(_) =>
        out := CollectFromList(v, seen);
      case Obj(_) =>
        out := CollectFromObject(v, seen);
      case _ =>
        out := [];
    }
  }

  method CollectFromList(v: Json, seen: Seen) returns (out: seq<Image>)
    requires v.List?
    modifies seen
    ensures Collected(out, old(seen.urls), seen.urls, Recognised(v))
    decreases v, 0
  {
    out := [];
    var items := v.items;
    var i := 0;
    while i < |items|
      invariant 0 <= i <= |items|
      invariant Collected(out, old(seen.urls), seen.urls, InList(items[..i]))
    {
      ghost var mid := seen.urls;
      var more := CollectImageDeltas(items[i], seen);
      InListOneMore(items, i);
      CollectedInTurn(out, more, old(seen.urls), mid, seen.urls, InList(items[..i]), Recognised(items[i]));
      out := out + more;
      i := i + 1;
    }
    assert items[..i] == items;
  }

  method CollectFromObject(v: Json, seen: Seen) returns (out: seq<Image>)
    requires v.Obj?
    modifies seen
    ensures Collected(out, old(seen.urls), seen.urls, Recognised(v))
    decreases v, 0
  {
    out := [];
    var img := SingleImage(v);
    if img.Some? && img.value.url !in seen.urls {
      seen.urls := seen.urls + {img.value.url};
      out := [img.value];
      assert out[0].url == img.value.url;
    }
    var fields := v.fields;
    assert OwnUrl(v) + Under(fields, {}) == OwnUrl(v);
    var todo := fields.Keys;
    ghost var visited: set<string> := {};
    while todo != {}
      invariant visited + todo == fields.Keys
      invariant Collected(out, old(seen.urls), seen.urls, OwnUrl(v) + Under(fields, visited))
      decreases todo
    {
      var k :| k in todo;
      ghost var mid := seen.urls;
      var more := CollectImageDeltas(fields[k], seen);
      UnderOneMore(fields, visited, k);
      CollectedInTurn(out, more, old(seen.urls), mid, seen.urls,
                      OwnUrl(v) + Under(fields, visited), Recognised(fields[k]));
      assert OwnUrl(v) + Under(fields, visited + {k}) == OwnUrl(v) + Under(fields, visited) + Recognised(fields[k]);
      out := out + more;
      todo, visited := todo - {k}, visited + {k};
    }
    assert visited == fields.Keys;
  }

  function InList(items: seq<Json>): set<string> {
    set x, u | x in items && u in Recognised(x) :: u
  }

  function Under(fields: Fields, keys: set<string>): set<string>
    requires keys <= fields.Keys
  {
    set k, u | k in keys && u in Recognised(fields[k]) :: u
  }

  lemma UnderOneMore(fields: Fields, keys: set<string>, k: string)
    requires keys <= fields.Keys && k in fields
    ensures Under(fields, keys + {k}) == Under(fields, keys) + Recognised(fields[k])
  {
  }

  lemma InListOneMore(items: seq<Json>, i: nat)
    requires i < |items|
    ensures InList(items[..i + 1]) == InList(items[..i]) + Recognised(items[i])
  {
    assert items[..i + 1] == items[..i] + [items[i]];
  }

  /** parseImageDeltas: every URL recognised anywhere in the tree, each exactly once. */
  method ParseImageDeltas(v: Json) returns (out: seq<Image>)
    ensures Urls(out) == Recognised(v)
    ensures forall i, j :: 0 <= i < j < |out| ==> out[i].url != out[j].url
  {
    var seen := new Seen();
    out := CollectImageDeltas(v, seen);
  }

  // ---- text and tool deltas ----

  /** How images are found in a part of an event; the order they come in is not fixed. */
  type ImageFinder = Json -> seq<Image>

  /** Rendering of arguments that are not a string (JSON encoding). */
  type Encoder = Json -> string

  function Truncate(n: real): int {
    if n >= 0.0 then n.Floor else -((-n).Floor)
  }

  function IntAt(m: Fields, key: string): int {
    if key in m && m[key].Num? then Truncate(m[key].n) else 0
  }

  function ArgsText(m: Fields, key: string, encode: Encoder): string {
    if key !in m || m[key].Null? then ""
    else if m[key].Str? then m[key].s
    else encode(m[key])
  }

  function TextChunk(text: string): Chunk {
    Chunk(text, [], [], "")
  }

  function ToolChunk(td: ToolDelta): Chunk {
    Chunk("", [], [td], "")
  }

  function NonEmptyText(text: string): seq<Chunk> {
    if text == "" then [] else [TextChunk(text)]
  }

  datatype MapError = StreamError(text: string) | InvalidChoices | ResponsesError(text: string)

  function ChatToolDeltas(items: seq<Json>): seq<ToolDelta> {
    if items == [] then []
    else if !items[0].Obj? then ChatToolDeltas(items[1..])
    else
      var m := items[0].fields;
      var fn := if "function" in m && m["function"].Obj? then m["function"].fields else map[];
      [ToolDelta(IntAt(m, "index"), StrAt(m, "id"), StrAt(fn, "name"), StrAt(fn, "arguments"))] +
        ChatToolDeltas(items[1..])
  }

  function ChatChunks(choices: seq<Json>, find: ImageFinder): seq<Chunk> {
    if choices == [] then []
    else if !choices[0].Obj? then ChatChunks(choices[1..], find)
    else
      var cm := choices[0].fields;
      var chunk :=
        if "delta" in cm && cm["delta"].Obj? then
          var delta := cm["delta"].fields;
          Chunk(StrAt(delta, "content"), find(cm["delta"]),
            if "tool_calls" in delta && delta["tool_calls"].List? then ChatToolDeltas(delta["tool_calls"].items)
            else [],
            StrAt(cm, "finish_reason"))
        else Chunk("", [], [], StrAt(cm, "finish_reason"));
      [chunk] + ChatChunks(choices[1..], find)
  }

  function PartsText(parts: seq<Json>): string {
    if parts == [] then []
    else
      (if !parts[0].Obj? then ""
       else if StrAt(parts[0].fields, "type") == "output_text" then StrAt(parts[0].fields, "text")
       else if StrAt(parts[0].fields, "type") == "refusal" then StrAt(parts[0].fields, "refusal")
       else "") + PartsText(parts[1..])
  }

  /** The loop over the tool calls of a delta. */
  method ParseToolCalls(items: seq<Json>) returns (out: seq<ToolDelta>)
    ensures out == ChatToolDeltas(items)
  {
    out := [];
    var i := 0;
    assert items[i..] == items;
    while i < |items|
      invariant 0 <= i <= |items| && ChatToolDeltas(items) == out + ChatToolDeltas(items[i..])
    {
      assert items[i..][0] == items[i] && items[i..][1..] == items[i + 1..];
      if items[i].Obj? {
        var m := items[i].fields;
        var fn := if "function" in m && m["function"].Obj? then m["function"].fields else map[];
        var td := ToolDelta(IntAt(m, "index"), StrAt(m, "id"), StrAt(fn, "name"), StrAt(fn, "arguments"));
        Associate(out, [td], ChatToolDeltas(items[i + 1..]));
        out := out + [td];
      }
      i := i + 1;
    }
  }

  /** The loop over the choices of a chat event; anything that is no object is skipped. */
  method ParseChoices(choices: seq<Json>, find: ImageFinder) returns (out: seq<Chunk>)
    ensures out == ChatChunks(choices, find)
  {
    out := [];
    var i := 0;
    assert choices[i..] == choices;
    while i < |choices|
      invariant 0 <= i <= |choices| && ChatChunks(choices, find) == out + ChatChunks(choices[i..], find)
    {
      assert choices[i..][0] == choices[i] && choices[i..][1..] == choices[i + 1..];
      if choices[i].Obj? {
        var cm := choices[i].fields;
        var chunk := Chunk("", [], [], StrAt(cm, "finish_reason"));
        if "delta" in cm && cm["delta"].Obj? {
          var delta := cm["delta"].fields;
          chunk := chunk.(content := StrAt(delta, "content"), images := find(cm["delta"]));
          if "tool_calls" in delta && delta["tool_calls"].List? {
            var tds := ParseToolCalls(delta["tool_calls"].items);
            chunk := chunk.(toolDeltas := tds);
          }
        }
        Associate(out, [chunk], ChatChunks(choices[i + 1..], find));
        out := out + [chunk];
      }
      i := i + 1;
    }
  }

  /** The loop over the parts of a message item. */
  method ParsePartsText(parts: seq<Json>) returns (text: string)
    ensures text == PartsText(parts)
  {
    text := "";
    var i := 0;
    assert parts[i..] == parts;
    while i < |parts|
      invariant 0 <= i <= |parts| && PartsText(parts) == text + PartsText(parts[i..])
    {
      assert parts[i..][0] == parts[i] && parts[i..][1..] == parts[i + 1..];
      var piece := "";
      if parts[i].Obj? {
        var kind := StrAt(parts[i].fields, "type");
        if kind == "output_text" {
          piece := StrAt(parts[i].fields, "text");
        } else if kind == "refusal" {
          piece := StrAt(parts[i].fields, "refusal");
        }
      }
      Associate(text, piece, PartsText(parts[i + 1..]));
      text := text + piece;
      i := i + 1;
    }
  }

  function ItemChunks(raw: Fields, item: Json, find: ImageFinder, encode: Encoder): seq<Chunk>
    requires item.Obj?
  {
    var m := item.fields;
    if find(item) != [] then [Chunk("", find(item), [], "")]
    else if StrAt(m, "type") == "function_call" then
      var id := if StrAt(m, "call_id") != "" then StrAt(m, "call_id") else StrAt(m, "id");
      [ToolChunk(ToolDelta(IntAt(raw, "output_index"), id, StrAt(m, "name"), ArgsText(m, "arguments", encode)))]
    else if StrAt(m, "type") == "message" && "content" in m && m["content"].List? then
      NonEmptyText(PartsText(m["content"].items))
    else []
  }

  function PartChunks(part: Json, find: ImageFinder): seq<Chunk>
    requires part.Obj?
  {
    var m := part.fields;
    if find(part) != [] then [Chunk("", find(part), [], "")]
    else if StrAt(m, "type") == "output_text" then NonEmptyText(StrAt(m, "text"))
    else if StrAt(m, "type") == "refusal" then NonEmptyText(StrAt(m, "refusal"))
    else []
  }

  /** parseResponsesChunk. Event types not listed contribute nothing. */
  function ResponsesChunks(kind: string, raw: Fields, find: ImageFinder, encode: Encoder)
    : Result<seq<Chunk>, MapError>
  {
    if kind == "error" || kind == "response.error" || kind == "response.failed" then
      var detail := if "error" in raw && raw["error"].Obj? then StrAt(raw["error"].fields, "message") else "";
      var prefix := if kind == "response.failed" then "responses api failed" else "stream error";
      Err(ResponsesError(if detail == "" then prefix else prefix + ": " + detail))
    else if kind == "response.incomplete" then Ok([Chunk("", [], [], "length")])
    else if kind == "response.completed" then Ok([Chunk("", [], [], "stop")])
    else if kind == "response.output_text.delta" || kind == "response.refusal.delta" then
      if "delta" in raw && raw["delta"].Str? then Ok([TextChunk(raw["delta"].s)]) else Ok([])
    else if kind == "response.output_text.done" then Ok(NonEmptyText(StrAt(raw, "text")))
    else if kind == "response.refusal.done" then Ok(NonEmptyText(StrAt(raw, "refusal")))
    else if kind == "response.content_part.added" || kind == "response.content_part.done" then
      if "part" in raw && raw["part"].Obj? then Ok(PartChunks(raw["part"], find)) else Ok([])
    else if kind == "response.function_call_arguments.delta" then
      var piece := StrAt(raw, "delta");
      Ok([ToolChunk(ToolDelta(IntAt(raw, "output_index"), StrAt(raw, "call_id"), StrAt(raw, "name"), piece))])
    else if kind == "response.function_call_arguments.done" then
      var args := ArgsText(raw, "arguments", encode);
      Ok([ToolChunk(ToolDelta(IntAt(raw, "output_index"), StrAt(raw, "call_id"), StrAt(raw, "name"), args))])
    else if kind == "response.output_item.added" || kind == "response.output_item.done" then
      if "item" in raw && raw["item"].Obj? then Ok(ItemChunks(raw, raw["item"], find, encode)) else Ok([])
    else if kind == "response.image_generation_call.partial_image"
         || kind == "response.image_generation_call.completed" then
      if find(Obj(raw)) == [] then Ok([]) else Ok([Chunk("", find(Obj(raw)), [], "")])
    else Ok([])
  }

  /** parseChunk: an embedded error first, then the chat form, then the Responses form. */
  function ParseChunk(raw: Fields, find: ImageFinder, encode: Encoder): Result<seq<Chunk>, MapError> {
    if "error" in raw && raw["error"].Obj? then Err(StreamError(StrAt(raw["error"].fields, "message")))
    else if "choices" !in raw then ResponsesChunks(StrAt(raw, "type"), raw, find, encode)
    else if !raw["choices"].List? then Err(InvalidChoices)
    else Ok(ChatChunks(raw["choices"].items, find))
  }

  // ---- usage and cost ----

  datatype Usage = Usage(input: int, output: int, cachedInput: int, reasoningOutput: int)

  function FieldsAt(m: Fields, key: string): Option<Fields> {
    if key in m && m[key].Obj? then Some(m[key].fields) else None
  }

  function CostAt(m: Fields, before: Option<real>): Option<real> {
    if "total_cost_usd" in m && m["total_cost_usd"].Num? then Some(m["total_cost_usd"].n) else before
  }

  /** A detail that counts only when the direct field is zero. */
  function Detailed(m: Fields, direct: string, group: string, detail: string): int {
    var d := FieldsAt(m, group);
    if IntAt(m, direct) == 0 && d.Some? then IntAt(d.value, detail) else IntAt(m, direct)
  }

  function UsageAt(m: Fields, before: Option<Usage>): Option<Usage> {
    var direct := IntAt(m, "input_tokens") != 0 || IntAt(m, "output_tokens") != 0;
    var input := if direct then IntAt(m, "input_tokens") else IntAt(m, "prompt_tokens");
    var output := if direct then IntAt(m, "output_tokens") else IntAt(m, "completion_tokens");
    if input == 0 && output == 0 then before
    else Some(Usage(input, output,
                    Detailed(m, "cached_input_tokens", "prompt_tokens_details", "cached_tokens"),
                    Detailed(m, "reasoning_output_tokens", "completion_tokens_details", "reasoning_tokens")))
  }

  /** parseUsageAndCost: each place that reports a value replaces the ones before it. */
  function CostAfter(raw: Fields, before: Option<real>): Option<real> {
    var usage := FieldsAt(raw, "usage");
    var c := CostAt(raw, if usage.Some? then CostAt(usage.value, before) else before);
    match FieldsAt(raw, "response")
    case None => c
    case Some(response) =>
      var inner := FieldsAt(response, "usage");
      CostAt(response, if inner.Some? then CostAt(inner.value, c) else c)
  }

  function UsageAfter(raw: Fields, before: Option<Usage>): Option<Usage> {
    var usage := FieldsAt(raw, "usage");
    var u := if usage.Some? then UsageAt(usage.value, before) else before;
    match FieldsAt(raw, "response")
    case None => u
    case Some(response) =>
      var inner := FieldsAt(response, "usage");
      if inner.Some? then UsageAt(inner.value, u) else u
  }

  // ---- where usage and cost are found ----

  /** The value a path of keys leads to, through objects. */
  function AtPath(fields: Fields, path: seq<string>): Option<Json>
    requires path != []
    decreases |path|
  {
    if path[0] !in fields then None
    else if |path| == 1 then Some(fields[path[0]])
    else if fields[path[0]].Obj? then AtPath(fields[path[0]].fields, path[1..])
    else None
  }

  function NumberAt(fields: Fields, path: seq<string>): Option<real>
    requires path != []
  {
    var v := AtPath(fields, path);
    if v.Some? && v.value.Num? then Some(v.value.n) else None
  }

  /** The number at the last of several places that has one. */
  function LastNumber(fields: Fields, places: seq<seq<string>>): Option<real>
    requires forall i :: 0 <= i < |places| ==> places[i] != []
  {
    if places == [] then None
    else if NumberAt(fields, places[|places| - 1]).Some? then NumberAt(fields, places[|places| - 1])
    else LastNumber(fields, places[..|places| - 1])
  }

  const COST_PLACES: seq<seq<string>> :=
    [["usage", "total_cost_usd"], ["total_cost_usd"],
     ["response", "usage", "total_cost_usd"], ["response", "total_cost_usd"]]

  /** The cost an event reports: the number at the last of four places that has one. */
  function CostReported(raw: Fields): Option<real> {
    LastNumber(raw, COST_PLACES)
  }

  lemma OneKey(fields: Fields, key: string)
    ensures AtPath(fields, [key]) == if key in fields then Some(fields[key]) else None
  {
  }

  lemma KeyBelow(fields: Fields, key: string, rest: seq<string>)
    requires rest != []
    ensures AtPath(fields, [key] + rest) ==
      if FieldsAt(fields, key).Some? then AtPath(FieldsAt(fields, key).value, rest) else None
  {
    assert ([key] + rest)[1..] == rest;
  }

  lemma CostPlaces(raw: Fields)
    ensures CostReported(raw) ==
      if NumberAt(raw, ["response", "total_cost_usd"]).Some? then NumberAt(raw, ["response", "total_cost_usd"])
      else if NumberAt(raw, ["response", "usage", "total_cost_usd"]).Some? then
        NumberAt(raw, ["response", "usage", "total_cost_usd"])
      else if NumberAt(raw, ["total_cost_usd"]).Some? then NumberAt(raw, ["total_cost_usd"])
      else NumberAt(raw, ["usage", "total_cost_usd"])
  {
    var p := COST_PLACES;
    assert p[..3][..2] == p[..2] && p[..2][..1] == p[..1] && p[..1][..0] == [];
    assert LastNumber(raw, p[..1]) == NumberAt(raw, p[0]);
    assert LastNumber(raw, p[..2]) ==
      if NumberAt(raw, p[1]).Some? then NumberAt(raw, p[1]) else LastNumber(raw, p[..1]);
    assert LastNumber(raw, p[..3]) ==
      if NumberAt(raw, p[2]).Some? then NumberAt(raw, p[2]) else LastNumber(raw, p[..2]);
  }

  /** The cost behind an event is the one the event reports, and else the one before. */
  lemma CostIsLastReported(raw: Fields, before: Option<real>)
    ensures CostAfter(raw, before) == if CostReported(raw).Some? then CostReported(raw) else before
  {
    CostPlaces(raw);
    OneKey(raw, "total_cost_usd");
    CostBelow(raw, "usage");
    CostBelow(raw, "response");
    KeyBelow(raw, "response", ["usage", "total_cost_usd"]);
    assert ["response"] + ["usage", "total_cost_usd"] == ["response", "usage", "total_cost_usd"];
    if FieldsAt(raw, "response").Some? {
      CostBelow(FieldsAt(raw, "response").value, "usage");
    }
  }

  lemma CostBelow(fields: Fields, key: string)
    ensures NumberAt(fields, [key, "total_cost_usd"]) ==
      if FieldsAt(fields, key).Some? then CostAt(FieldsAt(fields, key).value, None) else None
  {
    KeyBelow(fields, key, ["total_cost_usd"]);
    assert [key] + ["total_cost_usd"] == [key, "total_cost_usd"];
  }

  /** A count as the usage fields give it, without what is behind the decimal point; zero if there is none. */
  function CountAt(fields: Fields, path: seq<string>): int
    requires path != []
  {
    var n := NumberAt(fields, path);
    if n.Some? then Truncate(n.value) else 0
  }

  lemma TruncatesTowardZero(n: real)
    ensures n >= 0.0 ==> 0 <= Truncate(n) && Truncate(n) as real <= n < (Truncate(n) + 1) as real
    ensures n <= 0.0 ==> Truncate(n) <= 0 && (Truncate(n) - 1) as real < n <= Truncate(n) as real
  {
  }

  /** What a usage object says: the tokens under the names of one interface, or, where both are zero, under
      those of the other; none at all leave the usage as it was. Cached and reasoning tokens are looked for
      in the details where the direct field says nothing. */
  lemma UsageMeans(m: Fields, before: Option<Usage>)
    ensures var input, output := CountAt(m, ["input_tokens"]), CountAt(m, ["output_tokens"]);
      var prompt, completion := CountAt(m, ["prompt_tokens"]), CountAt(m, ["completion_tokens"]);
      var after := UsageAt(m, before);
      if input != 0 || output != 0 then after.Some? && after.value.input == input && after.value.output == output
      else if prompt != 0 || completion != 0 then
        after.Some? && after.value.input == prompt && after.value.output == completion
      else after == before
    ensures var cached, reasoning := CountAt(m, ["cached_input_tokens"]), CountAt(m, ["reasoning_output_tokens"]);
      var after := UsageAt(m, None);
      after.Some? ==>
        && after.value.cachedInput ==
           (if cached != 0 then cached else CountAt(m, ["prompt_tokens_details", "cached_tokens"]))
        && after.value.reasoningOutput ==
           (if reasoning != 0 then reasoning else CountAt(m, ["completion_tokens_details", "reasoning_tokens"]))
    ensures UsageAt(m, before) == if UsageAt(m, None).Some? then UsageAt(m, None) else before
  {
    CountOfKey(m, "input_tokens");
    CountOfKey(m, "output_tokens");
    CountOfKey(m, "prompt_tokens");
    CountOfKey(m, "completion_tokens");
    DetailMeans(m, "cached_input_tokens", "prompt_tokens_details", "cached_tokens");
    DetailMeans(m, "reasoning_output_tokens", "completion_tokens_details", "reasoning_tokens");
  }

  lemma CountOfKey(m: Fields, key: string)
    ensures CountAt(m, [key]) == IntAt(m, key)
  {
    OneKey(m, key);
  }

  lemma DetailMeans(m: Fields, direct: string, group: string, detail: string)
    ensures Detailed(m, direct, group, detail) ==
      if CountAt(m, [direct]) != 0 then CountAt(m, [direct]) else CountAt(m, [group, detail])
  {
    CountOfKey(m, direct);
    KeyBelow(m, group, [detail]);
    assert [group] + [detail] == [group, detail];
    if FieldsAt(m, group).Some? {
      CountOfKey(FieldsAt(m, group).value, detail);
    }
  }

  /** The usage an event reports: of its response if that has one, else its own. */
  function UsageReported(raw: Fields): Option<Usage> {
    var own, nested := AtPath(raw, ["usage"]), AtPath(raw, ["response", "usage"]);
    if nested.Some? && nested.value.Obj? && UsageAt(nested.value.fields, None).Some? then
      UsageAt(nested.value.fields, None)
    else if own.Some? && own.value.Obj? then UsageAt(own.value.fields, None)
    else None
  }

  /** The usage behind an event is the one the event reports, and else the one before. */
  lemma UsageIsLastReported(raw: Fields, before: Option<Usage>)
    ensures UsageAfter(raw, before) == if UsageReported(raw).Some? then UsageReported(raw) else before
  {
    OneKey(raw, "usage");
    KeyBelow(raw, "response", ["usage"]);
    assert ["response"] + ["usage"] == ["response", "usage"];
    if FieldsAt(raw, "usage").Some? {
      UsageMeans(FieldsAt(raw, "usage").value, before);
    }
    if FieldsAt(raw, "response").Some? {
      var response := FieldsAt(raw, "response").value;
      OneKey(response, "usage");
      if FieldsAt(response, "usage").Some? {
        UsageMeans(FieldsAt(response, "usage").value, before);
        if FieldsAt(raw, "usage").Some? {
          UsageMeans(FieldsAt(response, "usage").value, UsageAt(FieldsAt(raw, "usage").value, before));
        }
      }
    }
  }

  type Parser = Fields -> Result<seq<Chunk>, MapError>

  /** The chunks of several events, those that fail to parse left out. */
  function AllChunks(events: seq<Fields>, parse: Parser): seq<Chunk> {
    if events == [] then []
    else
      var parsed := parse(events[0]);
      (if parsed.Ok? then parsed.value else []) + AllChunks(events[1..], parse)
  }

  /** The text deltas of the chunks; an empty one is no delta and folds to nothing. */
  function Contents(chunks: seq<Chunk>): seq<string> {
    seq(|chunks|, i requires 0 <= i < |chunks| => chunks[i].content)
  }

  function Deltas(chunks: seq<Chunk>): seq<ToolDelta> {
    if chunks == [] then [] else chunks[0].toolDeltas + Deltas(chunks[1..])
  }

  function AllImages(chunks: seq<Chunk>): seq<Image> {
    if chunks == [] then [] else AllImages(chunks[..|chunks| - 1]) + chunks[|chunks| - 1].images
  }

  // ---- how a Responses stream repeats itself ----

  predicate OneChunk(parsed: Result<seq<Chunk>, MapError>, chunk: Chunk) {
    parsed == Ok([chunk])
  }

  /** Events that yield one chunk each yield these chunks. */
  lemma {:induction false} ChunkByChunk(events: seq<Fields>, chunks: seq<Chunk>, parse: Parser)
    requires |events| == |chunks|
    requires forall i :: 0 <= i < |events| ==> OneChunk(parse(events[i]), chunks[i])
    ensures AllChunks(events, parse) == chunks
  {
    if events != [] {
      assert OneChunk(parse(events[0]), chunks[0]);
      forall i | 0 <= i < |events[1..]|
        ensures OneChunk(parse(events[1..][i]), chunks[1..][i])
      {
        assert events[1..][i] == events[i + 1] && chunks[1..][i] == chunks[i + 1];
      }
      ChunkByChunk(events[1..], chunks[1..], parse);
      assert chunks == [chunks[0]] + chunks[1..];
    }
  }

  function TextDelta(d: string): Fields {
    map["type" := Str("response.output_text.delta"), "delta" := Str(d)]
  }

  function OutputText(text: string): Json {
    Obj(map["type" := Str("output_text"), "text" := Str(text)])
  }

  function TextDone(text: string): Fields {
    map["type" := Str("response.output_text.done"), "text" := Str(text)]
  }

  function PartDone(text: string): Fields {
    map["type" := Str("response.content_part.done"), "part" := OutputText(text)]
  }

  function ItemDone(text: string): Fields {
    map["type" := Str("response.output_item.done"),
        "item" := Obj(map["type" := Str("message"), "content" := List([OutputText(text)])])]
  }

  function Repetitions(full: string): seq<Fields> {
    [TextDone(full), PartDone(full), ItemDone(full)]
  }

  /** A text as the Responses interface streams it: its deltas, then the whole text three times over. */
  function StreamedText(ds: seq<string>): seq<Fields> {
    seq(|ds|, i requires 0 <= i < |ds| => TextDelta(ds[i])) + Repetitions(Concat(ds))
  }

  lemma ByKind(raw: Fields, kind: string, find: ImageFinder, encode: Encoder)
    requires "error" !in raw && "choices" !in raw && "type" in raw && raw["type"] == Str(kind)
    ensures ParseChunk(raw, find, encode) == ResponsesChunks(kind, raw, find, encode)
  {
  }

  lemma TextDeltaParses(text: string, find: ImageFinder, encode: Encoder)
    ensures OneChunk(ParseChunk(TextDelta(text), find, encode), TextChunk(text))
  {
    ByKind(TextDelta(text), "response.output_text.delta", find, encode);
  }

  lemma TextDoneParses(text: string, find: ImageFinder, encode: Encoder)
    ensures ParseChunk(TextDone(text), find, encode) == Ok(NonEmptyText(text))
  {
    ByKind(TextDone(text), "response.output_text.done", find, encode);
  }

  /** The finder of the source: it finds the URLs recognised in the tree. */
  ghost predicate FindsRecognised(find: ImageFinder) {
    forall v :: Urls(find(v)) == Recognised(v)
  }

  lemma FindsNothing(find: ImageFinder, v: Json)
    requires FindsRecognised(find) && Recognised(v) == {}
    ensures find(v) == []
  {
    assert Urls(find(v)) == {};
    NoUrlsNoImages(find(v));
  }

  lemma NoUrlsNoImages(images: seq<Image>)
    ensures Urls(images) == {} ==> images == []
  {
    if images != [] {
      UrlsLast(images);
    }
  }

  lemma NoImageInList(items: seq<Json>)
    requires forall i :: 0 <= i < |items| ==> Recognised(items[i]) == {}
    ensures Recognised(List(items)) == {}
  {
  }

  /** An object without any of the keys images come under. */
  lemma NoImageInObject(v: Json)
    requires v.Obj? && {"image_url", "images", "b64_json", "url"} !! v.fields.Keys
    requires forall k :: k in v.fields ==> Recognised(v.fields[k]) == {}
    ensures Recognised(v) == {}
  {
    assert "image_url" !in v.fields && "images" !in v.fields && "b64_json" !in v.fields && "url" !in v.fields;
    assert OwnUrl(v) == {};
  }

  lemma NoImageInText(text: string)
    ensures Recognised(OutputText(text)) == {}
  {
    assert OutputText(text).fields.Keys == {"type", "text"};
    NoImageInObject(OutputText(text));
  }

  lemma NoImageInItem(text: string)
    ensures Recognised(ItemDone(text)["item"]) == {}
  {
    NoImageInText(text);
    NoImageInList([OutputText(text)]);
    assert ItemDone(text)["item"].fields.Keys == {"type", "content"};
    NoImageInObject(ItemDone(text)["item"]);
  }

  /** The parts of a streamed text in which nothing is found. */
  predicate NothingIn(text: string, find: ImageFinder) {
    find(OutputText(text)) == [] && find(ItemDone(text)["item"]) == []
  }

  lemma FindsNothingIn(text: string, find: ImageFinder)
    requires FindsRecognised(find)
    ensures NothingIn(text, find)
  {
    NoImageInText(text);
    NoImageInItem(text);
    FindsNothing(find, OutputText(text));
    FindsNothing(find, ItemDone(text)["item"]);
  }

  lemma PartDoneParses(text: string, find: ImageFinder, encode: Encoder)
    requires NothingIn(text, find)
    ensures ParseChunk(PartDone(text), find, encode) == Ok(NonEmptyText(text))
  {
    ByKind(PartDone(text), "response.content_part.done", find, encode);
  }

  lemma ItemDoneParses(text: string, find: ImageFinder, encode: Encoder)
    requires NothingIn(text, find)
    ensures ParseChunk(ItemDone(text), find, encode) == Ok(NonEmptyText(text))
  {
    ByKind(ItemDone(text), "response.output_item.done", find, encode);
    OutputTextOf(text);
    var item := ItemDone(text)["item"];
    assert item.fields["content"] == List([OutputText(text)]);
    assert StrAt(item.fields, "type") == "message";
    assert ItemChunks(ItemDone(text), item, find, encode) == NonEmptyText(text);
  }

  lemma OutputTextOf(text: string)
    ensures PartsText([OutputText(text)]) == text
  {
    var parts := [OutputText(text)];
    assert parts[1..] == [] && StrAt(parts[0].fields, "type") == "output_text";
    assert PartsText([]) == "";
    assert PartsText(parts) == text + "";
  }

  lemma {:induction false} AllChunksOfTwo(a: seq<Fields>, b: seq<Fields>, parse: Parser)
    ensures AllChunks(a + b, parse) == AllChunks(a, parse) + AllChunks(b, parse)
    decreases |a|
  {
    if a == [] {
      assert a + b == b;
    } else {
      assert (a + b)[1..] == a[1..] + b;
      AllChunksOfTwo(a[1..], b, parse);
      Associate(if parse(a[0]).Ok? then parse(a[0]).value else [], AllChunks(a[1..], parse), AllChunks(b, parse));
    }
  }

  function TextChunks(texts: seq<string>): seq<Chunk> {
    seq(|texts|, i requires 0 <= i < |texts| => TextChunk(texts[i]))
  }

  lemma TextDeltasParse(ds: seq<string>, find: ImageFinder, encode: Encoder, parse: Parser)
    requires parse == (raw => ParseChunk(raw, find, encode))
    ensures AllChunks(seq(|ds|, i requires 0 <= i < |ds| => TextDelta(ds[i])), parse) == TextChunks(ds)
  {
    var events := seq(|ds|, i requires 0 <= i < |ds| => TextDelta(ds[i]));
    forall i | 0 <= i < |events|
      ensures OneChunk(parse(events[i]), TextChunks(ds)[i])
    {
      TextDeltaParses(ds[i], find, encode);
    }
    ChunkByChunk(events, TextChunks(ds), parse);
  }

  function RepeatedTexts(full: string): seq<string> {
    if full == "" then [] else [full, full, full]
  }

  lemma RepetitionsParse(full: string, find: ImageFinder, encode: Encoder, parse: Parser)
    requires NothingIn(full, find) && parse == (raw => ParseChunk(raw, find, encode))
    ensures AllChunks(Repetitions(full), parse) == TextChunks(RepeatedTexts(full))
  {
    TextDoneParses(full, find, encode);
    PartDoneParses(full, find, encode);
    ItemDoneParses(full, find, encode);
    AllChunksOfThree(TextDone(full), PartDone(full), ItemDone(full), parse, NonEmptyText(full));
  }

  lemma AllChunksOfThree(a: Fields, b: Fields, c: Fields, parse: Parser, chunks: seq<Chunk>)
    requires parse(a) == parse(b) == parse(c) == Ok(chunks)
    ensures AllChunks([a, b, c], parse) == chunks + chunks + chunks
  {
    assert [a, b, c][1..] == [b, c] && [b, c][1..] == [c] && [c][1..] == [];
    assert AllChunks([c], parse) == chunks + [];
  }

  /** The texts such a stream carries: the deltas, then three times the whole, if there is any. */
  function StreamedTexts(ds: seq<string>): seq<string> {
    ds + RepeatedTexts(Concat(ds))
  }

  lemma StreamedTextParses(ds: seq<string>, find: ImageFinder, encode: Encoder)
    requires FindsRecognised(find)
    ensures Contents(AllChunks(StreamedText(ds), raw => ParseChunk(raw, find, encode))) == StreamedTexts(ds)
  {
    FindsNothingIn(Concat(ds), find);
    StreamedChunks(ds, find, encode, raw => ParseChunk(raw, find, encode));
    assert Contents(TextChunks(StreamedTexts(ds))) == StreamedTexts(ds);
  }

  lemma TextChunksOfTwo(a: seq<string>, b: seq<string>)
    ensures TextChunks(a + b) == TextChunks(a) + TextChunks(b)
  {
  }

  lemma StreamedChunks(ds: seq<string>, find: ImageFinder, encode: Encoder, parse: Parser)
    requires NothingIn(Concat(ds), find) && parse == (raw => ParseChunk(raw, find, encode))
    ensures AllChunks(StreamedText(ds), parse) == TextChunks(StreamedTexts(ds))
  {
    var full := Concat(ds);
    TextDeltasParse(ds, find, encode, parse);
    RepetitionsParse(full, find, encode, parse);
    AllChunksOfTwo(seq(|ds|, i requires 0 <= i < |ds| => TextDelta(ds[i])), Repetitions(full), parse);
    TextChunksOfTwo(ds, RepeatedTexts(full));
  }

  lemma {:induction false} BlankFold(ds: seq<string>)
    requires Concat(ds) == ""
    ensures FoldText("", ds) == ""
  {
    if ds != [] {
      assert |Concat(ds)| == |ds[0]| + |Concat(ds[1..])|;
      BlankFold(ds[1..]);
    }
  }

  lemma {:induction false} FoldGrows(current: string, deltas: seq<string>)
    ensures |FoldText(current, deltas)| >= |current|
    decreases |deltas|
  {
    if deltas != [] {
      FoldGrows(current + News(current, deltas[0]), deltas[1..]);
    }
  }

  lemma DeltasThenWhole(ds: seq<string>)
    ensures FoldText("", StreamedTexts(ds)) == Concat(ds) <==> HasPrefix(Concat(ds), FoldText("", ds))
  {
    var full, t := Concat(ds), FoldText("", ds);
    FoldTextAppend("", ds, RepeatedTexts(full));
    if full == "" {
      BlankFold(ds);
    } else if HasPrefix(full, t) {
      assert t + News(t, full) == full;
      assert [full, full, full][1..] == [full, full];
      SnapshotsAddNothing(full, [full, full]);
    } else {
      assert t + News(t, full) == t + full && |t| > 0;
      assert [full, full, full][1..] == [full, full];
      FoldGrows(t + full, [full, full]);
    }
  }

  /** A text streamed as deltas and then repeated three times comes out as what was sent if and only if
      what the deltas alone come to begins it; the deltas that are plainly added up are such. */
  lemma StreamedTextComesOutOnceIff(ds: seq<string>, find: ImageFinder, encode: Encoder)
    requires FindsRecognised(find)
    ensures FoldText("", Contents(AllChunks(StreamedText(ds), raw => ParseChunk(raw, find, encode)))) == Concat(ds)
            <==> HasPrefix(Concat(ds), FoldText("", ds))
    ensures NoneAbsorbed("", ds) ==> HasPrefix(Concat(ds), FoldText("", ds))
  {
    StreamedTextParses(ds, find, encode);
    DeltasThenWhole(ds);
    PlainConcatenationIff("", ds);
    assert "" + Concat(ds) == Concat(ds);
  }

  /** Deltas of which one is mistaken for a repetition: the text comes out wrong, and none of the three
      repetitions is taken for one. */
  lemma SwallowedDeltaRepeatsText(find: ImageFinder, encode: Encoder)
    requires FindsRecognised(find)
    ensures var ds := ["a", "ab", "c"];
      FoldText("", Contents(AllChunks(StreamedText(ds), raw => ParseChunk(raw, find, encode)))) == "abcaabcaabcaabc"
  {
    StreamedTextParses(["a", "ab", "c"], find, encode);
    SwallowedDelta();
  }

  lemma SwallowedDelta()
    ensures Concat(["a", "ab", "c"]) == "aabc"
    ensures FoldText("", StreamedTexts(["a", "ab", "c"])) == "abcaabcaabcaabc"
  {
    var ds, full := ["a", "ab", "c"], "aabc";
    assert ds[1..] == ["ab", "c"] && ["ab", "c"][1..] == ["c"] && ["c"][1..] == [];
    assert Concat(["c"]) == "c" && Concat(["ab", "c"]) == "abc" && Concat(ds) == full;
    assert FoldText("abc", []) == "abc" && FoldText("ab", ["c"]) == "abc";
    assert FoldText("a", ["ab", "c"]) == "abc" && FoldText("", ds) == "abc";
    FoldTextAppend("", ds, [full, full, full]);
    assert "abc"[1] != full[1];
    NeverTaken("abc", full);
  }

  /** A repetition that does not begin with the text so far is added to it, as often as it comes. */
  lemma NeverTaken(current: string, full: string)
    requires current != "" && full != "" && !HasPrefix(full, current)
    ensures FoldText(current, [full, full, full]) == current + full + full + full
  {
    assert [full, full, full][1..] == [full, full] && [full, full][1..] == [full] && [full][1..] == [];
    var once := current + full;
    var twice := once + full;
    assert News(current, full) == full && News(once, full) == full && News(twice, full) == full;
    assert FoldText(twice, [full]) == FoldText(twice + full, []);
    assert FoldText(once, [full, full]) == FoldText(twice, [full]);
  }

  // ---- what a chat stream yields ----

  function ChatTool(td: ToolDelta): Json {
    Obj(map["index" := Num(td.index as real), "id" := Str(td.id),
            "function" := Obj(map["name" := Str(td.name), "arguments" := Str(td.args)])])
  }

  function ChatTools(tds: seq<ToolDelta>): seq<Json> {
    if tds == [] then [] else [ChatTool(tds[0])] + ChatTools(tds[1..])
  }

  /** An image as the chat interface sends it. */
  function ChatImage(image: Image): Json {
    Obj(map["image_url" := Obj(map["url" := Str(image.url)])])
  }

  function ChatImages(images: seq<Image>): seq<Json> {
    if images == [] then [] else ChatImages(images[..|images| - 1]) + [ChatImage(images[|images| - 1])]
  }

  function ChatBody(ch: Chunk): Json {
    Obj(map["content" := Str(ch.content), "images" := List(ChatImages(ch.images)),
            "tool_calls" := List(ChatTools(ch.toolDeltas))])
  }

  function ChatChoice(ch: Chunk): Json {
    Obj(map["delta" := ChatBody(ch), "finish_reason" := Str(ch.finish)])
  }

  function ChatChoices(chunks: seq<Chunk>): seq<Json> {
    if chunks == [] then [] else [ChatChoice(chunks[0])] + ChatChoices(chunks[1..])
  }

  /** Chunks as the chat interface sends them, one choice each. */
  function ChatEvent(chunks: seq<Chunk>): Fields {
    map["choices" := List(ChatChoices(chunks))]
  }

  lemma {:induction false} ChatToolsParse(tds: seq<ToolDelta>)
    ensures ChatToolDeltas(ChatTools(tds)) == tds
  {
    if tds != [] {
      ChatToolParses(tds[0], ChatTools(tds[1..]));
      ChatToolsParse(tds[1..]);
      assert tds == [tds[0]] + tds[1..];
    }
  }

  lemma ChatToolParses(td: ToolDelta, rest: seq<Json>)
    ensures ChatToolDeltas([ChatTool(td)] + rest) == [td] + ChatToolDeltas(rest)
  {
    var items := [ChatTool(td)] + rest;
    assert items[0] == ChatTool(td) && items[1..] == rest;
    var m := items[0].fields;
    assert m["function"].Obj? && IntAt(m, "index") == td.index;
  }

  lemma NoImageInTool(td: ToolDelta)
    ensures Recognised(ChatTool(td)) == {}
  {
    var fields := ChatTool(td).fields;
    assert fields["function"].fields.Keys == {"name", "arguments"};
    NoImageInObject(fields["function"]);
    assert fields.Keys == {"index", "id", "function"};
    NoImageInObject(ChatTool(td));
  }

  lemma {:induction false} NoImageInTools(tds: seq<ToolDelta>)
    ensures forall i :: 0 <= i < |ChatTools(tds)| ==> Recognised(ChatTools(tds)[i]) == {}
  {
    if tds != [] {
      NoImageInTool(tds[0]);
      NoImageInTools(tds[1..]);
    }
  }

  /** Images with URLs that are recognised as they are. */
  predicate Sendable(images: seq<Image>) {
    forall i :: 0 <= i < |images| ==> LooksImageUrl(images[i].url) && TrimSpace(images[i].url) == images[i].url
  }

  lemma ChatImageIsRecognised(image: Image)
    requires Sendable([image])
    ensures SingleImage(ChatImage(image)).Some? && SingleImage(ChatImage(image)).value.url == image.url
    ensures Recognised(ChatImage(image)) == {image.url}
  {
    assert [image][0] == image;
    var fields := ChatImage(image).fields;
    var nested := fields["image_url"].fields;
    assert fields.Keys == {"image_url"} && nested.Keys == {"url"};
    assert Recognised(nested["url"]) == {};
    assert SingleImage(ChatImage(image)) == ImageFromUrlMap(nested, TrimmedStrAt(fields, "media_type"));
    assert OwnUrl(fields["image_url"]) <= {image.url};
    assert Recognised(fields["image_url"]) <= {image.url};
  }

  lemma {:induction false} ChatImagesAreRecognised(images: seq<Image>)
    requires Sendable(images)
    ensures Recognised(List(ChatImages(images))) == Urls(images)
    ensures FirstImage(ChatImages(images)) == if images == [] then None else SingleImage(ChatImage(images[0]))
  {
    if images != [] {
      var n := |images| - 1;
      ChatImagesAreRecognised(images[..n]);
      assert [images[n]][0] == images[n];
      ChatImageIsRecognised(images[n]);
      UrlsLast(images);
      RecognisedInLonger(ChatImages(images[..n]), ChatImage(images[n]));
      FirstOfLonger(ChatImages(images[..n]), ChatImage(images[n]));
    }
  }

  lemma RecognisedInLonger(items: seq<Json>, item: Json)
    ensures Recognised(List(items + [item])) == Recognised(List(items)) + Recognised(item)
  {
    InListOneMore(items + [item], |items|);
    assert (items + [item])[..|items| + 1] == items + [item] && (items + [item])[..|items|] == items;
  }

  lemma {:induction false} FirstOfLonger(items: seq<Json>, item: Json)
    requires item.Obj?
    ensures FirstImage(items + [item]) == if FirstImage(items).Some? then FirstImage(items) else SingleImage(item)
  {
    if items == [] {
      assert items + [item] == [item];
      assert FirstImage([item][1..]) == None;
    } else {
      assert (items + [item])[1..] == items[1..] + [item];
      FirstOfLonger(items[1..], item);
    }
  }

  lemma NoImageInToolList(ch: Chunk)
    ensures Recognised(ChatBody(ch).fields["tool_calls"]) == {}
  {
    NoImageInTools(ch.toolDeltas);
    NoImageInList(ChatTools(ch.toolDeltas));
    assert ChatBody(ch).fields["tool_calls"] == List(ChatTools(ch.toolDeltas));
  }

  /** An object with no other key an image comes under. */
  lemma ListedImageOnly(v: Json, items: seq<Json>)
    requires v.Obj? && "images" in v.fields && v.fields["images"] == List(items)
    requires "image_url" !in v.fields && "b64_json" !in v.fields && "url" !in v.fields
    ensures SingleImage(v) == FirstImage(items)
  {
  }

  /** The delta itself is taken for its first image. */
  lemma BodyItself(ch: Chunk)
    requires Sendable(ch.images)
    ensures OwnUrl(ChatBody(ch)) <= Urls(ch.images)
  {
    var fields := ChatBody(ch).fields;
    assert fields.Keys == {"content", "images", "tool_calls"};
    ListedImageOnly(ChatBody(ch), ChatImages(ch.images));
    ChatImagesAreRecognised(ch.images);
    if ch.images != [] {
      assert [ch.images[0]][0] == ch.images[0];
      ChatImageIsRecognised(ch.images[0]);
    }
  }

  lemma UnderThree(v: Json, a: string, b: string, c: string)
    requires v.Obj? && v.fields.Keys == {a, b, c}
    ensures Recognised(v) == OwnUrl(v) + Recognised(v.fields[a]) + Recognised(v.fields[b]) + Recognised(v.fields[c])
  {
  }

  /** What is recognised in a delta are the images sent with it. */
  lemma ImagesInBody(ch: Chunk)
    requires Sendable(ch.images)
    ensures Recognised(ChatBody(ch)) == Urls(ch.images)
  {
    BodyItself(ch);
    NoImageInToolList(ch);
    ChatImagesAreRecognised(ch.images);
    UnderThree(ChatBody(ch), "content", "images", "tool_calls");
    assert Recognised(ChatBody(ch).fields["content"]) == {};
  }

  /** A chunk as it was sent; of images the URLs. */
  predicate Carries(got: Chunk, sent: Chunk) {
    got.content == sent.content && got.toolDeltas == sent.toolDeltas && got.finish == sent.finish &&
      Urls(got.images) == Urls(sent.images)
  }

  predicate AllCarry(got: seq<Chunk>, sent: seq<Chunk>) {
    |got| == |sent| && forall i :: 0 <= i < |got| ==> Carries(got[i], sent[i])
  }

  predicate AllSendable(chunks: seq<Chunk>) {
    forall i :: 0 <= i < |chunks| ==> Sendable(chunks[i].images)
  }

  lemma ChatChoiceParses(ch: Chunk, rest: seq<Json>, find: ImageFinder)
    ensures ChatChunks([ChatChoice(ch)] + rest, find) == [ch.(images := find(ChatBody(ch)))] + ChatChunks(rest, find)
  {
    var choices := [ChatChoice(ch)] + rest;
    assert choices[0] == ChatChoice(ch) && choices[1..] == rest;
    var cm := choices[0].fields;
    assert cm["delta"] == ChatBody(ch);
    ChatToolsParse(ch.toolDeltas);
    assert StrAt(cm, "finish_reason") == ch.finish && StrAt(cm["delta"].fields, "content") == ch.content;
  }

  lemma {:induction false} ChatChoicesParse(chunks: seq<Chunk>, find: ImageFinder)
    requires FindsRecognised(find) && AllSendable(chunks)
    ensures AllCarry(ChatChunks(ChatChoices(chunks), find), chunks)
  {
    if chunks != [] {
      ChatChoiceParses(chunks[0], ChatChoices(chunks[1..]), find);
      ImagesInBody(chunks[0]);
      ChatChoicesParse(chunks[1..], find);
    }
  }

  /** What was sent as a chat event is read back choice by choice: text, tool deltas, finish reason, and the
      URLs of its images. */
  lemma ChatEventReadsBack(chunks: seq<Chunk>, find: ImageFinder, encode: Encoder)
    requires FindsRecognised(find) && AllSendable(chunks)
    ensures var parsed := ParseChunk(ChatEvent(chunks), find, encode); parsed.Ok? && AllCarry(parsed.value, chunks)
  {
    ChatChoicesParse(chunks, find);
  }

  function ChatEvents(batches: seq<seq<Chunk>>): seq<Fields> {
    if batches == [] then [] else [ChatEvent(batches[0])] + ChatEvents(batches[1..])
  }

  function Flat(batches: seq<seq<Chunk>>): seq<Chunk> {
    if batches == [] then [] else batches[0] + Flat(batches[1..])
  }

  lemma {:induction false} ChatEventsReadBack(batches: seq<seq<Chunk>>, find: ImageFinder, encode: Encoder,
          parse: Parser)
    requires FindsRecognised(find) && parse == (raw => ParseChunk(raw, find, encode))
    requires forall i :: 0 <= i < |batches| ==> AllSendable(batches[i])
    ensures AllCarry(AllChunks(ChatEvents(batches), parse), Flat(batches))
    decreases |batches|
  {
    if batches != [] {
      ChatEventReadsBack(batches[0], find, encode);
      ChatEventsReadBack(batches[1..], find, encode, parse);
      assert ChatEvents(batches)[1..] == ChatEvents(batches[1..]);
    }
  }

  lemma {:induction false} CarriedAlike(got: seq<Chunk>, sent: seq<Chunk>)
    requires AllCarry(got, sent)
    ensures Contents(got) == Contents(sent) && Deltas(got) == Deltas(sent)
  {
    if got != [] {
      assert Carries(got[0], sent[0]);
      CarriedAlike(got[1..], sent[1..]);
    }
    assert forall i :: 0 <= i < |got| ==> Carries(got[i], sent[i]) && got[i].content == sent[i].content;
  }

  lemma {:induction false} CarriedImages(got: seq<Chunk>, sent: seq<Chunk>)
    requires AllCarry(got, sent)
    ensures Urls(AllImages(got)) == Urls(AllImages(sent))
  {
    if got != [] {
      var n := |got| - 1;
      assert Carries(got[n], sent[n]);
      CarriedImages(got[..n], sent[..n]);
      UrlsAppend(AllImages(got[..n]), got[n].images);
      UrlsAppend(AllImages(sent[..n]), sent[n].images);
    }
  }

  /** A whole chat stream: its text is what was sent, put together, exactly if no piece begins with all
      the text before it; the call at an index is made of the deltas sent for that index alone; and the
      images kept are those sent, each URL once. */
  lemma ChatStreamYields(batches: seq<seq<Chunk>>, find: ImageFinder, encode: Encoder, index: int)
    requires FindsRecognised(find) && forall i :: 0 <= i < |batches| ==> AllSendable(batches[i])
    ensures var chunks := AllChunks(ChatEvents(batches), raw => ParseChunk(raw, find, encode));
      var sent, calls, kept := Flat(batches), AddDeltas(map[], Deltas(chunks)), FirstByUrl(AllImages(chunks));
      var own := ForIndex(Deltas(sent), index);
      && (FoldText("", Contents(chunks)) == Concat(Contents(sent)) <==> NoneAbsorbed("", Contents(sent)))
      && (index in calls <==> own != [])
      && (own != [] ==> calls[index] == Call(LastId(own), LastName(own), ArgsOf(own)))
      && Urls(kept) == Urls(AllImages(sent)) - {""}
      && forall i, j :: 0 <= i < j < |kept| ==> kept[i].url != kept[j].url
  {
    var sent := Flat(batches);
    ChatEventsReadBack(batches, find, encode, raw => ParseChunk(raw, find, encode));
    var chunks := AllChunks(ChatEvents(batches), raw => ParseChunk(raw, find, encode));
    CarriedAlike(chunks, sent);
    CarriedImages(chunks, sent);
    PlainConcatenationIff("", Contents(sent));
    assert "" + Concat(Contents(sent)) == Concat(Contents(sent));
    CallFromOwnDeltas(Deltas(sent), index);
    FirstByUrlKeeps(AllImages(chunks));
  }

  // ---- the parts of a message ----

  /** A text or a refusal, as a message item lists it. */
  datatype Piece = Spoken(text: string) | Declined(text: string)

  function PartOf(piece: Piece): Json {
    match piece
    case Spoken(text) => OutputText(text)
    case Declined(text) => Obj(map["type" := Str("refusal"), "refusal" := Str(text)])
  }

  function PartsOf(pieces: seq<Piece>): seq<Json> {
    if pieces == [] then [] else [PartOf(pieces[0])] + PartsOf(pieces[1..])
  }

  function Texts(pieces: seq<Piece>): seq<string> {
    if pieces == [] then [] else [pieces[0].text] + Texts(pieces[1..])
  }

  lemma OnePartText(piece: Piece, rest: seq<Json>)
    ensures PartsText([PartOf(piece)] + rest) == piece.text + PartsText(rest)
  {
    var parts := [PartOf(piece)] + rest;
    assert parts[0] == PartOf(piece) && parts[1..] == rest;
    assert StrAt(parts[0].fields, "type") == if piece.Spoken? then "output_text" else "refusal";
  }

  /** The text of a message is its texts and refusals, in order. */
  lemma {:induction false} PartsReadBack(pieces: seq<Piece>)
    ensures PartsText(PartsOf(pieces)) == Concat(Texts(pieces))
  {
    if pieces != [] {
      OnePartText(pieces[0], PartsOf(pieces[1..]));
      PartsReadBack(pieces[1..]);
      assert Texts(pieces)[1..] == Texts(pieces[1..]);
    }
  }

  /** Any other part adds nothing, wherever it stands. */
  lemma {:induction false} OtherPartsAddNothing(before: seq<Json>, part: Json, after: seq<Json>)
    requires !part.Obj? || (StrAt(part.fields, "type") != "output_text" && StrAt(part.fields, "type") != "refusal")
    ensures PartsText(before + [part] + after) == PartsText(before + after)
    decreases |before|
  {
    if before == [] {
      assert before + [part] + after == [part] + after && before + after == after;
      assert ([part] + after)[1..] == after;
      assert PartsText([part] + after) == "" + PartsText(after);
    } else {
      var all, rest := before + [part] + after, before + after;
      assert all[0] == rest[0] == before[0];
      assert all[1..] == before[1..] + [part] + after && rest[1..] == before[1..] + after;
      OtherPartsAddNothing(before[1..], part, after);
    }
  }

  // ---- how arguments are streamed ----

  function ArgsDelta(index: real, piece: string): Fields {
    map["type" := Str("response.function_call_arguments.delta"), "output_index" := Num(index), "delta" := Str(piece)]
  }

  function ArgsDone(index: real, args: string): Fields {
    map["type" := Str("response.function_call_arguments.done"), "output_index" := Num(index), "arguments" := Str(args)]
  }

  function JoinArgs(pieces: seq<string>): string {
    if pieces == [] then [] else JoinArgs(pieces[..|pieces| - 1]) + pieces[|pieces| - 1]
  }

  /** Arguments as the Responses interface streams them: pieces, then the whole. */
  function StreamedArgs(index: real, pieces: seq<string>): seq<Fields> {
    seq(|pieces|, i requires 0 <= i < |pieces| => ArgsDelta(index, pieces[i])) + [ArgsDone(index, JoinArgs(pieces))]
  }

  function ArgsPiece(index: real, piece: string): ToolDelta {
    ToolDelta(Truncate(index), "", "", piece)
  }

  lemma ArgsDeltaParses(index: real, piece: string, find: ImageFinder, encode: Encoder)
    ensures OneChunk(ParseChunk(ArgsDelta(index, piece), find, encode), ToolChunk(ArgsPiece(index, piece)))
  {
    ByKind(ArgsDelta(index, piece), "response.function_call_arguments.delta", find, encode);
  }

  lemma ArgsDoneParses(index: real, piece: string, find: ImageFinder, encode: Encoder)
    ensures OneChunk(ParseChunk(ArgsDone(index, piece), find, encode), ToolChunk(ArgsPiece(index, piece)))
  {
    ByKind(ArgsDone(index, piece), "response.function_call_arguments.done", find, encode);
  }

  lemma {:induction false} ToolChunksDeltas(chunks: seq<Chunk>, tds: seq<ToolDelta>)
    requires |chunks| == |tds| && forall i :: 0 <= i < |tds| ==> chunks[i] == ToolChunk(tds[i])
    ensures Deltas(chunks) == tds
  {
    if tds != [] {
      ToolChunksDeltas(chunks[1..], tds[1..]);
      assert tds == [tds[0]] + tds[1..];
    }
  }

  lemma {:induction false} PiecesOfOneIndex(tds: seq<ToolDelta>, pieces: seq<string>, index: real)
    requires |tds| == |pieces| && forall i :: 0 <= i < |tds| ==> tds[i] == ArgsPiece(index, pieces[i])
    ensures ForIndex(tds, Truncate(index)) == tds && ArgsOf(tds) == JoinArgs(pieces)
    decreases |tds|
  {
    if tds != [] {
      var n := |tds| - 1;
      PiecesOfOneIndex(tds[..n], pieces[..n], index);
      assert tds == tds[..n] + [tds[n]];
    }
  }

  /** Arguments have no such protection: streamed in pieces and then repeated by the "done" event,
      they always end up in the call twice. */
  lemma StreamedArgsComeOutTwice(index: real, pieces: seq<string>, find: ImageFinder, encode: Encoder)
    ensures
      var calls := AddDeltas(map[],
        Deltas(AllChunks(StreamedArgs(index, pieces), raw => ParseChunk(raw, find, encode))));
      Truncate(index) in calls && calls[Truncate(index)].args == JoinArgs(pieces) + JoinArgs(pieces)
  {
    var parse: Parser := raw => ParseChunk(raw, find, encode);
    var all := pieces + [JoinArgs(pieces)];
    var events := StreamedArgs(index, pieces);
    var tds := seq(|all|, i requires 0 <= i < |all| => ArgsPiece(index, all[i]));
    var chunks := seq(|all|, i requires 0 <= i < |all| => ToolChunk(tds[i]));
    forall i | 0 <= i < |events|
      ensures OneChunk(parse(events[i]), chunks[i])
    {
      ArgsDeltaParses(index, all[i], find, encode);
      ArgsDoneParses(index, all[i], find, encode);
    }
    ChunkByChunk(events, chunks, parse);
    ToolChunksDeltas(chunks, tds);
    PiecesOfOneIndex(tds, all, index);
    CallFromOwnDeltas(tds, Truncate(index));
    assert all[..|pieces|] == pieces;
  }
}
