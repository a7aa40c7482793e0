/** The brace scanner that digs a JSON object out of free text.
    It never parses JSON: it counts braces outside string literals. The grammar below says which
    segments that accepts, and every object printed by the JSON grammar is one of them.
    Printing functions take the text that follows, so that they only ever put characters in front. */
module JsonScan {
  import opened Basics

  // ---- the scanner ----

  /** What the scanner remembers between two characters. */
  datatype Mode = Mode(depth: int, inString: bool, escaped: bool)

  const CODE: Mode := Mode(0, false, false)

  function Code(depth: int): Mode { Mode(depth, false, false) }

  function Quote(depth: int): Mode { Mode(depth, true, false) }

  /** The mode after one more character; depth zero outside a string closes the object. */
  function Step(m: Mode, c: char): Mode {
    if m.inString then
      if m.escaped then m.(escaped := false)
      else if c == '\\' then m.(escaped := true)
      else if c == '"' then m.(inString := false)
      else m
    else if c == '"' then m.(inString := true)
    else if c == '{' then m.(depth := m.depth + 1)
    else if c == '}' then m.(depth := m.depth - 1)
    else m
  }

  predicate Closes(m: Mode, c: char) {
    c == '}' && !m.inString && m.depth == 1
  }

  /** The text left over once the brace depth has returned to zero, if it ever does. */
  function Scan(s: string, m: Mode): (rest: Option<string>)
    ensures rest.Some? ==> |rest.value| < |s|
  {
    if s == [] then None
    else if Closes(m, s[0]) then Some(s[1..])
    else Scan(s[1..], Step(m, s[0]))
  }

  /** strings.IndexByte for an opening brace, as an offset or the length of the text. */
  function FirstBrace(text: string): (i: nat)
    ensures i <= |text| && (i < |text| ==> text[i] == '{')
  {
    if text == [] || text[0] == '{' then 0 else 1 + FirstBrace(text[1..])
  }

  lemma {:induction false} NoBraceBefore(text: string)
    ensures '{' !in text[..FirstBrace(text)]
  {
    if text != [] && text[0] != '{' {
      NoBraceBefore(text[1..]);
      var i := FirstBrace(text);
      assert text[..i] == [text[0]] + text[1..][..i - 1];
    }
  }

  function Extracted(text: string): Option<string> {
    var start := FirstBrace(text);
    var rest := Scan(text[start..], CODE);
    if rest.None? then None else Some(text[start..|text| - |rest.value|])
  }

  /** A slice between braces has no white space to trim. */
  function CutOut(text: string, start: nat, end: nat): (obj: string)
    requires start < end <= |text| && text[start] == '{' && text[end - 1] == '}'
    ensures obj == text[start..end]
  {
    TrimSpaceTrims(text[start..end]);
    TrimSpace(text[start..end])
  }

  /** strings.Index for it. */
  method IndexBrace(text: string) returns (start: nat)
    ensures start == FirstBrace(text)
  {
    start := 0;
    assert text[start..] == text;
    while start < |text| && text[start] != '{'
      invariant 0 <= start <= |text|
      invariant FirstBrace(text) == start + FirstBrace(text[start..])
    {
      assert text[start..][1..] == text[start + 1..];
      start := start + 1;
    }
  }

  method ExtractJsonObject(text: string) returns (r: Option<string>)
    ensures r == Extracted(text)
  {
    var start := IndexBrace(text);
    if start == |text| {
      assert text[start..] == [];
      return None;
    }
    var depth, inString, escaped := 0, false, false;
    var i := start;
    ghost var whole := Scan(text[start..], CODE);
    while i < |text|
      invariant start <= i <= |text|
      invariant whole == Scan(text[i..], Mode(depth, inString, escaped))
    {
      var ch := text[i];
      ghost var m := Mode(depth, inString, escaped);
      assert text[i..] == [ch] + text[i + 1..];
      ScanOne(ch, text[i + 1..], m);
      if inString {
        if escaped {
          escaped := false;
        } else if ch == '\\' {
          escaped := true;
        } else if ch == '"' {
          inString := false;
        }
      } else if ch == '"' {
        inString := true;
      } else if ch == '{' {
        depth := depth + 1;
      } else if ch == '}' {
        depth := depth - 1;
        if depth == 0 {
          assert whole == Some(text[i + 1..]);
          return Some(CutOut(text, start, i + 1));
        }
      }
      assert Mode(depth, inString, escaped) == Step(m, ch);
      i := i + 1;
    }
    assert text[i..] == [];
    return None;
  }

  // ---- the segments it accepts ----

  /** One step inside a string literal: a character, or a backslash with the character it escapes. */
  datatype StrPart = Raw(c: char) | Escaped(c: char)

  /** What may stand between two matching braces. */
  datatype Items =
    | End
    | Plain(c: char, rest: Items)
    | Quoted(parts: seq<StrPart>, rest: Items)
    | Group(inner: Items, rest: Items)

  predicate GoodPart(p: StrPart) {
    p.Raw? ==> p.c != '"' && p.c != '\\'
  }

  predicate GoodParts(ps: seq<StrPart>) {
    forall i :: 0 <= i < |ps| ==> GoodPart(ps[i])
  }

  predicate Good(it: Items) {
    match it
    case End => true
    case Plain(c, rest) => c != '"' && c != '{' && c != '}' && Good(rest)
    case Quoted(ps, rest) => GoodParts(ps) && Good(rest)
    case Group(inner, rest) => Good(inner) && Good(rest)
  }

  function Part(p: StrPart, tail: string): string {
    match p
    case Raw(c) => [c] + tail
    case Escaped(c) => ['\\'] + ([c] + tail)
  }

  function Parts(ps: seq<StrPart>, tail: string): string {
    if ps == [] then tail else Part(ps[0], Parts(ps[1..], tail))
  }

  function Text(it: Items, tail: string): string {
    match it
    case End => tail
    case Plain(c, rest) => [c] + Text(rest, tail)
    case Quoted(ps, rest) => ['"'] + Parts(ps, ['"'] + Text(rest, tail))
    case Group(inner, rest) => ['{'] + Text(inner, ['}'] + Text(rest, tail))
  }

  /** A brace-balanced segment. */
  function Segment(it: Items): string {
    ['{'] + Text(it, ['}'])
  }

  lemma ScanOne(c: char, s: string, m: Mode)
    ensures Scan([c] + s, m) == if Closes(m, c) then Some(s) else Scan(s, Step(m, c))
  {
    assert ([c] + s)[1..] == s;
  }

  lemma {:induction false} ScanParts(ps: seq<StrPart>, depth: int, tail: string)
    requires GoodParts(ps)
    ensures Scan(Parts(ps, ['"'] + tail), Quote(depth)) == Scan(tail, Code(depth))
  {
    if ps == [] {
      ScanOne('"', tail, Quote(depth));
    } else {
      var c, rest := ps[0].c, Parts(ps[1..], ['"'] + tail);
      ScanParts(ps[1..], depth, tail);
      if ps[0].Raw? {
        ScanOne(c, rest, Quote(depth));
      } else {
        ScanOne('\\', [c] + rest, Quote(depth));
        ScanOne(c, rest, Quote(depth).(escaped := true));
      }
    }
  }

  lemma ScanLiteral(ps: seq<StrPart>, depth: int, after: string)
    requires GoodParts(ps)
    ensures Scan(['"'] + Parts(ps, ['"'] + after), Code(depth)) == Scan(after, Code(depth))
  {
    ScanOne('"', Parts(ps, ['"'] + after), Code(depth));
    ScanParts(ps, depth, after);
  }

  lemma ScanBraces(body: string, depth: int, after: string)
    requires depth >= 1
    requires Scan(body, Code(depth + 1)) == Scan(['}'] + after, Code(depth + 1))
    ensures Scan(['{'] + body, Code(depth)) == Scan(after, Code(depth))
  {
    ScanOne('{', body, Code(depth));
    ScanOne('}', after, Code(depth + 1));
  }

  lemma {:induction false} ScanItems(it: Items, depth: int, tail: string)
    requires Good(it) && depth >= 1
    ensures Scan(Text(it, tail), Code(depth)) == Scan(tail, Code(depth))
  {
    match it
    case End =>
    case Plain(c, rest) =>
      ScanOne(c, Text(rest, tail), Code(depth));
      ScanItems(rest, depth, tail);
    case Quoted(ps, rest) =>
      ScanLiteral(ps, depth, Text(rest, tail));
      ScanItems(rest, depth, tail);
    case Group(inner, rest) =>
      var after := Text(rest, tail);
      ScanItems(rest, depth, tail);
      ScanItems(inner, depth + 1, ['}'] + after);
      ScanBraces(Text(inner, ['}'] + after), depth, after);
  }

  lemma {:induction false} PartsAppend(ps: seq<StrPart>, a: string, b: string)
    ensures Parts(ps, a + b) == Parts(ps, a) + b
  {
    if ps != [] {
      PartsAppend(ps[1..], a, b);
      PartAppend(ps[0], Parts(ps[1..], a), b);
    }
  }

  lemma PartAppend(p: StrPart, a: string, b: string)
    ensures Part(p, a + b) == Part(p, a) + b
  {
    assert [p.c] + (a + b) == ([p.c] + a) + b;
    assert ['\\'] + (([p.c] + a) + b) == (['\\'] + ([p.c] + a)) + b;
  }

  lemma {:induction false} TextAppend(it: Items, a: string, b: string)
    ensures Text(it, a + b) == Text(it, a) + b
  {
    match it
    case End =>
    case Plain(c, rest) =>
      TextAppend(rest, a, b);
      assert [c] + (Text(rest, a) + b) == ([c] + Text(rest, a)) + b;
    case Quoted(ps, rest) =>
      TextAppend(rest, a, b);
      var after := Text(rest, a);
      assert ['"'] + (after + b) == (['"'] + after) + b;
      PartsAppend(ps, ['"'] + after, b);
      var body := Parts(ps, ['"'] + after);
      assert ['"'] + (body + b) == (['"'] + body) + b;
    case Group(inner, rest) =>
      TextAppend(rest, a, b);
      var after := Text(rest, a);
      assert ['}'] + (after + b) == (['}'] + after) + b;
      TextAppend(inner, ['}'] + after, b);
      var body := Text(inner, ['}'] + after);
      assert ['{'] + (body + b) == (['{'] + body) + b;
  }

  lemma {:induction false} FirstBraceAfter(pre: string, s: string)
    requires '{' !in pre && s != [] && s[0] == '{'
    ensures FirstBrace(pre + s) == |pre|
  {
    if pre == [] {
      assert pre + s == s;
    } else {
      assert pre[0] in pre;
      assert (pre + s)[1..] == pre[1..] + s;
      FirstBraceAfter(pre[1..], s);
    }
  }

  /** Whatever stands around it, the first balanced segment is what comes out. */
  lemma SegmentExtracted(pre: string, it: Items, post: string)
    requires '{' !in pre && Good(it)
    ensures Extracted(pre + Segment(it) + post) == Some(Segment(it))
  {
    var s := Segment(it) + post;
    var text := pre + s;
    assert pre + Segment(it) + post == text;
    FirstBraceAfter(pre, s);
    assert text[|pre|..] == s;
    TextAppend(it, ['}'], post);
    assert s == ['{'] + Text(it, ['}'] + post);
    ScanOne('{', Text(it, ['}'] + post), CODE);
    ScanItems(it, 1, ['}'] + post);
    ScanOne('}', post, Code(1));
    assert text[|pre|..|pre| + |Segment(it)|] == Segment(it);
  }

  // ---- conversely, everything it returns is such a segment ----

  /** Reads back the rest of a string literal the scanner has walked through. */
  lemma {:induction false} ReadString(s: string, depth: int) returns (ps: seq<StrPart>, tail: string)
    requires Scan(s, Quote(depth)).Some?
    ensures GoodParts(ps) && s == Parts(ps, ['"'] + tail) && |tail| < |s|
    decreases |s|
  {
    assert s == [s[0]] + s[1..];
    if s[0] == '"' {
      ps, tail := [], s[1..];
    } else if s[0] == '\\' {
      var t := s[1..];
      assert t == [t[0]] + t[1..];
      var ps', tail' := ReadString(t[1..], depth);
      ps, tail := [Escaped(t[0])] + ps', tail';
      assert ps[1..] == ps';
    } else {
      var ps', tail' := ReadString(s[1..], depth);
      ps, tail := [Raw(s[0])] + ps', tail';
      assert ps[1..] == ps';
    }
  }

  /** The contents of the open groups, innermost first, each followed by its closing brace. */
  datatype Frames = Outside | Frame(items: Items, outer: Frames)

  function Depth(fs: Frames): nat {
    match fs
    case Outside => 0
    case Frame(_, outer) => 1 + Depth(outer)
  }

  predicate GoodFrames(fs: Frames) {
    fs.Frame? ==> Good(fs.items) && GoodFrames(fs.outer)
  }

  function FramesText(fs: Frames, tail: string): string {
    match fs
    case Outside => tail
    case Frame(it, outer) => Text(it, ['}'] + FramesText(outer, tail))
  }

  lemma {:induction false} ReadFrames(s: string, depth: int) returns (fs: Frames)
    requires depth >= 1 && Scan(s, Code(depth)).Some?
    ensures Depth(fs) == depth && GoodFrames(fs)
    ensures s == FramesText(fs, Scan(s, Code(depth)).value)
    decreases |s|
  {
    assert s == [s[0]] + s[1..];
    if s[0] == '}' {
      if depth == 1 {
        fs := Frame(End, Outside);
      } else {
        var fs' := ReadFrames(s[1..], depth - 1);
        fs := Frame(End, fs');
      }
    } else if s[0] == '{' {
      var fs' := ReadFrames(s[1..], depth + 1);
      assert fs'.outer.Frame?;
      fs := Frame(Group(fs'.items, fs'.outer.items), fs'.outer.outer);
    } else if s[0] == '"' {
      var ps, tail := ReadString(s[1..], depth);
      ScanParts(ps, depth, tail);
      var fs' := ReadFrames(tail, depth);
      fs := Frame(Quoted(ps, fs'.items), fs'.outer);
    } else {
      var fs' := ReadFrames(s[1..], depth);
      fs := Frame(Plain(s[0], fs'.items), fs'.outer);
    }
  }

  /** Where scanning from a brace succeeds, a balanced segment stands. */
  lemma ScannedIsSegment(s: string) returns (it: Items, post: string)
    requires s != [] && s[0] == '{' && Scan(s, CODE).Some?
    ensures Good(it) && s == Segment(it) + post && post == Scan(s, CODE).value
  {
    post := Scan(s, CODE).value;
    assert s == ['{'] + s[1..];
    var fs := ReadFrames(s[1..], 1);
    assert fs.outer == Outside;
    it := fs.items;
    TextAppend(it, ['}'], post);
  }

  lemma SegmentAtFirstBrace(text: string) returns (it: Items, post: string)
    requires Extracted(text).Some?
    ensures Good(it) && text == text[..FirstBrace(text)] + Segment(it) + post
  {
    var start := FirstBrace(text);
    it, post := ScannedIsSegment(text[start..]);
    var pre, seg := text[..start], Segment(it);
    assert text == pre + text[start..];
    assert pre + (seg + post) == pre + seg + post;
  }

  /** A result is always the balanced segment that starts at the first opening brace. */
  lemma ExtractedIsSegment(text: string) returns (pre: string, it: Items, post: string)
    requires Extracted(text).Some?
    ensures '{' !in pre && Good(it) && text == pre + Segment(it) + post
    ensures Extracted(text) == Some(Segment(it))
  {
    pre := text[..FirstBrace(text)];
    NoBraceBefore(text);
    it, post := SegmentAtFirstBrace(text);
    SegmentExtracted(pre, it, post);
  }

  /** The scanner succeeds exactly on texts whose first opening brace starts a balanced segment. */
  lemma ExtractedIff(text: string, obj: string)
    ensures Extracted(text) == Some(obj) <==>
            exists pre, it, post :: '{' !in pre && Good(it) && obj == Segment(it) && text == pre + Segment(it) + post
  {
    if Extracted(text) == Some(obj) {
      var pre, it, post := ExtractedIsSegment(text);
    } else if exists pre, it, post ::
      '{' !in pre && Good(it) && obj == Segment(it) && text == pre + Segment(it) + post {
      var pre, it, post :| '{' !in pre && Good(it) && obj == Segment(it) && text == pre + Segment(it) + post;
      SegmentExtracted(pre, it, post);
    }
  }

  /** No shorter balanced segment starts where the result starts: balanced segments are prefix-free. */
  lemma SegmentsArePrefixFree(a: Items, b: Items, rest: string)
    requires Good(a) && Good(b) && Segment(b) + rest == Segment(a)
    ensures rest == []
  {
    TextAppend(b, ['}'], rest);
    assert ['}'] + [] == ['}'];
    assert Segment(a)[1..] == Text(a, ['}']);
    assert (Segment(b) + rest)[1..] == Text(b, ['}'] + rest);
    ScanItems(a, 1, ['}'] + []);
    ScanItems(b, 1, ['}'] + rest);
    ScanOne('}', [], Code(1));
    ScanOne('}', rest, Code(1));
  }

  // ---- printed JSON objects (RFC 8259, sections 2 to 7) ----

  datatype StringChar =
    | Unescaped(c: char)
    | Short(c: char)
    | Unicode(h1: char, h2: char, h3: char, h4: char)

  datatype Value =
    | Literal(name: string)
    | Number(digits: string)
    | String(chars: seq<StringChar>)
    | Array(ws: string, elems: Elems)
    | Object(ws: string, members: Members)

  datatype Elems = NoElems | Elem(before: string, value: Value, after: string, more: Elems)

  datatype Members =
    | NoMembers
    | Member(before: string, name: seq<StringChar>, colonBefore: string, colonAfter: string,
             value: Value, after: string, more: Members)

  predicate Whitespace(s: string) {
    forall i :: 0 <= i < |s| ==> s[i] == ' ' || s[i] == '\t' || s[i] == '\n' || s[i] == '\r'
  }

  predicate NumberChars(s: string) {
    forall i :: 0 <= i < |s| ==>
      '0' <= s[i] <= '9' || s[i] == '-' || s[i] == '+' || s[i] == '.' || s[i] == 'e' || s[i] == 'E'
  }

  predicate HexDigit(c: char) {
    '0' <= c <= '9' || 'a' <= c <= 'f' || 'A' <= c <= 'F'
  }

  predicate GoodChar(ch: StringChar) {
    match ch
    case Unescaped(c) => c >= ' ' && c != '"' && c != '\\'
    case Short(c) => c in "\"\\/bfnrt"
    case Unicode(h1, h2, h3, h4) => HexDigit(h1) && HexDigit(h2) && HexDigit(h3) && HexDigit(h4)
  }

  predicate GoodChars(cs: seq<StringChar>) {
    forall i :: 0 <= i < |cs| ==> GoodChar(cs[i])
  }

  predicate GoodValue(v: Value) {
    match v
    case Literal(name) => name == "true" || name == "false" || name == "null"
    case Number(digits) => NumberChars(digits)
    case String(cs) => GoodChars(cs)
    case Array(ws, es) => Whitespace(ws) && GoodElems(es)
    case Object(ws, ms) => Whitespace(ws) && GoodMembers(ms)
  }

  predicate GoodElems(es: Elems) {
    match es
    case NoElems => true
    case Elem(b, v, a, more) => Whitespace(b) && GoodValue(v) && Whitespace(a) && GoodElems(more)
  }

  predicate GoodMembers(ms: Members) {
    match ms
    case NoMembers => true
    case Member(b, name, cb, ca, v, a, more) =>
      Whitespace(b) && GoodChars(name) && Whitespace(cb) && Whitespace(ca) && GoodValue(v) && Whitespace(a) &&
        GoodMembers(more)
  }

  function CharParts(ch: StringChar): seq<StrPart> {
    match ch
    case Unescaped(c) => [Raw(c)]
    case Short(c) => [Escaped(c)]
    case Unicode(h1, h2, h3, h4) => [Escaped('u'), Raw(h1), Raw(h2), Raw(h3), Raw(h4)]
  }

  function PrintChar(ch: StringChar, tail: string): string {
    match ch
    case Unescaped(c) => [c] + tail
    case Short(c) => ['\\'] + ([c] + tail)
    case Unicode(h1, h2, h3, h4) => ['\\'] + (['u'] + ([h1] + ([h2] + ([h3] + ([h4] + tail)))))
  }

  function PrintChars(cs: seq<StringChar>, tail: string): string {
    if cs == [] then tail else PrintChar(cs[0], PrintChars(cs[1..], tail))
  }

  function Print(v: Value, tail: string): string {
    match v
    case Literal(name) => name + tail
    case Number(digits) => digits + tail
    case String(cs) => ['"'] + PrintChars(cs, ['"'] + tail)
    case Array(ws, es) => ['['] + (if es.NoElems? then ws + ([']'] + tail) else PrintElems(es, [']'] + tail))
    case Object(ws, ms) => ['{'] + (if ms.NoMembers? then ws + (['}'] + tail) else PrintMembers(ms, ['}'] + tail))
  }

  function PrintElems(es: Elems, tail: string): string {
    match es
    case NoElems => tail
    case Elem(b, v, a, more) => b + Print(v, a + (if more.NoElems? then tail else [','] + PrintElems(more, tail)))
  }

  function PrintMembers(ms: Members, tail: string): string {
    match ms
    case NoMembers => tail
    case Member(b, name, cb, ca, v, a, more) =>
      b + (['"'] + PrintChars(name, ['"'] + (cb + ([':'] + (ca + Print(v,
        a + (if more.NoMembers? then tail else [','] + PrintMembers(more, tail))))))))
  }

  function PlainItems(s: string, rest: Items): Items {
    if s == [] then rest else Plain(s[0], PlainItems(s[1..], rest))
  }

  function AllParts(cs: seq<StringChar>): seq<StrPart> {
    if cs == [] then [] else CharParts(cs[0]) + AllParts(cs[1..])
  }

  /** The items a printed value is read as, followed by further items. */
  function ValueItems(v: Value, rest: Items): Items {
    match v
    case Literal(name) => PlainItems(name, rest)
    case Number(digits) => PlainItems(digits, rest)
    case String(cs) => Quoted(AllParts(cs), rest)
    case Array(ws, es) =>
      var close := Plain(']', rest);
      Plain('[', if es.NoElems? then PlainItems(ws, close) else ElemsItems(es, close))
    case Object(ws, ms) =>
      Group(if ms.NoMembers? then PlainItems(ws, End) else MembersItems(ms), rest)
  }

  function ElemsItems(es: Elems, rest: Items): Items {
    match es
    case NoElems => rest
    case Elem(b, v, a, more) =>
      PlainItems(b, ValueItems(v, PlainItems(a, if more.NoElems? then rest else Plain(',', ElemsItems(more, rest)))))
  }

  function MembersItems(ms: Members): Items {
    match ms
    case NoMembers => End
    case Member(b, name, cb, ca, v, a, more) =>
      var value := PlainItems(ca,
        ValueItems(v, PlainItems(a, if more.NoMembers? then End else Plain(',', MembersItems(more)))));
      PlainItems(b, Quoted(AllParts(name), PlainItems(cb, Plain(':', value))))
  }

  predicate NoSyntax(s: string) {
    forall i :: 0 <= i < |s| ==> s[i] != '"' && s[i] != '{' && s[i] != '}'
  }

  lemma {:induction false} PlainItemsText(s: string, rest: Items, tail: string)
    requires NoSyntax(s) && Good(rest)
    ensures Good(PlainItems(s, rest)) && Text(PlainItems(s, rest), tail) == s + Text(rest, tail)
  {
    if s == [] {
      assert s + Text(rest, tail) == Text(rest, tail);
    } else {
      PlainItemsText(s[1..], rest, tail);
      assert s + Text(rest, tail) == [s[0]] + (s[1..] + Text(rest, tail));
    }
  }

  lemma {:induction false} PartsOfTwo(a: seq<StrPart>, b: seq<StrPart>, tail: string)
    ensures Parts(a + b, tail) == Parts(a, Parts(b, tail))
  {
    if a == [] {
      assert a + b == b;
    } else {
      assert (a + b)[1..] == a[1..] + b;
      PartsOfTwo(a[1..], b, tail);
    }
  }

  lemma CharPartsText(ch: StringChar, tail: string)
    requires GoodChar(ch)
    ensures GoodParts(CharParts(ch)) && Parts(CharParts(ch), tail) == PrintChar(ch, tail)
  {
    var ps := CharParts(ch);
    if ch.Unicode? {
      var t4, t3 := [Raw(ch.h4)], [Raw(ch.h3), Raw(ch.h4)];
      var t2, t1 := [Raw(ch.h2), Raw(ch.h3), Raw(ch.h4)], [Raw(ch.h1), Raw(ch.h2), Raw(ch.h3), Raw(ch.h4)];
      assert t4[1..] == [] && t3[1..] == t4 && t2[1..] == t3 && t1[1..] == t2 && ps[1..] == t1;
      assert Parts(t4, tail) == [ch.h4] + tail;
      assert Parts(t3, tail) == Part(t3[0], Parts(t4, tail));
      assert Parts(t2, tail) == Part(t2[0], Parts(t3, tail));
      assert Parts(t1, tail) == Part(t1[0], Parts(t2, tail));
    } else {
      assert ps[1..] == [];
    }
  }

  lemma {:induction false} AllPartsText(cs: seq<StringChar>, tail: string)
    requires GoodChars(cs)
    ensures GoodParts(AllParts(cs)) && Parts(AllParts(cs), tail) == PrintChars(cs, tail)
  {
    if cs != [] {
      AllPartsText(cs[1..], tail);
      CharPartsText(cs[0], PrintChars(cs[1..], tail));
      PartsOfTwo(CharParts(cs[0]), AllParts(cs[1..]), tail);
    }
  }

  lemma {:induction false} ValueItemsText(v: Value, rest: Items, tail: string)
    requires GoodValue(v) && Good(rest)
    ensures Good(ValueItems(v, rest)) && Text(ValueItems(v, rest), tail) == Print(v, Text(rest, tail))
    decreases v
  {
    match v
    case Literal(name) => PlainItemsText(name, rest, tail);
    case Number(digits) => PlainItemsText(digits, rest, tail);
    case String(cs) => AllPartsText(cs, ['"'] + Text(rest, tail));
    case Array(ws, es) =>
      var close := Plain(']', rest);
      if es.NoElems? {
        PlainItemsText(ws, close, tail);
      } else {
        ElemsItemsText(es, close, tail);
      }
    case Object(ws, ms) =>
      var after := ['}'] + Text(rest, tail);
      if ms.NoMembers? {
        PlainItemsText(ws, End, after);
      } else {
        MembersItemsText(ms, after);
      }
  }

  lemma {:induction false} ElemsItemsText(es: Elems, rest: Items, tail: string)
    requires GoodElems(es) && Good(rest)
    ensures Good(ElemsItems(es, rest)) && Text(ElemsItems(es, rest), tail) == PrintElems(es, Text(rest, tail))
    decreases es
  {
    if es.Elem? {
      ElemsItemsText(es.more, rest, tail);
      var last := if es.more.NoElems? then rest else Plain(',', ElemsItems(es.more, rest));
      PlainItemsText(es.after, last, tail);
      var after := PlainItems(es.after, last);
      ValueItemsText(es.value, after, tail);
      PlainItemsText(es.before, ValueItems(es.value, after), tail);
    }
  }

  lemma {:induction false} MembersItemsText(ms: Members, tail: string)
    requires GoodMembers(ms)
    ensures Good(MembersItems(ms)) && Text(MembersItems(ms), tail) == PrintMembers(ms, tail)
    decreases ms
  {
    if ms.Member? {
      MembersItemsText(ms.more, tail);
      var last := if ms.more.NoMembers? then End else Plain(',', MembersItems(ms.more));
      PlainItemsText(ms.after, last, tail);
      var after := PlainItems(ms.after, last);
      ValueItemsText(ms.value, after, tail);
      PlainItemsText(ms.colonAfter, ValueItems(ms.value, after), tail);
      var value := PlainItems(ms.colonAfter, ValueItems(ms.value, after));
      PlainItemsText(ms.colonBefore, Plain(':', value), tail);
      var name := PlainItems(ms.colonBefore, Plain(':', value));
      AllPartsText(ms.name, ['"'] + Text(name, tail));
      PlainItemsText(ms.before, Quoted(AllParts(ms.name), name), tail);
    }
  }

  /** Any printed JSON object is found exactly, whatever text surrounds it. */
  lemma JsonObjectExtracted(pre: string, obj: Value, post: string)
    requires '{' !in pre
    requires obj.Object? && GoodValue(obj)
    ensures Extracted(pre + Print(obj, []) + post) == Some(Print(obj, []))
  {
    ValueItemsText(obj, End, []);
    var group := ValueItems(obj, End);
    assert ['}'] + [] == ['}'];
    assert Segment(group.inner) == Print(obj, []);
    SegmentExtracted(pre, group.inner, post);
  }
}
