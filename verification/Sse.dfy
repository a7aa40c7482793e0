/** The server-sent-event reader: lines are gathered into payloads, payloads are decoded and sent on. */
module Sse {
  import opened Basics

  /** What leaves the reader: a decoded payload, the report that one could not be decoded, or the report
      that reading has failed. */
  datatype Out<T> = Data(value: T) | Bad(payload: string) | ReadFailed(text: string)

  /** The outside world: how payloads decode; where a wait finds the context cancelled instead; the error the
      lines ended with, if it was not just the end of the input; and whether there is room to report it. */
  datatype World<!T> = World(
    decode: string -> Option<T>,
    cancelledAtLine: nat -> bool,
    cancelledAtSend: nat -> bool,
    readError: Option<string>,
    roomAtEnd: bool)

  const DONE: string := "[DONE]"
  const FIELD: string := "data:"

  /** strings.Join with a newline between the lines. */
  function JoinLines(lines: seq<string>): string {
    if lines == [] then []
    else if |lines| == 1 then lines[0]
    else lines[0] + "\n" + JoinLines(lines[1..])
  }

  predicate IsDataLine(line: string) {
    HasPrefix(line, FIELD)
  }

  function DataOf(line: string): string
    requires IsDataLine(line)
  {
    TrimSpace(line[|FIELD|..])
  }

  // ---- reference reading: payloads of a list of lines ----

  /** The payloads of the lines, with the data lines of the event under way given. */
  function Payloads(lines: seq<string>, pending: seq<string>): seq<string> {
    if lines == [] then
      if pending == [] || JoinLines(pending) == DONE then [] else [JoinLines(pending)]
    else if lines[0] == "" then
      if pending == [] then Payloads(lines[1..], [])
      else if JoinLines(pending) == DONE then []
      else [JoinLines(pending)] + Payloads(lines[1..], [])
    else if IsDataLine(lines[0]) then Payloads(lines[1..], pending + [DataOf(lines[0])])
    else Payloads(lines[1..], pending)
  }

  /** The lines are read to their end: no [DONE] event is closed by a blank line before. */
  predicate ReadToEnd(lines: seq<string>, pending: seq<string>) {
    if lines == [] then true
    else if lines[0] == "" then (pending == [] || JoinLines(pending) != DONE) && ReadToEnd(lines[1..], [])
    else ReadToEnd(lines[1..], if IsDataLine(lines[0]) then pending + [DataOf(lines[0])] else pending)
  }

  function Delivered<T>(payloads: seq<string>, w: World<T>): seq<Out<T>> {
    if payloads == [] then []
    else [DecodeOne(payloads[0], w)] + Delivered(payloads[1..], w)
  }

  function DecodeOne<T>(payload: string, w: World<T>): Out<T> {
    match w.decode(payload)
    case Some(v) => Data(v)
    case None => Bad(payload)
  }

  // ---- the reader itself ----

  /** What one flush sends, and whether reading goes on. A send that finds the context cancelled
      drops an error report silently but ends the reading when it was a value. */
  function Flush<T>(pending: seq<string>, at: nat, w: World<T>): (seq<Out<T>>, bool) {
    if pending == [] then ([], true)
    else if JoinLines(pending) == DONE then ([], false)
    else
      var o := DecodeOne(JoinLines(pending), w);
      if !w.cancelledAtSend(at) then ([o], true) else ([], o.Bad?)
  }

  /** The report of an error at the end of the input; it is dropped where there is no room. */
  function EndReport<T>(w: World<T>): seq<Out<T>> {
    if w.readError.Some? && w.roomAtEnd then [ReadFailed(w.readError.value)] else []
  }

  /** Everything sent by the end of the lines, given what was sent before the k-th. */
  function Reading<T>(lines: seq<string>, k: nat, pending: seq<string>, out: seq<Out<T>>, w: World<T>): seq<Out<T>>
    requires k <= |lines|
    decreases |lines| - k
  {
    if k == |lines| then out + Flush(pending, k, w).0 + EndReport(w)
    else if w.cancelledAtLine(k) then out
    else if lines[k] == "" then
      var (sent, on) := Flush(pending, k, w);
      if on then Reading(lines, k + 1, [], out + sent, w) else out + sent
    else if IsDataLine(lines[k]) then Reading(lines, k + 1, pending + [DataOf(lines[k])], out, w)
    else Reading(lines, k + 1, pending, out, w)
  }

  method ParseSse<T>(lines: seq<string>, w: World<T>) returns (out: seq<Out<T>>)
    ensures out == Reading(lines, 0, [], [], w)
  {
    out := [];
    var dataLines: seq<string> := [];
    var k := 0;
    while k < |lines|
      invariant 0 <= k <= |lines|
      invariant Reading(lines, 0, [], [], w) == Reading(lines, k, dataLines, out, w)
    {
      if w.cancelledAtLine(k) {
        return;
      }
      var line := lines[k];
      if line == "" {
        var sent, on := SendPending(dataLines, k, w);
        out := out + sent;
        dataLines := [];
        if !on {
          return;
        }
      } else if IsComment(line) {
        CommentHasNoData(line);
      } else if IsDataLine(line) {
        dataLines := dataLines + [DataOf(line)];
      }
      k := k + 1;
    }
    var sent, _ := SendPending(dataLines, k, w);
    out := out + sent;
    if w.readError.Some? {
      if w.roomAtEnd {
        out := out + [ReadFailed(w.readError.value)];
      }
    }
  }

  predicate IsComment(line: string) {
    HasPrefix(line, ":")
  }

  lemma CommentHasNoData(line: string)
    requires IsComment(line)
    ensures !IsDataLine(line)
  {
    assert line[0] == ':';
  }

  method SendPending<T>(dataLines: seq<string>, at: nat, w: World<T>) returns (sent: seq<Out<T>>, on: bool)
    ensures (sent, on) == Flush(dataLines, at, w)
  {
    if |dataLines| == 0 {
      return [], true;
    }
    var payload := JoinLines(dataLines);
    if payload == DONE {
      return [], false;
    }
    var msg := w.decode(payload);
    if msg.None? {
      if w.cancelledAtSend(at) {
        return [], true;
      }
      return [Bad(payload)], true;
    }
    if w.cancelledAtSend(at) {
      return [], false;
    }
    return [Data(msg.value)], true;
  }

  // ---- what reading amounts to ----

  /** Without cancellation the reader sends exactly the payloads, decoded, in order, and then, unless a
      [DONE] event ended it, the report of a failed read. */
  lemma {:induction false} UncancelledReading<T>(
      lines: seq<string>, k: nat, pending: seq<string>, out: seq<Out<T>>, w: World<T>)
    requires k <= |lines|
    requires forall i: nat :: !w.cancelledAtLine(i) && !w.cancelledAtSend(i)
    ensures Reading(lines, k, pending, out, w)
         == out + Delivered(Payloads(lines[k..], pending), w)
              + if ReadToEnd(lines[k..], pending) then EndReport(w) else []
    decreases |lines| - k
  {
    if k < |lines| {
      assert lines[k..][1..] == lines[k + 1..];
      if lines[k] == "" {
        UncancelledReading(lines, k + 1, [], out + Flush(pending, k, w).0, w);
      } else if IsDataLine(lines[k]) {
        UncancelledReading(lines, k + 1, pending + [DataOf(lines[k])], out, w);
      } else {
        UncancelledReading(lines, k + 1, pending, out, w);
      }
    }
  }

  /** A failed read is reported at most once, and behind everything else. */
  predicate ReportsLast<T>(all: seq<Out<T>>, w: World<T>) {
    forall i :: 0 <= i < |all| && all[i].ReadFailed? ==> i == |all| - 1 && w.readError == Some(all[i].text)
  }

  lemma {:induction false} ReportComesLast<T>(lines: seq<string>, k: nat, pending: seq<string>, out: seq<Out<T>>,
          w: World<T>)
    requires k <= |lines| && forall i :: 0 <= i < |out| ==> !out[i].ReadFailed?
    ensures ReportsLast(Reading(lines, k, pending, out, w), w)
    decreases |lines| - k
  {
    var (sent, on) := Flush(pending, k, w);
    assert forall i :: 0 <= i < |sent| ==> !sent[i].ReadFailed?;
    if k < |lines| && !w.cancelledAtLine(k) {
      if lines[k] == "" {
        if on {
          ReportComesLast(lines, k + 1, [], out + sent, w);
        } else {
          assert ReportsLast(out + sent, w);
        }
      } else {
        ReportComesLast(lines, k + 1, if IsDataLine(lines[k]) then pending + [DataOf(lines[k])] else pending, out, w);
      }
    }
  }

  /** The values among the things sent. */
  function Values<T>(out: seq<Out<T>>): seq<T> {
    if out == [] then []
    else if out[0].Data? then [out[0].value] + Values(out[1..])
    else Values(out[1..])
  }

  lemma {:induction false} ValuesAppend<T>(a: seq<Out<T>>, b: seq<Out<T>>)
    ensures Values(a + b) == Values(a) + Values(b)
  {
    if a == [] {
      assert a + b == b;
    } else {
      assert (a + b)[1..] == a[1..] + b;
      ValuesAppend(a[1..], b);
    }
  }

  /** What a blank line sends is the first of what the rest of the lines is worth, or nothing. */
  lemma BlankLineValues<T>(lines: seq<string>, k: nat, pending: seq<string>, w: World<T>)
    requires k < |lines| && lines[k] == ""
    ensures var (sent, on) := Flush(pending, k, w);
      var all := Values(Delivered(Payloads(lines[k..], pending), w));
      if on then Values(sent) + Values(Delivered(Payloads(lines[k + 1..], []), w)) == all else Values(sent) <= all
  {
    assert lines[k..][0] == "" && lines[k..][1..] == lines[k + 1..];
  }

  /** Wherever the context is cancelled, the values sent are a prefix of the ones an undisturbed
      reader sends: none is skipped, none is out of order. */
  lemma {:induction false} CancelledReadingIsPrefix<T>(
      lines: seq<string>, k: nat, pending: seq<string>, out: seq<Out<T>>, w: World<T>)
    requires k <= |lines|
    ensures Values(Reading(lines, k, pending, out, w))
         <= Values(out) + Values(Delivered(Payloads(lines[k..], pending), w))
    decreases |lines| - k
  {
    var (sent, on) := Flush(pending, k, w);
    if k == |lines| {
      ValuesAppend(out, sent);
      ValuesAppend(out + sent, EndReport(w));
    } else if !w.cancelledAtLine(k) {
      if lines[k] == "" {
        ValuesAppend(out, sent);
        BlankLineValues(lines, k, pending, w);
        if on {
          CancelledReadingIsPrefix(lines, k + 1, [], out + sent, w);
          Associate(Values(out), Values(sent), Values(Delivered(Payloads(lines[k + 1..], []), w)));
        }
      } else {
        assert lines[k..][0] == lines[k] && lines[k..][1..] == lines[k + 1..];
        var more := if IsDataLine(lines[k]) then [DataOf(lines[k])] else [];
        assert more == [] ==> pending + more == pending;
        CancelledReadingIsPrefix(lines, k + 1, pending + more, out, w);
      }
    }
  }

  /** A send that finds the context cancelled has no value to lose. */
  predicate LosesNoValue<T>(pending: seq<string>, at: nat, w: World<T>) {
    w.cancelledAtSend(at) ==> pending == [] || w.decode(JoinLines(pending)).None?
  }

  /** Cancellation is noticed by reports only. */
  predicate OnlyReportsLost<T>(lines: seq<string>, k: nat, pending: seq<string>, w: World<T>)
    requires k <= |lines|
    decreases |lines| - k
  {
    if k == |lines| then LosesNoValue(pending, k, w)
    else
      && !w.cancelledAtLine(k)
      && if lines[k] == "" then LosesNoValue(pending, k, w) && OnlyReportsLost(lines, k + 1, [], w)
         else OnlyReportsLost(lines, k + 1, if IsDataLine(lines[k]) then pending + [DataOf(lines[k])] else pending, w)
  }

  /** Where cancellation is noticed only while an undecodable payload is being reported, that report is lost,
      and all values still arrive. */
  lemma {:induction false} LostReportsAreAll<T>(
      lines: seq<string>, k: nat, pending: seq<string>, out: seq<Out<T>>, w: World<T>)
    requires k <= |lines| && OnlyReportsLost(lines, k, pending, w)
    ensures Values(Reading(lines, k, pending, out, w))
         == Values(out) + Values(Delivered(Payloads(lines[k..], pending), w))
    decreases |lines| - k
  {
    var (sent, on) := Flush(pending, k, w);
    if k == |lines| {
      ValuesAppend(out, sent);
      ValuesAppend(out + sent, EndReport(w));
    } else if lines[k] == "" {
      ValuesAppend(out, sent);
      BlankLineValues(lines, k, pending, w);
      if on {
        LostReportsAreAll(lines, k + 1, [], out + sent, w);
        Associate(Values(out), Values(sent), Values(Delivered(Payloads(lines[k + 1..], []), w)));
      }
    } else {
      assert lines[k..][0] == lines[k] && lines[k..][1..] == lines[k + 1..];
      var more := if IsDataLine(lines[k]) then [DataOf(lines[k])] else [];
      assert more == [] ==> pending + more == pending;
      LostReportsAreAll(lines, k + 1, pending + more, out, w);
    }
  }

  // ---- the encoding it inverts ----

  /** One line of an encoded event: part of the payload with white space around it,
      or anything else that is not empty (comments, other fields). */
  datatype Piece = Body(before: string, text: string, after: string) | Noise(line: string)

  /** An event: its lines, then at least one blank line. */
  datatype Block = Block(pieces: seq<Piece>, moreBlanks: nat)

  predicate AllSpace(s: string) {
    forall i :: 0 <= i < |s| ==> IsSpace(s[i])
  }

  predicate GoodPiece(p: Piece) {
    match p
    case Body(before, text, after) => AllSpace(before) && Trimmed(text) && AllSpace(after)
    case Noise(line) => line != "" && !HasPrefix(line, "data:")
  }

  predicate GoodPieces(ps: seq<Piece>) {
    forall i :: 0 <= i < |ps| ==> GoodPiece(ps[i])
  }

  function PieceLine(p: Piece): string {
    match p
    case Body(before, text, after) => "data:" + (before + text + after)
    case Noise(line) => line
  }

  function PieceLines(ps: seq<Piece>): seq<string> {
    if ps == [] then [] else [PieceLine(ps[0])] + PieceLines(ps[1..])
  }

  /** The payload lines among the pieces. */
  function Bodies(ps: seq<Piece>): seq<string> {
    if ps == [] then []
    else if ps[0].Body? then [ps[0].text] + Bodies(ps[1..])
    else Bodies(ps[1..])
  }

  /** The payload of an event of several lines. */
  function Joined(lines: seq<string>): string {
    if lines == [] then ""
    else if |lines| == 1 then lines[0]
    else Joined(lines[..|lines| - 1]) + "\n" + lines[|lines| - 1]
  }

  lemma {:induction false} JoinLinesLast(lines: seq<string>, line: string)
    requires lines != []
    ensures JoinLines(lines + [line]) == JoinLines(lines) + "\n" + line
  {
    assert (lines + [line])[0] == lines[0] && (lines + [line])[1..] == lines[1..] + [line];
    if |lines| == 1 {
      assert (lines + [line])[1..] == [line];
    } else {
      JoinLinesLast(lines[1..], line);
      assert lines[0] + "\n" + (JoinLines(lines[1..]) + "\n" + line) ==
        lines[0] + "\n" + JoinLines(lines[1..]) + "\n" + line;
    }
  }

  lemma {:induction false} JoinedIs(lines: seq<string>)
    ensures JoinLines(lines) == Joined(lines)
    decreases |lines|
  {
    if |lines| > 1 {
      var n := |lines| - 1;
      JoinedIs(lines[..n]);
      JoinLinesLast(lines[..n], lines[n]);
      assert lines == lines[..n] + [lines[n]];
    }
  }

  function Blanks(n: nat): seq<string> {
    if n == 0 then [] else [""] + Blanks(n - 1)
  }

  function BlockLines(b: Block): seq<string> {
    PieceLines(b.pieces) + ([""] + Blanks(b.moreBlanks))
  }

  function StreamLines(bs: seq<Block>): seq<string> {
    if bs == [] then [] else BlockLines(bs[0]) + StreamLines(bs[1..])
  }

  /** The payloads the blocks carry; a block without payload lines carries none. */
  function StreamPayloads(bs: seq<Block>): seq<string> {
    if bs == [] then []
    else if Bodies(bs[0].pieces) == [] then StreamPayloads(bs[1..])
    else [Joined(Bodies(bs[0].pieces))] + StreamPayloads(bs[1..])
  }

  predicate GoodBlocks(bs: seq<Block>) {
    forall i :: 0 <= i < |bs| ==> GoodPieces(bs[i].pieces) && Joined(Bodies(bs[i].pieces)) != "[DONE]"
  }

  lemma {:induction false} TrimLeftOfPadded(before: string, s: string)
    requires AllSpace(before)
    ensures TrimLeft(before + s) == TrimLeft(s)
  {
    if before == [] {
      assert before + s == s;
    } else {
      assert (before + s)[1..] == before[1..] + s;
      TrimLeftOfPadded(before[1..], s);
    }
  }

  lemma {:induction false} TrimRightOfPadded(s: string, after: string)
    requires AllSpace(after)
    ensures TrimRight(s + after) == TrimRight(s)
  {
    if after == [] {
      assert s + after == s;
    } else {
      assert (s + after)[..|s + after| - 1] == s + after[..|after| - 1];
      TrimRightOfPadded(s, after[..|after| - 1]);
    }
  }

  lemma TrimPadded(before: string, text: string, after: string)
    requires AllSpace(before) && Trimmed(text) && AllSpace(after)
    ensures TrimSpace(before + text + after) == text
  {
    var s := text + after;
    assert before + text + after == before + s;
    TrimLeftOfPadded(before, s);
    if text == [] {
      assert s == after + [];
      TrimLeftOfPadded(after, []);
    } else {
      assert s[0] == text[0];
      assert TrimLeft(s) == s;
      TrimRightOfPadded(text, after);
    }
  }

  lemma PieceRead(p: Piece)
    requires GoodPiece(p)
    ensures PieceLine(p) != "" && (IsDataLine(PieceLine(p)) <==> p.Body?)
    ensures p.Body? ==> DataOf(PieceLine(p)) == p.text
  {
    if p.Body? {
      TrimPadded(p.before, p.text, p.after);
      assert PieceLine(p)[|FIELD|..] == p.before + p.text + p.after;
    }
  }

  lemma {:induction false} PiecesGathered(ps: seq<Piece>, tail: seq<string>, pending: seq<string>)
    requires GoodPieces(ps)
    ensures Payloads(PieceLines(ps) + tail, pending) == Payloads(tail, pending + Bodies(ps))
    ensures ReadToEnd(PieceLines(ps) + tail, pending) == ReadToEnd(tail, pending + Bodies(ps))
  {
    var lines := PieceLines(ps) + tail;
    if ps == [] {
      assert lines == tail && pending + Bodies(ps) == pending;
    } else {
      assert lines[1..] == PieceLines(ps[1..]) + tail;
      PieceRead(ps[0]);
      match ps[0]
      case Body(before, text, after) =>
        PiecesGathered(ps[1..], tail, pending + [text]);
        assert (pending + [text]) + Bodies(ps[1..]) == pending + Bodies(ps);
      case Noise(line) =>
        PiecesGathered(ps[1..], tail, pending);
    }
  }

  lemma {:induction false} BlanksSkipped(n: nat, tail: seq<string>)
    ensures Payloads(Blanks(n) + tail, []) == Payloads(tail, []) &&
        ReadToEnd(Blanks(n) + tail, []) == ReadToEnd(tail, [])
  {
    if n == 0 {
      assert Blanks(n) + tail == tail;
    } else {
      assert (Blanks(n) + tail)[1..] == Blanks(n - 1) + tail;
      BlanksSkipped(n - 1, tail);
    }
  }

  lemma FirstBlock(bs: seq<Block>, tail: seq<string>)
    requires bs != []
    ensures StreamLines(bs) + tail
         == PieceLines(bs[0].pieces) + ([""] + (Blanks(bs[0].moreBlanks) + (StreamLines(bs[1..]) + tail)))
  {
    var rest, blanks := StreamLines(bs[1..]), [""] + Blanks(bs[0].moreBlanks);
    Associate(PieceLines(bs[0].pieces), blanks, rest);
    Associate(PieceLines(bs[0].pieces) + blanks, rest, tail);
    Associate(PieceLines(bs[0].pieces), blanks, rest + tail);
    Associate([""], Blanks(bs[0].moreBlanks), rest + tail);
    Associate(PieceLines(bs[0].pieces) + blanks, rest, tail);
  }

  function BlockPayloads(ps: seq<Piece>): seq<string> {
    if Bodies(ps) == [] then [] else [Joined(Bodies(ps))]
  }

  lemma BlockRead(ps: seq<Piece>, n: nat, rest: seq<string>)
    requires GoodPieces(ps) && Joined(Bodies(ps)) != "[DONE]"
    ensures Payloads(PieceLines(ps) + ([""] + (Blanks(n) + rest)), []) == BlockPayloads(ps) + Payloads(rest, [])
    ensures ReadToEnd(PieceLines(ps) + ([""] + (Blanks(n) + rest)), []) == ReadToEnd(rest, [])
  {
    var after := [""] + (Blanks(n) + rest);
    PiecesGathered(ps, after, []);
    JoinedIs(Bodies(ps));
    assert [] + Bodies(ps) == Bodies(ps);
    assert after[0] == "" && after[1..] == Blanks(n) + rest;
    BlanksSkipped(n, rest);
  }

  /** Encoded events are read back exactly, whatever comments, fields and blank lines stand between
      them, and whatever lines follow. */
  lemma {:induction false} RoundTrip(bs: seq<Block>, tail: seq<string>)
    requires GoodBlocks(bs)
    ensures Payloads(StreamLines(bs) + tail, []) == StreamPayloads(bs) + Payloads(tail, [])
    ensures ReadToEnd(StreamLines(bs) + tail, []) == ReadToEnd(tail, [])
  {
    if bs == [] {
      assert StreamLines(bs) + tail == tail;
    } else {
      FirstBlock(bs, tail);
      BlockRead(bs[0].pieces, bs[0].moreBlanks, StreamLines(bs[1..]) + tail);
      RoundTrip(bs[1..], tail);
      Associate(BlockPayloads(bs[0].pieces), StreamPayloads(bs[1..]), Payloads(tail, []));
    }
  }

  /** Nothing behind a [DONE] event is read. */
  lemma NothingAfterDone(ps: seq<Piece>, tail: seq<string>)
    requires GoodPieces(ps) && Bodies(ps) != [] && Joined(Bodies(ps)) == "[DONE]"
    ensures Payloads(PieceLines(ps) + ([""] + tail), []) == [] && !ReadToEnd(PieceLines(ps) + ([""] + tail), [])
  {
    PiecesGathered(ps, [""] + tail, []);
    JoinedIs(Bodies(ps));
    assert [] + Bodies(ps) == Bodies(ps);
  }

  /** An event that ends with the input instead of a blank line is delivered all the same. */
  lemma UnfinishedEventDelivered(ps: seq<Piece>)
    requires GoodPieces(ps) && Bodies(ps) != [] && Joined(Bodies(ps)) != "[DONE]"
    ensures Payloads(PieceLines(ps), []) == [Joined(Bodies(ps))] && ReadToEnd(PieceLines(ps), [])
  {
    PiecesGathered(ps, [], []);
    JoinedIs(Bodies(ps));
    assert PieceLines(ps) + [] == PieceLines(ps);
    assert [] + Bodies(ps) == Bodies(ps);
  }

  // ---- from text to lines ----

  function DropCR(s: string): string {
    if s != [] && s[|s| - 1] == '\r' then s[..|s| - 1] else s
  }

  function LineEnd(text: string): (i: nat)
    ensures i <= |text|
  {
    if text == [] || text[0] == '\n' then 0 else 1 + LineEnd(text[1..])
  }

  /** bufio.ScanLines. */
  function ScanLines(text: string): seq<string>
    decreases |text|
  {
    if text == [] then []
    else
      var i := LineEnd(text);
      if i == |text| then [DropCR(text)] else [DropCR(text[..i])] + ScanLines(text[i + 1..])
  }

  /** A line written out, with either kind of line ending. */
  datatype Written = Written(line: string, crlf: bool)

  function WrittenText(ws: seq<Written>): string {
    if ws == [] then []
    else ws[0].line + (if ws[0].crlf then "\r\n" else "\n") + WrittenText(ws[1..])
  }

  function WrittenLines(ws: seq<Written>): seq<string> {
    if ws == [] then [] else [ws[0].line] + WrittenLines(ws[1..])
  }

  predicate OneLine(s: string) {
    '\n' !in s && (s != [] ==> s[|s| - 1] != '\r')
  }

  lemma {:induction false} LineEndAfter(s: string, rest: string)
    requires '\n' !in s
    ensures LineEnd(s + "\n" + rest) == |s|
  {
    if s == [] {
      assert (s + "\n" + rest)[0] == '\n';
    } else {
      assert s[0] in s;
      assert (s + "\n" + rest)[1..] == s[1..] + "\n" + rest;
      LineEndAfter(s[1..], rest);
    }
  }

  lemma FirstLine(s: string, rest: string)
    requires '\n' !in s
    ensures ScanLines(s + "\n" + rest) == [DropCR(s)] + ScanLines(rest)
  {
    var text := s + "\n" + rest;
    LineEndAfter(s, rest);
    assert text[..|s|] == s && text[|s| + 1..] == rest;
  }

  /** Lines survive being written and scanned, with LF or CRLF endings mixed at will. */
  lemma {:induction false} LinesRoundTrip(ws: seq<Written>)
    requires forall i :: 0 <= i < |ws| ==> OneLine(ws[i].line)
    ensures ScanLines(WrittenText(ws)) == WrittenLines(ws)
  {
    if ws != [] {
      var s := ws[0].line + (if ws[0].crlf then "\r" else "");
      var rest := WrittenText(ws[1..]);
      assert WrittenText(ws) == s + "\n" + rest;
      assert DropCR(s) == ws[0].line;
      FirstLine(s, rest);
      LinesRoundTrip(ws[1..]);
    }
  }

  // ---- from text to output ----

  /** Lines, each with its own kind of ending. */
  function WithEndings(lines: seq<string>, crlf: nat -> bool): seq<Written> {
    if lines == [] then []
    else
      var n := |lines| - 1;
      WithEndings(lines[..n], crlf) + [Written(lines[n], crlf(n))]
  }

  lemma {:induction false} EndingsKeepLines(lines: seq<string>, crlf: nat -> bool)
    ensures |WithEndings(lines, crlf)| == |lines|
    ensures forall i :: 0 <= i < |lines| ==> WithEndings(lines, crlf)[i].line == lines[i]
    decreases |lines|
  {
    if lines != [] {
      EndingsKeepLines(lines[..|lines| - 1], crlf);
    }
  }

  lemma {:induction false} WrittenLinesAre(ws: seq<Written>, lines: seq<string>)
    requires |ws| == |lines| && forall i :: 0 <= i < |lines| ==> ws[i].line == lines[i]
    ensures WrittenLines(ws) == lines
  {
    if ws != [] {
      WrittenLinesAre(ws[1..], lines[1..]);
      assert lines == [lines[0]] + lines[1..];
    }
  }

  /** The stream ends with its last event, or with a [DONE] event and anything behind that. */
  ghost predicate EndsStream(tail: seq<string>) {
    || tail == []
    || exists ps: seq<Piece>, rest: seq<string> ::
         && GoodPieces(ps) && Bodies(ps) != [] && Joined(Bodies(ps)) == "[DONE]"
         && tail == PieceLines(ps) + ([""] + rest)
  }

  lemma EndHasNoPayloads(tail: seq<string>)
    requires EndsStream(tail)
    ensures Payloads(tail, []) == [] && (ReadToEnd(tail, []) <==> tail == [])
  {
    if tail != [] {
      var ps: seq<Piece>, rest: seq<string> :|
        && GoodPieces(ps) && Bodies(ps) != [] && Joined(Bodies(ps)) == "[DONE]"
        && tail == PieceLines(ps) + ([""] + rest);
      NothingAfterDone(ps, rest);
    }
  }

  lemma StreamIsScanned(bs: seq<Block>, tail: seq<string>, crlf: nat -> bool)
    requires GoodBlocks(bs) && EndsStream(tail)
    requires forall line :: line in StreamLines(bs) + tail ==> OneLine(line)
    ensures var lines := ScanLines(WrittenText(WithEndings(StreamLines(bs) + tail, crlf)));
      Payloads(lines, []) == StreamPayloads(bs) && (ReadToEnd(lines, []) <==> tail == [])
  {
    var lines := StreamLines(bs) + tail;
    var ws := WithEndings(lines, crlf);
    EndingsKeepLines(lines, crlf);
    WrittenLinesAre(ws, lines);
    LinesRoundTrip(ws);
    RoundTrip(bs, tail);
    EndHasNoPayloads(tail);
  }

  /** From text to output: events written as text, with white space, comments, blank lines and line endings
      of either kind at will, come out of the reader as their payloads, decoded, in order, and behind them,
      if no [DONE] event came, the report of a failed read; and where the context is cancelled, the values
      that come out are the first of these. */
  lemma EventStreamReadsBack<T>(bs: seq<Block>, tail: seq<string>, crlf: nat -> bool, w: World<T>)
    requires GoodBlocks(bs) && EndsStream(tail)
    requires forall line :: line in StreamLines(bs) + tail ==> OneLine(line)
    ensures var lines := ScanLines(WrittenText(WithEndings(StreamLines(bs) + tail, crlf)));
      && ((forall i: nat :: !w.cancelledAtLine(i) && !w.cancelledAtSend(i)) ==>
            Reading(lines, 0, [], [], w) == Delivered(StreamPayloads(bs), w) + if tail == [] then EndReport(w) else [])
      && Values(Reading(lines, 0, [], [], w)) <= Values(Delivered(StreamPayloads(bs), w))
  {
    var lines := ScanLines(WrittenText(WithEndings(StreamLines(bs) + tail, crlf)));
    StreamIsScanned(bs, tail, crlf);
    assert lines[0..] == lines;
    if forall i: nat :: !w.cancelledAtLine(i) && !w.cancelledAtSend(i) {
      UncancelledReading(lines, 0, [], [], w);
    }
    CancelledReadingIsPrefix(lines, 0, [], [], w);
    assert Values<T>([]) + Values(Delivered(StreamPayloads(bs), w)) == Values(Delivered(StreamPayloads(bs), w));
  }
}
