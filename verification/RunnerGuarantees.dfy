/** What the protocol guarantees, said about the trace of a run itself. */
module RunnerGuarantees {
  import opened Basics
  import opened Json
  import opened Decimal
  import opened Folding
  import opened EventMapper
  import opened History
  import opened Policy
  import opened SessionStore
  import opened RunnerModel
  import opened RunnerProtocol
  import opened RunnerEffects
  import opened RunnerHooks

  // ---- how a run ends ----

  predicate IsResult(e: Event) {
    e.Emit? && e.message.ResultMessage?
  }

  function Results(tr: Trace): nat {
    match tr
    case Begin => 0
    case Then(before, e) => Results(before) + if IsResult(e) then 1 else 0
  }

  /** The last thing the run did was to report a failure. */
  predicate EndsInFailure(tr: Trace) {
    Own(tr).Then? && Own(tr).last.Fail?
  }

  /** Nothing is emitted behind a result. */
  predicate ResultIsLast(tr: Trace) {
    match tr
    case Begin => true
    case Then(before, e) => ResultIsLast(before) && (e.Emit? ==> Results(before) == 0)
  }

  /** How an event may close a run. */
  predicate ClosesWell(stage: Stage, e: Event, next: Stage) {
    && (e.Outside? ==> next == stage)
    && (e.Emit? ==> !Closing(stage))
    && (Closing(stage) || IsResult(e) ==> Closing(next))
    && (next.Won? && !e.Outside? ==> IsResult(e))
    && (next.Committed? && !e.Outside? ==> stage.Won?)
    && (next.Ended? && !e.Outside? ==> IsResult(e) || e.Fail? || stage.Committed?)
  }

  lemma MessagesClose(s: Setup, stage: Stage, b: Book, m: RunnerModel.Message, next: Monitor)
    requires MessageEffect(s, stage, b, m, next)
    ensures next.At? && ClosesWell(stage, Emit(m), next.stage)
  {
  }

  lemma HooksClose(s: Setup, stage: Stage, b: Book, e: Event, next: Monitor)
    requires e.Hooked? && HookEffect(s, stage, b, e, next)
    ensures next.At? && ClosesWell(stage, e, next.stage)
  {
  }

  lemma OthersClose(s: Setup, stage: Stage, b: Book, e: Event, next: Monitor)
    requires next.At? && Effect(s, stage, b, e, next) && !e.Emit? && !e.Hooked?
    ensures ClosesWell(stage, e, next.stage)
  {
  }

  /** A run closes with a result, a failure or a hook, goes no way back from there, and emits nothing
      any more. */
  lemma Closes(s: Setup, stage: Stage, b: Book, e: Event, next: Monitor)
    requires next.At? && Effect(s, stage, b, e, next)
    ensures ClosesWell(stage, e, next.stage)
  {
    match e {
      case Emit(m) => MessagesClose(s, stage, b, m, next);
      case Hooked(_, _, _, _) => HooksClose(s, stage, b, e, next);
      case _ => OthersClose(s, stage, b, e, next);
    }
  }

  lemma {:induction false} OneResultAtMost(s: Setup, tr: Trace)
    requires Accepted(s, tr)
    ensures ResultIsLast(tr) && Results(tr) <= 1
    ensures var stage := Watch(s, tr).stage;
      && (stage.Won? || stage.Committed? ==> Results(tr) == 1)
      && (Results(tr) == 1 ==> Closing(stage))
      && (stage.Ended? ==> Results(tr) == 1 || EndsInFailure(tr))
  {
    match tr
    case Begin =>
    case Then(before, e) =>
      var stage, b, next := Stepped(s, before, e);
      OneResultAtMost(s, before);
      Closes(s, stage, b, e, next);
  }

  // ---- what a turn is made of ----

  /** A turn after one more stream event. */
  function AfterEvent(parse: Parser, t: Turn, raw: Fields): Turn {
    match parse(raw)
    case Err(_) => Priced(t, raw)
    case Ok(chunks) => AfterChunks(Priced(t, raw), chunks)
  }

  /** The turn put together from the events behind the last request, and from nothing else. */
  function TurnAt(parse: Parser, tr: Trace): Turn {
    match tr
    case Begin => BLANK_TURN
    case Then(before, e) =>
      if e.Request? then BLANK_TURN
      else if e.Emit? && e.message.StreamEvent? then AfterEvent(parse, TurnAt(parse, before), e.message.raw)
      else TurnAt(parse, before)
  }

  lemma {:induction false} TurnIsFolded(s: Setup, tr: Trace)
    requires Accepted(s, tr)
    ensures Watch(s, tr).book.turn == TurnAt(s.parse, tr)
  {
    match tr
    case Begin =>
    case Then(before, e) =>
      var stage, b, next := Stepped(s, before, e);
      TurnIsFolded(s, before);
  }

  /** The stream events behind the last request. */
  function EventsAt(tr: Trace): seq<Fields> {
    match tr
    case Begin => []
    case Then(before, e) =>
      if e.Request? then []
      else if e.Emit? && e.message.StreamEvent? then EventsAt(before) + [e.message.raw]
      else EventsAt(before)
  }

  /** The cost the last of the events reports that reports one. */
  function LastCost(events: seq<Fields>): Option<real> {
    if events == [] then None
    else if CostReported(events[|events| - 1]).Some? then CostReported(events[|events| - 1])
    else LastCost(events[..|events| - 1])
  }

  /** And the usage. */
  function LastUsage(events: seq<Fields>): Option<Usage> {
    if events == [] then None
    else if UsageReported(events[|events| - 1]).Some? then UsageReported(events[|events| - 1])
    else LastUsage(events[..|events| - 1])
  }

  /** The same turn, each part by itself: the text deltas folded, the first image of each URL, the tool
      deltas by index, the last cost reported. */
  ghost predicate FoldedFrom(t: Turn, chunks: seq<Chunk>) {
    && t.text == FoldText("", Contents(chunks))
    && t.images == FirstByUrl(AllImages(chunks))
    && t.calls == AddDeltas(map[], Deltas(chunks))
  }

  lemma {:induction false} DeltasAppend(a: seq<Chunk>, ch: Chunk)
    ensures Deltas(a + [ch]) == Deltas(a) + ch.toolDeltas
  {
    if a == [] {
      assert a + [ch] == [ch];
      assert [ch][1..] == [];
    } else {
      assert (a + [ch])[1..] == a[1..] + [ch];
      DeltasAppend(a[1..], ch);
    }
  }

  lemma OneMoreChunk(t: Turn, chunks: seq<Chunk>, ch: Chunk)
    requires FoldedFrom(t, chunks)
    ensures FoldedFrom(AfterChunk(t, ch), chunks + [ch])
  {
    var all := chunks + [ch];
    assert Contents(all) == Contents(chunks) + [ch.content];
    FoldTextAppend("", Contents(chunks), [ch.content]);
    assert [ch.content][1..] == [];
    assert all[..|all| - 1] == chunks;
    BatchesKeepFirstArrivals(AllImages(chunks), ch.images);
    DeltasAppend(chunks, ch);
    AddDeltasAppend(map[], Deltas(chunks), ch.toolDeltas);
  }

  lemma {:induction false} MoreChunks(t: Turn, chunks: seq<Chunk>, more: seq<Chunk>)
    requires FoldedFrom(t, chunks)
    ensures FoldedFrom(AfterChunks(t, more), chunks + more)
    decreases |more|
  {
    if more == [] {
      assert chunks + more == chunks;
    } else {
      OneMoreChunk(t, chunks, more[0]);
      MoreChunks(AfterChunk(t, more[0]), chunks + [more[0]], more[1..]);
      assert chunks + [more[0]] + more[1..] == chunks + more;
    }
  }

  lemma {:induction false} ChunksKeepCost(t: Turn, chunks: seq<Chunk>)
    ensures AfterChunks(t, chunks).cost == t.cost && AfterChunks(t, chunks).usage == t.usage
    decreases |chunks|
  {
    if chunks != [] {
      ChunksKeepCost(AfterChunk(t, chunks[0]), chunks[1..]);
    }
  }

  lemma {:induction false} AllChunksAppend(events: seq<Fields>, raw: Fields, parse: Parser)
    ensures AllChunks(events + [raw], parse)
         == AllChunks(events, parse) + if parse(raw).Ok? then parse(raw).value else []
  {
    var chunks := if parse(raw).Ok? then parse(raw).value else [];
    if events == [] {
      assert (events + [raw])[1..] == [];
      assert chunks + [] == chunks == [] + chunks;
    } else {
      var first := if parse(events[0]).Ok? then parse(events[0]).value else [];
      assert (events + [raw])[1..] == events[1..] + [raw];
      AllChunksAppend(events[1..], raw, parse);
      Associate(first, AllChunks(events[1..], parse), chunks);
    }
  }

  lemma AfterEventFolds(parse: Parser, t: Turn, events: seq<Fields>, raw: Fields)
    requires FoldedFrom(t, AllChunks(events, parse))
    ensures FoldedFrom(AfterEvent(parse, t, raw), AllChunks(events + [raw], parse))
  {
    var chunks := AllChunks(events, parse);
    AllChunksAppend(events, raw, parse);
    match parse(raw) {
      case Ok(more) => MoreChunks(Priced(t, raw), chunks, more);
      case Err(_) => assert chunks + [] == chunks;
    }
  }

  /** The turn of any trace is the fold of its events, part by part. */
  lemma {:induction false} TurnFoldsItsEvents(parse: Parser, tr: Trace)
    ensures FoldedFrom(TurnAt(parse, tr), AllChunks(EventsAt(tr), parse))
  {
    match tr
    case Begin =>
    case Then(before, e) =>
      TurnFoldsItsEvents(parse, before);
      if e.Emit? && e.message.StreamEvent? {
        AfterEventFolds(parse, TurnAt(parse, before), EventsAt(before), e.message.raw);
      }
  }

  lemma EventCost(parse: Parser, t: Turn, events: seq<Fields>, raw: Fields)
    requires t.cost == LastCost(events) && t.usage == LastUsage(events)
    ensures var after := AfterEvent(parse, t, raw);
      after.cost == LastCost(events + [raw]) && after.usage == LastUsage(events + [raw])
  {
    CostIsLastReported(raw, t.cost);
    UsageIsLastReported(raw, t.usage);
    assert (events + [raw])[..|events|] == events;
    if parse(raw).Ok? {
      ChunksKeepCost(Priced(t, raw), parse(raw).value);
    }
  }

  /** And its cost and usage are the last ones its events reported. */
  lemma {:induction false} TurnCostsItsEvents(parse: Parser, tr: Trace)
    ensures TurnAt(parse, tr).cost == LastCost(EventsAt(tr)) && TurnAt(parse, tr).usage == LastUsage(EventsAt(tr))
  {
    match tr
    case Begin =>
    case Then(before, e) =>
      TurnCostsItsEvents(parse, before);
      if e.Emit? && e.message.StreamEvent? {
        EventCost(parse, TurnAt(parse, before), EventsAt(before), e.message.raw);
      }
  }

  // ---- requests ----

  function Requests(tr: Trace): nat {
    match tr
    case Begin => 0
    case Then(before, e) => Requests(before) + if e.Request? then 1 else 0
  }

  /** The last thing the run did was to send a request. */
  predicate EndsInRequest(tr: Trace) {
    Own(tr).Then? && Own(tr).last.Request?
  }

  /** How many turns have begun: a request directly behind another one begins none. */
  function TurnsBegun(tr: Trace): nat {
    match tr
    case Begin => 0
    case Then(before, e) => TurnsBegun(before) + if e.Request? && !EndsInRequest(before) then 1 else 0
  }

  /** A turn asks the model the options name when it begins. A request with nothing of the run between it
      and the one before repeats that one for the other model, and only a first request is repeated. So at
      most one of the two put anything on the output. */
  predicate RequestsInOrder(cfg: Config, tr: Trace) {
    match tr
    case Begin => true
    case Then(before, e) =>
      && RequestsInOrder(cfg, before)
      && (e.Request? ==>
            if EndsInRequest(before) then
              var first := Own(before);
              && !EndsInRequest(first.before) && first.last.history == e.history
              && e.model == cfg.fallback != "" && e.model != first.last.model
            else
              var named := ModelAt(cfg.model, before);
              e.model == if named == "" then "openai/gpt-4o-mini" else named)
  }

  /** The limit the options set: that on turns, else that on tool iterations, else eight. */
  predicate WithinLimit(cfg: Config, n: int) {
    && (cfg.maxTurns > 0 ==> n <= cfg.maxTurns)
    && (cfg.maxTurns <= 0 && cfg.maxToolIterations > 0 ==> n <= cfg.maxToolIterations)
    && (cfg.maxTurns <= 0 && cfg.maxToolIterations <= 0 ==> n <= 8)
  }

  /** That the turns are used up is reported behind the last one allowed, and no earlier. */
  predicate UsedUpAtLimit(cfg: Config, tr: Trace) {
    match tr
    case Begin => true
    case Then(before, e) =>
      && UsedUpAtLimit(cfg, before)
      && (e == Fail(TurnsExhausted) ==> !WithinLimit(cfg, TurnsBegun(before) + 1))
  }

  /** Every result says how many turns it took. */
  predicate TurnsCounted(tr: Trace) {
    match tr
    case Begin => true
    case Then(before, e) => TurnsCounted(before) && (IsResult(e) ==> e.message.numTurns == TurnsBegun(before) > 0)
  }

  lemma ExhaustedAtLimit(s: Setup, stage: Stage, b: Book)
    requires Takes(s, stage, b, Fail(TurnsExhausted))
    ensures stage.Stopping? || b.turns >= TurnLimit(s.cfg)
  {
  }

  lemma {:induction false} RequestsAreBounded(s: Setup, tr: Trace)
    requires Accepted(s, tr)
    ensures RequestsInOrder(s.cfg, tr) && TurnsCounted(tr)
    ensures TurnsBegun(tr) == Watch(s, tr).book.turns && WithinLimit(s.cfg, TurnsBegun(tr))
    ensures Requests(tr) <= 2 * TurnsBegun(tr)
    ensures EndsInRequest(tr) && !EndsInRequest(Own(tr).before) ==> Requests(tr) < 2 * TurnsBegun(tr)
    ensures EndsInRequest(tr) <==> Watch(s, tr).stage.Quiet?
    ensures Watch(s, tr).stage == Quiet(true) ==>
      !EndsInRequest(Own(tr).before) && Own(tr).last == Request(Watch(s, tr).book.picked, Watch(s, tr).book.history)
  {
    match tr
    case Begin =>
    case Then(before, e) =>
      var stage, b, next := Stepped(s, before, e);
      RequestsAreBounded(s, before);
      SoundThroughout(s, tr);
      InForce(s, before);
      if !e.Request? {
        QuietStays(s, stage, b, e, next);
      }
  }

  /** The run reports that its turns are used up only behind the last one its limit allows. */
  lemma {:induction false} TurnsAreUsedUp(s: Setup, tr: Trace)
    requires Accepted(s, tr)
    ensures UsedUpAtLimit(s.cfg, tr)
  {
    match tr
    case Begin =>
    case Then(before, e) =>
      var stage, b, next := Stepped(s, before, e);
      TurnsAreUsedUp(s, before);
      if e == Fail(TurnsExhausted) {
        Took(s, before, e);
        HooksStopRuns(s, before);
        RequestsAreBounded(s, before);
        ExhaustedAtLimit(s, stage, b);
      }
  }

  /** A run gives up on the transport without a word of the model only when no other model is left to ask: it
      has asked the fallback already, or there is none, or it is the one asked. */
  predicate FallbackIsAsked(cfg: Config, tr: Trace) {
    match tr
    case Begin => true
    case Then(before, e) =>
      && FallbackIsAsked(cfg, before)
      && (e.Fail? && e.failure.TransportFailed? && EndsInRequest(before) ==>
            || EndsInRequest(Own(before).before) || cfg.fallback == "" || cfg.fallback == Own(before).last.model)
  }

  lemma GivingUp(s: Setup, stage: Stage, b: Book, f: Failure)
    requires Takes(s, stage, b, Fail(f)) && f.TransportFailed? && stage.Quiet?
    ensures stage.first ==> s.cfg.fallback == "" || s.cfg.fallback == b.picked
  {
  }

  lemma {:induction false} FallbackIsAlwaysAsked(s: Setup, tr: Trace)
    requires Accepted(s, tr)
    ensures FallbackIsAsked(s.cfg, tr)
    ensures Watch(s, tr).stage == Quiet(false) ==> Own(tr).Then? && EndsInRequest(Own(tr).before)
  {
    match tr
    case Begin =>
    case Then(before, e) =>
      var stage, b, next := Stepped(s, before, e);
      FallbackIsAlwaysAsked(s, before);
      RequestsAreBounded(s, before);
      if e.Fail? && e.failure.TransportFailed? && EndsInRequest(before) {
        Took(s, before, e);
        GivingUp(s, stage, b, e.failure);
      }
      if !e.Request? {
        QuietStays(s, stage, b, e, next);
      }
  }

  /** Only a request, or a change from outside, leads to a request nothing has come back for. */
  lemma QuietStays(s: Setup, stage: Stage, b: Book, e: Event, next: Monitor)
    requires next.At? && Effect(s, stage, b, e, next) && !e.Request?
    ensures next.stage.Quiet? <==> e.Outside? && stage.Quiet?
    ensures next.stage.Quiet? ==> next.stage == stage && next.book.history == b.history && next.book.picked == b.picked
    ensures next.book.turns == b.turns
  {
    if e.Emit? && e.message.StreamEvent? {
      HearIs(s, b, e.message.raw);
    }
  }

  // ---- partial messages ----

  /** The partial texts sent since the last request, put together. */
  function PartialsAt(tr: Trace): string {
    match tr
    case Begin => ""
    case Then(before, e) =>
      if e.Request? then ""
      else if e.Emit? && e.message.PartialText? then PartialsAt(before) + e.message.text
      else PartialsAt(before)
  }

  function PartialImagesAt(tr: Trace): seq<Image> {
    match tr
    case Begin => []
    case Then(before, e) =>
      if e.Request? then []
      else if e.Emit? && e.message.PartialImages? then PartialImagesAt(before) + e.message.images
      else PartialImagesAt(before)
  }

  function TextOwed(due: Due): string {
    match due
    case Nothing => ""
    case OwedText(text, more) => text + TextOwed(more)
    case OwedImages(_, more) => TextOwed(more)
  }

  function ImagesOwed(due: Due): seq<Image> {
    match due
    case Nothing => []
    case OwedText(_, more) => ImagesOwed(more)
    case OwedImages(images, more) => images + ImagesOwed(more)
  }

  lemma {:induction false} OwedForChunks(t: Turn, chunks: seq<Chunk>)
    ensures AfterChunks(t, chunks).text == t.text + TextOwed(DueOf(t, chunks))
    ensures AfterChunks(t, chunks).images == t.images + ImagesOwed(DueOf(t, chunks))
    decreases |chunks|
  {
    if chunks == [] {
      assert t.text + "" == t.text && t.images + [] == t.images;
    } else {
      OwedForChunks(AfterChunk(t, chunks[0]), chunks[1..]);
      OwedForChunk(t, chunks[0], DueOf(AfterChunk(t, chunks[0]), chunks[1..]));
    }
  }

  lemma OwedForChunk(t: Turn, ch: Chunk, more: Due)
    ensures t.text + TextOwed(DueOfChunk(t, ch, more)) == AfterChunk(t, ch).text + TextOwed(more)
    ensures t.images + ImagesOwed(DueOfChunk(t, ch, more)) == AfterChunk(t, ch).images + ImagesOwed(more)
  {
    var text, images := News(t.text, ch.content), Keep(t.images, ch.images)[|t.images|..];
    KeepExtends(t.images, ch.images);
    Associate(t.text, text, TextOwed(more));
    Associate(t.images, images, ImagesOwed(more));
    assert text == "" ==> text + TextOwed(more) == TextOwed(more);
    assert images == [] ==> images + ImagesOwed(more) == ImagesOwed(more);
  }

  lemma {:induction false} KeepExtends(kept: seq<Image>, incoming: seq<Image>)
    ensures Keep(kept, incoming) == kept + Keep(kept, incoming)[|kept|..]
    decreases |incoming|
  {
    if incoming != [] {
      KeepExtends(kept, incoming[..|incoming| - 1]);
    }
  }

  /** With partial messages on, what was sent and what is still owed is the whole turn so far. */
  ghost predicate PartialsMatch(stage: Stage, t: Turn, tr: Trace) {
    if stage.Talking? then
      t.text == PartialsAt(tr) + TextOwed(stage.due) && t.images == PartialImagesAt(tr) + ImagesOwed(stage.due)
    else t.text == PartialsAt(tr) && t.images == PartialImagesAt(tr)
  }

  lemma {:induction false} PartialsAddUpToTurn(s: Setup, tr: Trace)
    requires Accepted(s, tr) && s.cfg.partials
    ensures var m := Watch(s, tr); !Closing(m.stage) ==> PartialsMatch(m.stage, m.book.turn, tr)
  {
    match tr
    case Begin =>
    case Then(before, e) =>
      var stage, b, next := Stepped(s, before, e);
      PartialsAddUpToTurn(s, before);
      if !Closing(next.stage) {
        PartialStep(s, stage, b, e, next, before);
      }
  }

  lemma PartialStep(s: Setup, stage: Stage, b: Book, e: Event, next: Monitor, before: Trace)
    requires s.cfg.partials && next.At? && Effect(s, stage, b, e, next) && Sound(s, stage, b)
    requires !Closing(next.stage)
    requires !Closing(stage) ==> PartialsMatch(stage, b.turn, before)
    ensures PartialsMatch(next.stage, next.book.turn, Then(before, e))
  {
    if e.Emit? && e.message.StreamEvent? {
      HearMatches(s, stage, b, e.message.raw, before);
    } else if e.Emit? && (e.message.PartialText? || e.message.PartialImages?) {
      SentMatches(s, stage, b, e.message, next, before);
    } else if e.Request? {
      RequestMatches(s, stage, b, e, next, before);
    } else if e.Outside? {
      OutsideMatches(stage, b, e.change, next, before);
    } else {
      TurnStays(s, stage, b, e, next);
      RestMatches(stage, b, e, next, before);
    }
  }

  lemma RequestMatches(s: Setup, stage: Stage, b: Book, e: Event, next: Monitor, before: Trace)
    requires e.Request? && RequestEffect(s, stage, b, e.model, e.history, next) && Sound(s, stage, b)
    ensures next.At? && PartialsMatch(next.stage, next.book.turn, Then(before, e))
  {
  }

  lemma OutsideMatches(stage: Stage, b: Book, change: Change, next: Monitor, before: Trace)
    requires next == OnOutside(stage, b, change) && PartialsMatch(stage, b.turn, before)
    ensures next.At? && PartialsMatch(next.stage, next.book.turn, Then(before, Outside(change)))
  {
    assert PartialsAt(Then(before, Outside(change))) == PartialsAt(before);
    assert PartialImagesAt(Then(before, Outside(change))) == PartialImagesAt(before);
  }

  lemma RestMatches(stage: Stage, b: Book, e: Event, next: Monitor, before: Trace)
    requires Rests(stage, b, next) && !e.Request? && PartialsMatch(stage, b.turn, before)
    requires !(e.Emit? && (e.message.PartialText? || e.message.PartialImages?))
    ensures PartialsMatch(next.stage, next.book.turn, Then(before, e))
  {
    assert TextOwed(Nothing) == "" && ImagesOwed(Nothing) == [];
  }

  /** The turn is left alone, and nothing is owed. */
  predicate Rests(stage: Stage, b: Book, next: Monitor) {
    && next.At? && next.book.turn == b.turn && !Closing(stage)
    && (stage.Talking? ==> stage.due.Nothing?)
    && (next.stage.Talking? ==> next.stage.due.Nothing?)
  }

  lemma MessagesRest(s: Setup, stage: Stage, b: Book, m: RunnerModel.Message, next: Monitor)
    requires MessageEffect(s, stage, b, m, next) && !m.StreamEvent? && !m.PartialText? && !m.PartialImages?
    requires next.At? && !Closing(next.stage)
    ensures Rests(stage, b, next)
  {
  }

  lemma HooksRest(s: Setup, stage: Stage, b: Book, e: Event, next: Monitor)
    requires e.Hooked? && HookEffect(s, stage, b, e, next)
    requires next.At? && !Closing(next.stage)
    ensures Rests(stage, b, next)
  {
  }

  /** Other events leave the turn alone, and come when nothing is owed. */
  lemma TurnStays(s: Setup, stage: Stage, b: Book, e: Event, next: Monitor)
    requires next.At? && Effect(s, stage, b, e, next) && !Closing(next.stage) && !e.Request? && !e.Outside?
    requires !(e.Emit? && (e.message.StreamEvent? || e.message.PartialText? || e.message.PartialImages?))
    ensures Rests(stage, b, next)
  {
    if e.Emit? {
      MessagesRest(s, stage, b, e.message, next);
    } else if e.Hooked? {
      HooksRest(s, stage, b, e, next);
    }
  }

  lemma SentMatches(s: Setup, stage: Stage, b: Book, m: RunnerModel.Message, next: Monitor, before: Trace)
    requires m.PartialText? || m.PartialImages?
    requires MessageEffect(s, stage, b, m, next) && PartialsMatch(stage, b.turn, before)
    ensures PartialsMatch(next.stage, next.book.turn, Then(before, Emit(m)))
  {
    if m.PartialText? {
      Associate(PartialsAt(before), m.text, TextOwed(stage.due.more));
    } else {
      Associate(PartialImagesAt(before), m.images, ImagesOwed(stage.due.more));
    }
  }

  lemma HearMatches(s: Setup, stage: Stage, b: Book, raw: Fields, before: Trace)
    requires s.cfg.partials && Idle(stage) && PartialsMatch(stage, b.turn, before)
    ensures var m := Hear(s, b, raw); PartialsMatch(m.stage, m.book.turn, Then(before, Emit(StreamEvent(raw))))
  {
    var t, tr := Priced(b.turn, raw), Then(before, Emit(StreamEvent(raw)));
    assert PartialsAt(tr) == PartialsAt(before) && PartialImagesAt(tr) == PartialImagesAt(before);
    NothingOwed(stage, b.turn, before);
    if s.parse(raw).Ok? {
      OwedForChunks(t, s.parse(raw).value);
    }
  }

  lemma NothingOwed(stage: Stage, t: Turn, tr: Trace)
    requires Idle(stage) && PartialsMatch(stage, t, tr)
    ensures t.text == PartialsAt(tr) && t.images == PartialImagesAt(tr)
  {
    assert TextOwed(Nothing) == "" && ImagesOwed(Nothing) == [];
  }

  // ---- cost and budget ----

  /** What the requests before the last one cost. */
  function SpentBefore(tr: Trace): real
    decreases tr, 0
  {
    match tr
    case Begin => 0.0
    case Then(before, e) => if e.Request? then SpentSoFar(before) else SpentBefore(before)
  }

  /** What all requests cost so far, each by the last cost its events reported. */
  function SpentSoFar(tr: Trace): real
    decreases tr, 1
  {
    SpentBefore(tr) + GetOr(LastCost(EventsAt(tr)), 0.0)
  }

  function PricedBefore(tr: Trace): bool
    decreases tr, 0
  {
    match tr
    case Begin => false
    case Then(before, e) => if e.Request? then PricedSoFar(before) else PricedBefore(before)
  }

  /** Some event has reported a cost. */
  function PricedSoFar(tr: Trace): bool
    decreases tr, 1
  {
    PricedBefore(tr) || LastCost(EventsAt(tr)).Some?
  }

  /** The total is within the budget, or no cost has been reported yet. */
  predicate InBudget(s: Setup, tr: Trace) {
    s.cfg.budget.Some? && PricedSoFar(tr) ==> SpentSoFar(tr) <= s.cfg.budget.value
  }

  predicate WasInBudget(s: Setup, tr: Trace) {
    s.cfg.budget.Some? && PricedBefore(tr) ==> SpentBefore(tr) <= s.cfg.budget.value
  }

  /** A request is only sent, and a tool only announced or run, within the budget. */
  predicate KeepsBudget(s: Setup, tr: Trace) {
    match tr
    case Begin => true
    case Then(before, e) =>
      && KeepsBudget(s, before)
      && (e.Request? || (e.Emit? && e.message.ToolUse?) || e.Executed? ==> InBudget(s, before))
  }

  /** What results say: the exact sum of what all requests cost, unless the last turn reported none;
      usage and text of the last turn; and an exceeded budget only if the last turn is what exceeds it. */
  predicate ResultsAreExact(s: Setup, tr: Trace) {
    match tr
    case Begin => true
    case Then(before, e) => ResultsAreExact(s, before) && (IsResult(e) ==> ResultIsExact(s, before, e.message))
  }

  predicate ResultIsExact(s: Setup, before: Trace, m: RunnerModel.Message)
    requires m.ResultMessage?
  {
    var cost := LastCost(EventsAt(before));
    match m.reason
    case EndTurn =>
      && m.cost == (if cost.Some? then Some(SpentSoFar(before)) else None)
      && m.usage == LastUsage(EventsAt(before))
      && var text := TrimSpace(TurnAt(s.parse, before).text);
        m.answer == if text == "" then None else Some(text)
    case MaxBudget =>
      && m.cost == Some(SpentSoFar(before)) && !InBudget(s, before) && WasInBudget(s, before)
      && cost.Some? && s.cfg.budget.Some? && m.usage == LastUsage(EventsAt(before)) && m.answer == None
      && var before1 := if PricedBefore(before) then s.cfg.budget.value else 0.0;
        SpentSoFar(before) - cost.value <= before1
    case Interrupted => m.cost == None && m.usage == None
  }

  ghost predicate BudgetAt(s: Setup, stage: Stage, b: Book, tr: Trace) {
    && b.turn == TurnAt(s.parse, tr)
    && b.turn.cost == LastCost(EventsAt(tr)) && b.turn.usage == LastUsage(EventsAt(tr))
    && b.total == SpentBefore(tr)
    && (PricedBefore(tr) || b.total == 0.0)
    && (!Closing(stage) ==> WasInBudget(s, tr))
    && (InCall(stage) || stage.Calling? ==> InBudget(s, tr))
  }

  /** A request is only sent within the budget, or to repeat one that cost nothing. */
  lemma BudgetAtRequest(s: Setup, stage: Stage, b: Book, model: string, history: seq<Entry>, next: Monitor,
          before: Trace)
    requires RequestEffect(s, stage, b, model, history, next) && Sound(s, stage, b) && BudgetAt(s, stage, b, before)
    ensures InBudget(s, before)
    ensures next.At? && BudgetAt(s, next.stage, next.book, Then(before, Request(model, history)))
  {
  }

  lemma ResultExact(s: Setup, stage: Stage, b: Book, m: RunnerModel.Message, next: Monitor, before: Trace)
    requires m.ResultMessage? && MessageEffect(s, stage, b, m, next) && BudgetAt(s, stage, b, before)
    ensures ResultIsExact(s, before, m)
  {
  }

  lemma BudgetAtEndTurn(s: Setup, stage: Stage, b: Book, m: RunnerModel.Message, next: Monitor, before: Trace)
    requires m.ResultMessage? && m.reason == EndTurn && MessageEffect(s, stage, b, m, next)
    requires BudgetAt(s, stage, b, before)
    ensures next.At? && BudgetAt(s, next.stage, next.book, Then(before, Emit(m)))
  {
  }

  lemma BudgetAtResult(s: Setup, stage: Stage, b: Book, m: RunnerModel.Message, next: Monitor, before: Trace)
    requires m.ResultMessage? && MessageEffect(s, stage, b, m, next) && BudgetAt(s, stage, b, before)
    ensures next.At? && BudgetAt(s, next.stage, next.book, Then(before, Emit(m)))
  {
    if m.reason == EndTurn {
      BudgetAtEndTurn(s, stage, b, m, next, before);
    } else {
      assert next == At(Ended, b);
    }
  }

  /** Apart from requests, events and results, nothing about turn and costs changes. */
  lemma TurnKept(s: Setup, stage: Stage, b: Book, e: Event, next: Monitor)
    requires next.At? && Effect(s, stage, b, e, next)
    requires !IsResult(e) && !e.Request? && !(e.Emit? && e.message.StreamEvent?)
    ensures next.book.total == b.total && next.book.turn == b.turn
  {
  }

  lemma CallsAreWithinBudget(s: Setup, stage: Stage, b: Book, e: Event, next: Monitor)
    requires next.At? && Effect(s, stage, b, e, next) && Sound(s, stage, b)
    requires !IsResult(e) && !e.Request? && !(e.Emit? && e.message.StreamEvent?)
    ensures InCall(next.stage) || next.stage.Calling? || (e.Emit? && e.message.ToolUse?) || e.Executed? ==>
        WithinBudget(s, b)
  {
  }

  lemma BudgetCarries(s: Setup, stage: Stage, b: Book, e: Event, next: Monitor, before: Trace)
    requires BudgetAt(s, stage, b, before) && !e.Request? && next.At?
    requires next.book.turn == TurnAt(s.parse, Then(before, e)) && next.book.total == b.total
    requires next.book.turn.cost == LastCost(EventsAt(Then(before, e)))
    requires next.book.turn.usage == LastUsage(EventsAt(Then(before, e)))
    requires Closing(stage) ==> Closing(next.stage)
    requires InCall(next.stage) || next.stage.Calling? ==> WithinBudget(s, b) && next.book.turn == b.turn
    ensures BudgetAt(s, next.stage, next.book, Then(before, e))
    ensures WithinBudget(s, b) && !Closing(stage) ==> InBudget(s, before)
  {
  }

  lemma BudgetStep(s: Setup, stage: Stage, b: Book, e: Event, next: Monitor, before: Trace)
    requires next.At? && Effect(s, stage, b, e, next) && Sound(s, stage, b) && BudgetAt(s, stage, b, before)
    requires next.book.turn == TurnAt(s.parse, Then(before, e))
    requires !e.Request? && !IsResult(e)
    ensures BudgetAt(s, next.stage, next.book, Then(before, e))
    ensures (e.Emit? && e.message.ToolUse?) || e.Executed? ==>
        WithinBudget(s, b) && !Closing(stage) && InBudget(s, before)
  {
    Closes(s, stage, b, e, next);
    TurnCostsItsEvents(s.parse, Then(before, e));
    if e.Emit? && e.message.StreamEvent? {
      HearIs(s, b, e.message.raw);
    } else {
      TurnKept(s, stage, b, e, next);
      CallsAreWithinBudget(s, stage, b, e, next);
    }
    BudgetCarries(s, stage, b, e, next, before);
  }

  lemma {:induction false} BudgetIsKept(s: Setup, tr: Trace)
    requires Accepted(s, tr)
    ensures KeepsBudget(s, tr) && ResultsAreExact(s, tr)
    ensures BudgetAt(s, Watch(s, tr).stage, Watch(s, tr).book, tr)
  {
    match tr
    case Begin =>
    case Then(before, e) =>
      var stage, b, next := Stepped(s, before, e);
      TurnIsFolded(s, tr);
      BudgetIsKept(s, before);
      if e.Request? {
        BudgetAtRequest(s, stage, b, e.model, e.history, next, before);
      } else if IsResult(e) {
        ResultExact(s, stage, b, e.message, next, before);
        BudgetAtResult(s, stage, b, e.message, next, before);
      } else {
        BudgetStep(s, stage, b, e, next, before);
      }
  }
}
