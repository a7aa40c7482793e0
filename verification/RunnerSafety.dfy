/** Every run obeys the protocol, whatever its surroundings do: the runner's functions are followed by
    the automaton one by one. */
module RunnerSafety {
  import opened Basics
  import opened Json
  import opened Decimal
  import opened Folding
  import opened EventMapper
  import opened History
  import opened Policy
  import opened FileTree
  import opened SessionStore
  import opened RunnerModel
  import opened RunnerProtocol
  import opened RunnerEffects

  ghost predicate Fits(s: Setup, w: World) {
    s.parse == w.parse && s.decode == w.decode
  }

  ghost predicate Closed(s: Setup, tr: Trace) {
    Watch(s, tr).At? && Watch(s, tr).stage == Ended
  }

  /** The run is over as the protocol wants it, or still within the protocol. */
  ghost predicate Obeys<T>(s: Setup, f: Flow<T>) {
    && (f.Over? ==> Closed(s, f.trace))
    && (f.Waiting? ==> Accepted(s, f.trace))
  }

  // ---- single steps ----

  ghost predicate CanStop(s: Setup, stage: Stage, b: Book, f: Failure) {
    Step(s, stage, b, Fail(f)) == At(Ended, b)
  }

  lemma StopFollows(s: Setup, tr: Trace, stage: Stage, b: Book, f: Failure)
    requires Watch(s, tr) == At(stage, b) && CanStop(s, stage, b, f)
    ensures Closed(s, Then(tr, Fail(f)))
  {
    Took(s, tr, Fail(f));
  }

  lemma SendFollows(s: Setup, w: World, tr: Trace, stage: Stage, b: Book, message: RunnerModel.Message, stage1: Stage,
          b1: Book)
    requires Watch(s, tr) == At(stage, b) && CanStop(s, stage, b, Cancelled)
    requires Step(s, stage, b, Emit(message)) == At(stage1, b1)
    ensures var f := Send(w, tr, message); Obeys(s, f) && (f.Go? ==> Watch(s, f.trace) == At(stage1, b1))
  {
    Took(s, tr, Emit(message));
    Took(s, tr, Fail(Cancelled));
  }

  lemma ConcludeFollows<T>(s: Setup, w: World, tr: Trace, stage: Stage, b: Book, message: RunnerModel.Message)
    requires Watch(s, tr) == At(stage, b) && CanStop(s, stage, b, Cancelled)
    requires Step(s, stage, b, Emit(message)) == At(Ended, b)
    ensures var f: Flow<T> := Conclude(w, tr, message); Obeys(s, f) && !f.Go?
  {
    Took(s, tr, Emit(message));
    Took(s, tr, Fail(Cancelled));
  }

  lemma ProblemFollows(s: Setup, tr: Trace, b: Book, problem: Option<Failure>, stage: Stage)
    requires Watch(s, tr) == Unless(problem, b, stage)
    ensures if problem.Some? then Closed(s, Then(tr, Fail(problem.value))) else Watch(s, tr) == At(stage, b)
  {
    if problem.Some? {
      StopFollows(s, tr, Stopping(problem.value), b, problem.value);
    }
  }

  lemma HookFollows(s: Setup, w: World, tr: Trace, stage: Stage, b: Book, h: HookEvent, callId: string, input: Fields,
                    stage1: Stage, b1: Book)
    requires Watch(s, tr) == At(stage, b)
    requires var reply := w.hook(tr, h);
      Step(s, stage, b, Hooked(h, callId, input, reply)) == Unless(HookProblem(h, reply), b1, stage1)
    ensures var f := RunHook(w, tr, h, callId, input);
      Obeys(s, f) && (f.Go? ==> f.value == w.hook(tr, h) && Watch(s, f.trace) == At(stage1, b1))
  {
    var reply := w.hook(tr, h);
    Took(s, tr, Hooked(h, callId, input, reply));
    ProblemFollows(s, Then(tr, Hooked(h, callId, input, reply)), b1, HookProblem(h, reply), stage1);
  }

  lemma TolerantHookFollows(s: Setup, w: World, tr: Trace, stage: Stage, b: Book, h: HookEvent, callId: string,
          input: Fields, stage1: Stage)
    requires Watch(s, tr) == At(stage, b)
    requires var reply := w.hook(tr, h);
      Step(s, stage, b, Hooked(h, callId, input, reply)) == Unless(OutputProblem(h, reply), b, stage1)
    ensures var f := RunHookIgnoringError(w, tr, h, callId, input);
      Obeys(s, f) && (f.Go? ==> Watch(s, f.trace) == At(stage1, b))
  {
    var reply := w.hook(tr, h);
    Took(s, tr, Hooked(h, callId, input, reply));
    ProblemFollows(s, Then(tr, Hooked(h, callId, input, reply)), b, OutputProblem(h, reply), stage1);
  }

  // ---- changes from outside ----

  /** Policy and model may have changed, and nothing else. */
  predicate Drifted(b: Book, b1: Book) {
    b1 == b.(policy := b1.policy, model := b1.model)
  }

  ghost predicate StandsAt(s: Setup, tr: Trace, stage: Stage, b: Book) {
    Watch(s, tr).At? && Watch(s, tr).stage == stage && Drifted(b, Watch(s, tr).book)
  }

  lemma {:induction false} DriftFollows(s: Setup, tr: Trace, stage: Stage, b: Book, changes: seq<Change>)
    requires Watch(s, tr) == At(stage, b)
    ensures StandsAt(s, Drift(tr, changes), stage, b)
    decreases |changes|
  {
    if changes != [] {
      var n := |changes| - 1;
      DriftFollows(s, tr, stage, b, changes[..n]);
      Took(s, Drift(tr, changes[..n]), Outside(changes[n]));
    }
  }

  // ---- streams ----

  function Owed(s: Setup, due: Due): Stage {
    Talking(if s.cfg.partials then due else Nothing)
  }

  lemma PartialFollows(s: Setup, w: World, tr: Trace, b: Book, t: Turn, message: RunnerModel.Message, due: Due)
    requires Watch(s, tr) == At(Talking(due), b) && !due.Nothing?
    requires message == if due.OwedText? then PartialText(due.text) else PartialImages(due.images)
    ensures var p := SendPartial(w, tr, t, message);
        p.turn == t && Watch(s, p.trace) == At(Talking(if p.ok then due.more else due), b)
  {
    Took(s, tr, Emit(message));
  }

  /** The work done, nothing of it is owed any more; or it was cut short while something was. */
  ghost predicate Paid(s: Setup, b: Book, p: Partly, after: Turn, due: Due) {
    if p.ok then p.turn == after && Watch(s, p.trace) == At(Owed(s, due), b)
    else exists rest :: Watch(s, p.trace) == At(Talking(rest), b)
  }

  lemma AddTextFollows(s: Setup, w: World, tr: Trace, b: Book, t: Turn, content: string, more: Due)
    requires var news := News(t.text, content);
      Watch(s, tr) == At(Owed(s, if news == "" then more else OwedText(news, more)), b)
    ensures Paid(s, b, AddText(w, s.cfg, tr, t, content), t.(text := t.text + News(t.text, content)), more)
  {
    var news := News(t.text, content);
    if s.cfg.partials && news != "" {
      PartialFollows(s, w, tr, b, t.(text := t.text + news), PartialText(news), OwedText(news, more));
    }
  }

  lemma AddImagesFollows(s: Setup, w: World, tr: Trace, b: Book, t: Turn, images: seq<Image>, more: Due)
    requires var news := Keep(t.images, images)[|t.images|..];
      Watch(s, tr) == At(Owed(s, if news == [] then more else OwedImages(news, more)), b)
    ensures Paid(s, b, AddImages(w, s.cfg, tr, t, images), t.(images := Keep(t.images, images)), more)
  {
    var kept := Keep(t.images, images);
    if s.cfg.partials && kept[|t.images|..] != [] {
      var news := kept[|t.images|..];
      PartialFollows(s, w, tr, b, t.(images := kept), PartialImages(news), OwedImages(news, more));
    }
  }

  lemma AddChunkFollows(s: Setup, w: World, tr: Trace, b: Book, t: Turn, ch: Chunk, more: Due)
    requires Watch(s, tr) == At(Owed(s, DueOfChunk(t, ch, more)), b)
    ensures Paid(s, b, AddChunk(w, s.cfg, tr, t, ch), AfterChunk(t, ch), more)
  {
    var images := Keep(t.images, ch.images)[|t.images|..];
    var behind := if images == [] then more else OwedImages(images, more);
    AddTextFollows(s, w, tr, b, t, ch.content, behind);
    var p := AddText(w, s.cfg, tr, t, ch.content);
    if p.ok {
      AddImagesFollows(s, w, p.trace, b, p.turn, ch.images, more);
    }
  }

  lemma {:induction false} AddChunksFollow(s: Setup, w: World, tr: Trace, b: Book, t: Turn, chunks: seq<Chunk>)
    requires Watch(s, tr) == At(Owed(s, DueOf(t, chunks)), b)
    ensures Paid(s, b, AddChunks(w, s.cfg, tr, t, chunks), AfterChunks(t, chunks), Nothing)
    decreases |chunks|
  {
    if chunks != [] {
      AddChunkFollows(s, w, tr, b, t, chunks[0], DueOf(AfterChunk(t, chunks[0]), chunks[1..]));
      var p := AddChunk(w, s.cfg, tr, t, chunks[0]);
      if p.ok {
        AddChunksFollow(s, w, p.trace, b, p.turn, chunks[1..]);
      }
    }
  }

  /** The stages of a stream loop between two events. */
  ghost predicate Hearing(stage: Stage, b: Book, emitted: bool) {
    if emitted then stage == Talking(Nothing) else stage.Quiet? && b.turn == BLANK_TURN
  }

  /** Where a stream loop stands: the turn folded to t, everything else as in b. */
  ghost predicate Listening(s: Setup, tr: Trace, b: Book, t: Turn, emitted: bool) {
    Watch(s, tr).At? && Watch(s, tr).book == b.(turn := t) && Hearing(Watch(s, tr).stage, b.(turn := t), emitted)
  }

  lemma EventFollows(s: Setup, w: World, tr: Trace, b: Book, t: Turn, emitted: bool, raw: Fields)
    requires Fits(s, w) && Listening(s, tr, b, t, emitted)
    ensures var p := Digest(w, s.cfg, Then(tr, Emit(StreamEvent(raw))), t, raw);
      if p.ok then Listening(s, p.trace, b, p.turn, true) else Closed(s, Then(p.trace, Fail(Cancelled)))
  {
    var tr1, t1 := Then(tr, Emit(StreamEvent(raw))), Priced(t, raw);
    Took(s, tr, Emit(StreamEvent(raw)));
    var p := Digest(w, s.cfg, tr1, t, raw);
    match s.parse(raw) {
      case Ok(chunks) =>
        AddChunksFollow(s, w, tr1, b.(turn := AfterChunks(t1, chunks)), t1, chunks);
        if !p.ok {
          Took(s, p.trace, Fail(Cancelled));
        }
      case Err(error) =>
        Took(s, tr1, Fail(ChunkFailed(error)));
        Took(s, tr1, Fail(Cancelled));
    }
  }

  /** What a stream loop comes to: a finished turn, a failure that may be reported, or, if nothing was
      ever emitted, a failure that left no trace at all, no usage and no cost. */
  ghost predicate StreamedWell(s: Setup, tr: Trace, b: Book, spoke: bool, r: Streamed) {
    match r
    case Streaming(tr1) => Accepted(s, tr1)
    case Complete(tr1, t) => exists raw, emitted :: Listening(s, tr1, b, raw, emitted) && Final(raw) == t
    case Broken(tr1, t, f, emitted) =>
      && (f == Cancelled || f.TransportFailed?)
      && (spoke ==> emitted)
      && if emitted then Closed(s, Then(tr1, Fail(f))) else tr1 == tr && t == BLANK_TURN
  }

  lemma BreakFollows(s: Setup, tr: Trace, b: Book, t: Turn, emitted: bool, f: Failure)
    requires Listening(s, tr, b, t, emitted) && (f == Cancelled || f.TransportFailed?)
    ensures StreamedWell(s, tr, b, emitted, Broken(tr, t, f, emitted))
  {
    if emitted {
      Took(s, tr, Fail(f));
    }
  }

  lemma {:induction false} StreamFollows(s: Setup, w: World, rounds: seq<Round>, streamOpen: bool, errorsOpen: bool,
                                         tr: Trace, b: Book, t: Turn, emitted: bool)
    requires Fits(s, w) && Listening(s, tr, b, t, emitted)
    ensures StreamedWell(s, tr, b, emitted, Stream(w, s.cfg, rounds, streamOpen, errorsOpen, tr, t, emitted))
    decreases |rounds|, 0
  {
    if (streamOpen || errorsOpen) && rounds != [] {
      var r, rest := rounds[0], rounds[1..];
      if streamOpen && r.first.Got? {
        OnEventFollows(s, w, rest, errorsOpen, tr, b, t, emitted, r.first.raw);
      } else if streamOpen && r.first.FoundClosed? {
        StreamFollows(s, w, rest, false, errorsOpen, tr, b, t, emitted);
      } else {
        match r.second {
          case TakeEvent(raw) =>
            if streamOpen {
              OnEventFollows(s, w, rest, errorsOpen, tr, b, t, emitted, raw);
            } else {
              StreamFollows(s, w, rest, streamOpen, errorsOpen, tr, b, t, emitted);
            }
          case TakeClosed => StreamFollows(s, w, rest, false, errorsOpen, tr, b, t, emitted);
          case TakeErrorsClosed => StreamFollows(s, w, rest, streamOpen, false, tr, b, t, emitted);
          case TakeError(e) =>
            if errorsOpen && e.Some? {
              BreakFollows(s, tr, b, t, emitted, TransportFailed(e.value));
            } else {
              StreamFollows(s, w, rest, streamOpen, errorsOpen, tr, b, t, emitted);
            }
          case TakeDone => BreakFollows(s, tr, b, t, emitted, Cancelled);
        }
      }
    }
  }

  lemma {:induction false} OnEventFollows(s: Setup, w: World, rest: seq<Round>, errorsOpen: bool,
                                          tr: Trace, b: Book, t: Turn, emitted: bool, raw: Fields)
    requires Fits(s, w) && Listening(s, tr, b, t, emitted)
    ensures StreamedWell(s, tr, b, emitted, OnEvent(w, s.cfg, rest, errorsOpen, tr, t, emitted, raw))
    decreases |rest|, 1
  {
    if w.sends(tr) {
      EventFollows(s, w, tr, b, t, emitted, raw);
      var p := Digest(w, s.cfg, Then(tr, Emit(StreamEvent(raw))), t, raw);
      if p.ok {
        StreamFollows(s, w, rest, true, errorsOpen, p.trace, b, p.turn, true);
        assert OnEvent(w, s.cfg, rest, errorsOpen, tr, t, emitted, raw)
            == Stream(w, s.cfg, rest, true, errorsOpen, p.trace, p.turn, true);
      }
    } else {
      BreakFollows(s, tr, b, t, emitted, Cancelled);
    }
  }

  // ---- attempts ----

  /** The next request may go out, and starts a turn. */
  ghost predicate MayStart(s: Setup, stage: Stage, b: Book, history: seq<Entry>) {
    && (stage.Inputs? || stage.Calling?)
    && Step(s, stage, b, Request(PickModel(b.model), history)) == NewTurn(b, history)
  }

  /** The turn has been streamed to its end. */
  ghost predicate TurnStreamed(s: Setup, tr: Trace, b: Book, t: Turn) {
    exists raw, emitted :: Listening(s, tr, b, raw, emitted) && Final(raw) == t
  }

  lemma AttemptFollows(s: Setup, w: World, tr: Trace, b: Book, first: bool, model: string, history: seq<Entry>)
    requires Fits(s, w) && Watch(s, Then(tr, Request(model, history))) == At(Quiet(first), b) && b.turn == BLANK_TURN
    ensures StreamedWell(s, Then(tr, Request(model, history)), b, false, RunStream(w, s.cfg, tr, model, history))
  {
    var tr1 := Then(tr, Request(model, history));
    StreamFollows(s, w, w.rounds(tr1), true, true, tr1, b, BLANK_TURN, false);
  }

  /** What the first attempt decides about all of them. */
  lemma FirstAttempt(w: World, cfg: Config, tr: Trace, picked: string, history: seq<Entry>, r: Streamed)
    requires r == RunStream(w, cfg, tr, picked, history)
    ensures var f := Attempts(w, cfg, tr, Models(cfg, picked), history, None);
      match r
      case Streaming(tr1) => f == Waiting(tr1)
      case Complete(tr1, t) => f == Go(tr1, (t, AddCost(None, t.cost)))
      case Broken(tr1, t, e, emitted) =>
        f == if emitted || !HasFallback(cfg, picked) then Over(Then(tr1, Fail(e)))
             else Attempts(w, cfg, tr1, [cfg.fallback], history, AddCost(None, t.cost))
  {
    if HasFallback(cfg, picked) {
      assert Models(cfg, picked)[1..] == [cfg.fallback];
    }
  }

  lemma AttemptsFollow(s: Setup, w: World, tr: Trace, stage: Stage, b: Book, history: seq<Entry>)
    requires Fits(s, w) && Watch(s, tr) == At(stage, b) && MayStart(s, stage, b, history)
    ensures var f := Attempts(w, s.cfg, tr, Models(s.cfg, PickModel(b.model)), history, None);
      Obeys(s, f) && (f.Go? ==>
        f.value.1 == f.value.0.cost && TurnStreamed(s, f.trace, NewTurn(b, history).book, f.value.0))
  {
    var picked, b1 := PickModel(b.model), NewTurn(b, history).book;
    var tr1 := Then(tr, Request(picked, history));
    Took(s, tr, Request(picked, history));
    AttemptFollows(s, w, tr, b1, true, picked, history);
    var r := RunStream(w, s.cfg, tr, picked, history);
    FirstAttempt(w, s.cfg, tr, picked, history, r);
    if r.Broken? && !r.emitted {
      assert r.trace == tr1 && AddCost(None, r.turn.cost) == None;
      if HasFallback(s.cfg, picked) {
        FallbackFollows(s, w, tr1, b1);
      } else {
        StopFollows(s, tr1, Quiet(true), b1, r.failure);
      }
    }
  }

  lemma FallbackFollows(s: Setup, w: World, tr: Trace, b: Book)
    requires Fits(s, w) && Watch(s, tr) == At(Quiet(true), b) && b.turn == BLANK_TURN && HasFallback(s.cfg, b.picked)
    ensures var f := Attempts(w, s.cfg, tr, [s.cfg.fallback], b.history, None);
      Obeys(s, f) && (f.Go? ==> f.value.1 == f.value.0.cost && TurnStreamed(s, f.trace, b, f.value.0))
  {
    var tr1 := Then(tr, Request(s.cfg.fallback, b.history));
    Took(s, tr, Request(s.cfg.fallback, b.history));
    AttemptFollows(s, w, tr, b, false, s.cfg.fallback, b.history);
    var r := RunStream(w, s.cfg, tr, s.cfg.fallback, b.history);
    if r.Broken? && !r.emitted {
      StopFollows(s, tr1, Quiet(false), b, r.failure);
    }
  }

  // ---- tool calls ----

  /** The stream is over, within budget, and any final text has been shown. */
  ghost predicate CallsNext(s: Setup, stage: Stage, b: Book) {
    || stage == Calling
    || ((stage.Quiet? || stage == Talking(Nothing)) && b.answers == []
        && !OverBudget(s.cfg, Spent(b), b.turn.cost) && !ShowsFinal(s.cfg, Final(b.turn)))
  }

  ghost predicate AtCall(b: Book, c: Call) {
    |b.answers| < |Ordered(b.turn.calls)| && c == CurrentCall(b)
  }

  lemma AskPermissionFollows(s: Setup, w: World, tr: Trace, stage: Stage, b: Book, c: Call)
    requires Fits(s, w) && Watch(s, tr) == At(stage, b) && CallsNext(s, stage, b) && AtCall(b, c)
    ensures var f := AskPermission(w, tr, c); Obeys(s, f) && (f.Go? ==> StandsAt(s, f.trace, Decided(f.value), b))
  {
    var input := DecodedInput(w.decode, c);
    SendFollows(s, w, tr, stage, b, ToolUse(c.id, c.name, input), Announced, b);
    var sent := Send(w, tr, ToolUse(c.id, c.name, input));
    if sent.Go? {
      var d := Decide(w.hook(sent.trace, PermissionRequest).outputs, input);
      HookFollows(s, w, sent.trace, Announced, b, PermissionRequest, c.id, input,
                  if d.updates == [] then Decided(d) else Granting(d), b);
      var heard := RunHook(w, sent.trace, PermissionRequest, c.id, input);
      if heard.Go? {
        ConcedeFollows(s, w, heard.trace, b, d);
      }
    }
  }

  lemma ConcedeFollows(s: Setup, w: World, tr: Trace, b: Book, d: Decision)
    requires Watch(s, tr) == At(if d.updates == [] then Decided(d) else Granting(d), b)
    ensures var f := Concede(w, tr, d); f.Go? && f.value == d && StandsAt(s, f.trace, Decided(d), b)
  {
    if d.updates != [] {
      DriftFollows(s, tr, Granting(d), b, w.outside(tr));
      Took(s, Elapse(w, tr), Granted(Present(d.updates)));
    }
  }

  lemma RefuseFollows<T>(s: Setup, w: World, tr: Trace, b: Book, turn: nat, c: Call, d: Decision)
    requires Watch(s, tr) == At(Decided(d), b) && AtCall(b, c) && d.deny && b.turns == turn + 1
    ensures var f: Flow<T> := Refuse(w, tr, turn, c, d); Obeys(s, f) && !f.Go?
  {
    TolerantHookFollows(s, w, tr, Decided(d), b, PostToolUseFailure, c.id, d.input, Refused(d));
    var told := RunHookIgnoringError(w, tr, PostToolUseFailure, c.id, d.input);
    if told.Go? {
      if d.interrupt {
        ConcludeFollows<T>(s, w, told.trace, Refused(d), b, InterruptedResult(turn, DeniedText(c.name, d.message)));
      } else {
        StopFollows(s, told.trace, Refused(d), b, PermissionDenied(c.name, d.message));
      }
    }
  }

  lemma SameCallDrifted(b: Book, b1: Book)
    requires Drifted(b, b1)
    ensures CurrentCall(b1) == CurrentCall(b)
  {
  }

  /** What the gates report is what may be reported. */
  lemma GateReports(pol: Policy, tool: string, input: Fields, w: ToolWorld)
    requires w.registered
    ensures var g, denied := Gate(pol, tool, input, w), Denies(pol, tool);
      && Reported(denied, false, g.outcome, g.invoked)
      && (!denied && w.callback.Some? && w.callback.value.AllowTool? ==> Reported(false, true, g.outcome, g.invoked))
  {
  }

  /** Behind the look at the policy and whatever came with the callback's answer. */
  ghost predicate PastGates(s: Setup, tr: Trace, b: Book, input: Fields, g: Gated) {
    || (exists denied :: StandsAt(s, tr, Looked(input, denied), b) && Reported(denied, false, g.outcome, g.invoked))
    || (StandsAt(s, tr, Consented(input), b) && Reported(false, true, g.outcome, g.invoked))
  }

  /** Past a look that did not deny, the callback is asked. */
  lemma CallbackFollows(s: Setup, tr: Trace, b: Book, input: Fields, tool: ToolWorld, g: Gated)
    requires Watch(s, tr) == At(Looked(input, false), b) && tool.callback.Some?
    requires Reported(false, false, g.outcome, g.invoked)
    requires tool.callback.value.AllowTool? ==> Reported(false, true, g.outcome, g.invoked)
    ensures var asked, reply := Drift(tr, OnPolicy(tool.meanwhile)), tool.callback.value;
      var answered :=
        if reply.AllowTool? && reply.updates != [] then Then(asked, Granted(Present(reply.updates))) else asked;
      PastGates(s, answered, b, input, g)
  {
    var asked := Drift(tr, OnPolicy(tool.meanwhile));
    DriftFollows(s, tr, Looked(input, false), b, OnPolicy(tool.meanwhile));
    if tool.callback.value.AllowTool? && tool.callback.value.updates != [] {
      Took(s, asked, Granted(Present(tool.callback.value.updates)));
    }
  }

  lemma PassGatesFollows(s: Setup, tr: Trace, b: Book, c: Call, input: Fields, tool: ToolWorld)
    requires Watch(s, tr) == At(Allowed(input), b) && AtCall(b, c) && tool.registered
    ensures var now := PolicyAt(s.policy, tr);
      PastGates(s, PassGates(tr, Denies(now, c.name), c, tool), b, input, Gate(now, c.name, input, tool))
  {
    InForce(s, tr);
    GateReports(b.policy, c.name, input, tool);
    var denied, g := Denies(b.policy, c.name), Gate(b.policy, c.name, input, tool);
    var looked := Then(tr, Checked(c.id, c.name, denied));
    Took(s, tr, looked.last);
    if denied || tool.callback.None? {
      assert StandsAt(s, looked, Looked(input, denied), b);
    } else {
      CallbackFollows(s, looked, b, input, tool, g);
    }
  }

  lemma LookedRuns(s: Setup, tr: Trace, b: Book, c: Call, input: Fields, denied: bool, g: Gated)
    requires StandsAt(s, tr, Looked(input, denied), b) && Reported(denied, false, g.outcome, g.invoked)
    requires c == CurrentCall(b)
    ensures StandsAt(s, Then(tr, Executed(c.id, c.name, input, g.outcome, g.invoked)), Ran(input, g.outcome), b)
  {
    SameCallDrifted(b, Watch(s, tr).book);
    Took(s, tr, Executed(c.id, c.name, input, g.outcome, g.invoked));
  }

  lemma ConsentedRuns(s: Setup, tr: Trace, b: Book, c: Call, input: Fields, g: Gated)
    requires StandsAt(s, tr, Consented(input), b) && Reported(false, true, g.outcome, g.invoked) && c == CurrentCall(b)
    ensures StandsAt(s, Then(tr, Executed(c.id, c.name, input, g.outcome, g.invoked)), Ran(input, g.outcome), b)
  {
    SameCallDrifted(b, Watch(s, tr).book);
    Took(s, tr, Executed(c.id, c.name, input, g.outcome, g.invoked));
  }

  lemma ExecutedFollows(s: Setup, tr: Trace, b: Book, c: Call, input: Fields, g: Gated)
    requires PastGates(s, tr, b, input, g) && AtCall(b, c)
    ensures StandsAt(s, Then(tr, Executed(c.id, c.name, input, g.outcome, g.invoked)), Ran(input, g.outcome), b)
  {
    if denied :| StandsAt(s, tr, Looked(input, denied), b) && Reported(denied, false, g.outcome, g.invoked) {
      LookedRuns(s, tr, b, c, input, denied, g);
    } else {
      ConsentedRuns(s, tr, b, c, input, g);
    }
  }

  lemma ExecuteFollows(s: Setup, w: World, tr: Trace, b: Book, c: Call, d: Decision)
    requires Watch(s, tr) == At(Decided(d), b) && AtCall(b, c) && !d.deny
    ensures var f := Execute(w, tr, s.policy, c, d.input);
      Obeys(s, f) && (f.Go? ==> StandsAt(s, f.trace, Ran(d.input, f.value), b))
  {
    HookFollows(s, w, tr, Decided(d), b, PreToolUse, c.id, d.input, Allowed(d.input), b);
    var heard := RunHook(w, tr, PreToolUse, c.id, d.input);
    if heard.Go? {
      var tool, tr1 := w.tool(heard.trace), Elapse(w, heard.trace);
      DriftFollows(s, heard.trace, Allowed(d.input), b, w.outside(heard.trace));
      var b1 := Watch(s, tr1).book;
      SameCallDrifted(b, b1);
      GatedFollows(s, tr1, b1, c, d.input, tool);
    }
  }

  lemma GatedFollows(s: Setup, tr: Trace, b: Book, c: Call, input: Fields, tool: ToolWorld)
    requires Watch(s, tr) == At(Allowed(input), b) && AtCall(b, c)
    ensures var now := PolicyAt(s.policy, tr);
      var g := Gate(now, c.name, input, tool);
      StandsAt(s, Then(PassGates(tr, Denies(now, c.name), c, tool),
                       Executed(c.id, c.name, input, g.outcome, g.invoked)),
               Ran(input, g.outcome), b)
  {
    var now := PolicyAt(s.policy, tr);
    var g := Gate(now, c.name, input, tool);
    if tool.registered {
      PassGatesFollows(s, tr, b, c, input, tool);
      ExecutedFollows(s, PassGates(tr, Denies(now, c.name), c, tool), b, c, input, g);
    } else {
      Took(s, tr, Executed(c.id, c.name, input, g.outcome, g.invoked));
    }
  }

  /** The call's answer is shown and counted. */
  ghost predicate Settled(s: Setup, b: Book, c: Call, f: Flow<Entry>) {
    && Obeys(s, f)
    && (f.Go? ==> f.value.Answer? && f.value.callId == c.id
                  && Watch(s, f.trace) == At(Calling, b.(answers := b.answers + [f.value])))
  }

  lemma PostedFollows(s: Setup, w: World, tr: Trace, b: Book, c: Call, outcome: ToolOutcome)
    requires Watch(s, tr) == At(Posted(outcome), b) && AtCall(b, c) && !(Interrupts(outcome))
    ensures var text := AnswerText(outcome);
      var f := Send(w, tr, ToolAnswer(c.id, text, !outcome.Answered?));
      Obeys(s, f) && (f.Go? ==> Watch(s, f.trace) == At(Calling, b.(answers := b.answers + [Answer(c.id, text)])))
  {
    var text := AnswerText(outcome);
    SendFollows(s, w, tr, Posted(outcome), b, ToolAnswer(c.id, text, !outcome.Answered?),
                Calling, b.(answers := b.answers + [Answer(c.id, text)]));
  }

  lemma SettleFollows(s: Setup, w: World, tr: Trace, b: Book, turn: nat, c: Call, input: Fields, outcome: ToolOutcome)
    requires Watch(s, tr) == At(Ran(input, outcome), b) && AtCall(b, c) && b.turns == turn + 1
    ensures Settled(s, b, c, Settle(w, tr, turn, c, input, outcome))
  {
    if outcome.Answered? {
      HookFollows(s, w, tr, Ran(input, outcome), b, PostToolUse, c.id, input, Posted(outcome), b);
      var heard := RunHook(w, tr, PostToolUse, c.id, input);
      if heard.Go? {
        PostedFollows(s, w, heard.trace, b, c, outcome);
      }
    } else {
      TolerantHookFollows(s, w, tr, Ran(input, outcome), b, PostToolUseFailure, c.id, input, Posted(outcome));
      var told := RunHookIgnoringError(w, tr, PostToolUseFailure, c.id, input);
      if told.Go? {
        if Interrupts(outcome) {
          ConcludeFollows<Entry>(s, w, told.trace, Posted(outcome), b, InterruptedResult(turn, outcome.denial));
        } else {
          PostedFollows(s, w, told.trace, b, c, outcome);
        }
      }
    }
  }

  /** The call has its answer, and the next one may follow. */
  ghost predicate CallDone(s: Setup, b: Book, c: Call, f: Flow<Entry>) {
    && Obeys(s, f)
    && (f.Go? ==> f.value.Answer? && f.value.callId == c.id
                  && StandsAt(s, f.trace, Calling, b.(answers := b.answers + [f.value])))
  }

  lemma RunCallFollows(s: Setup, w: World, tr: Trace, stage: Stage, b: Book, turn: nat, c: Call)
    requires Fits(s, w) && Watch(s, tr) == At(stage, b) && CallsNext(s, stage, b) && AtCall(b, c) && b.turns == turn + 1
    ensures CallDone(s, b, c, RunCall(w, tr, s.policy, turn, c))
  {
    AskPermissionFollows(s, w, tr, stage, b, c);
    var a := AskPermission(w, tr, c);
    if a.Go? {
      var b1, d := Watch(s, a.trace).book, a.value;
      SameCallDrifted(b, b1);
      if d.deny {
        RefuseFollows<Entry>(s, w, a.trace, b1, turn, c, d);
      } else {
        ExecuteFollows(s, w, a.trace, b1, c, d);
        var x := Execute(w, a.trace, s.policy, c, d.input);
        if x.Go? {
          var b2 := Watch(s, x.trace).book;
          SameCallDrifted(b1, b2);
          SettleFollows(s, w, x.trace, b2, turn, c, d.input, x.value);
        }
      }
    }
  }

  /** Every call of the turn has its answer. */
  ghost predicate AllAnswered(s: Setup, b: Book, f: Flow<seq<Entry>>)
    requires f.Go?
  {
    |f.value| == |Ordered(b.turn.calls)| && StandsAt(s, f.trace, Calling, b.(answers := f.value))
  }

  lemma {:induction false} RunCallsFollow(s: Setup, w: World, tr: Trace, stage: Stage, b: Book, turn: nat,
          calls: seq<Call>)
    requires Fits(s, w) && Watch(s, tr) == At(stage, b) && CallsNext(s, stage, b) && b.turns == turn + 1
    requires |b.answers| <= |Ordered(b.turn.calls)| && calls == Ordered(b.turn.calls)[|b.answers|..]
    requires calls == [] ==> stage == Calling
    ensures var f := RunCalls(w, tr, s.policy, turn, calls, b.answers); Obeys(s, f) && (f.Go? ==> AllAnswered(s, b, f))
    decreases |calls|
  {
    if calls != [] {
      assert calls[0] == CurrentCall(b);
      RunCallFollows(s, w, tr, stage, b, turn, calls[0]);
      var f := RunCall(w, tr, s.policy, turn, calls[0]);
      if f.Go? {
        var b1 := Watch(s, f.trace).book;
        assert calls[1..] == Ordered(b.turn.calls)[|b.answers| + 1..];
        RunCallsFollow(s, w, f.trace, Calling, b1, turn, calls[1..]);
      }
    }
  }

  // ---- turns ----

  lemma ShowFinalFollows(s: Setup, w: World, tr: Trace, stage: Stage, b: Book)
    requires Watch(s, tr) == At(stage, b) && (stage.Quiet? || stage == Talking(Nothing)) && b.answers == []
    requires !OverBudget(s.cfg, Spent(b), b.turn.cost)
    ensures var f := ShowFinal(w, s.cfg, tr, Final(b.turn));
      && Obeys(s, f)
      && (f.Go? ==> Watch(s, f.trace).At? && Watch(s, f.trace).book == b && CallsNext(s, Watch(s, f.trace).stage, b))
  {
    var t := Final(b.turn);
    if ShowsFinal(s.cfg, t) {
      SendFollows(s, w, tr, stage, b, FinalText(t.text, t.images), Calling, b);
    }
  }

  lemma FinishFollows(s: Setup, w: World, tr: Trace, stage: Stage, b: Book, turn: nat, t: Turn)
    requires Watch(s, tr) == At(stage, b) && CallsNext(s, stage, b) && Ordered(b.turn.calls) == [] && b.answers == []
    requires t == Final(b.turn) && b.turns == turn + 1
    ensures var history := b.history + [Assistant(t.text, t.images, [])];
      var f := Finish(w, tr, s.id, b.userTurns, turn, t, Spent(b), t.cost, history); Obeys(s, f) && !f.Go?
  {
    TrimSpaceTrims(b.turn.text);
    var result := SuccessResult(turn, t, Spent(b), t.cost);
    var b1 := b.(history := b.history + [Said(b.turn)]);
    SendFollows(s, w, tr, stage, b, result, Won, b1);
    if w.sends(tr) {
      CommitFollows(s, w, Then(tr, Emit(result)), b1);
    }
  }

  lemma CommitFollows(s: Setup, w: World, tr: Trace, b: Book)
    requires Watch(s, tr) == At(Won, b)
    ensures var f := Commit(w, tr, s.id, b.userTurns, b.history); Obeys(s, f) && !f.Go?
  {
    var stored := Store(SetState(s.id, b.history, b.userTurns));
    Took(s, tr, stored);
    TolerantHookFollows(s, w, Then(tr, stored), Committed, b, Stop, "", map[], Ended);
  }

  /** The next turn may start, unless the turns are used up. */
  ghost predicate GoesOn(s: Setup, stage: Stage, b: Book, history: seq<Entry>) {
    if b.turns < TurnLimit(s.cfg) then MayStart(s, stage, b, history) else CanStop(s, stage, b, TurnsExhausted)
  }

  lemma AnsweredGoesOn(s: Setup, b: Book)
    requires b.answers != [] && |b.answers| == |Ordered(b.turn.calls)|
    ensures GoesOn(s, Calling, b, b.history + [Said(b.turn)] + b.answers)
  {
  }

  /** Changes from outside do not keep a turn from starting. */
  lemma MayStillStart(s: Setup, stage: Stage, b: Book, b1: Book, history: seq<Entry>)
    requires MayStart(s, stage, b, history) && Drifted(b, b1)
    ensures MayStart(s, stage, b1, history) && Spent(b1) == Spent(b)
  {
  }

  lemma {:induction false} TurnsFollow(s: Setup, w: World, tr: Trace, stage: Stage, b: Book, history: seq<Entry>,
          turn: nat)
    requires Fits(s, w) && Watch(s, tr) == At(stage, b) && b.turns == turn <= TurnLimit(s.cfg)
    requires GoesOn(s, stage, b, history)
    ensures var f := Turns(w, s.cfg, s.id, b.userTurns, tr, s.policy, history, turn, Spent(b)); Obeys(s, f) && !f.Go?
    decreases TurnLimit(s.cfg) - turn, 5
  {
    if turn == TurnLimit(s.cfg) {
      StopFollows(s, tr, stage, b, TurnsExhausted);
    } else {
      AskModelFollows(s, w, tr, stage, b, history, turn);
    }
  }

  /** The attempts of a turn, with the model the options name by then. */
  lemma PickedFollow(s: Setup, w: World, tr: Trace, stage: Stage, b: Book, history: seq<Entry>) returns (b1: Book)
    requires Fits(s, w) && Watch(s, tr) == At(stage, b) && MayStart(s, stage, b, history)
    ensures Drifted(b, b1) && Spent(b1) == Spent(b)
    ensures var tr1 := Elapse(w, tr);
      var f := Attempts(w, s.cfg, tr1, Models(s.cfg, PickModel(ModelAt(s.cfg.model, tr1))), history, None);
      Obeys(s, f) && (f.Go? ==>
        f.value.1 == f.value.0.cost && TurnStreamed(s, f.trace, NewTurn(b1, history).book, f.value.0))
  {
    var tr1 := Elapse(w, tr);
    DriftFollows(s, tr, stage, b, w.outside(tr));
    b1 := Watch(s, tr1).book;
    InForce(s, tr1);
    MayStillStart(s, stage, b, b1, history);
    AttemptsFollow(s, w, tr1, stage, b1, history);
  }

  lemma {:induction false} AskModelFollows(s: Setup, w: World, tr: Trace, stage: Stage, b: Book, history: seq<Entry>,
          turn: nat)
    requires Fits(s, w) && Watch(s, tr) == At(stage, b) && b.turns == turn < TurnLimit(s.cfg)
    requires MayStart(s, stage, b, history)
    ensures var f := AskModel(w, s.cfg, s.id, b.userTurns, tr, s.policy, history, turn, Spent(b)); Obeys(s, f) && !f.Go?
    decreases TurnLimit(s.cfg) - turn, 4
  {
    var b0 := PickedFollow(s, w, tr, stage, b, history);
    var tr1 := Elapse(w, tr);
    var a := Attempts(w, s.cfg, tr1, Models(s.cfg, PickModel(ModelAt(s.cfg.model, tr1))), history, None);
    if a.Go? {
      var b1 := Watch(s, a.trace).book;
      assert b1 == NewTurn(b0, history).book.(turn := b1.turn);
      assert Spent(b1) == Spent(b) + GetOr(a.value.1, 0.0);
      ServeFollows(s, w, a.trace, Watch(s, a.trace).stage, b1, turn, a.value.0);
    }
  }

  lemma {:induction false} ServeFollows(s: Setup, w: World, tr: Trace, stage: Stage, b: Book, turn: nat, t: Turn)
    requires Fits(s, w) && Watch(s, tr) == At(stage, b) && (stage.Quiet? || stage == Talking(Nothing))
    requires b.answers == []
    requires b.turns == turn + 1 <= TurnLimit(s.cfg) && t == Final(b.turn)
    ensures var f := Serve(w, s.cfg, s.id, b.userTurns, tr, s.policy, b.history, turn, t, Spent(b), t.cost);
        Obeys(s, f) && !f.Go?
    decreases TurnLimit(s.cfg) - turn, 3
  {
    if OverBudget(s.cfg, Spent(b), t.cost) {
      ConcludeFollows<()>(s, w, tr, stage, b, ResultMessage(MaxBudget, turn + 1, Some(Spent(b)), t.usage, None));
    } else {
      ShowFinalFollows(s, w, tr, stage, b);
      var shown := ShowFinal(w, s.cfg, tr, t);
      if shown.Go? {
        RespondFollows(s, w, shown.trace, Watch(s, shown.trace).stage, b, turn, t);
      }
    }
  }

  lemma {:induction false} RespondFollows(s: Setup, w: World, tr: Trace, stage: Stage, b: Book, turn: nat, t: Turn)
    requires Fits(s, w) && Watch(s, tr) == At(stage, b) && CallsNext(s, stage, b) && b.answers == []
    requires Final(b.turn) == t
    requires b.turns == turn + 1 <= TurnLimit(s.cfg)
    ensures var f := Respond(w, s.cfg, s.id, b.userTurns, tr, s.policy, b.history, turn, t, Spent(b), t.cost);
        Obeys(s, f) && !f.Go?
    decreases TurnLimit(s.cfg) - turn, 2
  {
    var calls := Ordered(t.calls);
    if calls == [] {
      FinishFollows(s, w, tr, stage, b, turn, t);
    } else {
      UseToolsFollows(s, w, tr, stage, b, turn, calls);
    }
  }

  lemma {:induction false} UseToolsFollows(s: Setup, w: World, tr: Trace, stage: Stage, b: Book, turn: nat,
          calls: seq<Call>)
    requires Fits(s, w) && Watch(s, tr) == At(stage, b) && CallsNext(s, stage, b) && b.answers == []
    requires b.turns == turn + 1 <= TurnLimit(s.cfg) && calls == Ordered(b.turn.calls) != []
    ensures var said := b.history + [Said(b.turn)];
      var f := UseTools(w, s.cfg, s.id, b.userTurns, tr, s.policy, said, turn, calls, Spent(b)); Obeys(s, f) && !f.Go?
    decreases TurnLimit(s.cfg) - turn, 1
  {
    assert calls == calls[0..];
    RunCallsFollow(s, w, tr, stage, b, turn, calls);
    var ran := RunCalls(w, tr, s.policy, turn, calls, []);
    if ran.Go? {
      var b1 := Watch(s, ran.trace).book;
      assert b1.turn == b.turn && b1.history == b.history && b1.userTurns == b.userTurns && Spent(b1) == Spent(b);
      NextTurnFollows(s, w, ran.trace, b1, turn);
    }
  }

  lemma {:induction false} NextTurnFollows(s: Setup, w: World, tr: Trace, b: Book, turn: nat)
    requires Fits(s, w) && Watch(s, tr) == At(Calling, b) && b.turns == turn + 1 <= TurnLimit(s.cfg)
    requires b.answers != [] && |b.answers| == |Ordered(b.turn.calls)|
    ensures var history := b.history + [Said(b.turn)] + b.answers;
      var f := Turns(w, s.cfg, s.id, b.userTurns, tr, s.policy, history, turn + 1, Spent(b)); Obeys(s, f) && !f.Go?
    decreases TurnLimit(s.cfg) - turn, 0
  {
    AnsweredGoesOn(s, b);
    TurnsFollow(s, w, tr, Calling, b, b.history + [Said(b.turn)] + b.answers, turn + 1);
  }

  // ---- inputs and the whole run ----

  /** The system prompt is in; the inputs come next. */
  ghost predicate Ready(s: Setup, b: Book) {
    b.taken <= |s.inputs| && (b.history == [] && b.taken == 0 ==> s.cfg.systemPrompt == "")
  }

  lemma OpenHistoryFollows(s: Setup, w: World, tr: Trace, b: Book)
    requires Watch(s, tr) == At(Inputs, b) && b.taken == 0
    ensures var f := OpenHistory(w, s.cfg, tr, b.history);
      Obeys(s, f) && (f.Go? ==>
        Watch(s, f.trace) == At(Inputs, b.(history := f.value)) && Ready(s, b.(history := f.value)))
  {
    if b.history == [] && s.cfg.systemPrompt != "" {
      SendFollows(s, w, tr, Inputs, b, SystemInit(s.cfg.systemPrompt), Inputs,
        b.(history := [System(s.cfg.systemPrompt)]));
    }
  }

  lemma CheckpointFilesFollows(s: Setup, w: World, tr: Trace, b: Book)
    requires Watch(s, tr) == At(FilesDue, b) && s.cfg.checkpointing && s.cfg.cwd != "" && b.taken > 0
    ensures var f := CheckpointFiles(w, s.cfg, tr, s.id, UserKey(s.id, b.userTurns));
      Obeys(s, f) && (f.Go? ==> Watch(s, f.trace) == At(Inputs, b))
  {
    if TrimSpace(s.cfg.cwd) == "" {
      StopFollows(s, tr, FilesDue, b, CheckpointFailed(EMPTY_ROOT));
    } else {
      match w.tree(tr) {
        case Err(text) => StopFollows(s, tr, FilesDue, b, CheckpointFailed(text));
        case Ok(tree) =>
          var stored := Store(TakeFiles(s.id, UserKey(s.id, b.userTurns), Capture(tree)));
          Took(s, tr, stored);
          var problem := w.saveError(Then(tr, stored));
          if problem.Some? {
            StopFollows(s, Then(tr, stored), Inputs, b, CheckpointFailed(problem.value));
          }
      }
    }
  }

  lemma CheckpointFollows(s: Setup, w: World, tr: Trace, b: Book)
    requires Watch(s, tr) == At(if s.cfg.checkpointing then Heard else Inputs, b) && b.taken > 0
    ensures var f := Checkpoint(w, s.cfg, tr, s.id, b.userTurns, b.history);
      Obeys(s, f) && (f.Go? ==> Watch(s, f.trace) == At(Inputs, b))
  {
    if s.cfg.checkpointing {
      var tr1 := Then(tr, Store(SetState(s.id, b.history, b.userTurns)));
      var tr2 := Then(tr1, Store(TakeSnapshot(s.id, UserKey(s.id, b.userTurns))));
      Took(s, tr, tr1.last);
      Took(s, tr1, tr2.last);
      if s.cfg.cwd != "" {
        CheckpointFilesFollows(s, w, tr2, b);
      }
    }
  }

  lemma AcceptInputFollows(s: Setup, w: World, tr: Trace, b: Book, i: UserInput)
    requires Watch(s, tr) == At(Echoed, b) && b.taken < |s.inputs| && i == s.inputs[b.taken]
    ensures var f := AcceptInput(w, s.cfg, tr, s.id, b.userTurns, b.history, i);
      Obeys(s, f) && (f.Go? ==>
        f.value != [] && Watch(s, f.trace) == At(Inputs, b.(taken := b.taken + 1, history := f.value)))
  {
    var b1 := b.(taken := b.taken + 1, history := b.history + [Input(RoleOf(i), i.content)]);
    var reply := w.hook(tr, UserPromptSubmit);
    Took(s, tr, Hooked(UserPromptSubmit, "", map[], reply));
    var tr1 := Then(tr, Hooked(UserPromptSubmit, "", map[], reply));
    match HookProblem(UserPromptSubmit, reply) {
      case Some(f) => StopFollows(s, tr1, Stopping(f), b, f);
      case None => CheckpointFollows(s, w, tr1, b1);
    }
  }

  lemma TakeInputFollows(s: Setup, w: World, tr: Trace, b: Book, i: UserInput)
    requires Watch(s, tr) == At(Inputs, b) && Ready(s, b) && b.taken < |s.inputs| && i == s.inputs[b.taken]
    ensures var f := TakeInput(w, s.cfg, tr, s.id, b.userTurns, b.history, i);
      && Obeys(s, f)
      && (f.Go? ==> f.value != []
                    && Watch(s, f.trace) ==
                      At(Inputs, b.(taken := b.taken + 1, userTurns := b.userTurns + 1, history := f.value)))
  {
    if s.cfg.responsesMode && HasNonTextBlocks(i.content) {
      StopFollows(s, tr, Inputs, b, MultimodalInput);
    } else {
      var tr1, b1 := Then(tr, Store(Bump(s.id))), b.(userTurns := b.userTurns + 1);
      var echo := UserEcho(UserKey(s.id, b1.userTurns), i.content);
      Took(s, tr, Store(Bump(s.id)));
      SendFollows(s, w, tr1, Bumped, b1, echo, Echoed, b1);
      if w.sends(tr1) {
        AcceptInputFollows(s, w, Then(tr1, Emit(echo)), b1, i);
      }
    }
  }

  /** One input taken, the rest still to come. */
  lemma OneInputFollows(s: Setup, w: World, tr: Trace, b: Book, inputs: seq<UserInput>) returns (b1: Book)
    requires Watch(s, tr) == At(Inputs, b) && Ready(s, b) && inputs == s.inputs[b.taken..] && inputs != []
    ensures var t := TakeInput(w, s.cfg, tr, s.id, b.userTurns, b.history, inputs[0]);
      && Obeys(s, t)
      && (t.Go? ==> Watch(s, t.trace) == At(Inputs, b1) && Ready(s, b1) && b1.history == t.value
                    && b1.userTurns == b.userTurns + 1)
    ensures b1.turns == b.turns && Spent(b1) == Spent(b) && b1.taken == b.taken + 1
  {
    TakeInputFollows(s, w, tr, b, inputs[0]);
    var t := TakeInput(w, s.cfg, tr, s.id, b.userTurns, b.history, inputs[0]);
    b1 := b.(taken := b.taken + 1, userTurns := b.userTurns + 1, history := if t.Go? then t.value else b.history);
  }

  lemma {:induction false} ConverseFollows(s: Setup, w: World, tr: Trace, b: Book, inputs: seq<UserInput>)
    requires Fits(s, w) && Watch(s, tr) == At(Inputs, b) && Ready(s, b) && b.turns == 0 && Spent(b) == 0.0
    requires inputs == s.inputs[b.taken..]
    ensures var f := Converse(w, s.cfg, tr, s.id, b.userTurns, b.history, s.policy, inputs); Obeys(s, f) && !f.Go?
    decreases |inputs|, 1
  {
    if inputs == [] {
      InputsDone(s, b);
      TurnsFollow(s, w, tr, Inputs, b, b.history, 0);
    } else {
      var b1 := OneInputFollows(s, w, tr, b, inputs);
      RestFollows(s, w, b, b1, inputs, TakeInput(w, s.cfg, tr, s.id, b.userTurns, b.history, inputs[0]));
    }
  }

  lemma {:induction false} RestFollows(s: Setup, w: World, b: Book, b1: Book, inputs: seq<UserInput>,
          t: Flow<seq<Entry>>)
    requires Fits(s, w) && inputs != [] && b.taken < |s.inputs| && inputs == s.inputs[b.taken..]
    requires b1.taken == b.taken + 1
    requires t.Go? ==> Watch(s, t.trace) == At(Inputs, b1) && Ready(s, b1) && b1.turns == 0 && Spent(b1) == 0.0
    ensures t.Go? ==>
      var f := Converse(w, s.cfg, t.trace, s.id, b1.userTurns, b1.history, s.policy, inputs[1..]);
      Obeys(s, f) && !f.Go?
    decreases |inputs|, 0
  {
    if t.Go? {
      assert inputs[1..] == s.inputs[b1.taken..];
      ConverseFollows(s, w, t.trace, b1, inputs[1..]);
    }
  }

  lemma InputsDone(s: Setup, b: Book)
    requires Ready(s, b) && b.taken == |s.inputs| && b.turns == 0
    ensures GoesOn(s, Inputs, b, b.history)
  {
  }

  ghost function SetupOf(w: World, cfg: Config, sid: string, messages: seq<Entry>, userTurns: nat, pol: Policy,
                         inputs: seq<UserInput>): Setup {
    Setup(cfg, w.parse, w.decode, sid, messages, userTurns, pol, inputs)
  }

  /** Every run, in any surroundings, obeys the protocol; and it either ends as the protocol has it or
      still waits for its stream. */
  lemma RunObeysProtocol(w: World, cfg: Config, sid: string, messages: seq<Entry>, userTurns: nat, pol: Policy,
                         inputs: seq<UserInput>)
    ensures var s := SetupOf(w, cfg, sid, messages, userTurns, pol, inputs);
      var f := Run(w, cfg, sid, messages, userTurns, pol, inputs);
      Obeys(s, f) && !f.Go?
  {
    var s := SetupOf(w, cfg, sid, messages, userTurns, pol, inputs);
    var b := Start(s).book;
    if !w.hasTransport {
      StopFollows(s, Begin, Fresh, b, NoTransport);
    } else if w.startError.Some? {
      StopFollows(s, Begin, Fresh, b, StartFailed(w.startError.value));
    } else {
      var tr := Then(Begin, Store(Open(sid)));
      Took(s, Begin, Store(Open(sid)));
      OpenHistoryFollows(s, w, tr, b);
      var opening := OpenHistory(w, cfg, tr, messages);
      if opening.Go? {
        assert inputs == inputs[0..];
        ConverseFollows(s, w, opening.trace, b.(history := opening.value), inputs);
      }
    }
  }
}
