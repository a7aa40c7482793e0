/** The query runner itself: the loops over inputs, turns, attempts, stream events and tool calls, with
    the variables they update, the session store and the executor they change. Its methods are proved
    against the functional model, and the store and the policy against what the trace says. */
module RunnerLoop {
  import opened Basics
  import opened Json
  import opened Decimal
  import opened Folding
  import opened EventMapper
  import opened History
  import opened FileTree
  import opened Disk
  import opened Policy
  import opened SessionStore
  import opened RunnerModel

  /** What a piece of the runner comes to: it goes on, the run is over, or it still waits. */
  datatype Status = GoesOn | Ends | Waits

  ghost predicate Is<T>(f: Flow<T>, status: Status, trace: Trace, value: T) {
    match f
    case Go(tr, v) => status == GoesOn && tr == trace && v == value
    case Over(tr) => status == Ends && tr == trace
    case Waiting(tr) => status == Waits && tr == trace
  }

  // ---- loops over hook outputs ----

  /** validateHookOutputs: the first output the backend does not support. */
  method ValidateHookOutputs(outputs: seq<HookOutput>) returns (field: Option<string>)
    ensures field == Unsupported(outputs)
  {
    var i := 0;
    assert outputs[i..] == outputs;
    while i < |outputs|
      invariant 0 <= i <= |outputs| && Unsupported(outputs) == Unsupported(outputs[i..])
    {
      assert outputs[i..][1..] == outputs[i + 1..];
      match outputs[i] {
        case Async => return Some("async");
        case NoOutput =>
        case Sync(suppress, stop, system, continueFalse, _) =>
          if suppress {
            return Some("suppressOutput");
          }
          if stop {
            return Some("stopReason");
          }
          if system {
            return Some("systemMessage");
          }
          if continueFalse {
            return Some("continue");
          }
      }
      i := i + 1;
    }
    return None;
  }

  /** permissionDecisionFromHookOutputs. */
  method PermissionDecision(outputs: seq<HookOutput>, fallback: Fields) returns (d: Decision)
    ensures d == Decide(outputs, fallback)
  {
    var deny, message, interrupt, input, updates := false, "", false, fallback, [];
    var i := 0;
    while i < |outputs|
      invariant 0 <= i <= |outputs|
      invariant Decision(deny, message, interrupt, input, updates) == Decide(outputs[..i], fallback)
    {
      assert outputs[..i + 1][..i] == outputs[..i];
      if outputs[i].Sync? && outputs[i].verdict.Some? {
        var v := outputs[i].verdict.value;
        if v.behavior == Some("deny") {
          deny := true;
        }
        if v.message.Some? && v.message.value != "" {
          message := v.message.value;
        }
        if v.interrupt.Some? {
          interrupt := v.interrupt.value;
        }
        if v.updatedInput.Some? {
          input := v.updatedInput.value;
        }
        if v.updatedPermissions.Some? {
          updates := v.updatedPermissions.value;
        }
      }
      i := i + 1;
    }
    assert outputs[..i] == outputs;
    d := Decision(deny, message, interrupt, input, updates);
  }

  class QueryRunner {
    /** The options a run begins with. */
    var cfg: Config
    /** The model the options name now. */
    var model: string
    const world: World
    const executor: Executor
    const sessions: Manager
    /** What the current run has done so far. */
    var trace: Trace
    /** The store and the policy the current run began with. */
    ghost var store0: State
    ghost var policy0: Policy

    constructor (cfg: Config, world: World, executor: Executor, sessions: Manager)
      requires sessions.Valid()
      ensures this.cfg == cfg && this.world == world && this.executor == executor && this.sessions == sessions
      ensures Valid()
    {
      this.cfg, this.world, this.executor, this.sessions := cfg, world, executor, sessions;
      model, trace := cfg.model, Begin;
      store0, policy0 := sessions.Current(), executor.Current();
    }

    /** Store, policy and model are what the trace makes of them. */
    ghost predicate Valid()
      reads this, executor, sessions, sessions.Objects()
    {
      && sessions.Valid()
      && sessions.Current() == StoreAfter(store0, trace)
      && executor.Current() == PolicyAt(policy0, trace)
      && model == ModelAt(cfg.model, trace)
    }

    // ---- changes from outside ----

    /** SetPermissionMode; an empty mode does not reach the executor. */
    method SetPermissionMode(mode: string)
      requires Valid()
      modifies this`trace, executor
      ensures Valid() && trace == Then(old(trace), Outside(ToPolicy(NewMode(mode))))
    {
      if mode != "" {
        executor.SetMode(mode);
      }
      trace := Then(trace, Outside(ToPolicy(NewMode(mode))));
    }

    /** SetModel writes the options. */
    method SetModel(name: string)
      requires Valid()
      modifies this`trace, this`model
      ensures Valid() && trace == Then(old(trace), Outside(ToModel(name)))
    {
      model := name;
      trace := Then(trace, Outside(ToModel(name)));
    }

    /** Another run on the same executor applies updates. */
    method TakeUpdates(updates: seq<Update>)
      requires Valid()
      modifies this`trace, executor, executor.store
      ensures Valid() && trace == Then(old(trace), Outside(ToPolicy(NewUpdates(updates))))
    {
      executor.MakeChange(NewUpdates(updates));
      trace := Then(trace, Outside(ToPolicy(NewUpdates(updates))));
    }

    /** What others have done since the run last looked. */
    method LetOthersAct()
      requires Valid()
      modifies this`trace, this`model, executor, executor.store
      ensures Valid() && trace == Elapse(world, old(trace))
    {
      var changes := world.outside(trace);
      var i := 0;
      while i < |changes|
        invariant 0 <= i <= |changes| && Valid() && trace == Drift(old(trace), changes[..i])
      {
        assert changes[..i + 1][..i] == changes[..i];
        match changes[i] {
          case ToPolicy(NewMode(mode)) => SetPermissionMode(mode);
          case ToPolicy(NewUpdates(updates)) => TakeUpdates(updates);
          case ToModel(name) => SetModel(name);
        }
        i := i + 1;
      }
      assert changes[..i] == changes;
    }

    // ---- sending and asking ----

    method Put(e: Event)
      requires Valid() && !e.Store? && !e.Granted? && !e.Outside?
      modifies this`trace
      ensures Valid() && trace == Then(old(trace), e)
    {
      trace := Then(trace, e);
    }

    /** An operation on the store that has just been done. */
    method Note(op: Op)
      requires sessions.Valid() && sessions.Current() == Apply(StoreAfter(store0, trace), op)
      requires executor.Current() == PolicyAt(policy0, trace) && model == ModelAt(cfg.model, trace)
      modifies this`trace
      ensures Valid() && trace == Then(old(trace), Store(op))
    {
      trace := Then(trace, Store(op));
    }

    method SendMessage(m: RunnerModel.Message) returns (status: Status)
      requires Valid()
      modifies this`trace
      ensures Valid() && Is(Send(world, old(trace), m), status, trace, ())
    {
      if world.sends(trace) {
        Put(Emit(m));
        return GoesOn;
      }
      Put(Fail(Cancelled));
      return Ends;
    }

    method EndWith(m: RunnerModel.Message) returns (status: Status)
      requires Valid()
      modifies this`trace
      ensures Valid() && Is(Conclude<()>(world, old(trace), m), status, trace, ())
    {
      if world.sends(trace) {
        Put(Emit(m));
      } else {
        Put(Fail(Cancelled));
      }
      return Ends;
    }

    /** Runs the hooks; an error or an unsupported output ends the run. */
    method CheckHook(h: HookEvent, callId: string, input: Fields) returns (status: Status, reply: HookReply)
      requires Valid()
      modifies this`trace
      ensures Valid() && Is(RunHook(world, old(trace), h, callId, input), status, trace, reply)
    {
      reply := world.hook(trace, h);
      Put(Hooked(h, callId, input, reply));
      if reply.error.Some? {
        Put(Fail(HookFailed(reply.error.value)));
        return Ends, reply;
      }
      var field := ValidateHookOutputs(reply.outputs);
      if field.Some? {
        Put(Fail(UnsupportedOutput(h, field.value)));
        return Ends, reply;
      }
      return GoesOn, reply;
    }

    /** The same where only the outputs are looked at. */
    method TellHook(h: HookEvent, callId: string, input: Fields) returns (status: Status)
      requires Valid()
      modifies this`trace
      ensures Valid() && Is(RunHookIgnoringError(world, old(trace), h, callId, input), status, trace, ())
    {
      var reply := world.hook(trace, h);
      Put(Hooked(h, callId, input, reply));
      var field := ValidateHookOutputs(reply.outputs);
      if field.Some? {
        Put(Fail(UnsupportedOutput(h, field.value)));
        return Ends;
      }
      return GoesOn;
    }

    // ---- one stream ----

    method TakeText(t: Turn, content: string) returns (ok: bool, r: Turn)
      requires Valid()
      modifies this`trace
      ensures Valid() && Partly(trace, r, ok) == AddText(world, cfg, old(trace), t, content)
    {
      r := t;
      if content == "" {
        return true, r;
      }
      var news := News(t.text, content);
      if news != "" {
        r := r.(text := t.text + news);
        if cfg.partials {
          if !world.sends(trace) {
            return false, r;
          }
          Put(Emit(PartialText(news)));
        }
      }
      return true, r;
    }

    method TakeImages(t: Turn, images: seq<Image>) returns (ok: bool, r: Turn)
      requires Valid()
      modifies this`trace
      ensures Valid() && Partly(trace, r, ok) == AddImages(world, cfg, old(trace), t, images)
    {
      r := t;
      var news := NewImages(t.images, images);
      if |news| > 0 {
        r := r.(images := t.images + news);
        if cfg.partials {
          if !world.sends(trace) {
            return false, r;
          }
          Put(Emit(PartialImages(news)));
        }
      }
      return true, r;
    }

    method ExtendCall(pending: Call, td: ToolDelta) returns (call: Call)
      ensures call == Extend(pending, td)
    {
      call := pending;
      if td.id != "" {
        call := call.(id := td.id);
      }
      if td.name != "" {
        call := call.(name := td.name);
      }
      if td.args != "" {
        call := call.(args := call.args + td.args);
      }
      assert pending.args + "" == pending.args;
    }

    method TakeToolDeltas(calls: Calls, toolDeltas: seq<ToolDelta>) returns (r: Calls)
      ensures r == AddDeltas(calls, toolDeltas)
    {
      r := calls;
      var i := 0;
      while i < |toolDeltas|
        invariant 0 <= i <= |toolDeltas| && r == AddDeltas(calls, toolDeltas[..i])
      {
        assert toolDeltas[..i + 1][..i] == toolDeltas[..i];
        var td := toolDeltas[i];
        var call := ExtendCall(if td.index in r then r[td.index] else BLANK_CALL, td);
        r := r[td.index := call];
        i := i + 1;
      }
      assert toolDeltas[..i] == toolDeltas;
    }

    /** One event: it is passed on, priced, parsed, and its chunks are folded into the turn. */
    method ProcessEvent(t: Turn, raw: Fields) returns (ok: bool, r: Turn)
      requires Valid()
      modifies this`trace
      ensures Valid() && Partly(trace, r, ok) == Digest(world, cfg, old(trace), t, raw)
    {
      r := Priced(t, raw);
      match world.parse(raw) {
        case Err(e) =>
          if !world.reports(trace) {
            return false, r;
          }
          Put(Fail(ChunkFailed(e)));
          return true, r;
        case Ok(chunks) =>
          ghost var t0 := r;
          var i := 0;
          assert chunks[i..] == chunks;
          while i < |chunks|
            invariant 0 <= i <= |chunks| && Valid()
            invariant AddChunks(world, cfg, old(trace), t0, chunks) == AddChunks(world, cfg, trace, r, chunks[i..])
          {
            assert chunks[i..][0] == chunks[i] && chunks[i..][1..] == chunks[i + 1..];
            ok, r := TakeText(r, chunks[i].content);
            if !ok {
              return;
            }
            ok, r := TakeImages(r, chunks[i].images);
            if !ok {
              return;
            }
            var calls := TakeToolDeltas(r.calls, chunks[i].toolDeltas);
            r := r.(calls := calls);
            i := i + 1;
          }
          return true, r;
      }
    }

    /** runStream: one request, and the loop that selects between events, errors and cancellation. */
    method StreamTurn(model: string, history: seq<Entry>) returns (r: Streamed)
      requires Valid()
      modifies this`trace
      ensures Valid() && r == RunStream(world, cfg, old(trace), model, history) && trace == r.trace
    {
      Put(Request(model, history));
      ghost var begun := trace;
      var rounds := world.rounds(trace);
      var t, emitted := BLANK_TURN, false;
      var streamOpen, errorsOpen := true, true;
      var i := 0;
      assert rounds[i..] == rounds;
      while streamOpen || errorsOpen
        invariant 0 <= i <= |rounds| && Valid()
        invariant Stream(world, cfg, rounds, true, true, begun, BLANK_TURN, false)
               == Stream(world, cfg, rounds[i..], streamOpen, errorsOpen, trace, t, emitted)
        decreases |rounds| - i
      {
        if i == |rounds| {
          return Streaming(trace);
        }
        var now := rounds[i];
        assert rounds[i..][0] == now && rounds[i..][1..] == rounds[i + 1..];
        i := i + 1;
        if streamOpen && now.first.FoundClosed? {
          streamOpen := false;
          continue;
        }
        var event: Option<Fields> := None;
        if streamOpen && now.first.Got? {
          event := Some(now.first.raw);
        } else {
          match now.second {
            case TakeEvent(raw) =>
              if streamOpen {
                event := Some(raw);
              }
            case TakeClosed =>
              streamOpen := false;
            case TakeError(error) =>
              if errorsOpen && error.Some? {
                return Broken(trace, t, TransportFailed(error.value), emitted);
              }
            case TakeErrorsClosed =>
              errorsOpen := false;
            case TakeDone =>
              return Broken(trace, t, Cancelled, emitted);
          }
        }
        if event.Some? {
          if !world.sends(trace) {
            return Broken(trace, t, Cancelled, emitted);
          }
          Put(Emit(StreamEvent(event.value)));
          emitted := true;
          var ok: bool;
          ok, t := ProcessEvent(t, event.value);
          if !ok {
            return Broken(trace, t, Cancelled, true);
          }
        }
      }
      return Complete(trace, t.(text := TrimSpace(t.text)));
    }

    /** The attempts of one turn: the fallback model is asked if the first one failed without a word. */
    method AskModels(history: seq<Entry>) returns (status: Status, t: Turn, cost: Option<real>)
      requires Valid()
      modifies this`trace, this`model, executor, executor.store
      ensures Valid()
      ensures var begun := Elapse(world, old(trace));
        Is(Attempts(world, cfg, begun, Models(cfg, PickModel(ModelAt(cfg.model, begun))), history, None),
           status, trace, (t, cost))
    {
      LetOthersAct();
      var models := Models(cfg, PickModel(model));
      status, t, cost := TryModels(models, history);
    }

    method TryModels(models: seq<string>, history: seq<Entry>) returns (status: Status, t: Turn, cost: Option<real>)
      requires Valid() && models != []
      modifies this`trace
      ensures Valid() && Is(Attempts(world, cfg, old(trace), models, history, None), status, trace, (t, cost))
    {
      var turnTotal, costSeen := 0.0, false;
      var i := 0;
      assert models[i..] == models;
      while i < |models|
        invariant 0 <= i < |models| && Valid()
        invariant Attempts(world, cfg, old(trace), models, history, None)
               == Attempts(world, cfg, trace, models[i..], history, if costSeen then Some(turnTotal) else None)
        invariant !costSeen ==> turnTotal == 0.0
        decreases |models| - i
      {
        var r := StreamTurn(models[i], history);
        if r.Streaming? {
          return Waits, BLANK_TURN, None;
        }
        if r.turn.cost.Some? {
          turnTotal := turnTotal + r.turn.cost.value;
          costSeen := true;
        }
        cost := if costSeen then Some(turnTotal) else None;
        if r.Complete? {
          return GoesOn, r.turn, cost;
        }
        if r.emitted || i == |models| - 1 {
          Put(Fail(r.failure));
          return Ends, r.turn, cost;
        }
        assert models[i..][1..] == models[i + 1..];
        i := i + 1;
      }
    }

    // ---- tool calls ----

    method AskForPermission(c: Call) returns (status: Status, d: Decision)
      requires Valid()
      modifies this`trace, this`model, executor, executor.store
      ensures Valid() && Is(AskPermission(world, old(trace), c), status, trace, d)
    {
      var input := DecodedInput(world.decode, c);
      d := Decision(false, "", false, input, []);
      status := SendMessage(ToolUse(c.id, c.name, input));
      if status != GoesOn {
        return;
      }
      var reply: HookReply;
      status, reply := CheckHook(PermissionRequest, c.id, input);
      if status != GoesOn {
        return;
      }
      d := PermissionDecision(reply.outputs, input);
      ApplyDecision(d);
    }

    /** Permission updates are applied even if the decision denies. */
    method ApplyDecision(d: Decision)
      requires Valid()
      modifies this`trace, this`model, executor, executor.store
      ensures Valid() && Concede(world, old(trace), d) == Go(trace, d)
    {
      if |d.updates| > 0 {
        LetOthersAct();
        executor.ApplyPermissionUpdates(d.updates);
        trace := Then(trace, Granted(Present(d.updates)));
      }
    }

    method RefuseCall(turn: nat, c: Call, d: Decision) returns (status: Status)
      requires Valid()
      modifies this`trace
      ensures Valid() && Is(Refuse<()>(world, old(trace), turn, c, d), status, trace, ()) && status != GoesOn
    {
      status := TellHook(PostToolUseFailure, c.id, d.input);
      if status != GoesOn {
        return;
      }
      if d.interrupt {
        status := EndWith(InterruptedResult(turn, DeniedText(c.name, d.message)));
        return;
      }
      Put(Fail(PermissionDenied(c.name, d.message)));
      return Ends;
    }

    method ExecuteCall(c: Call, input: Fields) returns (status: Status, outcome: ToolOutcome)
      requires Valid()
      modifies this`trace, this`model, executor, executor.store
      ensures Valid() && Is(Execute(world, old(trace), policy0, c, input), status, trace, outcome)
    {
      outcome := Failed("");
      var reply: HookReply;
      status, reply := CheckHook(PreToolUse, c.id, input);
      if status != GoesOn {
        return;
      }
      var tool := world.tool(trace);
      LetOthersAct();
      outcome := PassThrough(c, input, tool);
    }

    /** The gates and the handler; what could be observed of it goes into the trace. */
    method PassThrough(c: Call, input: Fields, tool: ToolWorld) returns (outcome: ToolOutcome)
      requires Valid()
      modifies this`trace, executor, executor.store
      ensures Valid()
      ensures var now := PolicyAt(policy0, old(trace));
        var gated := Gate(now, c.name, input, tool);
        && outcome == gated.outcome
        && trace == Then(PassGates(old(trace), Denies(now, c.name), c, tool),
                         Executed(c.id, c.name, input, outcome, gated.invoked))
    {
      var denied := Denies(executor.Current(), c.name);
      ghost var now := executor.Current();
      var invoked: bool;
      outcome, invoked := executor.ExecuteWithSuggestions(c.name, input, tool);
      GatesLeave(store0, policy0, cfg.model, trace, c, input, tool);
      assert executor.Current() == Gate(now, c.name, input, tool).policy;
      trace := Then(PassGates(trace, denied, c, tool), Executed(c.id, c.name, input, outcome, invoked));
    }

    method SettleCall(turn: nat, c: Call, input: Fields, outcome: ToolOutcome) returns (status: Status, answer: Entry)
      requires Valid()
      modifies this`trace
      ensures Valid() && Is(Settle(world, old(trace), turn, c, input, outcome), status, trace, answer)
    {
      answer := Answer(c.id, AnswerText(outcome));
      if !outcome.Answered? {
        status := TellHook(PostToolUseFailure, c.id, input);
        if status != GoesOn {
          return;
        }
        if Interrupts(outcome) {
          status := EndWith(InterruptedResult(turn, outcome.denial));
          return;
        }
        status := SendMessage(ToolAnswer(c.id, answer.text, true));
        return;
      }
      var reply: HookReply;
      status, reply := CheckHook(PostToolUse, c.id, input);
      if status != GoesOn {
        return;
      }
      status := SendMessage(ToolAnswer(c.id, answer.text, false));
    }

    method UseTool(turn: nat, c: Call) returns (status: Status, answer: Entry)
      requires Valid()
      modifies this`trace, this`model, executor, executor.store
      ensures Valid()
      ensures Is(RunCall(world, old(trace), policy0, turn, c), status, trace, answer)
    {
      answer := Answer(c.id, "");
      var d: Decision, outcome: ToolOutcome;
      status, d := AskForPermission(c);
      if status != GoesOn {
        return;
      }
      if d.deny {
        status := RefuseCall(turn, c, d);
        return;
      }
      status, outcome := ExecuteCall(c, d.input);
      if status != GoesOn {
        return;
      }
      status, answer := SettleCall(turn, c, d.input, outcome);
    }

    /** The loop over the calls of a turn. */
    method UseToolsInOrder(turn: nat, calls: seq<Call>) returns (status: Status, answers: seq<Entry>)
      requires Valid()
      modifies this`trace, this`model, executor, executor.store
      ensures Valid()
      ensures Is(RunCalls(world, old(trace), policy0, turn, calls, []), status, trace, answers)
    {
      answers := [];
      var i := 0;
      assert calls[i..] == calls;
      while i < |calls|
        invariant 0 <= i <= |calls| && Valid()
        invariant RunCalls(world, old(trace), policy0, turn, calls, [])
               == RunCalls(world, trace, policy0, turn, calls[i..], answers)
      {
        assert calls[i..][0] == calls[i] && calls[i..][1..] == calls[i + 1..];
        var answer: Entry;
        status, answer := UseTool(turn, calls[i]);
        if status != GoesOn {
          return;
        }
        answers := answers + [answer];
        i := i + 1;
      }
      return GoesOn, answers;
    }

    // ---- turns ----

    /** The session the run holds is the one the manager has under its id. */
    ghost predicate Holding(id: string, s: Session)
      reads this, executor, sessions, sessions.Objects()
    {
      Valid() && id != "" && id in sessions.sessions && sessions.sessions[id] == s
    }

    method StoreState(id: string, s: Session, history: seq<Entry>)
      requires Holding(id, s)
      modifies this`trace, sessions`sessions, sessions`model, sessions.Objects()
      ensures Holding(id, s) && sessions.sessions == old(sessions.sessions)
      ensures trace == Then(old(trace), Store(SetState(id, history, old(s.userTurns)))) &&
          s.userTurns == old(s.userTurns)
    {
      var userTurns := s.userTurns;
      assert sessions.model[id] == s.Value();
      sessions.SetState(id, history, userTurns);
      Note(SetState(id, history, userTurns));
      assert sessions.model[id].userTurns == userTurns;
    }

    method FinishRun(id: string, s: Session, turn: nat, t: Turn, total: real, turnCost: Option<real>,
            history: seq<Entry>)
      returns (status: Status)
      requires Holding(id, s)
      modifies this`trace, sessions`sessions, sessions`model, sessions.Objects()
      ensures Holding(id, s) && sessions.sessions == old(sessions.sessions) && s.userTurns == old(s.userTurns)
      ensures Is(Finish(world, old(trace), id, old(s.userTurns), turn, t, total, turnCost, history), status, trace, ())
      ensures status != GoesOn
    {
      status := SendMessage(SuccessResult(turn, t, total, turnCost));
      if status != GoesOn {
        return;
      }
      StoreState(id, s, history);
      var told := TellHook(Stop, "", map[]);
      return Ends;
    }

    /** What a turn does once its stream is complete, up to the point where its calls run. */
    method ShowTurn(turn: nat, t: Turn, total: real, turnCost: Option<real>) returns (status: Status)
      requires Valid()
      modifies this`trace
      ensures Valid()
      ensures if OverBudget(cfg, total, turnCost) then
                var result := ResultMessage(MaxBudget, turn + 1, Some(total), t.usage, None);
                status != GoesOn && Is(Conclude<()>(world, old(trace), result), status, trace, ())
              else Is(ShowFinal(world, cfg, old(trace), t), status, trace, ())
    {
      if cfg.budget.Some? && turnCost.Some? && total > cfg.budget.value {
        status := EndWith(ResultMessage(MaxBudget, turn + 1, Some(total), t.usage, None));
        return;
      }
      status := GoesOn;
      if !cfg.partials && Showable(t) {
        status := SendMessage(FinalText(t.text, t.images));
      }
    }

    /** A turn without calls finishes the run; otherwise the calls run and the next turn is due. */
    method RespondTo(id: string, s: Session, history: seq<Entry>, turn: nat, t: Turn, total: real,
            turnCost: Option<real>)
      returns (status: Status, grown: seq<Entry>)
      requires Holding(id, s) && turn < TurnLimit(cfg)
      modifies this`trace, this`model, executor, executor.store, sessions`sessions, sessions`model, sessions.Objects()
      ensures Holding(id, s) && s.userTurns == old(s.userTurns) && sessions.sessions == old(sessions.sessions)
      ensures var goal := Respond(world, cfg, id, s.userTurns, old(trace), policy0, history, turn, t, total, turnCost);
        if status == GoesOn then goal == Turns(world, cfg, id, s.userTurns, trace, policy0, grown, turn + 1, total)
        else Is(goal, status, trace, ())
    {
      var calls := OrderCalls(t.calls);
      grown := history + [Assistant(t.text, t.images, calls)];
      if |calls| == 0 {
        status := FinishRun(id, s, turn, t, total, turnCost, grown);
        return;
      }
      ghost var goal := UseTools(world, cfg, id, s.userTurns, trace, policy0, grown, turn, calls, total);
      assert goal == Respond(world, cfg, id, s.userTurns, trace, policy0, history, turn, t, total, turnCost);
      var answers: seq<Entry>;
      status, answers := UseToolsInOrder(turn, calls);
      if status == GoesOn {
        grown := grown + answers;
      }
    }

    /** One turn of the loop. */
    method TakeTurn(id: string, s: Session, history: seq<Entry>, turn: nat, totalCost: real)
      returns (status: Status, grown: seq<Entry>, total: real)
      requires Holding(id, s) && turn < TurnLimit(cfg)
      modifies this`trace, this`model, executor, executor.store, sessions`sessions, sessions`model, sessions.Objects()
      ensures Holding(id, s) && s.userTurns == old(s.userTurns) && sessions.sessions == old(sessions.sessions)
      ensures var goal := Turns(world, cfg, id, s.userTurns, old(trace), policy0, history, turn, totalCost);
        if status == GoesOn then goal == Turns(world, cfg, id, s.userTurns, trace, policy0, grown, turn + 1, total)
        else Is(goal, status, trace, ())
    {
      var t: Turn, turnCost: Option<real>;
      grown, total := history, totalCost;
      ghost var goal := Turns(world, cfg, id, s.userTurns, trace, policy0, history, turn, totalCost);
      assert goal == AskModel(world, cfg, id, s.userTurns, trace, policy0, history, turn, totalCost);
      status, t, turnCost := AskModels(history);
      if status != GoesOn {
        return;
      }
      if turnCost.Some? {
        total := totalCost + turnCost.value;
      }
      assert goal == Serve(world, cfg, id, s.userTurns, trace, policy0, history, turn, t, total, turnCost);
      status := ShowTurn(turn, t, total, turnCost);
      if status != GoesOn {
        return;
      }
      status, grown := RespondTo(id, s, history, turn, t, total, turnCost);
    }

    /** The loop over the turns. */
    method LoopOverTurns(id: string, s: Session, asked: seq<Entry>)
      returns (status: Status, history: seq<Entry>, total: real)
      requires Holding(id, s)
      modifies this`trace, this`model, executor, executor.store, sessions`sessions, sessions`model, sessions.Objects()
      ensures Holding(id, s) && s.userTurns == old(s.userTurns)
      ensures var goal := Turns(world, cfg, id, s.userTurns, old(trace), policy0, asked, 0, 0.0);
        if status == GoesOn then
          goal == Turns(world, cfg, id, s.userTurns, trace, policy0, history, TurnLimit(cfg), total)
        else Is(goal, status, trace, ())
    {
      status, history, total := GoesOn, asked, 0.0;
      var turn := 0;
      ghost var goal := Turns(world, cfg, id, s.userTurns, trace, policy0, asked, 0, 0.0);
      while turn < TurnLimit(cfg)
        invariant 0 <= turn <= TurnLimit(cfg) && Holding(id, s) && status == GoesOn
        invariant s.userTurns == old(s.userTurns) && sessions.sessions == old(sessions.sessions)
        invariant goal == Turns(world, cfg, id, s.userTurns, trace, policy0, history, turn, total)
      {
        status, history, total := TakeTurn(id, s, history, turn, total);
        if status != GoesOn {
          return;
        }
        turn := turn + 1;
      }
    }

    /** The turns of a run, and the report that they are used up. */
    method RunTurns(id: string, s: Session, asked: seq<Entry>) returns (status: Status)
      requires Holding(id, s)
      modifies this`trace, this`model, executor, executor.store, sessions`sessions, sessions`model, sessions.Objects()
      ensures Holding(id, s) && status != GoesOn
      ensures Is(Turns(world, cfg, id, old(s.userTurns), old(trace), policy0, asked, 0, 0.0), status, trace, ())
    {
      var history, total;
      status, history, total := LoopOverTurns(id, s, asked);
      if status == GoesOn {
        Put(Fail(TurnsExhausted));
        return Ends;
      }
    }

    // ---- inputs and the whole run ----

    /** Stores the history with the user message as a checkpoint, and the files below the working
        directory if there is one. */
    method TakeCheckpoint(id: string, s: Session, history: seq<Entry>) returns (status: Status)
      requires Holding(id, s)
      modifies this`trace, sessions`sessions, sessions`model, sessions.Objects()
      ensures Holding(id, s) && sessions.sessions == old(sessions.sessions) && s.userTurns == old(s.userTurns)
      ensures Is(Checkpoint(world, cfg, old(trace), id, s.userTurns, history), status, trace, ())
    {
      if !cfg.checkpointing {
        return GoesOn;
      }
      var key := UserKey(id, s.userTurns);
      assert |key| > 0;
      StoreState(id, s, history);
      KeepSnapshot(id, s, key);
      if cfg.cwd == "" {
        return GoesOn;
      }
      status := CheckpointFilesFor(id, s, key);
    }

    /** The tree is there to be read, so only a blank directory or a failing save can get in the way. */
    method CheckpointFilesFor(id: string, s: Session, key: string) returns (status: Status)
      requires Holding(id, s) && key != ""
      modifies this`trace, sessions`model, sessions.Objects()
      ensures Holding(id, s) && s.userTurns == old(s.userTurns)
      ensures Is(CheckpointFiles(world, cfg, old(trace), id, key), status, trace, ())
    {
      if TrimSpace(cfg.cwd) == "" {
        Put(Fail(CheckpointFailed(EMPTY_ROOT)));
        return Ends;
      }
      match world.tree(trace) {
        case Err(text) =>
          Put(Fail(CheckpointFailed(text)));
          return Ends;
        case Ok(tree) =>
          var problem := world.saveError(Then(trace, Store(TakeFiles(id, key, Capture(tree)))));
          KeepFiles(id, s, key, tree, problem.None?);
          if problem.Some? {
            Put(Fail(CheckpointFailed(problem.value)));
            return Ends;
          }
          return GoesOn;
      }
    }

    method KeepSnapshot(id: string, s: Session, key: string)
      requires Holding(id, s)
      modifies this`trace, sessions`model, sessions.Objects()
      ensures Holding(id, s) && s.userTurns == old(s.userTurns) &&
          trace == Then(old(trace), Store(TakeSnapshot(id, key)))
    {
      assert sessions.model[id] == s.Value();
      sessions.TakeSnapshot(id, key);
      Note(TakeSnapshot(id, key));
      assert sessions.model[id] == s.Value();
    }

    method KeepFiles(id: string, s: Session, key: string, tree: Tree, saves: bool)
      requires Holding(id, s) && key != "" && TrimSpace(cfg.cwd) != ""
      modifies this`trace, sessions`model, sessions.Objects()
      ensures Holding(id, s) && s.userTurns == old(s.userTurns)
      ensures trace == Then(old(trace), Store(TakeFiles(id, key, Capture(tree))))
    {
      assert sessions.model[id] == s.Value();
      CaptureInto(id, key, tree, saves);
      Note(TakeFiles(id, key, Capture(tree)));
      assert sessions.model[id] == s.Value();
    }

    method CaptureInto(id: string, key: string, tree: Tree, saves: bool)
      requires sessions.Valid() && id in sessions.sessions && key != "" && TrimSpace(cfg.cwd) != ""
      modifies sessions`model, sessions.Objects()
      ensures sessions.Valid() &&
          sessions.Current() == Apply(old(sessions.Current()), TakeFiles(id, key, Capture(tree)))
    {
      var fs := new FileSystem(tree, (n: nat) => false);
      assert fs.Faultless() && [] in fs.nodes;
      var r := sessions.SnapshotFiles(id, key, fs, cfg.cwd, saves);
      match r {
        case Ok(_) =>
        case Err(problem) => assert problem == NotSaved;
      }
    }

    method CountUserTurn(id: string, s: Session)
      requires Holding(id, s)
      modifies this`trace, s`userTurns, sessions`model
      ensures Holding(id, s) && s.userTurns == old(s.userTurns) + 1 && trace == Then(old(trace), Store(Bump(id)))
    {
      sessions.BumpUserTurns(id, s);
      Note(Bump(id));
    }

    method EchoInput(id: string, s: Session, i: UserInput) returns (status: Status)
      requires Holding(id, s)
      modifies this`trace, s`userTurns, sessions`model
      ensures Holding(id, s) && s.userTurns == old(s.userTurns) + 1
      ensures var echo := UserEcho(UserKey(id, s.userTurns), i.content);
        Is(Send(world, Then(old(trace), Store(Bump(id))), echo), status, trace, ())
    {
      var userId := UserKey(id, s.userTurns + 1);
      CountUserTurn(id, s);
      status := SendMessage(UserEcho(userId, i.content));
    }

    method TakeUserInput(id: string, s: Session, history: seq<Entry>, i: UserInput)
      returns (status: Status, grown: seq<Entry>)
      requires Holding(id, s)
      modifies this`trace, sessions`sessions, sessions`model, sessions.Objects()
      ensures Holding(id, s) && sessions.sessions == old(sessions.sessions)
      ensures status == GoesOn ==> s.userTurns == old(s.userTurns) + 1
      ensures Is(TakeInput(world, cfg, old(trace), id, old(s.userTurns), history, i), status, trace, grown)
    {
      if cfg.responsesMode && HasNonTextBlocks(i.content) {
        Put(Fail(MultimodalInput));
        return Ends, history;
      }
      status, grown := EchoAndAccept(id, s, history, i);
    }

    method EchoAndAccept(id: string, s: Session, history: seq<Entry>, i: UserInput)
      returns (status: Status, grown: seq<Entry>)
      requires Holding(id, s) && !(cfg.responsesMode && HasNonTextBlocks(i.content))
      modifies this`trace, sessions`sessions, sessions`model, sessions.Objects()
      ensures Holding(id, s) && sessions.sessions == old(sessions.sessions)
      ensures status == GoesOn ==> s.userTurns == old(s.userTurns) + 1
      ensures Is(TakeInput(world, cfg, old(trace), id, old(s.userTurns), history, i), status, trace, grown)
    {
      grown := history;
      ghost var goal := TakeInput(world, cfg, trace, id, s.userTurns, history, i);
      status := EchoInput(id, s, i);
      if status != GoesOn {
        return;
      }
      assert goal == AcceptInput(world, cfg, trace, id, s.userTurns, history, i);
      status, grown := AcceptUserInput(id, s, history, i);
    }

    method AcceptUserInput(id: string, s: Session, history: seq<Entry>, i: UserInput)
      returns (status: Status, grown: seq<Entry>)
      requires Holding(id, s)
      modifies this`trace, sessions`sessions, sessions`model, sessions.Objects()
      ensures Holding(id, s) && sessions.sessions == old(sessions.sessions) && s.userTurns == old(s.userTurns)
      ensures Is(AcceptInput(world, cfg, old(trace), id, s.userTurns, history, i), status, trace, grown)
    {
      grown := history;
      var reply: HookReply;
      status, reply := CheckHook(UserPromptSubmit, "", map[]);
      if status != GoesOn {
        return;
      }
      var role := i.role;
      if role == "" {
        role := "user";
      }
      grown := history + [Input(role, i.content)];
      status := TakeCheckpoint(id, s, grown);
    }

    method OpenHistoryOf(messages: seq<Entry>) returns (status: Status, history: seq<Entry>)
      requires Valid()
      modifies this`trace
      ensures Valid() && Is(OpenHistory(world, cfg, old(trace), messages), status, trace, history)
    {
      history, status := messages, GoesOn;
      if |history| == 0 && cfg.systemPrompt != "" {
        status := SendMessage(SystemInit(cfg.systemPrompt));
        history := [System(cfg.systemPrompt)];
      }
    }

    /** The loop over the inputs, and the turns behind it. */
    method ConverseOn(id: string, s: Session, opening: seq<Entry>, inputs: seq<UserInput>) returns (status: Status)
      requires Holding(id, s)
      modifies this`trace, this`model, executor, executor.store, sessions`sessions, sessions`model, sessions.Objects()
      ensures Holding(id, s) && status != GoesOn
      ensures Is(Converse(world, cfg, old(trace), id, old(s.userTurns), opening, policy0, inputs), status, trace, ())
    {
      var history := opening;
      var i := 0;
      assert inputs[i..] == inputs;
      ghost var goal := Converse(world, cfg, trace, id, s.userTurns, opening, policy0, inputs);
      while i < |inputs|
        invariant 0 <= i <= |inputs| && Holding(id, s) && sessions.sessions == old(sessions.sessions)
        invariant goal == Converse(world, cfg, trace, id, s.userTurns, history, policy0, inputs[i..])
      {
        assert inputs[i..][0] == inputs[i] && inputs[i..][1..] == inputs[i + 1..];
        status, history := TakeUserInput(id, s, history, inputs[i]);
        if status != GoesOn {
          return;
        }
        i := i + 1;
      }
      status := RunTurns(id, s, history);
    }

    /** RunMessages. */
    method RunMessages(sessionId: string, inputs: seq<UserInput>) returns (status: Status)
      requires sessions.Valid()
      modifies this, executor, executor.store, sessions`sessions, sessions`model, sessions.Objects()
      ensures Valid() && store0 == old(sessions.Current()) && policy0 == old(executor.Current())
      ensures cfg == old(cfg).(model := old(model))
      ensures var id := NamedId(sessionId);
        var found := SessionAt(old(sessions.model), id);
        Is(Run(world, cfg, id, found.messages, found.userTurns, policy0, inputs), status, trace, ()) && status != GoesOn
    {
      store0, policy0 := sessions.Current(), executor.Current();
      cfg := cfg.(model := model);
      trace := Begin;
      if !world.hasTransport {
        Put(Fail(NoTransport));
        return Ends;
      }
      if world.startError.Some? {
        Put(Fail(StartFailed(world.startError.value)));
        return Ends;
      }
      status := RunOpened(if sessionId == "" then "default" else sessionId, inputs);
    }

    method OpenSession(id: string) returns (s: Session)
      requires Valid() && id != ""
      modifies this`trace, sessions`sessions, sessions`model
      ensures Holding(id, s) && trace == Then(old(trace), Store(Open(id))) &&
          s.Value() == SessionAt(old(sessions.model), id)
      ensures fresh(sessions.Objects() - old(sessions.Objects()))
    {
      s := sessions.GetOrCreate(id);
      Note(Open(id));
    }

    method RunOpened(id: string, inputs: seq<UserInput>) returns (status: Status)
      requires Valid() && id != ""
      modifies this`trace, this`model, executor, executor.store, sessions`sessions, sessions`model, sessions.Objects()
      ensures Valid() && status != GoesOn
      ensures var found := SessionAt(old(sessions.model), id);
        var begun := Then(old(trace), Store(Open(id)));
        Is(OpenedRun(world, cfg, begun, id, found.messages, found.userTurns, policy0, inputs), status, trace, ())
    {
      var s := OpenSession(id);
      var history: seq<Entry>;
      status, history := OpenHistoryOf(s.messages);
      if status == GoesOn {
        status := ConverseOn(id, s, history, inputs);
      }
    }
  }

  /** What the callback's answer leaves: the policy that the observed changes and updates make. */
  lemma CallbackLeaves(store: State, pol: Policy, model: string, looked: Trace, c: Call, input: Fields, tool: ToolWorld)
    requires tool.callback.Some?
    ensures var asked := Drift(looked, OnPolicy(tool.meanwhile));
      var reply := tool.callback.value;
      var tr1 :=
        if reply.AllowTool? && reply.updates != [] then Then(asked, Granted(Present(reply.updates))) else asked;
      && PolicyAt(pol, tr1) ==
        AskCallback(AlteredAll(PolicyAt(pol, looked), tool.meanwhile), c.name, input, tool).policy
      && StoreAfter(store, tr1) == StoreAfter(store, looked) && ModelAt(model, tr1) == ModelAt(model, looked)
  {
    MeanwhileLeaves(store, pol, model, looked, tool.meanwhile);
  }

  /** The gates leave the policy that the observed changes and updates make, and touch nothing else. */
  lemma GatesLeave(store: State, pol: Policy, model: string, tr: Trace, c: Call, input: Fields, tool: ToolWorld)
    ensures var now := PolicyAt(pol, tr);
      var tr1 := PassGates(tr, Denies(now, c.name), c, tool);
      && PolicyAt(pol, tr1) == Gate(now, c.name, input, tool).policy
      && StoreAfter(store, tr1) == StoreAfter(store, tr) && ModelAt(model, tr1) == ModelAt(model, tr)
  {
    var looked := Then(tr, Checked(c.id, c.name, Denies(PolicyAt(pol, tr), c.name)));
    assert PolicyAt(pol, looked) == PolicyAt(pol, tr);
    assert StoreAfter(store, looked) == StoreAfter(store, tr) && ModelAt(model, looked) == ModelAt(model, tr);
    if tool.callback.Some? {
      CallbackLeaves(store, pol, model, looked, c, input, tool);
    }
  }

  lemma OneMoreDrift(tr: Trace, changes: seq<PolicyChange>)
    requires changes != []
    ensures var n := |changes| - 1;
      Drift(tr, OnPolicy(changes)) == Then(Drift(tr, OnPolicy(changes[..n])), Outside(ToPolicy(changes[n])))
  {
    var n := |changes| - 1;
    var all := OnPolicy(changes);
    assert all[..|all| - 1] == OnPolicy(changes[..n]);
  }

  lemma {:induction false} MeanwhileLeaves(store: State, pol: Policy, model: string, tr: Trace,
          changes: seq<PolicyChange>)
    ensures var tr1 := Drift(tr, OnPolicy(changes));
      && PolicyAt(pol, tr1) == AlteredAll(PolicyAt(pol, tr), changes)
      && StoreAfter(store, tr1) == StoreAfter(store, tr) && ModelAt(model, tr1) == ModelAt(model, tr)
    decreases |changes|
  {
    if changes != [] {
      MeanwhileLeaves(store, pol, model, tr, changes[..|changes| - 1]);
      OneMoreDrift(tr, changes);
    }
  }
}
