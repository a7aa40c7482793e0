/** The automaton read by event: what holds at each stage, where each kind of event may occur, and what
    it changes. */
module RunnerEffects {
  import opened Basics
  import opened Json
  import opened Decimal
  import opened Folding
  import opened EventMapper
  import opened History
  import opened Policy
  import opened SessionStore
  import opened RunnerModel
  import opened RunnerProtocol

  ghost predicate Takes(s: Setup, stage: Stage, b: Book, e: Event) {
    Step(s, stage, b, e).At?
  }

  /** Before the first request. */
  predicate Opening(stage: Stage) {
    stage.Fresh? || stage.Inputs? || stage.Bumped? || stage.Echoed? || stage.Heard? || stage.Saved? || stage.FilesDue?
  }

  /** A request is being answered. */
  predicate Receiving(stage: Stage) {
    stage.Quiet? || stage.Talking? || stage.Unparsed?
  }

  /** In the middle of a tool call. */
  predicate InCall(stage: Stage) {
    || stage.Announced? || stage.Granting? || stage.Decided? || stage.Refused? || stage.Allowed? || stage.Looked?
    || stage.Consented? || stage.Ran? || stage.Posted?
  }

  predicate Closing(stage: Stage) {
    stage.Won? || stage.Committed? || stage.Stopping? || stage.Ended?
  }

  ghost predicate WithinBudget(s: Setup, b: Book) {
    !OverBudget(s.cfg, Spent(b), b.turn.cost)
  }

  /** What holds wherever a run stands. */
  ghost predicate Sound(s: Setup, stage: Stage, b: Book) {
    && b.turns <= TurnLimit(s.cfg) && b.taken <= |s.inputs|
    && (Opening(stage) ==> b.turns == 0 && b.total == 0.0)
    && (Opening(stage) || stage.Quiet? ==> b.turn == BLANK_TURN)
    && (Opening(stage) || Receiving(stage) ==> b.answers == [])
    && (Receiving(stage) || InCall(stage) || stage.Calling? || stage.Won? ==> b.turns > 0 && b.taken == |s.inputs|)
    && (InCall(stage) || stage.Calling? ==> WithinBudget(s, b))
    && (InCall(stage) ==> |b.answers| < |Ordered(b.turn.calls)|)
    && (stage.Calling? ==> |b.answers| <= |Ordered(b.turn.calls)|)
  }

  /** What the run did last itself: changes from outside are passed over. */
  function Own(tr: Trace): Trace {
    match tr
    case Begin => tr
    case Then(before, e) => if e.Outside? then Own(before) else tr
  }

  lemma SoundOutside(s: Setup, stage: Stage, b: Book, change: Change)
    requires Sound(s, stage, b)
    ensures OnOutside(stage, b, change).At?
    ensures Sound(s, OnOutside(stage, b, change).stage, OnOutside(stage, b, change).book)
  {
  }

  lemma SoundEarly(s: Setup, stage: Stage, b: Book, e: Event)
    requires Opening(stage) && Sound(s, stage, b) && !e.Outside? && Takes(s, stage, b, e)
    ensures Sound(s, Step(s, stage, b, e).stage, Step(s, stage, b, e).book)
  {
  }

  lemma SoundTurnEnd(s: Setup, b: Book, e: Event)
    requires 0 < b.turns <= TurnLimit(s.cfg) && b.taken == |s.inputs| && b.answers == [] && OnTurnEnd(s, b, e).At?
    ensures Sound(s, OnTurnEnd(s, b, e).stage, OnTurnEnd(s, b, e).book)
  {
  }

  lemma HearIs(s: Setup, b: Book, raw: Fields)
    ensures var m := Hear(s, b, raw);
        m.At? && (m.stage.Talking? || m.stage.Unparsed?) && m.book == b.(turn := m.book.turn)
  {
  }

  lemma SoundQuiet(s: Setup, b: Book, first: bool, e: Event)
    requires Sound(s, Quiet(first), b) && OnQuiet(s, b, first, e).At?
    ensures Sound(s, OnQuiet(s, b, first, e).stage, OnQuiet(s, b, first, e).book)
  {
    if e.Emit? && e.message.StreamEvent? {
      HearIs(s, b, e.message.raw);
    } else if OnTurnEnd(s, b, e).At? {
      SoundTurnEnd(s, b, e);
    }
  }

  lemma SoundTalking(s: Setup, b: Book, due: Due, e: Event)
    requires Sound(s, Talking(due), b) && OnTalking(s, b, due, e).At?
    ensures Sound(s, OnTalking(s, b, due, e).stage, OnTalking(s, b, due, e).book)
  {
    if due.Nothing? {
      if e.Emit? && e.message.StreamEvent? {
        HearIs(s, b, e.message.raw);
      } else if OnTurnEnd(s, b, e).At? {
        SoundTurnEnd(s, b, e);
      }
    }
  }

  lemma SoundStreaming(s: Setup, stage: Stage, b: Book, e: Event)
    requires Receiving(stage) && Sound(s, stage, b) && !e.Outside? && Takes(s, stage, b, e)
    ensures Sound(s, Step(s, stage, b, e).stage, Step(s, stage, b, e).book)
  {
    match stage {
      case Quiet(first) => SoundQuiet(s, b, first, e);
      case Talking(due) => SoundTalking(s, b, due, e);
      case Unparsed(_) =>
    }
  }

  lemma SoundCalling(s: Setup, stage: Stage, b: Book, e: Event)
    requires stage.Calling? && Sound(s, stage, b) && !e.Outside? && Takes(s, stage, b, e)
    ensures Sound(s, Step(s, stage, b, e).stage, Step(s, stage, b, e).book)
  {
  }

  /** The call has passed its permission request. */
  predicate Underway(stage: Stage) {
    stage.Allowed? || stage.Looked? || stage.Consented? || stage.Ran? || stage.Posted?
  }

  lemma SoundUnderway(s: Setup, stage: Stage, b: Book, e: Event)
    requires Underway(stage) && Sound(s, stage, b) && !e.Outside? && Takes(s, stage, b, e)
    ensures Sound(s, Step(s, stage, b, e).stage, Step(s, stage, b, e).book)
  {
  }

  lemma SoundInCall(s: Setup, stage: Stage, b: Book, e: Event)
    requires InCall(stage) && Sound(s, stage, b) && !e.Outside? && Takes(s, stage, b, e)
    ensures Sound(s, Step(s, stage, b, e).stage, Step(s, stage, b, e).book)
  {
    if Underway(stage) {
      SoundUnderway(s, stage, b, e);
    }
  }

  lemma {:induction false} SoundThroughout(s: Setup, tr: Trace)
    requires Accepted(s, tr)
    ensures Sound(s, Watch(s, tr).stage, Watch(s, tr).book)
  {
    match tr
    case Begin =>
    case Then(before, e) =>
      Took(s, before, e);
      SoundThroughout(s, before);
      var stage, b := Watch(s, before).stage, Watch(s, before).book;
      if e.Outside? {
        SoundOutside(s, stage, b, e.change);
      } else if Opening(stage) {
        SoundEarly(s, stage, b, e);
      } else if Receiving(stage) {
        SoundStreaming(s, stage, b, e);
      } else if stage.Calling? {
        SoundCalling(s, stage, b, e);
      } else if InCall(stage) {
        SoundInCall(s, stage, b, e);
      }
  }

  // ---- what events do ----

  /** A failure ends the run, except one of parsing. */
  predicate FailureEffect(stage: Stage, b: Book, f: Failure, next: Monitor) {
    && !stage.Won? && !stage.Committed? && !stage.Ended?
    && next == At(if stage.Unparsed? && f == ChunkFailed(stage.error) then Talking(Nothing) else Ended, b)
  }

  lemma FailureEffects(s: Setup, stage: Stage, b: Book, f: Failure)
    requires Takes(s, stage, b, Fail(f))
    ensures FailureEffect(stage, b, f, Step(s, stage, b, Fail(f)))
  {
  }

  /** Nothing is owed and the stream may be over. */
  predicate Idle(stage: Stage) {
    stage.Quiet? || stage == Talking(Nothing)
  }

  /** Where messages other than results are sent, and what they say. */
  ghost predicate MessageEffect(s: Setup, stage: Stage, b: Book, m: RunnerModel.Message, next: Monitor) {
    match m
    case SystemInit(prompt) =>
      stage.Inputs? && b.history == [] && b.taken == 0 && next == At(Inputs, b.(history := [System(prompt)]))
    case UserEcho(uuid, _) => stage.Bumped? && uuid == UserKey(s.id, b.userTurns) && next == At(Echoed, b)
    case StreamEvent(raw) => Idle(stage) && next == Hear(s, b, raw)
    case PartialText(text) =>
      stage.Talking? && stage.due.OwedText? && text == stage.due.text && next == At(Talking(stage.due.more), b)
    case PartialImages(images) =>
      stage.Talking? && stage.due.OwedImages? && images == stage.due.images && next == At(Talking(stage.due.more), b)
    case FinalText(text, images) =>
      && Idle(stage) && WithinBudget(s, b) && ShowsFinal(s.cfg, Final(b.turn))
      && text == TrimSpace(b.turn.text) && images == b.turn.images && next == At(Calling, b)
    case ToolUse(id, name, input) =>
      var c := CurrentCall(b);
      && (Idle(stage) || stage.Calling?) && WithinBudget(s, b) && |b.answers| < |Ordered(b.turn.calls)|
      && (Idle(stage) ==> !ShowsFinal(s.cfg, Final(b.turn)))
      && id == c.id && name == c.name && input == DecodedInput(s.decode, c) && next == At(Announced, b)
    case ToolAnswer(id, text, isError) =>
      && stage.Posted? && id == CurrentCall(b).id && text == AnswerText(stage.outcome)
      && isError == !stage.outcome.Answered? && !Interrupts(stage.outcome)
      && next == At(Calling, b.(answers := b.answers + [Answer(id, text)]))
    case ResultMessage(reason, numTurns, cost, usage, answer) =>
      && numTurns == b.turns > 0
      && match reason {
        case EndTurn =>
          && (Idle(stage) || stage.Calling?) && WithinBudget(s, b) && b.answers == [] && Ordered(b.turn.calls) == []
          && (Idle(stage) ==> !ShowsFinal(s.cfg, Final(b.turn)))
          && cost == (if b.turn.cost.Some? then Some(Spent(b)) else None)
          && usage == b.turn.usage && answer == IfAny(TrimSpace(b.turn.text))
          && next == At(Won, b.(history := b.history + [Said(b.turn)]))
        case MaxBudget =>
          && Idle(stage) && !WithinBudget(s, b) && cost == Some(Spent(b)) && usage == b.turn.usage && answer == None
          && next == At(Ended, b)
        case Interrupted =>
          && cost == None && usage == None && next == At(Ended, b)
          && (|| (stage.Refused? && stage.decision.interrupt
                  && answer == Some(DeniedText(CurrentCall(b).name, stage.decision.message)))
              || (stage.Posted? && Interrupts(stage.outcome) && answer == Some(stage.outcome.denial)))
      }
  }

  lemma MessageEffects(s: Setup, stage: Stage, b: Book, m: RunnerModel.Message)
    requires Sound(s, stage, b) && Takes(s, stage, b, Emit(m))
    ensures MessageEffect(s, stage, b, m, Step(s, stage, b, Emit(m)))
  {
  }

  /** Which hooks run where, and about what; each stops the run or lets it pass to the next stage. */
  ghost predicate HookEffect(s: Setup, stage: Stage, b: Book, e: Event, next: Monitor)
    requires e.Hooked?
  {
    var c := CurrentCall(b);
    match stage
    case Echoed =>
      && b.taken < |s.inputs| && e.hook == UserPromptSubmit
      && var i := s.inputs[b.taken];
        next == match HookProblem(UserPromptSubmit, e.reply) {
          case Some(f) => At(Stopping(f), b)
          case None => At(if s.cfg.checkpointing then Heard else Inputs,
                          b.(taken := b.taken + 1, history := b.history + [Input(RoleOf(i), i.content)]))
        }
    case Announced =>
      var d := Decide(e.reply.outputs, e.input);
      && IsHook(e, PermissionRequest, c, DecodedInput(s.decode, c))
      && next == Unless(HookProblem(PermissionRequest, e.reply), b, if d.updates == [] then Decided(d) else Granting(d))
    case Decided(d) =>
      if d.deny then
        IsHook(e, PostToolUseFailure, c, d.input) &&
          next == Unless(OutputProblem(PostToolUseFailure, e.reply), b, Refused(d))
      else IsHook(e, PreToolUse, c, d.input) && next == Unless(HookProblem(PreToolUse, e.reply), b, Allowed(d.input))
    case Ran(input, outcome) =>
      if outcome.Answered? then
        IsHook(e, PostToolUse, c, input) && next == Unless(HookProblem(PostToolUse, e.reply), b, Posted(outcome))
      else
        IsHook(e, PostToolUseFailure, c, input) &&
          next == Unless(OutputProblem(PostToolUseFailure, e.reply), b, Posted(outcome))
    case Committed => e.hook == Stop && next == Unless(OutputProblem(Stop, e.reply), b, Ended)
    case _ => false
  }

  lemma HookEffects(s: Setup, stage: Stage, b: Book, e: Event)
    requires e.Hooked? && Takes(s, stage, b, e)
    ensures HookEffect(s, stage, b, e, Step(s, stage, b, e))
  {
  }

  /** What a run does to the store: it opens the session, counts each user message, stores the history
      with it when checkpointing, and stores the final history. */
  ghost predicate StoreEffect(s: Setup, stage: Stage, b: Book, op: Op, next: Monitor) {
    match stage
    case Fresh => op == Open(s.id) && next == At(Inputs, b)
    case Inputs => op == Bump(s.id) && next == At(Bumped, b.(userTurns := b.userTurns + 1))
    case Heard => op == SetState(s.id, b.history, b.userTurns) && next == At(Saved, b)
    case Saved =>
      op == TakeSnapshot(s.id, UserKey(s.id, b.userTurns)) &&
      next == At(if s.cfg.cwd == "" then Inputs else FilesDue, b)
    case FilesDue => op.TakeFiles? && op.id == s.id && op.key == UserKey(s.id, b.userTurns) && next == At(Inputs, b)
    case Won => op == SetState(s.id, b.history, b.userTurns) && next == At(Committed, b)
    case _ => false
  }

  lemma StoreEffects(s: Setup, stage: Stage, b: Book, op: Op)
    requires Takes(s, stage, b, Store(op))
    ensures StoreEffect(s, stage, b, op, Step(s, stage, b, Store(op)))
  {
  }

  /** Updates are granted by the hooks' decision, or by the callback behind a look at the policy. */
  ghost predicate GrantEffect(stage: Stage, b: Book, ups: seq<Update>, next: Monitor) {
    || (stage.Granting? && ups == Present(stage.decision.updates)
        && next == At(Decided(stage.decision), b.(policy := NextAll(b.policy, ups))))
    || (stage.Looked? && !stage.denied && next == At(Consented(stage.input), b.(policy := NextAll(b.policy, ups))))
  }

  ghost predicate CheckEffect(stage: Stage, b: Book, e: Event, next: Monitor)
    requires e.Checked?
  {
    var c := CurrentCall(b);
    stage.Allowed? && e == Checked(c.id, c.name, Denies(b.policy, c.name)) &&
      next == At(Looked(stage.input, e.denied), b)
  }

  ghost predicate ExecuteEffect(stage: Stage, b: Book, e: Event, next: Monitor)
    requires e.Executed?
  {
    && (stage.Allowed? || stage.Looked? || stage.Consented?) && IsExecution(e, CurrentCall(b), stage.input)
    && (stage.Allowed? ==> e.outcome.Failed? && !e.invoked)
    && (stage.Looked? ==> Reported(stage.denied, false, e.outcome, e.invoked))
    && (stage.Consented? ==> Reported(false, true, e.outcome, e.invoked))
    && next == At(Ran(stage.input, e.outcome), b)
  }

  lemma GrantEffects(s: Setup, stage: Stage, b: Book, ups: seq<Update>)
    requires Takes(s, stage, b, Granted(ups))
    ensures GrantEffect(stage, b, ups, Step(s, stage, b, Granted(ups)))
  {
  }

  lemma ToolEffects(s: Setup, stage: Stage, b: Book, e: Event)
    requires (e.Checked? || e.Executed?) && Takes(s, stage, b, e)
    ensures e.Checked? ==> CheckEffect(stage, b, e, Step(s, stage, b, e))
    ensures e.Executed? ==> ExecuteEffect(stage, b, e, Step(s, stage, b, e))
  {
  }

  /** A request repeats the one before with the other model, or starts a turn with all that was said. */
  ghost predicate RequestEffect(s: Setup, stage: Stage, b: Book, model: string, history: seq<Entry>, next: Monitor) {
    || (stage == Quiet(true) && HasFallback(s.cfg, b.picked) && model == s.cfg.fallback && history == b.history &&
      next == At(Quiet(false), b))
    || (stage.Inputs? && b.taken >= |s.inputs| && model == PickModel(b.model) && history == b.history &&
      next == NewTurn(b, history))
    || (stage.Calling? && |b.answers| == |Ordered(b.turn.calls)| && b.turns < TurnLimit(s.cfg) &&
      model == PickModel(b.model)
        && history == b.history + [Said(b.turn)] + b.answers && next == NewTurn(b, history))
  }

  lemma RequestEffects(s: Setup, stage: Stage, b: Book, model: string, history: seq<Entry>)
    requires Sound(s, stage, b) && Takes(s, stage, b, Request(model, history))
    ensures RequestEffect(s, stage, b, model, history, Step(s, stage, b, Request(model, history)))
  {
  }

  ghost predicate Effect(s: Setup, stage: Stage, b: Book, e: Event, next: Monitor) {
    match e
    case Emit(m) => MessageEffect(s, stage, b, m, next)
    case Fail(f) => FailureEffect(stage, b, f, next)
    case Request(model, history) => RequestEffect(s, stage, b, model, history, next)
    case Hooked(_, _, _, _) => HookEffect(s, stage, b, e, next)
    case Granted(ups) => GrantEffect(stage, b, ups, next)
    case Checked(_, _, _) => CheckEffect(stage, b, e, next)
    case Executed(_, _, _, _, _) => ExecuteEffect(stage, b, e, next)
    case Store(op) => StoreEffect(s, stage, b, op, next)
    case Outside(change) => next == OnOutside(stage, b, change)
  }

  /** One step of an accepted trace: where it was, where it is, and what the event between them says. */
  lemma Stepped(s: Setup, before: Trace, e: Event) returns (stage: Stage, b: Book, next: Monitor)
    requires Accepted(s, Then(before, e))
    ensures Watch(s, before) == At(stage, b) && Sound(s, stage, b)
    ensures next == Watch(s, Then(before, e)) && next.At? && Effect(s, stage, b, e, next)
  {
    Took(s, before, e);
    SoundThroughout(s, before);
    stage, b, next := Watch(s, before).stage, Watch(s, before).book, Watch(s, Then(before, e));
    match e {
      case Emit(m) => MessageEffects(s, stage, b, m);
      case Fail(f) => FailureEffects(s, stage, b, f);
      case Request(model, history) => RequestEffects(s, stage, b, model, history);
      case Hooked(_, _, _, _) => HookEffects(s, stage, b, e);
      case Store(op) => StoreEffects(s, stage, b, op);
      case Granted(ups) => GrantEffects(s, stage, b, ups);
      case Checked(_, _, _) => ToolEffects(s, stage, b, e);
      case Executed(_, _, _, _, _) => ToolEffects(s, stage, b, e);
      case Outside(_) =>
    }
  }

  /** Policy and model change with grants and from outside only. */
  lemma InForceStays(s: Setup, stage: Stage, b: Book, e: Event, next: Monitor)
    requires next.At? && Effect(s, stage, b, e, next) && !e.Granted? && !e.Outside?
    ensures next.book.policy == b.policy && next.book.model == b.model
  {
    if e.Emit? && e.message.StreamEvent? {
      HearIs(s, b, e.message.raw);
    }
  }

  /** So the book has the ones the trace makes. */
  lemma {:induction false} InForce(s: Setup, tr: Trace)
    requires Accepted(s, tr)
    ensures Watch(s, tr).book.policy == PolicyAt(s.policy, tr) && Watch(s, tr).book.model == ModelAt(s.cfg.model, tr)
  {
    match tr
    case Begin =>
    case Then(before, e) =>
      var stage, b, next := Stepped(s, before, e);
      InForce(s, before);
      if !e.Granted? && !e.Outside? {
        InForceStays(s, stage, b, e, next);
      }
  }
}
