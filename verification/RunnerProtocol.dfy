/** The protocol of a run as an automaton over what can be observed of it: which event may follow
    which, and what each one must contain, given what was streamed and answered before. */
module RunnerProtocol {
  import opened Basics
  import opened Json
  import opened Decimal
  import opened Folding
  import opened EventMapper
  import opened History
  import opened Policy
  import opened SessionStore
  import opened RunnerModel

  /** What is fixed when a run starts: its configuration, the session it finds, and the inputs. */
  datatype Setup = Setup(
    cfg: Config,
    parse: Parser,
    decode: ArgsDecoder,
    id: string,
    messages: seq<Entry>,
    userTurns: nat,
    policy: Policy,
    inputs: seq<UserInput>)

  /** Partial messages still owed to the consumer. */
  datatype Due = Nothing | OwedText(text: string, more: Due) | OwedImages(images: seq<Image>, more: Due)

  datatype Stage =
    | Fresh
    | Inputs
    | Bumped
    | Echoed
    | Heard
    | Saved
    | FilesDue
    | Quiet(first: bool)
    | Talking(due: Due)
    | Unparsed(error: MapError)
    | Calling
    | Announced
    | Granting(decision: Decision)
    | Decided(decision: Decision)
    | Refused(decision: Decision)
    | Allowed(input: Fields)
    | Looked(input: Fields, denied: bool)
    | Consented(input: Fields)
    | Ran(input: Fields, outcome: ToolOutcome)
    | Posted(outcome: ToolOutcome)
    | Won
    | Committed
    | Stopping(failure: Failure)
    | Ended

  /** What a run has come to: the inputs taken, the history of the current request, the turns started,
      the turn folded so far with the answers given, the model it picked, the cost of earlier turns, and
      the policy and the model in force. */
  datatype Book = Book(
    taken: nat,
    userTurns: nat,
    history: seq<Entry>,
    turns: nat,
    turn: Turn,
    answers: seq<Entry>,
    picked: string,
    total: real,
    policy: Policy,
    model: string)

  datatype Monitor = Bad | At(stage: Stage, book: Book)

  /** Behind a hook that may have failed. */
  function Unless(problem: Option<Failure>, b: Book, stage: Stage): Monitor {
    At(match problem case None => stage case Some(f) => Stopping(f), b)
  }

  // ---- what a turn comes to ----

  /** Plain folding of chunks, with nothing sent. */
  function AfterChunk(t: Turn, ch: Chunk): Turn {
    t.(text := t.text + News(t.text, ch.content),
       images := Keep(t.images, ch.images),
       calls := AddDeltas(t.calls, ch.toolDeltas))
  }

  function AfterChunks(t: Turn, chunks: seq<Chunk>): Turn
    decreases |chunks|
  {
    if chunks == [] then t else AfterChunks(AfterChunk(t, chunks[0]), chunks[1..])
  }

  /** The partial messages a chunk owes. */
  function DueOfChunk(t: Turn, ch: Chunk, more: Due): Due {
    var text := News(t.text, ch.content);
    var images := Keep(t.images, ch.images)[|t.images|..];
    var behind := if images == [] then more else OwedImages(images, more);
    if text == "" then behind else OwedText(text, behind)
  }

  function DueOf(t: Turn, chunks: seq<Chunk>): Due
    decreases |chunks|
  {
    if chunks == [] then Nothing else DueOfChunk(t, chunks[0], DueOf(AfterChunk(t, chunks[0]), chunks[1..]))
  }

  function Final(t: Turn): Turn {
    t.(text := TrimSpace(t.text))
  }

  function Spent(b: Book): real {
    b.total + GetOr(b.turn.cost, 0.0)
  }

  /** The assistant entry the turn leaves in the history. */
  ghost function Said(t: Turn): Entry {
    Assistant(TrimSpace(t.text), t.images, Ordered(t.calls))
  }

  /** The call whose answer comes next. */
  ghost function CurrentCall(b: Book): Call {
    var calls := Ordered(b.turn.calls);
    if |b.answers| < |calls| then calls[|b.answers|] else BLANK_CALL
  }

  function NewTurn(b: Book, history: seq<Entry>): Monitor {
    At(Quiet(true), b.(turns := b.turns + 1, turn := BLANK_TURN, answers := [], picked := PickModel(b.model),
                       total := Spent(b), history := history))
  }

  // ---- one event, stage by stage ----

  function OnFresh(s: Setup, b: Book, e: Event): Monitor {
    if e == Store(Open(s.id)) then At(Inputs, b)
    else if e.Fail? && (e.failure.NoTransport? || e.failure.StartFailed?) then At(Ended, b)
    else Bad
  }

  function OnInputs(s: Setup, b: Book, e: Event): Monitor {
    if b.history == [] && b.taken == 0 && s.cfg.systemPrompt != "" then
      if e == Emit(SystemInit(s.cfg.systemPrompt)) then At(Inputs, b.(history := [System(s.cfg.systemPrompt)]))
      else if e == Fail(Cancelled) then At(Ended, b)
      else Bad
    else if e.Fail? && e.failure.CheckpointFailed? then
      if s.cfg.checkpointing && s.cfg.cwd != "" && b.taken > 0 then At(Ended, b) else Bad
    else if b.taken < |s.inputs| then
      if s.cfg.responsesMode && HasNonTextBlocks(s.inputs[b.taken].content) then
        if e == Fail(MultimodalInput) then At(Ended, b) else Bad
      else if e == Store(Bump(s.id)) then At(Bumped, b.(userTurns := b.userTurns + 1))
      else Bad
    else if e == Request(PickModel(b.model), b.history) then NewTurn(b, b.history)
    else Bad
  }

  function OnBumped(s: Setup, b: Book, e: Event): Monitor {
    if b.taken < |s.inputs| && e == Emit(UserEcho(UserKey(s.id, b.userTurns), s.inputs[b.taken].content)) then
      At(Echoed, b)
    else if e == Fail(Cancelled) then At(Ended, b)
    else Bad
  }

  function OnEchoed(s: Setup, b: Book, e: Event): Monitor {
    if b.taken < |s.inputs| && e.Hooked? && e.hook == UserPromptSubmit && e.callId == "" && e.input == map[] then
      var i := s.inputs[b.taken];
      match HookProblem(UserPromptSubmit, e.reply)
      case Some(f) => At(Stopping(f), b)
      case None =>
        At(if s.cfg.checkpointing then Heard else Inputs,
           b.(taken := b.taken + 1, history := b.history + [Input(RoleOf(i), i.content)]))
    else Bad
  }

  function OnHeard(s: Setup, b: Book, e: Event): Monitor {
    if e == Store(SetState(s.id, b.history, b.userTurns)) then At(Saved, b) else Bad
  }

  function OnSaved(s: Setup, b: Book, e: Event): Monitor {
    if e == Store(TakeSnapshot(s.id, UserKey(s.id, b.userTurns))) then
      At(if s.cfg.cwd == "" then Inputs else FilesDue, b)
    else Bad
  }

  function OnFilesDue(s: Setup, b: Book, e: Event): Monitor {
    if e.Store? && e.op.TakeFiles? && e.op.id == s.id && e.op.key == UserKey(s.id, b.userTurns) then At(Inputs, b)
    else if e.Fail? && e.failure.CheckpointFailed? then At(Ended, b)
    else Bad
  }

  function Hear(s: Setup, b: Book, raw: Fields): Monitor {
    var t := Priced(b.turn, raw);
    match s.parse(raw)
    case Err(error) => At(Unparsed(error), b.(turn := t))
    case Ok(chunks) =>
      At(Talking(if s.cfg.partials then DueOf(t, chunks) else Nothing), b.(turn := AfterChunks(t, chunks)))
  }

  /** There is another model to ask than the one the turn picked. */
  predicate HasFallback(cfg: Config, picked: string) {
    cfg.fallback != "" && cfg.fallback != picked
  }

  /** A request nothing has come back for yet. */
  ghost function OnQuiet(s: Setup, b: Book, first: bool, e: Event): Monitor {
    if e.Emit? && e.message.StreamEvent? then Hear(s, b, e.message.raw)
    else if e.Request? && first && HasFallback(s.cfg, b.picked) then
      if e == Request(s.cfg.fallback, b.history) then At(Quiet(false), b) else Bad
    else if e.Fail? && e.failure.TransportFailed? then
      if first && HasFallback(s.cfg, b.picked) then Bad else At(Ended, b)
    else if e == Fail(Cancelled) then At(Ended, b)
    else OnTurnEnd(s, b, e)
  }

  ghost function OnTalking(s: Setup, b: Book, due: Due, e: Event): Monitor {
    if e == Fail(Cancelled) then At(Ended, b)
    else
      match due
      case OwedText(text, more) => if e == Emit(PartialText(text)) then At(Talking(more), b) else Bad
      case OwedImages(images, more) => if e == Emit(PartialImages(images)) then At(Talking(more), b) else Bad
      case Nothing =>
        if e.Emit? && e.message.StreamEvent? then Hear(s, b, e.message.raw)
        else if e.Fail? && e.failure.TransportFailed? then At(Ended, b)
        else OnTurnEnd(s, b, e)
  }

  function OnUnparsed(b: Book, error: MapError, e: Event): Monitor {
    if e == Fail(ChunkFailed(error)) then At(Talking(Nothing), b)
    else if e == Fail(Cancelled) then At(Ended, b)
    else Bad
  }

  /** What may come first behind a finished stream. */
  ghost function OnTurnEnd(s: Setup, b: Book, e: Event): Monitor {
    if e == Fail(Cancelled) then At(Ended, b)
    else if OverBudget(s.cfg, Spent(b), b.turn.cost) then
      if e == Emit(ResultMessage(MaxBudget, b.turns, Some(Spent(b)), b.turn.usage, None)) then At(Ended, b) else Bad
    else if ShowsFinal(s.cfg, Final(b.turn)) then
      if e == Emit(FinalText(TrimSpace(b.turn.text), b.turn.images)) then At(Calling, b) else Bad
    else OnCalling(s, b, e)
  }

  function IfAny(text: string): Option<string> {
    if text == "" then None else Some(text)
  }

  ghost function OnCalling(s: Setup, b: Book, e: Event): Monitor {
    var calls := Ordered(b.turn.calls);
    if |b.answers| < |calls| then
      if e == Emit(ToolUse(CurrentCall(b).id, CurrentCall(b).name, DecodedInput(s.decode, CurrentCall(b)))) then
        At(Announced, b)
      else if e == Fail(Cancelled) then At(Ended, b)
      else Bad
    else if calls == [] then
      if e == Emit(ResultMessage(EndTurn, b.turns, if b.turn.cost.Some? then Some(Spent(b)) else None, b.turn.usage,
                                 IfAny(TrimSpace(b.turn.text)))) then
        At(Won, b.(history := b.history + [Said(b.turn)]))
      else if e == Fail(Cancelled) then At(Ended, b)
      else Bad
    else if b.turns < TurnLimit(s.cfg) then
      var history := b.history + [Said(b.turn)] + b.answers;
      if e == Request(PickModel(b.model), history) then NewTurn(b, history) else Bad
    else if e == Fail(TurnsExhausted) then At(Ended, b)
    else Bad
  }

  predicate IsHook(e: Event, h: HookEvent, c: Call, input: Fields) {
    e.Hooked? && e.hook == h && e.callId == c.id && e.input == input
  }

  ghost function OnAnnounced(s: Setup, b: Book, e: Event): Monitor {
    var c := CurrentCall(b);
    var input := DecodedInput(s.decode, c);
    if IsHook(e, PermissionRequest, c, input) then
      var d := Decide(e.reply.outputs, input);
      Unless(HookProblem(PermissionRequest, e.reply), b, if d.updates == [] then Decided(d) else Granting(d))
    else Bad
  }

  function OnGranting(b: Book, d: Decision, e: Event): Monitor {
    if e == Granted(Present(d.updates)) then At(Decided(d), b.(policy := NextAll(b.policy, Present(d.updates))))
    else Bad
  }

  ghost function OnDecided(b: Book, d: Decision, e: Event): Monitor {
    var c := CurrentCall(b);
    if d.deny then
      if IsHook(e, PostToolUseFailure, c, d.input) then
        Unless(OutputProblem(PostToolUseFailure, e.reply), b, Refused(d))
      else Bad
    else if IsHook(e, PreToolUse, c, d.input) then Unless(HookProblem(PreToolUse, e.reply), b, Allowed(d.input))
    else Bad
  }

  ghost function OnRefused(b: Book, d: Decision, e: Event): Monitor {
    var c := CurrentCall(b);
    if d.interrupt then
      if e == Emit(ResultMessage(Interrupted, b.turns, None, None, Some(DeniedText(c.name, d.message)))) then
        At(Ended, b)
      else if e == Fail(Cancelled) then At(Ended, b)
      else Bad
    else if e == Fail(PermissionDenied(c.name, d.message)) then At(Ended, b)
    else Bad
  }

  /** What execution may report. Behind a look at the policy that denied: that, and no handler ran. Else a
      callback that did not consent or a handler that ran may still have denied the call, and only a
      handler answers. */
  predicate Reported(denied: bool, consented: bool, outcome: ToolOutcome, invoked: bool) {
    && (denied ==> outcome == DeniedFor(POLICY_REASON, false) && !invoked)
    && (consented && outcome.Denied? ==> invoked)
    && (outcome.Answered? ==> invoked)
  }

  ghost predicate IsExecution(e: Event, c: Call, input: Fields) {
    e.Executed? && e.id == c.id && e.name == c.name && e.input == input
  }

  /** A tool that is not there fails without a look at the policy. */
  ghost function OnAllowed(b: Book, input: Fields, e: Event): Monitor {
    var c := CurrentCall(b);
    if e == Checked(c.id, c.name, Denies(b.policy, c.name)) then At(Looked(input, e.denied), b)
    else if IsExecution(e, c, input) && e.outcome.Failed? && !e.invoked then At(Ran(input, e.outcome), b)
    else Bad
  }

  ghost function OnLooked(b: Book, input: Fields, denied: bool, e: Event): Monitor {
    if e.Granted? && !denied then At(Consented(input), b.(policy := NextAll(b.policy, e.updates)))
    else if IsExecution(e, CurrentCall(b), input) && Reported(denied, false, e.outcome, e.invoked) then
      At(Ran(input, e.outcome), b)
    else Bad
  }

  ghost function OnConsented(b: Book, input: Fields, e: Event): Monitor {
    if IsExecution(e, CurrentCall(b), input) && Reported(false, true, e.outcome, e.invoked) then
      At(Ran(input, e.outcome), b)
    else Bad
  }

  ghost function OnRan(b: Book, input: Fields, outcome: ToolOutcome, e: Event): Monitor {
    var c := CurrentCall(b);
    if outcome.Answered? then
      if IsHook(e, PostToolUse, c, input) then Unless(HookProblem(PostToolUse, e.reply), b, Posted(outcome)) else Bad
    else if IsHook(e, PostToolUseFailure, c, input) then
      Unless(OutputProblem(PostToolUseFailure, e.reply), b, Posted(outcome))
    else Bad
  }

  ghost function OnPosted(b: Book, outcome: ToolOutcome, e: Event): Monitor {
    var c := CurrentCall(b);
    var text := AnswerText(outcome);
    if e == Fail(Cancelled) then At(Ended, b)
    else if Interrupts(outcome) then
      if e == Emit(ResultMessage(Interrupted, b.turns, None, None, Some(outcome.denial))) then At(Ended, b) else Bad
    else if e == Emit(ToolAnswer(c.id, text, !outcome.Answered?)) then
      At(Calling, b.(answers := b.answers + [Answer(c.id, text)]))
    else Bad
  }

  function OnWon(s: Setup, b: Book, e: Event): Monitor {
    if e == Store(SetState(s.id, b.history, b.userTurns)) then At(Committed, b) else Bad
  }

  function OnCommitted(b: Book, e: Event): Monitor {
    if e.Hooked? && e.hook == Stop then Unless(OutputProblem(Stop, e.reply), b, Ended) else Bad
  }

  /** A change from outside may come anywhere. */
  function OnOutside(stage: Stage, b: Book, change: Change): Monitor {
    match change
    case ToPolicy(altered) => At(stage, b.(policy := Altered(b.policy, altered)))
    case ToModel(model) => At(stage, b.(model := model))
  }

  ghost function Step(s: Setup, stage: Stage, b: Book, e: Event): Monitor {
    if e.Outside? then OnOutside(stage, b, e.change) else OwnStep(s, stage, b, e)
  }

  ghost function OwnStep(s: Setup, stage: Stage, b: Book, e: Event): Monitor {
    match stage
    case Fresh => OnFresh(s, b, e)
    case Inputs => OnInputs(s, b, e)
    case Bumped => OnBumped(s, b, e)
    case Echoed => OnEchoed(s, b, e)
    case Heard => OnHeard(s, b, e)
    case Saved => OnSaved(s, b, e)
    case FilesDue => OnFilesDue(s, b, e)
    case Quiet(first) => OnQuiet(s, b, first, e)
    case Talking(due) => OnTalking(s, b, due, e)
    case Unparsed(error) => OnUnparsed(b, error, e)
    case Calling => OnCalling(s, b, e)
    case Announced => OnAnnounced(s, b, e)
    case Granting(d) => OnGranting(b, d, e)
    case Decided(d) => OnDecided(b, d, e)
    case Refused(d) => OnRefused(b, d, e)
    case Allowed(input) => OnAllowed(b, input, e)
    case Looked(input, denied) => OnLooked(b, input, denied, e)
    case Consented(input) => OnConsented(b, input, e)
    case Ran(input, outcome) => OnRan(b, input, outcome, e)
    case Posted(outcome) => OnPosted(b, outcome, e)
    case Won => OnWon(s, b, e)
    case Committed => OnCommitted(b, e)
    case Stopping(f) => if e == Fail(f) then At(Ended, b) else Bad
    case Ended => Bad
  }

  function Start(s: Setup): Monitor {
    At(Fresh, Book(0, s.userTurns, s.messages, 0, BLANK_TURN, [], "", 0.0, s.policy, s.cfg.model))
  }

  /** The automaton over a whole trace. */
  ghost function Watch(s: Setup, tr: Trace): Monitor
    decreases tr, 0
  {
    match tr
    case Begin => Start(s)
    case Then(before, e) => Follow(s, before, e)
  }

  ghost function Follow(s: Setup, before: Trace, e: Event): Monitor
    decreases before, 2
  {
    if Watch(s, before).Bad? then Bad else Advance(s, before, e)
  }

  ghost function Advance(s: Setup, before: Trace, e: Event): Monitor
    requires Watch(s, before).At?
    decreases before, 1
  {
    Step(s, Watch(s, before).stage, Watch(s, before).book, e)
  }

  lemma Took(s: Setup, tr: Trace, e: Event)
    ensures Watch(s, tr).At? ==> Watch(s, Then(tr, e)) == Step(s, Watch(s, tr).stage, Watch(s, tr).book, e)
    ensures Watch(s, tr).Bad? ==> Watch(s, Then(tr, e)).Bad?
  {
    assert Follow(s, tr, e) == if Watch(s, tr).Bad? then Bad else Advance(s, tr, e);
  }

  /** The trace obeys the protocol. */
  ghost predicate Accepted(s: Setup, tr: Trace) {
    Watch(s, tr).At?
  }
}
