/** The query runner as a function of its surroundings: what a run puts on its two channels, asks of
    hooks, tools and transport, and does to the session store, in order. The surroundings answer each
    question with a function of everything that happened before, so every behaviour of transport,
    hooks, tools, consumers and cancellation is some World. */
module RunnerModel {
  import opened Basics
  import opened Json
  import opened Decimal
  import opened Folding
  import opened EventMapper
  import opened History
  import opened FileTree
  import opened Policy
  import opened SessionStore

  // ---- configuration and surroundings ----

  datatype Config = Config(
    model: string,
    fallback: string,
    maxTurns: int,
    maxToolIterations: int,
    partials: bool,
    checkpointing: bool,
    cwd: string,
    systemPrompt: string,
    budget: Option<real>,
    responsesMode: bool)

  /** The resolved turn limit. */
  function TurnLimit(cfg: Config): (n: nat)
    ensures n > 0
  {
    if cfg.maxTurns > 0 then cfg.maxTurns else if cfg.maxToolIterations > 0 then cfg.maxToolIterations else 8
  }

  const DEFAULT_MODEL: string := "openai/gpt-4o-mini"

  /** The model a turn asks first, from what the options say when it begins. */
  function PickModel(model: string): string {
    if model == "" then DEFAULT_MODEL else model
  }

  function Models(cfg: Config, picked: string): (ms: seq<string>)
    ensures 1 <= |ms| <= 2
  {
    if cfg.fallback != "" && cfg.fallback != picked then [picked, cfg.fallback] else [picked]
  }

  datatype HookEvent = UserPromptSubmit | PermissionRequest | PreToolUse | PostToolUse | PostToolUseFailure | Stop

  /** The decision part of a hook's answer to a permission request; absent keys are None. */
  datatype Verdict = Verdict(
    behavior: Option<string>,
    message: Option<string>,
    interrupt: Option<bool>,
    updatedInput: Option<Fields>,
    updatedPermissions: Option<seq<Option<Update>>>)

  datatype HookOutput =
    | Async
    | Sync(suppressOutput: bool, stopReason: bool, systemMessage: bool, continueFalse: bool, verdict: Option<Verdict>)
    | NoOutput

  /** The outputs so far and the error that ended the hooks, if one did. */
  datatype HookReply = HookReply(outputs: seq<HookOutput>, error: Option<string>)

  datatype Failure =
    | NoTransport
    | StartFailed(text: string)
    | Cancelled
    | MultimodalInput
    | HookFailed(text: string)
    | UnsupportedOutput(hook: HookEvent, field: string)
    | CheckpointFailed(text: string)
    | ChunkFailed(error: MapError)
    | TransportFailed(text: string)
    | PermissionDenied(tool: string, text: string)
    | TurnsExhausted

  /** One round of the stream loop: what the first poll of the stream finds, and what the select takes
      if that found nothing. */
  datatype Poll = Got(raw: Fields) | FoundClosed | FoundEmpty

  datatype Pick = TakeEvent(raw: Fields) | TakeClosed | TakeError(error: Option<string>) | TakeErrorsClosed | TakeDone

  datatype Round = Round(first: Poll, second: Pick)

  /** What the client, or another run of it, may do to a run at any time. */
  datatype Change = ToPolicy(change: PolicyChange) | ToModel(model: string)

  datatype World = World(
    hasTransport: bool,
    startError: Option<string>,
    outside: Trace -> seq<Change>,
    sends: Trace -> bool,
    reports: Trace -> bool,
    hook: (Trace, HookEvent) -> HookReply,
    rounds: Trace -> seq<Round>,
    tool: Trace -> ToolWorld,
    tree: Trace -> Result<Tree, string>,
    saveError: Trace -> Option<string>,
    parse: Fields -> Result<seq<Chunk>, MapError>,
    decode: ArgsDecoder)

  // ---- what can be observed of a run ----

  datatype Reason = EndTurn | MaxBudget | Interrupted

  datatype Message =
    | SystemInit(prompt: string)
    | UserEcho(uuid: string, content: Content)
    | StreamEvent(raw: Fields)
    | PartialText(text: string)
    | PartialImages(images: seq<Image>)
    | FinalText(text: string, images: seq<Image>)
    | ToolUse(id: string, name: string, input: Fields)
    | ToolAnswer(id: string, text: string, isError: bool)
    | ResultMessage(reason: Reason, numTurns: nat, cost: Option<real>, usage: Option<Usage>, answer: Option<string>)

  datatype Event =
    | Emit(message: Message)
    | Fail(failure: Failure)
    | Request(model: string, history: seq<Entry>)
    | Hooked(hook: HookEvent, callId: string, input: Fields, reply: HookReply)
    | Granted(updates: seq<Update>)
    | Checked(id: string, name: string, denied: bool)
    | Executed(id: string, name: string, input: Fields, outcome: ToolOutcome, invoked: bool)
    | Store(op: Op)
    | Outside(change: Change)

  datatype Trace = Begin | Then(before: Trace, last: Event)

  /** The policy in force: grants and changes from outside make it, in their order. */
  function PolicyAt(pol: Policy, tr: Trace): Policy {
    match tr
    case Begin => pol
    case Then(before, e) =>
      match e
      case Granted(ups) => NextAll(PolicyAt(pol, before), ups)
      case Outside(ToPolicy(change)) => Altered(PolicyAt(pol, before), change)
      case _ => PolicyAt(pol, before)
  }

  /** The model the options name. */
  function ModelAt(model: string, tr: Trace): string {
    match tr
    case Begin => model
    case Then(before, e) =>
      match e
      case Outside(ToModel(chosen)) => chosen
      case _ => ModelAt(model, before)
  }

  /** The store after the operations of a trace. */
  function StoreAfter(store: State, tr: Trace): State {
    match tr
    case Begin => store
    case Then(before, e) => if e.Store? then Apply(StoreAfter(store, before), e.op) else StoreAfter(store, before)
  }

  function Drift(tr: Trace, changes: seq<Change>): Trace {
    if changes == [] then tr else Then(Drift(tr, changes[..|changes| - 1]), Outside(changes[|changes| - 1]))
  }

  /** The changes from outside since the run last looked at policy or model. Nothing else depends on them,
      so they may stand here, wherever in between they were made. */
  function Elapse(w: World, tr: Trace): Trace {
    Drift(tr, w.outside(tr))
  }

  /** A step of a run: it goes on with a value, the run has ended, or the schedule given for the
      stream ends while it still waits. */
  datatype Flow<+T> = Go(trace: Trace, value: T) | Over(trace: Trace) | Waiting(trace: Trace)
  {
    predicate IsFailure() { !Go? }
    function PropagateFailure<U>(): Flow<U>
      requires IsFailure()
    {
      if Over? then Flow<U>.Over(trace) else Flow<U>.Waiting(trace)
    }
    function Extract(): (Trace, T)
      requires Go?
    {
      (trace, value)
    }
  }

  /** A send that may find the context cancelled instead; then the run reports that and ends. */
  function Send(w: World, tr: Trace, m: Message): Flow<()> {
    if w.sends(tr) then Go(Then(tr, Emit(m)), ()) else Over(Then(tr, Fail(Cancelled)))
  }

  function Stopped<T>(tr: Trace, f: Failure): Flow<T> {
    Over(Then(tr, Fail(f)))
  }

  // ---- hooks ----

  /** The first output the backend does not support, if any. */
  function Unsupported(outputs: seq<HookOutput>): Option<string> {
    if outputs == [] then None
    else
      match outputs[0]
      case Async => Some("async")
      case NoOutput => Unsupported(outputs[1..])
      case Sync(suppress, stop, system, continueFalse, _) =>
        if suppress then Some("suppressOutput")
        else if stop then Some("stopReason")
        else if system then Some("systemMessage")
        else if continueFalse then Some("continue")
        else Unsupported(outputs[1..])
  }

  /** How a hook run is taken where its error counts. */
  function HookProblem(h: HookEvent, reply: HookReply): Option<Failure> {
    if reply.error.Some? then Some(HookFailed(reply.error.value)) else OutputProblem(h, reply)
  }

  /** How it is taken where only its outputs are looked at. */
  function OutputProblem(h: HookEvent, reply: HookReply): Option<Failure> {
    match Unsupported(reply.outputs)
    case None => None
    case Some(field) => Some(UnsupportedOutput(h, field))
  }

  function RunHook(w: World, tr: Trace, h: HookEvent, callId: string, input: Fields): Flow<HookReply> {
    var reply := w.hook(tr, h);
    var tr1 := Then(tr, Hooked(h, callId, input, reply));
    match HookProblem(h, reply)
    case None => Go(tr1, reply)
    case Some(f) => Stopped(tr1, f)
  }

  function RunHookIgnoringError(w: World, tr: Trace, h: HookEvent, callId: string, input: Fields): Flow<()> {
    var reply := w.hook(tr, h);
    var tr1 := Then(tr, Hooked(h, callId, input, reply));
    match OutputProblem(h, reply)
    case None => Go(tr1, ())
    case Some(f) => Stopped(tr1, f)
  }

  /** What the hooks' answers to a permission request add up to. */
  datatype Decision = Decision(deny: bool, message: string, interrupt: bool, input: Fields,
          updates: seq<Option<Update>>)

  function Consider(d: Decision, o: HookOutput): Decision {
    if !o.Sync? || o.verdict.None? then d
    else
      var v := o.verdict.value;
      Decision(
        d.deny || v.behavior == Some("deny"),
        if v.message.Some? && v.message.value != "" then v.message.value else d.message,
        GetOr(v.interrupt, d.interrupt),
        GetOr(v.updatedInput, d.input),
        GetOr(v.updatedPermissions, d.updates))
  }

  function Decide(outputs: seq<HookOutput>, input: Fields): Decision {
    if outputs == [] then Decision(false, "", false, input, [])
    else Consider(Decide(outputs[..|outputs| - 1], input), outputs[|outputs| - 1])
  }

  // ---- one stream ----

  /** What a turn has been folded to so far. */
  datatype Turn = Turn(text: string, images: seq<Image>, calls: Calls, usage: Option<Usage>, cost: Option<real>)

  const BLANK_TURN: Turn := Turn("", [], map[], None, None)

  /** A piece of work inside the stream loop; ok is false when it found the context cancelled. */
  datatype Partly = Partly(trace: Trace, turn: Turn, ok: bool)

  function SendPartial(w: World, tr: Trace, t: Turn, m: Message): Partly {
    if w.sends(tr) then Partly(Then(tr, Emit(m)), t, true) else Partly(tr, t, false)
  }

  function AddText(w: World, cfg: Config, tr: Trace, t: Turn, content: string): Partly {
    var news := News(t.text, content);
    var t1 := t.(text := t.text + news);
    if cfg.partials && news != "" then SendPartial(w, tr, t1, PartialText(news)) else Partly(tr, t1, true)
  }

  function AddImages(w: World, cfg: Config, tr: Trace, t: Turn, images: seq<Image>): Partly {
    var kept := Keep(t.images, images);
    var news := kept[|t.images|..];
    var t1 := t.(images := kept);
    if cfg.partials && news != [] then SendPartial(w, tr, t1, PartialImages(news)) else Partly(tr, t1, true)
  }

  function AddChunk(w: World, cfg: Config, tr: Trace, t: Turn, ch: Chunk): Partly {
    var p := AddText(w, cfg, tr, t, ch.content);
    if !p.ok then p
    else
      var q := AddImages(w, cfg, p.trace, p.turn, ch.images);
      if !q.ok then q
      else Partly(q.trace, q.turn.(calls := AddDeltas(q.turn.calls, ch.toolDeltas)), true)
  }

  function AddChunks(w: World, cfg: Config, tr: Trace, t: Turn, chunks: seq<Chunk>): Partly
    decreases |chunks|
  {
    if chunks == [] then Partly(tr, t, true)
    else
      var p := AddChunk(w, cfg, tr, t, chunks[0]);
      if !p.ok then p else AddChunks(w, cfg, p.trace, p.turn, chunks[1..])
  }

  function Priced(t: Turn, raw: Fields): Turn {
    t.(usage := UsageAfter(raw, t.usage), cost := CostAfter(raw, t.cost))
  }

  /** processEvent, once the event itself has been sent on. */
  function Digest(w: World, cfg: Config, tr: Trace, t: Turn, raw: Fields): Partly {
    match w.parse(raw)
    case Err(e) =>
      if w.reports(tr) then Partly(Then(tr, Fail(ChunkFailed(e))), Priced(t, raw), true)
      else Partly(tr, Priced(t, raw), false)
    case Ok(chunks) => AddChunks(w, cfg, tr, Priced(t, raw), chunks)
  }

  datatype Streamed =
    | Complete(trace: Trace, turn: Turn)
    | Broken(trace: Trace, turn: Turn, failure: Failure, emitted: bool)
    | Streaming(trace: Trace)

  /** The stream loop. The first poll prefers events; an error is only looked at when it found none. A
      pick no open channel can serve does not happen and is passed over. */
  function Stream(w: World, cfg: Config, rounds: seq<Round>, streamOpen: bool, errorsOpen: bool,
                  tr: Trace, t: Turn, emitted: bool): Streamed
    decreases |rounds|, 0
  {
    if !streamOpen && !errorsOpen then Complete(tr, t.(text := TrimSpace(t.text)))
    else if rounds == [] then Streaming(tr)
    else
      var r, rest := rounds[0], rounds[1..];
      if streamOpen && r.first.Got? then OnEvent(w, cfg, rest, errorsOpen, tr, t, emitted, r.first.raw)
      else if streamOpen && r.first.FoundClosed? then Stream(w, cfg, rest, false, errorsOpen, tr, t, emitted)
      else
        match r.second
        case TakeEvent(raw) =>
          if streamOpen then OnEvent(w, cfg, rest, errorsOpen, tr, t, emitted, raw)
          else Stream(w, cfg, rest, streamOpen, errorsOpen, tr, t, emitted)
        case TakeClosed => Stream(w, cfg, rest, false, errorsOpen, tr, t, emitted)
        case TakeError(e) =>
          if errorsOpen && e.Some? then Broken(tr, t, TransportFailed(e.value), emitted)
          else Stream(w, cfg, rest, streamOpen, errorsOpen, tr, t, emitted)
        case TakeErrorsClosed => Stream(w, cfg, rest, streamOpen, false, tr, t, emitted)
        case TakeDone => Broken(tr, t, Cancelled, emitted)
  }

  function OnEvent(w: World, cfg: Config, rest: seq<Round>, errorsOpen: bool,
                   tr: Trace, t: Turn, emitted: bool, raw: Fields): Streamed
    decreases |rest|, 1
  {
    if !w.sends(tr) then Broken(tr, t, Cancelled, emitted)
    else
      var p := Digest(w, cfg, Then(tr, Emit(StreamEvent(raw))), t, raw);
      if !p.ok then Broken(p.trace, p.turn, Cancelled, true)
      else Stream(w, cfg, rest, true, errorsOpen, p.trace, p.turn, true)
  }

  function RunStream(w: World, cfg: Config, tr: Trace, model: string, history: seq<Entry>): Streamed {
    var tr1 := Then(tr, Request(model, history));
    Stream(w, cfg, w.rounds(tr1), true, true, tr1, BLANK_TURN, false)
  }

  function AddCost(before: Option<real>, more: Option<real>): Option<real> {
    if more.None? then before else Some(GetOr(before, 0.0) + more.value)
  }

  /** The attempts of one turn: the next model is tried only after one that failed without a word.
      The cost adds up what all attempts reported. */
  function Attempts(w: World, cfg: Config, tr: Trace, models: seq<string>, history: seq<Entry>, cost: Option<real>)
    : Flow<(Turn, Option<real>)>
    requires models != []
    decreases |models|
  {
    match RunStream(w, cfg, tr, models[0], history)
    case Streaming(tr1) => Waiting(tr1)
    case Complete(tr1, t) => Go(tr1, (t, AddCost(cost, t.cost)))
    case Broken(tr1, t, f, emitted) =>
      if emitted || |models| == 1 then Stopped(tr1, f)
      else Attempts(w, cfg, tr1, models[1..], history, AddCost(cost, t.cost))
  }

  // ---- one tool call ----

  function DecodedInput(decode: ArgsDecoder, c: Call): Fields {
    if TrimSpace(c.args) == "" then map[] else GetOr(decode(c.args), map[])
  }

  function InterruptedResult(turn: nat, text: string): Message {
    ResultMessage(Interrupted, turn + 1, None, None, Some(text))
  }

  /** The last word of a run: a result, or the report that it could not be sent. */
  function Conclude<T>(w: World, tr: Trace, m: Message): Flow<T> {
    if w.sends(tr) then Over(Then(tr, Emit(m))) else Over(Then(tr, Fail(Cancelled)))
  }

  /** Announces the call and asks for permission; the policy changes with the answer. */
  function AskPermission(w: World, tr: Trace, c: Call): Flow<Decision> {
    var input := DecodedInput(w.decode, c);
    var (tr1, _) :- Send(w, tr, ToolUse(c.id, c.name, input));
    var (tr2, reply) :- RunHook(w, tr1, PermissionRequest, c.id, input);
    Concede(w, tr2, Decide(reply.outputs, input))
  }

  function Concede(w: World, tr: Trace, d: Decision): Flow<Decision> {
    if d.updates == [] then Go(tr, d) else Go(Then(Elapse(w, tr), Granted(Present(d.updates))), d)
  }

  function Refuse<T>(w: World, tr: Trace, turn: nat, c: Call, d: Decision): Flow<T> {
    var (tr1, _) :- RunHookIgnoringError(w, tr, PostToolUseFailure, c.id, d.input);
    if d.interrupt then Conclude(w, tr1, InterruptedResult(turn, DeniedText(c.name, d.message)))
    else Stopped(tr1, PermissionDenied(c.name, d.message))
  }

  function AnswerText(outcome: ToolOutcome): string {
    match outcome
    case Answered(text) => text
    case Failed(text) => text
    case Denied(text, _, _) => text
  }

  function Execute(w: World, tr: Trace, pol: Policy, c: Call, input: Fields): Flow<ToolOutcome> {
    var (tr1, _) :- RunHook(w, tr, PreToolUse, c.id, input);
    var tool := w.tool(tr1);
    var tr2 := Elapse(w, tr1);
    var now := PolicyAt(pol, tr2);
    var gated := Gate(now, c.name, input, tool);
    var ran := Executed(c.id, c.name, input, gated.outcome, gated.invoked);
    Go(Then(PassGates(tr2, Denies(now, c.name), c, tool), ran), gated.outcome)
  }

  /** What can be observed at the gates: the look at the policy, what is done to it while the callback is
      asked, and the updates its answer brings. */
  function PassGates(tr: Trace, denied: bool, c: Call, tool: ToolWorld): Trace {
    if !tool.registered then tr
    else
      var tr1 := Then(tr, Checked(c.id, c.name, denied));
      if denied || tool.callback.None? then tr1
      else
        var tr2 := Drift(tr1, OnPolicy(tool.meanwhile));
        if tool.callback.value.AllowTool? && tool.callback.value.updates != [] then
          Then(tr2, Granted(Present(tool.callback.value.updates)))
        else tr2
  }

  function OnPolicy(changes: seq<PolicyChange>): seq<Change> {
    if changes == [] then [] else OnPolicy(changes[..|changes| - 1]) + [ToPolicy(changes[|changes| - 1])]
  }

  /** After execution: the hooks, and the answer shown. */
  function Settle(w: World, tr: Trace, turn: nat, c: Call, input: Fields, outcome: ToolOutcome): Flow<Entry> {
    var text := AnswerText(outcome);
    if outcome.Answered? then
      var (tr1, _) :- RunHook(w, tr, PostToolUse, c.id, input);
      var (tr2, _) :- Send(w, tr1, ToolAnswer(c.id, text, false));
      Go(tr2, Answer(c.id, text))
    else
      var (tr1, _) :- RunHookIgnoringError(w, tr, PostToolUseFailure, c.id, input);
      if Interrupts(outcome) then Conclude(w, tr1, InterruptedResult(turn, outcome.denial))
      else
        var (tr2, _) :- Send(w, tr1, ToolAnswer(c.id, text, true));
        Go(tr2, Answer(c.id, text))
  }

  function RunCall(w: World, tr: Trace, pol: Policy, turn: nat, c: Call): Flow<Entry> {
    var (tr1, d) :- AskPermission(w, tr, c);
    if d.deny then Refuse(w, tr1, turn, c, d)
    else
      var (tr2, outcome) :- Execute(w, tr1, pol, c, d.input);
      Settle(w, tr2, turn, c, d.input, outcome)
  }

  /** The calls of a turn one after the other, with the answers so far. The policy is the one the run began
      with; the one in force is read from the trace. */
  function RunCalls(w: World, tr: Trace, pol: Policy, turn: nat, calls: seq<Call>,
          answers: seq<Entry>): Flow<seq<Entry>>
    decreases |calls|
  {
    if calls == [] then Go(tr, answers)
    else
      var (tr1, answer) :- RunCall(w, tr, pol, turn, calls[0]);
      RunCalls(w, tr1, pol, turn, calls[1..], answers + [answer])
  }

  // ---- turns ----

  predicate OverBudget(cfg: Config, total: real, turnCost: Option<real>) {
    cfg.budget.Some? && turnCost.Some? && total > cfg.budget.value
  }

  /** There is something to show: text that is not blank, or an image. */
  predicate Showable(t: Turn) {
    TrimSpace(t.text) != "" || t.images != []
  }

  predicate ShowsFinal(cfg: Config, t: Turn) {
    !cfg.partials && Showable(t)
  }

  function ShowFinal(w: World, cfg: Config, tr: Trace, t: Turn): Flow<()> {
    if ShowsFinal(cfg, t) then Send(w, tr, FinalText(t.text, t.images)) else Go(tr, ())
  }

  function SuccessResult(turn: nat, t: Turn, total: real, turnCost: Option<real>): Message {
    var text := TrimSpace(t.text);
    ResultMessage(EndTurn, turn + 1, if turnCost.Some? then Some(total) else None, t.usage,
                  if text == "" then None else Some(text))
  }

  /** The end of a run that got its answer: the result, the history committed, the stop hooks. */
  function Finish(w: World, tr: Trace, sid: string, userTurns: nat, turn: nat, t: Turn, total: real,
                  turnCost: Option<real>, history: seq<Entry>): Flow<()> {
    if !w.sends(tr) then Stopped(tr, Cancelled)
    else Commit(w, Then(tr, Emit(SuccessResult(turn, t, total, turnCost))), sid, userTurns, history)
  }

  function Commit(w: World, tr: Trace, sid: string, userTurns: nat, history: seq<Entry>): Flow<()> {
    Over(RunHookIgnoringError(w, Then(tr, Store(SetState(sid, history, userTurns))), Stop, "", map[]).trace)
  }

  /** The turns of a run, from the given one on. */
  ghost function Turns(w: World, cfg: Config, sid: string, userTurns: nat, tr: Trace, pol: Policy,
                       history: seq<Entry>, turn: nat, total: real): Flow<()>
    requires turn <= TurnLimit(cfg)
    decreases TurnLimit(cfg) - turn, 4
  {
    if turn == TurnLimit(cfg) then Stopped(tr, TurnsExhausted)
    else AskModel(w, cfg, sid, userTurns, tr, pol, history, turn, total)
  }

  ghost function AskModel(w: World, cfg: Config, sid: string, userTurns: nat, tr: Trace, pol: Policy,
                          history: seq<Entry>, turn: nat, total: real): Flow<()>
    requires turn < TurnLimit(cfg)
    decreases TurnLimit(cfg) - turn, 3
  {
    var tr1 := Elapse(w, tr);
    var (tr2, got) :- Attempts(w, cfg, tr1, Models(cfg, PickModel(ModelAt(cfg.model, tr1))), history, None);
    Serve(w, cfg, sid, userTurns, tr2, pol, history, turn, got.0, total + GetOr(got.1, 0.0), got.1)
  }

  /** What a turn does once its stream is complete: it keeps the budget and shows the whole text. */
  ghost function Serve(w: World, cfg: Config, sid: string, userTurns: nat, tr: Trace, pol: Policy,
                       history: seq<Entry>, turn: nat, t: Turn, total: real, turnCost: Option<real>): Flow<()>
    requires turn < TurnLimit(cfg)
    decreases TurnLimit(cfg) - turn, 2
  {
    if OverBudget(cfg, total, turnCost) then
      Conclude(w, tr, ResultMessage(MaxBudget, turn + 1, Some(total), t.usage, None))
    else
      var (tr1, _) :- ShowFinal(w, cfg, tr, t);
      Respond(w, cfg, sid, userTurns, tr1, pol, history, turn, t, total, turnCost)
  }

  /** A turn without calls is the answer; otherwise the calls run and their answers go back. */
  ghost function Respond(w: World, cfg: Config, sid: string, userTurns: nat, tr: Trace, pol: Policy,
                         history: seq<Entry>, turn: nat, t: Turn, total: real, turnCost: Option<real>): Flow<()>
    requires turn < TurnLimit(cfg)
    decreases TurnLimit(cfg) - turn, 1
  {
    var calls := Ordered(t.calls);
    var said := history + [Assistant(t.text, t.images, calls)];
    if calls == [] then Finish(w, tr, sid, userTurns, turn, t, total, turnCost, said)
    else UseTools(w, cfg, sid, userTurns, tr, pol, said, turn, calls, total)
  }

  ghost function UseTools(w: World, cfg: Config, sid: string, userTurns: nat, tr: Trace, pol: Policy,
                          said: seq<Entry>, turn: nat, calls: seq<Call>, total: real): Flow<()>
    requires turn < TurnLimit(cfg)
    decreases TurnLimit(cfg) - turn, 0
  {
    var (tr1, answers) :- RunCalls(w, tr, pol, turn, calls, []);
    Turns(w, cfg, sid, userTurns, tr1, pol, said + answers, turn + 1, total)
  }

  // ---- inputs and the whole run ----

  datatype UserInput = UserInput(role: string, content: Content)

  function RoleOf(i: UserInput): string {
    if i.role == "" then "user" else i.role
  }

  /** The checkpoint taken behind a user message. */
  function Checkpoint(w: World, cfg: Config, tr: Trace, sid: string, userTurns: nat, history: seq<Entry>): Flow<()> {
    if !cfg.checkpointing then Go(tr, ())
    else
      var key := UserKey(sid, userTurns);
      var tr1 := Then(Then(tr, Store(SetState(sid, history, userTurns))), Store(TakeSnapshot(sid, key)));
      if cfg.cwd == "" then Go(tr1, ()) else CheckpointFiles(w, cfg, tr1, sid, key)
  }

  /** Its files: a working directory of white space only is an error, and so is a store that cannot be
      saved, with the files already kept. */
  function CheckpointFiles(w: World, cfg: Config, tr: Trace, sid: string, key: string): Flow<()> {
    if TrimSpace(cfg.cwd) == "" then Stopped(tr, CheckpointFailed(EMPTY_ROOT))
    else
      match w.tree(tr)
      case Err(text) => Stopped(tr, CheckpointFailed(text))
      case Ok(tree) =>
        var tr1 := Then(tr, Store(TakeFiles(sid, key, Capture(tree))));
        match w.saveError(tr1)
        case Some(text) => Stopped(tr1, CheckpointFailed(text))
        case None => Go(tr1, ())
  }

  const EMPTY_ROOT: string := "snapshot root is empty"

  function TakeInput(w: World, cfg: Config, tr: Trace, sid: string, userTurns: nat, history: seq<Entry>, i: UserInput)
    : Flow<seq<Entry>> {
    if cfg.responsesMode && HasNonTextBlocks(i.content) then Stopped(tr, MultimodalInput)
    else
      var (tr1, _) :- Send(w, Then(tr, Store(Bump(sid))), UserEcho(UserKey(sid, userTurns + 1), i.content));
      AcceptInput(w, cfg, tr1, sid, userTurns + 1, history, i)
  }

  /** The hooks see the message before it joins the history. */
  function AcceptInput(w: World, cfg: Config, tr: Trace, sid: string, userTurns: nat, history: seq<Entry>, i: UserInput)
    : Flow<seq<Entry>> {
    var (tr1, _) :- RunHook(w, tr, UserPromptSubmit, "", map[]);
    var history1 := history + [Input(RoleOf(i), i.content)];
    var (tr2, _) :- Checkpoint(w, cfg, tr1, sid, userTurns, history1);
    Go(tr2, history1)
  }

  /** The system prompt opens an empty history. */
  function OpenHistory(w: World, cfg: Config, tr: Trace, messages: seq<Entry>): Flow<seq<Entry>> {
    if messages != [] || cfg.systemPrompt == "" then Go(tr, messages)
    else
      var (tr1, _) :- Send(w, tr, SystemInit(cfg.systemPrompt));
      Go(tr1, [System(cfg.systemPrompt)])
  }

  /** One input after the other, then the turns. */
  ghost function Converse(w: World, cfg: Config, tr: Trace, sid: string, userTurns: nat, history: seq<Entry>,
                          pol: Policy, inputs: seq<UserInput>): Flow<()>
    decreases |inputs|
  {
    if inputs == [] then Turns(w, cfg, sid, userTurns, tr, pol, history, 0, 0.0)
    else
      var (tr1, history1) :- TakeInput(w, cfg, tr, sid, userTurns, history, inputs[0]);
      Converse(w, cfg, tr1, sid, userTurns + 1, history1, pol, inputs[1..])
  }

  ghost function OpenedRun(w: World, cfg: Config, tr: Trace, sid: string, messages: seq<Entry>, userTurns: nat,
          pol: Policy, inputs: seq<UserInput>): Flow<()> {
    var (tr1, history) :- OpenHistory(w, cfg, tr, messages);
    Converse(w, cfg, tr1, sid, userTurns, history, pol, inputs)
  }

  /** A run on a session (the empty id already replaced) that holds the given messages and user-turn
      count when it is opened. */
  ghost function Run(w: World, cfg: Config, sid: string, messages: seq<Entry>, userTurns: nat, pol: Policy,
                     inputs: seq<UserInput>): Flow<()> {
    if !w.hasTransport then Stopped(Begin, NoTransport)
    else if w.startError.Some? then Stopped(Begin, StartFailed(w.startError.value))
    else OpenedRun(w, cfg, Then(Begin, Store(Open(sid))), sid, messages, userTurns, pol, inputs)
  }
}
