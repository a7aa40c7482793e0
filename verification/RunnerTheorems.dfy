/** What holds of every run, in any surroundings. */
module RunnerTheorems {
  import opened Basics
  import opened Json
  import opened Folding
  import opened EventMapper
  import opened History
  import opened Policy
  import opened SessionStore
  import opened RunnerModel
  import opened RunnerProtocol
  import opened RunnerEffects
  import opened RunnerHooks
  import opened RunnerSafety
  import opened RunnerGuarantees
  import opened RunnerTools
  import opened RunnerHistories
  import Decimal
  import FileTree
  import Receive

  /** Everything a run starts from. */
  datatype Start = Start(cfg: Config, sid: string, messages: seq<Entry>, userTurns: nat, policy: Policy,
          inputs: seq<UserInput>)

  ghost function RunFrom(w: World, a: Start): Flow<()> {
    Run(w, a.cfg, a.sid, a.messages, a.userTurns, a.policy, a.inputs)
  }

  ghost function SetupFrom(w: World, a: Start): Setup {
    SetupOf(w, a.cfg, a.sid, a.messages, a.userTurns, a.policy, a.inputs)
  }

  /** p is the trace at some time during the run. */
  predicate Earlier(p: Trace, tr: Trace) {
    p == tr || (tr.Then? && Earlier(p, tr.before))
  }

  lemma {:induction false} EarlierAccepted(s: Setup, p: Trace, tr: Trace)
    requires Accepted(s, tr) && Earlier(p, tr)
    ensures Accepted(s, p)
  {
    if p != tr {
      Took(s, tr.before, tr.last);
      EarlierAccepted(s, p, tr.before);
    }
  }

  lemma AtAnyTime(w: World, a: Start, p: Trace)
    requires Earlier(p, RunFrom(w, a).trace)
    ensures Accepted(SetupFrom(w, a), p)
  {
    RunObeysProtocol(w, a.cfg, a.sid, a.messages, a.userTurns, a.policy, a.inputs);
    EarlierAccepted(SetupFrom(w, a), p, RunFrom(w, a).trace);
  }

  function LastMessage(tr: Trace): Option<RunnerModel.Message> {
    match tr
    case Begin => None
    case Then(before, e) => if e.Emit? then Some(e.message) else LastMessage(before)
  }

  lemma {:induction false} ResultComesLast(tr: Trace)
    requires ResultIsLast(tr) && Results(tr) > 0
    ensures LastMessage(tr).Some? && LastMessage(tr).value.ResultMessage?
  {
    if Results(tr.before) > 0 {
      ResultComesLast(tr.before);
    }
  }

  /** No run ends silently: when it is over it has emitted exactly one result, as its last message, or the
      last thing it did was to report a failure. At no time has it emitted two results. */
  lemma NoRunEndsSilently(w: World, a: Start)
    ensures var f := RunFrom(w, a);
      && !f.Go? && Results(f.trace) <= 1
      && (Results(f.trace) == 1 ==> LastMessage(f.trace).Some? && LastMessage(f.trace).value.ResultMessage?)
      && (f.Over? ==> Results(f.trace) == 1 || EndsInFailure(f.trace))
  {
    var s, f := SetupFrom(w, a), RunFrom(w, a);
    RunObeysProtocol(w, a.cfg, a.sid, a.messages, a.userTurns, a.policy, a.inputs);
    OneResultAtMost(s, f.trace);
    if Results(f.trace) == 1 {
      ResultComesLast(f.trace);
    }
  }

  /** A run sends at most two requests a turn, and begins at most as many turns as its limit allows. Each
      turn first asks the model the options name by then. A second request follows its first with nothing
      of the run in between, so that at most one of the two put anything on the output. Results count the
      turns begun. */
  lemma RequestsStayBounded(w: World, a: Start)
    ensures var tr := RunFrom(w, a).trace;
      && Requests(tr) <= 2 * TurnsBegun(tr) && WithinLimit(a.cfg, TurnsBegun(tr)) && UsedUpAtLimit(a.cfg, tr)
      && RequestsInOrder(a.cfg, tr) && TurnsCounted(tr) && FallbackIsAsked(a.cfg, tr)
  {
    AtAnyTime(w, a, RunFrom(w, a).trace);
    FallbackIsAlwaysAsked(SetupFrom(w, a), RunFrom(w, a).trace);
    RequestsAreBounded(SetupFrom(w, a), RunFrom(w, a).trace);
    TurnsAreUsedUp(SetupFrom(w, a), RunFrom(w, a).trace);
  }

  /** Text, images, calls, usage and cost of a turn are the fold of the events behind its last request, and of
      no others. With partial messages on, those sent add up to text and images whenever a call or the
      result is next. */
  lemma TurnsComeFromOneAttempt(w: World, a: Start, p: Trace, m: RunnerModel.Message)
    requires Earlier(Then(p, Emit(m)), RunFrom(w, a).trace)
    requires m.ToolUse? || m.FinalText? || (m.ResultMessage? && m.reason == EndTurn)
    ensures var t := TurnAt(w.parse, p);
      && FoldedFrom(t, AllChunks(EventsAt(p), w.parse))
      && t.cost == LastCost(EventsAt(p)) && t.usage == LastUsage(EventsAt(p))
      && (m.FinalText? ==> m.text == TrimSpace(t.text) && m.images == t.images)
      && (m.ResultMessage? ==> m.answer == IfAny(TrimSpace(t.text)) && m.usage == t.usage)
      && (a.cfg.partials ==> PartialsAt(p) == t.text && PartialImagesAt(p) == t.images)
  {
    var s := SetupFrom(w, a);
    AtAnyTime(w, a, Then(p, Emit(m)));
    var stage, b, next := Stepped(s, p, Emit(m));
    TurnIsFolded(s, p);
    TurnFoldsItsEvents(w.parse, p);
    TurnCostsItsEvents(w.parse, p);
    if a.cfg.partials {
      PartialsAddUpToTurn(s, p);
      assert TextOwed(Nothing) == "" && ImagesOwed(Nothing) == [];
    }
  }

  /** No request is sent and no tool announced or run beyond the budget, and every cost reported is the
      exact sum of what the requests cost. */
  lemma BudgetsHold(w: World, a: Start)
    ensures var s, tr := SetupFrom(w, a), RunFrom(w, a).trace; KeepsBudget(s, tr) && ResultsAreExact(s, tr)
  {
    AtAnyTime(w, a, RunFrom(w, a).trace);
    BudgetIsKept(SetupFrom(w, a), RunFrom(w, a).trace);
  }

  /** Tool calls keep their protocol: in index order, one at a time, executed at most once, each behind
      its announcement, a permission decision that does not deny, the hooks before its use, and a look at
      the policy in force, whoever changed it last; and its handler only if that look did not deny the
      tool. A denial by a hook ends the run, and so does one at execution that asks to interrupt. */
  lemma ToolCallsKeepProtocol(w: World, a: Start, p: Trace)
    requires Earlier(p, RunFrom(w, a).trace)
    ensures ToolProtocol(p) && DenialsEndRuns(p) && PolicyObeyed(a.policy, p) && OneByOne(SetupFrom(w, a), p)
    ensures LooksAreRight(a.policy, p)
  {
    var s := SetupFrom(w, a);
    AtAnyTime(w, a, p);
    ToolsKeepProtocol(s, p);
    DenialIsFinal(s, p);
    PolicyIsObeyed(s, p);
    LooksTellLastWord(a.policy, p);
    CallsGoOneByOne(s, p);
  }

  /** How often a handler has been called. */
  function HandlerCalls(tr: Trace): nat {
    match tr
    case Begin => 0
    case Then(before, e) => HandlerCalls(before) + if e.Executed? && e.invoked then 1 else 0
  }

  lemma {:induction false} NoneFromOutside(tr: Trace, changes: seq<Change>)
    ensures HandlerCalls(Drift(tr, changes)) == HandlerCalls(tr)
    decreases |changes|
  {
    if changes != [] {
      NoneFromOutside(tr, changes[..|changes| - 1]);
    }
  }

  lemma NoneInConceding(w: World, tr: Trace, d: Decision)
    ensures HandlerCalls(Concede(w, tr, d).trace) == HandlerCalls(tr)
  {
    NoneFromOutside(tr, w.outside(tr));
  }

  lemma NoneInAsking(w: World, tr: Trace, c: Call)
    ensures HandlerCalls(AskPermission(w, tr, c).trace) == HandlerCalls(tr)
  {
    var input := DecodedInput(w.decode, c);
    var sent := Send(w, tr, ToolUse(c.id, c.name, input));
    if sent.Go? {
      assert HandlerCalls(sent.trace) == HandlerCalls(tr);
      var heard := RunHook(w, sent.trace, PermissionRequest, c.id, input);
      assert HandlerCalls(heard.trace) == HandlerCalls(sent.trace);
      if heard.Go? {
        NoneInConceding(w, heard.trace, Decide(heard.value.outputs, input));
      }
    }
  }

  lemma NoneInRefusing<T>(w: World, tr: Trace, turn: nat, c: Call, d: Decision)
    ensures var f: Flow<T> := Refuse(w, tr, turn, c, d); HandlerCalls(f.trace) == HandlerCalls(tr)
  {
  }

  lemma NoneInSettling(w: World, tr: Trace, turn: nat, c: Call, input: Fields, outcome: ToolOutcome)
    ensures HandlerCalls(Settle(w, tr, turn, c, input, outcome).trace) == HandlerCalls(tr)
  {
  }

  lemma NoneAtTheGates(tr: Trace, denied: bool, c: Call, tool: ToolWorld)
    ensures HandlerCalls(PassGates(tr, denied, c, tool)) == HandlerCalls(tr)
  {
    NoneFromOutside(Then(tr, Checked(c.id, c.name, denied)), OnPolicy(tool.meanwhile));
  }

  /** Nothing in the way of a call past its hooks: the tool is there, its server can be reached, the callback
      consents, and the policy in force when it is looked at does not deny the tool. */
  predicate GatesOpen(w: World, heard: Trace, pol: Policy, c: Call) {
    var tool := w.tool(heard);
    tool.registered && tool.reachable && Consents(tool) && !Denies(PolicyAt(pol, Elapse(w, heard)), c.name)
  }

  lemma CallsInExecuting(w: World, tr: Trace, pol: Policy, c: Call, input: Fields)
    ensures var heard, f := RunHook(w, tr, PreToolUse, c.id, input), Execute(w, tr, pol, c, input);
      && heard.Go? == f.Go?
      && HandlerCalls(f.trace) == HandlerCalls(tr) + if heard.Go? && GatesOpen(w, heard.trace, pol, c) then 1 else 0
  {
    var heard := RunHook(w, tr, PreToolUse, c.id, input);
    if heard.Go? {
      var tool, looked := w.tool(heard.trace), Elapse(w, heard.trace);
      NoneFromOutside(heard.trace, w.outside(heard.trace));
      NoneAtTheGates(looked, Denies(PolicyAt(pol, looked), c.name), c, tool);
      GateOpensIff(PolicyAt(pol, looked), c.name, input, tool);
    }
  }

  /** The call is announced, its hooks let it pass, and then the gates do. */
  predicate LetThrough(w: World, tr: Trace, pol: Policy, c: Call) {
    var asked := AskPermission(w, tr, c);
    && asked.Go? && !asked.value.deny
    && var heard := RunHook(w, asked.trace, PreToolUse, c.id, asked.value.input);
      heard.Go? && GatesOpen(w, heard.trace, pol, c)
  }

  /** A call of a turn, with all that comes before and behind its execution, calls a handler once if hooks
      and gates let it through, and else never: not on any path that fails, is cancelled or interrupted. */
  lemma HandlerRunsForCallIff(w: World, tr: Trace, pol: Policy, turn: nat, c: Call)
    ensures HandlerCalls(RunCall(w, tr, pol, turn, c).trace)
         == HandlerCalls(tr) + if LetThrough(w, tr, pol, c) then 1 else 0
  {
    NoneInAsking(w, tr, c);
    var asked := AskPermission(w, tr, c);
    if asked.Go? {
      var d := asked.value;
      if d.deny {
        NoneInRefusing<Entry>(w, asked.trace, turn, c, d);
      } else {
        CallsInExecuting(w, asked.trace, pol, c, d.input);
        var ran := Execute(w, asked.trace, pol, c, d.input);
        if ran.Go? {
          NoneInSettling(w, ran.trace, turn, c, d.input, ran.value);
        }
      }
    }
  }

  /** What a checkpoint behind a user message stores: history and snapshot always, under the key the message
      bears; the files of the tree below the working directory, if one is set; and which error ends the run. */
  lemma CheckpointStores(w: World, cfg: Config, tr: Trace, sid: string, n: nat, history: seq<Entry>)
    ensures var f, key := Checkpoint(w, cfg, tr, sid, n, history), sid + "-u" + Decimal.Render(n);
      var stored := Then(Then(tr, Store(SetState(sid, history, n))), Store(TakeSnapshot(sid, key)));
      && (!cfg.checkpointing ==> f == Go(tr, ()))
      && (cfg.checkpointing && cfg.cwd == "" ==> f == Go(stored, ()))
      && (cfg.checkpointing && cfg.cwd != "" && TrimSpace(cfg.cwd) == "" ==>
            f == Over(Then(stored, Fail(CheckpointFailed("snapshot root is empty")))))
      && (cfg.checkpointing && TrimSpace(cfg.cwd) != "" ==>
            && (w.tree(stored).Err? ==> f == Over(Then(stored, Fail(CheckpointFailed(w.tree(stored).error)))))
            && (w.tree(stored).Ok? ==>
                  var kept := Then(stored, Store(TakeFiles(sid, key, FileTree.Capture(w.tree(stored).value))));
                  match w.saveError(kept)
                  case None => f == Go(kept, ())
                  case Some(text) => f == Over(Then(kept, Fail(CheckpointFailed(text))))))
  {
    assert TrimSpace("") == "";
  }

  /** The whole text of every turn reaches the consumer: as partial messages, or, with those off, at once,
      exactly if there is something to show. */
  lemma TurnsAreShown(w: World, a: Start)
    ensures FinalsAreShown(SetupFrom(w, a), RunFrom(w, a).trace)
  {
    AtAnyTime(w, a, RunFrom(w, a).trace);
    FinalTextsAreShown(SetupFrom(w, a), RunFrom(w, a).trace);
  }

  /** What a call comes to once its hooks let it pass: the outcome is what registry, policy, callback and server
      make of the arguments the hooks left it with, and the answer shown, and given to the model, is its
      text. A denial that asks to interrupt ends the run instead, with the denial's text. */
  lemma AnswerOfCall(w: World, tr: Trace, pol: Policy, turn: nat, c: Call) returns (g: Gated)
    requires AskPermission(w, tr, c).Go? && !AskPermission(w, tr, c).value.deny
    requires var asked := AskPermission(w, tr, c); RunHook(w, asked.trace, PreToolUse, c.id, asked.value.input).Go?
    ensures var asked := AskPermission(w, tr, c);
      var heard := RunHook(w, asked.trace, PreToolUse, c.id, asked.value.input).trace;
      GatesDecide(g, PolicyAt(pol, Elapse(w, heard)), c.name, asked.value.input, w.tool(heard))
    ensures var f := RunCall(w, tr, pol, turn, c);
      && (f.Go? ==> f.value == Answer(c.id, g.outcome.text))
      && (f.Go? ==> f.trace.Then? && f.trace.last == Emit(ToolAnswer(c.id, g.outcome.text, !g.outcome.Answered?)))
      && (g.outcome.Denied? && g.outcome.interrupt ==>
            && f.Over? && f.trace.Then?
            && (|| f.trace.last == Emit(ResultMessage(Interrupted, turn + 1, None, None, Some(g.outcome.denial)))
                || f.trace.last.Fail?))
  {
    var asked := AskPermission(w, tr, c);
    var heard := RunHook(w, asked.trace, PreToolUse, c.id, asked.value.input).trace;
    g := Gate(PolicyAt(pol, Elapse(w, heard)), c.name, asked.value.input, w.tool(heard));
    OutcomeAtTheGates(PolicyAt(pol, Elapse(w, heard)), c.name, asked.value.input, w.tool(heard));
    var ran := Execute(w, asked.trace, pol, c, asked.value.input);
    assert ran.Go? && ran.value == g.outcome;
    SettledAs(w, ran.trace, turn, c, asked.value.input, g.outcome);
  }

  lemma SettledAs(w: World, tr: Trace, turn: nat, c: Call, input: Fields, outcome: ToolOutcome)
    ensures var f := Settle(w, tr, turn, c, input, outcome);
      && (f.Go? ==> f.value == Answer(c.id, outcome.text))
      && (f.Go? ==> f.trace.Then? && f.trace.last == Emit(ToolAnswer(c.id, outcome.text, !outcome.Answered?)))
      && (outcome.Denied? && outcome.interrupt ==>
            && f.Over? && f.trace.Then?
            && (|| f.trace.last == Emit(ResultMessage(Interrupted, turn + 1, None, None, Some(outcome.denial)))
                || f.trace.last.Fail?))
  {
  }

  predicate Happened(tr: Trace, e: Event) {
    tr.Then? && (tr.last == e || Happened(tr.before, e))
  }

  /** Behind a hook that stops a run comes nothing the run does but the report. */
  lemma {:induction false} OnlyTheReport(tr: Trace, hooked: Event)
    requires HooksAreHeeded(tr) && Happened(tr, hooked) && Stops(hooked)
    ensures HasStopped(tr) && Own(tr).Then? && (Own(tr).last == hooked || Own(tr).last.Fail?)
  {
    if tr.last != hooked {
      OnlyTheReport(tr.before, hooked);
    }
  }

  /** Whatever a run does, behind a hook that stops it: it reports that, and nothing else. */
  lemma StoppedRunOnlyReports(w: World, a: Start, p: Trace, e: Event, hooked: Event)
    requires Earlier(Then(p, e), RunFrom(w, a).trace) && Happened(p, hooked) && Stops(hooked)
    ensures e.Outside? || (e.Fail? && StoppedBy(hooked, e.failure))
  {
    AtAnyTime(w, a, Then(p, e));
    HooksStopRuns(SetupFrom(w, a), Then(p, e));
    OnlyTheReport(p, hooked);
  }

  /** Behind a hook that failed, before a message is taken, a tool permitted or used, or behind its use, the
      run does nothing more but report the error: no handler runs, no input is taken, no answer shown. The
      same behind an output, of any hook, that is not supported. */
  lemma FailedHookStopsRun(w: World, a: Start, p: Trace, e: Event, h: HookEvent, id: string, input: Fields,
          reply: HookReply)
    requires Earlier(Then(p, e), RunFrom(w, a).trace) && Happened(p, Hooked(h, id, input, reply))
    ensures h in {UserPromptSubmit, PermissionRequest, PreToolUse, PostToolUse} && reply.error.Some? ==>
      e.Outside? || e == Fail(HookFailed(reply.error.value))
    ensures (exists i :: 0 <= i < |reply.outputs| && !Supported(reply.outputs[i])) ==>
      e.Outside? || (e.Fail? && (e.failure.HookFailed? || (e.failure.UnsupportedOutput? && e.failure.hook == h)))
  {
    var hooked := Hooked(h, id, input, reply);
    HooksPassIff(reply.outputs);
    if Unsupported(reply.outputs).Some? {
      var i := RejectedField(reply.outputs);
    }
    if Stops(hooked) {
      StoppedRunOnlyReports(w, a, p, e, hooked);
    }
  }

  /** What is sent to the model and stored is what was said: the messages found, the inputs accepted,
      and each turn as it was streamed with the answers as they were shown. Inputs are taken up only if the
      interface in use can take them. */
  lemma HistoriesAreWhatWasSaid(w: World, a: Start)
    ensures HistoriesAreTrue(SetupFrom(w, a), RunFrom(w, a).trace)
    ensures InputsAreFit(SetupFrom(w, a), RunFrom(w, a).trace)
  {
    AtAnyTime(w, a, RunFrom(w, a).trace);
    InputsTakenAreFit(SetupFrom(w, a), RunFrom(w, a).trace);
    HistoriesTellTheTruth(SetupFrom(w, a), RunFrom(w, a).trace);
  }

  /** Every history a run sent or stored is well paired. */
  ghost predicate AllPaired(tr: Trace) {
    match tr
    case Begin => true
    case Then(before, e) =>
      && AllPaired(before)
      && (e.Request? ==> WellPaired(e.history))
      && (e.Store? && e.op.SetState? ==> WellPaired(e.op.messages))
  }

  lemma {:induction false} InputsTakenGrow(s: Setup, tr: Trace)
    requires Accepted(s, tr)
    ensures InputsTaken(tr) <= |s.inputs|
    ensures Requests(tr) > 0 ==> InputsTaken(tr) == |s.inputs|
  {
    match tr
    case Begin =>
    case Then(before, e) =>
      var stage, b, next := Stepped(s, before, e);
      InputsTakenGrow(s, before);
      HistoriesTellTheTruth(s, before);
      HistoriesTellTheTruth(s, tr);
      SoundThroughout(s, tr);
  }

  lemma {:induction false} PairedWithoutTools(s: Setup, tr: Trace)
    requires Accepted(s, tr) && PairedExactly(s, tr) && NoToolRole(s.inputs, |s.inputs|)
    ensures AllPaired(tr)
  {
    match tr
    case Begin =>
    case Then(before, e) =>
      Took(s, before, e);
      InputsTakenGrow(s, before);
      PairedWithoutTools(s, before);
  }

  lemma {:induction false} RequestShowsTools(s: Setup, tr: Trace)
    requires Accepted(s, tr) && PairedExactly(s, tr) && AllPaired(tr) && Requests(tr) > 0
    ensures NoToolRole(s.inputs, |s.inputs|)
  {
    var before, e := tr.before, tr.last;
    Took(s, before, e);
    if Requests(before) > 0 {
      RequestShowsTools(s, before);
    } else {
      var stage, b, next := Stepped(s, before, e);
      HistoriesTellTheTruth(s, before);
      HistoriesTellTheTruth(s, tr);
      SoundThroughout(s, tr);
    }
  }

  /** On a session whose messages are well paired, a run that sends requests keeps everything it sends
      and stores well paired exactly if no input has the role "tool". */
  lemma HistoriesStayPairedIff(w: World, a: Start)
    requires WellPaired(a.messages)
    ensures var tr := RunFrom(w, a).trace;
      && (NoToolRole(a.inputs, |a.inputs|) ==> AllPaired(tr))
      && (Requests(tr) > 0 ==> (AllPaired(tr) <==> NoToolRole(a.inputs, |a.inputs|)))
  {
    var s, tr := SetupFrom(w, a), RunFrom(w, a).trace;
    AtAnyTime(w, a, tr);
    HistoriesArePaired(s, tr);
    if NoToolRole(a.inputs, |a.inputs|) {
      PairedWithoutTools(s, tr);
    } else if Requests(tr) > 0 && AllPaired(tr) {
      RequestShowsTools(s, tr);
    }
  }

  // ---- reading back ----

  /** Whatever history a run stores, reading it back from the session file yields entry by entry what was
      said: every text, image, call and answer in order. Only the error flag of answers is not kept. */
  lemma StoredHistoryReadsBack(w: World, a: Start, p: Trace, op: Op, i: nat)
    requires Earlier(Then(p, Store(op)), RunFrom(w, a).trace) && op.SetState? && i < |op.messages|
    ensures op.messages == HistoryAt(SetupFrom(w, a), p)
    ensures ReadMessage(Reloaded(Stored(op.messages[i])), w.decode) == Meaning(op.messages[i], w.decode)
  {
    AtAnyTime(w, a, Then(p, Store(op)));
    HistoriesTellTheTruth(SetupFrom(w, a), Then(p, Store(op)));
    ReadBack(op.messages[i], w.decode);
  }

  /** The input read back for a call is the one its announcement showed, as long as no blank text decodes. */
  lemma ShownInputReadsBack(decode: ArgsDecoder, c: Call)
    requires forall text :: TrimSpace(text) == "" ==> decode(text) == None
    ensures DecodedInput(decode, c) == CallInput(c, decode)
  {
    if TrimSpace(c.args) == "" {
      assert decode(c.args) == None;
    } else {
      assert TrimSpace("") == "";
    }
  }

  // ---- the client's view ----

  /** The messages of a run, as they go out on its channel. */
  function Output(tr: Trace): seq<RunnerModel.Message> {
    match tr
    case Begin => []
    case Then(before, e) => Output(before) + if e.Emit? then [e.message] else []
  }

  predicate IsResultMessage(m: RunnerModel.Message) {
    m.ResultMessage?
  }

  lemma {:induction false} ResultOnlyLast(tr: Trace, i: nat)
    requires ResultIsLast(tr) && i < |Output(tr)| && Output(tr)[i].ResultMessage?
    ensures Results(tr) > 0 && i == |Output(tr)| - 1
  {
    if i < |Output(tr.before)| {
      ResultOnlyLast(tr.before, i);
    }
  }

  /** ReceiveResponse hands on every message of a run once it has drained both channels, on every
      interleaving of messages and errors: the result that makes it swallow what follows is the last. */
  lemma ResponseOfRunIsWhole<E>(w: World, a: Start, log: Receive.Log<RunnerModel.Message, E>)
    requires Receive.Messages(log) == Output(RunFrom(w, a).trace)
    ensures Receive.ItemMessages(Receive.Response(log, IsResultMessage)) == Output(RunFrom(w, a).trace)
  {
    var tr := RunFrom(w, a).trace;
    AtAnyTime(w, a, tr);
    OneResultAtMost(SetupFrom(w, a), tr);
    forall i | 0 <= i < |Output(tr)| - 1
      ensures !IsResultMessage(Output(tr)[i])
    {
      if Output(tr)[i].ResultMessage? {
        ResultOnlyLast(tr, i);
      }
    }
    Receive.DrainedResponseIsWhole(log, Output(tr), IsResultMessage);
  }

  /** What a run reports on its error channel. */
  function FailuresOf(tr: Trace): seq<RunnerModel.Failure> {
    match tr
    case Begin => []
    case Then(before, e) => FailuresOf(before) + if e.Fail? then [e.failure] else []
  }

  lemma {:induction false} NoResultWasTaken<E>(log: Receive.Log<RunnerModel.Message, E>)
    requires forall m :: m in Receive.Messages(log) ==> !IsResultMessage(m)
    ensures !Receive.ResultTaken(log, IsResultMessage)
  {
    if log.Then? {
      assert forall m :: m in Receive.Messages(log.before) ==> m in Receive.Messages(log);
      NoResultWasTaken(log.before);
    }
  }

  lemma {:induction false} ResultsAreCounted(tr: Trace, m: RunnerModel.Message)
    requires m in Output(tr) && m.ResultMessage?
    ensures Results(tr) > 0
  {
    if m in Output(tr.before) {
      ResultsAreCounted(tr.before, m);
    }
  }

  /** A run that reports no result is not silent: once both channels are drained, ReceiveResponse has handed
      on every failure the run reported, in order, and it has reported one last. */
  lemma FailuresReachConsumer(w: World, a: Start, log: Receive.Log<RunnerModel.Message, RunnerModel.Failure>)
    requires RunFrom(w, a).Over? && Results(RunFrom(w, a).trace) == 0
    requires Receive.Messages(log) == Output(RunFrom(w, a).trace)
    requires Receive.Present(Receive.Errors(log)) == FailuresOf(RunFrom(w, a).trace)
    ensures Receive.ItemFailures(Receive.Response(log, IsResultMessage)) == FailuresOf(RunFrom(w, a).trace)
    ensures EndsInFailure(RunFrom(w, a).trace)
    ensures var handed := Receive.ItemFailures(Receive.Response(log, IsResultMessage));
      handed != [] && handed[|handed| - 1] == Own(RunFrom(w, a).trace).last.failure
  {
    var tr := RunFrom(w, a).trace;
    NoRunEndsSilently(w, a);
    forall m | m in Receive.Messages(log)
      ensures !IsResultMessage(m)
    {
      if m.ResultMessage? {
        ResultsAreCounted(tr, m);
      }
    }
    NoResultWasTaken(log);
    Receive.NoResultYet(log, IsResultMessage);
    Receive.ResponseInOrder(log, IsResultMessage);
    ReportedLast(tr);
  }

  lemma {:induction false} ReportedLast(tr: Trace)
    requires EndsInFailure(tr)
    ensures FailuresOf(tr) != [] && FailuresOf(tr)[|FailuresOf(tr)| - 1] == Own(tr).last.failure
  {
    if tr.last.Outside? {
      ReportedLast(tr.before);
    }
  }
}
