/** What the protocol guarantees about tool calls: what precedes an execution, in which order calls go,
    and that a denial ends the run. */
module RunnerTools {
  import opened Basics
  import opened Json
  import opened Decimal
  import opened Folding
  import opened EventMapper
  import opened History
  import opened Policy
  import opened SessionStore
  import opened RunnerModel
  import opened RunnerProtocol
  import opened RunnerEffects
  import opened RunnerGuarantees

  // ---- what a trace ends with in the middle of a call ----

  ghost predicate Announces(tr: Trace, c: Call, input: Fields) {
    Own(tr).Then? && Own(tr).last == Emit(ToolUse(c.id, c.name, input))
  }

  /** The call was announced and the hooks, none of them failing, came to the decision. */
  ghost predicate Asks(tr: Trace, c: Call, d: Decision) {
    var o := Own(tr);
    && o.Then? && o.last.Hooked? && IsHook(o.last, PermissionRequest, c, o.last.input)
    && HookProblem(PermissionRequest, o.last.reply) == None
    && d == Decide(o.last.reply.outputs, o.last.input)
    && Announces(o.before, c, o.last.input)
  }

  /** Then any permission updates it brought were applied, even if it denies. */
  ghost predicate Decides(tr: Trace, c: Call, d: Decision) {
    var o := Own(tr);
    if d.updates == [] then Asks(tr, c, d)
    else o.Then? && o.last == Granted(Present(d.updates)) && Asks(o.before, c, d)
  }

  ghost predicate Refuses(tr: Trace, c: Call, d: Decision) {
    var o := Own(tr);
    && o.Then? && IsHook(o.last, PostToolUseFailure, c, d.input) &&
      OutputProblem(PostToolUseFailure, o.last.reply) == None
    && d.deny && Decides(o.before, c, d)
  }

  /** The decision did not deny, and the hooks before the use let the call pass with its input. */
  ghost predicate Allows(tr: Trace, c: Call, input: Fields) {
    var o := Own(tr);
    && o.Then? && IsHook(o.last, PreToolUse, c, input) && HookProblem(PreToolUse, o.last.reply) == None
    && exists d: Decision :: !d.deny && d.input == input && Decides(o.before, c, d)
  }

  /** Then the policy was looked at. */
  ghost predicate Looks(tr: Trace, c: Call, input: Fields, denied: bool) {
    var o := Own(tr);
    o.Then? && o.last == Checked(c.id, c.name, denied) && Allows(o.before, c, input)
  }

  /** Then the callback consented and brought updates. */
  ghost predicate Agrees(tr: Trace, c: Call, input: Fields) {
    var o := Own(tr);
    o.Then? && o.last.Granted? && Looks(o.before, c, input, false)
  }

  /** What the gates in front of a tool let happen: a handler runs behind a look that did not deny. */
  ghost predicate Passed(tr: Trace, c: Call, input: Fields, outcome: ToolOutcome, invoked: bool) {
    || (Allows(tr, c, input) && outcome.Failed? && !invoked)
    || (exists denied :: Looks(tr, c, input, denied) && Reported(denied, false, outcome, invoked))
    || (Agrees(tr, c, input) && Reported(false, true, outcome, invoked))
  }

  ghost predicate Runs(tr: Trace, c: Call, input: Fields, outcome: ToolOutcome) {
    var o := Own(tr);
    && o.Then? && IsExecution(o.last, c, input) && o.last.outcome == outcome
    && Passed(o.before, c, input, outcome, o.last.invoked)
  }

  predicate PostHook(e: Event, c: Call, input: Fields, outcome: ToolOutcome) {
    if outcome.Answered? then IsHook(e, PostToolUse, c, input) && HookProblem(PostToolUse, e.reply) == None
    else IsHook(e, PostToolUseFailure, c, input) && OutputProblem(PostToolUseFailure, e.reply) == None
  }

  ghost predicate Posts(tr: Trace, c: Call, outcome: ToolOutcome) {
    var o := Own(tr);
    o.Then? && exists input :: PostHook(o.last, c, input, outcome) && Runs(o.before, c, input, outcome)
  }

  ghost predicate CallShape(stage: Stage, c: Call, decode: ArgsDecoder, tr: Trace) {
    match stage
    case Announced => Announces(tr, c, DecodedInput(decode, c))
    case Granting(d) => d.updates != [] && Asks(tr, c, d)
    case Decided(d) => Decides(tr, c, d)
    case Refused(d) => Refuses(tr, c, d)
    case Allowed(input) => Allows(tr, c, input)
    case Looked(input, denied) => Looks(tr, c, input, denied)
    case Consented(input) => Agrees(tr, c, input)
    case Ran(input, outcome) => Runs(tr, c, input, outcome)
    case Posted(outcome) => Posts(tr, c, outcome)
    case _ => true
  }

  lemma SameCall(b: Book, b1: Book)
    requires b1.turn.calls == b.turn.calls && b1.answers == b.answers
    ensures CurrentCall(b1) == CurrentCall(b)
  {
  }

  /** A change from outside is passed over. */
  lemma OutsideShape(stage: Stage, b: Book, change: Change, decode: ArgsDecoder, next: Monitor, before: Trace)
    requires next == OnOutside(stage, b, change) && CallShape(stage, CurrentCall(b), decode, before)
    ensures next.At? && CallShape(next.stage, CurrentCall(next.book), decode, Then(before, Outside(change)))
  {
    assert Own(Then(before, Outside(change))) == Own(before);
    SameCall(b, next.book);
  }

  lemma ToolShape(s: Setup, stage: Stage, b: Book, e: Event, next: Monitor, before: Trace)
    requires (e.Executed? && ExecuteEffect(stage, b, e, next)) || (e.Checked? && CheckEffect(stage, b, e, next))
    requires CallShape(stage, CurrentCall(b), s.decode, before)
    ensures e.Executed? ==> Passed(before, CurrentCall(b), e.input, e.outcome, e.invoked)
    ensures next.At? && CallShape(next.stage, CurrentCall(next.book), s.decode, Then(before, e))
  {
    assert Own(Then(before, e)) == Then(before, e);
    SameCall(b, next.book);
  }

  lemma HookShape(s: Setup, stage: Stage, b: Book, e: Event, next: Monitor, before: Trace)
    requires e.Hooked? && HookEffect(s, stage, b, e, next) && CallShape(stage, CurrentCall(b), s.decode, before)
    ensures next.At? && CallShape(next.stage, CurrentCall(next.book), s.decode, Then(before, e))
  {
    var c, tr := CurrentCall(b), Then(before, e);
    assert Own(tr) == tr;
    SameCall(b, next.book);
    match stage {
      case Decided(d) =>
        assert !d.deny && next.stage == Allowed(d.input) ==> Allows(tr, c, d.input);
      case Ran(input, outcome) =>
        assert next.stage == Posted(outcome) ==> PostHook(tr.last, c, input, outcome);
      case _ =>
    }
  }

  lemma RestShape(s: Setup, stage: Stage, b: Book, e: Event, next: Monitor, before: Trace)
    requires next.At? && Effect(s, stage, b, e, next) && CallShape(stage, CurrentCall(b), s.decode, before)
    requires e.Emit? || e.Fail? || e.Request? || e.Granted? || e.Store?
    ensures CallShape(next.stage, CurrentCall(next.book), s.decode, Then(before, e))
  {
    assert Own(Then(before, e)) == Then(before, e);
    if e.Emit? && e.message.StreamEvent? {
      HearIs(s, b, e.message.raw);
    }
  }

  lemma ShapeStep(s: Setup, stage: Stage, b: Book, e: Event, next: Monitor, before: Trace)
    requires next.At? && Effect(s, stage, b, e, next) && CallShape(stage, CurrentCall(b), s.decode, before)
    ensures CallShape(next.stage, CurrentCall(next.book), s.decode, Then(before, e))
  {
    match e {
      case Hooked(_, _, _, _) => HookShape(s, stage, b, e, next, before);
      case Outside(change) => OutsideShape(stage, b, change, s.decode, next, before);
      case Checked(_, _, _) => ToolShape(s, stage, b, e, next, before);
      case Executed(_, _, _, _, _) => ToolShape(s, stage, b, e, next, before);
      case _ => RestShape(s, stage, b, e, next, before);
    }
  }

  lemma {:induction false} CallsHaveShape(s: Setup, tr: Trace)
    requires Accepted(s, tr)
    ensures CallShape(Watch(s, tr).stage, CurrentCall(Watch(s, tr).book), s.decode, tr)
  {
    match tr
    case Begin =>
    case Then(before, e) =>
      var stage, b, next := Stepped(s, before, e);
      CallsHaveShape(s, before);
      ShapeStep(s, stage, b, e, next, before);
  }

  /** What an event of a tool call needs before it. */
  ghost predicate InPlace(before: Trace, e: Event) {
    match e
    case Checked(id, name, _) =>
      exists c: Call, input: Fields :: c.id == id && c.name == name && Allows(before, c, input)
    case Executed(id, name, input, outcome, invoked) =>
      exists c: Call :: c.id == id && c.name == name && Passed(before, c, input, outcome, invoked)
    case Granted(ups) =>
      || (exists c: Call, d: Decision :: ups == Present(d.updates) && Asks(before, c, d))
      || (exists c: Call, input: Fields :: Looks(before, c, input, false))
    case Emit(ToolAnswer(id, text, isError)) =>
      exists c: Call, o: ToolOutcome ::
        c.id == id && text == AnswerText(o) && isError == !o.Answered? && !Interrupts(o) && Posts(before, c, o)
    case Emit(ResultMessage(Interrupted, _, _, _, answer)) =>
      || (exists c: Call, d: Decision ::
        d.interrupt && answer == Some(DeniedText(c.name, d.message)) && Refuses(before, c, d))
      || (exists c: Call, o: ToolOutcome :: Interrupts(o) && answer == Some(o.denial) && Posts(before, c, o))
    case Hooked(PreToolUse, id, input, _) =>
      exists c: Call, d: Decision :: c.id == id && !d.deny && input == d.input && Decides(before, c, d)
    case Hooked(PostToolUse, id, input, _) =>
      exists c: Call, o: ToolOutcome :: c.id == id && o.Answered? && Runs(before, c, input, o)
    case Hooked(PostToolUseFailure, id, input, _) =>
      || (exists c: Call, o: ToolOutcome :: c.id == id && !o.Answered? && Runs(before, c, input, o))
      || (exists c: Call, d: Decision :: c.id == id && d.deny && input == d.input && Decides(before, c, d))
    case _ => true
  }

  /** Every look at the policy, grant, execution, answer and hook of a tool call is in its place: directly
      behind the events it needs, and nothing the run does in between. */
  ghost predicate ToolProtocol(tr: Trace) {
    match tr
    case Begin => true
    case Then(before, e) => ToolProtocol(before) && InPlace(before, e)
  }

  lemma HooksInPlace(s: Setup, stage: Stage, b: Book, e: Event, next: Monitor, before: Trace)
    requires e.Hooked? && HookEffect(s, stage, b, e, next) && CallShape(stage, CurrentCall(b), s.decode, before)
    ensures InPlace(before, e)
  {
    var c := CurrentCall(b);
    match stage {
      case Decided(d) => assert c.id == e.callId && Decides(before, c, d);
      case Ran(input, outcome) => assert c.id == e.callId && Runs(before, c, input, outcome);
      case _ =>
    }
  }

  lemma GrantInPlace(s: Setup, stage: Stage, b: Book, ups: seq<Update>, next: Monitor, before: Trace)
    requires GrantEffect(stage, b, ups, next) && CallShape(stage, CurrentCall(b), s.decode, before)
    ensures InPlace(before, Granted(ups))
  {
    if stage.Granting? {
      assert ups == Present(stage.decision.updates) && Asks(before, CurrentCall(b), stage.decision);
    } else {
      assert Looks(before, CurrentCall(b), stage.input, false);
    }
  }

  lemma {:induction false} ToolsKeepProtocol(s: Setup, tr: Trace)
    requires Accepted(s, tr)
    ensures ToolProtocol(tr)
  {
    match tr
    case Begin =>
    case Then(before, e) =>
      var stage, b, next := Stepped(s, before, e);
      ToolsKeepProtocol(s, before);
      CallsHaveShape(s, before);
      match e {
        case Hooked(_, _, _, _) => HooksInPlace(s, stage, b, e, next, before);
        case Emit(ToolAnswer(_, _, _)) => assert Posts(before, CurrentCall(b), stage.outcome);
        case Emit(ResultMessage(Interrupted, _, _, _, _)) =>
          assert if stage.Refused? then Refuses(before, CurrentCall(b), stage.decision)
                 else Posts(before, CurrentCall(b), stage.outcome);
        case Executed(_, _, _, _, _) => ToolShape(s, stage, b, e, next, before);
        case Checked(_, _, _) => assert Allows(before, CurrentCall(b), stage.input);
        case Granted(_) => GrantInPlace(s, stage, b, e.updates, next, before);
        case _ =>
      }
  }

  // ---- what hooks decide ----

  predicate Denying(o: HookOutput) {
    o.Sync? && o.verdict.Some? && o.verdict.value.behavior == Some("deny")
  }

  function GivenInput(o: HookOutput): Option<Fields> {
    if o.Sync? && o.verdict.Some? then o.verdict.value.updatedInput else None
  }

  /** One denying output is enough, whatever the others say. */
  lemma {:induction false} DenialIff(outputs: seq<HookOutput>, input: Fields)
    ensures Decide(outputs, input).deny <==> exists i :: 0 <= i < |outputs| && Denying(outputs[i])
  {
    if outputs != [] {
      var n := |outputs| - 1;
      DenialIff(outputs[..n], input);
      assert forall i :: 0 <= i < n ==> outputs[i] == outputs[..n][i];
    }
  }

  /** The last output that gives an input decides it; with none the call keeps its own. */
  lemma {:induction false} LastInputWins(outputs: seq<HookOutput>, input: Fields, last: int)
    requires -1 <= last < |outputs|
    requires forall i :: last < i < |outputs| ==> GivenInput(outputs[i]) == None
    requires last >= 0 ==> GivenInput(outputs[last]).Some?
    ensures Decide(outputs, input).input == if last < 0 then input else GivenInput(outputs[last]).value
    decreases |outputs|
  {
    if outputs != [] {
      var n := |outputs| - 1;
      if last < n {
        LastInputWins(outputs[..n], input, last);
      }
    }
  }

  function GivenMessage(o: HookOutput): Option<string> {
    if o.Sync? && o.verdict.Some? && o.verdict.value.message != Some("") then o.verdict.value.message else None
  }

  function GivenInterrupt(o: HookOutput): Option<bool> {
    if o.Sync? && o.verdict.Some? then o.verdict.value.interrupt else None
  }

  function GivenUpdates(o: HookOutput): Option<seq<Option<Update>>> {
    if o.Sync? && o.verdict.Some? then o.verdict.value.updatedPermissions else None
  }

  /** The last message that is not empty is the decision's; with none it is empty. */
  lemma {:induction false} LastMessageWins(outputs: seq<HookOutput>, input: Fields, last: int)
    requires -1 <= last < |outputs|
    requires forall i :: last < i < |outputs| ==> GivenMessage(outputs[i]) == None
    requires last >= 0 ==> GivenMessage(outputs[last]).Some?
    ensures Decide(outputs, input).message == if last < 0 then "" else GivenMessage(outputs[last]).value
    decreases |outputs|
  {
    var n := |outputs| - 1;
    if last < n {
      LastMessageWins(outputs[..n], input, last);
    }
  }

  /** The last word on interrupting decides; with none the run is not interrupted. */
  lemma {:induction false} LastInterruptWins(outputs: seq<HookOutput>, input: Fields, last: int)
    requires -1 <= last < |outputs|
    requires forall i :: last < i < |outputs| ==> GivenInterrupt(outputs[i]) == None
    requires last >= 0 ==> GivenInterrupt(outputs[last]).Some?
    ensures Decide(outputs, input).interrupt <==> last >= 0 && GivenInterrupt(outputs[last]).value
    decreases |outputs|
  {
    var n := |outputs| - 1;
    if last < n {
      LastInterruptWins(outputs[..n], input, last);
    }
  }

  /** The last list of updates is granted; with none nothing is. */
  lemma {:induction false} LastUpdatesWin(outputs: seq<HookOutput>, input: Fields, last: int)
    requires -1 <= last < |outputs|
    requires forall i :: last < i < |outputs| ==> GivenUpdates(outputs[i]) == None
    requires last >= 0 ==> GivenUpdates(outputs[last]).Some?
    ensures Decide(outputs, input).updates == if last < 0 then [] else GivenUpdates(outputs[last]).value
    decreases |outputs|
  {
    var n := |outputs| - 1;
    if last < n {
      LastUpdatesWin(outputs[..n], input, last);
    }
  }

  // ---- order and number ----

  /** The calls announced since the last request, the answers shown, and the executions. */
  function AnnouncedAt(tr: Trace): seq<(string, string)> {
    match tr
    case Begin => []
    case Then(before, e) =>
      if e.Request? then []
      else if e.Emit? && e.message.ToolUse? then AnnouncedAt(before) + [(e.message.id, e.message.name)]
      else AnnouncedAt(before)
  }

  function AnsweredAt(tr: Trace): seq<Entry> {
    match tr
    case Begin => []
    case Then(before, e) =>
      if e.Request? then []
      else if e.Emit? && e.message.ToolAnswer? then AnsweredAt(before) + [Answer(e.message.id, e.message.text)]
      else AnsweredAt(before)
  }

  function ExecutedAt(tr: Trace): nat {
    match tr
    case Begin => 0
    case Then(before, e) => if e.Request? then 0 else ExecutedAt(before) + if e.Executed? then 1 else 0
  }

  /** The calls were announced in index order, from the first on. */
  ghost predicate InOrder(announced: seq<(string, string)>, calls: seq<Call>) {
    |announced| <= |calls| && forall i :: 0 <= i < |announced| ==> announced[i] == (calls[i].id, calls[i].name)
  }

  /** One call at a time: announced, executed at most once, answered, then the next. */
  ghost predicate OneByOne(s: Setup, tr: Trace) {
    && InOrder(AnnouncedAt(tr), Ordered(TurnAt(s.parse, tr).calls))
    && |AnsweredAt(tr)| <= ExecutedAt(tr) <= |AnnouncedAt(tr)| <= |AnsweredAt(tr)| + 1
    && (forall i :: 0 <= i < |AnsweredAt(tr)| ==>
      AnsweredAt(tr)[i].Answer? && AnsweredAt(tr)[i].callId == AnnouncedAt(tr)[i].0)
  }

  predicate BetweenCalls(stage: Stage) {
    Opening(stage) || Receiving(stage) || stage.Calling?
  }

  predicate HasRun(stage: Stage) {
    stage.Ran? || stage.Posted?
  }

  ghost predicate Counted(stage: Stage, b: Book, tr: Trace) {
    && AnsweredAt(tr) == b.answers
    && InOrder(AnnouncedAt(tr), Ordered(b.turn.calls))
    && |b.answers| <= ExecutedAt(tr) <= |AnnouncedAt(tr)| <= |b.answers| + 1
    && (forall i :: 0 <= i < |b.answers| ==> b.answers[i].Answer? && b.answers[i].callId == AnnouncedAt(tr)[i].0)
    && (BetweenCalls(stage) ==> |AnnouncedAt(tr)| == |b.answers|)
    && (InCall(stage) ==>
      |AnnouncedAt(tr)| == |b.answers| + 1 && ExecutedAt(tr) == |b.answers| + if HasRun(stage) then 1 else 0)
  }

  /** Four kinds of event move the counts. */
  predicate Counts(e: Event) {
    e.Request? || e.Executed? || (e.Emit? && (e.message.ToolUse? || e.message.ToolAnswer?))
  }

  predicate CountsStay(stage: Stage, b: Book, next: Monitor) {
    && next.At? && next.book.answers == b.answers
    && (next.book.turn != b.turn ==> Receiving(stage))
    && (BetweenCalls(next.stage) ==> BetweenCalls(stage))
    && (InCall(next.stage) ==> InCall(stage) && HasRun(next.stage) == HasRun(stage))
  }

  lemma CountsInEvents(s: Setup, stage: Stage, b: Book, raw: Fields, next: Monitor)
    requires Idle(stage) && next == Hear(s, b, raw)
    ensures CountsStay(stage, b, next)
  {
    HearIs(s, b, raw);
  }

  lemma CountsInResults(s: Setup, stage: Stage, b: Book, m: RunnerModel.Message, next: Monitor)
    requires m.ResultMessage? && MessageEffect(s, stage, b, m, next)
    ensures CountsStay(stage, b, next)
  {
  }

  lemma CountsInMessages(s: Setup, stage: Stage, b: Book, m: RunnerModel.Message, next: Monitor)
    requires MessageEffect(s, stage, b, m, next) && !Counts(Emit(m))
    ensures CountsStay(stage, b, next)
  {
    match m {
      case StreamEvent(raw) => CountsInEvents(s, stage, b, raw, next);
      case ResultMessage(_, _, _, _, _) => CountsInResults(s, stage, b, m, next);
      case _ =>
    }
  }

  lemma CountsInHooks(s: Setup, stage: Stage, b: Book, e: Event, next: Monitor)
    requires e.Hooked? && HookEffect(s, stage, b, e, next)
    ensures CountsStay(stage, b, next)
  {
  }

  lemma CountsInStores(s: Setup, stage: Stage, b: Book, op: Op, next: Monitor)
    requires StoreEffect(s, stage, b, op, next)
    ensures CountsStay(stage, b, next)
  {
  }

  lemma CountsAtGates(stage: Stage, b: Book, e: Event, next: Monitor)
    requires (e.Granted? && GrantEffect(stage, b, e.updates, next)) || (e.Checked? && CheckEffect(stage, b, e, next))
    ensures CountsStay(stage, b, next)
  {
  }

  lemma CountsElsewhere(s: Setup, stage: Stage, b: Book, e: Event, next: Monitor)
    requires next.At? && Effect(s, stage, b, e, next) && (e.Fail? || e.Granted? || e.Checked? || e.Store? || e.Outside?)
    ensures CountsStay(stage, b, next)
  {
    match e {
      case Store(op) => CountsInStores(s, stage, b, op, next);
      case Granted(_) => CountsAtGates(stage, b, e, next);
      case Checked(_, _, _) => CountsAtGates(stage, b, e, next);
      case _ =>
    }
  }

  lemma CallAnnounced(s: Setup, stage: Stage, b: Book, m: RunnerModel.Message, next: Monitor, before: Trace)
    requires m.ToolUse? && MessageEffect(s, stage, b, m, next) && Counted(stage, b, before)
    ensures Counted(next.stage, next.book, Then(before, Emit(m)))
  {
    var calls, n := Ordered(b.turn.calls), |b.answers|;
    assert AnnouncedAt(Then(before, Emit(m))) == AnnouncedAt(before) + [(calls[n].id, calls[n].name)];
  }

  lemma CallAnswered(s: Setup, stage: Stage, b: Book, m: RunnerModel.Message, next: Monitor, before: Trace)
    requires m.ToolAnswer? && MessageEffect(s, stage, b, m, next) && Counted(stage, b, before) && Sound(s, stage, b)
    ensures Counted(next.stage, next.book, Then(before, Emit(m)))
  {
    assert AnnouncedAt(before)[|b.answers|].0 == CurrentCall(b).id;
  }

  lemma CallExecuted(s: Setup, stage: Stage, b: Book, e: Event, next: Monitor, before: Trace)
    requires e.Executed? && ExecuteEffect(stage, b, e, next) && Counted(stage, b, before)
    ensures Counted(next.stage, next.book, Then(before, e))
  {
  }

  lemma CountsRestart(s: Setup, stage: Stage, b: Book, e: Event, next: Monitor, before: Trace)
    requires e.Request? && RequestEffect(s, stage, b, e.model, e.history, next) && Sound(s, stage, b)
    ensures next.At? && Counted(next.stage, next.book, Then(before, e))
  {
  }

  lemma CountsKept(s: Setup, stage: Stage, b: Book, e: Event, next: Monitor, before: Trace)
    requires CountsStay(stage, b, next) && !Counts(e) && Sound(s, stage, b) && Counted(stage, b, before)
    ensures Counted(next.stage, next.book, Then(before, e))
  {
  }

  lemma UncountedStep(s: Setup, stage: Stage, b: Book, e: Event, next: Monitor, before: Trace)
    requires next.At? && Effect(s, stage, b, e, next) && Sound(s, stage, b) && Counted(stage, b, before) && !Counts(e)
    ensures Counted(next.stage, next.book, Then(before, e))
  {
    match e {
      case Emit(m) => CountsInMessages(s, stage, b, m, next);
      case Hooked(_, _, _, _) => CountsInHooks(s, stage, b, e, next);
      case _ => CountsElsewhere(s, stage, b, e, next);
    }
    CountsKept(s, stage, b, e, next, before);
  }

  lemma CountedStep(s: Setup, stage: Stage, b: Book, e: Event, next: Monitor, before: Trace)
    requires next.At? && Effect(s, stage, b, e, next) && Sound(s, stage, b) && Counted(stage, b, before)
    ensures Counted(next.stage, next.book, Then(before, e))
  {
    if !Counts(e) {
      UncountedStep(s, stage, b, e, next, before);
    } else {
      match e {
        case Request(_, _) => CountsRestart(s, stage, b, e, next, before);
        case Executed(_, _, _, _, _) => CallExecuted(s, stage, b, e, next, before);
        case Emit(m) =>
          if m.ToolUse? {
            CallAnnounced(s, stage, b, m, next, before);
          } else {
            CallAnswered(s, stage, b, m, next, before);
          }
      }
    }
  }

  lemma {:induction false} CallsGoOneByOne(s: Setup, tr: Trace)
    requires Accepted(s, tr)
    ensures Counted(Watch(s, tr).stage, Watch(s, tr).book, tr) && OneByOne(s, tr)
  {
    TurnIsFolded(s, tr);
    match tr
    case Begin =>
    case Then(before, e) =>
      var stage, b, next := Stepped(s, before, e);
      CallsGoOneByOne(s, before);
      CountedStep(s, stage, b, e, next, before);
  }

  // ---- the whole text of a turn ----

  /** How often the whole text of the turn has been shown. */
  function FinalsAt(tr: Trace): nat {
    match tr
    case Begin => 0
    case Then(before, e) =>
      if e.Request? then 0 else FinalsAt(before) + if e.Emit? && e.message.FinalText? then 1 else 0
  }

  /** It is to be shown: no partial messages are, and there is text that is not only white space, or an
      image. */
  predicate FinalIsDue(s: Setup, tr: Trace) {
    var t := TurnAt(s.parse, tr);
    !s.cfg.partials && (TrimSpace(t.text) != "" || t.images != [])
  }

  /** What comes only when the turn's stream is over and its text, if it is to be shown, has been. */
  predicate ComesBehindFinal(before: Trace, e: Event) {
    || (e.Emit? && (e.message.ToolUse? || e.message.ToolAnswer?))
    || (e.Emit? && e.message.ResultMessage? && e.message.reason == EndTurn)
    || (e.Request? && TurnsBegun(before) > 0 && !EndsInRequest(before))
  }

  /** The whole text of a turn is shown once if it is to be shown, before its calls, its answers, its result
      and the next turn, and else never; it is the turn's text, trimmed, with the turn's images. */
  predicate FinalsAreShown(s: Setup, tr: Trace) {
    match tr
    case Begin => true
    case Then(before, e) =>
      && FinalsAreShown(s, before)
      && (e.Emit? && e.message.FinalText? ==>
            && FinalsAt(before) == 0 && FinalIsDue(s, before)
            && e.message == FinalText(TrimSpace(TurnAt(s.parse, before).text), TurnAt(s.parse, before).images))
      && (ComesBehindFinal(before, e) ==> FinalsAt(before) == if FinalIsDue(s, before) then 1 else 0)
  }

  predicate BehindStream(stage: Stage) {
    stage.Calling? || InCall(stage) || stage.Won?
  }

  ghost predicate FinalShape(s: Setup, stage: Stage, b: Book, tr: Trace) {
    && (Receiving(stage) || Opening(stage) ==> FinalsAt(tr) == 0)
    && (BehindStream(stage) ==> FinalsAt(tr) == if FinalIsDue(s, tr) then 1 else 0)
  }

  lemma DueIs(s: Setup, b: Book, tr: Trace)
    requires b.turn == TurnAt(s.parse, tr)
    ensures FinalIsDue(s, tr) <==> ShowsFinal(s.cfg, Final(b.turn))
  {
    TrimSpaceTrims(b.turn.text);
    TrimSpaceTrims(TrimSpace(b.turn.text));
  }

  /** A run does not move between streaming and what comes behind it. */
  predicate SameSide(stage: Stage, next: Stage) {
    && (Receiving(next) ==> Receiving(stage))
    && (Opening(next) ==> Opening(stage))
    && (BehindStream(next) ==> BehindStream(stage))
  }

  /** Where a message stands between streaming and what comes behind it. */
  ghost predicate MessageSides(s: Setup, stage: Stage, b: Book, m: RunnerModel.Message, next: Stage) {
    match m
    case StreamEvent(_) => Receiving(stage) && Receiving(next)
    case FinalText(text, images) =>
      && Receiving(stage) && next.Calling? && ShowsFinal(s.cfg, Final(b.turn))
      && text == TrimSpace(b.turn.text) && images == b.turn.images
    case ToolUse(_, _, _) =>
      ((Receiving(stage) && !ShowsFinal(s.cfg, Final(b.turn))) || BehindStream(stage)) && InCall(next)
    case ToolAnswer(_, _, _) => BehindStream(stage) && BehindStream(next)
    case ResultMessage(reason, _, _, _, _) =>
      if reason == EndTurn then
        ((Receiving(stage) && !ShowsFinal(s.cfg, Final(b.turn))) || BehindStream(stage)) && next.Won?
      else next.Ended?
    case _ => SameSide(stage, next)
  }

  lemma ResultSides(s: Setup, stage: Stage, b: Book, m: RunnerModel.Message, next: Monitor)
    requires m.ResultMessage? && MessageEffect(s, stage, b, m, next)
    ensures next.At? && MessageSides(s, stage, b, m, next.stage)
  {
  }

  lemma SidesInMessage(s: Setup, stage: Stage, b: Book, m: RunnerModel.Message, next: Monitor)
    requires MessageEffect(s, stage, b, m, next)
    ensures next.At? && MessageSides(s, stage, b, m, next.stage)
  {
    match m {
      case StreamEvent(raw) => HearIs(s, b, raw);
      case ResultMessage(_, _, _, _, _) => ResultSides(s, stage, b, m, next);
      case _ =>
    }
  }

  lemma FinalInEvent(s: Setup, stage: Stage, b: Book, raw: Fields, next: Monitor, before: Trace)
    requires next.At? && Receiving(stage) && Receiving(next.stage) && FinalShape(s, stage, b, before)
    ensures FinalShape(s, next.stage, next.book, Then(before, Emit(StreamEvent(raw))))
  {
  }

  lemma FinalInMessage(s: Setup, stage: Stage, b: Book, m: RunnerModel.Message, next: Monitor, before: Trace)
    requires next.At? && MessageSides(s, stage, b, m, next.stage) && FinalShape(s, stage, b, before)
    requires !m.StreamEvent? && (FinalIsDue(s, before) <==> ShowsFinal(s.cfg, Final(b.turn)))
    requires FinalIsDue(s, Then(before, Emit(m))) == FinalIsDue(s, before)
    ensures FinalShape(s, next.stage, next.book, Then(before, Emit(m)))
  {
  }

  lemma FinalInPlace(s: Setup, stage: Stage, b: Book, m: RunnerModel.Message, next: Monitor, before: Trace)
    requires next.At? && MessageSides(s, stage, b, m, next.stage) && FinalShape(s, stage, b, before)
    requires FinalIsDue(s, before) <==> ShowsFinal(s.cfg, Final(b.turn))
    ensures m.FinalText? ==> FinalsAt(before) == 0 && FinalIsDue(s, before)
    ensures m.FinalText? ==> m == FinalText(TrimSpace(b.turn.text), b.turn.images)
    ensures ComesBehindFinal(before, Emit(m)) ==> FinalsAt(before) == if FinalIsDue(s, before) then 1 else 0
  {
  }

  lemma FinalInRequest(s: Setup, stage: Stage, b: Book, e: Event, next: Monitor, before: Trace)
    requires e.Request? && RequestEffect(s, stage, b, e.model, e.history, next) && FinalShape(s, stage, b, before)
    requires Sound(s, stage, b) && (EndsInRequest(before) <==> stage.Quiet?) && TurnsBegun(before) == b.turns
    ensures next.At? && FinalShape(s, next.stage, next.book, Then(before, e))
    ensures ComesBehindFinal(before, e) ==> FinalsAt(before) == if FinalIsDue(s, before) then 1 else 0
  {
  }

  lemma SidesKept(s: Setup, stage: Stage, b: Book, e: Event, next: Monitor)
    requires next.At? && Effect(s, stage, b, e, next) && !e.Emit? && !e.Request?
    ensures SameSide(stage, next.stage)
  {
    match e {
      case Hooked(_, _, _, _) => SidesInHook(s, stage, b, e, next);
      case Store(op) => SidesInStore(s, stage, b, op, next);
      case Executed(_, _, _, _, _) => SidesAtTool(stage, b, e, next);
      case Checked(_, _, _) => SidesAtTool(stage, b, e, next);
      case _ =>
    }
  }

  lemma SidesAtTool(stage: Stage, b: Book, e: Event, next: Monitor)
    requires next.At?
    requires (e.Executed? && ExecuteEffect(stage, b, e, next)) || (e.Checked? && CheckEffect(stage, b, e, next))
    ensures SameSide(stage, next.stage)
  {
  }

  lemma SidesInHook(s: Setup, stage: Stage, b: Book, e: Event, next: Monitor)
    requires e.Hooked? && next.At? && HookEffect(s, stage, b, e, next)
    ensures SameSide(stage, next.stage)
  {
  }

  lemma SidesInStore(s: Setup, stage: Stage, b: Book, op: Op, next: Monitor)
    requires next.At? && StoreEffect(s, stage, b, op, next)
    ensures SameSide(stage, next.stage)
  {
  }

  lemma {:induction false} FinalTextsAreShown(s: Setup, tr: Trace)
    requires Accepted(s, tr)
    ensures FinalsAreShown(s, tr) && FinalShape(s, Watch(s, tr).stage, Watch(s, tr).book, tr)
  {
    match tr
    case Begin =>
    case Then(before, e) =>
      var stage, b, next := Stepped(s, before, e);
      FinalTextsAreShown(s, before);
      TurnIsFolded(s, before);
      if e.Emit? {
        SidesInMessage(s, stage, b, e.message, next);
        DueIs(s, b, before);
        FinalInPlace(s, stage, b, e.message, next, before);
        if e.message.StreamEvent? {
          FinalInEvent(s, stage, b, e.message.raw, next, before);
        } else {
          FinalInMessage(s, stage, b, e.message, next, before);
        }
      } else if e.Request? {
        RequestsAreBounded(s, before);
        FinalInRequest(s, stage, b, e, next, before);
      } else {
        SidesKept(s, stage, b, e, next);
      }
  }

  // ---- denials ----

  /** A hook decision that denies the call it is about, or a denial at execution that asks to interrupt. */
  predicate IsDenial(e: Event) {
    || (&& e.Hooked? && e.hook == PermissionRequest && HookProblem(PermissionRequest, e.reply) == None
        && Decide(e.reply.outputs, e.input).deny)
    || (e.Executed? && Interrupts(e.outcome))
  }

  predicate HasDenial(tr: Trace) {
    match tr
    case Begin => false
    case Then(before, e) => HasDenial(before) || IsDenial(e)
  }

  /** What may still happen behind a denial: its updates are applied, hooks are told, and the run ends
      with a failure or as interrupted. */
  predicate IsAftermath(e: Event) {
    || e.Fail? || e.Granted? || e.Outside?
    || (e.Hooked? && e.hook == PostToolUseFailure)
    || (IsResult(e) && e.message.reason == Interrupted)
  }

  predicate DenialsEndRuns(tr: Trace) {
    match tr
    case Begin => true
    case Then(before, e) => DenialsEndRuns(before) && (HasDenial(before) ==> IsAftermath(e))
  }

  predicate InDenial(stage: Stage) {
    || (stage.Granting? && stage.decision.deny) || (stage.Decided? && stage.decision.deny) || stage.Refused?
    || (HasRun(stage) && Interrupts(stage.outcome))
    || stage.Stopping? || stage.Ended?
  }

  ghost predicate StaysDenied(stage: Stage, e: Event, next: Monitor)
    requires next.At?
  {
    && (IsDenial(e) || InDenial(stage) ==> InDenial(next.stage))
    && (InDenial(stage) ==> IsAftermath(e))
  }

  lemma DeniedByHook(s: Setup, stage: Stage, b: Book, e: Event, next: Monitor)
    requires e.Hooked? && next.At? && HookEffect(s, stage, b, e, next)
    ensures StaysDenied(stage, e, next)
  {
  }

  lemma DeniedAndEmitted(s: Setup, stage: Stage, b: Book, m: RunnerModel.Message, next: Monitor)
    requires next.At? && MessageEffect(s, stage, b, m, next)
    ensures StaysDenied(stage, Emit(m), next)
  {
  }

  lemma DeniedAtStore(s: Setup, stage: Stage, b: Book, op: Op, next: Monitor)
    requires next.At? && StoreEffect(s, stage, b, op, next)
    ensures StaysDenied(stage, Store(op), next)
  {
  }

  lemma DeniedAtRequest(s: Setup, stage: Stage, b: Book, e: Event, next: Monitor)
    requires e.Request? && next.At? && RequestEffect(s, stage, b, e.model, e.history, next)
    ensures StaysDenied(stage, e, next)
  {
  }

  lemma DeniedAtTool(stage: Stage, b: Book, e: Event, next: Monitor)
    requires next.At?
    requires (e.Executed? && ExecuteEffect(stage, b, e, next)) || (e.Checked? && CheckEffect(stage, b, e, next))
    ensures StaysDenied(stage, e, next)
  {
  }

  lemma DenialStep(s: Setup, stage: Stage, b: Book, e: Event, next: Monitor)
    requires next.At? && Effect(s, stage, b, e, next)
    ensures StaysDenied(stage, e, next)
  {
    match e {
      case Hooked(_, _, _, _) => DeniedByHook(s, stage, b, e, next);
      case Emit(m) => DeniedAndEmitted(s, stage, b, m, next);
      case Store(op) => DeniedAtStore(s, stage, b, op, next);
      case Request(_, _) => DeniedAtRequest(s, stage, b, e, next);
      case Executed(_, _, _, _, _) => DeniedAtTool(stage, b, e, next);
      case Checked(_, _, _) => DeniedAtTool(stage, b, e, next);
      case _ =>
    }
  }

  lemma {:induction false} DenialIsFinal(s: Setup, tr: Trace)
    requires Accepted(s, tr)
    ensures DenialsEndRuns(tr) && (HasDenial(tr) ==> InDenial(Watch(s, tr).stage))
  {
    match tr
    case Begin =>
    case Then(before, e) =>
      var stage, b, next := Stepped(s, before, e);
      DenialIsFinal(s, before);
      DenialStep(s, stage, b, e, next);
  }

  // ---- policy ----

  /** The policy allowed the call when it was looked at, and the run has done nothing since but apply the
      updates that came with the callback's consent. */
  ghost predicate WasAllowed(tr: Trace, id: string, name: string) {
    var o := Own(tr);
    && o.Then?
    && (|| o.last == Checked(id, name, false)
        || (o.last.Granted? && Own(o.before).Then? && Own(o.before).last == Checked(id, name, false)))
  }

  /** Every look at the policy sees the one in force, changes from outside included, and a handler runs only
      behind a look that allowed it. */
  ghost predicate PolicyObeyed(pol: Policy, tr: Trace) {
    match tr
    case Begin => true
    case Then(before, e) =>
      && PolicyObeyed(pol, before)
      && (e.Checked? ==> e.denied == Denies(PolicyAt(pol, before), e.name))
      && (e.Executed? && e.invoked ==> WasAllowed(before, e.id, e.name))
      && (e.Executed? && e.outcome.Answered? ==> e.invoked)
  }

  lemma PassedWasAllowed(tr: Trace, c: Call, input: Fields, outcome: ToolOutcome, invoked: bool)
    requires Passed(tr, c, input, outcome, invoked)
    ensures invoked ==> WasAllowed(tr, c.id, c.name)
    ensures outcome.Answered? ==> invoked
  {
  }

  lemma {:induction false} PolicyIsObeyed(s: Setup, tr: Trace)
    requires Accepted(s, tr)
    ensures PolicyObeyed(s.policy, tr)
  {
    match tr
    case Begin =>
    case Then(before, e) =>
      var stage, b, next := Stepped(s, before, e);
      PolicyIsObeyed(s, before);
      InForce(s, before);
      if e.Executed? {
        CallsHaveShape(s, before);
        ToolShape(s, stage, b, e, next, before);
        PassedWasAllowed(before, CurrentCall(b), e.input, e.outcome, e.invoked);
      }
  }

  // ---- the policy, told from the trace alone ----

  /** The last word of some updates on a tool, and else the one before. */
  function WordAfter(ups: seq<Update>, tool: string, before: Touch): Touch {
    if LastTouch(ups, tool) != Untouched then LastTouch(ups, tool) else before
  }

  /** The last word on a tool, of the updates granted in the run and those made from outside. */
  function LastWord(tr: Trace, tool: string): Touch {
    match tr
    case Begin => Untouched
    case Then(before, Granted(ups)) => WordAfter(ups, tool, LastWord(before, tool))
    case Then(before, Outside(ToPolicy(NewUpdates(ups)))) => WordAfter(ups, tool, LastWord(before, tool))
    case Then(before, _) => LastWord(before, tool)
  }

  /** The mode set last, by the same updates or from outside. */
  function ModeSet(tr: Trace, mode: Option<Mode>): Option<Mode> {
    match tr
    case Begin => mode
    case Then(before, Granted(ups)) => LastMode(ups, ModeSet(before, mode))
    case Then(before, Outside(ToPolicy(NewUpdates(ups)))) => LastMode(ups, ModeSet(before, mode))
    case Then(before, Outside(ToPolicy(NewMode(m)))) => if m == "" then ModeSet(before, mode) else Some(m)
    case Then(before, _) => ModeSet(before, mode)
  }

  lemma {:induction false} PolicyIsLastWord(pol: Policy, tr: Trace, tool: string)
    ensures Lookup(PolicyAt(pol, tr).rules, tool) == Touched(Lookup(pol.rules, tool), LastWord(tr, tool))
    ensures PolicyAt(pol, tr).mode == ModeSet(tr, pol.mode)
  {
    if tr.Then? {
      PolicyIsLastWord(pol, tr.before, tool);
      match tr.last {
        case Granted(ups) => LastTouchDecides(PolicyAt(pol, tr.before), ups, tool);
        case Outside(ToPolicy(NewUpdates(ups))) => LastTouchDecides(PolicyAt(pol, tr.before), ups, tool);
        case _ =>
      }
    }
  }

  /** A look denies a tool exactly if the mode set last is not the bypass and the last word on the tool, or the
      rule the run found, is "deny". */
  predicate LooksAreRight(pol: Policy, tr: Trace) {
    match tr
    case Begin => true
    case Then(before, e) =>
      && LooksAreRight(pol, before)
      && (e.Checked? ==>
            (e.denied <==>
               && ModeSet(before, pol.mode) != Some("bypassPermissions")
               && Touched(Lookup(pol.rules, e.name), LastWord(before, e.name)) == Some("deny")))
  }

  lemma {:induction false} LooksTellLastWord(pol: Policy, tr: Trace)
    requires PolicyObeyed(pol, tr)
    ensures LooksAreRight(pol, tr)
  {
    if tr.Then? {
      LooksTellLastWord(pol, tr.before);
      if tr.last.Checked? {
        PolicyIsLastWord(pol, tr.before, tr.last.name);
      }
    }
  }
}
