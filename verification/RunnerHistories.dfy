/** What the protocol guarantees about histories: what is sent to the model and stored is what was said,
    and every tool call in it is followed by its answers. */
module RunnerHistories {
  import opened Basics
  import opened Json
  import opened Decimal
  import opened Folding
  import opened EventMapper
  import opened History
  import opened Policy
  import opened SessionStore
  import opened RunnerModel
  import opened RunnerProtocol
  import opened RunnerEffects
  import opened RunnerHooks
  import opened RunnerGuarantees
  import opened RunnerTools

  // ---- what a history consists of ----

  predicate TakesInput(e: Event) {
    e.Hooked? && e.hook == UserPromptSubmit && HookProblem(UserPromptSubmit, e.reply) == None
  }

  function InputsTaken(tr: Trace): nat {
    match tr
    case Begin => 0
    case Then(before, e) => InputsTaken(before) + if TakesInput(e) then 1 else 0
  }

  /** The history as it grows along a trace: the messages found, the system prompt, the inputs the hooks
      let pass, and for every turn what was streamed behind its last request and the answers shown. */
  ghost function HistoryAt(s: Setup, tr: Trace): seq<Entry> {
    match tr
    case Begin => s.messages
    case Then(before, e) =>
      var h := HistoryAt(s, before);
      match e
      case Emit(SystemInit(prompt)) => [System(prompt)]
      case Emit(ResultMessage(EndTurn, _, _, _, _)) => h + [Said(TurnAt(s.parse, before))]
      case Request(_, _) =>
        if EndsInRequest(before) || TurnsBegun(before) == 0 then h
        else h + [Said(TurnAt(s.parse, before))] + AnsweredAt(before)
      case Hooked(_, _, _, _) =>
        if TakesInput(e) && InputsTaken(before) < |s.inputs| then
          var i := s.inputs[InputsTaken(before)];
          h + [Input(if i.role == "" then "user" else i.role, i.content)]
        else h
      case _ => h
  }

  /** Every history sent or stored is the one built so far, and each user-turn count stored is right. */
  ghost predicate HistoriesAreTrue(s: Setup, tr: Trace) {
    match tr
    case Begin => true
    case Then(before, e) =>
      && HistoriesAreTrue(s, before)
      && (e.Request? ==> e.history == HistoryAt(s, tr))
      && (e.Store? && e.op.SetState? ==>
        e.op == SetState(s.id, HistoryAt(s, before), s.userTurns + InputsTaken(before)))
  }

  ghost predicate BookIsTrue(s: Setup, stage: Stage, b: Book, tr: Trace) {
    && b.history == HistoryAt(s, tr) && b.taken == InputsTaken(tr)
    && (!stage.Stopping? && !stage.Ended? ==>
          b.userTurns == s.userTurns + b.taken + if stage.Bumped? || stage.Echoed? then 1 else 0)
  }

  /** What the trace before a step is known to have come to. */
  ghost predicate KnownAt(s: Setup, stage: Stage, b: Book, tr: Trace) {
    && b.turn == TurnAt(s.parse, tr) && b.answers == AnsweredAt(tr)
    && (EndsInRequest(tr) <==> stage.Quiet?) && TurnsBegun(tr) == b.turns
  }

  lemma HistoryInRequest(s: Setup, stage: Stage, b: Book, e: Event, next: Monitor, before: Trace)
    requires e.Request? && RequestEffect(s, stage, b, e.model, e.history, next) && Sound(s, stage, b)
    requires KnownAt(s, stage, b, before) && BookIsTrue(s, stage, b, before)
    ensures next.At? && BookIsTrue(s, next.stage, next.book, Then(before, e)) &&
        e.history == HistoryAt(s, Then(before, e))
  {
  }

  lemma HistoryInHook(s: Setup, stage: Stage, b: Book, e: Event, next: Monitor, before: Trace)
    requires e.Hooked? && HookEffect(s, stage, b, e, next) && BookIsTrue(s, stage, b, before)
    ensures next.At? && BookIsTrue(s, next.stage, next.book, Then(before, e))
  {
  }

  lemma HistoryInMessage(s: Setup, stage: Stage, b: Book, e: Event, next: Monitor, before: Trace)
    requires e.Emit? && MessageEffect(s, stage, b, e.message, next) && Sound(s, stage, b)
    requires KnownAt(s, stage, b, before) && BookIsTrue(s, stage, b, before)
    ensures next.At? && BookIsTrue(s, next.stage, next.book, Then(before, e))
  {
    if e.message.StreamEvent? {
      HearIs(s, b, e.message.raw);
    }
  }

  lemma HistoryElsewhere(s: Setup, stage: Stage, b: Book, e: Event, next: Monitor, before: Trace)
    requires next.At? && Effect(s, stage, b, e, next) && BookIsTrue(s, stage, b, before)
    requires e.Fail? || e.Granted? || e.Checked? || e.Executed? || e.Store? || e.Outside?
    ensures BookIsTrue(s, next.stage, next.book, Then(before, e))
    ensures e.Store? && e.op.SetState? ==>
        e.op == SetState(s.id, HistoryAt(s, before), s.userTurns + InputsTaken(before))
  {
  }

  lemma {:induction false} HistoriesTellTheTruth(s: Setup, tr: Trace)
    requires Accepted(s, tr)
    ensures HistoriesAreTrue(s, tr)
    ensures BookIsTrue(s, Watch(s, tr).stage, Watch(s, tr).book, tr)
  {
    match tr
    case Begin =>
    case Then(before, e) =>
      var stage, b, next := Stepped(s, before, e);
      HistoriesTellTheTruth(s, before);
      TurnIsFolded(s, before);
      CallsGoOneByOne(s, before);
      RequestsAreBounded(s, before);
      match e {
        case Request(_, _) => HistoryInRequest(s, stage, b, e, next, before);
        case Hooked(_, _, _, _) => HistoryInHook(s, stage, b, e, next, before);
        case Emit(_) => HistoryInMessage(s, stage, b, e, next, before);
        case _ => HistoryElsewhere(s, stage, b, e, next, before);
      }
  }

  // ---- which inputs are taken ----

  /** A content block that is no text. */
  predicate HasOtherThanText(c: Content) {
    c.Blocks? && exists i :: 0 <= i < |c.blocks| && !IsTextBlock(c.blocks[i])
  }

  predicate IsTextBlock(block: Json) {
    block.Obj? && "type" in block.fields && block.fields["type"] == Str("text")
  }

  /** The next input can be sent: the Responses interface takes only text. */
  predicate IsFit(s: Setup, n: nat) {
    n < |s.inputs| && !(s.cfg.responsesMode && HasOtherThanText(s.inputs[n].content))
  }

  /** An input is counted, and with that taken up, only if it can be sent, and rejected only if it cannot. */
  predicate InputsAreFit(s: Setup, tr: Trace) {
    match tr
    case Begin => true
    case Then(before, e) =>
      && InputsAreFit(s, before)
      && (e.Store? && e.op.Bump? ==> IsFit(s, InputsTaken(before)))
      && (e == Fail(MultimodalInput) ==> InputsTaken(before) < |s.inputs| && !IsFit(s, InputsTaken(before)))
  }

  lemma FitIs(s: Setup, n: nat)
    requires n < |s.inputs|
    ensures IsFit(s, n) <==> !(s.cfg.responsesMode && HasNonTextBlocks(s.inputs[n].content))
  {
    var c := s.inputs[n].content;
    if c.Blocks? {
      assert forall i :: 0 <= i < |c.blocks| ==>
        (IsTextBlock(c.blocks[i]) <==> c.blocks[i].Obj? && StrAt(c.blocks[i].fields, "type") == "text");
    }
  }

  lemma FitStep(s: Setup, stage: Stage, b: Book, e: Event)
    requires Takes(s, stage, b, e) && ((e.Store? && e.op.Bump?) || (e == Fail(MultimodalInput) && !stage.Stopping?))
    ensures b.taken < |s.inputs|
    ensures e.Store? <==> !(s.cfg.responsesMode && HasNonTextBlocks(s.inputs[b.taken].content))
  {
  }

  lemma {:induction false} InputsTakenAreFit(s: Setup, tr: Trace)
    requires Accepted(s, tr)
    ensures InputsAreFit(s, tr)
  {
    match tr
    case Begin =>
    case Then(before, e) =>
      var stage, b, next := Stepped(s, before, e);
      InputsTakenAreFit(s, before);
      if (e.Store? && e.op.Bump?) || e == Fail(MultimodalInput) {
        Took(s, before, e);
        HooksStopRuns(s, before);
        HistoriesTellTheTruth(s, before);
        FitStep(s, stage, b, e);
        FitIs(s, b.taken);
      }
  }

  // ---- pairing ----

  /** None of the first n inputs poses as a tool. */
  predicate NoToolRole(inputs: seq<UserInput>, n: nat)
    requires n <= |inputs|
  {
    forall i :: 0 <= i < n ==> inputs[i].role != "tool"
  }

  /** An input that poses as a tool. */
  predicate HasStray(h: seq<Entry>) {
    exists i :: 0 <= i < |h| && h[i].Input? && h[i].role == TOOL_ROLE
  }

  lemma StrayBreaksPairing(h: seq<Entry>)
    requires HasStray(h)
    ensures !WellPaired(h)
  {
    var i :| 0 <= i < |h| && h[i].Input? && h[i].role == TOOL_ROLE;
    if WellPaired(h) {
      PairingPlaceByPlace(h, i);
    }
  }

  lemma StrayStays(h: seq<Entry>, more: seq<Entry>)
    requires HasStray(h)
    ensures HasStray(h + more)
  {
    var i :| 0 <= i < |h| && h[i].Input? && h[i].role == TOOL_ROLE;
    assert (h + more)[i] == h[i];
  }

  /** Well paired if no input posed as a tool, and with a stray message otherwise. */
  ghost predicate PairedSoFar(s: Setup, b: Book) {
    && b.taken <= |s.inputs|
    && if NoToolRole(s.inputs, b.taken) then WellPaired(b.history) else HasStray(b.history)
  }

  lemma PairedByInput(s: Setup, b: Book, i: UserInput)
    requires PairedSoFar(s, b) && b.taken < |s.inputs| && i == s.inputs[b.taken]
    ensures PairedSoFar(s, b.(taken := b.taken + 1, history := b.history + [Input(RoleOf(i), i.content)]))
  {
    var e := Input(RoleOf(i), i.content);
    var h := b.history + [e];
    if !NoToolRole(s.inputs, b.taken) {
      StrayStays(b.history, [e]);
    } else if e.role == TOOL_ROLE {
      assert h[|h| - 1] == e;
    } else {
      InputPaired(b.history, RoleOf(i), i.content);
    }
    assert NoToolRole(s.inputs, b.taken + 1) <==> NoToolRole(s.inputs, b.taken) && e.role != TOOL_ROLE;
  }

  lemma PairedByTurn(s: Setup, b: Book, answers: seq<Entry>, turn: Turn)
    requires PairedSoFar(s, b) && Answers(answers, Ordered(turn.calls))
    ensures PairedSoFar(s, b.(history := b.history + [Said(turn)] + answers))
  {
    if NoToolRole(s.inputs, b.taken) {
      TurnPaired(b.history, TrimSpace(turn.text), turn.images, Ordered(turn.calls), answers);
    } else {
      StrayStays(b.history, [Said(turn)]);
      StrayStays(b.history + [Said(turn)], answers);
    }
  }

  lemma AllAnswersMatch(stage: Stage, b: Book, tr: Trace)
    requires Counted(stage, b, tr) && |b.answers| == |Ordered(b.turn.calls)|
    ensures Answers(b.answers, Ordered(b.turn.calls))
  {
    var calls := Ordered(b.turn.calls);
    forall i | 0 <= i < |b.answers|
      ensures b.answers[i].Answer? && b.answers[i].callId == calls[i].id
    {
      assert AnnouncedAt(tr)[i] == (calls[i].id, calls[i].name);
    }
  }

  lemma PairedInRequest(s: Setup, stage: Stage, b: Book, e: Event, next: Monitor, before: Trace)
    requires e.Request? && RequestEffect(s, stage, b, e.model, e.history, next)
    requires PairedSoFar(s, b) && Counted(stage, b, before)
    ensures next.At? && PairedSoFar(s, next.book) && e.history == next.book.history
  {
    if stage.Calling? {
      AllAnswersMatch(stage, b, before);
      PairedByTurn(s, b, b.answers, b.turn);
    }
  }

  lemma PairedInMessage(s: Setup, stage: Stage, b: Book, e: Event, next: Monitor)
    requires e.Emit? && MessageEffect(s, stage, b, e.message, next) && PairedSoFar(s, b)
    ensures next.At? && PairedSoFar(s, next.book)
  {
    match e.message {
      case StreamEvent(raw) => HearIs(s, b, raw);
      case SystemInit(prompt) => SingletonPaired(System(prompt));
      case ResultMessage(EndTurn, _, _, _, _) =>
        PairedByTurn(s, b, [], b.turn);
        assert b.history + [Said(b.turn)] + [] == b.history + [Said(b.turn)];
      case _ =>
    }
  }

  lemma PairedInHook(s: Setup, stage: Stage, b: Book, e: Event, next: Monitor)
    requires e.Hooked? && HookEffect(s, stage, b, e, next) && PairedSoFar(s, b)
    ensures next.At? && PairedSoFar(s, next.book)
  {
    if stage.Echoed? {
      PairedByInput(s, b, s.inputs[b.taken]);
    }
  }

  /** Nothing else touches the history. */
  lemma PairedElsewhere(s: Setup, stage: Stage, b: Book, e: Event, next: Monitor)
    requires next.At? && Effect(s, stage, b, e, next)
    requires e.Fail? || e.Granted? || e.Checked? || e.Executed? || e.Store? || e.Outside?
    ensures next.book.history == b.history && next.book.taken == b.taken
    ensures e.Store? && e.op.SetState? ==> e.op.messages == b.history
  {
  }

  /** Every history sent to the model or stored is well paired exactly if no input taken before poses as
      a tool. */
  ghost predicate PairedExactly(s: Setup, tr: Trace) {
    match tr
    case Begin => true
    case Then(before, e) =>
      && PairedExactly(s, before)
      && (e.Request? ==> (WellPaired(e.history) <==> NoToolBefore(s, before)))
      && (e.Store? && e.op.SetState? ==> (WellPaired(e.op.messages) <==> NoToolBefore(s, before)))
  }

  predicate NoToolBefore(s: Setup, tr: Trace) {
    InputsTaken(tr) <= |s.inputs| && NoToolRole(s.inputs, InputsTaken(tr))
  }

  lemma PairedMeans(s: Setup, b: Book)
    requires PairedSoFar(s, b)
    ensures WellPaired(b.history) <==> NoToolRole(s.inputs, b.taken)
  {
    if !NoToolRole(s.inputs, b.taken) {
      StrayBreaksPairing(b.history);
    }
  }

  lemma {:induction false} HistoriesArePaired(s: Setup, tr: Trace)
    requires Accepted(s, tr) && WellPaired(s.messages)
    ensures PairedExactly(s, tr) && PairedSoFar(s, Watch(s, tr).book)
  {
    match tr
    case Begin =>
    case Then(before, e) =>
      var stage, b, next := Stepped(s, before, e);
      HistoriesArePaired(s, before);
      HistoriesTellTheTruth(s, before);
      PairedStep(s, stage, b, e, next, before);
      PairedMeans(s, b);
      PairedMeans(s, next.book);
  }

  lemma PairedStep(s: Setup, stage: Stage, b: Book, e: Event, next: Monitor, before: Trace)
    requires Accepted(s, before) && Watch(s, before) == At(stage, b)
    requires next.At? && Effect(s, stage, b, e, next) && PairedSoFar(s, b)
    ensures PairedSoFar(s, next.book)
    ensures e.Request? ==> e.history == next.book.history && next.book.taken == b.taken
    ensures e.Store? && e.op.SetState? ==> e.op.messages == b.history
  {
    match e {
      case Request(_, _) =>
        CallsGoOneByOne(s, before);
        PairedInRequest(s, stage, b, e, next, before);
      case Hooked(_, _, _, _) => PairedInHook(s, stage, b, e, next);
      case Emit(_) => PairedInMessage(s, stage, b, e, next);
      case _ => PairedElsewhere(s, stage, b, e, next);
    }
  }
}
