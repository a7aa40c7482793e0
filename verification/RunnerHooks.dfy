/** Hooks that stop a run: which answers of which hooks do, and what is left to happen behind them. */
module RunnerHooks {
  import opened Basics
  import opened Json
  import opened RunnerModel
  import opened RunnerProtocol
  import opened RunnerEffects

  predicate Supported(o: HookOutput) {
    o.NoOutput? || (o.Sync? && !o.suppressOutput && !o.stopReason && !o.systemMessage && !o.continueFalse)
  }

  /** Hooks pass the check exactly if each of their outputs is supported. */
  lemma {:induction false} HooksPassIff(outputs: seq<HookOutput>)
    ensures Unsupported(outputs) == None <==> forall i :: 0 <= i < |outputs| ==> Supported(outputs[i])
  {
    if outputs != [] {
      HooksPassIff(outputs[1..]);
      assert forall i :: 0 < i < |outputs| ==> outputs[i] == outputs[1..][i - 1];
      assert outputs[1..] == outputs[1..|outputs|];
    }
  }

  /** The field an output is rejected for; of several, the first in this order. */
  predicate RejectedFor(o: HookOutput, field: string) {
    match o
    case Async => field == "async"
    case NoOutput => false
    case Sync(suppressOutput, stopReason, systemMessage, continueFalse, _) =>
      if suppressOutput then field == "suppressOutput"
      else if stopReason then field == "stopReason"
      else if systemMessage then field == "systemMessage"
      else continueFalse && field == "continue"
  }

  /** The i-th output is the first that is not supported. */
  predicate FirstRejected(outputs: seq<HookOutput>, i: int) {
    0 <= i < |outputs| && !Supported(outputs[i]) && forall j :: 0 <= j < i ==> Supported(outputs[j])
  }

  lemma {:induction false} RejectedField(outputs: seq<HookOutput>) returns (i: int)
    requires Unsupported(outputs).Some?
    ensures FirstRejected(outputs, i) && RejectedFor(outputs[i], Unsupported(outputs).value)
  {
    if Supported(outputs[0]) {
      var k := RejectedField(outputs[1..]);
      i := k + 1;
      assert forall j :: 0 < j < |outputs| ==> outputs[j] == outputs[1..][j - 1];
    } else {
      i := 0;
    }
  }

  /** The hooks whose own error stops the run. */
  predicate ErrorCounts(h: HookEvent) {
    h == UserPromptSubmit || h == PermissionRequest || h == PreToolUse || h == PostToolUse
  }

  /** An answer that stops the run: an error of a hook whose error counts, or an output, of any hook, that is
      not supported. */
  ghost predicate Stops(e: Event) {
    e.Hooked? && ((ErrorCounts(e.hook) && e.reply.error.Some?) || exists i :: FirstRejected(e.reply.outputs, i))
  }

  /** And what is reported then: the error first, else the first output that is not supported. */
  ghost predicate StoppedBy(e: Event, f: Failure) {
    && e.Hooked?
    && if ErrorCounts(e.hook) && e.reply.error.Some? then f == HookFailed(e.reply.error.value)
       else exists i :: FirstRejected(e.reply.outputs, i) &&
                        f.UnsupportedOutput? && f.hook == e.hook && RejectedFor(e.reply.outputs[i], f.field)
  }

  /** How the run takes an answer. */
  function ProblemOf(e: Event): Option<Failure>
    requires e.Hooked?
  {
    if ErrorCounts(e.hook) then HookProblem(e.hook, e.reply) else OutputProblem(e.hook, e.reply)
  }

  lemma ProblemIs(e: Event)
    requires e.Hooked?
    ensures ProblemOf(e).Some? <==> Stops(e)
    ensures ProblemOf(e).Some? ==> StoppedBy(e, ProblemOf(e).value)
  {
    var outputs := e.reply.outputs;
    HooksPassIff(outputs);
    if Unsupported(outputs).Some? {
      var i := RejectedField(outputs);
    }
  }

  /** A hook stops the run or leaves it on its way. */
  lemma HookStops(s: Setup, stage: Stage, b: Book, e: Event, next: Monitor)
    requires e.Hooked? && HookEffect(s, stage, b, e, next)
    ensures next.At? && (next.stage.Stopping? <==> ProblemOf(e).Some?)
    ensures next.stage.Stopping? ==> ProblemOf(e) == Some(next.stage.failure)
  {
  }

  lemma StoppingTakes(s: Setup, b: Book, f: Failure, e: Event)
    requires Takes(s, Stopping(f), b, e)
    ensures e.Outside? || (e == Fail(f) && Step(s, Stopping(f), b, e).stage == Ended)
    ensures e.Outside? ==> Step(s, Stopping(f), b, e).stage == Stopping(f)
  {
  }

  lemma EndedTakes(s: Setup, b: Book, e: Event)
    requires Takes(s, Ended, b, e)
    ensures e.Outside? && Step(s, Ended, b, e).stage == Ended
  {
  }

  /** Failures of hooks are reported in no other place. */
  lemma HookFailuresOnlyThere(s: Setup, stage: Stage, b: Book, f: Failure)
    requires Takes(s, stage, b, Fail(f)) && (f.HookFailed? || f.UnsupportedOutput?)
    ensures stage == Stopping(f)
  {
  }

  lemma MessagesDoNotStop(s: Setup, stage: Stage, b: Book, m: RunnerModel.Message, next: Monitor)
    requires MessageEffect(s, stage, b, m, next)
    ensures next.At? && !next.stage.Stopping?
  {
    if m.StreamEvent? {
      HearIs(s, b, m.raw);
    }
  }

  lemma OnlyHooksStop(s: Setup, stage: Stage, b: Book, e: Event, next: Monitor)
    requires next.At? && Effect(s, stage, b, e, next) && !e.Hooked?
    ensures next.stage.Stopping? ==> e.Outside? && stage.Stopping?
  {
    if e.Emit? {
      MessagesDoNotStop(s, stage, b, e.message, next);
    }
  }

  // ---- over a whole trace ----

  ghost predicate HasStopped(tr: Trace) {
    match tr
    case Begin => false
    case Then(before, e) => HasStopped(before) || Stops(e)
  }

  /** What may follow: behind a hook that stopped the run, nothing of the run but the report, once, directly
      behind that hook; and such a report nowhere else. */
  ghost predicate IsHeeded(before: Trace, e: Event) {
    var o := Own(before);
    && (HasStopped(before) ==> e.Outside? || (o.Then? && e.Fail? && StoppedBy(o.last, e.failure)))
    && (e.Fail? && (e.failure.HookFailed? || e.failure.UnsupportedOutput?) ==>
      o.Then? && StoppedBy(o.last, e.failure))
  }

  ghost predicate HooksAreHeeded(tr: Trace) {
    match tr
    case Begin => true
    case Then(before, e) => HooksAreHeeded(before) && IsHeeded(before, e)
  }

  ghost predicate StopShape(stage: Stage, tr: Trace) {
    && (stage.Stopping? ==> HasStopped(tr) && Own(tr).Then? && StoppedBy(Own(tr).last, stage.failure))
    && (HasStopped(tr) ==> stage.Stopping? || stage.Ended?)
  }

  lemma {:induction false} HooksStopRuns(s: Setup, tr: Trace)
    requires Accepted(s, tr)
    ensures HooksAreHeeded(tr) && StopShape(Watch(s, tr).stage, tr)
  {
    match tr
    case Begin =>
    case Then(before, e) =>
      var stage, b, next := Stepped(s, before, e);
      Took(s, before, e);
      HooksStopRuns(s, before);
      StopStep(s, stage, b, e, before);
  }

  lemma StopStep(s: Setup, stage: Stage, b: Book, e: Event, before: Trace)
    requires Takes(s, stage, b, e) && StopShape(stage, before)
    requires Effect(s, stage, b, e, Step(s, stage, b, e))
    ensures IsHeeded(before, e) && StopShape(Step(s, stage, b, e).stage, Then(before, e))
  {
    if stage.Stopping? {
      StoppingTakes(s, b, stage.failure, e);
    } else if stage.Ended? {
      EndedTakes(s, b, e);
    } else if e.Hooked? {
      ProblemIs(e);
      HookStops(s, stage, b, e, Step(s, stage, b, e));
    } else {
      OnlyHooksStop(s, stage, b, e, Step(s, stage, b, e));
      if e.Fail? && (e.failure.HookFailed? || e.failure.UnsupportedOutput?) {
        HookFailuresOnlyThere(s, stage, b, e.failure);
      }
    }
  }
}
