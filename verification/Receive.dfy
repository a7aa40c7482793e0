/** The client's consumer of one response: two channels and a context, read by a select loop. */
module Receive {
  import opened Basics

  /** What a select can take: a message, an error (which may be absent) or the context's end. */
  datatype Taken<M, E> = TookMsg(m: M) | TookErr(e: Option<E>) | TookCancel

  datatype Item<M, E> = Msg(m: M) | Failure(e: E) | ContextEnded

  /** Which case of the select fires next. A closed channel can fire again and again. */
  datatype Pick = PickMsgs | PickErrs | PickDone

  /** How the loop ended: both channels closed, the consumer had enough, the context ended, or the
      schedule ends while it is still waiting. */
  datatype End = Drained | ConsumerStopped | Cancelled | Waiting

  /** Everything taken so far, in order. */
  datatype Log<M, E> = Nothing | Then(before: Log<M, E>, last: Taken<M, E>)

  function Messages<M, E>(log: Log<M, E>): seq<M> {
    match log
    case Nothing => []
    case Then(before, TookMsg(m)) => Messages(before) + [m]
    case Then(before, _) => Messages(before)
  }

  function Errors<M, E>(log: Log<M, E>): seq<Option<E>> {
    match log
    case Nothing => []
    case Then(before, TookErr(e)) => Errors(before) + [e]
    case Then(before, _) => Errors(before)
  }

  predicate ResultTaken<M, E>(log: Log<M, E>, isResult: M -> bool) {
    log.Then? && (ResultTaken(log.before, isResult) || (log.last.TookMsg? && isResult(log.last.m)))
  }

  predicate CancelTaken<M, E>(log: Log<M, E>) {
    log.Then? && (CancelTaken(log.before) || log.last.TookCancel?)
  }

  /** What a schedule takes from the two channels, if nothing ends the loop before: the next message, the
      next error, or the context's end. A channel that has nothing more to give is found closed. */
  function Fired<M, E>(schedule: seq<Pick>, msgs: seq<M>, errs: seq<Option<E>>): Log<M, E> {
    if schedule == [] then Nothing
    else FiredNext(Fired(schedule[..|schedule| - 1], msgs, errs), schedule[|schedule| - 1], msgs, errs)
  }

  function FiredNext<M, E>(log: Log<M, E>, pick: Pick, msgs: seq<M>, errs: seq<Option<E>>): Log<M, E> {
    match pick
    case PickMsgs => if |Messages(log)| < |msgs| then Then(log, TookMsg(msgs[|Messages(log)|])) else log
    case PickErrs => if |Errors(log)| < |errs| then Then(log, TookErr(errs[|Errors(log)|])) else log
    case PickDone => Then(log, TookCancel)
  }

  lemma FiredOneMore<M, E>(schedule: seq<Pick>, k: nat, msgs: seq<M>, errs: seq<Option<E>>)
    requires k < |schedule|
    ensures Fired(schedule[..k + 1], msgs, errs) == FiredNext(Fired(schedule[..k], msgs, errs), schedule[k], msgs, errs)
  {
    assert schedule[..k + 1][..k] == schedule[..k];
  }

  lemma {:induction false} FiredInOrder<M, E>(schedule: seq<Pick>, msgs: seq<M>, errs: seq<Option<E>>)
    ensures var log := Fired(schedule, msgs, errs);
      && |Messages(log)| <= |msgs| && Messages(log) == msgs[..|Messages(log)|]
      && |Errors(log)| <= |errs| && Errors(log) == errs[..|Errors(log)|]
  {
    if schedule != [] {
      FiredInOrder(schedule[..|schedule| - 1], msgs, errs);
    }
  }

  /** What one thing taken hands on: nothing once a result has been handed on, except the context's end. */
  function HandOn<M, E>(t: Taken<M, E>, resultSeen: bool): seq<Item<M, E>> {
    match t
    case TookMsg(m) => if resultSeen then [] else [Msg(m)]
    case TookErr(e) => if resultSeen || e.None? then [] else [Failure(e.value)]
    case TookCancel => [ContextEnded]
  }

  function Response<M, E>(log: Log<M, E>, isResult: M -> bool): seq<Item<M, E>> {
    match log
    case Nothing => []
    case Then(before, t) => Response(before, isResult) + HandOn(t, ResultTaken(before, isResult))
  }

  /** ReceiveResponse. The producer sends msgs and errs and closes both channels; the schedule says
      which select case fires when, and wants says whether the consumer goes on after each item. */
  method ReceiveResponse<M, E>(msgs: seq<M>, errs: seq<Option<E>>, schedule: seq<Pick>, wants: nat -> bool,
                               isResult: M -> bool)
    returns (out: seq<Item<M, E>>, taken: nat, failed: nat, end: End, ghost log: Log<M, E>, ghost used: nat)
    ensures used <= |schedule| && log == Fired(schedule[..used], msgs, errs)
    ensures end == Waiting ==> used == |schedule|
    ensures end == ConsumerStopped ==> out != [] && !wants(|out|)
    ensures forall n :: 0 < n < |out| ==> wants(n)
    ensures end == Drained || end == Waiting ==> out == [] || wants(|out|)
    ensures taken <= |msgs| && Messages(log) == msgs[..taken]
    ensures failed <= |errs| && Errors(log) == errs[..failed]
    ensures out == Response(log, isResult)
    ensures end == Drained ==> taken == |msgs| && failed == |errs|
    ensures end == Cancelled <==> CancelTaken(log)
  {
    out, taken, failed, log, used := [], 0, 0, Nothing, 0;
    var msgsClosed, errsClosed, resultSeen := false, false, false;
    var k := 0;
    while !msgsClosed || !errsClosed
      invariant taken <= |msgs| && Messages(log) == msgs[..taken]
      invariant failed <= |errs| && Errors(log) == errs[..failed]
      invariant out == Response(log, isResult) && k <= |schedule|
      invariant resultSeen == ResultTaken(log, isResult)
      invariant msgsClosed ==> taken == |msgs|
      invariant errsClosed ==> failed == |errs|
      invariant !CancelTaken(log)
      invariant used == k && log == Fired(schedule[..k], msgs, errs)
      invariant forall n :: 0 < n <= |out| ==> wants(n)
      decreases |schedule| - k
    {
      if k == |schedule| {
        end := Waiting;
        return;
      }
      var pick := schedule[k];
      FiredOneMore(schedule, k, msgs, errs);
      FiredInOrder(schedule[..k + 1], msgs, errs);
      log := FiredNext(log, pick, msgs, errs);
      k, used := k + 1, used + 1;
      match pick {
        case PickMsgs =>
          if taken == |msgs| {
            msgsClosed := true;
            continue;
          }
          var msg := msgs[taken];
          taken := taken + 1;
          if resultSeen {
            continue;
          }
          out := out + [Msg(msg)];
          if !wants(|out|) {
            end := ConsumerStopped;
            return;
          }
          if isResult(msg) {
            resultSeen := true;
          }
        case PickErrs =>
          if failed == |errs| {
            errsClosed := true;
            continue;
          }
          var err := errs[failed];
          failed := failed + 1;
          if err.None? || resultSeen {
            continue;
          }
          out := out + [Failure(err.value)];
          if !wants(|out|) {
            end := ConsumerStopped;
            return;
          }
        case PickDone =>
          out := out + [ContextEnded];
          end := Cancelled;
          return;
      }
    }
    end := Drained;
  }

  /** The same loop without an end at the result: what one thing taken hands on. */
  function PassOn<M, E>(t: Taken<M, E>): seq<Item<M, E>> {
    HandOn(t, false)
  }

  function Stream<M, E>(log: Log<M, E>): seq<Item<M, E>> {
    match log
    case Nothing => []
    case Then(before, t) => Stream(before) + PassOn(t)
  }

  /** ReceiveMessages. */
  method ReceiveMessages<M, E>(msgs: seq<M>, errs: seq<Option<E>>, schedule: seq<Pick>, wants: nat -> bool)
    returns (out: seq<Item<M, E>>, taken: nat, failed: nat, end: End, ghost log: Log<M, E>, ghost used: nat)
    ensures used <= |schedule| && log == Fired(schedule[..used], msgs, errs)
    ensures end == Waiting ==> used == |schedule|
    ensures end == ConsumerStopped ==> out != [] && !wants(|out|)
    ensures forall n :: 0 < n < |out| ==> wants(n)
    ensures end == Drained || end == Waiting ==> out == [] || wants(|out|)
    ensures taken <= |msgs| && Messages(log) == msgs[..taken]
    ensures failed <= |errs| && Errors(log) == errs[..failed]
    ensures out == Stream(log)
    ensures end == Drained ==> taken == |msgs| && failed == |errs|
    ensures end == Cancelled <==> CancelTaken(log)
  {
    out, taken, failed, log, used := [], 0, 0, Nothing, 0;
    var msgsClosed, errsClosed := false, false;
    var k := 0;
    while !msgsClosed || !errsClosed
      invariant taken <= |msgs| && Messages(log) == msgs[..taken]
      invariant failed <= |errs| && Errors(log) == errs[..failed]
      invariant out == Stream(log) && k <= |schedule|
      invariant msgsClosed ==> taken == |msgs|
      invariant errsClosed ==> failed == |errs|
      invariant !CancelTaken(log)
      invariant used == k && log == Fired(schedule[..k], msgs, errs)
      invariant forall n :: 0 < n <= |out| ==> wants(n)
      decreases |schedule| - k
    {
      if k == |schedule| {
        end := Waiting;
        return;
      }
      var pick := schedule[k];
      FiredOneMore(schedule, k, msgs, errs);
      FiredInOrder(schedule[..k + 1], msgs, errs);
      log := FiredNext(log, pick, msgs, errs);
      k, used := k + 1, used + 1;
      match pick {
        case PickMsgs =>
          if taken == |msgs| {
            msgsClosed := true;
            continue;
          }
          out := out + [Msg(msgs[taken])];
          taken := taken + 1;
          if !wants(|out|) {
            end := ConsumerStopped;
            return;
          }
        case PickErrs =>
          if failed == |errs| {
            errsClosed := true;
            continue;
          }
          var err := errs[failed];
          failed := failed + 1;
          if err.Some? {
            out := out + [Failure(err.value)];
            if !wants(|out|) {
              end := ConsumerStopped;
              return;
            }
          }
        case PickDone =>
          out := out + [ContextEnded];
          end := Cancelled;
          return;
      }
    }
    end := Drained;
  }

  // ---- what a consumer can rely on ----

  function ItemMessages<M, E>(out: seq<Item<M, E>>): seq<M> {
    if out == [] then []
    else ItemMessages(out[..|out| - 1]) + (if out[|out| - 1].Msg? then [out[|out| - 1].m] else [])
  }

  /** The number of messages up to and including the first result; all of them if there is none. */
  function ThroughResult<M>(msgs: seq<M>, isResult: M -> bool): (n: nat)
    ensures n <= |msgs|
  {
    if msgs == [] then 0
    else if isResult(msgs[0]) then 1
    else 1 + ThroughResult(msgs[1..], isResult)
  }

  lemma {:induction false} ThroughResultGrows<M>(msgs: seq<M>, m: M, isResult: M -> bool)
    ensures ThroughResult(msgs + [m], isResult) ==
      ThroughResult(msgs, isResult) + if HasResult(msgs, isResult) then 0 else 1
    ensures HasResult(msgs + [m], isResult) <==> HasResult(msgs, isResult) || isResult(m)
    ensures !HasResult(msgs, isResult) ==> ThroughResult(msgs, isResult) == |msgs|
  {
    var all := msgs + [m];
    assert all[|msgs|] == m;
    assert forall i :: 0 <= i < |msgs| ==> all[i] == msgs[i];
    if msgs != [] {
      assert all[1..] == msgs[1..] + [m];
      assert forall i :: 0 < i < |msgs| ==> msgs[i] == msgs[1..][i - 1];
      assert HasResult(msgs, isResult) <==> isResult(msgs[0]) || HasResult(msgs[1..], isResult);
      ThroughResultGrows(msgs[1..], m, isResult);
    }
  }

  predicate HasResult<M>(msgs: seq<M>, isResult: M -> bool) {
    exists i :: 0 <= i < |msgs| && isResult(msgs[i])
  }

  lemma ItemMessagesLast<M, E>(out: seq<Item<M, E>>, item: Item<M, E>)
    ensures ItemMessages(out + [item]) == ItemMessages(out) + (if item.Msg? then [item.m] else [])
  {
    assert (out + [item])[..|out|] == out;
  }

  /** On every interleaving the messages handed on are, in order, those taken up to and including the
      first result. */
  lemma {:induction false} MessagesThroughResult<M, E>(log: Log<M, E>, isResult: M -> bool)
    ensures ItemMessages(Response(log, isResult)) == Messages(log)[..ThroughResult(Messages(log), isResult)]
    ensures ResultTaken(log, isResult) <==> HasResult(Messages(log), isResult)
  {
    if log.Then? {
      var before, t := log.before, log.last;
      var out, ms := Response(before, isResult), Messages(before);
      MessagesThroughResult(before, isResult);
      assert out + [] == out;
      match t
      case TookMsg(m) =>
        ThroughResultGrows(ms, m, isResult);
        ItemMessagesLast(out, Msg(m));
        if ResultTaken(before, isResult) {
          assert (ms + [m])[..ThroughResult(ms, isResult)] == ms[..ThroughResult(ms, isResult)];
        } else {
          assert ms[..|ms|] == ms && (ms + [m])[..|ms| + 1] == ms + [m];
        }
      case TookErr(e) =>
        if e.Some? {
          ItemMessagesLast(out, Failure(e.value));
        }
      case TookCancel =>
        ItemMessagesLast(out, ContextEnded);
    }
  }

  /** ReceiveMessages hands on every message taken. */
  lemma {:induction false} StreamedMessages<M, E>(log: Log<M, E>)
    ensures ItemMessages(Stream(log)) == Messages(log)
  {
    if log.Then? {
      var out := Stream(log.before);
      StreamedMessages(log.before);
      assert out + [] == out;
      match log.last
      case TookMsg(m) => ItemMessagesLast(out, Msg(m));
      case TookErr(e) =>
        if e.Some? {
          ItemMessagesLast(out, Failure(e.value));
        }
      case TookCancel => ItemMessagesLast(out, ContextEnded);
    }
  }

  /** Nothing follows a result except the context's end. */
  lemma {:induction false} OnlyCancellationAfterResult<M, E>(log: Log<M, E>, isResult: M -> bool, i: nat, j: nat)
    requires i < j < |Response(log, isResult)|
    requires Response(log, isResult)[i].Msg? && isResult(Response(log, isResult)[i].m)
    ensures Response(log, isResult)[j] == ContextEnded
  {
    if j < |Response(log.before, isResult)| {
      OnlyCancellationAfterResult(log.before, isResult, i, j);
    } else {
      HandedResultWasTaken(log.before, isResult, i);
    }
  }

  lemma {:induction false} HandedResultWasTaken<M, E>(log: Log<M, E>, isResult: M -> bool, i: nat)
    requires i < |Response(log, isResult)|
    requires Response(log, isResult)[i].Msg? && isResult(Response(log, isResult)[i].m)
    ensures ResultTaken(log, isResult)
  {
    if i < |Response(log.before, isResult)| {
      HandedResultWasTaken(log.before, isResult, i);
    }
  }

  /** A response that ends with its only result is handed on whole once both channels are drained. */
  lemma DrainedResponseIsWhole<M, E>(log: Log<M, E>, msgs: seq<M>, isResult: M -> bool)
    requires Messages(log) == msgs
    requires forall i :: 0 <= i < |msgs| - 1 ==> !isResult(msgs[i])
    ensures ItemMessages(Response(log, isResult)) == msgs
  {
    MessagesThroughResult(log, isResult);
    if msgs != [] {
      var n := |msgs| - 1;
      assert msgs == msgs[..n] + [msgs[n]];
      assert !HasResult(msgs[..n], isResult);
      ThroughResultGrows(msgs[..n], msgs[n], isResult);
    }
  }

  // ---- errors on their way to the consumer ----

  function ItemFailures<M, E>(out: seq<Item<M, E>>): seq<E> {
    if out == [] then []
    else ItemFailures(out[..|out| - 1]) + if out[|out| - 1].Failure? then [out[|out| - 1].e] else []
  }

  /** The errors that are there. */
  function Present<E>(errs: seq<Option<E>>): seq<E> {
    if errs == [] then []
    else Present(errs[..|errs| - 1]) + if errs[|errs| - 1].Some? then [errs[|errs| - 1].value] else []
  }

  /** What was taken up to and including the first result. */
  function UntilResult<M, E>(log: Log<M, E>, isResult: M -> bool): Log<M, E> {
    if log.Then? && ResultTaken(log.before, isResult) then UntilResult(log.before, isResult) else log
  }

  /** Messages and errors that are there, in the order they were taken. */
  function Items<M, E>(log: Log<M, E>): seq<Item<M, E>> {
    match log
    case Nothing => []
    case Then(before, TookMsg(m)) => Items(before) + [Msg(m)]
    case Then(before, TookErr(Some(e))) => Items(before) + [Failure(e)]
    case Then(before, _) => Items(before)
  }

  /** Without the context's end. */
  function Delivered<M, E>(out: seq<Item<M, E>>): seq<Item<M, E>> {
    if out == [] then []
    else Delivered(out[..|out| - 1]) + if out[|out| - 1].ContextEnded? then [] else [out[|out| - 1]]
  }

  lemma DeliveredLast<M, E>(out: seq<Item<M, E>>, item: Item<M, E>)
    ensures Delivered(out + [item]) == Delivered(out) + if item.ContextEnded? then [] else [item]
  {
    assert (out + [item])[..|out|] == out;
  }

  lemma ItemFailuresLast<M, E>(out: seq<Item<M, E>>, item: Item<M, E>)
    ensures ItemFailures(out + [item]) == ItemFailures(out) + if item.Failure? then [item.e] else []
  {
    assert (out + [item])[..|out|] == out;
  }

  lemma PresentLast<E>(errs: seq<Option<E>>, e: Option<E>)
    ensures Present(errs + [e]) == if e.Some? then Present(errs) + [e.value] else Present(errs)
  {
    assert (errs + [e])[..|errs|] == errs;
    assert Present(errs) + [] == Present(errs);
  }

  lemma {:induction false} FailuresInItems<M, E>(log: Log<M, E>)
    ensures ItemFailures(Items(log)) == Present(Errors(log))
  {
    if log.Then? {
      var before := Items(log.before);
      FailuresInItems(log.before);
      match log.last {
        case TookMsg(m) => ItemFailuresLast(before, Msg(m));
        case TookErr(Some(e)) =>
          ItemFailuresLast(before, Failure(e));
          PresentLast(Errors(log.before), Some(e));
        case TookErr(None) => PresentLast(Errors(log.before), None);
        case TookCancel =>
      }
    }
  }

  lemma {:induction false} FailuresDelivered<M, E>(out: seq<Item<M, E>>)
    ensures ItemFailures(Delivered(out)) == ItemFailures(out)
  {
    if out != [] {
      var n := |out| - 1;
      FailuresDelivered(out[..n]);
      if out[n].ContextEnded? {
        assert Delivered(out[..n]) + [] == Delivered(out[..n]);
        assert ItemFailures(out[..n]) + [] == ItemFailures(out[..n]);
      } else {
        ItemFailuresLast(Delivered(out[..n]), out[n]);
      }
    }
  }

  /** ReceiveResponse hands on, in the order they were taken, the messages through the first result and the
      errors that are there taken before it; and nothing else but the context's end. */
  lemma {:induction false} ResponseInOrder<M, E>(log: Log<M, E>, isResult: M -> bool)
    ensures Delivered(Response(log, isResult)) == Items(UntilResult(log, isResult))
    ensures ItemFailures(Response(log, isResult)) == Present(Errors(UntilResult(log, isResult)))
  {
    ResponseItems(log, isResult);
    FailuresDelivered(Response(log, isResult));
    FailuresInItems(UntilResult(log, isResult));
  }

  lemma {:induction false} ResponseItems<M, E>(log: Log<M, E>, isResult: M -> bool)
    ensures Delivered(Response(log, isResult)) == Items(UntilResult(log, isResult))
  {
    if log.Then? {
      var out := Response(log.before, isResult);
      ResponseItems(log.before, isResult);
      if !ResultTaken(log.before, isResult) {
        NoResultYet(log.before, isResult);
      }
      assert out + [] == out;
      match log.last
      case TookMsg(m) => DeliveredLast(out, Msg(m));
      case TookErr(e) =>
        if e.Some? {
          DeliveredLast(out, Failure(e.value));
        }
      case TookCancel => DeliveredLast(out, ContextEnded);
    }
  }

  lemma NoResultYet<M, E>(log: Log<M, E>, isResult: M -> bool)
    requires !ResultTaken(log, isResult)
    ensures UntilResult(log, isResult) == log
  {
  }

  /** ReceiveMessages hands on every message and every error that is there, in the order they were taken. */
  lemma {:induction false} StreamInOrder<M, E>(log: Log<M, E>)
    ensures Delivered(Stream(log)) == Items(log)
    ensures ItemFailures(Stream(log)) == Present(Errors(log))
  {
    StreamItems(log);
    FailuresDelivered(Stream(log));
    FailuresInItems(log);
  }

  lemma {:induction false} StreamItems<M, E>(log: Log<M, E>)
    ensures Delivered(Stream(log)) == Items(log)
  {
    if log.Then? {
      var out := Stream(log.before);
      StreamItems(log.before);
      assert out + [] == out;
      match log.last
      case TookMsg(m) => DeliveredLast(out, Msg(m));
      case TookErr(e) =>
        if e.Some? {
          DeliveredLast(out, Failure(e.value));
        }
      case TookCancel => DeliveredLast(out, ContextEnded);
    }
  }

  /** The context's end is handed on as often as it was taken. */
  function Endings<M, E>(out: seq<Item<M, E>>): nat {
    if out == [] then 0 else Endings(out[..|out| - 1]) + if out[|out| - 1].ContextEnded? then 1 else 0
  }

  lemma EndingsLast<M, E>(out: seq<Item<M, E>>, more: seq<Item<M, E>>)
    requires |more| <= 1
    ensures Endings(out + more) == Endings(out) + if more != [] && more[0].ContextEnded? then 1 else 0
  {
    if more == [] {
      assert out + more == out;
    } else {
      assert (out + more)[..|out|] == out;
    }
  }

  /** A cancellation that was taken is told, and none else. */
  lemma {:induction false} CancellationIsTold<M, E>(log: Log<M, E>, isResult: M -> bool)
    ensures CancelTaken(log) <==> Endings(Response(log, isResult)) > 0
  {
    match log
    case Nothing =>
    case Then(before, t) =>
      CancellationIsTold(before, isResult);
      EndingsLast(Response(before, isResult), HandOn(t, ResultTaken(before, isResult)));
  }

  lemma {:induction false} StreamedCancellationIsTold<M, E>(log: Log<M, E>)
    ensures CancelTaken(log) <==> Endings(Stream(log)) > 0
  {
    match log
    case Nothing =>
    case Then(before, t) =>
      StreamedCancellationIsTold(before);
      EndingsLast(Stream(before), PassOn(t));
  }
}
