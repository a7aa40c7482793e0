/** What the stream loop makes of its schedule: which events reach the consumer before an error does. */
module RunnerStreams {
  import opened Basics
  import opened Json
  import opened Folding
  import opened EventMapper
  import History
  import opened RunnerModel
  import opened RunnerGuarantees

  /** The event a round delivers, given that the stream is (or is not) still open. */
  function EventIn(r: Round, open: bool): Option<Fields> {
    if !open then None
    else if r.first.Got? then Some(r.first.raw)
    else if r.first.FoundEmpty? && r.second.TakeEvent? then Some(r.second.raw)
    else None
  }

  predicate OpenAfter(r: Round, open: bool) {
    open && (r.first.Got? || (r.first.FoundEmpty? && !r.second.TakeClosed?))
  }

  predicate StillOpen(rounds: seq<Round>) {
    rounds == [] || OpenAfter(rounds[|rounds| - 1], StillOpen(rounds[..|rounds| - 1]))
  }

  /** All events of a schedule, in order. */
  function Delivered(rounds: seq<Round>): seq<Fields> {
    if rounds == [] then []
    else
      var n := |rounds| - 1;
      var event := EventIn(rounds[n], StillOpen(rounds[..n]));
      Delivered(rounds[..n]) + if event.Some? then [event.value] else []
  }

  lemma ChunkKeepsEvents(w: World, cfg: Config, tr: Trace, t: Turn, ch: Chunk)
    ensures EventsAt(AddChunk(w, cfg, tr, t, ch).trace) == EventsAt(tr)
  {
  }

  lemma {:induction false} ChunksKeepEvents(w: World, cfg: Config, tr: Trace, t: Turn, chunks: seq<Chunk>)
    ensures EventsAt(AddChunks(w, cfg, tr, t, chunks).trace) == EventsAt(tr)
    decreases |chunks|
  {
    if chunks != [] {
      ChunkKeepsEvents(w, cfg, tr, t, chunks[0]);
      var p := AddChunk(w, cfg, tr, t, chunks[0]);
      if p.ok {
        ChunksKeepEvents(w, cfg, p.trace, p.turn, chunks[1..]);
      }
    }
  }

  lemma DigestKeepsEvents(w: World, cfg: Config, tr: Trace, t: Turn, raw: Fields)
    ensures EventsAt(Digest(w, cfg, tr, t, raw).trace) == EventsAt(tr)
  {
    if w.parse(raw).Ok? {
      ChunksKeepEvents(w, cfg, tr, Priced(t, raw), w.parse(raw).value);
    }
  }

  /** The i-th round takes this error while no event was to be had: the first poll had found the stream
      empty, or it was closed before. Every event of the rounds before it has reached the consumer. */
  predicate ErrorTakenAt(all: seq<Round>, i: nat, text: string, tr: Trace) {
    && i < |all| && all[i].second == TakeError(Some(text))
    && (StillOpen(all[..i]) ==> all[i].first.FoundEmpty?)
    && EventsAt(tr) == Delivered(all[..i])
  }

  /** The round breaks the loop off, if it has no event. */
  predicate BreaksOff(r: Round, streamOpen: bool, errorsOpen: bool) {
    && !(streamOpen && r.first.FoundClosed?)
    && (r.second.TakeDone? || (r.second.TakeError? && r.second.error.Some? && errorsOpen))
  }

  predicate ErrorsOpenAfter(r: Round, streamOpen: bool, errorsOpen: bool) {
    errorsOpen && !(r.second.TakeErrorsClosed? && !(streamOpen && r.first.FoundClosed?))
  }

  /** A round with no event: it breaks off, or the loop goes on. */
  lemma QuietRound(w: World, cfg: Config, rounds: seq<Round>, streamOpen: bool, errorsOpen: bool, tr: Trace, t: Turn,
                   emitted: bool)
    requires (streamOpen || errorsOpen) && rounds != [] && EventIn(rounds[0], streamOpen) == None
    ensures var s, r := Stream(w, cfg, rounds, streamOpen, errorsOpen, tr, t, emitted), rounds[0];
      if BreaksOff(r, streamOpen, errorsOpen) then
        && s == Broken(tr, t, s.failure, emitted)
        && s.failure == if r.second.TakeDone? then Cancelled else TransportFailed(r.second.error.value)
      else s == Stream(w, cfg, rounds[1..], OpenAfter(r, streamOpen), ErrorsOpenAfter(r, streamOpen, errorsOpen),
                       tr, t, emitted)
  {
  }

  /** A round with an event: it is sent on and folded in, unless the context is cancelled by then. */
  lemma EventRound(w: World, cfg: Config, rounds: seq<Round>, streamOpen: bool, errorsOpen: bool, tr: Trace, t: Turn,
                   emitted: bool)
    requires rounds != [] && EventIn(rounds[0], streamOpen).Some?
    ensures var s := Stream(w, cfg, rounds, streamOpen, errorsOpen, tr, t, emitted);
      var raw := EventIn(rounds[0], streamOpen).value;
      var p := Digest(w, cfg, Then(tr, Emit(StreamEvent(raw))), t, raw);
      s == if !w.sends(tr) then Broken(tr, t, Cancelled, emitted)
           else if !p.ok then Broken(p.trace, p.turn, Cancelled, true)
           else Stream(w, cfg, rounds[1..], true, errorsOpen, p.trace, p.turn, true)
    ensures EventsAt(Digest(w, cfg, Then(tr, Emit(StreamEvent(EventIn(rounds[0], streamOpen).value))), t,
                            EventIn(rounds[0], streamOpen).value).trace)
         == EventsAt(tr) + [EventIn(rounds[0], streamOpen).value]
    ensures OpenAfter(rounds[0], streamOpen)
  {
    var raw := EventIn(rounds[0], streamOpen).value;
    DigestKeepsEvents(w, cfg, Then(tr, Emit(StreamEvent(raw))), t, raw);
  }

  lemma RoundsOneMore(all: seq<Round>, done: nat)
    requires done < |all|
    ensures StillOpen(all[..done + 1]) == OpenAfter(all[done], StillOpen(all[..done]))
    ensures Delivered(all[..done + 1]) ==
      Delivered(all[..done]) + var e := EventIn(all[done], StillOpen(all[..done])); if e.Some? then [e.value] else []
    ensures all[done..][0] == all[done] && all[done..][1..] == all[done + 1..]
  {
    assert all[..done + 1][..done] == all[..done];
  }

  /** The loop in the middle of its schedule: done rounds are behind it. */
  lemma {:induction false} ErrorsComeBehindEvents(w: World, cfg: Config, all: seq<Round>, done: nat, streamOpen: bool,
                                                  errorsOpen: bool, tr: Trace, t: Turn, emitted: bool)
    requires done <= |all| && streamOpen == StillOpen(all[..done]) && EventsAt(tr) == Delivered(all[..done])
    ensures var r := Stream(w, cfg, all[done..], streamOpen, errorsOpen, tr, t, emitted);
      r.Broken? && r.failure.TransportFailed? ==> exists i: nat :: ErrorTakenAt(all, i, r.failure.text, r.trace)
    decreases |all| - done
  {
    if (streamOpen || errorsOpen) && done < |all| {
      var r := all[done];
      RoundsOneMore(all, done);
      var event := EventIn(r, streamOpen);
      if event.Some? {
        EventRound(w, cfg, all[done..], streamOpen, errorsOpen, tr, t, emitted);
        var p := Digest(w, cfg, Then(tr, Emit(StreamEvent(event.value))), t, event.value);
        if w.sends(tr) && p.ok {
          ErrorsComeBehindEvents(w, cfg, all, done + 1, true, errorsOpen, p.trace, p.turn, true);
        }
      } else {
        QuietRound(w, cfg, all[done..], streamOpen, errorsOpen, tr, t, emitted);
        if !BreaksOff(r, streamOpen, errorsOpen) {
          ErrorsComeBehindEvents(w, cfg, all, done + 1, OpenAfter(r, streamOpen),
                                 ErrorsOpenAfter(r, streamOpen, errorsOpen), tr, t, emitted);
        } else if r.second.TakeError? {
          assert ErrorTakenAt(all, done, r.second.error.value, tr);
        }
      }
    }
  }

  /** A closed stream delivers nothing more. */
  lemma {:induction false} ClosedDeliversNothing(all: seq<Round>, done: nat, n: nat)
    requires done <= n <= |all| && !StillOpen(all[..done])
    ensures !StillOpen(all[..n]) && Delivered(all[..n]) == Delivered(all[..done])
    decreases n - done
  {
    if done < n {
      ClosedDeliversNothing(all, done, n - 1);
      assert all[..n][..n - 1] == all[..n - 1];
    }
  }

  /** The events of a turn are those of some rounds of its schedule, from the first on. */
  predicate PassedOn(all: seq<Round>, k: nat, tr: Trace) {
    k <= |all| && EventsAt(tr) == Delivered(all[..k])
  }

  lemma {:induction false} EventsArePassedOn(w: World, cfg: Config, all: seq<Round>, done: nat, streamOpen: bool,
                                             errorsOpen: bool, tr: Trace, t: Turn, emitted: bool) returns (k: nat)
    requires PassedOn(all, done, tr) && streamOpen == StillOpen(all[..done])
    ensures var r := Stream(w, cfg, all[done..], streamOpen, errorsOpen, tr, t, emitted);
      PassedOn(all, k, r.trace) && (!r.Broken? ==> PassedOn(all, |all|, r.trace))
    decreases |all| - done
  {
    k := done;
    assert all[..|all|] == all;
    if !streamOpen {
      ClosedDeliversNothing(all, done, |all|);
    }
    if (streamOpen || errorsOpen) && done < |all| {
      var r := all[done];
      RoundsOneMore(all, done);
      var event := EventIn(r, streamOpen);
      if event.Some? {
        EventRound(w, cfg, all[done..], streamOpen, errorsOpen, tr, t, emitted);
        var p := Digest(w, cfg, Then(tr, Emit(StreamEvent(event.value))), t, event.value);
        if w.sends(tr) {
          k := done + 1;
          if p.ok {
            k := EventsArePassedOn(w, cfg, all, done + 1, true, errorsOpen, p.trace, p.turn, true);
          }
        }
      } else {
        QuietRound(w, cfg, all[done..], streamOpen, errorsOpen, tr, t, emitted);
        if !BreaksOff(r, streamOpen, errorsOpen) {
          k := EventsArePassedOn(w, cfg, all, done + 1, OpenAfter(r, streamOpen),
                                 ErrorsOpenAfter(r, streamOpen, errorsOpen), tr, t, emitted);
        }
      }
    }
  }

  /** The events of a request that reach the consumer, and the turn, are those its schedule delivers, in order
      and without a gap: all of them if the stream came to its end, and some from the first on if it was
      broken off. */
  lemma StreamsArePassedOn(w: World, cfg: Config, tr: Trace, model: string, history: seq<History.Entry>)
    ensures var r, all := RunStream(w, cfg, tr, model, history), w.rounds(Then(tr, Request(model, history)));
      && (exists k: nat :: PassedOn(all, k, r.trace))
      && (!r.Broken? ==> EventsAt(r.trace) == Delivered(all))
  {
    var tr1 := Then(tr, Request(model, history));
    var all := w.rounds(tr1);
    assert all[0..] == all && all[..0] == [] && all[..|all|] == all;
    var k := EventsArePassedOn(w, cfg, all, 0, true, true, tr1, BLANK_TURN, false);
    assert PassedOn(all, k, RunStream(w, cfg, tr, model, history).trace);
  }

  /** When a request fails with a transport error, whatever the schedule, all events that were to be had
      before the error was taken have been passed on and folded into the turn. */
  lemma TransportErrorsWait(w: World, cfg: Config, tr: Trace, model: string, history: seq<History.Entry>)
    ensures var r := RunStream(w, cfg, tr, model, history);
      r.Broken? && r.failure.TransportFailed? ==>
        exists i: nat :: ErrorTakenAt(w.rounds(Then(tr, Request(model, history))), i, r.failure.text, r.trace)
  {
    var tr1 := Then(tr, Request(model, history));
    var all := w.rounds(tr1);
    assert all[0..] == all && all[..0] == [];
    ErrorsComeBehindEvents(w, cfg, all, 0, true, true, tr1, BLANK_TURN, false);
  }
}
