/** Checkpoints over the whole life of a store: they are new when taken, never change, and a rewind
    brings back exactly the messages they were taken of. */
module Checkpoints {
  import opened Basics
  import opened Decimal
  import opened History
  import opened SessionStore
  import opened RunnerModel
  import opened RunnerProtocol
  import opened RunnerEffects
  import opened RunnerHistories
  import opened Reachable
  import Policy
  import RunnerGuarantees
  import RunnerTheorems
  import RunnerTools

  predicate Holds(sv: Service, id: string, key: string, messages: seq<Entry>) {
    id in sv.store.sessions && key in sv.store.sessions[id].checkpoints &&
      sv.store.sessions[id].checkpoints[key] == messages
  }

  /** A fork of another session that comes to bear this id replaces the session. */
  predicate Replaces(sv: Service, a: Action, id: string) {
    a.Fork? && NextForkId(sv.store, a.base) == id && a.base in sv.store.sessions
  }

  predicate NeverReplaces(sv: Service, actions: seq<Action>, id: string)
    decreases |actions|
  {
    actions == [] || (!Replaces(sv, actions[0], id) && NeverReplaces(Next(sv, actions[0]), actions[1..], id))
  }

  // ---- a snapshot is new ----

  /** What an operation of a run does to its session, and what it says. */
  predicate RunOp(v: SessionState, there: bool, id: string, op: Op) {
    match op
    case Open(x) => x == id
    case Bump(x) => x == id && there
    case SetState(x, _, turns) => x == id && there && turns == v.userTurns
    case TakeSnapshot(x, key) => x == id && there && key == UserKey(id, v.userTurns) && key !in v.checkpoints
    case TakeFiles(x, key, _) => x == id && there && key == UserKey(id, v.userTurns)
    case _ => false
  }

  lemma RunOpIs(v: SessionState, there: bool, s: Setup, stage: Stage, b: Book, op: Op, next: Monitor)
    requires Agrees(v, there, s, stage, b) && StoreEffect(s, stage, b, op, next)
    ensures RunOp(v, there, s.id, op)
  {
    UserKeyNumber(s.id, b.userTurns);
  }

  /** One operation of one run in the whole store. */
  lemma RunOperates(sv: Service, id: string, op: Op)
    requires WellKept(sv) && Can(sv, RunOn(id, Store(op)))
    ensures var ss := sv.store.sessions;
      && RunOp(SessionAt(ss, id), id in ss, id, op)
      && Next(sv, RunOn(id, Store(op))).store == sv.store.(sessions := ss[id := Touched(SessionAt(ss, id), op)])
      && (op.SetState? ==> op.messages == HistoryAt(sv.runs[id].setup, sv.runs[id].trace))
  {
    var live := sv.runs[id];
    var stage, b, next := Stepped(live.setup, live.trace, Store(op));
    TouchesOneSession(sv.store, live.setup, stage, b, op, next);
    RunOpIs(SessionAt(sv.store.sessions, id), id in sv.store.sessions, live.setup, stage, b, op, next);
    HistoriesTellTheTruth(live.setup, live.trace);
  }

  /** The snapshot a run takes has a key no checkpoint of the session bears, and holds the session's
      messages. They are the history as it stood just behind the user message if and only if nothing has
      changed them since the run stored it. */
  lemma SnapshotIsNew(sv: Service, id: string, op: Op)
    requires WellKept(sv) && Can(sv, RunOn(id, Store(op))) && op.TakeSnapshot?
    ensures id in sv.store.sessions && op == TakeSnapshot(id, UserKey(id, sv.store.sessions[id].userTurns))
    ensures op.key !in sv.store.sessions[id].checkpoints
    ensures Holds(Next(sv, RunOn(id, Store(op))), id, op.key, sv.store.sessions[id].messages)
    ensures var history := HistoryAt(sv.runs[id].setup, sv.runs[id].trace);
      Holds(Next(sv, RunOn(id, Store(op))), id, op.key, history) <==> sv.store.sessions[id].messages == history
  {
    RunOperates(sv, id, op);
  }

  /** What others do while the run of this session stands still: anything. */
  predicate Waits(a: Action, id: string) {
    a.RunOn? || a.EndRun? ==> a.id != id
  }

  predicate AllWait(actions: seq<Action>, id: string) {
    forall i :: 0 <= i < |actions| ==> Waits(actions[i], id)
  }

  /** The messages an action rewinds the session to, if it does. */
  function RewoundBy(sv: Service, a: Action, id: string): Option<seq<Entry>> {
    if a.Rewind? && a.id == id && id in sv.store.sessions && a.key in sv.store.sessions[id].checkpoints then
      Some(sv.store.sessions[id].checkpoints[a.key])
    else None
  }

  /** The messages the last rewind of the session to a checkpoint it has brings back; None without one. */
  function LastRewind(sv: Service, actions: seq<Action>, id: string): Option<seq<Entry>>
    decreases |actions|
  {
    if actions == [] then None
    else match LastRewind(Next(sv, actions[0]), actions[1..], id)
         case Some(messages) => Some(messages)
         case None => RewoundBy(sv, actions[0], id)
  }

  /** What a run has done so far does not change when it is told of a change from outside. */
  lemma ToldHistory(live: Live, change: Change)
    ensures HistoryAt(live.setup, Told(live, change).trace) == HistoryAt(live.setup, live.trace)
  {
  }

  /** An event of another run leaves the session alone; its run is at most told of a grant. */
  lemma OtherRunLeaves(sv: Service, other: string, e: Event, id: string)
    requires WellKept(sv) && Can(sv, RunOn(other, e)) && other != id && id in sv.runs && id in sv.store.sessions
    ensures var later := Next(sv, RunOn(other, e));
      && id in later.store.sessions && later.store.sessions[id] == sv.store.sessions[id] && id in later.runs
      && later.runs[id].setup == sv.runs[id].setup
      && HistoryAt(later.runs[id].setup, later.runs[id].trace) == HistoryAt(sv.runs[id].setup, sv.runs[id].trace)
  {
    match e {
      case Store(op) => RunOperates(sv, other, op);
      case Granted(updates) => ToldHistory(sv.runs[id], ToPolicy(Policy.NewUpdates(updates)));
      case _ =>
    }
  }

  lemma RewoundOne(sv: Service, other: string, key: string, id: string)
    requires id in sv.store.sessions
    ensures var ss := Next(sv, Rewind(other, key)).store.sessions;
      id in ss && ss[id].messages == GetOr(RewoundBy(sv, Rewind(other, key), id), sv.store.sessions[id].messages)
  {
  }

  /** A run that waits keeps its history; the messages of its session change only with a rewind. */
  lemma WaitingOne(sv: Service, a: Action, id: string)
    requires WellKept(sv) && Can(sv, a) && Waits(a, id) && id in sv.runs && id in sv.store.sessions
    ensures var later := Next(sv, a);
      && id in later.store.sessions && id in later.runs
      && later.store.sessions[id].messages == GetOr(RewoundBy(sv, a, id), sv.store.sessions[id].messages)
      && later.runs[id].setup == sv.runs[id].setup
      && HistoryAt(later.runs[id].setup, later.runs[id].trace) == HistoryAt(sv.runs[id].setup, sv.runs[id].trace)
  {
    match a {
      case RunOn(other, e) => OtherRunLeaves(sv, other, e, id);
      case Fork(base) => ForkGives(sv, base, id);
      case Control(change) => ToldHistory(sv.runs[id], change);
      case Rewind(other, key) => RewoundOne(sv, other, key, id);
      case _ =>
    }
  }

  lemma {:induction false} Waiting(sv: Service, actions: seq<Action>, id: string)
    requires WellKept(sv) && CanAll(sv, actions) && AllWait(actions, id) && id in sv.runs && id in sv.store.sessions
    ensures var later := NextAll(sv, actions);
      && WellKept(later) && id in later.store.sessions && id in later.runs
      && later.store.sessions[id].messages == GetOr(LastRewind(sv, actions, id), sv.store.sessions[id].messages)
      && HistoryAt(later.runs[id].setup, later.runs[id].trace) == HistoryAt(sv.runs[id].setup, sv.runs[id].trace)
    decreases |actions|
  {
    if actions != [] {
      assert Waits(actions[0], id);
      assert forall i :: 0 <= i < |actions| - 1 ==> actions[1..][i] == actions[i + 1];
      WaitingOne(sv, actions[0], id);
      ActionSound(sv, actions[0]);
      Waiting(Next(sv, actions[0]), actions[1..], id);
    }
  }

  lemma StoredNow(sv: Service, id: string, op: Op)
    requires WellKept(sv) && Can(sv, RunOn(id, Store(op))) && op.SetState?
    ensures op.messages == HistoryAt(sv.runs[id].setup, sv.runs[id].trace)
    ensures var stored := Next(sv, RunOn(id, Store(op)));
      WellKept(stored) && id in stored.runs && id in stored.store.sessions &&
        stored.store.sessions[id].messages == op.messages
      && HistoryAt(stored.runs[id].setup, stored.runs[id].trace) == op.messages
  {
    RunOperates(sv, id, op);
    ActionSound(sv, RunOn(id, Store(op)));
  }

  /** A run stores its history; then anything may happen while it waits; then it takes the snapshot. That
      holds the history just stored, which is still the run's, exactly if the last rewind of the session in
      between, if there was one, went to a checkpoint with the same messages. */
  lemma SnapshotHoldsHistoryIff(sv: Service, id: string, op: Op, actions: seq<Action>, snapshot: Op)
    requires WellKept(sv) && Can(sv, RunOn(id, Store(op))) && op.SetState?
    requires var stored := Next(sv, RunOn(id, Store(op))); CanAll(stored, actions) && AllWait(actions, id)
    requires snapshot.TakeSnapshot? && Can(NextAll(Next(sv, RunOn(id, Store(op))), actions), RunOn(id, Store(snapshot)))
    ensures var stored := Next(sv, RunOn(id, Store(op)));
      var later, last := NextAll(stored, actions), LastRewind(stored, actions, id);
      && op.messages == HistoryAt(sv.runs[id].setup, sv.runs[id].trace)
      && id in later.runs && op.messages == HistoryAt(later.runs[id].setup, later.runs[id].trace)
      && (Holds(Next(later, RunOn(id, Store(snapshot))), id, snapshot.key, op.messages) <==>
          last == None || last == Some(op.messages))
  {
    var stored := Next(sv, RunOn(id, Store(op)));
    StoredNow(sv, id, op);
    Waiting(stored, actions, id);
    SnapshotIsNew(NextAll(stored, actions), id, snapshot);
  }

  /** A rewind to a checkpoint with other messages, after the history has been stored and before the
      snapshot is taken: it is possible, and the snapshot then holds the other messages, and not the
      history behind its user message. */
  lemma RewindSpoilsSnapshot(sv: Service, id: string, op: Op, key: string, other: seq<Entry>)
    requires WellKept(sv) && Can(sv, RunOn(id, Store(op))) && op.TakeSnapshot?
    requires Holds(sv, id, key, other) && other != HistoryAt(sv.runs[id].setup, sv.runs[id].trace)
    ensures var rewound := Next(sv, Rewind(id, key));
      && Can(sv, Rewind(id, key)) && Can(rewound, RunOn(id, Store(op)))
      && Holds(Next(rewound, RunOn(id, Store(op))), id, op.key, other)
      && !Holds(Next(rewound, RunOn(id, Store(op))), id, op.key, HistoryAt(sv.runs[id].setup, sv.runs[id].trace))
  {
    ActionSound(sv, Rewind(id, key));
    SnapshotIsNew(Next(sv, Rewind(id, key)), id, op);
  }

  lemma {:induction false} HeardShape(s: Setup, tr: Trace)
    requires Accepted(s, tr) && Watch(s, tr).stage.Heard?
    ensures Own(tr).Then? && TakesInput(Own(tr).last)
  {
    var stage, b, next := Stepped(s, tr.before, tr.last);
    if tr.last.Outside? {
      HeardShape(s, tr.before);
    }
  }

  lemma {:induction false} SavedShape(s: Setup, tr: Trace)
    requires Accepted(s, tr) && Watch(s, tr).stage.Saved?
    ensures Own(tr).Then? && Own(tr).last.Store? && Accepted(s, Own(tr).before) && Watch(s, Own(tr).before).stage.Heard?
    ensures HistoryAt(s, tr) == HistoryAt(s, Own(tr).before) && InputsTaken(tr) == InputsTaken(Own(tr).before)
  {
    var stage, b, next := Stepped(s, tr.before, tr.last);
    if tr.last.Outside? {
      SavedShape(s, tr.before);
    }
  }

  lemma {:induction false} HeardEndsWithInput(s: Setup, tr: Trace)
    requires Accepted(s, tr) && Watch(s, tr).stage.Heard?
    ensures var h, n := HistoryAt(s, tr), InputsTaken(tr);
      0 < n <= |s.inputs| && h != [] && h[|h| - 1] == Input(RoleOf(s.inputs[n - 1]), s.inputs[n - 1].content)
  {
    var stage, b, next := Stepped(s, tr.before, tr.last);
    if tr.last.Outside? {
      HeardEndsWithInput(s, tr.before);
    } else {
      HeardShape(s, tr);
      HistoriesTellTheTruth(s, tr.before);
      HistoriesTellTheTruth(s, tr);
      SoundThroughout(s, tr);
    }
  }

  /** The history a snapshot is taken behind ends with the user message. */
  lemma SnapshotEndsWithInput(s: Setup, tr: Trace, op: Op)
    requires Accepted(s, Then(tr, Store(op))) && op.TakeSnapshot?
    ensures var h, n := HistoryAt(s, tr), InputsTaken(tr);
      0 < n <= |s.inputs| && h != [] && h[|h| - 1] == Input(RoleOf(s.inputs[n - 1]), s.inputs[n - 1].content)
  {
    var stage, b, next := Stepped(s, tr, Store(op));
    SavedShape(s, tr);
    HeardEndsWithInput(s, Own(tr).before);
  }

  // ---- checkpoints stay ----

  lemma RunKeepsCheckpoint(sv: Service, id: string, e: Event, other: string, key: string)
    requires WellKept(sv) && Can(sv, RunOn(id, e))
    requires other in sv.store.sessions && key in sv.store.sessions[other].checkpoints
    ensures Holds(Next(sv, RunOn(id, e)), other, key, sv.store.sessions[other].checkpoints[key])
  {
    if e.Store? {
      RunOperates(sv, id, e.op);
    }
  }

  lemma ForkIsNotItsBase(sv: Service, base: string)
    ensures NextForkId(sv.store, base) != base
  {
    assert |NextForkId(sv.store, base)| > |base|;
  }

  /** What a fork does to any session. */
  lemma ForkGives(sv: Service, base: string, id: string)
    requires base != "" && id in sv.store.sessions
    ensures var now := Next(sv, Fork(base)).store.sessions;
      id in now && now[id] == sv.store.sessions[if Replaces(sv, Fork(base), id) then base else id]
  {
    ForkIsNotItsBase(sv, base);
  }

  /** No action changes or drops a checkpoint, except a fork that replaces the whole session by another
      one without it. */
  lemma CheckpointKeptIff(sv: Service, a: Action, id: string, key: string)
    requires WellKept(sv) && Can(sv, a)
    requires id in sv.store.sessions && key in sv.store.sessions[id].checkpoints
    ensures var was := sv.store.sessions[id].checkpoints[key];
      Holds(Next(sv, a), id, key, was) <==>
        (Replaces(sv, a, id) ==>
          key in sv.store.sessions[a.base].checkpoints && sv.store.sessions[a.base].checkpoints[key] == was)
  {
    match a {
      case RunOn(run, e) => RunKeepsCheckpoint(sv, run, e, id, key);
      case Fork(base) => ForkGives(sv, base, id);
      case _ => OthersKeepCheckpoint(sv, a, id, key);
    }
  }

  lemma OthersKeepCheckpoint(sv: Service, a: Action, id: string, key: string)
    requires !a.RunOn? && !a.Fork?
    requires id in sv.store.sessions && key in sv.store.sessions[id].checkpoints
    ensures Holds(Next(sv, a), id, key, sv.store.sessions[id].checkpoints[key])
  {
  }

  function TwoSessions(a: string, va: SessionState, b: string, vb: SessionState): Service {
    Service(State(map[a := va, b := vb], map[]), map[], Policy.EMPTY, "")
  }

  lemma TwoSessionsKept(a: string, va: SessionState, b: string, vb: SessionState)
    requires SessionSound(va) && SessionSound(vb)
    ensures WellKept(TwoSessions(a, va, b, vb))
  {
  }

  lemma TakenOnce(h: seq<Entry>, named: string, key: string)
    requires WellPaired(h) && key == UserKey(named, 1)
    ensures SessionSound(SessionState(h, 1, map[key := h], map[]))
  {
    UserKeyNumber(named, 1);
    OneKeySound(h, key);
  }

  lemma OneKeySound(h: seq<Entry>, key: string)
    requires WellPaired(h) && KeyNumber(key) <= 1
    ensures SessionSound(SessionState(h, 1, map[key := h], map[]))
  {
    var v := SessionState(h, 1, map[key := h], map[]);
    forall other | other in v.checkpoints
      ensures KeyNumber(other) <= 1 && WellPaired(v.checkpoints[other])
    {
      assert other == key;
    }
  }

  /** Such a fork: a session was opened under the name the next fork of another one gets. */
  lemma ForkCanReplace(base: string, named: string, key: string, h: seq<Entry>)
    requires base != "" && WellPaired(h) && named == NextForkId(State(map[], map[]), base) && key == UserKey(named, 1)
    ensures var sv := TwoSessions(base, NEW_SESSION, named, SessionState(h, 1, map[key := h], map[]));
      WellKept(sv) && Can(sv, Fork(base)) && Holds(sv, named, key, h) && !Holds(Next(sv, Fork(base)), named, key, h)
  {
    var taken := SessionState(h, 1, map[key := h], map[]);
    var sv := TwoSessions(base, NEW_SESSION, named, taken);
    NewSessionSound();
    TakenOnce(h, named, key);
    TwoSessionsKept(base, NEW_SESSION, named, taken);
    ForkIsNotItsBase(sv, base);
    ForkGives(sv, base, named);
  }

  lemma {:induction false} CheckpointStays(sv: Service, actions: seq<Action>, id: string, key: string, was: seq<Entry>)
    requires WellKept(sv) && CanAll(sv, actions) && NeverReplaces(sv, actions, id) && Holds(sv, id, key, was)
    ensures Holds(NextAll(sv, actions), id, key, was)
    decreases |actions|
  {
    if actions != [] {
      CheckpointKeptIff(sv, actions[0], id, key);
      ActionSound(sv, actions[0]);
      CheckpointStays(Next(sv, actions[0]), actions[1..], id, key, was);
    }
  }

  // ---- what follows ----

  lemma RewindGives(sv: Service, id: string, key: string, was: seq<Entry>)
    requires Holds(sv, id, key, was)
    ensures Next(sv, Rewind(id, key)).store
         == sv.store.(sessions := sv.store.sessions[id := sv.store.sessions[id].(messages := was)])
  {
  }

  /** A run takes a snapshot; then anything may happen to any session, forks onto this one excepted; then
      the session is rewound: its messages are exactly the ones it had when the snapshot was taken, its
      count of user turns and its checkpoints stay, and no other session is touched. */
  lemma RewindRestores(sv: Service, id: string, op: Op, actions: seq<Action>)
    requires WellKept(sv) && Can(sv, RunOn(id, Store(op))) && op.TakeSnapshot?
    requires var taken := Next(sv, RunOn(id, Store(op))); CanAll(taken, actions) && NeverReplaces(taken, actions, id)
    ensures var later := NextAll(Next(sv, RunOn(id, Store(op))), actions);
      && id in sv.store.sessions && id in later.store.sessions && Can(later, Rewind(id, op.key))
      && Next(later, Rewind(id, op.key)).store == later.store.(sessions := later.store.sessions[id :=
           later.store.sessions[id].(messages := sv.store.sessions[id].messages)])
  {
    var taken := Next(sv, RunOn(id, Store(op)));
    SnapshotIsNew(sv, id, op);
    ActionSound(sv, RunOn(id, Store(op)));
    CheckpointStays(taken, actions, id, op.key, sv.store.sessions[id].messages);
    RewindGives(NextAll(taken, actions), id, op.key, sv.store.sessions[id].messages);
  }

  /** No two snapshots of a session ever bear the same key. */
  lemma KeysAreNeverReused(sv: Service, id: string, op: Op, actions: seq<Action>, again: Op)
    requires WellKept(sv) && Can(sv, RunOn(id, Store(op))) && op.TakeSnapshot?
    requires var taken := Next(sv, RunOn(id, Store(op))); CanAll(taken, actions) && NeverReplaces(taken, actions, id)
    requires again.TakeSnapshot? && Can(NextAll(Next(sv, RunOn(id, Store(op))), actions), RunOn(id, Store(again)))
    ensures again.key != op.key
  {
    var taken := Next(sv, RunOn(id, Store(op)));
    SnapshotIsNew(sv, id, op);
    ActionSound(sv, RunOn(id, Store(op)));
    CheckpointStays(taken, actions, id, op.key, sv.store.sessions[id].messages);
    ReachableSound(taken, actions);
    SnapshotIsNew(NextAll(taken, actions), id, again);
  }

  /** The count of user turns goes up with every user message, whatever becomes of the run, and nothing
      takes it back, a rewind included. */
  lemma TurnCountNeverDrops(sv: Service, a: Action, id: string)
    requires WellKept(sv) && Can(sv, a) && id in sv.store.sessions && !Replaces(sv, a, id)
    ensures id in Next(sv, a).store.sessions
    ensures Next(sv, a).store.sessions[id].userTurns
         == sv.store.sessions[id].userTurns + if a == RunOn(id, Store(Bump(id))) then 1 else 0
  {
    match a {
      case RunOn(run, e) =>
        if e.Store? {
          RunOperates(sv, run, e.op);
        }
      case Fork(base) => ForkGives(sv, base, id);
      case _ =>
    }
  }

  // ---- real runs are such actions ----

  function Deed(id: string, e: Event): Action {
    if e.Outside? then Control(e.change) else RunOn(id, e)
  }

  function Doing(id: string, tr: Trace): seq<Action> {
    match tr
    case Begin => []
    case Then(before, e) => Doing(id, before) + [Deed(id, e)]
  }

  lemma {:induction false} OneMoreAction(sv: Service, actions: seq<Action>, a: Action)
    ensures CanAll(sv, actions + [a]) <==> CanAll(sv, actions) && Can(NextAll(sv, actions), a)
    ensures NextAll(sv, actions + [a]) == Next(NextAll(sv, actions), a)
    decreases |actions|
  {
    if actions == [] {
      assert actions + [a] == [a];
      assert [a][1..] == [];
    } else {
      assert (actions + [a])[1..] == actions[1..] + [a];
      OneMoreAction(Next(sv, actions[0]), actions[1..], a);
    }
  }

  lemma {:induction false} FreshIsIdle(store: State, s: Setup, tr: Trace)
    requires Accepted(s, tr) && Watch(s, tr).stage.Fresh?
    ensures StoreAfter(store, tr) == store
  {
    match tr
    case Begin =>
    case Then(before, e) =>
      var stage, b, next := Stepped(s, before, e);
      if e.Outside? {
        FreshIsIdle(store, s, before);
      }
  }

  /** One more event of a run, as an action. */
  lemma OneMoreDeed(now: Service, store: State, s: Setup, before: Trace, e: Event)
    requires s.id in now.runs && now.runs[s.id] == Live(s, before) && now.store == StoreAfter(store, before)
    requires Accepted(s, Then(before, e)) && (e.Store? && e.op.Open? ==> Finds(now, s))
    ensures Can(now, Deed(s.id, e))
    ensures var later := Next(now, Deed(s.id, e));
      && later.store == StoreAfter(store, Then(before, e))
      && later.runs.Keys == now.runs.Keys && later.runs[s.id] == Live(s, Then(before, e))
  {
  }

  /** Whatever a run does by the protocol it can do here, changes from outside being changes of what all
      runs share; and the store becomes what its operations make of it. With the theorem that every run
      obeys the protocol, this covers every run. */
  lemma {:induction false} RunsAreActions(sv: Service, s: Setup, tr: Trace)
    requires Can(sv, StartRun(s)) && Finds(sv, s) && Accepted(s, tr)
    ensures var begun := Next(sv, StartRun(s));
      && CanAll(begun, Doing(s.id, tr))
      && var later := NextAll(begun, Doing(s.id, tr));
        && later.store == StoreAfter(sv.store, tr)
        && later.runs.Keys == begun.runs.Keys && later.runs[s.id] == Live(s, tr)
  {
    match tr
    case Begin =>
    case Then(before, e) =>
      Took(s, before, e);
      RunsAreActions(sv, s, before);
      var begun := Next(sv, StartRun(s));
      var now := NextAll(begun, Doing(s.id, before));
      if e.Store? && e.op.Open? {
        OpensNow(sv.store, s, before, e.op);
      }
      OneMoreDeed(now, sv.store, s, before, e);
      OneMoreAction(begun, Doing(s.id, before), Deed(s.id, e));
  }

  lemma OpensNow(store: State, s: Setup, tr: Trace, op: Op)
    requires Accepted(s, Then(tr, Store(op))) && op.Open?
    ensures StoreAfter(store, tr) == store
  {
    var stage, b, next := Stepped(s, tr, Store(op));
    FreshIsIdle(store, s, tr);
  }

  lemma TraceLeavesStoreSound(sv: Service, s: Setup, tr: Trace)
    requires WellKept(sv) && Can(sv, StartRun(s)) && Finds(sv, s) && Accepted(s, tr)
    ensures forall id :: id in StoreAfter(sv.store, tr).sessions ==> SessionSound(StoreAfter(sv.store, tr).sessions[id])
  {
    RunsAreActions(sv, s, tr);
    ActionSound(sv, StartRun(s));
    ReachableSound(Next(sv, StartRun(s)), Doing(s.id, tr));
  }

  /** So a whole run, in any surroundings, leaves a store whose sessions are all as they should be. */
  lemma RunLeavesStoreSound(sv: Service, w: World, a: RunnerTheorems.Start)
    requires WellKept(sv) && Can(sv, StartRun(RunnerTheorems.SetupFrom(w, a)))
    requires Finds(sv, RunnerTheorems.SetupFrom(w, a))
    ensures var store := StoreAfter(sv.store, RunnerTheorems.RunFrom(w, a).trace);
      forall id :: id in store.sessions ==> SessionSound(store.sessions[id])
  {
    RunnerTheorems.AtAnyTime(w, a, RunnerTheorems.RunFrom(w, a).trace);
    TraceLeavesStoreSound(sv, RunnerTheorems.SetupFrom(w, a), RunnerTheorems.RunFrom(w, a).trace);
  }

  // ---- such a rewind can be reached ----

  function FirstInput(id: string, i: UserInput): Trace {
    var reply := HookReply([], None);
    var echoed := Then(Then(Then(Begin, Store(Open(id))), Store(Bump(id))), Emit(UserEcho(UserKey(id, 2), i.content)));
    Then(Then(echoed, Hooked(UserPromptSubmit, "", map[], reply)),
      Store(SetState(id, [Input(RoleOf(i), i.content)], 2)))
  }

  lemma FirstInputIsSaved(s: Setup, i: UserInput)
    requires s.inputs == [i] && s.messages == [] && s.userTurns == 1 && s.cfg.checkpointing && s.cfg.systemPrompt == ""
    requires !s.cfg.responsesMode
    ensures var m := Watch(s, FirstInput(s.id, i)); m.At? && m.stage == Saved && m.book.userTurns == 2
    ensures HistoryAt(s, FirstInput(s.id, i)) == [Input(RoleOf(i), i.content)]
  {
    var saved := FirstInput(s.id, i);
    var heard := saved.before;
    var echoed := heard.before;
    var bumped := echoed.before;
    var begun := bumped.before;
    var b := RunnerProtocol.Start(s).book;
    var b1 := b.(userTurns := 2);
    var b2 := b1.(taken := 1, history := [Input(RoleOf(i), i.content)]);
    Took(s, Begin, begun.last);
    assert Watch(s, begun) == At(Inputs, b);
    Took(s, begun, bumped.last);
    assert Watch(s, bumped) == At(Bumped, b1);
    Took(s, bumped, echoed.last);
    assert Watch(s, echoed) == At(Echoed, b1);
    Took(s, echoed, heard.last);
    assert [] + [Input(RoleOf(i), i.content)] == [Input(RoleOf(i), i.content)];
    assert Watch(s, heard) == At(Heard, b2);
    Took(s, heard, saved.last);
    HistoriesTellTheTruth(s, saved);
  }

  function OnceRewindable(id: string, s: Setup): Service {
    var found := SessionState([], 1, map[UserKey(id, 1) := []], map[]);
    Service(State(map[id := found], map[]), map[], s.policy, s.cfg.model)
  }

  lemma OnceRewindableKept(id: string, s: Setup)
    ensures WellKept(OnceRewindable(id, s))
  {
    UserKeyNumber(id, 1);
    assert WellPaired([]);
  }

  lemma FirstInputLeaves(id: string, i: UserInput, s: Setup)
    requires id != ""
    ensures var v := StoreAfter(OnceRewindable(id, s).store, FirstInput(id, i)).sessions;
      id in v && UserKey(id, 1) in v[id].checkpoints && v[id].checkpoints[UserKey(id, 1)] == []
  {
    var store, saved := OnceRewindable(id, s).store, FirstInput(id, i);
    var heard := saved.before;
    var bumped := heard.before.before;
    var found := store.sessions[id];
    assert StoreAfter(store, bumped.before) == store;
    assert StoreAfter(store, bumped).sessions[id] == found.(userTurns := 2);
    assert StoreAfter(store, heard) == StoreAfter(store, heard.before) == StoreAfter(store, bumped);
    assert StoreAfter(store, saved).sessions[id].checkpoints == found.checkpoints;
  }

  /** A session with an empty checkpoint, and a run of one input on it that has just stored its history. */
  lemma FirstInputIsReached(id: string, i: UserInput, s: Setup) returns (stored: Service)
    requires id != "" && s.id == id && s.inputs == [i] && RoleOf(i) != TOOL_ROLE && s.messages == [] && s.userTurns == 1
    requires s.cfg.checkpointing && s.cfg.systemPrompt == "" && !s.cfg.responsesMode
    ensures var begun := Next(OnceRewindable(id, s), StartRun(s));
      && WellKept(OnceRewindable(id, s)) && Can(OnceRewindable(id, s), StartRun(s))
      && CanAll(begun, Doing(id, FirstInput(id, i))) && stored == NextAll(begun, Doing(id, FirstInput(id, i)))
    ensures WellKept(stored) && id in stored.runs && stored.runs[id] == Live(s, FirstInput(id, i))
    ensures Holds(stored, id, UserKey(id, 1), [])
  {
    var sv := OnceRewindable(id, s);
    var begun := Next(sv, StartRun(s));
    OnceRewindableKept(id, s);
    FirstInputIsSaved(s, i);
    RunsAreActions(sv, s, FirstInput(id, i));
    ActionSound(sv, StartRun(s));
    ReachableSound(begun, Doing(id, FirstInput(id, i)));
    FirstInputLeaves(id, i, s);
    stored := NextAll(begun, Doing(id, FirstInput(id, i)));
  }

  lemma StartThenDo(sv: Service, s: Setup, deeds: seq<Action>)
    ensures CanAll(sv, [StartRun(s)] + deeds) <==> Can(sv, StartRun(s)) && CanAll(Next(sv, StartRun(s)), deeds)
    ensures NextAll(sv, [StartRun(s)] + deeds) == NextAll(Next(sv, StartRun(s)), deeds)
  {
    assert ([StartRun(s)] + deeds)[1..] == deeds;
  }

  /** With a run that has just stored its history, and a checkpoint that holds other messages. */
  lemma SpoiledWhenSaved(stored: Service, id: string, key: string, other: seq<Entry>)
    requires WellKept(stored) && id in stored.runs && Holds(stored, id, key, other)
    requires var live := stored.runs[id];
        Watch(live.setup, live.trace).At? && Watch(live.setup, live.trace).stage == Saved
    requires other != HistoryAt(stored.runs[id].setup, stored.runs[id].trace)
    ensures var live, rewound := stored.runs[id], Next(stored, Rewind(id, key));
      var snapshot := TakeSnapshot(id, UserKey(id, Watch(live.setup, live.trace).book.userTurns));
      && Can(stored, Rewind(id, key)) && Can(rewound, RunOn(id, Store(snapshot)))
      && Holds(Next(rewound, RunOn(id, Store(snapshot))), id, snapshot.key, other)
  {
    var live := stored.runs[id];
    var op := TakeSnapshot(id, UserKey(id, Watch(live.setup, live.trace).book.userTurns));
    Took(live.setup, live.trace, Store(op));
    RewindSpoilsSnapshot(stored, id, op, key, other);
  }

  /** Then the session is rewound to that checkpoint, and the snapshot behind the user message comes out
      empty: such runs and rewinds there are. */
  lemma SpoiledSnapshotIsReached(id: string, i: UserInput, s: Setup) returns (stored: Service)
    requires id != "" && s.id == id && s.inputs == [i] && RoleOf(i) != TOOL_ROLE && s.messages == [] && s.userTurns == 1
    requires s.cfg.checkpointing && s.cfg.systemPrompt == "" && !s.cfg.responsesMode
    ensures var sv, actions := OnceRewindable(id, s), [StartRun(s)] + Doing(id, FirstInput(id, i));
      WellKept(sv) && CanAll(sv, actions) && stored == NextAll(sv, actions)
    ensures id in stored.runs && HistoryAt(s, stored.runs[id].trace) == [Input(RoleOf(i), i.content)]
    ensures var rewound, snapshot := Next(stored, Rewind(id, UserKey(id, 1))), TakeSnapshot(id, UserKey(id, 2));
      && Can(stored, Rewind(id, UserKey(id, 1))) && Can(rewound, RunOn(id, Store(snapshot)))
      && Holds(Next(rewound, RunOn(id, Store(snapshot))), id, UserKey(id, 2), [])
  {
    stored := FirstInputIsReached(id, i, s);
    FirstInputIsSaved(s, i);
    StartThenDo(OnceRewindable(id, s), s, Doing(id, FirstInput(id, i)));
    SpoiledWhenSaved(stored, id, UserKey(id, 1), []);
  }

  // ---- what runs do in a service ----

  lemma {:induction false} UnopenedSendsNothing(s: Setup, tr: Trace)
    requires Accepted(s, tr) && !OpenedIn(tr)
    ensures RunnerTheorems.AllPaired(tr)
  {
    match tr
    case Begin =>
    case Then(before, e) =>
      var stage, b, next := Stepped(s, before, e);
      UnopenedIsFresh(s, before);
      UnopenedSendsNothing(s, before);
  }

  /** Whatever happens, in whatever order: every history any run has sent to a model or stored is well
      paired. */
  lemma EveryRequestIsPaired(sv: Service, actions: seq<Action>, id: string)
    requires WellKept(sv) && CanAll(sv, actions) && id in NextAll(sv, actions).runs
    ensures RunnerTheorems.AllPaired(NextAll(sv, actions).runs[id].trace)
  {
    ReachableSound(sv, actions);
    var live := NextAll(sv, actions).runs[id];
    assert RunSound(NextAll(sv, actions).store, id, live);
    if OpenedIn(live.trace) {
      HistoriesArePaired(live.setup, live.trace);
      RunnerTheorems.PairedWithoutTools(live.setup, live.trace);
    } else {
      UnopenedSendsNothing(live.setup, live.trace);
    }
  }

  /** Every look at the policy sees the one all runs share at that moment, whichever of them or of the
      client changed it last; and every turn asks the model they share. */
  lemma LooksSeeSharedPolicy(sv: Service, actions: seq<Action>, id: string, e: Event)
    requires WellKept(sv) && CanAll(sv, actions) && Can(NextAll(sv, actions), RunOn(id, e))
    ensures var now := NextAll(sv, actions);
      && (e.Checked? ==> e.denied == Policy.Denies(now.policy, e.name))
      && (e.Request? && !RunnerGuarantees.EndsInRequest(now.runs[id].trace) ==> e.model == PickModel(now.model))
  {
    var now := NextAll(sv, actions);
    ReachableSound(sv, actions);
    var live := now.runs[id];
    assert Shares(now, live);
    RunnerTools.PolicyIsObeyed(live.setup, Then(live.trace, e));
    RunnerGuarantees.RequestsAreBounded(live.setup, Then(live.trace, e));
  }
}
