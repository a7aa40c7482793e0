/** Runs, rewinds, forks and settings over one session store and one set of options, in any order: what
    holds of everything that can be reached. Runs on different sessions interleave event by event; a
    session belongs to one run at a time, but can be rewound at any time. */
module Reachable {
  import opened Basics
  import opened Decimal
  import opened History
  import opened FileTree
  import Policy
  import opened SessionStore
  import opened RunnerModel
  import opened RunnerProtocol
  import opened RunnerEffects
  import opened RunnerTools
  import opened RunnerHistories

  /** A run under way: what it started from and what it has done so far. */
  datatype Live = Live(setup: Setup, trace: Trace)

  /** The store, the runs under way, and the policy and the model all of them share. */
  datatype Service = Service(store: State, runs: map<string, Live>, policy: Policy.Policy, model: string)

  datatype Action =
    | StartRun(setup: Setup)
    | RunOn(id: string, event: Event)
    | EndRun(id: string)
    | Control(change: Change)
    | Rewind(id: string, key: string)
    | Fork(base: string)
    | Resume(id: string)

  /** When a run opens its session, it finds it as it is then. */
  predicate Finds(sv: Service, s: Setup) {
    var found := SessionAt(sv.store.sessions, s.id);
    s.messages == found.messages && s.userTurns == found.userTurns
  }

  /** A run starts with the shared options, and no input poses as a tool; a session in use is not replaced
      by a fork. Whatever a run does next obeys the protocol. Everything else may happen at any time. */
  ghost predicate Can(sv: Service, a: Action) {
    match a
    case StartRun(s) =>
      && s.id != "" && s.id !in sv.runs && s.policy == sv.policy && s.cfg.model == sv.model
      && NoToolRole(s.inputs, |s.inputs|)
    case RunOn(id, e) =>
      && id in sv.runs && !e.Outside? && Accepted(sv.runs[id].setup, Then(sv.runs[id].trace, e))
      && (e.Store? && e.op.Open? ==> Finds(sv, sv.runs[id].setup))
    case EndRun(id) => id in sv.runs
    case Control(_) => true
    case Rewind(_, _) => true
    case Fork(base) => base != "" && NextForkId(sv.store, base) !in sv.runs
    case Resume(_) => true
  }

  function Told(live: Live, change: Change): Live {
    live.(trace := Then(live.trace, Outside(change)))
  }

  /** Every run sees a change of what they share. */
  function TellAll(runs: map<string, Live>, change: Change): map<string, Live> {
    map id | id in runs :: Told(runs[id], change)
  }

  /** The updates one run is granted come to the others from outside. */
  function Next(sv: Service, a: Action): Service {
    match a
    case StartRun(s) => sv.(runs := sv.runs[s.id := Live(s, Begin)])
    case RunOn(id, e) => if id in sv.runs then AfterEvent(sv, id, e) else sv
    case EndRun(id) => sv.(runs := sv.runs - {id})
    case Control(change) =>
      match change {
        case ToPolicy(altered) => sv.(runs := TellAll(sv.runs, change), policy := Policy.Altered(sv.policy, altered))
        case ToModel(model) => sv.(runs := TellAll(sv.runs, change), model := model)
      }
    case Rewind(id, key) => sv.(store := Apply(sv.store, RewindTo(id, key)))
    case Fork(base) => sv.(store := ForkResult(sv.store, base))
    case Resume(id) => sv.(store := Apply(sv.store, Open(id)))
  }

  function AfterEvent(sv: Service, id: string, e: Event): Service
    requires id in sv.runs
  {
    var moved := sv.runs[id].(trace := Then(sv.runs[id].trace, e));
    match e
    case Store(op) => sv.(store := Apply(sv.store, op), runs := sv.runs[id := moved])
    case Granted(updates) =>
      sv.(runs := TellAll(sv.runs, ToPolicy(Policy.NewUpdates(updates)))[id := moved],
         policy := Policy.NextAll(sv.policy, updates))
    case _ => sv.(runs := sv.runs[id := moved])
  }

  function NextAll(sv: Service, actions: seq<Action>): Service
    decreases |actions|
  {
    if actions == [] then sv else NextAll(Next(sv, actions[0]), actions[1..])
  }

  ghost predicate CanAll(sv: Service, actions: seq<Action>)
    decreases |actions|
  {
    actions == [] || (Can(sv, actions[0]) && CanAll(Next(sv, actions[0]), actions[1..]))
  }

  // ---- what always holds ----

  /** The numbers of all checkpoints are at most n. */
  ghost predicate KeysUpTo(v: SessionState, n: nat) {
    && (forall key :: key in v.checkpoints ==> KeyNumber(key) <= n)
    && (forall key :: key in v.files ==> KeyNumber(key) <= n)
  }

  ghost predicate SessionSound(v: SessionState) {
    && WellPaired(v.messages)
    && (forall key :: key in v.checkpoints ==> WellPaired(v.checkpoints[key]))
    && KeysUpTo(v, v.userTurns)
  }

  /** A user message has been counted, and its checkpoint not yet been taken. */
  predicate AwaitsSnapshot(stage: Stage) {
    stage.Bumped? || stage.Echoed? || stage.Heard? || stage.Saved?
  }

  /** The run has opened its session. */
  predicate OpenedIn(tr: Trace) {
    match tr
    case Begin => false
    case Then(before, e) => OpenedIn(before) || (e.Store? && e.op.Open?)
  }

  /** A run and the session it works on agree. */
  ghost predicate RunSound(store: State, id: string, live: Live) {
    var s, m := live.setup, Watch(live.setup, live.trace);
    && s.id == id != "" && m.At? && (OpenedIn(live.trace) ==> WellPaired(s.messages)) &&
      NoToolRole(s.inputs, |s.inputs|)
    && Agrees(SessionAt(store.sessions, id), id in store.sessions, s, m.stage, m.book)
  }

  ghost predicate Agrees(v: SessionState, there: bool, s: Setup, stage: Stage, b: Book) {
    if stage.Fresh? then b.userTurns == s.userTurns
    else if stage.Stopping? || stage.Ended? then true
    else
      && there && v.userTurns == b.userTurns
      && (AwaitsSnapshot(stage) ==> b.userTurns > 0 && KeysUpTo(v, b.userTurns - 1))
  }

  /** All runs go by the policy and the model they share. */
  predicate Shares(sv: Service, live: Live) {
    && PolicyAt(live.setup.policy, live.trace) == sv.policy
    && ModelAt(live.setup.cfg.model, live.trace) == sv.model
  }

  ghost predicate WellKept(sv: Service) {
    && (forall id :: id in sv.store.sessions ==> SessionSound(sv.store.sessions[id]))
    && (forall id :: id in sv.runs ==> RunSound(sv.store, id, sv.runs[id]))
    && (forall id :: id in sv.runs ==> Shares(sv, sv.runs[id]))
  }

  // ---- one event of one run ----

  /** How a run stands towards its session changes with the store only. */
  predicate SameStanding(stage: Stage, b: Book, next: Monitor) {
    && next.At? && next.book.userTurns == b.userTurns && !next.stage.Fresh?
    && (AwaitsSnapshot(next.stage) ==> AwaitsSnapshot(stage))
    && (!next.stage.Stopping? && !next.stage.Ended? ==> !stage.Fresh? && !stage.Stopping? && !stage.Ended?)
  }

  lemma MessagesKeepStanding(s: Setup, stage: Stage, b: Book, m: RunnerModel.Message, next: Monitor)
    requires MessageEffect(s, stage, b, m, next)
    ensures SameStanding(stage, b, next)
  {
  }

  lemma HooksKeepStanding(s: Setup, stage: Stage, b: Book, e: Event, next: Monitor)
    requires e.Hooked? && HookEffect(s, stage, b, e, next)
    ensures SameStanding(stage, b, next)
  {
  }

  lemma OthersKeepStanding(s: Setup, stage: Stage, b: Book, e: Event, next: Monitor)
    requires Effect(s, stage, b, e, next) && (e.Fail? || e.Request? || e.Granted? || e.Checked? || e.Executed?)
    ensures SameStanding(stage, b, next)
  {
  }

  lemma AgreesElsewhere(v: SessionState, there: bool, s: Setup, stage: Stage, b: Book, e: Event, next: Monitor)
    requires Agrees(v, there, s, stage, b) && Effect(s, stage, b, e, next) && !e.Store? && !e.Outside?
    ensures next.At? && Agrees(v, there, s, next.stage, next.book)
  {
    match e {
      case Emit(m) => MessagesKeepStanding(s, stage, b, m, next);
      case Hooked(_, _, _, _) => HooksKeepStanding(s, stage, b, e, next);
      case _ => OthersKeepStanding(s, stage, b, e, next);
    }
  }

  /** What one operation of a run makes of its session. */
  function Touched(v: SessionState, op: Op): SessionState {
    match op
    case Bump(_) => v.(userTurns := v.userTurns + 1)
    case SetState(_, messages, turns) => v.(messages := messages, userTurns := turns)
    case TakeSnapshot(_, key) => v.(checkpoints := v.checkpoints[key := v.messages])
    case TakeFiles(_, key, files) => v.(files := v.files[key := files])
    case _ => v
  }

  lemma TouchesOneSession(store: State, s: Setup, stage: Stage, b: Book, op: Op, next: Monitor)
    requires s.id != "" && StoreEffect(s, stage, b, op, next)
    requires stage.Fresh? || s.id in store.sessions
    ensures Apply(store, op) == store.(sessions := store.sessions[s.id := Touched(SessionAt(store.sessions, s.id), op)])
  {
    assert |UserKey(s.id, b.userTurns)| > 0;
  }

  lemma CountSound(v: SessionState)
    requires SessionSound(v)
    ensures SessionSound(v.(userTurns := v.userTurns + 1)) && KeysUpTo(v.(userTurns := v.userTurns + 1), v.userTurns)
  {
  }

  lemma StateSound(v: SessionState, messages: seq<Entry>)
    requires SessionSound(v) && WellPaired(messages)
    ensures SessionSound(v.(messages := messages))
    ensures forall n: nat :: KeysUpTo(v, n) ==> KeysUpTo(v.(messages := messages), n)
  {
  }

  lemma SnapshotSound(v: SessionState, key: string, files: Snapshot)
    requires SessionSound(v) && KeyNumber(key) <= v.userTurns
    ensures SessionSound(v.(checkpoints := v.checkpoints[key := v.messages]))
    ensures SessionSound(v.(files := v.files[key := files]))
  {
  }

  lemma SoundByStore(v: SessionState, there: bool, s: Setup, stage: Stage, b: Book, op: Op, next: Monitor)
    requires Agrees(v, there, s, stage, b) && StoreEffect(s, stage, b, op, next)
    requires SessionSound(v) && (stage.Fresh? || WellPaired(b.history))
    ensures SessionSound(Touched(v, op))
  {
    match stage {
      case Inputs => CountSound(v);
      case Heard => StateSound(v, b.history);
      case Won => StateSound(v, b.history);
      case Saved =>
        UserKeyNumber(s.id, b.userTurns);
        SnapshotSound(v, op.key, map[]);
      case FilesDue =>
        UserKeyNumber(s.id, b.userTurns);
        SnapshotSound(v, op.key, op.files);
      case _ =>
    }
  }

  lemma AgreesByStore(v: SessionState, there: bool, s: Setup, stage: Stage, b: Book, op: Op, next: Monitor)
    requires Agrees(v, there, s, stage, b) && StoreEffect(s, stage, b, op, next)
    requires KeysUpTo(v, v.userTurns) && (op.Open? ==> v.userTurns == s.userTurns)
    ensures next.At? && Agrees(Touched(v, op), true, s, next.stage, next.book)
  {
  }

  // ---- every action ----

  lemma NewSessionSound()
    ensures SessionSound(NEW_SESSION)
  {
  }

  lemma FoundSound(sv: Service, id: string)
    requires WellKept(sv)
    ensures SessionSound(SessionAt(sv.store.sessions, id))
  {
    NewSessionSound();
  }

  /** A change to one session concerns the run on it only. */
  lemma OneSessionChanged(sv: Service, store: State, id: string, v: SessionState)
    requires WellKept(sv) && store.sessions == sv.store.sessions[id := v] && SessionSound(v)
    requires id in sv.runs ==> RunSound(store, id, sv.runs[id])
    ensures WellKept(sv.(store := store))
  {
    forall other | other in sv.runs
      ensures RunSound(store, other, sv.runs[other])
    {
      if other != id {
        assert SessionAt(store.sessions, other) == SessionAt(sv.store.sessions, other);
      }
    }
    assert forall other :: other in sv.runs ==> Shares(sv.(store := store), sv.runs[other]);
  }

  /** So does a step of a run. */
  lemma OneRunMoved(sv: Service, id: string, live: Live)
    requires WellKept(sv) && RunSound(sv.store, id, live) && Shares(sv, live)
    ensures WellKept(sv.(runs := sv.runs[id := live]))
  {
    assert forall other :: other in sv.runs ==> Shares(sv.(runs := sv.runs[id := live]), sv.runs[other]);
  }

  lemma {:induction false} UnopenedIsFresh(s: Setup, tr: Trace)
    requires Accepted(s, tr) && !OpenedIn(tr)
    ensures Watch(s, tr).stage.Fresh? || Watch(s, tr).stage.Ended?
  {
    match tr
    case Begin =>
    case Then(before, e) =>
      Took(s, before, e);
      UnopenedIsFresh(s, before);
  }

  lemma PairedNow(s: Setup, tr: Trace)
    requires Accepted(s, tr) && (OpenedIn(tr) ==> WellPaired(s.messages)) && NoToolRole(s.inputs, |s.inputs|)
    ensures Watch(s, tr).stage.Fresh? || Watch(s, tr).stage.Ended? || WellPaired(Watch(s, tr).book.history)
  {
    if OpenedIn(tr) {
      HistoriesArePaired(s, tr);
    } else {
      UnopenedIsFresh(s, tr);
    }
  }

  lemma ToldSound(store: State, id: string, live: Live, change: Change)
    requires RunSound(store, id, live)
    ensures RunSound(store, id, Told(live, change))
  {
    Took(live.setup, live.trace, Outside(change));
  }

  /** The same change for all. */
  lemma AllTold(sv: Service, change: Change, policy: Policy.Policy, model: string)
    requires WellKept(sv)
    requires policy == if change.ToPolicy? then Policy.Altered(sv.policy, change.change) else sv.policy
    requires model == if change.ToModel? then change.model else sv.model
    ensures WellKept(sv.(runs := TellAll(sv.runs, change), policy := policy, model := model))
  {
    var now := sv.(runs := TellAll(sv.runs, change), policy := policy, model := model);
    forall id | id in now.runs
      ensures RunSound(now.store, id, now.runs[id]) && Shares(now, now.runs[id])
    {
      ToldSound(sv.store, id, sv.runs[id], change);
    }
  }

  /** An event that does not touch the store leaves a run in agreement with its session. */
  lemma EventAgrees(sv: Service, id: string, e: Event)
    requires WellKept(sv) && Can(sv, RunOn(id, e)) && !e.Store?
    ensures RunSound(sv.store, id, sv.runs[id].(trace := Then(sv.runs[id].trace, e)))
  {
    var live := sv.runs[id];
    var stage, b, next := Stepped(live.setup, live.trace, e);
    AgreesElsewhere(SessionAt(sv.store.sessions, id), id in sv.store.sessions, live.setup, stage, b, e, next);
  }

  lemma EventSound(sv: Service, id: string, e: Event)
    requires WellKept(sv) && Can(sv, RunOn(id, e)) && !e.Store?
    ensures WellKept(Next(sv, RunOn(id, e)))
  {
    var moved := sv.runs[id].(trace := Then(sv.runs[id].trace, e));
    EventAgrees(sv, id, e);
    if e.Granted? {
      var change := ToPolicy(Policy.NewUpdates(e.updates));
      var policy := Policy.NextAll(sv.policy, e.updates);
      AllTold(sv, change, policy, sv.model);
      OneRunMoved(sv.(runs := TellAll(sv.runs, change), policy := policy), id, moved);
    } else {
      OneRunMoved(sv, id, moved);
    }
  }

  /** An operation on the store leaves the session sound and its run in agreement with it. */
  lemma StoreAgrees(sv: Service, id: string, op: Op)
    requires WellKept(sv) && Can(sv, RunOn(id, Store(op)))
    ensures var v := Touched(SessionAt(sv.store.sessions, id), op);
      && SessionSound(v) && Apply(sv.store, op) == sv.store.(sessions := sv.store.sessions[id := v])
      && RunSound(Apply(sv.store, op), id, sv.runs[id].(trace := Then(sv.runs[id].trace, Store(op))))
  {
    var live, found := sv.runs[id], SessionAt(sv.store.sessions, id);
    var s := live.setup;
    var stage, b, next := Stepped(s, live.trace, Store(op));
    PairedNow(s, live.trace);
    FoundSound(sv, id);
    TouchesOneSession(sv.store, s, stage, b, op, next);
    SoundByStore(found, id in sv.store.sessions, s, stage, b, op, next);
    AgreesByStore(found, id in sv.store.sessions, s, stage, b, op, next);
    OpenedSound(sv, s, live.trace, op);
  }

  /** What was found well paired is so, and is opened only once. */
  lemma OpenedSound(sv: Service, s: Setup, tr: Trace, op: Op)
    requires WellKept(sv) && (op.Open? ==> Finds(sv, s)) && (OpenedIn(tr) ==> WellPaired(s.messages))
    ensures OpenedIn(Then(tr, Store(op))) ==> WellPaired(s.messages)
  {
    FoundSound(sv, s.id);
  }

  lemma WithoutItsRun(sv: Service, id: string, op: Op)
    requires WellKept(sv) && Can(sv, RunOn(id, Store(op)))
    ensures WellKept(Service(Apply(sv.store, op), sv.runs - {id}, sv.policy, sv.model))
  {
    StoreAgrees(sv, id, op);
    EndSound(sv, id);
    OneSessionChanged(Next(sv, EndRun(id)), Apply(sv.store, op), id, Touched(SessionAt(sv.store.sessions, id), op));
  }

  lemma MovedAgrees(sv: Service, id: string, op: Op)
    requires WellKept(sv) && Can(sv, RunOn(id, Store(op)))
    ensures var moved := sv.runs[id].(trace := Then(sv.runs[id].trace, Store(op)));
      RunSound(Apply(sv.store, op), id, moved) && Shares(sv, moved)
  {
    StoreAgrees(sv, id, op);
  }

  lemma StoreStep(sv: Service, id: string, op: Op)
    requires id in sv.runs
    ensures var moved := sv.runs[id].(trace := Then(sv.runs[id].trace, Store(op)));
      Next(sv, RunOn(id, Store(op))) == Service(Apply(sv.store, op), (sv.runs - {id})[id := moved], sv.policy, sv.model)
  {
    var moved := sv.runs[id].(trace := Then(sv.runs[id].trace, Store(op)));
    assert sv.runs[id := moved] == (sv.runs - {id})[id := moved];
  }

  lemma StoreSound(sv: Service, id: string, op: Op)
    requires WellKept(sv) && Can(sv, RunOn(id, Store(op)))
    ensures WellKept(Next(sv, RunOn(id, Store(op))))
  {
    WithoutItsRun(sv, id, op);
    MovedAgrees(sv, id, op);
    StoreStep(sv, id, op);
    OneRunMoved(Service(Apply(sv.store, op), sv.runs - {id}, sv.policy, sv.model), id,
                sv.runs[id].(trace := Then(sv.runs[id].trace, Store(op))));
  }

  /** A rewind leaves count and checkpoints of a session alone, so a run on it is none the worse. */
  lemma RewindSound(sv: Service, id: string, key: string)
    requires WellKept(sv)
    ensures WellKept(Next(sv, Rewind(id, key)))
  {
    var ss := sv.store.sessions;
    if id in ss && key in ss[id].checkpoints {
      StateSound(ss[id], ss[id].checkpoints[key]);
      OneSessionChanged(sv, Next(sv, Rewind(id, key)).store, id, ss[id].(messages := ss[id].checkpoints[key]));
    }
  }

  lemma ForkSound(sv: Service, base: string)
    requires WellKept(sv) && Can(sv, Fork(base))
    ensures WellKept(Next(sv, Fork(base)))
  {
    var target := NextForkId(sv.store, base);
    assert target[|base|] == '#';
    var counted := Apply(sv.store, CountFork(base));
    FoundSound(sv, base);
    FoundSound(sv, target);
    OneSessionChanged(sv.(store := counted), FillForkResult(counted, base, target), target,
                      if base in counted.sessions then counted.sessions[base] else SessionAt(counted.sessions, target));
  }

  lemma ResumeSound(sv: Service, id: string)
    requires WellKept(sv)
    ensures WellKept(Next(sv, Resume(id)))
  {
    var found := SessionAt(sv.store.sessions, NamedId(id));
    var store := Next(sv, Resume(id)).store;
    FoundSound(sv, NamedId(id));
    assert SessionAt(store.sessions, NamedId(id)) == found;
    OneSessionChanged(sv, store, NamedId(id), found);
  }

  lemma EndSound(sv: Service, id: string)
    requires WellKept(sv)
    ensures WellKept(Next(sv, EndRun(id)))
  {
    assert forall other :: other in sv.runs ==> Shares(Next(sv, EndRun(id)), sv.runs[other]);
  }

  /** Whatever happens next, every session keeps well-paired messages and checkpoints with numbers up
      to its count of user turns, and every run agrees with its session, and goes by the shared policy and
      model. */
  lemma ActionSound(sv: Service, a: Action)
    requires WellKept(sv) && Can(sv, a)
    ensures WellKept(Next(sv, a))
  {
    match a {
      case StartRun(s) =>
        FoundSound(sv, s.id);
        OneRunMoved(sv, s.id, Live(s, Begin));
      case RunOn(id, e) =>
        if e.Store? {
          StoreSound(sv, id, e.op);
        } else {
          EventSound(sv, id, e);
        }
      case EndRun(_) => EndSound(sv, a.id);
      case Control(change) => AllTold(sv, change, Next(sv, a).policy, Next(sv, a).model);
      case Rewind(id, key) => RewindSound(sv, id, key);
      case Fork(base) => ForkSound(sv, base);
      case Resume(id) => ResumeSound(sv, id);
    }
  }

  lemma {:induction false} ReachableSound(sv: Service, actions: seq<Action>)
    requires WellKept(sv) && CanAll(sv, actions)
    ensures WellKept(NextAll(sv, actions))
    decreases |actions|
  {
    if actions != [] {
      ActionSound(sv, actions[0]);
      ReachableSound(Next(sv, actions[0]), actions[1..]);
    }
  }
}
