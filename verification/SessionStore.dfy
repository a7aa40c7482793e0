/** The session manager: mutable sessions by id, checkpoints, rewinding and forking. The same
    operations are given once more as transitions on plain values, which is what the runs of the
    query runner and their interleavings are reasoned about with. */
module SessionStore {
  import opened Basics
  import opened Decimal
  import opened History
  import opened FileTree
  import opened FileRestore
  import opened FileRoundTrip
  import opened Disk

  // ---- the store as a value ----

  datatype SessionState = SessionState(
    messages: seq<Entry>,
    userTurns: nat,
    checkpoints: map<string, seq<Entry>>,
    files: map<string, Snapshot>)

  type Sessions = map<string, SessionState>

  datatype State = State(sessions: Sessions, forks: map<string, Int64>)

  const NEW_SESSION: SessionState := SessionState([], 0, map[], map[])

  datatype Op =
    | Open(id: string)
    | Bump(id: string)
    | SetState(id: string, messages: seq<Entry>, turns: nat)
    | TakeSnapshot(id: string, key: string)
    | TakeFiles(id: string, key: string, files: Snapshot)
    | RewindTo(id: string, key: string)
    | Clone(source: string, target: string)
    | CountFork(base: string)

  function NamedId(id: string): string {
    if id == "" then "default" else id
  }

  function SessionAt(ss: Sessions, id: string): SessionState {
    if id in ss then ss[id] else NEW_SESSION
  }

  function CountIn(forks: map<string, Int64>, base: string): Int64 {
    if base in forks then forks[base] else 0
  }

  function CountedUp(forks: map<string, Int64>, base: string): map<string, Int64> {
    forks[base := Next64(CountIn(forks, base))]
  }

  /** What each operation does; on a missing session or checkpoint it does nothing. */
  function Apply(st: State, op: Op): State {
    var ss := st.sessions;
    match op
    case Open(id) =>
      st.(sessions := ss[NamedId(id) := SessionAt(ss, NamedId(id))])
    case Bump(id) =>
      if id in ss then st.(sessions := ss[id := ss[id].(userTurns := ss[id].userTurns + 1)]) else st
    case SetState(id, messages, turns) =>
      st.(sessions := ss[NamedId(id) := SessionAt(ss, NamedId(id)).(messages := messages, userTurns := turns)])
    case TakeSnapshot(id, key) =>
      if id in ss && key != "" then
        st.(sessions := ss[id := ss[id].(checkpoints := ss[id].checkpoints[key := ss[id].messages])])
      else st
    case TakeFiles(id, key, files) =>
      if id in ss && key != "" then st.(sessions := ss[id := ss[id].(files := ss[id].files[key := files])]) else st
    case RewindTo(id, key) =>
      if id in ss && key in ss[id].checkpoints then
        st.(sessions := ss[id := ss[id].(messages := ss[id].checkpoints[key])])
      else st
    case Clone(source, target) =>
      if source != "" && target != "" && source in ss then st.(sessions := ss[target := ss[source]]) else st
    case CountFork(base) =>
      st.(forks := CountedUp(st.forks, NamedId(base)))
  }

  lemma OpenThenSet(before: State, between: State, id: string, messages: seq<Entry>, userTurns: nat)
    requires between == Apply(before, Open(id))
    ensures NamedId(id) in between.sessions
    ensures var s := between.sessions[NamedId(id)].(messages := messages, userTurns := userTurns);
            between.(sessions := between.sessions[NamedId(id) := s]) == Apply(before, SetState(id, messages, userTurns))
  {
  }

  // ---- the manager itself ----

  class Session {
    var messages: seq<Entry>
    var userTurns: nat
    var checkpoints: map<string, seq<Entry>>
    var files: map<string, Snapshot>

    constructor ()
      ensures messages == [] && userTurns == 0 && checkpoints == map[] && files == map[]
    {
      messages, userTurns, checkpoints, files := [], 0, map[], map[];
    }

    constructor CopyOf(v: SessionState)
      ensures Value() == v
    {
      messages, userTurns, checkpoints, files := v.messages, v.userTurns, v.checkpoints, v.files;
    }

    function Value(): SessionState
      reads this
    {
      SessionState(messages, userTurns, checkpoints, files)
    }
  }

  class Manager {
    var sessions: map<string, Session>
    var forkCounters: map<string, Int64>
    /** The sessions as values. */
    ghost var model: Sessions

    constructor ()
      ensures Valid() && Current() == State(map[], map[]) && Objects() == {}
    {
      sessions, forkCounters, model := map[], map[], map[];
    }

    ghost function Objects(): set<Session>
      reads this
    {
      sessions.Values
    }

    /** The model tells the truth, and no two ids share a session. */
    ghost predicate Valid()
      reads this, Objects()
    {
      && model.Keys == sessions.Keys
      && (forall id :: id in sessions ==> sessions[id].Value() == model[id])
      && (forall a, b :: a in sessions && b in sessions && sessions[a] == sessions[b] ==> a == b)
    }

    ghost function Current(): State
      reads this
    {
      State(model, forkCounters)
    }

    method GetOrCreate(id: string) returns (s: Session)
      requires Valid()
      modifies this`sessions, this`model
      ensures Valid() && Current() == Apply(old(Current()), Open(id))
      ensures sessions == old(sessions)[NamedId(id) := s] && fresh(Objects() - old(Objects()))
      ensures s in old(Objects()) || fresh(s)
      ensures NamedId(id) in old(sessions) ==> sessions == old(sessions)
      ensures s.Value() == old(SessionAt(model, NamedId(id)))
    {
      var name := if id == "" then "default" else id;
      if name in sessions {
        s := sessions[name];
      } else {
        s := new Session();
        Add(name, s);
      }
    }

    /** Enters a session that is not there yet under any id. */
    method Add(name: string, s: Session)
      requires Valid() && s !in Objects()
      modifies this`sessions, this`model
      ensures Valid() && sessions == old(sessions)[name := s] && model == old(model)[name := s.Value()]
      ensures Objects() <= old(Objects()) + {s}
    {
      sessions := sessions[name := s];
      model := model[name := s.Value()];
    }

    /** Replaces messages and turn count of a session that is there. */
    method Overwrite(name: string, messages: seq<Entry>, userTurns: nat)
      requires Valid() && name in sessions
      modifies sessions[name], this`model
      ensures Valid() && model == old(model)[name := old(model)[name].(messages := messages, userTurns := userTurns)]
    {
      var s := sessions[name];
      s.messages := messages;
      s.userTurns := userTurns;
      model := model[name := s.Value()];
    }

    /** What the runner does to the session it holds: s.UserTurns++. */
    method BumpUserTurns(id: string, s: Session)
      requires Valid() && id in sessions && sessions[id] == s
      modifies s`userTurns, this`model
      ensures Valid() && Current() == Apply(old(Current()), Bump(id))
      ensures s.userTurns == old(s.userTurns) + 1
    {
      assert forall other :: other in sessions && other != id ==> sessions[other] != s;
      s.userTurns := s.userTurns + 1;
      model := model[id := s.Value()];
      assert model == old(model)[id := old(model)[id].(userTurns := old(s.userTurns) + 1)];
    }

    method SetState(id: string, messages: seq<Entry>, userTurns: nat)
      requires Valid()
      modifies this`sessions, this`model, Objects()
      ensures Valid() && fresh(Objects() - old(Objects()))
      ensures Current() == Apply(old(Current()), Op.SetState(id, messages, userTurns))
      ensures NamedId(id) in old(sessions) ==> sessions == old(sessions)
    {
      ghost var before := Current();
      var s := GetOrCreate(id);
      ghost var between := Current();
      Overwrite(NamedId(id), messages, userTurns);
      OpenThenSet(before, between, id, messages, userTurns);
    }

    method TakeSnapshot(id: string, key: string)
      requires Valid()
      modifies this`model, Objects()
      ensures Valid() && Current() == Apply(old(Current()), Op.TakeSnapshot(id, key))
    {
      if id !in sessions || key == "" {
        return;
      }
      var s := sessions[id];
      s.checkpoints := s.checkpoints[key := s.messages];
      model := model[id := s.Value()];
    }

    method Rewind(id: string, key: string) returns (ok: bool)
      requires Valid()
      modifies this`model, Objects()
      ensures Valid() && Current() == Apply(old(Current()), RewindTo(id, key))
      ensures ok <==> id in old(model) && key in old(model)[id].checkpoints
    {
      if id !in sessions {
        return false;
      }
      var s := sessions[id];
      if key !in s.checkpoints {
        return false;
      }
      s.messages := s.checkpoints[key];
      model := model[id := s.Value()];
      return true;
    }

    method CloneSession(source: string, target: string) returns (ok: bool)
      requires Valid()
      modifies this`sessions, this`model
      ensures Valid() && fresh(Objects() - old(Objects()))
      ensures Current() == Apply(old(Current()), Clone(source, target))
      ensures ok <==> source != "" && target != "" && source in old(sessions)
    {
      if source == "" || target == "" || source !in sessions {
        return false;
      }
      var dst := new Session.CopyOf(sessions[source].Value());
      Add(target, dst);
      return true;
    }

    /** The counter is a 64-bit number; behind the largest one it goes on with the smallest. */
    method NewForkID(base: string) returns (id: string)
      requires Valid()
      modifies this`forkCounters
      ensures Valid()
      ensures Current() == Apply(old(Current()), CountFork(base))
      ensures id == NextForkId(old(Current()), NamedId(base)) && id != ""
    {
      var name := if base == "" then "default" else base;
      var n := Next64(if name in forkCounters then forkCounters[name] else 0);
      forkCounters := forkCounters[name := n];
      var digits := Itoa(n);
      id := name + FORK_TAG + digits;
      assert |id| >= |FORK_TAG|;
    }

    /** What the client does to resume a session as a fork. */
    method ResumeAsFork(base: string) returns (id: string)
      requires Valid() && base != ""
      modifies this
      ensures Valid() && Current() == ForkResult(old(Current()), base)
      ensures id == NextForkId(old(Current()), base)
    {
      id := NewForkID(base);
      FillFork(base, id);
    }

    method FillFork(base: string, id: string)
      requires Valid() && base != "" && id != ""
      modifies this`sessions, this`model
      ensures Valid() && Current() == FillForkResult(old(Current()), base, id)
    {
      var ok := CloneSession(base, id);
      if !ok {
        var _ := GetOrCreate(id);
      }
    }

    /** The last step saves the store; when that fails, the caller is told so, but the checkpoint has been
        kept. Whether it fails is not for this model to say. */
    method SnapshotFiles(id: string, key: string, fs: FileSystem, root: string, saves: bool)
      returns (r: Result<(), FilesError>)
      requires Valid()
      modifies this`model, Objects(), fs`calls
      ensures Valid()
      ensures r == Err(NoCheckpoint) <==> id !in old(sessions) || key == ""
      ensures r == Err(EmptyRoot) <==> id in old(sessions) && key != "" && TrimSpace(root) == ""
      ensures r == Err(NotCaptured) ==> !fs.Faultless() || [] !in fs.nodes
      ensures r == Err(NotSaved) ==> !saves
      ensures r.Ok? ==> saves
      ensures Current() == if r.Ok? || r == Err(NotSaved)
                           then Apply(old(Current()), TakeFiles(id, key, Capture(fs.nodes)))
                           else old(Current())
    {
      if id !in sessions || key == "" {
        return Err(NoCheckpoint);
      }
      if TrimSpace(root) == "" {
        return Err(EmptyRoot);
      }
      var files := fs.CaptureFiles();
      if files.Err? {
        return Err(NotCaptured);
      }
      KeepFiles(id, key, files.value);
      return if saves then Ok(()) else Err(NotSaved);
    }

    /** Its last step: the captured files go into the session. */
    method KeepFiles(id: string, key: string, files: Snapshot)
      requires Valid() && id in sessions && key != ""
      modifies this`model, Objects()
      ensures Valid() && Current() == Apply(old(Current()), TakeFiles(id, key, files))
    {
      var s := sessions[id];
      s.files := s.files[key := files];
      model := model[id := s.Value()];
    }

    /** Which error is returned is told as far as the manager decides it. */
    method RewindFiles(id: string, key: string, fs: FileSystem, root: string) returns (ok: bool)
      requires Valid() && WellFormed(fs.nodes)
      modifies fs
      ensures Current() == old(Current())
      ensures id !in sessions || key !in sessions[id].files || TrimSpace(root) == "" ==>
                !ok && fs.nodes == old(fs.nodes)
      ensures ok ==> Restores(old(fs.nodes), fs.nodes, sessions[id].files[key])
      ensures id in sessions && key in sessions[id].files && TrimSpace(root) != "" &&
                [] in old(fs.nodes) && fs.Faultless() &&
                Proper(sessions[id].files[key]) && NilsAreLeaves(sessions[id].files[key]) ==>
                  (ok <==> Restorable(old(fs.nodes), sessions[id].files[key]))
    {
      if id !in sessions || TrimSpace(root) == "" {
        return false;
      }
      var s := sessions[id];
      if key !in s.files {
        return false;
      }
      ghost var order;
      ok, order := fs.RestoreFiles(s.files[key]);
    }
  }

  datatype FilesError = NoCheckpoint | EmptyRoot | NotCaptured | NotSaved

  /** The id the next fork of a session gets. */
  function NextForkId(st: State, base: string): string {
    ForkId(base, Next64(CountIn(st.forks, base)))
  }

  function FillForkResult(st: State, base: string, id: string): State {
    if base in st.sessions then Apply(st, Clone(base, id)) else Apply(st, Open(id))
  }

  function ForkResult(st: State, base: string): State {
    FillForkResult(Apply(st, CountFork(base)), base, NextForkId(st, base))
  }

  /** File checkpoints: capture, anything, rewind. The files of the checkpoint are what a fresh capture
      finds, if and only if none of them has become a special file or has come to lie behind a link, and
      no two that differ have become one file. */
  lemma CheckpointRoundTrip(st: State, id: string, key: string, was: Nodes, old': Nodes, now: Nodes)
    requires id in st.sessions && key != ""
    requires forall p :: p in was && p != [] ==> Canonical(p)
    requires Restores(old', now, Apply(st, TakeFiles(id, key, Capture(was))).sessions[id].files[key])
    ensures Capture(now) == Capture(was) <==>
            && (forall p :: Captured(was, p) ==> At(old', p) != Some(Other) && !BehindLink(old', p))
            && (forall p, q :: Captured(was, p) && Captured(was, q) && SameFile(old', p, q) ==>
              was[p].content == was[q].content)
  {
    RewindInvertsCapture(was, old', now);
  }

  // ---- what the operations leave behind ----

  /** The session an operation is about; none for a fork count. */
  function Subject(op: Op): Option<string> {
    match op
    case Open(id) => Some(if id == "" then "default" else id)
    case SetState(id, _, _) => Some(if id == "" then "default" else id)
    case Bump(id) => Some(id)
    case TakeSnapshot(id, _) => Some(id)
    case TakeFiles(id, _, _) => Some(id)
    case RewindTo(id, _) => Some(id)
    case Clone(_, target) => Some(target)
    case CountFork(_) => None
  }

  /** No operation touches another session than its own, and none but a fork count the counters. */
  lemma OthersStay(st: State, op: Op, other: string)
    ensures Subject(op) != Some(other) ==>
      var after := Apply(st, op).sessions;
      (other in after <==> other in st.sessions) && (other in after ==> after[other] == st.sessions[other])
    ensures !op.CountFork? ==> Apply(st, op).forks == st.forks
  {
  }

  /** What is in a session once it has been opened, set, counted up, or copied to: an opened one is as it was,
      or empty; setting and counting leave its checkpoints alone; a copy has all the source had. */
  lemma SessionsHoldWhatWasPut(st: State, id: string, messages: seq<Entry>, n: nat, target: string)
    requires id != ""
    ensures var blank := SessionState([], 0, map[], map[]);
      var was := if id in st.sessions then st.sessions[id] else blank;
      && SessionIn(Apply(st, Open(id)), id) == Some(was)
      && SessionIn(Apply(st, SetState(id, messages, n)), id) ==
           Some(SessionState(messages, n, was.checkpoints, was.files))
      && SessionIn(Apply(st, Bump(id)), id) ==
           (if id in st.sessions then Some(SessionState(was.messages, was.userTurns + 1, was.checkpoints, was.files))
            else None)
      && (id in st.sessions && target != "" ==> SessionIn(Apply(st, Clone(id, target)), target) == Some(was))
      && (id !in st.sessions || target == "" ==> Apply(st, Clone(id, target)) == st)
  {
  }

  function SessionIn(st: State, id: string): Option<SessionState> {
    if id in st.sessions then Some(st.sessions[id]) else None
  }

  /** A fork gives a session of its own under the new id: a copy of the base, or, without one, what is there
      or an empty one. The base and all others stay, and the base's counter is one on. */
  lemma ForkIsACopy(st: State, base: string)
    requires base != ""
    ensures var n := Next64(if base in st.forks then st.forks[base] else 0);
      var id, after := base + "#fork-" + ItoaText(n), ForkResult(st, base);
      && after.forks == st.forks[base := n]
      && after.sessions ==
         if base in st.sessions then st.sessions[id := st.sessions[base]]
         else if id in st.sessions then st.sessions
         else st.sessions[id := SessionState([], 0, map[], map[])]
  {
    var n := Next64(if base in st.forks then st.forks[base] else 0);
    var id := base + "#fork-" + ItoaText(n);
    assert |id| > 0;
    assert NextForkId(st, base) == id;
    assert id in st.sessions ==> st.sessions[id := st.sessions[id]] == st.sessions;
  }

  // ---- fork ids ----

  /** The counters after the first n of some requests for fork ids. */
  function ForksAfter(forks: map<string, Int64>, bases: seq<string>, n: nat): map<string, Int64>
    requires n <= |bases|
  {
    if n == 0 then forks else CountedUp(ForksAfter(forks, bases, n - 1), NamedId(bases[n - 1]))
  }

  /** The counter value the request at i is answered with. */
  function ForkNumber(forks: map<string, Int64>, bases: seq<string>, i: nat): Int64
    requires i < |bases|
  {
    Next64(CountIn(ForksAfter(forks, bases, i), NamedId(bases[i])))
  }

  /** The id it is answered with. */
  function ForkIdOf(forks: map<string, Int64>, bases: seq<string>, i: nat): string
    requires i < |bases|
  {
    ForkId(NamedId(bases[i]), ForkNumber(forks, bases, i))
  }

  /** It is the one the store hands out at that point. */
  lemma ForkIdOfIsNext(st: State, bases: seq<string>, i: nat)
    requires i < |bases|
    ensures ForkIdOf(st.forks, bases, i) == NextForkId(CountAll(st, bases, i), NamedId(bases[i]))
  {
    ForksAfterIs(st, bases, i);
  }

  /** The store after the first n requests. */
  function CountAll(st: State, bases: seq<string>, n: nat): State
    requires n <= |bases|
  {
    if n == 0 then st else Apply(CountAll(st, bases, n - 1), CountFork(bases[n - 1]))
  }

  lemma {:induction false} ForksAfterIs(st: State, bases: seq<string>, n: nat)
    requires n <= |bases|
    ensures CountAll(st, bases, n).forks == ForksAfter(st.forks, bases, n)
  {
    if n > 0 {
      ForksAfterIs(st, bases, n - 1);
    }
  }

  /** How many of the first n requests are for a base. */
  function RequestsFor(bases: seq<string>, base: string, n: nat): nat
    requires n <= |bases|
  {
    if n == 0 then 0
    else RequestsFor(bases, base, n - 1) + if NamedId(bases[n - 1]) == base then 1 else 0
  }

  lemma {:induction false} CountAfter(forks: map<string, Int64>, bases: seq<string>, base: string, n: nat)
    requires n <= |bases|
    ensures CountIn(ForksAfter(forks, bases, n), base) == Add64(CountIn(forks, base), RequestsFor(bases, base, n))
  {
    if n > 0 {
      CountAfter(forks, bases, base, n - 1);
    }
  }

  lemma {:induction false} RequestsGrow(bases: seq<string>, base: string, i: nat, j: nat)
    requires i < j <= |bases| && NamedId(bases[j - 1]) == base
    ensures RequestsFor(bases, base, i) < RequestsFor(bases, base, j) <= RequestsFor(bases, base, i) + (j - i)
  {
    FewerRequests(bases, base, i, j - 1);
  }

  lemma {:induction false} FewerRequests(bases: seq<string>, base: string, i: nat, j: nat)
    requires i <= j <= |bases|
    ensures RequestsFor(bases, base, i) <= RequestsFor(bases, base, j) <= RequestsFor(bases, base, i) + (j - i)
    decreases j
  {
    if i < j {
      FewerRequests(bases, base, i, j - 1);
    }
  }

  lemma NumberIs(forks: map<string, Int64>, bases: seq<string>, i: nat, base: string)
    requires i < |bases| && base == NamedId(bases[i])
    ensures ForkNumber(forks, bases, i) == Add64(CountIn(forks, base), RequestsFor(bases, base, i + 1))
  {
    CountAfter(forks, bases, base, i);
  }

  lemma SameNumberIff(forks: map<string, Int64>, bases: seq<string>, i: nat, j: nat, base: string)
    requires i < j < |bases| && base == NamedId(bases[j]) && base == NamedId(bases[i])
    ensures ForkNumber(forks, bases, i) == ForkNumber(forks, bases, j) <==>
              (RequestsFor(bases, base, j + 1) - RequestsFor(bases, base, i + 1)) % TWO_TO_64 == 0
  {
    var count := CountIn(forks, base);
    var k, l := RequestsFor(bases, base, i + 1), RequestsFor(bases, base, j + 1);
    NumberIs(forks, bases, i, base);
    NumberIs(forks, bases, j, base);
    FewerRequests(bases, base, i + 1, j + 1);
    AddInjective(count, k, l);
  }

  /** Two requests get the same fork id if and only if they are for the same base and the number of
      requests for it from the one to the other is a multiple of 2^64. */
  lemma SameForkIdIff(forks: map<string, Int64>, bases: seq<string>, i: nat, j: nat, base: string)
    requires i < j < |bases| && base == NamedId(bases[j])
    ensures ForkIdOf(forks, bases, i) == ForkIdOf(forks, bases, j) <==>
              && NamedId(bases[i]) == base
              && (RequestsFor(bases, base, j + 1) - RequestsFor(bases, base, i + 1)) % TWO_TO_64 == 0
  {
    var first := NamedId(bases[i]);
    ForkIdInjective(first, ForkNumber(forks, bases, i), base, ForkNumber(forks, bases, j));
    if first == base {
      SameNumberIff(forks, bases, i, j, base);
    }
  }

  /** So within 2^64 requests, for any base ids, no fork id is handed out twice. */
  lemma ForkIdsDistinct(forks: map<string, Int64>, bases: seq<string>, i: nat, j: nat)
    requires i < j < |bases| && j - i < TWO_TO_64
    ensures ForkIdOf(forks, bases, i) != ForkIdOf(forks, bases, j)
  {
    var base := NamedId(bases[j]);
    SameForkIdIff(forks, bases, i, j, base);
    RequestsGrow(bases, base, i + 1, j + 1);
    SmallIsNoMultiple(RequestsFor(bases, base, j + 1) - RequestsFor(bases, base, i + 1));
  }
}
