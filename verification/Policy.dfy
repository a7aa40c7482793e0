/** Tool permissions: one in-memory policy and three policy files, updated by the same requests
    through two separate pieces of code, and the gate a tool call passes before it runs. */
module Policy {
  import opened Basics
  import opened Json

  const ADD_RULES: string := "addRules"
  const REPLACE_RULES: string := "replaceRules"
  const REMOVE_RULES: string := "removeRules"
  const SET_MODE: string := "setMode"

  const ASK: string := "ask"
  const DENY: string := "deny"
  const BYPASS: string := "bypassPermissions"

  const USER: string := "userSettings"
  const PROJECT: string := "projectSettings"
  const LOCAL: string := "localSettings"
  const SESSION: string := "session"

  type Behavior = string
  type Mode = string

  /** A request to change permissions. A rule is a tool name; None stands for a missing rule. */
  datatype Update = Update(
    kind: string,
    rules: seq<Option<string>>,
    behavior: Option<Behavior>,
    mode: Option<Mode>,
    destination: Option<string>)

  datatype Policy = Policy(mode: Option<Mode>, rules: map<string, Behavior>)

  const EMPTY: Policy := Policy(None, map[])

  function Lookup(rules: map<string, Behavior>, tool: string): Option<Behavior> {
    if tool in rules then Some(rules[tool]) else None
  }

  // ---- the transition both implementations make ----

  /** The tools an update names; unnamed and missing rules are skipped. */
  function Named(rules: seq<Option<string>>): set<string> {
    set i | 0 <= i < |rules| && rules[i].Some? && rules[i].value != "" :: rules[i].value
  }

  /** What an update does to the rule of one tool. */
  datatype Touch = Untouched | Cleared | SetTo(behavior: Behavior)

  function TouchOf(up: Update, tool: string): Touch {
    var named := tool in Named(up.rules);
    if up.kind == ADD_RULES then
      if named then SetTo(GetOr(up.behavior, ASK)) else Untouched
    else if up.kind == REPLACE_RULES then
      if named then SetTo(GetOr(up.behavior, ASK)) else Cleared
    else if up.kind == REMOVE_RULES then
      if named then Cleared else Untouched
    else Untouched
  }

  function Touched(before: Option<Behavior>, touch: Touch): Option<Behavior> {
    match touch
    case Untouched => before
    case Cleared => None
    case SetTo(b) => Some(b)
  }

  /** The policy after one update, tool by tool. */
  function Next(pol: Policy, up: Update): (r: Policy)
    ensures forall t :: Lookup(r.rules, t) == Touched(Lookup(pol.rules, t), TouchOf(up, t))
    ensures r.mode == if up.kind == SET_MODE then up.mode else pol.mode
  {
    var rules := map t | t in pol.rules.Keys + Named(up.rules) && Touched(Lookup(pol.rules, t), TouchOf(up, t)).Some?
                   :: Touched(Lookup(pol.rules, t), TouchOf(up, t)).value;
    Policy(if up.kind == SET_MODE then up.mode else pol.mode, rules)
  }

  /** Rule maps are the same when every tool has the same rule. */
  lemma SameRules(a: map<string, Behavior>, b: map<string, Behavior>)
    requires forall t :: Lookup(a, t) == Lookup(b, t)
    ensures a == b
  {
    assert forall t :: t in a <==> Lookup(a, t).Some?;
    assert forall t :: t in b <==> Lookup(b, t).Some?;
    forall t | t in a
      ensures a[t] == b[t]
    {
      assert Lookup(a, t) == Lookup(b, t);
    }
  }

  function NextAll(pol: Policy, ups: seq<Update>): Policy
    decreases |ups|
  {
    if ups == [] then pol else NextAll(Next(pol, ups[0]), ups[1..])
  }

  // ---- the two implementations ----

  function Grant(rules: map<string, Behavior>, names: seq<Option<string>>, b: Behavior): (r: map<string, Behavior>)
    ensures forall t :: Lookup(r, t) == if t in Named(names) then Some(b) else Lookup(rules, t)
  {
    if names == [] then rules
    else
      var n := |names| - 1;
      var before := Grant(rules, names[..n], b);
      NamedLast(names);
      if names[n].Some? && names[n].value != "" then before[names[n].value := b] else before
  }

  function Revoke(rules: map<string, Behavior>, names: seq<Option<string>>): (r: map<string, Behavior>)
    ensures forall t :: Lookup(r, t) == if t in Named(names) then None else Lookup(rules, t)
  {
    if names == [] then rules
    else
      var n := |names| - 1;
      var before := Revoke(rules, names[..n]);
      NamedLast(names);
      if names[n].Some? && names[n].value != "" then before - {names[n].value} else before
  }

  lemma NamedLast(names: seq<Option<string>>)
    requires names != []
    ensures var n := |names| - 1;
      Named(names) == Named(names[..n]) + if names[n].Some? && names[n].value != "" then {names[n].value} else {}
  {
    var n := |names| - 1;
    forall t | t in Named(names)
      ensures t in Named(names[..n]) || (names[n].Some? && names[n].value != "" && t == names[n].value)
    {
      var i :| 0 <= i < |names| && names[i].Some? && names[i].value != "" && names[i].value == t;
      if i < n {
        assert names[..n][i] == names[i];
      }
    }
    forall t | t in Named(names[..n])
      ensures t in Named(names)
    {
      var i :| 0 <= i < n && names[..n][i].Some? && names[..n][i].value != "" && names[..n][i].value == t;
      assert names[i] == names[..n][i];
    }
  }

  /** A policy file: missing, or there but not to be read or parsed, or holding a policy. */
  datatype PolicyFile = NoFile | Unreadable | OnFile(policy: Policy)

  function Content(file: PolicyFile): Policy {
    if file.OnFile? then file.policy else EMPTY
  }

  /** The policy files. They are read and rewritten whole. */
  class Store {
    var user: PolicyFile
    var project: PolicyFile
    var local: PolicyFile

    constructor (user: PolicyFile, project: PolicyFile, local: PolicyFile)
      ensures this.user == user && this.project == project && this.local == local
    {
      this.user, this.project, this.local := user, project, local;
    }

    /** Later layers override earlier ones; one file that cannot be read spoils them all. */
    method LoadMerged() returns (out: Result<Policy, ()>)
      ensures out.Err? <==> user.Unreadable? || project.Unreadable? || local.Unreadable?
      ensures out.Ok? ==> out.value == Merged(user, project, local)
    {
      var merged := EMPTY;
      var files := [user, project, local];
      var i := 0;
      while i < |files|
        invariant 0 <= i <= |files| && files == [user, project, local]
        invariant forall j :: 0 <= j < i ==> !files[j].Unreadable?
        invariant merged == MergeFirst(files, i)
      {
        if files[i].Unreadable? {
          return Err(());
        }
        if files[i].OnFile? {
          var pol := files[i].policy;
          if pol.mode.Some? {
            merged := merged.(mode := pol.mode);
          }
          merged := merged.(rules := merged.rules + pol.rules);
        }
        i := i + 1;
      }
      assert !files[0].Unreadable? && !files[1].Unreadable? && !files[2].Unreadable?;
      return Ok(merged);
    }

    /** A file that cannot be read is left alone. */
    method ApplyPersistentUpdate(up: Update)
      modifies this
      ensures user == FileAfter(old(user), "userSettings", up)
      ensures project == FileAfter(old(project), "projectSettings", up)
      ensures local == FileAfter(old(local), "localSettings", up)
    {
      if up.destination.None? || up.destination.value == SESSION {
        return;
      }
      var dest := up.destination.value;
      if dest == USER && !user.Unreadable? {
        var pol := ApplyUpdate(Content(user), up);
        user := OnFile(pol);
      } else if dest == PROJECT && !project.Unreadable? {
        var pol := ApplyUpdate(Content(project), up);
        project := OnFile(pol);
      } else if dest == LOCAL && !local.Unreadable? {
        var pol := ApplyUpdate(Content(local), up);
        local := OnFile(pol);
      }
    }
  }

  /** The update of a loaded policy file. */
  method ApplyUpdate(pol: Policy, up: Update) returns (r: Policy)
    ensures r == Next(pol, up)
  {
    var mode, rules := pol.mode, pol.rules;
    if up.kind == SET_MODE {
      mode := up.mode;
    } else if up.kind == ADD_RULES {
      rules := GrantEach(rules, up.rules, GetOr(up.behavior, ASK));
    } else if up.kind == REPLACE_RULES {
      rules := GrantEach(map[], up.rules, GetOr(up.behavior, ASK));
    } else if up.kind == REMOVE_RULES {
      rules := RevokeEach(rules, up.rules);
    }
    SameRules(rules, Next(pol, up).rules);
    r := Policy(mode, rules);
  }

  method GrantEach(rules: map<string, Behavior>, names: seq<Option<string>>, b: Behavior)
    returns (r: map<string, Behavior>)
    ensures r == Grant(rules, names, b)
  {
    r := rules;
    var i := 0;
    while i < |names|
      invariant 0 <= i <= |names| && r == Grant(rules, names[..i], b)
    {
      assert names[..i + 1][..i] == names[..i];
      if names[i].Some? && names[i].value != "" {
        r := r[names[i].value := b];
      }
      i := i + 1;
    }
    assert names[..i] == names;
  }

  method RevokeEach(rules: map<string, Behavior>, names: seq<Option<string>>) returns (r: map<string, Behavior>)
    ensures r == Revoke(rules, names)
  {
    r := rules;
    var i := 0;
    while i < |names|
      invariant 0 <= i <= |names| && r == Revoke(rules, names[..i])
    {
      assert names[..i + 1][..i] == names[..i];
      if names[i].Some? && names[i].value != "" {
        r := r - {names[i].value};
      }
      i := i + 1;
    }
    assert names[..i] == names;
  }

  function FileAfter(file: PolicyFile, layer: string, up: Update): PolicyFile {
    if up.destination == Some(layer) && !file.Unreadable? then OnFile(Next(Content(file), up)) else file
  }

  function FileAfterAll(file: PolicyFile, layer: string, ups: seq<Update>): PolicyFile
    decreases |ups|
  {
    if ups == [] then file else FileAfterAll(FileAfter(file, layer, ups[0]), layer, ups[1..])
  }

  function Overlay(low: Policy, high: PolicyFile): Policy {
    if high.OnFile? then
      Policy(if high.policy.mode.Some? then high.policy.mode else low.mode, low.rules + high.policy.rules)
    else low
  }

  function MergeFirst(files: seq<PolicyFile>, n: nat): Policy
    requires n <= |files|
  {
    if n == 0 then EMPTY else Overlay(MergeFirst(files, n - 1), files[n - 1])
  }

  function Merged(user: PolicyFile, project: PolicyFile, local: PolicyFile): Policy {
    MergeFirst([user, project, local], 3)
  }

  predicate Readable(user: PolicyFile, project: PolicyFile, local: PolicyFile) {
    !user.Unreadable? && !project.Unreadable? && !local.Unreadable?
  }

  /** The policy a new executor begins with: nothing of the files, if one of them cannot be read. */
  function Initial(initial: Option<Mode>, user: PolicyFile, project: PolicyFile, local: PolicyFile): Policy {
    var merged := if Readable(user, project, local) then Merged(user, project, local) else EMPTY;
    Policy(if merged.mode.Some? then merged.mode else initial, merged.rules)
  }

  /** Missing updates are dropped before anything else happens. */
  function Present(ups: seq<Option<Update>>): seq<Update> {
    if ups == [] then []
    else if ups[|ups| - 1].None? then Present(ups[..|ups| - 1])
    else Present(ups[..|ups| - 1]) + [ups[|ups| - 1].value]
  }

  /** The in-memory policy and the files behind it. */
  class Executor {
    var rules: map<string, Behavior>
    var mode: Option<Mode>
    const store: Store

    /** The initial mode comes from the options unless the files name one. */
    constructor (initial: Option<Mode>, store: Store)
      ensures this.store == store
      ensures Current() == Initial(initial, store.user, store.project, store.local)
    {
      this.store := store;
      mode := initial;
      rules := map[];
      new;
      var loaded := store.LoadMerged();
      if loaded.Ok? {
        if loaded.value.mode.Some? {
          mode := loaded.value.mode;
        }
        rules := rules + loaded.value.rules;
      }
    }

    function Current(): Policy
      reads this
    {
      Policy(mode, rules)
    }

    method SetMode(m: Mode)
      modifies this`mode
      ensures mode == Some(m)
    {
      mode := Some(m);
    }

    method ApplyPermissionUpdates(updates: seq<Option<Update>>)
      modifies this, store
      ensures Current() == NextAll(old(Current()), Present(updates))
      ensures store.user == FileAfterAll(old(store.user), USER, Present(updates))
      ensures store.project == FileAfterAll(old(store.project), PROJECT, Present(updates))
      ensures store.local == FileAfterAll(old(store.local), LOCAL, Present(updates))
    {
      var i := 0;
      while i < |updates|
        invariant 0 <= i <= |updates|
        invariant Current() == NextAll(old(Current()), Present(updates[..i]))
        invariant store.user == FileAfterAll(old(store.user), USER, Present(updates[..i]))
        invariant store.project == FileAfterAll(old(store.project), PROJECT, Present(updates[..i]))
        invariant store.local == FileAfterAll(old(store.local), LOCAL, Present(updates[..i]))
      {
        assert updates[..i + 1][..i] == updates[..i];
        if updates[i].Some? {
          var up := updates[i].value;
          ghost var before := Present(updates[..i]);
          ApplyInMemory(up);
          store.ApplyPersistentUpdate(up);
          NextAllLast(old(Current()), before, up);
          FileAfterLast(old(store.user), USER, before, up);
          FileAfterLast(old(store.project), PROJECT, before, up);
          FileAfterLast(old(store.local), LOCAL, before, up);
        }
        i := i + 1;
      }
      assert updates[..i] == updates;
    }

    method ApplyInMemory(up: Update)
      modifies this
      ensures Current() == Next(old(Current()), up)
    {
      ghost var goal := Next(Current(), up);
      if up.kind == SET_MODE {
        mode := up.mode;
      } else if up.kind == ADD_RULES || up.kind == REPLACE_RULES {
        if up.kind == REPLACE_RULES {
          rules := map[];
        }
        rules := GrantEach(rules, up.rules, GetOr(up.behavior, ASK));
      } else if up.kind == REMOVE_RULES {
        rules := RevokeEach(rules, up.rules);
      }
      SameRules(rules, goal.rules);
    }

    /** What the client, or another run on the same executor, does to it in the meantime. */
    method MakeChange(change: PolicyChange)
      modifies this, store
      ensures Current() == Altered(old(Current()), change)
    {
      match change {
        case NewMode(m) =>
          if m != "" {
            SetMode(m);
          }
        case NewUpdates(updates) =>
          PresentOfWrapped(updates);
          ApplyPermissionUpdates(Wrapped(updates));
      }
    }

    method MakeChanges(changes: seq<PolicyChange>)
      modifies this, store
      ensures Current() == AlteredAll(old(Current()), changes)
    {
      var i := 0;
      while i < |changes|
        invariant 0 <= i <= |changes|
        invariant Current() == AlteredAll(old(Current()), changes[..i])
      {
        assert changes[..i + 1][..i] == changes[..i];
        MakeChange(changes[i]);
        i := i + 1;
      }
      assert changes[..i] == changes;
    }

    method EvaluatePolicy(tool: string) returns (deny: bool)
      ensures deny == Denies(Current(), tool)
    {
      if mode == Some(BYPASS) {
        return false;
      }
      if tool !in rules {
        return false;
      }
      return rules[tool] == DENY;
    }

    /** Runs one tool call through the gates. */
    method ExecuteWithSuggestions(tool: string, input: Fields, w: ToolWorld)
      returns (outcome: ToolOutcome, invoked: bool)
      modifies this, store
      ensures Gated(Current(), outcome, invoked) == Gate(old(Current()), tool, input, w)
    {
      invoked := false;
      if !w.registered {
        outcome := Failed(w.missing);
        return;
      }
      var deny := EvaluatePolicy(tool);
      if deny {
        outcome := DeniedFor(POLICY_REASON, false);
        return;
      }
      var args := input;
      if w.callback.Some? {
        MakeChanges(w.meanwhile);
        match w.callback.value {
          case CallbackError(error) =>
            outcome := OutcomeOf(error);
            return;
          case NoAnswer =>
          case DenyTool(text, interrupt) =>
            outcome := DeniedFor(DeniedText(tool, text), interrupt);
            return;
          case OtherAnswer(text) =>
            outcome := Failed(text);
            return;
          case AllowTool(updated, updates) =>
            args := GetOr(updated, input);
            if |updates| > 0 {
              ApplyPermissionUpdates(updates);
            }
        }
      }
      if !w.reachable {
        outcome := Failed(w.missing);
        return;
      }
      invoked := true;
      match w.handler(args) {
        case Ok(text) => outcome := Answered(text);
        case Err(error) => outcome := OutcomeOf(error);
      }
    }
  }

  /** A change of the policy that no permission answer brings: the client sets the mode, or another run on
      the same executor applies updates. */
  datatype PolicyChange = NewMode(mode: Mode) | NewUpdates(updates: seq<Update>)

  /** An empty mode is not passed on. */
  function Altered(pol: Policy, change: PolicyChange): Policy {
    match change
    case NewMode(m) => if m == "" then pol else pol.(mode := Some(m))
    case NewUpdates(updates) => NextAll(pol, updates)
  }

  function AlteredAll(pol: Policy, changes: seq<PolicyChange>): Policy {
    if changes == [] then pol else Altered(AlteredAll(pol, changes[..|changes| - 1]), changes[|changes| - 1])
  }

  function Wrapped(updates: seq<Update>): seq<Option<Update>> {
    if updates == [] then [] else Wrapped(updates[..|updates| - 1]) + [Some(updates[|updates| - 1])]
  }

  lemma {:induction false} PresentOfWrapped(updates: seq<Update>)
    ensures Present(Wrapped(updates)) == updates
  {
    if updates != [] {
      var n := |updates| - 1;
      PresentOfWrapped(updates[..n]);
      var all := Wrapped(updates);
      assert all[..|all| - 1] == Wrapped(updates[..n]);
    }
  }

  predicate Denies(pol: Policy, tool: string) {
    pol.mode != Some(BYPASS) && Lookup(pol.rules, tool) == Some(DENY)
  }

  lemma {:induction false} NextAllLast(pol: Policy, ups: seq<Update>, up: Update)
    ensures NextAll(pol, ups + [up]) == Next(NextAll(pol, ups), up)
    decreases |ups|
  {
    if ups == [] {
      assert ([up])[1..] == [];
      assert ups + [up] == [up];
    } else {
      assert (ups + [up])[1..] == ups[1..] + [up];
      NextAllLast(Next(pol, ups[0]), ups[1..], up);
    }
  }

  lemma {:induction false} FileAfterLast(file: PolicyFile, layer: string, ups: seq<Update>, up: Update)
    ensures FileAfterAll(file, layer, ups + [up]) == FileAfter(FileAfterAll(file, layer, ups), layer, up)
    decreases |ups|
  {
    if ups == [] {
      assert ([up])[1..] == [];
      assert ups + [up] == [up];
    } else {
      assert (ups + [up])[1..] == ups[1..] + [up];
      FileAfterLast(FileAfter(file, layer, ups[0]), layer, ups[1..], up);
    }
  }

  // ---- what a whole history of updates decides ----

  /** What the last update that concerns the tool does to it. */
  function LastTouch(ups: seq<Update>, tool: string): Touch {
    if ups == [] then Untouched
    else if TouchOf(ups[|ups| - 1], tool) != Untouched then TouchOf(ups[|ups| - 1], tool)
    else LastTouch(ups[..|ups| - 1], tool)
  }

  /** The mode the last mode change asked for, if there was one. */
  function LastMode(ups: seq<Update>, initial: Option<Mode>): Option<Mode> {
    if ups == [] then initial
    else if ups[|ups| - 1].kind == SET_MODE then ups[|ups| - 1].mode
    else LastMode(ups[..|ups| - 1], initial)
  }

  /** What each kind of update means for one tool, by the names the interface uses. Any other kind changes
      nothing, and neither does a rule that names no tool. */
  lemma UpdateMeans(pol: Policy, up: Update, tool: string)
    ensures var was, rule := Lookup(pol.rules, tool), Lookup(Next(pol, up).rules, tool);
      var named := tool != "" && Some(tool) in up.rules;
      && rule == (if up.kind == "addRules" && named then Some(GetOr(up.behavior, "ask"))
                else if up.kind == "replaceRules" then (if named then Some(GetOr(up.behavior, "ask")) else None)
                else if up.kind == "removeRules" && named then None
                else was)
      && Next(pol, up).mode == if up.kind == "setMode" then up.mode else pol.mode
  {
    assert tool in Named(up.rules) <==> tool != "" && Some(tool) in up.rules by {
      if tool != "" && Some(tool) in up.rules {
        var i :| 0 <= i < |up.rules| && up.rules[i] == Some(tool);
        assert up.rules[i].Some? && up.rules[i].value == tool;
      }
    }
  }

  /** Missing updates are passed over. */
  lemma {:induction false} MissingUpdatesAreSkipped(a: seq<Option<Update>>, b: seq<Option<Update>>)
    ensures Present(a + [None] + b) == Present(a + b)
    decreases |b|
  {
    var all, rest := a + [None] + b, a + b;
    if b == [] {
      assert rest == a && all[..|all| - 1] == a;
    } else {
      var n := |b| - 1;
      MissingUpdatesAreSkipped(a, b[..n]);
      assert all[..|all| - 1] == a + [None] + b[..n] && rest[..|rest| - 1] == a + b[..n];
    }
  }

  /** A mode set from outside decides from then on: the bypass denies nothing, any other mode leaves it to the
      rule; no mode is no change. Updates from outside count like any others. */
  lemma OutsideChangesMean(pol: Policy, mode: Mode, ups: seq<Update>, tool: string)
    ensures var later := Altered(pol, NewMode(mode));
      && (mode == "" ==> later == pol)
      && (mode == "bypassPermissions" ==> !Denies(later, tool))
      && (mode != "" && mode != "bypassPermissions" ==>
            (Denies(later, tool) <==> Lookup(pol.rules, tool) == Some("deny")))
    ensures Altered(pol, NewUpdates(ups)) == NextAll(pol, ups)
  {
  }

  /** After any updates, a tool's rule is what the last update touching it made it. */
  lemma {:induction false} LastTouchDecides(pol: Policy, ups: seq<Update>, tool: string)
    ensures Lookup(NextAll(pol, ups).rules, tool) == Touched(Lookup(pol.rules, tool), LastTouch(ups, tool))
    ensures NextAll(pol, ups).mode == LastMode(ups, pol.mode)
  {
    if ups != [] {
      var n := |ups| - 1;
      assert ups == ups[..n] + [ups[n]];
      NextAllLast(pol, ups[..n], ups[n]);
      LastTouchDecides(pol, ups[..n], tool);
    }
  }

  /** A tool is denied exactly when the last mode is not the bypass and the last word on it is "deny". */
  lemma DeniedIff(pol: Policy, ups: seq<Update>, tool: string)
    ensures Denies(NextAll(pol, ups), tool) <==>
      LastMode(ups, pol.mode) != Some("bypassPermissions") &&
      (LastTouch(ups, tool) == SetTo("deny") ||
        (LastTouch(ups, tool) == Untouched && Lookup(pol.rules, tool) == Some("deny")))
  {
    LastTouchDecides(pol, ups, tool);
  }

  // ---- the files ----

  function Addressed(ups: seq<Update>, layer: string): seq<Update> {
    if ups == [] then []
    else if ups[0].destination == Some(layer) then [ups[0]] + Addressed(ups[1..], layer)
    else Addressed(ups[1..], layer)
  }

  function FileRule(file: PolicyFile, tool: string): Option<Behavior> {
    Lookup(Content(file).rules, tool)
  }

  /** A file that can be read holds what the updates addressed to its layer make of it, and nothing else;
      one that cannot stays so. */
  lemma {:induction false} FileKeepsItsLayer(file: PolicyFile, layer: string, ups: seq<Update>)
    ensures FileAfterAll(file, layer, ups).Unreadable? <==> file.Unreadable?
    ensures !file.Unreadable? ==>
        Content(FileAfterAll(file, layer, ups)) == NextAll(Content(file), Addressed(ups, layer))
    decreases |ups|
  {
    if ups != [] {
      FileKeepsItsLayer(FileAfter(file, layer, ups[0]), layer, ups[1..]);
      if ups[0].destination == Some(layer) {
        assert Addressed(ups, layer)[1..] == Addressed(ups[1..], layer);
      }
    }
  }

  function FileMode(file: PolicyFile): Option<Mode> {
    if file.OnFile? then file.policy.mode else None
  }

  /** The mode of a new executor: the local file's, else the project's, else the user's, else the option's;
      with a file that cannot be read, the option's. */
  lemma InitialMode(option: Option<Mode>, user: PolicyFile, project: PolicyFile, local: PolicyFile)
    ensures Initial(option, user, project, local).mode ==
      if user.Unreadable? || project.Unreadable? || local.Unreadable? then option
      else if FileMode(local).Some? then FileMode(local)
      else if FileMode(project).Some? then FileMode(project)
      else if FileMode(user).Some? then FileMode(user)
      else option
  {
    var files := [user, project, local];
    assert MergeFirst(files, 0) == EMPTY;
    assert MergeFirst(files, 1) == Overlay(EMPTY, files[0]);
    assert MergeFirst(files, 2) == Overlay(MergeFirst(files, 1), files[1]);
  }

  /** In a merged policy local rules win over project rules, and those over user rules. */
  lemma MergePriority(user: PolicyFile, project: PolicyFile, local: PolicyFile, tool: string)
    ensures Lookup(Merged(user, project, local).rules, tool) ==
      if FileRule(local, tool).Some? then FileRule(local, tool)
      else if FileRule(project, tool).Some? then FileRule(project, tool)
      else FileRule(user, tool)
  {
    var files := [user, project, local];
    assert MergeFirst(files, 0) == EMPTY;
    assert MergeFirst(files, 1) == Overlay(EMPTY, files[0]);
    assert MergeFirst(files, 2) == Overlay(MergeFirst(files, 1), files[1]);
  }

  /** The rule a reload after any updates would find, by layers; none if a file cannot be read. */
  lemma ReloadedRule(initial: Option<Mode>, user: PolicyFile, project: PolicyFile, local: PolicyFile,
          ups: seq<Update>, tool: string)
    ensures
      var l := Touched(FileRule(local, tool), LastTouch(Addressed(ups, LOCAL), tool));
      var p := Touched(FileRule(project, tool), LastTouch(Addressed(ups, PROJECT), tool));
      var u := Touched(FileRule(user, tool), LastTouch(Addressed(ups, USER), tool));
      Lookup(Initial(initial, FileAfterAll(user, USER, ups), FileAfterAll(project, PROJECT, ups),
                     FileAfterAll(local, LOCAL, ups)).rules, tool)
      == if !Readable(user, project, local) then None else if l.Some? then l else if p.Some? then p else u
  {
    MergePriority(FileAfterAll(user, USER, ups), FileAfterAll(project, PROJECT, ups),
                  FileAfterAll(local, LOCAL, ups), tool);
    FileKeepsItsLayer(local, LOCAL, ups);
    FileKeepsItsLayer(project, PROJECT, ups);
    FileKeepsItsLayer(user, USER, ups);
    LastTouchDecides(Content(local), Addressed(ups, LOCAL), tool);
    LastTouchDecides(Content(project), Addressed(ups, PROJECT), tool);
    LastTouchDecides(Content(user), Addressed(ups, USER), tool);
  }

  lemma {:induction false} AllAddressed(ups: seq<Update>, layer: string, other: string)
    requires forall i :: 0 <= i < |ups| ==> ups[i].destination == Some(layer)
    ensures Addressed(ups, other) == if other == layer then ups else []
  {
    if ups != [] {
      AllAddressed(ups[1..], layer, other);
      assert ups == [ups[0]] + ups[1..];
    }
  }

  /** Starting without files, updates that all go to one persistent layer leave the rules in memory
      equal to the ones a reload rebuilds. */
  lemma OneLayerStaysInSync(layer: string, ups: seq<Update>)
    requires layer == USER || layer == PROJECT || layer == LOCAL
    requires forall i :: 0 <= i < |ups| ==> ups[i].destination == Some(layer)
    ensures NextAll(EMPTY, ups).rules
         == Initial(None, FileAfterAll(NoFile, USER, ups), FileAfterAll(NoFile, PROJECT, ups),
                    FileAfterAll(NoFile, LOCAL, ups)).rules
  {
    var reloaded := Initial(None, FileAfterAll(NoFile, USER, ups), FileAfterAll(NoFile, PROJECT, ups),
                            FileAfterAll(NoFile, LOCAL, ups));
    AllAddressed(ups, layer, USER);
    AllAddressed(ups, layer, PROJECT);
    AllAddressed(ups, layer, LOCAL);
    forall t
      ensures Lookup(NextAll(EMPTY, ups).rules, t) == Lookup(reloaded.rules, t)
    {
      ReloadedRule(None, NoFile, NoFile, NoFile, ups, t);
      LastTouchDecides(EMPTY, ups, t);
    }
    SameRules(NextAll(EMPTY, ups).rules, reloaded.rules);
  }

  /** The rule the layers above (or below) a layer give a tool. */
  function Above(layer: string, project: PolicyFile, local: PolicyFile, tool: string): Option<Behavior> {
    if layer == LOCAL then None
    else if layer == PROJECT then FileRule(local, tool)
    else if FileRule(local, tool).Some? then FileRule(local, tool)
    else FileRule(project, tool)
  }

  function Below(layer: string, user: PolicyFile, project: PolicyFile, tool: string): Option<Behavior> {
    if layer == USER then None
    else if layer == PROJECT then FileRule(user, tool)
    else if FileRule(project, tool).Some? then FileRule(project, tool)
    else FileRule(user, tool)
  }

  /** Exactly when one update, addressed to one layer, keeps memory and a reload in agreement on a tool:
      it does not touch the tool, or no layer above contradicts it and, if it clears the rule, none
      below still has one. With a file that cannot be read, it must not set a rule. */
  lemma InSyncIff(user: PolicyFile, project: PolicyFile, local: PolicyFile, layer: string, up: Update, tool: string)
    requires layer == USER || layer == PROJECT || layer == LOCAL
    requires up.destination == Some(layer)
    ensures
      var memory := Initial(None, user, project, local);
      var reloaded := Initial(None, FileAfter(user, USER, up), FileAfter(project, PROJECT, up),
                              FileAfter(local, LOCAL, up));
      var above, below := Above(layer, project, local, tool), Below(layer, user, project, tool);
      Lookup(Next(memory, up).rules, tool) == Lookup(reloaded.rules, tool) <==>
        match TouchOf(up, tool)
        case Untouched => true
        case Cleared => !Readable(user, project, local) || (above.None? && below.None?)
        case SetTo(b) => Readable(user, project, local) && (above.None? || above == Some(b))
  {
    MergePriority(user, project, local, tool);
    MergePriority(FileAfter(user, USER, up), FileAfter(project, PROJECT, up), FileAfter(local, LOCAL, up), tool);
  }

  // ---- the gate in front of a tool ----

  /** An error of a permission callback or a tool server. One that is, or wraps, a denial keeps the text of
      the whole error and that of the denial in it. */
  datatype ToolError = Ordinary(text: string) | DenialError(text: string, denial: string, interrupt: bool)

  datatype CallbackReply =
    | CallbackError(error: ToolError)
    | NoAnswer
    | DenyTool(text: string, interrupt: bool)
    | OtherAnswer(text: string)
    | AllowTool(updatedInput: Option<Fields>, updates: seq<Option<Update>>)

  /** A handler's answer depends on the input it is finally given. */
  type Handler = Fields -> Result<string, ToolError>

  /** What the registry, the permission callback and the tool's server do with one call, and what is done
      to the policy while the callback is asked. */
  datatype ToolWorld = ToolWorld(
    registered: bool,
    callback: Option<CallbackReply>,
    meanwhile: seq<PolicyChange>,
    reachable: bool,
    handler: Handler,
    missing: string)

  /** A denial has the text the model is answered with, and the one an interrupted run ends with. */
  datatype ToolOutcome =
    | Answered(text: string)
    | Failed(text: string)
    | Denied(text: string, denial: string, interrupt: bool)

  /** A denial is recognised wherever it comes from. */
  function OutcomeOf(e: ToolError): ToolOutcome {
    match e
    case Ordinary(text) => Failed(text)
    case DenialError(text, denial, interrupt) => Denied(text, denial, interrupt)
  }

  /** A denial that ends the run. */
  predicate Interrupts(outcome: ToolOutcome) {
    outcome.Denied? && outcome.interrupt
  }

  /** A denial with a reason of its own. */
  function DeniedFor(reason: string, interrupt: bool): ToolOutcome {
    Denied(reason, reason, interrupt)
  }

  function DeniedText(tool: string, text: string): string {
    if text != "" then text else "tool denied: " + tool
  }

  /** The policy afterwards, the outcome, and whether the handler itself was called. */
  datatype Gated = Gated(policy: Policy, outcome: ToolOutcome, invoked: bool)

  const POLICY_REASON: string := "tool denied by updated permission rules"

  /** The order of the gates: registry, policy, callback, server. The policy is looked at once, before the
      callback is asked. */
  function Gate(pol: Policy, tool: string, input: Fields, w: ToolWorld): Gated {
    if !w.registered then Gated(pol, Failed(w.missing), false)
    else if Denies(pol, tool) then Gated(pol, DeniedFor(POLICY_REASON, false), false)
    else if w.callback.None? then CallServer(pol, input, w)
    else AskCallback(AlteredAll(pol, w.meanwhile), tool, input, w)
  }

  function AskCallback(pol: Policy, tool: string, input: Fields, w: ToolWorld): Gated
    requires w.callback.Some?
  {
    match w.callback.value
    case CallbackError(error) => Gated(pol, OutcomeOf(error), false)
    case NoAnswer => CallServer(pol, input, w)
    case DenyTool(text, interrupt) => Gated(pol, DeniedFor(DeniedText(tool, text), interrupt), false)
    case OtherAnswer(text) => Gated(pol, Failed(text), false)
    case AllowTool(updated, updates) => CallServer(NextAll(pol, Present(updates)), GetOr(updated, input), w)
  }

  function CallServer(pol: Policy, input: Fields, w: ToolWorld): Gated {
    if !w.reachable then Gated(pol, Failed(w.missing), false)
    else
      var outcome := match w.handler(input) case Ok(text) => Answered(text) case Err(e) => OutcomeOf(e);
      Gated(pol, outcome, true)
  }

  /** The server's word on a call with the given arguments: its tool's answer, or its error, which is a
      failure or, if it is a denial, a denial with the same texts and the same wish to interrupt. */
  predicate ServerAnswers(g: Gated, w: ToolWorld, args: Fields) {
    if !w.reachable then g.outcome == Failed(w.missing) && !g.invoked
    else
      && g.invoked
      && match w.handler(args)
         case Ok(text) => g.outcome == Answered(text)
         case Err(Ordinary(text)) => g.outcome == Failed(text)
         case Err(DenialError(text, denial, interrupt)) => g.outcome == Denied(text, denial, interrupt)
  }

  /** A call that registry and policy let through, by what the callback says to it: the arguments the handler
      gets are those the callback puts in their place, if it does; a denial has the callback's text, or
      one of its own; and the updates of a consent are in force afterwards. */
  predicate CallbackDecides(g: Gated, pol: Policy, tool: string, input: Fields, w: ToolWorld)
    requires w.callback.Some?
  {
    var asked := AlteredAll(pol, w.meanwhile);
    match w.callback.value
    case NoAnswer => ServerAnswers(g, w, input) && g.policy == asked
    case AllowTool(Some(changed), updates) =>
      ServerAnswers(g, w, changed) && g.policy == NextAll(asked, Present(updates))
    case AllowTool(None, updates) => ServerAnswers(g, w, input) && g.policy == NextAll(asked, Present(updates))
    case CallbackError(Ordinary(text)) => g == Gated(asked, Failed(text), false)
    case CallbackError(DenialError(text, denial, interrupt)) =>
      g == Gated(asked, Denied(text, denial, interrupt), false)
    case OtherAnswer(text) => g == Gated(asked, Failed(text), false)
    case DenyTool(text, interrupt) =>
      g == Gated(asked, if text == "" then Denied("tool denied: " + tool, "tool denied: " + tool, interrupt)
                        else Denied(text, text, interrupt), false)
  }

  /** What comes of a call at the gates, for every answer of registry, policy, callback and server. */
  predicate GatesDecide(g: Gated, pol: Policy, tool: string, input: Fields, w: ToolWorld) {
    var reason := "tool denied by updated permission rules";
    if !w.registered then g == Gated(pol, Failed(w.missing), false)
    else if pol.mode != Some("bypassPermissions") && Lookup(pol.rules, tool) == Some("deny") then
      g == Gated(pol, Denied(reason, reason, false), false)
    else if w.callback.None? then ServerAnswers(g, w, input) && g.policy == pol
    else CallbackDecides(g, pol, tool, input, w)
  }

  lemma OutcomeAtTheGates(pol: Policy, tool: string, input: Fields, w: ToolWorld)
    ensures GatesDecide(Gate(pol, tool, input, w), pol, tool, input, w)
  {
  }

  /** The callback, if there is one, lets the call through. */
  predicate Consents(w: ToolWorld) {
    w.callback.None? || w.callback.value.NoAnswer? || w.callback.value.AllowTool?
  }

  lemma GateOpensIff(pol: Policy, tool: string, input: Fields, w: ToolWorld)
    ensures Gate(pol, tool, input, w).invoked <==> w.registered && w.reachable && Consents(w) && !Denies(pol, tool)
    ensures Gate(pol, tool, input, w).outcome.Answered? ==> Gate(pol, tool, input, w).invoked
  {
  }

  /** Whatever updates came before, a tool's handler runs exactly when the tool is registered, its
      server can be reached, the callback consents, and either the last mode is the bypass or the last
      word on the tool is not "deny". Updates that come with the consent change nothing about that. */
  lemma HandlerRunsIff(pol: Policy, ups: seq<Update>, tool: string, input: Fields, w: ToolWorld)
    ensures Gate(NextAll(pol, ups), tool, input, w).invoked <==>
      w.registered && w.reachable && Consents(w) &&
      (|| LastMode(ups, pol.mode) == Some(BYPASS)
       || Touched(Lookup(pol.rules, tool), LastTouch(ups, tool)) != Some(DENY))
    ensures Gate(NextAll(pol, ups), tool, input, w).outcome.Answered? ==>
        Gate(NextAll(pol, ups), tool, input, w).invoked
  {
    GateOpensIff(NextAll(pol, ups), tool, input, w);
    LastTouchDecides(pol, ups, tool);
  }
}
