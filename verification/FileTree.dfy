/** File checkpoints: reading a directory tree into a snapshot, and writing a snapshot back over
    whatever the tree has become, entry by entry in any order. */
module FileTree {
  import opened Basics

  /** Names below the root; the empty path is the root itself. */
  type Path = seq<string>

  /** An entry of the tree. Linked is a symbolic link to a directory outside the tree, and the entries
      below it are what is reached through it. Other is anything else that is neither a directory nor a
      regular file. A file with several names, made by hard links, has the same number at each of them. */
  datatype Node = Dir | File(content: string, shared: Option<nat>) | Linked | Other

  type Nodes = map<Path, Node>

  /** A tree that has a root. */
  type Tree = nodes: Nodes | [] in nodes witness map[[] := Dir]

  /** File contents by path; None asks for the file to be absent. */
  type Snapshot = map<Path, Option<string>>

  function At(nodes: Nodes, p: Path): Option<Node> {
    if p in nodes then Some(nodes[p]) else None
  }

  function Parent(p: Path): Path
    requires p != []
  {
    p[..|p| - 1]
  }

  predicate IsFile(n: Option<Node>) {
    n.Some? && n.value.File?
  }

  /** Two names of one file. */
  predicate SameFile(nodes: Nodes, p: Path, q: Path) {
    && IsFile(At(nodes, p)) && IsFile(At(nodes, q))
    && (p == q || (nodes[p].shared.Some? && nodes[p].shared == nodes[q].shared))
  }

  predicate Passable(n: Option<Node>) {
    n == Some(Dir) || n == Some(Linked)
  }

  predicate NoneOrPassable(n: Option<Node>) {
    n == None || Passable(n)
  }

  /** Every entry hangs below a directory or a link to one. */
  ghost predicate WellFormed(nodes: Nodes) {
    forall p :: p in nodes && p != [] ==> Passable(At(nodes, Parent(p)))
  }

  predicate ProperPrefix(q: Path, p: Path) {
    |q| < |p| && q <= p
  }

  ghost predicate IsAbove(q: Path, ps: set<Path>) {
    exists p :: p in ps && ProperPrefix(q, p)
  }

  /** The version-control directory of the root is neither read nor cleaned. */
  predicate Excluded(p: Path) {
    p != [] && p[0] == ".git"
  }

  /** Reached through a link: walking the tree does not come here. */
  predicate BehindLink(nodes: Nodes, p: Path) {
    exists k :: 0 <= k < |p| && At(nodes, p[..k]) == Some(Linked)
  }

  predicate Captured(nodes: Nodes, p: Path) {
    p in nodes && p != [] && nodes[p].File? && !Excluded(p) && !BehindLink(nodes, p)
  }

  function Capture(nodes: Nodes): Snapshot {
    map p | p in nodes && Captured(nodes, p) :: Some(nodes[p].content)
  }

  /** Every step of a path is a plain name: what walking a tree yields. */
  predicate Canonical(p: Path) {
    p != [] && forall i :: 0 <= i < |p| ==> p[i] != "" && p[i] != "." && p[i] != ".."
  }

  /** The path check made on a snapshot: a leading or an inner step upwards. */
  predicate StepsUp(p: Path) {
    exists i :: 0 <= i < |p| - 1 && p[i] == ".."
  }

  /** The steps that lead somewhere. */
  function Steps(p: Path): Path {
    if p == [] then []
    else if p[|p| - 1] == "" || p[|p| - 1] == "." then Steps(p[..|p| - 1])
    else Steps(p[..|p| - 1]) + [p[|p| - 1]]
  }

  /** filepath.Join with the root: the place a path names, None above the root. Only the last step can
      still lead upwards. */
  function Target(p: Path): Option<Path> {
    if p != [] && p[|p| - 1] == ".." then
      var up := Steps(p[..|p| - 1]);
      if up == [] then None else Some(Parent(up))
    else Some(Steps(p))
  }

  lemma {:induction false} CanonicalSteps(p: Path)
    requires forall i :: 0 <= i < |p| ==> p[i] != "" && p[i] != "." && p[i] != ".."
    ensures Steps(p) == p && !StepsUp(p)
  {
    if p != [] {
      CanonicalSteps(p[..|p| - 1]);
      assert p == p[..|p| - 1] + [p[|p| - 1]];
    }
  }

  // ---- one entry ----

  predicate CanMkdirAll(nodes: Nodes, p: Path) {
    forall k :: 0 <= k <= |p| ==> NoneOrPassable(At(nodes, p[..k]))
  }

  /** The tree with the directories that were missing on the way to p. */
  function WithDirs(nodes: Nodes, p: Path): Nodes
    decreases |p|
  {
    if p in nodes then nodes
    else if p == [] then nodes[p := Dir]
    else WithDirs(nodes, Parent(p))[p := Dir]
  }

  /** Without an entry and, if it is a link, what was reached through it. */
  function Without(nodes: Nodes, p: Path): Nodes {
    map q | q in nodes && !(p <= q) :: nodes[q]
  }

  predicate NotEmpty(nodes: Nodes, p: Path) {
    exists q :: q in nodes && ProperPrefix(p, q)
  }

  predicate CanRemove(nodes: Nodes, p: Path) {
    At(nodes, p) == Some(Dir) ==> !NotEmpty(nodes, p)
  }

  /** A file's content is what all its names show. */
  function Rewritten(nodes: Nodes, p: Path, content: string): Nodes {
    map q | q in nodes :: if SameFile(nodes, p, q) then nodes[q].(content := content) else nodes[q]
  }

  /** The tree once a file has been written. What is written to a special file goes elsewhere. */
  function WithFile(nodes: Nodes, p: Path, content: string): Nodes {
    if At(nodes, p) == Some(Other) then nodes
    else if IsFile(At(nodes, p)) then Rewritten(nodes, p, content)
    else nodes[p := File(content, None)]
  }

  function DirsFor(nodes: Nodes, p: Path): Nodes {
    if p == [] then nodes else WithDirs(nodes, Parent(p))
  }

  predicate CanPut(nodes: Nodes, p: Path, content: Option<string>) {
    && (p != [] ==> CanMkdirAll(nodes, Parent(p)))
    && match content
       case Some(_) => !Passable(At(DirsFor(nodes, p), p))
       case None => CanRemove(DirsFor(nodes, p), p)
  }

  /** What writing or removing at a place makes of the tree. */
  function PutAt(nodes: Nodes, p: Path, content: Option<string>): Nodes {
    match content
    case Some(c) => WithFile(DirsFor(nodes, p), p, c)
    case None => Without(DirsFor(nodes, p), p)
  }

  /** One entry of a snapshot; None if it cannot be restored. */
  function Put(nodes: Nodes, rel: Path, content: Option<string>): Option<Nodes> {
    if StepsUp(rel) || Target(rel).None? || !CanPut(nodes, Target(rel).value, content) then None
    else Some(PutAt(nodes, Target(rel).value, content))
  }

  /** The entries of a snapshot in an order. */
  function PutAll(nodes: Nodes, snapshot: Snapshot, order: seq<Path>): Option<Nodes>
    requires forall i :: 0 <= i < |order| ==> order[i] in snapshot
  {
    if order == [] then Some(nodes)
    else
      var n := |order| - 1;
      match PutAll(nodes, snapshot, order[..n])
      case None => None
      case Some(before) => Put(before, order[n], snapshot[order[n]])
  }

  /** The deleting half: files the snapshot does not know. */
  function Cleaned(nodes: Nodes, snapshot: Snapshot): Nodes {
    map q | q in nodes && !(Captured(nodes, q) && q !in snapshot) :: nodes[q]
  }

  /** An order in which all keys come once. */
  ghost predicate Enumerates(order: seq<Path>, keys: set<Path>) {
    && (forall p :: p in order <==> p in keys)
    && (forall i, j :: 0 <= i < j < |order| ==> order[i] != order[j])
  }

  ghost predicate RestoresInOrder(old': Nodes, now: Nodes, snapshot: Snapshot, order: seq<Path>) {
    && Enumerates(order, snapshot.Keys)
    && (forall i :: 0 <= i < |order| ==> order[i] in snapshot)
    && PutAll(Cleaned(old', snapshot), snapshot, order) == Some(now)
  }

  /** What a successful restore does, in some order of the entries. */
  ghost predicate Restores(old': Nodes, now: Nodes, snapshot: Snapshot) {
    WellFormed(old') && exists order :: RestoresInOrder(old', now, snapshot, order)
  }

  // ---- what paths name ----

  /** Steps that lead nowhere can be left out. */
  lemma {:induction false} EmptyStepsAreSkipped(a: Path, step: string, b: Path)
    requires step == "" || step == "."
    ensures Steps(a + [step] + b) == Steps(a + b)
    decreases |b|
  {
    var all, rest := a + [step] + b, a + b;
    if b == [] {
      assert rest == a && all[..|all| - 1] == a && all[|all| - 1] == step;
    } else {
      var n := |b| - 1;
      EmptyStepsAreSkipped(a, step, b[..n]);
      assert all[..|all| - 1] == a + [step] + b[..n] && rest[..|rest| - 1] == a + b[..n];
    }
  }

  /** An entry is put at the place its path names: steps "" and "." lead nowhere, ".." as the last step leads
      to the directory above, and ".." before that, or above the root, is refused. */
  lemma PathsNamePlaces(nodes: Nodes, p: Path, content: Option<string>)
    requires forall i :: 0 <= i < |p| ==> p[i] != "" && p[i] != "."
    ensures (exists i :: 0 <= i < |p| - 1 && p[i] == "..") || p == [".."] ==> Put(nodes, p, content) == None
    ensures (forall i :: 0 <= i < |p| ==> p[i] != "..") && CanPut(nodes, p, content) ==>
      Put(nodes, p, content) == Some(PutAt(nodes, p, content))
    ensures |p| > 1 && p[|p| - 1] == ".." && (forall i :: 0 <= i < |p| - 1 ==> p[i] != "..") ==>
      var up := p[..|p| - 2];
      CanPut(nodes, up, content) ==> Put(nodes, p, content) == Some(PutAt(nodes, up, content))
  {
    if forall i :: 0 <= i < |p| ==> p[i] != ".." {
      CanonicalSteps(p);
    } else if |p| > 0 && forall i :: 0 <= i < |p| - 1 ==> p[i] != ".." {
      CanonicalSteps(p[..|p| - 1]);
      assert |p| > 1 ==> p[..|p| - 1][..|p| - 2] == p[..|p| - 2];
    }
  }

  lemma SameStepsUp(a: Path, step: string, b: Path)
    requires step != ".." && b != []
    ensures StepsUp(a + [step] + b) <==> StepsUp(a + b)
  {
    var all, rest := a + [step] + b, a + b;
    if StepsUp(rest) {
      var i :| 0 <= i < |rest| - 1 && rest[i] == "..";
      assert all[if i < |a| then i else i + 1] == "..";
    }
    if StepsUp(all) {
      var i :| 0 <= i < |all| - 1 && all[i] == "..";
      assert rest[if i < |a| then i else i - 1] == "..";
    }
  }

  /** The same with steps that lead nowhere in between. */
  lemma EmptyStepsChangeNothing(nodes: Nodes, a: Path, step: string, b: Path, content: Option<string>)
    requires (step == "" || step == ".") && b != []
    ensures Put(nodes, a + [step] + b, content) == Put(nodes, a + b, content)
  {
    var all, rest := a + [step] + b, a + b;
    EmptyStepsAreSkipped(a, step, b);
    EmptyStepsAreSkipped(a, step, b[..|b| - 1]);
    assert all[..|all| - 1] == a + [step] + b[..|b| - 1] && rest[..|rest| - 1] == a + b[..|b| - 1];
    assert all[|all| - 1] == rest[|rest| - 1];
    SameStepsUp(a, step, b);
  }

  // ---- about trees ----

  lemma PrefixStep(q: Path, p: Path)
    requires p != []
    ensures q <= p <==> q == p || q <= Parent(p)
  {
    if q <= p && q != p {
      assert q <= Parent(p);
    }
  }

  lemma SameNodes(a: Nodes, b: Nodes)
    requires forall q :: At(a, q) == At(b, q)
    ensures a == b
  {
    assert forall q :: q in a <==> At(a, q).Some?;
    assert forall q :: q in b <==> At(b, q).Some?;
    forall q | q in a
      ensures a[q] == b[q]
    {
      assert At(a, q) == At(b, q);
    }
  }

  lemma {:induction false} AncestorsArePassable(nodes: Nodes, p: Path, q: Path)
    requires WellFormed(nodes) && p in nodes && ProperPrefix(q, p)
    ensures Passable(At(nodes, q))
    decreases |p|
  {
    var up := Parent(p);
    if q == up {
    } else {
      assert q <= up;
      AncestorsArePassable(nodes, up, q);
    }
  }

  lemma MissingHasNothingBelow(nodes: Nodes, p: Path)
    requires WellFormed(nodes) && p !in nodes
    ensures forall q :: ProperPrefix(p, q) ==> q !in nodes
  {
    forall q | q in nodes
      ensures !ProperPrefix(p, q)
    {
      if ProperPrefix(p, q) {
        AncestorsArePassable(nodes, q, p);
      }
    }
  }

  lemma FileHasNothingBelow(nodes: Nodes, p: Path)
    requires WellFormed(nodes) && !Passable(At(nodes, p))
    ensures forall q :: ProperPrefix(p, q) ==> q !in nodes
  {
    forall q | q in nodes
      ensures !ProperPrefix(p, q)
    {
      if ProperPrefix(p, q) {
        AncestorsArePassable(nodes, q, p);
      }
    }
  }

  lemma WithoutIs(nodes: Nodes, p: Path)
    requires WellFormed(nodes)
    ensures WellFormed(Without(nodes, p))
    ensures forall q :: At(Without(nodes, p), q) == if p <= q then None else At(nodes, q)
  {
    forall q | q in Without(nodes, p) && q != []
      ensures Passable(At(Without(nodes, p), Parent(q)))
    {
      assert p <= Parent(q) ==> p <= q;
    }
  }

  lemma {:induction false} WithDirsIs(nodes: Nodes, p: Path)
    requires WellFormed(nodes) && CanMkdirAll(nodes, p)
    ensures WellFormed(WithDirs(nodes, p))
    ensures forall q :: At(WithDirs(nodes, p), q) == if q <= p && At(nodes, q) == None then Some(Dir) else At(nodes, q)
    decreases |p|
  {
    assert p[..|p|] == p;
    if p in nodes {
      forall q | q <= p
        ensures q in nodes
      {
        if q != p {
          AncestorsArePassable(nodes, p, q);
        }
      }
    } else if p != [] {
      var up := Parent(p);
      forall k | 0 <= k <= |up|
        ensures NoneOrPassable(At(nodes, up[..k]))
      {
        assert up[..k] == p[..k];
      }
      WithDirsIs(nodes, up);
      assert p[..|up|] == up;
      forall q
        ensures At(WithDirs(nodes, p), q) == if q <= p && At(nodes, q) == None then Some(Dir) else At(nodes, q)
      {
        PrefixStep(q, p);
      }
    }
  }
}
