/** What restoring a snapshot makes of a tree, for snapshots of plain paths: what kind of entry it leaves at
    each place, and when it succeeds. */
module FileRestore {
  import opened Basics
  import opened FileTree

  /** Every path of the snapshot is one that walking a tree can yield. */
  ghost predicate Proper(snapshot: Snapshot) {
    forall p :: p in snapshot ==> Canonical(p)
  }

  // ---- one entry ----

  lemma PlainPut(nodes: Nodes, p: Path, content: Option<string>)
    requires Canonical(p)
    ensures Target(p) == Some(p) && !StepsUp(p)
    ensures Put(nodes, p, content) == if CanPut(nodes, p, content) then Some(PutAt(nodes, p, content)) else None
  {
    CanonicalSteps(p);
  }

  /** The entry at q once p has been written or removed. */
  function EntryAfter(before: Nodes, p: Path, content: Option<string>, q: Path): Option<Node> {
    if content.Some? && SameFile(before, p, q) then Some(before[q].(content := content.value))
    else if q == p && content.Some? then
      if At(before, p) == Some(Other) then Some(Other) else Some(File(content.value, None))
    else if p <= q && content.None? then None
    else if ProperPrefix(q, p) && At(before, q) == None then Some(Dir)
    else At(before, q)
  }

  /** The directories above an entry, once they have been made. */
  lemma DirsForIs(nodes: Nodes, p: Path)
    requires WellFormed(nodes) && p != [] && CanMkdirAll(nodes, Parent(p))
    ensures var dirs := DirsFor(nodes, p);
            && WellFormed(dirs)
            && (forall q :: ProperPrefix(q, p) ==> NoneOrPassable(At(nodes, q)) && Passable(At(dirs, q)))
            && forall q :: At(dirs, q) == if ProperPrefix(q, p) && At(nodes, q) == None then Some(Dir) else At(nodes, q)
  {
    var up := Parent(p);
    WithDirsIs(nodes, up);
    forall q
      ensures ProperPrefix(q, p) <==> q <= up
      ensures q <= up ==> NoneOrPassable(At(nodes, q))
    {
      PrefixStep(q, p);
      if q <= up {
        assert up[..|q|] == q;
      }
    }
  }

  lemma PutAtIs(nodes: Nodes, p: Path, content: Option<string>)
    requires WellFormed(nodes) && p != [] && CanPut(nodes, p, content)
    ensures WellFormed(PutAt(nodes, p, content))
    ensures forall q :: At(PutAt(nodes, p, content), q) == EntryAfter(nodes, p, content, q)
    ensures forall q :: ProperPrefix(q, p) ==> NoneOrPassable(At(nodes, q))
    ensures content.Some? ==> !Passable(At(nodes, p))
    ensures content.None? && At(nodes, p) == Some(Dir) ==> !NotEmpty(nodes, p)
  {
    DirsForIs(nodes, p);
    var dirs := DirsFor(nodes, p);
    match content {
      case None =>
        WithoutIs(dirs, p);
        forall q | q in nodes
          ensures q in dirs
        {
          assert At(dirs, q) == At(nodes, q);
        }
      case Some(c) =>
        WithFileIs(dirs, p, c);
    }
  }

  lemma WithFileIs(dirs: Nodes, p: Path, content: string)
    requires WellFormed(dirs) && (p != [] ==> Passable(At(dirs, Parent(p)))) && !Passable(At(dirs, p))
    ensures WellFormed(WithFile(dirs, p, content))
  {
    FileHasNothingBelow(dirs, p);
    var after := WithFile(dirs, p, content);
    forall q | q in after && q != []
      ensures Passable(At(after, Parent(q)))
    {
      assert ProperPrefix(Parent(q), q);
      assert q != p ==> q in dirs;
      assert Passable(At(dirs, Parent(q)));
    }
  }

  // ---- several entries, place by place ----

  function Set(order: seq<Path>): set<Path> {
    set p | p in order
  }

  /** Entries of the snapshot, each once. */
  ghost predicate Chosen(order: seq<Path>, snapshot: Snapshot) {
    && (forall p :: p in order ==> p in snapshot)
    && (forall i, j :: 0 <= i < j < |order| ==> order[i] != order[j])
  }

  lemma ChosenBefore(order: seq<Path>, snapshot: Snapshot)
    requires Chosen(order, snapshot) && order != []
    ensures var n := |order| - 1;
            && Chosen(order[..n], snapshot) && order[n] in snapshot && order[n] !in Set(order[..n])
            && Set(order) == Set(order[..n]) + {order[n]}
  {
    assert order == order[..|order| - 1] + [order[|order| - 1]];
  }

  /** A link above q that the snapshot wants to be gone. */
  predicate CutBy(nodes: Nodes, snapshot: Snapshot, r: Path, q: Path) {
    r in snapshot && snapshot[r].None? && At(nodes, r) == Some(Linked) && ProperPrefix(r, q)
  }

  ghost predicate CutOff(nodes: Nodes, snapshot: Snapshot, done: set<Path>, q: Path) {
    exists r :: r in done && CutBy(nodes, snapshot, r, q)
  }

  /** The same, but for what a file holds. */
  predicate SameKind(a: Option<Node>, b: Option<Node>) {
    a == b || (IsFile(a) && IsFile(b))
  }

  /** What kind of entry is now at q, once the entries in done have been restored over a cleaned tree. What was
      behind a link that is gone is missing, or was made anew after the link had gone. */
  ghost predicate WrittenAt(cleaned: Nodes, now: Nodes, snapshot: Snapshot, done: set<Path>, q: Path) {
    var above := IsAbove(q, done);
    if CutOff(cleaned, snapshot, done, q) then
      || At(now, q) == None
      || (At(now, q) == Some(Dir) && above)
      || (q in done && q in snapshot && snapshot[q].Some? && IsFile(At(now, q)))
    else if q in done && q in snapshot then
      match snapshot[q]
      case Some(_) =>
        && !above
        && !Passable(At(cleaned, q))
        && if At(cleaned, q) == Some(Other) then At(now, q) == Some(Other) else IsFile(At(now, q))
      case None => At(now, q) == None || (At(now, q) == Some(Dir) && above)
    else if above then
      NoneOrPassable(At(cleaned, q)) && At(now, q) == if At(cleaned, q) == Some(Linked) then Some(Linked) else Some(Dir)
    else
      SameKind(At(now, q), At(cleaned, q))
  }

  ghost predicate Written(cleaned: Nodes, now: Nodes, snapshot: Snapshot, done: set<Path>) {
    forall q :: WrittenAt(cleaned, now, snapshot, done, q)
  }

  /** The tree after a restore, place by place. */
  ghost predicate Rewound(old': Nodes, now: Nodes, snapshot: Snapshot) {
    Written(Cleaned(old', snapshot), now, snapshot, snapshot.Keys)
  }

  /** The kind of entry at q, once p has been written or removed. */
  lemma PutAtMakes(nodes: Nodes, p: Path, content: Option<string>, q: Path)
    requires WellFormed(nodes) && p != [] && CanPut(nodes, p, content)
    ensures var after := At(PutAt(nodes, p, content), q);
      if q == p && content.Some? then if At(nodes, p) == Some(Other) then after == Some(Other) else IsFile(after)
      else if p <= q && content.None? then after == None
      else if ProperPrefix(q, p) && At(nodes, q) == None then after == Some(Dir)
      else SameKind(after, At(nodes, q))
  {
    PutAtIs(nodes, p, content);
    assert At(PutAt(nodes, p, content), q) == EntryAfter(nodes, p, content, q);
  }

  lemma PutAtMeets(nodes: Nodes, p: Path, content: Option<string>, q: Path)
    requires WellFormed(nodes) && p != [] && CanPut(nodes, p, content)
    ensures ProperPrefix(q, p) ==> NoneOrPassable(At(nodes, q))
    ensures content.Some? ==> !Passable(At(nodes, p))
    ensures content.None? && ProperPrefix(p, q) && q in nodes ==> At(nodes, p) == Some(Linked)
  {
    PutAtIs(nodes, p, content);
    if content.None? && ProperPrefix(p, q) && q in nodes {
      assert NotEmpty(nodes, p);
      AncestorsArePassable(nodes, q, p);
    }
  }

  lemma CutDeeper(cleaned: Nodes, snapshot: Snapshot, done: set<Path>, p: Path, q: Path)
    requires CutOff(cleaned, snapshot, done, p) && ProperPrefix(p, q)
    ensures CutOff(cleaned, snapshot, done, q)
  {
    var r :| r in done && CutBy(cleaned, snapshot, r, p);
    assert CutBy(cleaned, snapshot, r, q);
  }

  lemma OneMore(cleaned: Nodes, snapshot: Snapshot, done: set<Path>, p: Path, q: Path)
    ensures IsAbove(q, done + {p}) <==> IsAbove(q, done) || ProperPrefix(q, p)
    ensures CutOff(cleaned, snapshot, done + {p}, q) <==>
      CutOff(cleaned, snapshot, done, q) || CutBy(cleaned, snapshot, p, q)
  {
  }

  lemma WrittenOneAt(cleaned: Nodes, before: Nodes, now: Nodes, snapshot: Snapshot, done: set<Path>, p: Path, q: Path)
    requires WellFormed(before)
    requires WrittenAt(cleaned, before, snapshot, done, q) && WrittenAt(cleaned, before, snapshot, done, p)
    requires p in snapshot && p !in done && p != [] && done <= snapshot.Keys && CanPut(before, p, snapshot[p])
    requires now == PutAt(before, p, snapshot[p])
    ensures WrittenAt(cleaned, now, snapshot, done + {p}, q)
  {
    PutAtMeets(before, p, snapshot[p], q);
    PutAtMakes(before, p, snapshot[p], q);
    OneMore(cleaned, snapshot, done, p, q);
    if snapshot[p].None? && ProperPrefix(p, q) {
      assert At(now, q) == None;
      if q in before {
        if CutOff(cleaned, snapshot, done, p) {
          CutDeeper(cleaned, snapshot, done, p, q);
        } else {
          assert CutBy(cleaned, snapshot, p, q);
        }
      }
    } else if q == p {
      assert !CutBy(cleaned, snapshot, p, q);
    } else if ProperPrefix(q, p) {
      assert !CutBy(cleaned, snapshot, p, q);
      assert NoneOrPassable(At(before, q));
    } else {
      assert !CutBy(cleaned, snapshot, p, q);
      assert SameKind(At(now, q), At(before, q));
    }
  }

  lemma WrittenOne(cleaned: Nodes, before: Nodes, snapshot: Snapshot, done: set<Path>, p: Path)
    requires WellFormed(before) && Written(cleaned, before, snapshot, done)
    requires p in snapshot && p !in done && p != [] && done <= snapshot.Keys && CanPut(before, p, snapshot[p])
    ensures Written(cleaned, PutAt(before, p, snapshot[p]), snapshot, done + {p})
  {
    assert WrittenAt(cleaned, before, snapshot, done, p);
    forall q
      ensures WrittenAt(cleaned, PutAt(before, p, snapshot[p]), snapshot, done + {p}, q)
    {
      assert WrittenAt(cleaned, before, snapshot, done, q);
      WrittenOneAt(cleaned, before, PutAt(before, p, snapshot[p]), snapshot, done, p, q);
    }
  }

  /** Whatever order the entries come in, each place is as said above. */
  lemma {:induction false} PutAllWrites(cleaned: Nodes, snapshot: Snapshot, order: seq<Path>)
    requires WellFormed(cleaned) && Proper(snapshot)
    requires Chosen(order, snapshot)
    requires PutAll(cleaned, snapshot, order).Some?
    ensures WellFormed(PutAll(cleaned, snapshot, order).value)
    ensures Written(cleaned, PutAll(cleaned, snapshot, order).value, snapshot, Set(order))
    decreases |order|
  {
    if order == [] {
      forall q
        ensures WrittenAt(cleaned, cleaned, snapshot, {}, q)
      {
      }
    } else {
      var n := |order| - 1;
      var p := order[n];
      ChosenBefore(order, snapshot);
      PutAllWrites(cleaned, snapshot, order[..n]);
      var before := PutAll(cleaned, snapshot, order[..n]).value;
      PlainPut(before, p, snapshot[p]);
      PutAtIs(before, p, snapshot[p]);
      WrittenOne(cleaned, before, snapshot, Set(order[..n]), p);
    }
  }

  lemma CleanedIs(nodes: Nodes, snapshot: Snapshot)
    requires WellFormed(nodes)
    ensures WellFormed(Cleaned(nodes, snapshot))
    ensures forall q :: At(Cleaned(nodes, snapshot), q) ==
                        if Captured(nodes, q) && q !in snapshot then None else At(nodes, q)
  {
    var cleaned := Cleaned(nodes, snapshot);
    forall q | q in cleaned && q != []
      ensures Passable(At(cleaned, Parent(q)))
    {
      assert Passable(At(nodes, Parent(q)));
    }
  }

  /** A restore that succeeds does to each place what is said above, whatever the order was. */
  lemma RestoreRewinds(old': Nodes, now: Nodes, snapshot: Snapshot)
    requires Restores(old', now, snapshot) && Proper(snapshot)
    ensures WellFormed(now) && Rewound(old', now, snapshot)
  {
    var order :| RestoresInOrder(old', now, snapshot, order);
    CleanedIs(old', snapshot);
    PutAllWrites(Cleaned(old', snapshot), snapshot, order);
    assert Set(order) == snapshot.Keys;
  }

  // ---- what a restore leaves ----

  lemma CutIsBehind(old': Nodes, snapshot: Snapshot, q: Path)
    requires CutOff(Cleaned(old', snapshot), snapshot, snapshot.Keys, q)
    ensures BehindLink(old', q)
  {
    var r :| r in snapshot.Keys && CutBy(Cleaned(old', snapshot), snapshot, r, q);
    assert q[..|r|] == r;
  }

  /** A link that stands above a restored file and was not to be removed still stands there. */
  lemma LinkStays(old': Nodes, now: Nodes, snapshot: Snapshot, p: Path)
    requires Rewound(old', now, snapshot) && WellFormed(now) && p in now
    requires !CutOff(Cleaned(old', snapshot), snapshot, snapshot.Keys, p)
    ensures BehindLink(old', p) ==> BehindLink(now, p)
  {
    var cleaned := Cleaned(old', snapshot);
    if BehindLink(old', p) {
      var k :| 0 <= k < |p| && At(old', p[..k]) == Some(Linked);
      var r := p[..k];
      assert At(cleaned, r) == Some(Linked);
      assert WrittenAt(cleaned, now, snapshot, snapshot.Keys, r);
      if CutOff(cleaned, snapshot, snapshot.Keys, r) {
        CutDeeper(cleaned, snapshot, snapshot.Keys, r, p);
      }
      AncestorsArePassable(now, p, r);
      assert r in snapshot.Keys ==> !CutBy(cleaned, snapshot, r, p);
      assert At(now, r) == Some(Linked);
    }
  }

  /** And no link has been made. */
  lemma NoNewLink(old': Nodes, now: Nodes, snapshot: Snapshot, p: Path)
    requires Rewound(old', now, snapshot) && BehindLink(now, p)
    ensures BehindLink(old', p)
  {
    var cleaned := Cleaned(old', snapshot);
    var k :| 0 <= k < |p| && At(now, p[..k]) == Some(Linked);
    var r := p[..k];
    assert WrittenAt(cleaned, now, snapshot, snapshot.Keys, r);
    if CutOff(cleaned, snapshot, snapshot.Keys, r) {
      assert false;
    }
    assert At(cleaned, r) == Some(Linked);
  }

  /** What is captured after a restore was asked for. */
  lemma CapturedIsWanted(old': Nodes, now: Nodes, snapshot: Snapshot, q: Path)
    requires WellFormed(old') && Rewound(old', now, snapshot) && WellFormed(now) && Captured(now, q)
    ensures q in snapshot && snapshot[q].Some?
  {
    var cleaned := Cleaned(old', snapshot);
    CleanedIs(old', snapshot);
    assert WrittenAt(cleaned, now, snapshot, snapshot.Keys, q);
    if !CutOff(cleaned, snapshot, snapshot.Keys, q) {
      LinkStays(old', now, snapshot, q);
      assert At(cleaned, q) == if Captured(old', q) && q !in snapshot then None else At(old', q);
    }
  }

  // ---- when a restore succeeds ----

  /** No file that is to be absent has an entry below it. */
  ghost predicate NilsAreLeaves(snapshot: Snapshot) {
    forall p :: p in snapshot && snapshot[p].None? ==> !IsAbove(p, snapshot.Keys)
  }

  /** No file that is to be there has an entry below it. */
  ghost predicate FilesAreLeaves(snapshot: Snapshot) {
    forall p :: p in snapshot && snapshot[p].Some? ==> !IsAbove(p, snapshot.Keys)
  }

  /** There is room for an entry: what has to be a directory above it is one, is a link to one, or is
      missing; no directory stands where a file has to go; a directory that has to go is empty. */
  ghost predicate RoomFor(nodes: Nodes, p: Path, content: Option<string>) {
    && (forall q :: ProperPrefix(q, p) ==> NoneOrPassable(At(nodes, q)))
    && match content
       case Some(_) => !Passable(At(nodes, p))
       case None => At(nodes, p) == Some(Dir) ==> !NotEmpty(nodes, p)
  }

  /** When a snapshot can be written back over a tree. */
  ghost predicate Restorable(old': Nodes, snapshot: Snapshot) {
    && FilesAreLeaves(snapshot)
    && forall p :: p in snapshot ==> RoomFor(Cleaned(old', snapshot), p, snapshot[p])
  }

  lemma CanPutIff(nodes: Nodes, p: Path, content: Option<string>)
    requires WellFormed(nodes) && p != []
    ensures CanPut(nodes, p, content) <==> RoomFor(nodes, p, content)
  {
    if CanPut(nodes, p, content) {
      PutAtIs(nodes, p, content);
    }
    if RoomFor(nodes, p, content) {
      var up := Parent(p);
      forall k | 0 <= k <= |up|
        ensures NoneOrPassable(At(nodes, up[..k]))
      {
        assert ProperPrefix(up[..k], p);
      }
      WithDirsIs(nodes, up);
      var dirs := WithDirs(nodes, up);
      assert At(dirs, p) == At(nodes, p);
      forall q | ProperPrefix(p, q)
        ensures At(dirs, q) == At(nodes, q)
      {
      }
      assert NotEmpty(dirs, p) ==> NotEmpty(nodes, p) by {
        if q :| q in dirs && ProperPrefix(p, q) {
          assert At(dirs, q) == At(nodes, q);
          assert q in nodes;
        }
      }
    }
  }

  /** Entries that are neither above nor below one another leave each other's room alone. */
  lemma RoomStays(cleaned: Nodes, now: Nodes, snapshot: Snapshot, done: set<Path>, p: Path)
    requires Written(cleaned, now, snapshot, done) && done <= snapshot.Keys
    requires NilsAreLeaves(snapshot) && FilesAreLeaves(snapshot)
    requires p in snapshot && p !in done
    ensures RoomFor(now, p, snapshot[p]) <==> RoomFor(cleaned, p, snapshot[p])
  {
    forall q | q <= p
      ensures NoneOrPassable(At(now, q)) <==> NoneOrPassable(At(cleaned, q))
      ensures q == p ==> SameKind(At(now, q), At(cleaned, q))
    {
      assert WrittenAt(cleaned, now, snapshot, done, q);
      NoneAbove(cleaned, snapshot, done, p, q);
    }
    forall q | ProperPrefix(p, q)
      ensures SameKind(At(now, q), At(cleaned, q))
    {
      assert WrittenAt(cleaned, now, snapshot, done, q);
      Unrelated(cleaned, snapshot, done, p, q);
    }
    assert NotEmpty(now, p) <==> NotEmpty(cleaned, p) by {
      if q :| q in now && ProperPrefix(p, q) {
        assert SameKind(At(now, q), At(cleaned, q));
        assert q in cleaned;
      }
      if q :| q in cleaned && ProperPrefix(p, q) {
        assert SameKind(At(now, q), At(cleaned, q));
        assert q in now;
      }
    }
  }

  lemma NoneAbove(cleaned: Nodes, snapshot: Snapshot, done: set<Path>, p: Path, q: Path)
    requires done <= snapshot.Keys && NilsAreLeaves(snapshot) && FilesAreLeaves(snapshot)
    requires p in snapshot && p !in done && q <= p
    ensures !CutOff(cleaned, snapshot, done, q) && q !in done
    ensures q == p ==> !IsAbove(q, done)
  {
    assert forall r :: ProperPrefix(r, q) || (r == q && q != p) ==> ProperPrefix(r, p);
    assert forall r :: ProperPrefix(r, p) ==> IsAbove(r, snapshot.Keys);
  }

  lemma Unrelated(cleaned: Nodes, snapshot: Snapshot, done: set<Path>, p: Path, q: Path)
    requires done <= snapshot.Keys && NilsAreLeaves(snapshot) && FilesAreLeaves(snapshot)
    requires p in snapshot && p !in done && ProperPrefix(p, q)
    ensures !CutOff(cleaned, snapshot, done, q) && !IsAbove(q, done) && q !in done
  {
    assert !IsAbove(p, snapshot.Keys);
    forall r | ProperPrefix(r, q)
      ensures r !in done
    {
      assert r == p || ProperPrefix(r, p) || ProperPrefix(p, r);
      assert ProperPrefix(r, p) ==> IsAbove(r, snapshot.Keys);
    }
    forall r | ProperPrefix(q, r)
      ensures r !in done
    {
      assert ProperPrefix(p, r);
    }
  }

  /** A restorable snapshot meets no obstacle, in whatever order its entries come. */
  lemma {:induction false} RestorableSucceeds(cleaned: Nodes, snapshot: Snapshot, order: seq<Path>)
    requires WellFormed(cleaned) && Proper(snapshot) && NilsAreLeaves(snapshot) && FilesAreLeaves(snapshot)
    requires forall p :: p in snapshot ==> RoomFor(cleaned, p, snapshot[p])
    requires Chosen(order, snapshot)
    ensures PutAll(cleaned, snapshot, order).Some?
    decreases |order|
  {
    if order != [] {
      var n := |order| - 1;
      var p := order[n];
      ChosenBefore(order, snapshot);
      RestorableSucceeds(cleaned, snapshot, order[..n]);
      PutAllWrites(cleaned, snapshot, order[..n]);
      var before := PutAll(cleaned, snapshot, order[..n]).value;
      RoomStays(cleaned, before, snapshot, Set(order[..n]), p);
      CanPutIff(before, p, snapshot[p]);
      PlainPut(before, p, snapshot[p]);
    }
  }

  /** And what succeeded in some order met room for every entry before the first was written. */
  lemma {:induction false} SuccessMetRoom(cleaned: Nodes, snapshot: Snapshot, order: seq<Path>, p: Path)
    requires WellFormed(cleaned) && Proper(snapshot) && NilsAreLeaves(snapshot) && FilesAreLeaves(snapshot)
    requires Chosen(order, snapshot)
    requires PutAll(cleaned, snapshot, order).Some? && p in order
    ensures RoomFor(cleaned, p, snapshot[p])
    decreases |order|
  {
    var n := |order| - 1;
    ChosenBefore(order, snapshot);
    if p == order[n] {
      PutAllWrites(cleaned, snapshot, order[..n]);
      var before := PutAll(cleaned, snapshot, order[..n]).value;
      RoomStays(cleaned, before, snapshot, Set(order[..n]), p);
      CanPutIff(before, p, snapshot[p]);
      PlainPut(before, p, snapshot[p]);
    } else {
      SuccessMetRoom(cleaned, snapshot, order[..n], p);
    }
  }

  /** No snapshot in which a file lies below another can be written, where links stay. */
  lemma FilesWereLeaves(cleaned: Nodes, now: Nodes, snapshot: Snapshot)
    requires Written(cleaned, now, snapshot, snapshot.Keys)
    requires forall q :: !CutOff(cleaned, snapshot, snapshot.Keys, q) || !IsAbove(q, snapshot.Keys)
    ensures FilesAreLeaves(snapshot)
  {
    forall p | p in snapshot && snapshot[p].Some?
      ensures !IsAbove(p, snapshot.Keys)
    {
      assert WrittenAt(cleaned, now, snapshot, snapshot.Keys, p);
    }
  }

  lemma NothingCutAbove(cleaned: Nodes, snapshot: Snapshot, q: Path)
    requires NilsAreLeaves(snapshot)
    ensures !CutOff(cleaned, snapshot, snapshot.Keys, q) || !(IsAbove(q, snapshot.Keys) || q in snapshot)
  {
    if CutOff(cleaned, snapshot, snapshot.Keys, q) {
      var r :| r in snapshot.Keys && CutBy(cleaned, snapshot, r, q);
      assert !IsAbove(r, snapshot.Keys);
      forall p | ProperPrefix(q, p) || p == q
        ensures p !in snapshot
      {
        assert ProperPrefix(r, p);
      }
    }
  }

  /** A snapshot in which no file to be absent has an entry below it can be restored exactly if there is
      room for all its entries at the start; then every order of the entries succeeds. */
  lemma RestoreSucceedsIff(old': Nodes, snapshot: Snapshot, order: seq<Path>)
    requires WellFormed(old') && Proper(snapshot) && NilsAreLeaves(snapshot)
    requires Enumerates(order, snapshot.Keys)
    ensures PutAll(Cleaned(old', snapshot), snapshot, order).Some? <==> Restorable(old', snapshot)
  {
    var cleaned := Cleaned(old', snapshot);
    CleanedIs(old', snapshot);
    if Restorable(old', snapshot) {
      RestorableSucceeds(cleaned, snapshot, order);
    }
    if PutAll(cleaned, snapshot, order).Some? {
      PutAllWrites(cleaned, snapshot, order);
      assert Set(order) == snapshot.Keys;
      forall q
        ensures !CutOff(cleaned, snapshot, snapshot.Keys, q) || !IsAbove(q, snapshot.Keys)
      {
        NothingCutAbove(cleaned, snapshot, q);
      }
      FilesWereLeaves(cleaned, PutAll(cleaned, snapshot, order).value, snapshot);
      forall p | p in snapshot
        ensures RoomFor(cleaned, p, snapshot[p])
      {
        SuccessMetRoom(cleaned, snapshot, order, p);
      }
    }
  }

  /** A capture can be restored over the tree it was taken from. */
  lemma CaptureIsRestorable(was: Nodes)
    requires WellFormed(was) && forall p :: p in was && p != [] ==> Canonical(p)
    ensures Proper(Capture(was)) && NilsAreLeaves(Capture(was)) && Restorable(was, Capture(was))
  {
    var snapshot := Capture(was);
    CleanedIs(was, snapshot);
    forall p | p in snapshot
      ensures !IsAbove(p, snapshot.Keys) && RoomFor(Cleaned(was, snapshot), p, snapshot[p])
    {
      FileHasNothingBelow(was, p);
      forall q | ProperPrefix(q, p)
        ensures NoneOrPassable(At(Cleaned(was, snapshot), q))
      {
        AncestorsArePassable(was, p, q);
      }
    }
  }

  // ---- restoring twice ----

  /** After a restore nothing is left to delete. */
  lemma NothingToClean(old': Nodes, once: Nodes, snapshot: Snapshot)
    requires Restores(old', once, snapshot) && Proper(snapshot)
    ensures Cleaned(once, snapshot) == once
  {
    RestoreRewinds(old', once, snapshot);
    forall q | q in once
      ensures q in Cleaned(once, snapshot)
    {
      if Captured(once, q) {
        CapturedIsWanted(old', once, snapshot, q);
      }
    }
  }

  /** And no link is left that has to go. */
  lemma NothingToCut(old': Nodes, once: Nodes, snapshot: Snapshot, q: Path)
    requires Restores(old', once, snapshot) && Proper(snapshot)
    ensures !CutOff(once, snapshot, snapshot.Keys, q)
  {
    RestoreRewinds(old', once, snapshot);
    forall r | r in snapshot && snapshot[r].None?
      ensures At(once, r) != Some(Linked)
    {
      assert WrittenAt(Cleaned(old', snapshot), once, snapshot, snapshot.Keys, r);
    }
  }

  /** What has been restored can be restored again, so the second restore does succeed. */
  lemma RewoundIsRestorable(old': Nodes, once: Nodes, snapshot: Snapshot)
    requires Restores(old', once, snapshot) && Proper(snapshot) && NilsAreLeaves(snapshot)
    ensures Restorable(once, snapshot)
  {
    var cleaned := Cleaned(old', snapshot);
    CleanedIs(old', snapshot);
    NothingToClean(old', once, snapshot);
    RestoreRewinds(old', once, snapshot);
    var order :| RestoresInOrder(old', once, snapshot, order);
    RestoreSucceedsIff(old', snapshot, order);
    forall p | p in snapshot
      ensures RoomFor(once, p, snapshot[p])
    {
      NothingCutAbove(cleaned, snapshot, p);
      assert WrittenAt(cleaned, once, snapshot, snapshot.Keys, p);
      forall q | ProperPrefix(q, p)
        ensures NoneOrPassable(At(once, q))
      {
        NothingCutAbove(cleaned, snapshot, q);
        assert IsAbove(q, snapshot.Keys);
        assert WrittenAt(cleaned, once, snapshot, snapshot.Keys, q);
      }
    }
  }
}
