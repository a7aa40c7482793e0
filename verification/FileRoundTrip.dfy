/** What capturing, restoring and capturing again, or restoring twice, comes to. */
module FileRoundTrip {
  import opened Basics
  import opened FileTree
  import opened FileRestore

  // ---- what the files hold ----

  /** What was last written, under any name, to the file that has a name at q; None if nothing was. A write
      behind a link that has gone makes a file of its own. */
  ghost function LastWrite(cleaned: Nodes, snapshot: Snapshot, order: seq<Path>, q: Path): Option<string>
    requires forall i :: 0 <= i < |order| ==> order[i] in snapshot
  {
    if order == [] then None
    else
      var n := |order| - 1;
      var p := order[n];
      if snapshot[p].Some? && SameFile(cleaned, p, q) && !CutOff(cleaned, snapshot, Set(order[..n]), p) then snapshot[p]
      else LastWrite(cleaned, snapshot, order[..n], q)
  }

  /** A file that is there afterwards holds what was last written to it, or what it held, under all its
      names; or it was made anew, with one name. */
  ghost predicate FilledAt(cleaned: Nodes, now: Nodes, snapshot: Snapshot, order: seq<Path>, q: Path)
    requires Chosen(order, snapshot)
  {
    IsFile(At(now, q)) ==>
      if IsFile(At(cleaned, q)) && !CutOff(cleaned, snapshot, Set(order), q) then
        now[q] == cleaned[q].(content := GetOr(LastWrite(cleaned, snapshot, order, q), cleaned[q].content))
      else q in order && snapshot[q].Some? && now[q] == File(snapshot[q].value, None)
  }

  ghost predicate Filled(cleaned: Nodes, now: Nodes, snapshot: Snapshot, order: seq<Path>)
    requires Chosen(order, snapshot)
  {
    forall q :: FilledAt(cleaned, now, snapshot, order, q)
  }

  /** A file whose turn has not come still has the names it had. */
  lemma StillItself(cleaned: Nodes, before: Nodes, snapshot: Snapshot, order: seq<Path>, p: Path)
    requires Chosen(order, snapshot) && p !in order
    requires WrittenAt(cleaned, before, snapshot, Set(order), p) && FilledAt(cleaned, before, snapshot, order, p)
    ensures IsFile(At(before, p)) <==> IsFile(At(cleaned, p)) && !CutOff(cleaned, snapshot, Set(order), p)
    ensures IsFile(At(before, p)) ==> before[p].shared == cleaned[p].shared
  {
  }

  lemma FilledOneAt(cleaned: Nodes, before: Nodes, snapshot: Snapshot, order: seq<Path>, q: Path)
    requires Chosen(order, snapshot) && order != [] && WellFormed(before)
    requires var n := |order| - 1;
      && Chosen(order[..n], snapshot) && order[n] != [] && CanPut(before, order[n], snapshot[order[n]])
      && WrittenAt(cleaned, before, snapshot, Set(order[..n]), order[n])
      && FilledAt(cleaned, before, snapshot, order[..n], order[n]) && FilledAt(cleaned, before, snapshot, order[..n], q)
    ensures var p := order[|order| - 1]; FilledAt(cleaned, PutAt(before, p, snapshot[p]), snapshot, order, q)
  {
    var n := |order| - 1;
    var p := order[n];
    ChosenBefore(order, snapshot);
    PutAtIs(before, p, snapshot[p]);
    assert At(PutAt(before, p, snapshot[p]), q) == EntryAfter(before, p, snapshot[p], q);
    OneMore(cleaned, snapshot, Set(order[..n]), p, q);
    StillItself(cleaned, before, snapshot, order[..n], p);
  }

  lemma {:induction false} PutAllFills(cleaned: Nodes, snapshot: Snapshot, order: seq<Path>)
    requires WellFormed(cleaned) && Proper(snapshot) && Chosen(order, snapshot)
    requires PutAll(cleaned, snapshot, order).Some?
    ensures Filled(cleaned, PutAll(cleaned, snapshot, order).value, snapshot, order)
    decreases |order|
  {
    if order == [] {
      assert Set(order) == {};
    } else {
      var n := |order| - 1;
      var p := order[n];
      ChosenBefore(order, snapshot);
      PutAllFills(cleaned, snapshot, order[..n]);
      PutAllWrites(cleaned, snapshot, order[..n]);
      var before := PutAll(cleaned, snapshot, order[..n]).value;
      PlainPut(before, p, snapshot[p]);
      assert WrittenAt(cleaned, before, snapshot, Set(order[..n]), p);
      forall q
        ensures FilledAt(cleaned, PutAt(before, p, snapshot[p]), snapshot, order, q)
      {
        assert FilledAt(cleaned, before, snapshot, order[..n], q) && FilledAt(cleaned, before, snapshot, order[..n], p);
        FilledOneAt(cleaned, before, snapshot, order, q);
      }
    }
  }

  /** After a restore that succeeded, each file holds what was last written to it under any of its names. */
  lemma RestoreFills(old': Nodes, now: Nodes, snapshot: Snapshot, order: seq<Path>)
    requires WellFormed(old') && Proper(snapshot) && RestoresInOrder(old', now, snapshot, order)
    ensures Chosen(order, snapshot) && Filled(Cleaned(old', snapshot), now, snapshot, order)
  {
    CleanedIs(old', snapshot);
    PutAllFills(Cleaned(old', snapshot), snapshot, order);
  }

  /** All names of a file have the same last write, which is one the snapshot wants at one of them. */
  lemma {:induction false} LastWriteIsShared(cleaned: Nodes, snapshot: Snapshot, order: seq<Path>, p: Path, q: Path)
    requires Chosen(order, snapshot) && SameFile(cleaned, p, q)
    ensures LastWrite(cleaned, snapshot, order, p) == LastWrite(cleaned, snapshot, order, q)
    decreases |order|
  {
    if order != [] {
      ChosenBefore(order, snapshot);
      LastWriteIsShared(cleaned, snapshot, order[..|order| - 1], p, q);
    }
  }

  lemma {:induction false} LastWriteIsWanted(cleaned: Nodes, snapshot: Snapshot, order: seq<Path>, q: Path)
    returns (p: Path)
    requires Chosen(order, snapshot) && LastWrite(cleaned, snapshot, order, q).Some?
    ensures p in order && SameFile(cleaned, p, q) && snapshot[p] == LastWrite(cleaned, snapshot, order, q)
    decreases |order|
  {
    var n := |order| - 1;
    p := order[n];
    ChosenBefore(order, snapshot);
    if !(snapshot[p].Some? && SameFile(cleaned, p, q) && !CutOff(cleaned, snapshot, Set(order[..n]), p)) {
      p := LastWriteIsWanted(cleaned, snapshot, order[..n], q);
    }
  }

  /** A wanted file that was not cut off has been written to. */
  lemma {:induction false} WantedWasWritten(cleaned: Nodes, snapshot: Snapshot, order: seq<Path>, q: Path)
    requires Chosen(order, snapshot) && q in order && snapshot[q].Some? && IsFile(At(cleaned, q))
    requires !CutOff(cleaned, snapshot, Set(order), q)
    ensures LastWrite(cleaned, snapshot, order, q).Some?
    decreases |order|
  {
    var n := |order| - 1;
    ChosenBefore(order, snapshot);
    OneMore(cleaned, snapshot, Set(order[..n]), order[n], q);
    if q != order[n] {
      assert q in Set(order) && q in order[..n];
      WantedWasWritten(cleaned, snapshot, order[..n], q);
    }
  }

  /** All names of a file show the same content. */
  ghost predicate NamesAgree(nodes: Nodes) {
    forall p, q :: SameFile(nodes, p, q) ==> nodes[p].content == nodes[q].content
  }

  /** And they still do after a restore. */
  lemma NamesStillAgree(old': Nodes, now: Nodes, snapshot: Snapshot)
    requires Restores(old', now, snapshot) && Proper(snapshot) && NamesAgree(old')
    ensures NamesAgree(now)
  {
    var order :| RestoresInOrder(old', now, snapshot, order);
    var cleaned := Cleaned(old', snapshot);
    RestoreFills(old', now, snapshot, order);
    forall p, q | SameFile(now, p, q)
      ensures now[p].content == now[q].content
    {
      if p != q {
        assert FilledAt(cleaned, now, snapshot, order, p) && FilledAt(cleaned, now, snapshot, order, q);
        assert SameFile(old', p, q);
        LastWriteIsShared(cleaned, snapshot, order, p, q);
      }
    }
  }

  // ---- what a capture finds afterwards ----

  /** The files a snapshot asks for. */
  function Wanted(snapshot: Snapshot): Snapshot {
    map p | p in snapshot && snapshot[p].Some? :: snapshot[p]
  }

  /** Where a file can be restored and found again: outside .git, not where a special file stands,
      and not behind a link. */
  predicate Recoverable(old': Nodes, p: Path) {
    !Excluded(p) && At(old', p) != Some(Other) && !BehindLink(old', p)
  }

  /** Where two names have become one file, the snapshot wants the same for both. */
  ghost predicate Agreed(old': Nodes, snapshot: Snapshot) {
    forall p, q :: p in Wanted(snapshot) && q in Wanted(snapshot) && SameFile(old', p, q) ==> snapshot[p] == snapshot[q]
  }

  /** A wanted file that no removed link cut off is captured if and only if it was recoverable. */
  lemma WantedIsCapturedIff(old': Nodes, now: Nodes, snapshot: Snapshot, p: Path)
    requires WellFormed(old') && Rewound(old', now, snapshot) && WellFormed(now)
    requires p in Wanted(snapshot) && p != []
    requires !CutOff(Cleaned(old', snapshot), snapshot, snapshot.Keys, p)
    ensures Recoverable(old', p) <==> Captured(now, p)
  {
    var cleaned := Cleaned(old', snapshot);
    CleanedIs(old', snapshot);
    assert WrittenAt(cleaned, now, snapshot, snapshot.Keys, p);
    LinkStays(old', now, snapshot, p);
    if BehindLink(now, p) {
      NoNewLink(old', now, snapshot, p);
    }
  }

  // ---- behind a link ----

  /** The first link on the way to p. */
  predicate OutermostLink(nodes: Nodes, r: Path, p: Path) {
    At(nodes, r) == Some(Linked) && ProperPrefix(r, p) && !BehindLink(nodes, r)
  }

  lemma {:induction false} Outermost(nodes: Nodes, p: Path) returns (r: Path)
    requires BehindLink(nodes, p)
    ensures OutermostLink(nodes, r, p)
    decreases |p|
  {
    var k :| 0 <= k < |p| && At(nodes, p[..k]) == Some(Linked);
    r := p[..k];
    if BehindLink(nodes, r) {
      r := Outermost(nodes, r);
    }
  }

  /** That link is to go, and its turn comes before p's. */
  ghost predicate Reopened(nodes: Nodes, snapshot: Snapshot, order: seq<Path>, p: Path) {
    exists i, j :: 0 <= i < j < |order| && order[j] == p && GoesAbove(nodes, snapshot, order[i], p)
  }

  predicate GoesAbove(nodes: Nodes, snapshot: Snapshot, r: Path, p: Path) {
    r in snapshot && snapshot[r].None? && OutermostLink(nodes, r, p)
  }

  /** With the link gone, the place is free and behind no other link. */
  lemma FreeOnceGone(cleaned: Nodes, before: Nodes, snapshot: Snapshot, done: set<Path>, r: Path, p: Path)
    requires Written(cleaned, before, snapshot, done) && r in done && p !in done && GoesAbove(cleaned, snapshot, r, p)
    requires !Passable(At(before, p))
    ensures At(before, p) == None && !BehindLink(before, p)
  {
    assert CutBy(cleaned, snapshot, r, p) && WrittenAt(cleaned, before, snapshot, done, p);
    forall k | 0 <= k < |p|
      ensures At(before, p[..k]) != Some(Linked)
    {
      var q := p[..k];
      assert WrittenAt(cleaned, before, snapshot, done, q);
      if ProperPrefix(q, r) {
        assert r[..k] == q;
      } else if q != r {
        assert CutBy(cleaned, snapshot, r, q);
      }
    }
  }

  /** A new file that is behind no link is left alone by all other entries. */
  lemma NewFileStays(before: Nodes, r: Path, content: Option<string>, p: Path)
    requires WellFormed(before) && r != [] && r != p && CanPut(before, r, content)
    requires IsFile(At(before, p)) && before[p].shared == None && !BehindLink(before, p)
    ensures At(PutAt(before, r, content), p) == At(before, p) && !BehindLink(PutAt(before, r, content), p)
  {
    assert r <= p ==> p[..|r|] == r;
    PutAtIs(before, r, content);
    PutAtMeets(before, r, content, p);
    var after := PutAt(before, r, content);
    assert At(after, p) == EntryAfter(before, r, content, p);
    forall k | 0 <= k < |p|
      ensures At(after, p[..k]) != Some(Linked)
    {
      assert At(after, p[..k]) == EntryAfter(before, r, content, p[..k]);
    }
  }

  /** The last entry, and the tree it meets. */
  lemma LastPut(cleaned: Nodes, snapshot: Snapshot, order: seq<Path>)
    requires WellFormed(cleaned) && Proper(snapshot) && Chosen(order, snapshot) && order != []
    requires PutAll(cleaned, snapshot, order).Some?
    ensures var n := |order| - 1;
      && Chosen(order[..n], snapshot) && PutAll(cleaned, snapshot, order[..n]).Some?
      && var before, p := PutAll(cleaned, snapshot, order[..n]).value, order[n];
        && WellFormed(before) && Written(cleaned, before, snapshot, Set(order[..n]))
        && p in snapshot && p != [] && p !in Set(order[..n]) && CanPut(before, p, snapshot[p])
        && PutAll(cleaned, snapshot, order) == Some(PutAt(before, p, snapshot[p]))
  {
    var n := |order| - 1;
    ChosenBefore(order, snapshot);
    PutAllWrites(cleaned, snapshot, order[..n]);
    PlainPut(PutAll(cleaned, snapshot, order[..n]).value, order[n], snapshot[order[n]]);
  }

  lemma LastIsWritten(cleaned: Nodes, snapshot: Snapshot, order: seq<Path>, r: Path)
    requires WellFormed(cleaned) && Proper(snapshot) && Chosen(order, snapshot)
    requires order != [] && PutAll(cleaned, snapshot, order).Some?
    requires r in order[..|order| - 1] && GoesAbove(cleaned, snapshot, r, order[|order| - 1])
    requires snapshot[order[|order| - 1]].Some?
    ensures var p, now := order[|order| - 1], PutAll(cleaned, snapshot, order).value;
      At(now, p) == Some(File(snapshot[p].value, None)) && !BehindLink(now, p)
  {
    var n := |order| - 1;
    var p := order[n];
    LastPut(cleaned, snapshot, order);
    var before := PutAll(cleaned, snapshot, order[..n]).value;
    PutAtMeets(before, p, snapshot[p], p);
    FreeOnceGone(cleaned, before, snapshot, Set(order[..n]), r, p);
    NewFileIsPut(before, p, snapshot[p].value);
  }

  lemma {:induction false} ReopenedIsWritten(cleaned: Nodes, snapshot: Snapshot, order: seq<Path>, i: nat, j: nat)
    requires WellFormed(cleaned) && Proper(snapshot) && Chosen(order, snapshot)
    requires PutAll(cleaned, snapshot, order).Some?
    requires i < j < |order| && GoesAbove(cleaned, snapshot, order[i], order[j]) && snapshot[order[j]].Some?
    ensures var p, now := order[j], PutAll(cleaned, snapshot, order).value;
      At(now, p) == Some(File(snapshot[p].value, None)) && !BehindLink(now, p)
    decreases |order|
  {
    var n := |order| - 1;
    var p, last := order[j], order[n];
    LastPut(cleaned, snapshot, order);
    var before := PutAll(cleaned, snapshot, order[..n]).value;
    if j == n {
      assert order[..n][i] == order[i];
      LastIsWritten(cleaned, snapshot, order, order[i]);
    } else {
      ReopenedIsWritten(cleaned, snapshot, order[..n], i, j);
      NewFileStays(before, last, snapshot[last], p);
    }
  }

  lemma NewFileIsPut(before: Nodes, p: Path, content: string)
    requires WellFormed(before) && p != [] && CanPut(before, p, Some(content)) && At(before, p) == None
    requires !BehindLink(before, p)
    ensures At(PutAt(before, p, Some(content)), p) == Some(File(content, None)) &&
        !BehindLink(PutAt(before, p, Some(content)), p)
  {
    PutAtIs(before, p, Some(content));
    var after := PutAt(before, p, Some(content));
    assert At(after, p) == EntryAfter(before, p, Some(content), p);
    forall k | 0 <= k < |p|
      ensures At(after, p[..k]) != Some(Linked)
    {
      assert At(after, p[..k]) == EntryAfter(before, p, Some(content), p[..k]);
    }
  }

  lemma NoFileMade(before: Nodes, r: Path, content: Option<string>, p: Path)
    requires WellFormed(before) && r != [] && CanPut(before, r, content)
    requires (content.None? && r <= p) || (r != p && !IsFile(At(before, p)))
    ensures !IsFile(At(PutAt(before, r, content), p))
  {
    PutAtMakes(before, r, content, p);
  }

  /** What was below an entry that has gone is no file, unless its own turn comes later. */
  lemma {:induction false} GoneBelow(cleaned: Nodes, snapshot: Snapshot, order: seq<Path>, i: nat, p: Path)
    requires WellFormed(cleaned) && Proper(snapshot) && Chosen(order, snapshot)
    requires PutAll(cleaned, snapshot, order).Some?
    requires i < |order| && snapshot[order[i]].None? && ProperPrefix(order[i], p)
    requires forall k :: i <= k < |order| ==> order[k] != p
    ensures !IsFile(At(PutAll(cleaned, snapshot, order).value, p))
    decreases |order|
  {
    var n := |order| - 1;
    var last := order[n];
    LastPut(cleaned, snapshot, order);
    var before := PutAll(cleaned, snapshot, order[..n]).value;
    if i < n {
      GoneBelow(cleaned, snapshot, order[..n], i, p);
    }
    NoFileMade(before, last, snapshot[last], p);
  }

  /** Links do not come or go by deleting files. */
  lemma LinksOfCleaned(old': Nodes, snapshot: Snapshot, p: Path)
    requires WellFormed(old')
    ensures BehindLink(Cleaned(old', snapshot), p) <==> BehindLink(old', p)
    ensures forall r :: OutermostLink(Cleaned(old', snapshot), r, p) <==> OutermostLink(old', r, p)
  {
    var cleaned := Cleaned(old', snapshot);
    CleanedIs(old', snapshot);
    assert forall q: Path, k | 0 <= k < |q| :: At(cleaned, q[..k]) == Some(Linked) <==>
      At(old', q[..k]) == Some(Linked);
  }

  /** A wanted file behind a link is found again exactly if that link was removed before the file's turn. */
  lemma BehindLinkIff(old': Nodes, now: Nodes, snapshot: Snapshot, order: seq<Path>, p: Path)
    requires WellFormed(old') && Proper(snapshot) && RestoresInOrder(old', now, snapshot, order)
    requires p in Wanted(snapshot) && BehindLink(old', p)
    ensures Captured(now, p) <==> !Excluded(p) && Reopened(old', snapshot, order, p)
    ensures Reopened(old', snapshot, order, p) ==> At(now, p) == Some(File(snapshot[p].value, None))
  {
    var cleaned := Cleaned(old', snapshot);
    CleanedIs(old', snapshot);
    LinksOfCleaned(old', snapshot, p);
    if Reopened(old', snapshot, order, p) {
      var i, j :| 0 <= i < j < |order| && order[j] == p && GoesAbove(old', snapshot, order[i], p);
      ReopenedIsWritten(cleaned, snapshot, order, i, j);
    } else if Captured(now, p) {
      ThenReopened(old', now, snapshot, order, p);
    }
  }

  lemma ThenReopened(old': Nodes, now: Nodes, snapshot: Snapshot, order: seq<Path>, p: Path)
    requires WellFormed(old') && Proper(snapshot) && RestoresInOrder(old', now, snapshot, order)
    requires p in Wanted(snapshot) && BehindLink(old', p) && Captured(now, p)
    ensures Reopened(old', snapshot, order, p)
  {
    RestoreRewinds(old', now, snapshot);
    var r := Outermost(old', p);
    OutermostWasRemoved(old', now, snapshot, r, p);
    if !Reopened(old', snapshot, order, p) {
      CleanedIs(old', snapshot);
      var i :| 0 <= i < |order| && order[i] == r;
      assert forall j :: i <= j < |order| ==> order[j] != p;
      GoneBelow(Cleaned(old', snapshot), snapshot, order, i, p);
    }
  }

  lemma OutermostWasRemoved(old': Nodes, now: Nodes, snapshot: Snapshot, r: Path, p: Path)
    requires WellFormed(old') && Rewound(old', now, snapshot) && p in snapshot && OutermostLink(old', r, p)
    requires !BehindLink(now, p)
    ensures GoesAbove(old', snapshot, r, p)
  {
    var cleaned := Cleaned(old', snapshot);
    CleanedIs(old', snapshot);
    if CutOff(cleaned, snapshot, snapshot.Keys, r) {
      CutIsBehind(old', snapshot, r);
    }
    assert WrittenAt(cleaned, now, snapshot, snapshot.Keys, r);
    assert IsAbove(r, snapshot.Keys);
    assert p[..|r|] == r;
  }

  // ---- the capture afterwards ----

  /** A wanted file comes back. Behind a link: if the link is removed before its turn. Elsewhere: if no
      special file stands there and what was last written to the file, under any name, was what is wanted. */
  ghost predicate ComesBack(old': Nodes, snapshot: Snapshot, order: seq<Path>, p: Path)
    requires Chosen(order, snapshot) && p in snapshot
  {
    && !Excluded(p)
    && if BehindLink(old', p) then Reopened(old', snapshot, order, p)
       else && At(old', p) != Some(Other)
            && (IsFile(At(old', p)) ==> LastWrite(Cleaned(old', snapshot), snapshot, order, p) == snapshot[p])
  }

  lemma ComesBackIff(old': Nodes, now: Nodes, snapshot: Snapshot, order: seq<Path>, p: Path)
    requires WellFormed(old') && Proper(snapshot) && RestoresInOrder(old', now, snapshot, order)
    requires p in Wanted(snapshot)
    ensures Chosen(order, snapshot)
    ensures Captured(now, p) && now[p].content == snapshot[p].value <==> ComesBack(old', snapshot, order, p)
  {
    var cleaned := Cleaned(old', snapshot);
    CleanedIs(old', snapshot);
    RestoreRewinds(old', now, snapshot);
    RestoreFills(old', now, snapshot, order);
    if BehindLink(old', p) {
      BehindLinkIff(old', now, snapshot, order, p);
    } else {
      assert Set(order) == snapshot.Keys;
      if CutOff(cleaned, snapshot, snapshot.Keys, p) {
        CutIsBehind(old', snapshot, p);
      }
      WantedIsCapturedIff(old', now, snapshot, p);
      assert FilledAt(cleaned, now, snapshot, order, p);
      if IsFile(At(cleaned, p)) {
        WantedWasWritten(cleaned, snapshot, order, p);
      }
    }
  }

  /** For every order in which a restore succeeds, over whatever the tree had become: a fresh capture is
      the wanted files exactly if each of them comes back. */
  lemma CaptureInOrderIff(old': Nodes, now: Nodes, snapshot: Snapshot, order: seq<Path>)
    requires WellFormed(old') && Proper(snapshot) && RestoresInOrder(old', now, snapshot, order)
    ensures Chosen(order, snapshot)
    ensures Capture(now) == Wanted(snapshot) <==>
        forall p :: p in Wanted(snapshot) ==> ComesBack(old', snapshot, order, p)
  {
    RestoreRewinds(old', now, snapshot);
    RestoreFills(old', now, snapshot, order);
    forall q | Captured(now, q)
      ensures q in Wanted(snapshot)
    {
      CapturedIsWanted(old', now, snapshot, q);
    }
    forall p | p in Wanted(snapshot)
      ensures p in Capture(now) && Capture(now)[p] == snapshot[p] <==> ComesBack(old', snapshot, order, p)
    {
      ComesBackIff(old', now, snapshot, order, p);
    }
    if forall p :: p in Wanted(snapshot) ==> ComesBack(old', snapshot, order, p) {
      forall p
        ensures p in Capture(now) <==> p in Wanted(snapshot)
        ensures p in Wanted(snapshot) ==> Capture(now)[p] == Wanted(snapshot)[p]
      {
        assert p in Wanted(snapshot) ==> ComesBack(old', snapshot, order, p);
        assert p in Capture(now) ==> Captured(now, p);
      }
    }
    if Capture(now) == Wanted(snapshot) {
      forall p | p in Wanted(snapshot)
        ensures ComesBack(old', snapshot, order, p)
      {
        assert p in Capture(now);
      }
    }
  }

  lemma AgreedComesBack(old': Nodes, snapshot: Snapshot, order: seq<Path>, p: Path)
    requires WellFormed(old') && Proper(snapshot) && Enumerates(order, snapshot.Keys) && Chosen(order, snapshot)
    requires p in Wanted(snapshot) && Recoverable(old', p) && Agreed(old', snapshot)
    ensures ComesBack(old', snapshot, order, p)
  {
    var cleaned := Cleaned(old', snapshot);
    CleanedIs(old', snapshot);
    assert Set(order) == snapshot.Keys;
    if CutOff(cleaned, snapshot, snapshot.Keys, p) {
      CutIsBehind(old', snapshot, p);
    }
    if IsFile(At(old', p)) {
      WantedWasWritten(cleaned, snapshot, order, p);
      var q := LastWriteIsWanted(cleaned, snapshot, order, p);
      assert SameFile(old', q, p);
    }
  }

  lemma AllBackAgree(old': Nodes, snapshot: Snapshot, order: seq<Path>)
    requires WellFormed(old') && Proper(snapshot) && Chosen(order, snapshot)
    requires forall p :: p in Wanted(snapshot) ==> Recoverable(old', p) && ComesBack(old', snapshot, order, p)
    ensures Agreed(old', snapshot)
  {
    var cleaned := Cleaned(old', snapshot);
    CleanedIs(old', snapshot);
    forall p, q | p in Wanted(snapshot) && q in Wanted(snapshot) && SameFile(old', p, q)
      ensures snapshot[p] == snapshot[q]
    {
      assert ComesBack(old', snapshot, order, p) && ComesBack(old', snapshot, order, q);
      assert SameFile(cleaned, p, q);
      LastWriteIsShared(cleaned, snapshot, order, p, q);
    }
  }

  /** Where no link is removed above a wanted file, what comes back was recoverable. */
  lemma BackWasRecoverable(old': Nodes, snapshot: Snapshot, order: seq<Path>, p: Path)
    requires Chosen(order, snapshot) && p in snapshot && ComesBack(old', snapshot, order, p)
    requires !CutOff(old', snapshot, snapshot.Keys, p)
    ensures Recoverable(old', p)
  {
    assert forall i :: 0 <= i < |order| ==>
      (GoesAbove(old', snapshot, order[i], p) ==> CutBy(old', snapshot, order[i], p));
  }

  /** Whatever the order was: if every wanted file was recoverable, a fresh capture is the wanted files
      exactly if the names that have become one file agree. Where no link is removed above a wanted file,
      it is so only then. */
  lemma CaptureAfterRewind(old': Nodes, now: Nodes, snapshot: Snapshot)
    requires Restores(old', now, snapshot) && Proper(snapshot)
    ensures (forall p :: p in Wanted(snapshot) ==> Recoverable(old', p)) ==>
      (Capture(now) == Wanted(snapshot) <==> Agreed(old', snapshot))
    ensures (forall p :: p in Wanted(snapshot) ==> !CutOff(old', snapshot, snapshot.Keys, p)) ==>
      (Capture(now) == Wanted(snapshot) <==>
        Agreed(old', snapshot) && forall p :: p in Wanted(snapshot) ==> Recoverable(old', p))
  {
    var order :| RestoresInOrder(old', now, snapshot, order);
    CaptureInOrderIff(old', now, snapshot, order);
    if Agreed(old', snapshot) && forall p :: p in Wanted(snapshot) ==> Recoverable(old', p) {
      forall p | p in Wanted(snapshot)
        ensures ComesBack(old', snapshot, order, p)
      {
        AgreedComesBack(old', snapshot, order, p);
      }
    }
    if Capture(now) == Wanted(snapshot) {
      forall p | p in Wanted(snapshot) && !CutOff(old', snapshot, snapshot.Keys, p)
        ensures Recoverable(old', p)
      {
        BackWasRecoverable(old', snapshot, order, p);
      }
      if forall p :: p in Wanted(snapshot) ==> Recoverable(old', p) {
        AllBackAgree(old', snapshot, order);
      }
    }
  }

  /** Capture, any change, restore: the capture comes back if and only if no captured file has become a
      special file, or has come to lie behind a link, and none that differ have become one file. */
  lemma RewindInvertsCapture(was: Nodes, old': Nodes, now: Nodes)
    requires forall p :: p in was && p != [] ==> Canonical(p)
    requires Restores(old', now, Capture(was))
    ensures Capture(now) == Capture(was) <==>
            && (forall p :: Captured(was, p) ==> At(old', p) != Some(Other) && !BehindLink(old', p))
            && (forall p, q :: Captured(was, p) && Captured(was, q) && SameFile(old', p, q) ==>
              was[p].content == was[q].content)
  {
    var snapshot := Capture(was);
    assert Wanted(snapshot) == snapshot;
    forall p | p in snapshot
      ensures !CutOff(old', snapshot, snapshot.Keys, p)
    {
    }
    CaptureAfterRewind(old', now, snapshot);
    forall p
      ensures Captured(was, p) <==> p in Wanted(snapshot)
    {
    }
  }

  /** What is neither captured nor in the snapshot stays what it is, unless it lies behind a link the
      snapshot wants to be gone: all of .git, special files, links, directories. Only a file that has
      another name at a wanted place is given what is wanted there. */
  lemma UncapturedEntriesStay(old': Nodes, now: Nodes, snapshot: Snapshot, q: Path)
    requires Restores(old', now, snapshot) && Proper(snapshot)
    requires q in old' && !Captured(old', q) && q !in snapshot && !CutOff(old', snapshot, snapshot.Keys, q)
    ensures
      || At(now, q) == At(old', q)
      || (exists p :: p in Wanted(snapshot) && SameFile(old', p, q) &&
                      At(now, q) == Some(old'[q].(content := snapshot[p].value)))
  {
    var order :| RestoresInOrder(old', now, snapshot, order);
    RestoreRewinds(old', now, snapshot);
    RestoreFills(old', now, snapshot, order);
    var cleaned := Cleaned(old', snapshot);
    CleanedIs(old', snapshot);
    assert Set(order) == snapshot.Keys;
    assert WrittenAt(cleaned, now, snapshot, snapshot.Keys, q) && FilledAt(cleaned, now, snapshot, order, q);
    assert forall r :: CutBy(cleaned, snapshot, r, q) ==> CutBy(old', snapshot, r, q);
    if LastWrite(cleaned, snapshot, order, q).Some? {
      var p := LastWriteIsWanted(cleaned, snapshot, order, q);
      assert SameFile(old', p, q);
    }
  }

  // ---- the version-control directory ----

  /** What a capture holds: exactly the regular files with no link above them whose path does not begin
      with the step ".git", each with its content. */
  lemma CaptureIs(nodes: Nodes, p: Path)
    ensures p in Capture(nodes) <==>
      && p in nodes && nodes[p].File? && p != [] && p[0] != ".git"
      && forall k :: 0 <= k < |p| ==> At(nodes, p[..k]) != Some(Linked)
    ensures p in Capture(nodes) ==> Capture(nodes)[p] == Some(nodes[p].content)
  {
    assert BehindLink(nodes, p) <==> !forall k :: 0 <= k < |p| ==> At(nodes, p[..k]) != Some(Linked);
  }

  /** Restoring a capture leaves everything below ".git" as it is by now, except a file that is another name
      of a restored one. */
  lemma VersionControlIsLeftAlone(was: Nodes, old': Nodes, now: Nodes, q: Path)
    requires forall p :: p in was && p != [] ==> Canonical(p)
    requires Restores(old', now, Capture(was)) && q != [] && q[0] == ".git"
    requires forall p :: p in Capture(was) ==> !SameFile(old', p, q)
    ensures At(now, q) == At(old', q)
  {
    var snapshot := Capture(was);
    CaptureIs(old', q);
    CaptureIs(was, q);
    forall p | p in snapshot
      ensures snapshot[p].Some? && p[0] != ".git"
    {
      CaptureIs(was, p);
    }
    assert !CutOff(old', snapshot, snapshot.Keys, q);
    if q in old' {
      UncapturedEntriesStay(old', now, snapshot, q);
    } else {
      NothingIsMade(old', now, snapshot, q);
    }
  }

  /** Where nothing was and nothing is wanted at or below, nothing is afterwards. */
  lemma NothingIsMade(old': Nodes, now: Nodes, snapshot: Snapshot, q: Path)
    requires Restores(old', now, snapshot) && Proper(snapshot) && q !in old'
    requires q != [] && forall p :: p in snapshot ==> p[0] != q[0]
    requires !CutOff(old', snapshot, snapshot.Keys, q)
    ensures q !in now
  {
    var cleaned := Cleaned(old', snapshot);
    RestoreRewinds(old', now, snapshot);
    CleanedIs(old', snapshot);
    assert WrittenAt(cleaned, now, snapshot, snapshot.Keys, q);
    assert !IsAbove(q, snapshot.Keys);
    assert forall r :: CutBy(cleaned, snapshot, r, q) ==> CutBy(old', snapshot, r, q);
  }

  // ---- restoring twice ----

  /** If the names agree, every name of a file with a wanted one holds what is wanted there. */
  lemma HoldsWhatIsWanted(old': Nodes, now: Nodes, snapshot: Snapshot, p: Path, q: Path)
    requires Restores(old', now, snapshot) && Proper(snapshot) && Agreed(old', snapshot)
    requires p in Wanted(snapshot) && SameFile(now, p, q)
    ensures now[q].content == snapshot[p].value
  {
    var order :| RestoresInOrder(old', now, snapshot, order);
    var cleaned := Cleaned(old', snapshot);
    CleanedIs(old', snapshot);
    RestoreFills(old', now, snapshot, order);
    assert Set(order) == snapshot.Keys;
    assert FilledAt(cleaned, now, snapshot, order, p) && FilledAt(cleaned, now, snapshot, order, q);
    if IsFile(At(cleaned, p)) && !CutOff(cleaned, snapshot, snapshot.Keys, p) {
      WantedWasWritten(cleaned, snapshot, order, p);
      LastWriteIsShared(cleaned, snapshot, order, p, q);
      var r := LastWriteIsWanted(cleaned, snapshot, order, p);
      assert SameFile(old', r, p);
    }
  }

  /** Restoring twice is restoring once, if no file that is to be absent has an entry below it and the
      names that have become one file agree. */
  lemma RewindTwiceIsOnce(old': Nodes, once: Nodes, twice: Nodes, snapshot: Snapshot)
    requires Restores(old', once, snapshot) && Restores(once, twice, snapshot)
    requires Proper(snapshot) && NilsAreLeaves(snapshot) && Agreed(old', snapshot)
    ensures twice == once
  {
    NothingToClean(old', once, snapshot);
    RestoreRewinds(old', once, snapshot);
    RestoreRewinds(once, twice, snapshot);
    forall q
      ensures At(twice, q) == At(once, q)
    {
      NothingToCut(old', once, snapshot, q);
      NothingCutAbove(Cleaned(old', snapshot), snapshot, q);
      assert WrittenAt(Cleaned(old', snapshot), once, snapshot, snapshot.Keys, q);
      assert WrittenAt(once, twice, snapshot, snapshot.Keys, q);
      if IsFile(At(twice, q)) {
        FileStaysTheSame(old', once, twice, snapshot, q);
      }
    }
    SameNodes(twice, once);
  }

  lemma FileStaysTheSame(old': Nodes, once: Nodes, twice: Nodes, snapshot: Snapshot, q: Path)
    requires Restores(old', once, snapshot) && Restores(once, twice, snapshot)
    requires Proper(snapshot) && Agreed(old', snapshot) && IsFile(At(once, q)) && IsFile(At(twice, q))
    ensures At(twice, q) == At(once, q)
  {
    var order :| RestoresInOrder(once, twice, snapshot, order);
    NothingToClean(old', once, snapshot);
    NothingToCut(old', once, snapshot, q);
    RestoreFills(once, twice, snapshot, order);
    assert Set(order) == snapshot.Keys;
    assert FilledAt(once, twice, snapshot, order, q);
    if LastWrite(once, snapshot, order, q).Some? {
      var p := LastWriteIsWanted(once, snapshot, order, q);
      HoldsWhatIsWanted(old', once, snapshot, p, q);
    }
  }

  /** An order that ends with a given entry. */
  lemma OrderEndingWith(keys: set<Path>, p: Path) returns (order: seq<Path>)
    requires p in keys
    ensures Enumerates(order, keys) && |order| > 0 && order[|order| - 1] == p
  {
    var before := ParentsFirstOrder(keys - {p});
    order := before + [p];
    forall i, j | 0 <= i < j < |order|
      ensures order[i] != order[j]
    {
      assert before[i] in keys - {p};
    }
  }

  /** A restore that ends with a given wanted file, and what the names of that file hold. */
  lemma RestoreEndingWith(old': Nodes, snapshot: Snapshot, p: Path, q: Path) returns (now: Nodes)
    requires WellFormed(old') && Proper(snapshot) && NilsAreLeaves(snapshot) && Restorable(old', snapshot)
    requires p in Wanted(snapshot) && q in Wanted(snapshot) && SameFile(old', p, q)
    ensures Restores(old', now, snapshot) && SameFile(now, p, q) && now[q].content == snapshot[p].value
  {
    var order := OrderEndingWith(snapshot.Keys, p);
    var cleaned := Cleaned(old', snapshot);
    RestoreSucceedsIff(old', snapshot, order);
    now := PutAll(cleaned, snapshot, order).value;
    assert RestoresInOrder(old', now, snapshot, order);
    CleanedIs(old', snapshot);
    RestoreRewinds(old', now, snapshot);
    RestoreFills(old', now, snapshot, order);
    ChosenBefore(order, snapshot);
    assert Set(order) == snapshot.Keys;
    NothingCutAbove(cleaned, snapshot, p);
    NothingCutAbove(cleaned, snapshot, q);
    OneMore(cleaned, snapshot, Set(order[..|order| - 1]), p, p);
    assert WrittenAt(cleaned, now, snapshot, snapshot.Keys, p) && WrittenAt(cleaned, now, snapshot, snapshot.Keys, q);
    assert FilledAt(cleaned, now, snapshot, order, p) && FilledAt(cleaned, now, snapshot, order, q);
    assert SameFile(cleaned, p, q);
  }

  /** For a snapshot that can be restored over a tree, restoring twice always leaves what restoring once
      leaves exactly if the names that have become one file agree. */
  lemma TwiceOverTreeIff(old': Nodes, snapshot: Snapshot)
    requires WellFormed(old') && Proper(snapshot) && NilsAreLeaves(snapshot) && Restorable(old', snapshot)
    ensures (forall once, twice :: Restores(old', once, snapshot) && Restores(once, twice, snapshot) ==> twice == once)
            <==> Agreed(old', snapshot)
  {
    if Agreed(old', snapshot) {
      forall once, twice | Restores(old', once, snapshot) && Restores(once, twice, snapshot)
        ensures twice == once
      {
        RewindTwiceIsOnce(old', once, twice, snapshot);
      }
    } else {
      var p, q :| p in Wanted(snapshot) && q in Wanted(snapshot) && SameFile(old', p, q) && snapshot[p] != snapshot[q];
      var once := RestoreEndingWith(old', snapshot, p, q);
      RestoreRewinds(old', once, snapshot);
      RewoundIsRestorable(old', once, snapshot);
      var twice := RestoreEndingWith(once, snapshot, q, q);
    }
  }

  /** A file with an entry below it: no two restores succeed one after the other. */
  lemma TwiceNeedsLeaves(old': Nodes, once: Nodes, twice: Nodes, snapshot: Snapshot)
    requires Restores(old', once, snapshot) && Restores(once, twice, snapshot) && Proper(snapshot)
    ensures FilesAreLeaves(snapshot)
  {
    NothingToClean(old', once, snapshot);
    RestoreRewinds(once, twice, snapshot);
    forall q
      ensures !CutOff(once, snapshot, snapshot.Keys, q)
    {
      NothingToCut(old', once, snapshot, q);
    }
    FilesWereLeaves(once, twice, snapshot);
  }

  // ---- the exact condition ----

  ghost predicate ParentsFirst(order: seq<Path>) {
    forall i, j :: 0 <= i < j < |order| ==> !ProperPrefix(order[j], order[i])
  }

  lemma {:induction false} Longest(keys: set<Path>) returns (p: Path)
    requires keys != {}
    ensures p in keys && forall q :: q in keys ==> |q| <= |p|
    decreases keys
  {
    p :| p in keys;
    if keys != {p} {
      var other := Longest(keys - {p});
      if |p| < |other| {
        p := other;
      }
    }
  }

  lemma {:induction false} ParentsFirstOrder(keys: set<Path>) returns (order: seq<Path>)
    ensures Enumerates(order, keys) && ParentsFirst(order)
    decreases keys
  {
    if keys == {} {
      order := [];
    } else {
      var p := Longest(keys);
      var before := ParentsFirstOrder(keys - {p});
      order := before + [p];
      forall i, j | 0 <= i < j < |order|
        ensures order[i] != order[j] && !ProperPrefix(order[j], order[i])
      {
        assert before[i] in keys - {p};
      }
    }
  }

  lemma PutAllOneMore(nodes: Nodes, snapshot: Snapshot, order: seq<Path>, p: Path)
    requires forall q :: q in order || q == p ==> q in snapshot
    ensures PutAll(nodes, snapshot, order + [p]) ==
      match PutAll(nodes, snapshot, order) case None => None case Some(before) => Put(before, p, snapshot[p])
  {
    assert (order + [p])[..|order|] == order;
  }

  lemma {:induction false} PutAllAppend(nodes: Nodes, snapshot: Snapshot, first: seq<Path>, second: seq<Path>)
    requires forall p :: p in first || p in second ==> p in snapshot
    requires PutAll(nodes, snapshot, first).Some?
    ensures PutAll(nodes, snapshot, first + second) == PutAll(PutAll(nodes, snapshot, first).value, snapshot, second)
    decreases |second|
  {
    if second == [] {
      assert first + second == first;
    } else {
      var n := |second| - 1;
      PutAllAppend(nodes, snapshot, first, second[..n]);
      PutAllOneMore(nodes, snapshot, first + second[..n], second[n]);
      assert first + second == first + second[..n] + [second[n]];
    }
  }

  /** Nothing is where the entries go, but files that are written over. */
  ghost predicate Vacant(nodes: Nodes, snapshot: Snapshot, keys: set<Path>) {
    && (forall p :: p in keys ==> p in snapshot)
    && (forall p :: p in keys && p in nodes ==> nodes[p].File? && snapshot[p].Some?)
    && (forall q :: IsAbove(q, keys) ==> NoneOrPassable(At(nodes, q)))
  }

  /** What they leave behind: directories above them, and nothing where nothing was to be. */
  ghost predicate GrownAt(nodes: Nodes, now: Nodes, snapshot: Snapshot, done: set<Path>, q: Path) {
    if IsAbove(q, done) then At(now, q) == if q in nodes then At(nodes, q) else Some(Dir)
    else if q in done then q in snapshot && (snapshot[q].None? ==> q !in now)
    else SameKind(At(now, q), At(nodes, q))
  }

  ghost predicate Grown(nodes: Nodes, now: Nodes, snapshot: Snapshot, done: set<Path>) {
    forall q :: GrownAt(nodes, now, snapshot, done, q)
  }

  lemma OnVacantGround(nodes: Nodes, before: Nodes, snapshot: Snapshot, done: set<Path>, p: Path)
    requires WellFormed(before) && Vacant(nodes, snapshot, done + {p}) && FilesAreLeaves(snapshot)
    requires Grown(nodes, before, snapshot, done)
    requires p !in done && !IsAbove(p, done)
    ensures RoomFor(before, p, snapshot[p])
    ensures snapshot[p].None? ==> p !in before
  {
    assert p in done + {p};
    assert GrownAt(nodes, before, snapshot, done, p);
    forall q | ProperPrefix(q, p)
      ensures NoneOrPassable(At(before, q))
    {
      assert IsAbove(q, done + {p});
      assert IsAbove(q, snapshot.Keys);
      assert GrownAt(nodes, before, snapshot, done, q);
    }
  }

  lemma OneMoreGrown(nodes: Nodes, before: Nodes, snapshot: Snapshot, done: set<Path>, p: Path, q: Path)
    requires WellFormed(before) && Vacant(nodes, snapshot, done + {p}) && FilesAreLeaves(snapshot)
    requires GrownAt(nodes, before, snapshot, done, q) && p != [] && CanPut(before, p, snapshot[p])
    requires p !in done && !IsAbove(p, done) && (snapshot[p].None? ==> p !in before)
    ensures GrownAt(nodes, PutAt(before, p, snapshot[p]), snapshot, done + {p}, q)
  {
    PutAtMakes(before, p, snapshot[p], q);
    assert IsAbove(q, done + {p}) <==> IsAbove(q, done) || ProperPrefix(q, p);
    assert p in done + {p} && (q in done ==> q in done + {p});
    assert ProperPrefix(q, p) ==> IsAbove(q, snapshot.Keys);
    if snapshot[p].None? {
      MissingHasNothingBelow(before, p);
      assert p <= q ==> q == p || ProperPrefix(p, q);
    }
  }

  /** With parents before what is below them, all entries can be restored on vacant ground. */
  lemma {:induction false} ParentsFirstSucceeds(nodes: Nodes, snapshot: Snapshot, order: seq<Path>)
    requires WellFormed(nodes) && Proper(snapshot) && FilesAreLeaves(snapshot)
    requires Chosen(order, snapshot) && ParentsFirst(order) && Vacant(nodes, snapshot, Set(order))
    ensures PutAll(nodes, snapshot, order).Some?
    ensures WellFormed(PutAll(nodes, snapshot, order).value)
    ensures Grown(nodes, PutAll(nodes, snapshot, order).value, snapshot, Set(order))
    decreases |order|
  {
    if order == [] {
      forall q
        ensures GrownAt(nodes, nodes, snapshot, {}, q)
      {
      }
    } else {
      var n := |order| - 1;
      var p := order[n];
      var done := Set(order[..n]);
      ChosenBefore(order, snapshot);
      VacantForFewer(nodes, snapshot, done, p);
      ParentsFirstSucceeds(nodes, snapshot, order[..n]);
      var before := PutAll(nodes, snapshot, order[..n]).value;
      assert p !in done && !IsAbove(p, done);
      OnVacantGround(nodes, before, snapshot, done, p);
      CanPutIff(before, p, snapshot[p]);
      PlainPut(before, p, snapshot[p]);
      PutAtIs(before, p, snapshot[p]);
      forall q
        ensures GrownAt(nodes, PutAt(before, p, snapshot[p]), snapshot, done + {p}, q)
      {
        assert GrownAt(nodes, before, snapshot, done, q);
        OneMoreGrown(nodes, before, snapshot, done, p, q);
      }
    }
  }

  lemma VacantForFewer(nodes: Nodes, snapshot: Snapshot, done: set<Path>, p: Path)
    requires Vacant(nodes, snapshot, done + {p})
    ensures Vacant(nodes, snapshot, done) && p in snapshot
  {
    assert p in done + {p};
    forall q | IsAbove(q, done)
      ensures NoneOrPassable(At(nodes, q))
    {
      assert IsAbove(q, done + {p});
    }
  }

  ghost predicate UnderAny(order: seq<Path>, q: Path) {
    exists p :: p in order && p <= q
  }

  lemma LinkGoes(before: Nodes, p: Path, q: Path)
    requires WellFormed(before) && p != [] && At(before, p) == Some(Linked)
    ensures CanPut(before, p, None) && WellFormed(PutAt(before, p, None))
    ensures At(PutAt(before, p, None), q) == if p <= q then None else At(before, q)
  {
    forall r | ProperPrefix(r, p)
      ensures Passable(At(before, r))
    {
      AncestorsArePassable(before, p, r);
    }
    CanPutIff(before, p, None);
    PutAtIs(before, p, None);
    assert At(PutAt(before, p, None), q) == EntryAfter(before, p, None, q);
  }

  /** Links to be gone, none of them behind another. */
  ghost predicate LinksToGo(nodes: Nodes, snapshot: Snapshot, order: seq<Path>) {
    && (forall i :: 0 <= i < |order| ==>
          && order[i] in snapshot && order[i] != []
          && snapshot[order[i]].None? && At(nodes, order[i]) == Some(Linked))
    && (forall i, j :: 0 <= i < j < |order| ==> !(order[i] <= order[j]))
  }

  lemma UnderOneMore(order: seq<Path>, n: nat, q: Path)
    requires |order| == n + 1
    ensures UnderAny(order, q) <==> UnderAny(order[..n], q) || order[n] <= q
  {
    assert order == order[..n] + [order[n]];
    if UnderAny(order, q) {
      var p :| p in order && p <= q;
      assert p in order[..n] || p == order[n];
    }
    assert order[n] in order;
    if p :| p in order[..n] && p <= q {
      assert p in order;
    }
  }

  /** They can go, one by one; q stands for any place. */
  lemma {:induction false} LinksGo(nodes: Nodes, snapshot: Snapshot, order: seq<Path>, q: Path)
    requires WellFormed(nodes) && Proper(snapshot) && LinksToGo(nodes, snapshot, order)
    ensures PutAll(nodes, snapshot, order).Some?
    ensures WellFormed(PutAll(nodes, snapshot, order).value)
    ensures At(PutAll(nodes, snapshot, order).value, q) == if UnderAny(order, q) then None else At(nodes, q)
    decreases |order|
  {
    if order != [] {
      var n := |order| - 1;
      var p := order[n];
      LinksGo(nodes, snapshot, order[..n], q);
      LinksGo(nodes, snapshot, order[..n], p);
      var before := PutAll(nodes, snapshot, order[..n]).value;
      UnderOneMore(order, n, q);
      assert At(before, p) == Some(Linked);
      LinkGoes(before, p, q);
      PlainPut(before, p, None);
    }
  }

  /** A file to be absent with an entry below it. */
  ghost predicate Inner(snapshot: Snapshot, p: Path) {
    p in snapshot && snapshot[p].None? && IsAbove(p, snapshot.Keys)
  }

  /** One that is below no other. */
  ghost predicate Topmost(snapshot: Snapshot, p: Path) {
    Inner(snapshot, p) && forall q :: ProperPrefix(q, p) ==> !Inner(snapshot, q)
  }

  lemma {:induction false} TopmostAbove(snapshot: Snapshot, p: Path) returns (t: Path)
    requires Inner(snapshot, p)
    ensures Topmost(snapshot, t) && t <= p
    decreases |p|
  {
    if q :| ProperPrefix(q, p) && Inner(snapshot, q) {
      t := TopmostAbove(snapshot, q);
    } else {
      t := p;
    }
  }

  ghost function Tops(snapshot: Snapshot): set<Path> {
    set p | p in snapshot && Topmost(snapshot, p)
  }

  /** The tree that shows the difference: every topmost inner place is a link. */
  ghost function LinkedTree(snapshot: Snapshot): Nodes {
    map p | p in (set t, k | t in Tops(snapshot) && 0 <= k <= |t| :: t[..k]) ::
      if p in Tops(snapshot) then Linked else Dir
  }

  lemma InLinkedTree(snapshot: Snapshot, q: Path)
    ensures q in LinkedTree(snapshot) <==> exists t :: t in Tops(snapshot) && q <= t
    ensures NoneOrPassable(At(LinkedTree(snapshot), q))
  {
    if t :| t in Tops(snapshot) && q <= t {
      assert t[..|q|] == q;
    }
  }

  lemma OtherKeysAreMissing(snapshot: Snapshot, p: Path)
    requires FilesAreLeaves(snapshot) && p in snapshot && !Topmost(snapshot, p)
    ensures p !in LinkedTree(snapshot)
  {
    InLinkedTree(snapshot, p);
    forall t | t in Tops(snapshot)
      ensures !(p <= t)
    {
      assert ProperPrefix(p, t) ==> IsAbove(p, snapshot.Keys);
    }
  }

  lemma LinkedTreeIs(snapshot: Snapshot)
    requires Proper(snapshot) && FilesAreLeaves(snapshot)
    ensures WellFormed(LinkedTree(snapshot)) && Cleaned(LinkedTree(snapshot), snapshot) == LinkedTree(snapshot)
    ensures Vacant(LinkedTree(snapshot), snapshot, snapshot.Keys - Tops(snapshot))
  {
    var nodes := LinkedTree(snapshot);
    forall q | q in nodes && q != []
      ensures Passable(At(nodes, Parent(q)))
    {
      InLinkedTree(snapshot, q);
      var t :| t in Tops(snapshot) && q <= t;
      assert Parent(q) <= t;
      InLinkedTree(snapshot, Parent(q));
    }
    forall p | p in snapshot.Keys - Tops(snapshot)
      ensures p !in nodes
    {
      OtherKeysAreMissing(snapshot, p);
    }
    forall q
      ensures NoneOrPassable(At(nodes, q))
    {
      InLinkedTree(snapshot, q);
    }
  }

  /** With everything behind the links written, the links still stand and can go. */
  lemma LinksAreLeft(snapshot: Snapshot, first: seq<Path>, second: seq<Path>)
    requires Proper(snapshot) && FilesAreLeaves(snapshot)
    requires Enumerates(first, snapshot.Keys - Tops(snapshot)) && ParentsFirst(first)
    requires Enumerates(second, Tops(snapshot))
    requires forall p :: p in first ==> p in snapshot
    ensures PutAll(LinkedTree(snapshot), snapshot, first).Some?
    ensures var between := PutAll(LinkedTree(snapshot), snapshot, first).value;
            WellFormed(between) && LinksToGo(between, snapshot, second)
  {
    var nodes := LinkedTree(snapshot);
    LinkedTreeIs(snapshot);
    assert Set(first) == snapshot.Keys - Tops(snapshot);
    ParentsFirstSucceeds(nodes, snapshot, first);
    var between := PutAll(nodes, snapshot, first).value;
    forall i | 0 <= i < |second|
      ensures second[i] in snapshot && second[i] != [] && snapshot[second[i]].None? &&
          At(between, second[i]) == Some(Linked)
    {
      var t := second[i];
      assert t in second && t in Tops(snapshot);
      InLinkedTree(snapshot, t);
      assert GrownAt(nodes, between, snapshot, Set(first), t);
    }
    forall i, j | 0 <= i < j < |second|
      ensures !(second[i] <= second[j])
    {
      assert second[i] in second && second[j] in second;
      assert second[i] in Tops(snapshot) && second[j] in Tops(snapshot);
    }
  }

  /** First everything behind the links, then the links: nothing is left at the topmost inner places. */
  lemma LinksLast(snapshot: Snapshot) returns (once: Nodes)
    requires Proper(snapshot) && FilesAreLeaves(snapshot)
    ensures Restores(LinkedTree(snapshot), once, snapshot)
    ensures forall t :: t in Tops(snapshot) ==> t !in once
  {
    var nodes := LinkedTree(snapshot);
    var first := ParentsFirstOrder(snapshot.Keys - Tops(snapshot));
    var second := ParentsFirstOrder(Tops(snapshot));
    LinksAreLeft(snapshot, first, second);
    var between := PutAll(nodes, snapshot, first).value;
    LinksGo(between, snapshot, second, []);
    once := PutAll(between, snapshot, second).value;
    forall t | t in Tops(snapshot)
      ensures t !in once
    {
      LinksGo(between, snapshot, second, t);
      assert t in second;
    }
    PutAllAppend(nodes, snapshot, first, second);
    OneAfterTheOther(snapshot, first, second);
    LinkedTreeIs(snapshot);
    assert RestoresInOrder(nodes, once, snapshot, first + second);
  }

  lemma OneAfterTheOther(snapshot: Snapshot, first: seq<Path>, second: seq<Path>)
    requires Enumerates(first, snapshot.Keys - Tops(snapshot)) && Enumerates(second, Tops(snapshot))
    ensures Enumerates(first + second, snapshot.Keys)
    ensures forall i :: 0 <= i < |first + second| ==> (first + second)[i] in snapshot
  {
    var order := first + second;
    forall p
      ensures p in order <==> p in snapshot.Keys
    {
    }
    forall i, j | 0 <= i < j < |order|
      ensures order[i] != order[j]
    {
      if i < |first| <= j {
        assert first[i] in first && second[j - |first|] in second;
      }
    }
  }

  /** The ground is vacant again for all entries, parents first. */
  lemma VacantAgain(snapshot: Snapshot, once: Nodes)
    requires Proper(snapshot) && FilesAreLeaves(snapshot)
    requires Restores(LinkedTree(snapshot), once, snapshot)
    requires forall t :: t in Tops(snapshot) ==> t !in once
    ensures Vacant(once, snapshot, snapshot.Keys)
  {
    var nodes := LinkedTree(snapshot);
    LinkedTreeIs(snapshot);
    RestoreRewinds(nodes, once, snapshot);
    forall p | p in snapshot && p in once
      ensures once[p].File? && snapshot[p].Some?
    {
      assert WrittenAt(nodes, once, snapshot, snapshot.Keys, p);
      InLinkedTree(snapshot, p);
      if Inner(snapshot, p) {
        var t := TopmostAbove(snapshot, p);
        assert t in Tops(snapshot);
        if t != p {
          AncestorsArePassable(once, p, t);
        }
      }
    }
    forall q | IsAbove(q, snapshot.Keys)
      ensures NoneOrPassable(At(once, q))
    {
      assert WrittenAt(nodes, once, snapshot, snapshot.Keys, q);
    }
  }

  /** And then the directories above the entries are made. */
  lemma GrowsBack(snapshot: Snapshot, once: Nodes, t: Path) returns (twice: Nodes)
    requires Proper(snapshot) && FilesAreLeaves(snapshot) && Vacant(once, snapshot, snapshot.Keys)
    requires WellFormed(once) && Cleaned(once, snapshot) == once && IsAbove(t, snapshot.Keys)
    ensures Restores(once, twice, snapshot) && t in twice
  {
    var order := ParentsFirstOrder(snapshot.Keys);
    assert Set(order) == snapshot.Keys;
    ParentsFirstSucceeds(once, snapshot, order);
    twice := PutAll(once, snapshot, order).value;
    assert RestoresInOrder(once, twice, snapshot, order);
    assert GrownAt(once, twice, snapshot, snapshot.Keys, t);
  }

  /** With a file to be absent above another entry, and none to be there above one, some tree can be
      restored twice and ends differently. */
  lemma TwiceCanDiffer(snapshot: Snapshot) returns (once: Nodes, twice: Nodes)
    requires Proper(snapshot) && FilesAreLeaves(snapshot) && !NilsAreLeaves(snapshot)
    ensures Restores(LinkedTree(snapshot), once, snapshot) && Restores(once, twice, snapshot) && twice != once
  {
    once := LinksLast(snapshot);
    VacantAgain(snapshot, once);
    RestoreRewinds(LinkedTree(snapshot), once, snapshot);
    NothingToClean(LinkedTree(snapshot), once, snapshot);
    var p :| p in snapshot && Inner(snapshot, p);
    var t := TopmostAbove(snapshot, p);
    assert t in Tops(snapshot);
    twice := GrowsBack(snapshot, once, t);
  }

  /** Over trees in which the names that are one file agree, restoring twice is restoring once for exactly
      the snapshots in which no file to be absent has an entry below it, and those which no two restores in
      a row can write. */
  lemma TwiceIsOnceIff(snapshot: Snapshot)
    requires Proper(snapshot)
    ensures (forall old', once, twice ::
               Agreed(old', snapshot) && Restores(old', once, snapshot) && Restores(once, twice, snapshot) ==>
                 twice == once)
            <==> NilsAreLeaves(snapshot) || !FilesAreLeaves(snapshot)
  {
    if NilsAreLeaves(snapshot) || !FilesAreLeaves(snapshot) {
      forall old', once, twice | Agreed(old', snapshot) && Restores(old', once, snapshot) &&
        Restores(once, twice, snapshot)
        ensures twice == once
      {
        TwiceNeedsLeaves(old', once, twice, snapshot);
        RewindTwiceIsOnce(old', once, twice, snapshot);
      }
    } else {
      var once, twice := TwiceCanDiffer(snapshot);
      assert Agreed(LinkedTree(snapshot), snapshot);
    }
  }

  // ---- inputs on which restoring does not do what one may expect ----

  lemma PutAllOne(nodes: Nodes, snapshot: Snapshot, p: Path)
    requires p in snapshot
    ensures PutAll(nodes, snapshot, [p]) == Put(nodes, p, snapshot[p])
  {
    assert |[p][..0]| == 0;
  }

  lemma PutAllTwo(nodes: Nodes, snapshot: Snapshot, p: Path, q: Path)
    requires p in snapshot && q in snapshot && Put(nodes, p, snapshot[p]).Some?
    ensures PutAll(nodes, snapshot, [p, q]) == Put(Put(nodes, p, snapshot[p]).value, q, snapshot[q])
  {
    assert [p, q][..1] == [p];
    PutAllOne(nodes, snapshot, p);
  }

  const BARE: Nodes := map[[] := Dir]

  lemma ShortPrefixes(a: string, b: string)
    requires Canonical([a, b])
    ensures Canonical([a])
    ensures forall r :: ProperPrefix(r, [a]) ==> r == []
    ensures forall r :: ProperPrefix(r, [a, b]) ==> r == [] || r == [a]
  {
    assert [a, b][0] == a;
    forall r | ProperPrefix(r, [a, b])
      ensures r == [] || r == [a]
    {
      assert r == [a, b][..|r|];
      assert |r| == 1 ==> r == [[a, b][0]];
    }
  }

  /** One entry, told by the tree it leads to. */
  lemma PutLeadsTo(nodes: Nodes, p: Path, content: Option<string>, after: Nodes)
    requires WellFormed(nodes) && Canonical(p) && RoomFor(nodes, p, content)
    requires forall q :: At(after, q) == EntryAfter(nodes, p, content, q)
    ensures Put(nodes, p, content) == Some(after) && WellFormed(after)
  {
    CanPutIff(nodes, p, content);
    PlainPut(nodes, p, content);
    PutAtIs(nodes, p, content);
    SameNodes(PutAt(nodes, p, content), after);
  }

  lemma FirstGoes(nodes: Nodes, a: string)
    requires Canonical([a]) && WellFormed(nodes) && At(nodes, []) == Some(Dir)
    requires forall q :: q in nodes && q != [] ==> [a] <= q
    requires At(nodes, [a]) == Some(Dir) ==> !NotEmpty(nodes, [a])
    ensures Put(nodes, [a], None) == Some(BARE)
  {
    PutLeadsTo(nodes, [a], None, BARE);
  }

  lemma SecondPut(nodes: Nodes, a: string, b: string, content: Option<string>, after: Nodes)
    requires Canonical([a, b]) && WellFormed(nodes) && At(nodes, []) == Some(Dir)
    requires NoneOrPassable(At(nodes, [a])) && [a, b] !in nodes
    requires var dirs := if [a] in nodes then nodes else nodes[[a] := Dir];
             after == if content.Some? then dirs[[a, b] := File(content.value, None)] else dirs
    ensures Put(nodes, [a, b], content) == Some(after) && WellFormed(after)
  {
    ShortPrefixes(a, b);
    MissingHasNothingBelow(nodes, [a, b]);
    forall q
      ensures At(after, q) == EntryAfter(nodes, [a, b], content, q)
    {
      assert [a, b] <= q ==> q == [a, b] || ProperPrefix([a, b], q);
      assert ProperPrefix([], [a, b]) && ProperPrefix([a], [a, b]);
    }
    PutLeadsTo(nodes, [a, b], content, after);
  }

  lemma NoFilesNoCleaning(nodes: Nodes, snapshot: Snapshot)
    requires forall q :: q in nodes ==> !nodes[q].File?
    ensures Cleaned(nodes, snapshot) == nodes
  {
  }

  lemma TwoInOrder(old': Nodes, now: Nodes, snapshot: Snapshot, p: Path, q: Path)
    requires p != q && snapshot.Keys == {p, q} && forall r :: r in old' ==> !old'[r].File?
    requires PutAll(old', snapshot, [p, q]) == Some(now)
    ensures RestoresInOrder(old', now, snapshot, [p, q])
  {
    NoFilesNoCleaning(old', snapshot);
  }

  /** A directory that has become a link to another directory: the restore succeeds and writes the file
      behind the link, and a fresh capture does not find it. */
  lemma LinkSwallowsFile(d: string, f: string, c: string)
    requires Canonical([d, f]) && d != ".git"
    ensures var old' := BARE[[d] := Linked];
            var snapshot: Snapshot := map[[d, f] := Some(c)];
            && RestoresInOrder(old', old'[[d, f] := File(c, None)], snapshot, [[d, f]])
            && Capture(old'[[d, f] := File(c, None)]) == map[]
  {
    var old': Nodes := BARE[[d] := Linked];
    var p := [d, f];
    var snapshot: Snapshot := map[p := Some(c)];
    NoFilesNoCleaning(old', snapshot);
    SecondPut(old', d, f, Some(c), old'[p := File(c, None)]);
    PutAllOne(old', snapshot, p);
    NothingBehindLinks(old'[p := File(c, None)], d, f);
  }

  lemma NothingBehindLinks(nodes: Nodes, d: string, f: string)
    requires At(nodes, [d]) == Some(Linked) && forall q :: q in nodes && nodes[q].File? ==> q == [d, f]
    ensures Capture(nodes) == map[]
  {
    assert [d, f][..1] == [d];
    assert BehindLink(nodes, [d, f]);
  }

  lemma LowerFirst(a: string, b: string, snapshot: Snapshot)
    requires Canonical([a, b]) && snapshot == map[[a] := None, [a, b] := None]
    ensures PutAll(BARE, snapshot, [[a, b], [a]]) == Some(BARE)
  {
    ShortPrefixes(a, b);
    SecondPut(BARE, a, b, None, BARE[[a] := Dir]);
    FirstGoes(BARE[[a] := Dir], a);
    PutAllTwo(BARE, snapshot, [a, b], [a]);
  }

  lemma UpperFirst(a: string, b: string, snapshot: Snapshot)
    requires Canonical([a, b]) && snapshot == map[[a] := None, [a, b] := None]
    ensures PutAll(BARE, snapshot, [[a], [a, b]]) == Some(BARE[[a] := Dir])
  {
    ShortPrefixes(a, b);
    FirstGoes(BARE, a);
    SecondPut(BARE, a, b, None, BARE[[a] := Dir]);
    PutAllTwo(BARE, snapshot, [a], [a, b]);
  }

  /** A file to be absent above another one to be absent: what is left of the empty tree depends on the
      order, so restoring twice need not be restoring once. */
  lemma EmptyTreeDiffers(a: string, b: string)
    requires Canonical([a, b])
    ensures var snapshot: Snapshot := map[[a] := None, [a, b] := None];
            && RestoresInOrder(BARE, BARE, snapshot, [[a, b], [a]])
            && RestoresInOrder(BARE, BARE[[a] := Dir], snapshot, [[a], [a, b]])
  {
    var snapshot: Snapshot := map[[a] := None, [a, b] := None];
    LowerFirst(a, b, snapshot);
    TwoInOrder(BARE, BARE, snapshot, [a, b], [a]);
    UpperFirst(a, b, snapshot);
    TwoInOrder(BARE, BARE[[a] := Dir], snapshot, [a], [a, b]);
  }

  lemma KeptIsCaptured(d: string, f: string, c: string)
    requires Canonical([d, f]) && d != ".git"
    ensures Capture(BARE) == map[]
    ensures Capture(BARE[[d] := Dir][[d, f] := File(c, None)]) == map[[d, f] := Some(c)]
  {
    assert [d, f][..0] == [] && [d, f][..1] == [d];
    assert Captured(BARE[[d] := Dir][[d, f] := File(c, None)], [d, f]);
  }

  lemma LinkGoesLast(d: string, f: string, c: string, snapshot: Snapshot)
    requires Canonical([d, f]) && snapshot == map[[d] := None, [d, f] := Some(c)]
    ensures PutAll(BARE[[d] := Linked], snapshot, [[d, f], [d]]) == Some(BARE)
  {
    var p, q := [d], [d, f];
    var old': Nodes := BARE[p := Linked];
    ShortPrefixes(d, f);
    SecondPut(old', d, f, Some(c), old'[q := File(c, None)]);
    FirstGoes(old'[q := File(c, None)], d);
    PutAllTwo(old', snapshot, q, p);
  }

  lemma BareLinkGoes(d: string)
    requires Canonical([d])
    ensures Put(BARE[[d] := Linked], [d], None) == Some(BARE)
  {
    FirstGoes(BARE[[d] := Linked], d);
  }

  lemma FileAppears(d: string, f: string, c: string)
    requires Canonical([d, f])
    ensures Put(BARE, [d, f], Some(c)) == Some(BARE[[d] := Dir][[d, f] := File(c, None)])
  {
    SecondPut(BARE, d, f, Some(c), BARE[[d] := Dir][[d, f] := File(c, None)]);
  }

  lemma LinkGoesFirst(d: string, f: string, c: string, snapshot: Snapshot)
    requires Canonical([d, f]) && snapshot == map[[d] := None, [d, f] := Some(c)]
    ensures PutAll(BARE[[d] := Linked], snapshot, [[d], [d, f]]) == Some(BARE[[d] := Dir][[d, f] := File(c, None)])
  {
    ShortPrefixes(d, f);
    BareLinkGoes(d);
    FileAppears(d, f, c);
    PutAllTwo(BARE[[d] := Linked], snapshot, [d], [d, f]);
  }

  /** A link to be gone above a wanted file: whether the file is there in the end depends on the order. */
  lemma RemovedLinkMayTakeFile(d: string, f: string, c: string)
    requires Canonical([d, f]) && d != ".git"
    ensures var old' := BARE[[d] := Linked];
            var snapshot: Snapshot := map[[d] := None, [d, f] := Some(c)];
            var kept := BARE[[d] := Dir][[d, f] := File(c, None)];
            && RestoresInOrder(old', BARE, snapshot, [[d, f], [d]])
            && RestoresInOrder(old', kept, snapshot, [[d], [d, f]])
            && Capture(BARE) == map[] && Capture(kept) == Wanted(snapshot)
  {
    var snapshot: Snapshot := map[[d] := None, [d, f] := Some(c)];
    var old': Nodes := BARE[[d] := Linked];
    LinkGoesLast(d, f, c, snapshot);
    TwoInOrder(old', BARE, snapshot, [d, f], [d]);
    LinkGoesFirst(d, f, c, snapshot);
    TwoInOrder(old', BARE[[d] := Dir][[d, f] := File(c, None)], snapshot, [d], [d, f]);
    KeptIsCaptured(d, f, c);
    assert Wanted(snapshot) == map[[d, f] := Some(c)];
  }

  /** Two names that have become one file. */
  function OneFile(a: string, b: string, content: string): Nodes {
    map[[] := Dir, [a] := File(content, Some(0)), [b] := File(content, Some(0))]
  }

  lemma WrittenUnderBoth(a: string, b: string, was: string, content: string, p: Path)
    requires Canonical([a]) && Canonical([b]) && (p == [a] || p == [b])
    ensures Put(OneFile(a, b, was), p, Some(content)) == Some(OneFile(a, b, content))
  {
    var nodes := OneFile(a, b, was);
    forall q | ProperPrefix(q, p)
      ensures q == []
    {
    }
    PutLeadsTo(nodes, p, Some(content), OneFile(a, b, content));
  }

  lemma LastOneStays(a: string, b: string, was: string, snapshot: Snapshot, p: Path, q: Path)
    requires Canonical([a]) && Canonical([b]) && {p, q} == {[a], [b]} && p != q
    requires snapshot.Keys == {p, q} && snapshot[p].Some? && snapshot[q].Some?
    ensures RestoresInOrder(OneFile(a, b, was), OneFile(a, b, snapshot[q].value), snapshot, [p, q])
  {
    var nodes := OneFile(a, b, was);
    assert Cleaned(nodes, snapshot) == nodes;
    WrittenUnderBoth(a, b, was, snapshot[p].value, p);
    WrittenUnderBoth(a, b, snapshot[p].value, snapshot[q].value, q);
    PutAllTwo(nodes, snapshot, p, q);
  }

  /** Two captured files of which one has become another name of the other: whatever the order is, one
      content is lost, and the order decides which. */
  lemma SharedFileTakesLast(a: string, b: string, was: string, c: string, d: string)
    requires Canonical([a]) && Canonical([b]) && a != b && c != d
    ensures var old' := OneFile(a, b, was);
            var snapshot: Snapshot := map[[a] := Some(c), [b] := Some(d)];
            && RestoresInOrder(old', OneFile(a, b, d), snapshot, [[a], [b]])
            && RestoresInOrder(old', OneFile(a, b, c), snapshot, [[b], [a]])
            && forall now :: Restores(old', now, snapshot) ==> Capture(now) != snapshot
  {
    var old' := OneFile(a, b, was);
    var p, q: Path := [a], [b];
    var snapshot: Snapshot := map[p := Some(c), q := Some(d)];
    LastOneStays(a, b, was, snapshot, p, q);
    LastOneStays(a, b, was, snapshot, q, p);
    forall now | Restores(old', now, snapshot)
      ensures Capture(now) != snapshot
    {
      CaptureAfterRewind(old', now, snapshot);
      assert Wanted(snapshot) == snapshot && SameFile(old', p, q);
      forall r | r in snapshot
        ensures !CutOff(old', snapshot, snapshot.Keys, r)
      {
      }
    }
  }

  lemma {:induction false} LengthIsSize(order: seq<Path>)
    requires forall i, j :: 0 <= i < j < |order| ==> order[i] != order[j]
    ensures |Set(order)| == |order|
  {
    if order == [] {
      assert Set(order) == {};
    } else {
      var n := |order| - 1;
      LengthIsSize(order[..n]);
      assert order == order[..n] + [order[n]];
      assert Set(order) == Set(order[..n]) + {order[n]};
    }
  }

  lemma TwoKeys(order: seq<Path>, p: Path, q: Path)
    requires p != q && Enumerates(order, {p, q})
    ensures order == [p, q] || order == [q, p]
  {
    LengthIsSize(order);
    assert Set(order) == {p, q};
    assert forall k :: 0 <= k < |order| ==> order[k] in order;
  }

  /** A link to be gone, and behind it a file in the way of a wanted one. */
  function Stranded(r: string, a: string, was: string): Nodes {
    map[[] := Dir, [r] := Linked, [r, a] := File(was, None)]
  }

  lemma StrandedIs(r: string, a: string, was: string)
    requires Canonical([r, a])
    ensures WellFormed(Stranded(r, a, was))
  {
    assert Parent([r, a]) == [r] && Parent([r]) == [];
  }

  lemma InTheWay(r: string, a: string, b: string, was: string, content: Option<string>)
    requires Canonical([r, a, b])
    ensures Put(Stranded(r, a, was), [r, a, b], content) == None
  {
    PlainPut(Stranded(r, a, was), [r, a, b], content);
    var up := Parent([r, a, b]);
    assert up == [r, a] && up[..2] == [r, a];
  }

  lemma WithoutTheLink(r: string, a: string, b: string, was: string, c: string)
    requires Canonical([r, a, b])
    ensures Put(Stranded(r, a, was), [r], None) == Some(BARE)
    ensures Put(BARE, [r, a, b], Some(c)).Some?
  {
    assert [r, a, b][0] == r && [r, a, b][1] == a;
    StrandedIs(r, a, was);
    forall q | ProperPrefix(q, [r])
      ensures q == []
    {
    }
    FirstGoes(Stranded(r, a, was), r);
    CanPutIff(BARE, [r, a, b], Some(c));
    PlainPut(BARE, [r, a, b], Some(c));
  }

  lemma LinkIsFirst(r: string, a: string, b: string, was: string, now: Nodes, snapshot: Snapshot, order: seq<Path>)
    requires Canonical([r, a, b]) && snapshot.Keys == {[r], [r, a, b]}
    requires RestoresInOrder(Stranded(r, a, was), now, snapshot, order)
    requires Cleaned(Stranded(r, a, was), snapshot) == Stranded(r, a, was)
    ensures order == [[r], [r, a, b]]
  {
    var p, q := [r], [r, a, b];
    TwoKeys(order, p, q);
    InTheWay(r, a, b, was, snapshot[q]);
    PutAllOne(Stranded(r, a, was), snapshot, q);
    assert [q, p][..1] == [q];
  }

  lemma StrandedIsReopened(r: string, a: string, b: string, was: string, snapshot: Snapshot)
    requires Canonical([r, a, b]) && [r] in snapshot && snapshot[[r]].None?
    ensures BehindLink(Stranded(r, a, was), [r, a, b]) && BehindLink(Stranded(r, a, was), [r, a])
    ensures Reopened(Stranded(r, a, was), snapshot, [[r], [r, a, b]], [r, a, b])
  {
    var old', p, q := Stranded(r, a, was), [r], [r, a, b];
    assert q[..1] == p && [r, a][..1] == p;
    assert GoesAbove(old', snapshot, [p, q][0], q) && [p, q][1] == q;
  }

  lemma StrandedOnceOpen(r: string, a: string, b: string, was: string, now: Nodes, snapshot: Snapshot, order: seq<Path>)
    requires Canonical([r, a, b]) && r != ".git" && snapshot.Keys == {[r], [r, a, b]}
    requires snapshot[[r]].None? && snapshot[[r, a, b]].Some?
    requires WellFormed(Stranded(r, a, was)) && Cleaned(Stranded(r, a, was), snapshot) == Stranded(r, a, was)
    requires RestoresInOrder(Stranded(r, a, was), now, snapshot, order) && Proper(snapshot)
    ensures Capture(now) == Wanted(snapshot)
  {
    LinkIsFirst(r, a, b, was, now, snapshot, order);
    StrandedIsReopened(r, a, b, was, snapshot);
    CaptureInOrderIff(Stranded(r, a, was), now, snapshot, order);
    forall p | p in Wanted(snapshot)
      ensures ComesBack(Stranded(r, a, was), snapshot, order, p)
    {
      assert p == [r, a, b] && p[0] == r;
    }
  }

  lemma StrandedCanBeRestored(r: string, a: string, b: string, was: string, c: string, snapshot: Snapshot)
    returns (now: Nodes)
    requires Canonical([r, a, b]) && snapshot == map[[r] := None, [r, a, b] := Some(c)]
    requires Cleaned(Stranded(r, a, was), snapshot) == Stranded(r, a, was)
    ensures RestoresInOrder(Stranded(r, a, was), now, snapshot, [[r], [r, a, b]])
  {
    var p, q := [r], [r, a, b];
    WithoutTheLink(r, a, b, was, c);
    PutAllTwo(Stranded(r, a, was), snapshot, p, q);
    now := PutAll(Stranded(r, a, was), snapshot, [p, q]).value;
  }

  /** A wanted file behind a link that every successful restore brings back all the same: it cannot be
      written before the link has gone. */
  lemma StrandedFileComesBack(r: string, a: string, b: string, was: string, c: string, snapshot: Snapshot)
    requires Canonical([r, a, b]) && r != ".git" && snapshot == map[[r] := None, [r, a, b] := Some(c)]
    ensures BehindLink(Stranded(r, a, was), [r, a, b])
    ensures exists order, now :: RestoresInOrder(Stranded(r, a, was), now, snapshot, order)
    ensures forall order, now :: RestoresInOrder(Stranded(r, a, was), now, snapshot, order) ==>
        Capture(now) == Wanted(snapshot)
  {
    assert [r, a, b][0] == r && [r, a, b][1] == a;
    StrandedIs(r, a, was);
    StrandedIsReopened(r, a, b, was, snapshot);
    assert Cleaned(Stranded(r, a, was), snapshot) == Stranded(r, a, was);
    var once := StrandedCanBeRestored(r, a, b, was, c, snapshot);
    forall now, order | RestoresInOrder(Stranded(r, a, was), now, snapshot, order)
      ensures Capture(now) == Wanted(snapshot)
    {
      StrandedOnceOpen(r, a, b, was, now, snapshot, order);
    }
  }
}
