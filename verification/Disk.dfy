/** The file system as the session manager finds it: the calls it makes, each of which may fail, and the
    two procedures made of them, capturing and restoring. */
module Disk {
  import opened Basics
  import opened FileTree
  import opened FileRestore

  datatype Io = Done | Missing | Refused

  /** A file system; any call may fail for reasons the tree does not show and then changes nothing. */
  class FileSystem {
    var nodes: Nodes
    var calls: nat
    const fault: nat -> bool

    constructor (nodes: Nodes, fault: nat -> bool)
      ensures this.nodes == nodes && this.fault == fault
    {
      this.nodes := nodes;
      this.calls := 0;
      this.fault := fault;
    }

    ghost predicate Faultless() {
      forall n: nat :: !fault(n)
    }

    method Fails() returns (failed: bool)
      modifies this`calls
      ensures failed ==> !Faultless()
    {
      failed := fault(calls);
      calls := calls + 1;
    }

    /** os.Remove: anything but a directory with something in it. Removing a link hides what is behind. */
    method Remove(p: Path) returns (r: Io)
      requires WellFormed(nodes)
      modifies this
      ensures WellFormed(nodes)
      ensures r == Done ==> p in old(nodes) && CanRemove(old(nodes), p) && nodes == Without(old(nodes), p)
      ensures r == Missing ==> p !in old(nodes)
      ensures r != Done ==> nodes == old(nodes)
      ensures r == Refused && Faultless() ==> !CanRemove(old(nodes), p)
    {
      var failed := Fails();
      if failed {
        return Refused;
      }
      if p !in nodes {
        return Missing;
      }
      if nodes[p] == Dir && NotEmpty(nodes, p) {
        return Refused;
      }
      WithoutIs(nodes, p);
      nodes := Without(nodes, p);
      return Done;
    }

    /** os.MkdirAll: links to directories are passed. */
    method MkdirAll(p: Path) returns (ok: bool)
      requires WellFormed(nodes)
      modifies this
      ensures WellFormed(nodes)
      ensures ok ==> CanMkdirAll(old(nodes), p) && nodes == WithDirs(old(nodes), p)
      ensures ok ==> forall q ::
          At(nodes, q) == if q <= p && At(old(nodes), q) == None then Some(Dir) else At(old(nodes), q)
      ensures !ok ==> nodes == old(nodes)
      ensures Faultless() ==> ok == CanMkdirAll(old(nodes), p)
    {
      var failed := Fails();
      if failed || !CanMkdirAll(nodes, p) {
        return false;
      }
      WithDirsIs(nodes, p);
      nodes := WithDirs(nodes, p);
      return true;
    }

    /** os.WriteFile, with the directory above there. */
    method WriteFile(p: Path, content: string) returns (ok: bool)
      requires WellFormed(nodes) && (p != [] ==> Passable(At(nodes, Parent(p))))
      modifies this
      ensures WellFormed(nodes)
      ensures ok ==> !Passable(At(old(nodes), p)) && nodes == WithFile(old(nodes), p, content)
      ensures !ok ==> nodes == old(nodes)
      ensures Faultless() ==> ok == !Passable(At(old(nodes), p))
    {
      var failed := Fails();
      if failed || Passable(At(nodes, p)) {
        return false;
      }
      WithFileIs(nodes, p, content);
      nodes := WithFile(nodes, p, content);
      return true;
    }

    /** captureFiles: the regular files walking the tree comes to, except below .git. */
    method CaptureFiles() returns (files: Result<Snapshot, ()>)
      modifies this`calls
      ensures files.Ok? ==> [] in nodes && files.value == Capture(nodes)
      ensures Faultless() ==> files.Ok? == ([] in nodes)
    {
      if [] !in nodes {
        return Err(());
      }
      var out: Snapshot := map[];
      var todo := nodes.Keys;
      while todo != {}
        invariant todo <= nodes.Keys
        invariant out == map p | p in nodes && p !in todo && Captured(nodes, p) :: Some(nodes[p].content)
        decreases todo
      {
        var rel :| rel in todo;
        todo := todo - {rel};
        if rel == [] || BehindLink(nodes, rel) {
          continue;
        }
        if Excluded(rel) {
          continue;
        }
        if !nodes[rel].File? {
          continue;
        }
        var failed := Fails();
        if failed {
          return Err(());
        }
        out := out[rel := Some(nodes[rel].content)];
      }
      return Ok(out);
    }

    /** restoreFiles: delete what the snapshot does not have, then write what it has, in any order. The
        order is the one taken, up to and with the entry that fails, if one does. */
    method RestoreFiles(snapshot: Snapshot) returns (ok: bool, ghost order: seq<Path>)
      requires WellFormed(nodes)
      modifies this
      ensures WellFormed(nodes) && Chosen(order, snapshot)
      ensures ok ==> [] in old(nodes) && RestoresInOrder(old(nodes), nodes, snapshot, order)
      ensures Faultless() && !ok ==> [] !in old(nodes) || PutAll(Cleaned(old(nodes), snapshot), snapshot, order) == None
      ensures Proper(snapshot) && NilsAreLeaves(snapshot) && ok ==> Restorable(old(nodes), snapshot)
      ensures Proper(snapshot) && NilsAreLeaves(snapshot) && Faultless() && [] in old(nodes) ==>
                (Restorable(old(nodes), snapshot) ==> ok)
    {
      order := [];
      var current := CaptureFiles();
      if current.Err? {
        return false, order;
      }
      CapturedKeys(nodes);
      ok := RemoveExtras(current.value.Keys - snapshot.Keys, snapshot);
      if !ok {
        return;
      }
      ghost var cleaned := nodes;
      var todo := snapshot.Keys;
      while todo != {}
        invariant WellFormed(nodes) && todo <= snapshot.Keys && Chosen(order, snapshot)
        invariant forall p :: p in order <==> p in snapshot.Keys - todo
        invariant PutAll(cleaned, snapshot, order) == Some(nodes)
        decreases todo
      {
        var rel :| rel in todo;
        todo := todo - {rel};
        ghost var before := order;
        order := order + [rel];
        assert order[..|before|] == before && rel !in before;
        ok := RestoreOne(rel, snapshot[rel]);
        if !ok {
          RestorableNeverFails(old(nodes), snapshot, order);
          return;
        }
      }
      if Proper(snapshot) && NilsAreLeaves(snapshot) {
        RestoreSucceedsIff(old(nodes), snapshot, order);
      }
      return true, order;
    }

    /** The deleting half: every extra file goes, nothing else changes. */
    method RemoveExtras(extras: set<Path>, ghost snapshot: Snapshot) returns (ok: bool)
      requires WellFormed(nodes)
      requires forall p :: p in extras <==> Captured(nodes, p) && p !in snapshot
      modifies this
      ensures WellFormed(nodes)
      ensures ok ==> nodes == Cleaned(old(nodes), snapshot)
      ensures Faultless() ==> ok
    {
      var todo := extras;
      while todo != {}
        invariant WellFormed(nodes) && todo <= extras
        invariant nodes == old(nodes) - (extras - todo)
        decreases todo
      {
        var rel :| rel in todo;
        todo := todo - {rel};
        assert rel in nodes && nodes[rel].File?;
        WithoutFile(nodes, rel);
        var r := Remove(rel);
        if r == Refused {
          return false;
        }
        assert nodes == old(nodes) - (extras - todo);
      }
      assert nodes == Cleaned(old(nodes), snapshot);
      return true;
    }

    /** The loop body of the writing half. */
    method RestoreOne(rel: Path, content: Option<string>) returns (ok: bool)
      requires WellFormed(nodes)
      modifies this
      ensures WellFormed(nodes)
      ensures ok ==> Put(old(nodes), rel, content) == Some(nodes)
      ensures Faultless() && !ok ==> Put(old(nodes), rel, content) == None
    {
      if StepsUp(rel) || Target(rel).None? {
        return false;
      }
      var target := Target(rel).value;
      if target != [] {
        ok := MkdirAll(Parent(target));
        if !ok {
          return;
        }
      }
      assert nodes == DirsFor(old(nodes), target);
      if target != [] {
        DirsForIs(old(nodes), target);
      }
      match content {
        case Some(c) =>
          ok := WriteFile(target, c);
        case None =>
          var r := Remove(target);
          ok := r != Refused;
          if r == Missing {
            WithoutMissing(nodes, target);
          }
      }
    }
  }

  lemma CapturedKeys(nodes: Nodes)
    ensures forall p :: p in Capture(nodes).Keys <==> Captured(nodes, p)
  {
  }

  lemma WithoutFile(nodes: Nodes, p: Path)
    requires WellFormed(nodes) && p in nodes && nodes[p].File?
    ensures Without(nodes, p) == nodes - {p}
  {
    FileHasNothingBelow(nodes, p);
    forall q
      ensures q in nodes && p <= q ==> q == p
    {
      assert p <= q ==> q == p || ProperPrefix(p, q);
    }
  }

  lemma WithoutMissing(nodes: Nodes, p: Path)
    requires WellFormed(nodes) && p !in nodes
    ensures Without(nodes, p) == nodes
  {
    MissingHasNothingBelow(nodes, p);
    forall q | q in nodes
      ensures !(p <= q)
    {
      assert p <= q ==> q == p || ProperPrefix(p, q);
    }
  }

  lemma RestorableNeverFails(old': Nodes, snapshot: Snapshot, order: seq<Path>)
    requires WellFormed(old') && Chosen(order, snapshot)
    ensures Proper(snapshot) && NilsAreLeaves(snapshot) && Restorable(old', snapshot) ==>
            PutAll(Cleaned(old', snapshot), snapshot, order).Some?
  {
    if Proper(snapshot) && NilsAreLeaves(snapshot) && Restorable(old', snapshot) {
      CleanedIs(old', snapshot);
      RestorableSucceeds(Cleaned(old', snapshot), snapshot, order);
    }
  }
}
