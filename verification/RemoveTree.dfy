/**
 Recursive directory removal over a link-free tree of files and directories.  The operating system may
 refuse to remove some paths and to list some directories; nobody else changes the tree meanwhile.
 */
module RemoveTree {

  type Path = seq<string>
  datatype Node = File | Dir
  type Tree = map<Path, Node>

  datatype FileInfo = FileInfo(name: string, isDirectory: bool)

  // Every node but the root hangs under a directory.
  ghost predicate WellFormed(t: Tree) {
    forall q :: q in t && |q| > 0 ==> q[..|q| - 1] in t && t[q[..|q| - 1]] == Dir
  }

  predicate IsDir(t: Tree, p: Path) { p in t && t[p] == Dir }

  ghost predicate HasChild(t: Tree, p: Path) { exists n :: p + [n] in t }

  ghost function Subtree(t: Tree, p: Path): set<Path> { set q | q in t && p <= q }

  // What stands under p is the same in both trees.
  ghost predicate SameUnder(t: Tree, u: Tree, p: Path) {
    forall q :: p <= q ==> (q in t <==> q in u) && (q in t ==> t[q] == u[q])
  }

  ghost predicate SameOutside(t: Tree, u: Tree, p: Path) {
    forall q :: !(p <= q) ==> (q in t <==> q in u) && (q in t ==> t[q] == u[q])
  }

  // Nothing is left at or below p.
  ghost predicate Gone(t: Tree, p: Path) {
    forall q :: p <= q ==> q !in t
  }

  ghost predicate Within(t: Tree, u: Tree) {
    forall q :: q in t ==> q in u && t[q] == u[q]
  }

  lemma {:induction false} AncestorIsDir(t: Tree, q: Path, k: nat)
    requires WellFormed(t) && q in t && k < |q|
    ensures IsDir(t, q[..k])
    decreases |q|
  {
    var parent := q[..|q| - 1];
    if k < |parent| {
      AncestorIsDir(t, parent, k);
      assert parent[..k] == q[..k];
    } else {
      assert parent == q[..k];
    }
  }

  // A proper descendant lies under one child.
  lemma UnderSomeChild(t: Tree, p: Path, q: Path)
    requires WellFormed(t) && q in t && p <= q && p != q
    ensures p + [q[|p|]] in t && p + [q[|p|]] <= q
  {
    assert p + [q[|p|]] == q[..|p| + 1];
    if |p| + 1 < |q| { AncestorIsDir(t, q, |p| + 1); } else { assert q[..|p| + 1] == q; }
  }

  class FileSystem {
    var tree: Tree
    const denied: set<Path>      // paths the system refuses to remove
    const unreadable: set<Path>  // directories the system refuses to list

    ghost predicate Valid()
      reads this
    {
      WellFormed(tree)
    }

    // Nothing at or below p stands in the way of removing it.
    ghost predicate Removable(t: Tree, p: Path) {
      && p in t
      && (forall q :: q in t && p <= q ==> q !in denied)
      && (forall q :: q in t && p <= q && q in unreadable ==> !HasChild(t, q))
    }

    // Each child once, with its kind; nothing if the directory cannot be listed.
    ghost predicate Lists(t: Tree, p: Path, entries: seq<FileInfo>) {
      && (forall i :: 0 <= i < |entries| ==>
            (p + [entries[i].name] in t && entries[i].isDirectory == IsDir(t, p + [entries[i].name])))
      && (forall i, j :: 0 <= i < j < |entries| ==> entries[i].name != entries[j].name)
      && (p in unreadable ==> entries == [])
      && (p !in unreadable ==> forall n :: p + [n] in t ==> exists i :: 0 <= i < |entries| && entries[i].name == n)
    }

    // After the first i entries have been removed.
    ghost predicate Progress(start: Tree, t: Tree, p: Path, entries: seq<FileInfo>, i: nat) {
      && i <= |entries| && WellFormed(t) && IsDir(t, p)
      && Within(t, start) && SameOutside(t, start, p)
      && (forall j :: 0 <= j < i ==> Gone(t, p + [entries[j].name]))
      && (forall j :: i <= j < |entries| ==> SameUnder(t, start, p + [entries[j].name]))
      && (forall j :: 0 <= j < i ==> Removable(start, p + [entries[j].name]))
      && (i == 0 ==> t == start)
    }

    constructor (tree: Tree, denied: set<Path>, unreadable: set<Path>)
      requires WellFormed(tree)
      ensures Valid() && this.tree == tree && this.denied == denied && this.unreadable == unreadable
    {
      this.tree, this.denied, this.unreadable := tree, denied, unreadable;
    }

    method DeleteFile(p: Path) returns (ok: bool)
      requires Valid()
      modifies this`tree
      ensures Valid()
      ensures ok <==> p in old(tree) && old(tree)[p] == File && p !in denied
      ensures tree == if ok then old(tree) - {p} else old(tree)
    {
      ok := p in tree && tree[p] == File && p !in denied;
      if ok { tree := tree - {p}; }
    }

    method RemoveDir(p: Path) returns (ok: bool)
      requires Valid()
      modifies this`tree
      ensures Valid()
      ensures ok <==> IsDir(old(tree), p) && !HasChild(old(tree), p) && p !in denied
      ensures tree == if ok then old(tree) - {p} else old(tree)
    {
      var children := set q | q in tree && |q| == |p| + 1 && q[..|p|] == p;
      assert children == {} <==> !HasChild(tree, p) by {
        if n :| p + [n] in tree { assert (p + [n])[..|p|] == p; assert p + [n] in children; }
        if q :| q in children { assert q == p + [q[|p|]]; }
      }
      ok := IsDir(tree, p) && children == {} && p !in denied;
      if ok { tree := tree - {p}; }
    }

    // The entries of a directory, in some order; none if it cannot be listed.
    method ListDirectory(p: Path) returns (entries: seq<FileInfo>)
      ensures Lists(tree, p, entries)
    {
      entries := [];
      if p in unreadable { return; }
      var left := set q | q in tree && |q| == |p| + 1 && q[..|p|] == p :: q[|p|];
      assert forall n :: n in left <==> p + [n] in tree by {
        forall n | p + [n] in tree ensures n in left { var q := p + [n]; assert q[..|p|] == p && q[|p|] == n; }
        forall n | n in left ensures p + [n] in tree {
          var q :| q in tree && |q| == |p| + 1 && q[..|p|] == p && q[|p|] == n;
          assert q == p + [n];
        }
      }
      while left != {}
        invariant forall n :: p + [n] in tree <==> n in left || exists i :: 0 <= i < |entries| && entries[i].name == n
        invariant forall i :: 0 <= i < |entries| ==>
                    (entries[i].name !in left && entries[i].isDirectory == IsDir(tree, p + [entries[i].name]))
        invariant forall i, j :: 0 <= i < j < |entries| ==> entries[i].name != entries[j].name
        decreases left
      {
        var n :| n in left;
        ghost var before := entries;
        entries := entries + [FileInfo(n, IsDir(tree, p + [n]))];
        left := left - {n};
        assert entries[|before|].name == n && forall i :: 0 <= i < |before| ==> entries[i] == before[i];
      }
    }

    /** Terminates on every tree.  True means exactly the subtree at the path is gone, and is returned
        exactly when the path exists and nothing at or below it stands in the way; false means only nodes
        of the subtree may have been removed.  Everything outside is unchanged in both cases. */
    method RemoveDirRecursive(p: Path) returns (ok: bool)
      requires Valid()
      modifies this`tree
      ensures Valid() && Within(tree, old(tree)) && SameOutside(tree, old(tree), p)
      ensures ok ==> Gone(tree, p)
      ensures ok <==> Removable(old(tree), p)
      decreases Subtree(tree, p), 1
    {
      if !IsDir(tree, p) {
        LeafHasNothingBelow(tree, p);
        ok := DeleteFile(p);
        return;
      }
      hide Progress, Lists, Removable, Gone, Within, SameOutside, SameUnder, WellFormed, HasChild, Subtree;
      var entries := ListDirectory(p);
      ghost var start := tree;
      ok := RemoveEntries(p, entries);
      if !ok { return; }
      AllEntriesGone(start, tree, p, entries);
      ghost var emptied := tree;
      ok := RemoveDir(p);
      DirectoryTried(start, emptied, tree, p, ok);
    }

    // The loop over the entries.
    method RemoveEntries(p: Path, entries: seq<FileInfo>) returns (ok: bool)
      requires Valid() && IsDir(tree, p) && Lists(tree, p, entries)
      modifies this`tree
      ensures Valid()
      ensures ok ==> Progress(old(tree), tree, p, entries, |entries|)
      ensures !ok ==> Within(tree, old(tree)) && SameOutside(tree, old(tree), p) && !Removable(old(tree), p)
      decreases Subtree(tree, p), 0
    {
      hide Progress, Lists, Removable, Gone, Within, SameOutside, SameUnder, WellFormed, HasChild, Subtree;
      ghost var start := tree;
      NoProgressYet(start, p, entries);
      var i := 0;
      while i < |entries|
        invariant i <= |entries| && Valid() && Progress(start, tree, p, entries, i)
      {
        ghost var before := tree;
        NextEntry(start, tree, p, entries, i);
        ok := RemoveEntry(p + [entries[i].name], entries[i].isDirectory);
        if !ok {
          EntryFailed(start, before, tree, p, entries, i);
          return;
        }
        EntryRemoved(start, before, tree, p, entries, i);
        i := i + 1;
      }
      ok := true;
    }

    // One entry of the loop, by its kind.
    method RemoveEntry(child: Path, isDirectory: bool) returns (ok: bool)
      requires Valid() && isDirectory == IsDir(tree, child)
      modifies this`tree
      ensures Valid() && Within(tree, old(tree)) && SameOutside(tree, old(tree), child)
      ensures ok ==> Gone(tree, child)
      ensures ok <==> Removable(old(tree), child)
      decreases Subtree(tree, child), 2
    {
      if isDirectory {
        ok := RemoveDirRecursive(child);
      } else {
        LeafHasNothingBelow(tree, child);
        ok := DeleteFile(child);
      }
    }

    // A missing node or a file has nothing below it.
    lemma LeafHasNothingBelow(t: Tree, p: Path)
      requires WellFormed(t) && !IsDir(t, p)
      ensures forall q :: q in t && p <= q ==> q == p
      ensures Removable(t, p) <==> p in t && p !in denied
    {
      forall q | q in t && p <= q ensures q == p {
        assert q[..|p|] == p;
        if q != p { AncestorIsDir(t, q, |p|); }
      }
      forall n ensures p + [n] !in t { assert p <= p + [n]; }
    }

    lemma NextEntry(start: Tree, t: Tree, p: Path, entries: seq<FileInfo>, i: nat)
      requires IsDir(start, p) && Lists(start, p, entries) && Progress(start, t, p, entries, i) && i < |entries|
      ensures var child := p + [entries[i].name];
              && WellFormed(t) && entries[i].isDirectory == IsDir(t, child)
              && Subtree(t, child) < Subtree(start, p)
              && (Removable(t, child) <==> Removable(start, child))
    {
      var child := p + [entries[i].name];
      assert p in Subtree(start, p) && p !in Subtree(t, child);
      RemovableCarries(t, start, child);
    }

    lemma NoProgressYet(start: Tree, p: Path, entries: seq<FileInfo>)
      requires WellFormed(start) && IsDir(start, p)
      ensures Progress(start, start, p, entries, 0)
    {
    }

    lemma AllEntriesGone(start: Tree, t: Tree, p: Path, entries: seq<FileInfo>)
      requires WellFormed(start) && IsDir(start, p) && Lists(start, p, entries)
      requires Progress(start, t, p, entries, |entries|)
      ensures WellFormed(t) && IsDir(t, p) && Within(t, start) && SameOutside(t, start, p)
      ensures !HasChild(t, p) ==> forall q :: q in t && p <= q ==> q == p
      ensures Removable(start, p) <==> !HasChild(t, p) && p !in denied
    {
      NothingBelow(t, p);
      OnlyDirectoryLeft(start, t, p, entries);
    }

    lemma DirectoryTried(start: Tree, t: Tree, t': Tree, p: Path, ok: bool)
      requires Within(t, start) && SameOutside(t, start, p) && t' == if ok then t - {p} else t
      requires ok ==> forall q :: q in t && p <= q ==> q == p
      ensures Within(t', start) && SameOutside(t', start, p)
      ensures ok ==> Gone(t', p)
    {
    }

    lemma EntryRemoved(start: Tree, before: Tree, t: Tree, p: Path, entries: seq<FileInfo>, i: nat)
      requires Lists(start, p, entries) && Progress(start, before, p, entries, i) && i < |entries|
      requires WellFormed(t) && Within(t, before) && SameOutside(t, before, p + [entries[i].name])
      requires Gone(t, p + [entries[i].name])
      requires Removable(start, p + [entries[i].name])
      ensures Progress(start, t, p, entries, i + 1)
    {
      hide Removable, Gone, SameUnder, SameOutside, Within;
      ChildrenDisjoint(before, t, p, entries, i);
      SameTransitive(t, before, start, p);
      forall j | i + 1 <= j < |entries| ensures SameUnder(t, start, p + [entries[j].name]) {
        UnderTransitive(t, before, start, p + [entries[j].name]);
      }
      forall j | 0 <= j < i ensures Gone(t, p + [entries[j].name]) {
        StaysGone(t, before, p + [entries[j].name]);
      }
    }

    lemma UnderTransitive(t: Tree, u: Tree, v: Tree, p: Path)
      requires SameUnder(t, u, p) && SameUnder(u, v, p)
      ensures SameUnder(t, v, p)
    {
    }

    lemma StaysGone(t: Tree, u: Tree, p: Path)
      requires Within(t, u) && Gone(u, p)
      ensures Gone(t, p)
    {
    }

    lemma SameTransitive(t: Tree, u: Tree, v: Tree, p: Path)
      requires Within(t, u) && Within(u, v) && SameOutside(t, u, p) && SameOutside(u, v, p)
      ensures Within(t, v) && SameOutside(t, v, p)
    {
    }

    lemma EntryFailed(start: Tree, before: Tree, t: Tree, p: Path, entries: seq<FileInfo>, i: nat)
      requires IsDir(start, p) && Lists(start, p, entries) && Progress(start, before, p, entries, i) && i < |entries|
      requires Within(t, before) && SameOutside(t, before, p + [entries[i].name])
      requires !Removable(start, p + [entries[i].name])
      ensures Within(t, start) && SameOutside(t, start, p) && !Removable(start, p)
    {
      var child := p + [entries[i].name];
      ChildrenDisjoint(before, t, p, entries, i);
      NotRemovable(start, p, child);
    }

    lemma RemovableCarries(t: Tree, start: Tree, p: Path)
      requires SameUnder(t, start, p)
      ensures Removable(t, p) <==> Removable(start, p)
    {
      forall q | p <= q ensures HasChild(t, q) <==> HasChild(start, q) {
        if n :| q + [n] in t { assert p <= q + [n]; }
        if n :| q + [n] in start { assert p <= q + [n]; }
      }
    }

    lemma ChildrenDisjoint(before: Tree, t: Tree, p: Path, entries: seq<FileInfo>, i: nat)
      requires i < |entries| && SameOutside(t, before, p + [entries[i].name])
      requires forall j, k :: 0 <= j < k < |entries| ==> entries[j].name != entries[k].name
      ensures forall j :: 0 <= j < |entries| && j != i ==> SameUnder(t, before, p + [entries[j].name])
      ensures SameOutside(t, before, p) && (p in t <==> p in before) && (p in t ==> t[p] == before[p])
    {
      forall j | 0 <= j < |entries| && j != i ensures SameUnder(t, before, p + [entries[j].name]) {
        forall q | p + [entries[j].name] <= q ensures (q in t <==> q in before) && (q in t ==> t[q] == before[q]) {
          assert q[|p|] == entries[j].name;
        }
      }
    }

    lemma NotRemovable(t: Tree, p: Path, child: Path)
      requires p <= child && p in t && child in t && !Removable(t, child)
      ensures !Removable(t, p)
    {
    }

    // With every listed child gone, only a directory that could not be listed still has something below it.
    lemma NothingBelow(t: Tree, p: Path)
      requires WellFormed(t)
      ensures !HasChild(t, p) ==> forall q :: q in t && p <= q ==> q == p
    {
      forall q | q in t && p <= q && q != p ensures HasChild(t, p) { UnderSomeChild(t, p, q); }
    }

    lemma OnlyDirectoryLeft(start: Tree, t: Tree, p: Path, entries: seq<FileInfo>)
      requires WellFormed(start) && Within(t, start) && IsDir(start, p) && IsDir(t, p)
      requires Lists(start, p, entries) && Progress(start, t, p, entries, |entries|)
      ensures Removable(start, p) <==> !HasChild(t, p) && p !in denied
    {
      if p in unreadable {
        if !HasChild(start, p) { NothingBelow(start, p); }
      } else {
        forall q | q in start && p <= q && q != p ensures q !in denied && (q in unreadable ==> !HasChild(start, q)) {
          UnderSomeChild(start, p, q);
          var j :| 0 <= j < |entries| && entries[j].name == q[|p|];
          assert Removable(start, p + [entries[j].name]);
        }
        forall n ensures p + [n] !in t {
          if p + [n] in start {
            var j :| 0 <= j < |entries| && entries[j].name == n;
            assert p + [entries[j].name] <= p + [n];
          }
        }
      }
    }
  }
}
