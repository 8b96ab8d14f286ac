/**
 Reference-preserving directory cleanup (removeUnreferencedFilesAt in artifact_cleanup.go). Paths are
 sequences of names; the file system maps existing paths to what they are. A symlink is not a
 directory. `unreadable` holds the paths that cannot be examined, `undeletable` those whose removal fails.
 */
module Cleanup {

  type Path = seq<string>

  datatype Kind = Directory | Other

  predicate Reserved(name: string) {
    name == ".hf-artifact-locks" || name == "_artifacts"
  }

  /** modelPathWithin: equal or below. */
  predicate Within(parent: Path, path: Path) {
    parent <= path
  }

  /** The path lies in, or is a lexical ancestor of, a protected path. */
  predicate Referenced(protected: seq<Path>, p: Path) {
    exists i :: 0 <= i < |protected| && (Within(protected[i], p) || Within(p, protected[i]))
  }

  /** Some component at or below the target has a reserved name. */
  predicate HasReserved(target: Path, p: Path) {
    exists i :: |target| - 1 <= i < |p| && 0 <= i && Reserved(p[i])
  }

  predicate Guarded(target: Path, protected: seq<Path>, p: Path) {
    Referenced(protected, p) || HasReserved(target, p)
  }

  /** What an errorless cleanup of `target` leaves: guarded entries and the directories above them. */
  predicate Survives(entries: map<Path, Kind>, target: Path, protected: seq<Path>, p: Path) {
    !Within(target, p) || exists q :: q in entries && Within(p, q) && Guarded(target, protected, q)
  }

  /** Every entry but the roots sits in a directory. */
  ghost predicate IsTree(entries: map<Path, Kind>) {
    forall p :: p in entries && |p| > 1 ==> p[..|p| - 1] in entries && entries[p[..|p| - 1]] == Directory
  }

  function Below(entries: map<Path, Kind>, p: Path): set<Path> {
    set q | q in entries && Within(p, q)
  }

  predicate IsChild(path: Path, p: Path) {
    |p| == |path| + 1 && Within(path, p)
  }

  function Children(entries: map<Path, Kind>, path: Path): set<Path> {
    set p | p in entries && IsChild(path, p)
  }

  /** Nothing that should survive is gone, and nothing else changed. */
  ghost predicate OnlyUnguardedGone(was: map<Path, Kind>, now: map<Path, Kind>, target: Path, protected: seq<Path>) {
    && (forall p :: p in now ==> p in was && now[p] == was[p])
    && (forall p :: p in was && Survives(was, target, protected, p) ==> p in now)
  }

  /** Exactly what should survive is left. */
  ghost predicate ExactlyCleaned(was: map<Path, Kind>, now: map<Path, Kind>, target: Path, protected: seq<Path>) {
    && (forall p :: p in now ==> p in was && now[p] == was[p])
    && (forall p :: p in was ==> (p in now <==> Survives(was, target, protected, p)))
  }

  // ---- trees and guards ----

  lemma {:induction false} PrefixesExist(entries: map<Path, Kind>, p: Path, n: nat)
    requires IsTree(entries) && p in entries && 0 < n <= |p|
    ensures p[..n] in entries && (n < |p| ==> entries[p[..n]] == Directory)
    decreases |p|
  {
    if n < |p| {
      var up := p[..|p| - 1];
      PrefixesExist(entries, up, n);
      assert up[..n] == p[..n];
    } else {
      assert p[..n] == p;
    }
  }

  /** Whatever lies strictly below a path lies in one of its children. */
  lemma BelowAChild(entries: map<Path, Kind>, path: Path, p: Path)
    requires IsTree(entries) && path != [] && p in entries && Within(path, p) && p != path
    ensures |p| > |path| && p[..|path| + 1] in Children(entries, path)
  {
    PrefixesExist(entries, p, |path| + 1);
  }

  /** Below a child, the guards of the child are the guards of a parent whose own name is not reserved. */
  lemma SameGuards(path: Path, child: Path, protected: seq<Path>, p: Path)
    requires path != [] && !Reserved(path[|path| - 1]) && IsChild(path, child) && Within(child, p)
    ensures Guarded(path, protected, p) <==> Guarded(child, protected, p)
  {
    assert p[|path| - 1] == path[|path| - 1];
  }

  /** A leaf survives exactly if it is guarded, a directory exactly if it is guarded or something in it survives. */
  lemma SurvivalRule(entries: map<Path, Kind>, target: Path, protected: seq<Path>, p: Path)
    requires IsTree(entries) && p in entries && p != [] && Within(target, p)
    ensures entries[p] != Directory ==> (Survives(entries, target, protected, p) <==> Guarded(target, protected, p))
    ensures Survives(entries, target, protected, p) <==>
              || Guarded(target, protected, p)
              || exists q :: q in entries && Within(p, q) && q != p && Survives(entries, target, protected, q)
  {
    if entries[p] != Directory { NothingBelow(entries, p); }
    if q :| q in entries && Within(p, q) && Guarded(target, protected, q) {
      assert Within(q, q) && Survives(entries, target, protected, q);
    }
    if q :| q in entries && Within(p, q) && q != p && Survives(entries, target, protected, q) {
      var r :| r in entries && Within(q, r) && Guarded(target, protected, r);
      assert Within(p, r);
    }
  }

  // ---- the loop over a directory ----

  /** Below `path`, in a child that has been dealt with. */
  predicate Visited(path: Path, pending: set<Path>, p: Path) {
    Within(path, p) && |p| > |path| && p[..|path| + 1] !in pending
  }

  ghost predicate HalfWay(was: map<Path, Kind>, now: map<Path, Kind>, path: Path, protected: seq<Path>,
                          pending: set<Path>) {
    && IsTree(now) && (forall p :: p in now ==> p in was && now[p] == was[p])
    && (forall p :: p in was && !Visited(path, pending, p) ==> p in now)
    && (forall p :: p in was && Visited(path, pending, p) ==> (p in now <==> Survives(was, path, protected, p)))
  }

  lemma ChildSurvives(was: map<Path, Kind>, now: map<Path, Kind>, path: Path, protected: seq<Path>, pending: set<Path>,
                      child: Path, p: Path)
    requires HalfWay(was, now, path, protected, pending) && child in pending && path != []
    requires !Reserved(path[|path| - 1])
    requires IsChild(path, child) && Within(child, p)
    ensures Survives(now, child, protected, p) <==> Survives(was, path, protected, p)
  {
    assert Within(path, p);
    if q :| q in now && Within(p, q) && Guarded(child, protected, q) {
      SameGuards(path, child, protected, q);
    }
    if q :| q in was && Within(p, q) && Guarded(path, protected, q) {
      SameGuards(path, child, protected, q);
      assert q[..|path| + 1] == child;
    }
  }

  /** A cleaned child moves from pending to visited. */
  lemma ChildCleaned(was: map<Path, Kind>, now: map<Path, Kind>, after: map<Path, Kind>, path: Path,
                     protected: seq<Path>, pending: set<Path>, child: Path)
    requires HalfWay(was, now, path, protected, pending) && child in pending && path != []
    requires !Reserved(path[|path| - 1])
    requires IsChild(path, child) && IsTree(after) && ExactlyCleaned(now, after, child, protected)
    ensures HalfWay(was, after, path, protected, pending - {child})
  {
    forall p | p in was ensures if Visited(path, pending - {child}, p) then p in after <==>
      Survives(was, path, protected, p) else p in after {
      if Within(child, p) {
        ChildSurvives(was, now, path, protected, pending, child, p);
        assert p[..|path| + 1] == child;
      }
    }
  }

  /** Which children are kept so far, after one more was cleaned. */
  lemma KeptSoFar(now: map<Path, Kind>, after: map<Path, Kind>, path: Path, protected: seq<Path>, pending: set<Path>,
                  child: Path, kept: bool)
    requires child in pending && child in now && IsChild(path, child) && ExactlyCleaned(now, after, child, protected)
    requires kept <==> child in after || Guarded(child, protected, child)
    ensures Children(after, path) - (pending - {child}) != {} <==> Children(now, path) - pending != {} || kept
  {
    assert Guarded(child, protected, child) ==> Survives(now, child, protected, child);
    if p :| p in Children(now, path) - pending {
      assert Within(child, p) ==> p == child;
      assert p in Children(after, path) - (pending - {child});
    }
    if kept { assert child in Children(after, path) - (pending - {child}); }
    if p :| p in Children(after, path) - (pending - {child}) && p != child {
      assert p in Children(now, path) - pending;
    }
  }

  lemma NothingVisitedYet(was: map<Path, Kind>, path: Path, protected: seq<Path>)
    requires IsTree(was) && path != []
    ensures HalfWay(was, was, path, protected, Children(was, path))
  {
    forall p | p in was && Within(path, p) && p != path ensures !Visited(path, Children(was, path), p) {
      BelowAChild(was, path, p);
    }
  }

  lemma HalfWaySpares(was: map<Path, Kind>, now: map<Path, Kind>, path: Path, protected: seq<Path>, pending: set<Path>)
    requires HalfWay(was, now, path, protected, pending)
    ensures OnlyUnguardedGone(was, now, path, protected)
  {
  }

  lemma ChildSpared(was: map<Path, Kind>, now: map<Path, Kind>, after: map<Path, Kind>, path: Path,
                    protected: seq<Path>, pending: set<Path>, child: Path)
    requires HalfWay(was, now, path, protected, pending) && child in pending && path != []
    requires !Reserved(path[|path| - 1])
    requires IsChild(path, child) && OnlyUnguardedGone(now, after, child, protected)
    ensures OnlyUnguardedGone(was, after, path, protected)
  {
    forall p | p in was && Survives(was, path, protected, p) ensures p in after {
      if Within(child, p) { ChildSurvives(was, now, path, protected, pending, child, p); }
    }
  }

  /** A directory outlives the loop's children if and only if it is guarded itself or one of them was kept. */
  lemma SurvivesThroughAChild(was: map<Path, Kind>, now: map<Path, Kind>, path: Path, protected: seq<Path>)
    requires IsTree(was) && path in was && path != [] && HalfWay(was, now, path, protected, {})
    ensures Survives(was, path, protected, path) <==> Guarded(path, protected, path) || Children(now, path) != {}
  {
    if q :| q in was && Within(path, q) && Guarded(path, protected, q) && q != path {
      BelowAChild(was, path, q);
      var child := q[..|path| + 1];
      assert Within(child, q);
      assert Visited(path, {}, child) && Survives(was, path, protected, child);
      assert child in Children(now, path);
    }
    if child :| child in Children(now, path) {
      assert Visited(path, {}, child) && Survives(was, path, protected, child);
      var q :| q in was && Within(child, q) && Guarded(path, protected, q);
      assert Within(path, q);
    }
  }

  lemma DirectoryKept(was: map<Path, Kind>, now: map<Path, Kind>, path: Path, protected: seq<Path>)
    requires path in was && HalfWay(was, now, path, protected, {}) && Survives(was, path, protected, path)
    ensures path in now && ExactlyCleaned(was, now, path, protected)
  {
    forall p | p in was && !Visited(path, {}, p) ensures p == path || !Within(path, p) { }
  }

  lemma DirectoryRemoved(was: map<Path, Kind>, now: map<Path, Kind>, path: Path, protected: seq<Path>)
    requires path in was && HalfWay(was, now, path, protected, {}) && !Survives(was, path, protected, path)
    requires Children(now, path) == {}
    ensures IsTree(now - {path}) && ExactlyCleaned(was, now - {path}, path, protected)
  {
    forall p | p in was && !Visited(path, {}, p) ensures p == path || !Within(path, p) { }
    forall p | p in now && |p| > 1 ensures p[..|p| - 1] != path {
      assert p !in Children(now, path);
    }
  }

  lemma FewerBelow(was: map<Path, Kind>, now: map<Path, Kind>, path: Path, child: Path)
    requires path in was && (forall p :: p in now ==> p in was) && Within(path, child) && child != path
    ensures |Below(now, child)| < |Below(was, path)|
  {
    assert path in Below(was, path) && path !in Below(now, child);
    Smaller(Below(now, child), Below(was, path), path);
  }

  lemma Smaller(a: set<Path>, b: set<Path>, x: Path)
    requires a <= b && x in b && x !in a
    ensures |a| < |b|
  {
    SubsetSize(a, b - {x});
  }

  lemma {:induction false} SubsetSize(a: set<Path>, b: set<Path>)
    requires a <= b
    ensures |a| <= |b|
  {
    if a != {} {
      var x :| x in a;
      SubsetSize(a - {x}, b - {x});
    }
  }

  // ---- the branches that do not descend ----

  lemma AllGuarded(entries: map<Path, Kind>, path: Path, protected: seq<Path>)
    requires path != []
    requires Reserved(path[|path| - 1]) || exists i :: 0 <= i < |protected| && Within(protected[i], path)
    ensures Guarded(path, protected, path) && ExactlyCleaned(entries, entries, path, protected)
  {
    forall p | Within(path, p) ensures Guarded(path, protected, p) {
      if Reserved(path[|path| - 1]) {
        assert Reserved(p[|path| - 1]);
      } else {
        var i :| 0 <= i < |protected| && Within(protected[i], path);
        assert Within(protected[i], p);
      }
    }
  }

  lemma NothingBelow(entries: map<Path, Kind>, path: Path)
    requires IsTree(entries) && path != [] && (path in entries ==> entries[path] != Directory)
    ensures forall p :: p in entries && Within(path, p) ==> p == path
  {
    forall p | p in entries && Within(path, p) ensures p == path {
      PrefixesExist(entries, p, |path|);
      assert p[..|path|] == path;
    }
  }

  lemma LeafRemoved(entries: map<Path, Kind>, path: Path, protected: seq<Path>)
    requires IsTree(entries) && path != [] && path in entries && entries[path] != Directory
    requires !Guarded(path, protected, path)
    ensures IsTree(entries - {path}) && ExactlyCleaned(entries, entries - {path}, path, protected)
  {
    NothingBelow(entries, path);
  }

  /** The loop over the protected paths. */
  method CheckProtected(path: Path, protected: seq<Path>) returns (inside: bool, containsReference: bool)
    ensures inside <==> exists i :: 0 <= i < |protected| && Within(protected[i], path)
    ensures !inside ==> (containsReference <==> Referenced(protected, path))
  {
    containsReference := false;
    for i := 0 to |protected|
      invariant forall k :: 0 <= k < i ==> !Within(protected[k], path)
      invariant containsReference <==> exists k :: 0 <= k < i && Within(path, protected[k])
    {
      if protected[i] <= path {
        return true, containsReference;
      }
      containsReference := containsReference || path <= protected[i];
    }
    inside := false;
  }

  class FileSystem {
    var entries: map<Path, Kind>

    /**
     Removes what is not protected below `path`. Whether or not a call fails, nothing that should
     survive is removed; without failures, exactly the survivors remain.
     */
    method RemoveUnreferenced(path: Path, protected: seq<Path>, unreadable: set<Path>, undeletable: set<Path>)
      returns (retained: bool, ok: bool)
      requires path != [] && IsTree(entries)
      modifies this
      ensures IsTree(entries) && OnlyUnguardedGone(old(entries), entries, path, protected)
      ensures ok ==> ExactlyCleaned(old(entries), entries, path, protected)
      ensures ok ==> (retained <==> path in entries || Guarded(path, protected, path))
      decreases |Below(entries, path)|, 1
    {
      ghost var was := entries;
      if Reserved(path[|path| - 1]) {
        AllGuarded(was, path, protected);
        return true, true;
      }
      var inside, containsReference := CheckProtected(path, protected);
      if inside {
        AllGuarded(was, path, protected);
        return true, true;
      }
      if path in unreadable {
        return false, false;
      }
      if path !in entries {
        NothingBelow(was, path);
        return containsReference, true;
      }
      NotReserved(path);
      if entries[path] != Directory {
        NothingBelow(was, path);
        if containsReference {
          return true, true;
        }
        if path in undeletable {
          return false, false;
        }
        LeafRemoved(was, path, protected);
        entries := entries - {path};
        return false, true;
      }
      retained, ok := RemoveChildren(path, protected, unreadable, undeletable);
      if !ok {
        return false, false;
      }
      SurvivesThroughAChild(was, entries, path, protected);
      retained := containsReference || retained;
      if retained {
        DirectoryKept(was, entries, path, protected);
        return true, true;
      }
      if path in undeletable {
        return false, false;
      }
      DirectoryRemoved(was, entries, path, protected);
      entries := entries - {path};
    }

    /** The loop over a directory's names, in any order; stops at the first failure. */
    method RemoveChildren(path: Path, protected: seq<Path>, unreadable: set<Path>, undeletable: set<Path>)
      returns (retained: bool, ok: bool)
      requires path != [] && IsTree(entries) && path in entries && !Reserved(path[|path| - 1])
      modifies this
      ensures IsTree(entries) && OnlyUnguardedGone(old(entries), entries, path, protected)
      ensures ok ==>
                HalfWay(old(entries), entries, path, protected, {}) && (retained <==> Children(entries, path) != {})
      decreases |Below(entries, path)|, 0
    {
      ghost var was := entries;
      var pending := Children(entries, path);
      retained := false;
      NothingVisitedYet(was, path, protected);
      while pending != {}
        invariant pending <= Children(was, path) && HalfWay(was, entries, path, protected, pending)
        invariant retained <==> Children(entries, path) - pending != {}
        decreases pending
      {
        var child :| child in pending;
        ghost var now := entries;
        assert child in now by { assert child[..|path| + 1] == child; }
        FewerBelow(was, now, path, child);
        var kept, good := RemoveUnreferenced(child, protected, unreadable, undeletable);
        if !good {
          ChildSpared(was, now, entries, path, protected, pending, child);
          return false, false;
        }
        ChildCleaned(was, now, entries, path, protected, pending, child);
        KeptSoFar(now, entries, path, protected, pending, child, kept);
        pending := pending - {child};
        retained := retained || kept;
      }
      HalfWaySpares(was, entries, path, protected, {});
      ok := true;
    }
  }

  lemma NotReserved(path: Path)
    requires path != [] && !Reserved(path[|path| - 1])
    ensures !HasReserved(path, path)
  {
  }

  /** Lock files and shared artifacts below the target always survive. */
  lemma SharedArtifactsSurvive(entries: map<Path, Kind>, target: Path, protected: seq<Path>, p: Path, i: nat)
    requires target != [] && p in entries && Within(target, p) && |target| - 1 <= i < |p|
    requires p[i] == "_artifacts" || p[i] == ".hf-artifact-locks"
    ensures Survives(entries, target, protected, p)
  {
    assert HasReserved(target, p) && Within(p, p);
  }
}
