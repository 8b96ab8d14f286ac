/**
 The order in which authored manifests are applied (authoredOrder in manifest_validation.go):
 models, then runtimes, then the rest; inheritance parents before their children; key order last.
 */
module AuthoredOrder {
  import opened HfTypes
  import Lexical

  datatype Object = Object(kind: string, namespace: string, name: string, inheritFrom: string)

  function Key(o: Object): string {
    o.kind + "/" + o.namespace + "/" + o.name
  }

  type Lookup = map<string, Object>

  ghost predicate Indexed(lookup: Lookup) {
    forall k :: k in lookup ==> Key(lookup[k]) == k
  }

  /** The object named by the inheritance annotation, if it is among the authored ones. */
  function ParentOf(lookup: Lookup, o: Object): (p: Option<Object>)
    ensures p.Some? ==> exists k :: k in lookup && lookup[k] == p.value
  {
    var own := o.kind + "/" + o.namespace + "/" + o.inheritFrom;
    var cluster := "ClusterServingRuntime//" + o.inheritFrom;
    if o.inheritFrom == "" then None
    else if own in lookup then Some(lookup[own])
    else if o.kind == "ServingRuntime" && cluster in lookup then Some(lookup[cluster])
    else None
  }

  const REVISIT := 100

  /** The length of the inheritance chain, or REVISIT more than the steps until it meets `seen`. */
  function Depth(lookup: Lookup, o: Object, seen: set<string>): (d: nat)
    requires Indexed(lookup) && Key(o) in lookup
    decreases lookup.Keys - seen
  {
    if Key(o) in seen then REVISIT
    else
      match ParentOf(lookup, o)
      case None => 0
      case Some(p) => 1 + Depth(lookup, p, seen + {Key(o)})
  }

  function Rank(o: Object): nat {
    if o.kind == "ClusterBaseModel" || o.kind == "BaseModel" then 0
    else if o.kind == "ClusterServingRuntime" || o.kind == "ServingRuntime" then 1
    else 2
  }

  /** The comparison handed to the sort. */
  predicate Before(lookup: Lookup, a: Object, b: Object)
    requires Indexed(lookup) && Key(a) in lookup && Key(b) in lookup
  {
    var x, y := Depth(lookup, a, {}), Depth(lookup, b, {});
    if Rank(a) != Rank(b) then Rank(a) < Rank(b)
    else if x != y then x < y
    else Lexical.Less(Key(a), Key(b))
  }

  // ---- the inheritance graph ----

  /** The key `n` inheritance steps above `k`. */
  function Climb(lookup: Lookup, k: string, n: nat): (top: Option<string>)
    requires Indexed(lookup) && k in lookup
    ensures top.Some? ==> top.value in lookup
    decreases n
  {
    if n == 0 then Some(k)
    else
      match ParentOf(lookup, lookup[k])
      case None => None
      case Some(p) => Climb(lookup, Key(p), n - 1)
  }

  ghost predicate Reaches(lookup: Lookup, k: string, top: string)
    requires Indexed(lookup) && k in lookup
  {
    exists n: nat :: Climb(lookup, k, n) == Some(top)
  }

  lemma ReachesFromParent(lookup: Lookup, k: string, p: Object, top: string)
    requires Indexed(lookup) && k in lookup && ParentOf(lookup, lookup[k]) == Some(p) && Reaches(lookup, Key(p), top)
    ensures Reaches(lookup, k, top)
  {
    var n: nat :| Climb(lookup, Key(p), n) == Some(top);
    assert Climb(lookup, k, n + 1) == Some(top);
  }

  /** Marking a key that the chain never meets does not change its depth. */
  lemma {:induction false} DepthIgnores(lookup: Lookup, k: string, seen: set<string>, other: string)
    requires Indexed(lookup) && k in lookup && !Reaches(lookup, k, other)
    ensures Depth(lookup, lookup[k], seen + {other}) == Depth(lookup, lookup[k], seen)
    decreases lookup.Keys - seen
  {
    assert Climb(lookup, k, 0) == Some(k);
    if k !in seen && ParentOf(lookup, lookup[k]).Some? {
      var p := ParentOf(lookup, lookup[k]).value;
      if Reaches(lookup, Key(p), other) { ReachesFromParent(lookup, k, p, other); }
      DepthIgnores(lookup, Key(p), seen + {k}, other);
      assert seen + {other} + {k} == seen + {k} + {other};
    }
  }

  /** Off its parent's chain, a child is exactly one deeper than its parent. */
  lemma ChildIsDeeper(lookup: Lookup, k: string, p: Object)
    requires Indexed(lookup) && k in lookup && ParentOf(lookup, lookup[k]) == Some(p) && !Reaches(lookup, Key(p), k)
    ensures Depth(lookup, lookup[k], {}) == 1 + Depth(lookup, p, {})
  {
    DepthIgnores(lookup, Key(p), {}, k);
    assert {} + {k} == {k};
  }

  // ---- cycles ----

  lemma {:induction false} ClimbTwice(lookup: Lookup, k: string, m: nat, n: nat)
    requires Indexed(lookup) && k in lookup && Climb(lookup, k, m).Some?
    ensures Climb(lookup, k, m + n) == Climb(lookup, Climb(lookup, k, m).value, n)
    decreases m
  {
    if m > 0 {
      var p := ParentOf(lookup, lookup[k]).value;
      ClimbTwice(lookup, Key(p), m - 1, n);
    }
  }

  /** `n` is the first time the chain from `k` meets `top`. */
  ghost predicate FirstMeets(lookup: Lookup, k: string, top: string, n: nat)
    requires Indexed(lookup) && k in lookup
  {
    Climb(lookup, k, n) == Some(top) && forall m: nat :: m < n ==> Climb(lookup, k, m) != Some(top)
  }

  lemma {:induction false} FirstMeeting(lookup: Lookup, k: string, top: string, n: nat) returns (first: nat)
    requires Indexed(lookup) && k in lookup && Climb(lookup, k, n) == Some(top)
    ensures FirstMeets(lookup, k, top, first)
    decreases n
  {
    if m: nat :| m < n && Climb(lookup, k, m) == Some(top) {
      first := FirstMeeting(lookup, k, top, m);
    } else {
      first := n;
    }
  }

  /** On the way to its first meeting with `top` the chain does not come back to `k`. */
  lemma NoDetour(lookup: Lookup, k: string, top: string, n: nat, i: nat)
    requires Indexed(lookup) && k in lookup && FirstMeets(lookup, k, top, n) && 0 < i < n
    ensures Climb(lookup, k, i) != Some(k)
  {
    if Climb(lookup, k, i) == Some(k) {
      ClimbTwice(lookup, k, i, n - i);
      assert false;
    }
  }

  /** A chain that meets no marked key before `top`, which is marked. */
  ghost predicate ClearUntil(lookup: Lookup, k: string, top: string, n: nat, seen: set<string>)
    requires Indexed(lookup) && k in lookup
  {
    FirstMeets(lookup, k, top, n) && top in seen && forall i: nat :: i < n && Climb(lookup, k, i).Some? ==>
      Climb(lookup, k, i).value !in seen
  }

  lemma {:induction false} DepthToMark(lookup: Lookup, k: string, top: string, n: nat, seen: set<string>)
    requires Indexed(lookup) && k in lookup && ClearUntil(lookup, k, top, n, seen)
    ensures Depth(lookup, lookup[k], seen) == n + REVISIT
    decreases n
  {
    if n > 0 {
      assert Climb(lookup, k, 0) == Some(k);
      var p := ParentOf(lookup, lookup[k]).value;
      assert ClearUntil(lookup, Key(p), top, n - 1, seen + {k}) by {
        forall m: nat | m < n - 1 ensures Climb(lookup, Key(p), m) != Some(top) {
          assert Climb(lookup, k, m + 1) != Some(top);
        }
        forall i: nat | i < n - 1 && Climb(lookup, Key(p), i).Some?
          ensures Climb(lookup, Key(p), i).value !in seen + {k} {
          assert Climb(lookup, k, i + 1) == Climb(lookup, Key(p), i);
          NoDetour(lookup, k, top, n, i + 1);
        }
      }
      DepthToMark(lookup, Key(p), top, n - 1, seen + {k});
    }
  }

  /** Everyone on a cycle of `n + 1` objects has the same depth. */
  lemma CycleDepth(lookup: Lookup, k: string, p: Object, n: nat)
    requires Indexed(lookup) && k in lookup && ParentOf(lookup, lookup[k]) == Some(p)
    requires FirstMeets(lookup, Key(p), k, n)
    ensures Depth(lookup, lookup[k], {}) == n + 1 + REVISIT
  {
    assert ClearUntil(lookup, Key(p), k, n, {k});
    DepthToMark(lookup, Key(p), k, n, {k});
    assert {} + {k} == {k};
  }

  /** If `k` comes back to itself, so does its parent, after as many steps. */
  lemma SamePeriod(lookup: Lookup, k: string, p: Object, q: Object, n: nat)
    requires Indexed(lookup) && k in lookup && ParentOf(lookup, lookup[k]) == Some(p)
    requires FirstMeets(lookup, Key(p), k, n)
    requires ParentOf(lookup, lookup[Key(p)]) == Some(q)
    ensures FirstMeets(lookup, Key(q), Key(p), n)
  {
    assert Climb(lookup, Key(p), n + 1) == Climb(lookup, Key(q), n);
    ClimbTwice(lookup, Key(p), n, 1);
    assert Climb(lookup, k, 1) == Climb(lookup, Key(p), 0) == Some(Key(p));
    forall m: nat | m < n ensures Climb(lookup, Key(q), m) != Some(Key(p)) {
      if Climb(lookup, Key(q), m) == Some(Key(p)) {
        assert Climb(lookup, Key(p), m + 1) == Some(Key(p));
        NoDetour(lookup, Key(p), k, n, m + 1);
      }
    }
  }

  /** Parent and child on one cycle tie in depth. */
  lemma CycleTies(lookup: Lookup, k: string, p: Object)
    requires Indexed(lookup) && k in lookup && ParentOf(lookup, lookup[k]) == Some(p) && Reaches(lookup, Key(p), k)
    ensures Depth(lookup, lookup[k], {}) == Depth(lookup, p, {})
  {
    var m: nat :| Climb(lookup, Key(p), m) == Some(k);
    var n := FirstMeeting(lookup, Key(p), k, m);
    CycleDepth(lookup, k, p, n);
    assert Climb(lookup, k, 1) == Some(Key(p));
    assert lookup[Key(p)] == p;
    if n > 0 {
      var q := ParentOf(lookup, p).value;
      SamePeriod(lookup, k, p, q, n);
      CycleDepth(lookup, Key(p), q, n);
    }
  }

  // ---- ranks ----

  predicate PlainKind(o: Object) {
    '/' !in o.kind
  }

  lemma FirstPart(a: string, b: string, x: string, y: string)
    requires '/' !in a && '/' !in b && a + "/" + x == b + "/" + y
    ensures a == b
  {
    var s := a + "/" + x;
    assert s[|a|] == '/' && s[|b|] == '/' && s == b + "/" + y;
    assert s[..|a|] == a && s[..|b|] == b;
  }

  /** Inheritance stays within one rank. */
  lemma ParentRank(lookup: Lookup, o: Object, p: Object)
    requires Indexed(lookup) && ParentOf(lookup, o) == Some(p) && PlainKind(o) && PlainKind(p)
    ensures Rank(o) == Rank(p)
  {
    var own := o.kind + "/" + o.namespace + "/" + o.inheritFrom;
    if own in lookup {
      assert own == o.kind + "/" + (o.namespace + "/" + o.inheritFrom)
             && Key(p) == p.kind + "/" + (p.namespace + "/" + p.name);
      FirstPart(o.kind, p.kind, o.namespace + "/" + o.inheritFrom, p.namespace + "/" + p.name);
    } else {
      var cluster := "ClusterServingRuntime//" + o.inheritFrom;
      assert cluster == "ClusterServingRuntime" + "/" + ("/" + o.inheritFrom)
             && Key(p) == p.kind + "/" + (p.namespace + "/" + p.name);
      FirstPart("ClusterServingRuntime", p.kind, "/" + o.inheritFrom, p.namespace + "/" + p.name);
    }
  }

  // ---- parents by name ----

  /** An authored object of this kind, namespace and name. */
  predicate IsAuthored(objects: seq<Object>, kind: string, namespace: string, name: string) {
    exists i :: 0 <= i < |objects| && HasName(objects[i], kind, namespace, name)
  }

  predicate HasName(o: Object, kind: string, namespace: string, name: string) {
    o.kind == kind && o.namespace == namespace && o.name == name
  }

  /** Neither kind nor namespace holds a slash, as in every Kubernetes object. */
  predicate PlainNames(o: Object) {
    '/' !in o.kind && '/' !in o.namespace
  }

  lemma KeyNames(o: Object, kind: string, namespace: string, name: string)
    requires PlainNames(o) && '/' !in kind && '/' !in namespace
    ensures Key(o) == kind + "/" + namespace + "/" + name <==> HasName(o, kind, namespace, name)
  {
    if Key(o) == kind + "/" + namespace + "/" + name {
      assert Key(o) == o.kind + "/" + (o.namespace + "/" + o.name)
             && kind + "/" + namespace + "/" + name == kind + "/" + (namespace + "/" + name);
      FirstPart(o.kind, kind, o.namespace + "/" + o.name, namespace + "/" + name);
      assert (o.kind + "/" + (o.namespace + "/" + o.name))[|kind| + 1..] == o.namespace + "/" + o.name;
      assert (kind + "/" + (namespace + "/" + name))[|kind| + 1..] == namespace + "/" + name;
      FirstPart(o.namespace, namespace, o.name, name);
      assert (o.namespace + "/" + o.name)[|namespace| + 1..] == o.name;
      assert (namespace + "/" + name)[|namespace| + 1..] == name;
    }
  }

  /** What is found under the key of these names is the object that has them. */
  lemma FoundByName(objects: seq<Object>, kind: string, namespace: string, name: string, p: Object)
    requires (forall i :: 0 <= i < |objects| ==> PlainNames(objects[i])) && '/' !in kind && '/' !in namespace
    requires IndexOf(LookupOf(objects), objects) && OnlyFrom(LookupOf(objects), objects)
    ensures var k, lookup := kind + "/" + namespace + "/" + name, LookupOf(objects);
            && (k in lookup <==> IsAuthored(objects, kind, namespace, name))
            && (k in lookup && lookup[k] == p <==> p in objects && HasName(p, kind, namespace, name))
  {
    var k, lookup := kind + "/" + namespace + "/" + name, LookupOf(objects);
    if k in lookup {
      var i :| 0 <= i < |objects| && objects[i] == lookup[k];
      KeyNames(objects[i], kind, namespace, name);
    }
    if i :| 0 <= i < |objects| && HasName(objects[i], kind, namespace, name) {
      KeyNames(objects[i], kind, namespace, name);
    }
    if p in objects && HasName(p, kind, namespace, name) {
      var i :| 0 <= i < |objects| && objects[i] == p;
      KeyNames(objects[i], kind, namespace, name);
    }
  }

  /**
   The parent of an object is the authored one of its kind and namespace that its annotation names; a
   ServingRuntime that finds none there inherits from the ClusterServingRuntime of that name.
   */
  lemma ParentByNameIff(objects: seq<Object>, o: Object, p: Object)
    requires DistinctKeys(objects) && o in objects && forall i :: 0 <= i < |objects| ==> PlainNames(objects[i])
    ensures ParentOf(LookupOf(objects), o) == Some(p) <==>
              && o.inheritFrom != "" && p in objects && p.name == o.inheritFrom
              && (|| (p.kind == o.kind && p.namespace == o.namespace)
                  || (o.kind == "ServingRuntime" && p.kind == "ClusterServingRuntime" && p.namespace == ""
                      && !IsAuthored(objects, o.kind, o.namespace, o.inheritFrom)))
  {
    LookupIndexes(objects);
    var own, cluster := o.kind + "/" + o.namespace + "/" + o.inheritFrom, "ClusterServingRuntime//" + o.inheritFrom;
    ParentCases(LookupOf(objects), o, p, own, cluster);
    FoundByName(objects, o.kind, o.namespace, o.inheritFrom, p);
    FoundCluster(objects, o.inheritFrom, p);
  }

  lemma ParentCases(lookup: Lookup, o: Object, p: Object, own: string, cluster: string)
    requires own == o.kind + "/" + o.namespace + "/" + o.inheritFrom
    requires cluster == "ClusterServingRuntime//" + o.inheritFrom
    ensures ParentOf(lookup, o) == Some(p) <==>
              && o.inheritFrom != ""
              && (|| (own in lookup && lookup[own] == p)
                  || (own !in lookup && o.kind == "ServingRuntime" && cluster in lookup && lookup[cluster] == p))
  {
  }

  lemma FoundCluster(objects: seq<Object>, name: string, p: Object)
    requires forall i :: 0 <= i < |objects| ==> PlainNames(objects[i])
    requires IndexOf(LookupOf(objects), objects) && OnlyFrom(LookupOf(objects), objects)
    ensures var k, lookup := "ClusterServingRuntime//" + name, LookupOf(objects);
            k in lookup && lookup[k] == p <==> p in objects && HasName(p, "ClusterServingRuntime", "", name)
  {
    var kind := "ClusterServingRuntime";
    PlainCluster(kind);
    ClusterKey(kind, name);
    FoundByName(objects, kind, "", name, p);
  }

  lemma PlainCluster(kind: string)
    requires kind == "ClusterServingRuntime"
    ensures '/' !in kind
  {
  }

  lemma ClusterKey(kind: string, name: string)
    requires kind == "ClusterServingRuntime"
    ensures kind + "/" + "" + "/" + name == "ClusterServingRuntime//" + name
  {
    assert kind + "/" + "" + "/" == "ClusterServingRuntime//";
  }

  // ---- the sorted slice ----

  ghost predicate Covers(lookup: Lookup, objects: seq<Object>) {
    Indexed(lookup) && forall i :: 0 <= i < |objects| ==> Key(objects[i]) in lookup
  }

  ghost predicate DistinctKeys(objects: seq<Object>) {
    forall i, j :: 0 <= i < j < |objects| ==> Key(objects[i]) != Key(objects[j])
  }

  /** Every object is found under its own key. */
  ghost predicate IndexOf(lookup: Lookup, objects: seq<Object>) {
    Indexed(lookup) && forall i :: 0 <= i < |objects| ==>
      Key(objects[i]) in lookup && lookup[Key(objects[i])] == objects[i]
  }

  /** Nothing is found but the objects themselves. */
  ghost predicate OnlyFrom(lookup: Lookup, objects: seq<Object>) {
    forall k :: k in lookup ==> lookup[k] in objects
  }

  /** The objects under their keys; of two with one key the later counts. */
  function LookupOf(objects: seq<Object>): Lookup {
    if objects == [] then map[]
    else LookupOf(objects[..|objects| - 1])[Key(objects[|objects| - 1]) := objects[|objects| - 1]]
  }

  lemma {:induction false} LookupCovers(objects: seq<Object>)
    ensures Covers(LookupOf(objects), objects) && OnlyFrom(LookupOf(objects), objects)
  {
    if objects != [] { LookupCovers(objects[..|objects| - 1]); }
  }

  lemma {:induction false} LookupIndexes(objects: seq<Object>)
    requires DistinctKeys(objects)
    ensures IndexOf(LookupOf(objects), objects) && OnlyFrom(LookupOf(objects), objects)
  {
    LookupCovers(objects);
    if objects != [] { LookupIndexes(objects[..|objects| - 1]); }
  }

  ghost predicate Sorted(lookup: Lookup, objects: seq<Object>)
    requires Covers(lookup, objects)
  {
    forall i, j :: 0 <= i < j < |objects| ==> !Before(lookup, objects[j], objects[i])
  }

  lemma BeforeIsStrict(lookup: Lookup, a: Object, b: Object)
    requires Indexed(lookup) && Key(a) in lookup && Key(b) in lookup && Key(a) != Key(b)
    ensures Before(lookup, a, b) <==> !Before(lookup, b, a)
  {
    Lexical.Total(Key(a), Key(b));
    if Lexical.Less(Key(a), Key(b)) { Lexical.Asymmetric(Key(a), Key(b)); } else { Lexical.Asymmetric(Key(b), Key(a)); }
  }

  lemma NotBeforeChains(lookup: Lookup, a: Object, b: Object, c: Object)
    requires Indexed(lookup) && Key(a) in lookup && Key(b) in lookup && Key(c) in lookup
    requires !Before(lookup, b, a) && !Before(lookup, c, b)
    ensures !Before(lookup, c, a)
  {
    if Lexical.Less(Key(c), Key(a)) {
      Lexical.Total(Key(b), Key(a));
      Lexical.Total(Key(c), Key(b));
      if Lexical.Less(Key(a), Key(b)) { Lexical.Transitive(Key(c), Key(a), Key(b)); }
    }
  }

  /**
   In the sorted slice an inheritance parent comes before its child, unless both lie on one
   inheritance cycle; there it does so exactly if its key is smaller.
   */
  lemma ParentComesFirstIff(lookup: Lookup, objects: seq<Object>, child: nat, parent: nat)
    requires IndexOf(lookup, objects) && DistinctKeys(objects) && Sorted(lookup, objects)
    requires child < |objects| && parent < |objects| && child != parent
    requires ParentOf(lookup, objects[child]) == Some(objects[parent])
    requires PlainKind(objects[child]) && PlainKind(objects[parent])
    ensures parent < child <==>
              !Reaches(lookup, Key(objects[parent]), Key(objects[child]))
                || Lexical.Less(Key(objects[parent]), Key(objects[child]))
  {
    var c, p := objects[child], objects[parent];
    ParentRank(lookup, c, p);
    if Reaches(lookup, Key(p), Key(c)) { CycleTies(lookup, Key(c), p); } else { ChildIsDeeper(lookup, Key(c), p); }
    assert Key(c) != Key(p) by { if child < parent { assert Key(objects[child]) != Key(objects[parent]); } }
    BeforeIsStrict(lookup, p, c);
    assert parent < child ==> !Before(lookup, objects[child], objects[parent]);
    assert child < parent ==> !Before(lookup, objects[parent], objects[child]);
  }

  // ---- the code ----

  /** The keys visited on the current chain; every call restores it. */
  class Visited {
    var keys: set<string>

    constructor ()
      ensures keys == {}
    {
      keys := {};
    }
  }

  method DepthOf(lookup: Lookup, o: Object, seen: Visited) returns (d: nat)
    requires Indexed(lookup) && Key(o) in lookup
    modifies seen
    ensures seen.keys == old(seen.keys) && d == Depth(lookup, o, old(seen.keys))
    decreases lookup.Keys - seen.keys
  {
    var key := Key(o);
    if key in seen.keys {
      return REVISIT;
    }
    if o.inheritFrom == "" {
      return 0;
    }
    ghost var before := seen.keys;
    seen.keys := seen.keys + {key};
    var p := ParentOf(lookup, o);
    if p.None? {
      d := 0;
    } else {
      d := DepthOf(lookup, p.value, seen);
      d := 1 + d;
    }
    seen.keys := seen.keys - {key};
    assert seen.keys == before;
  }

  method ComesBefore(lookup: Lookup, a: Object, b: Object) returns (r: bool)
    requires Indexed(lookup) && Key(a) in lookup && Key(b) in lookup
    ensures r == Before(lookup, a, b)
  {
    if Rank(a) != Rank(b) {
      return Rank(a) < Rank(b);
    }
    var seen := new Visited();
    var x := DepthOf(lookup, a, seen);
    seen := new Visited();
    var y := DepthOf(lookup, b, seen);
    if x != y {
      return x < y;
    }
    r := Lexical.Less(Key(a), Key(b));
  }

  method BuildLookup(objects: array<Object>) returns (lookup: Lookup)
    ensures lookup == LookupOf(objects[..])
  {
    lookup := map[];
    var i := 0;
    while i < objects.Length
      invariant 0 <= i <= objects.Length && lookup == LookupOf(objects[..i])
    {
      lookup := lookup[Key(objects[i]) := objects[i]];
      assert objects[..i + 1][..i] == objects[..i];
      i := i + 1;
    }
    assert objects[..i] == objects[..];
  }

  /** `objects[..n]` is in order, not counting the element at `hole`; it belongs before all that follow it there. */
  ghost predicate SortedBut(lookup: Lookup, objects: seq<Object>, n: nat, hole: nat)
    requires Covers(lookup, objects) && n <= |objects|
  {
    && (forall i, j :: 0 <= i < j < n && i != hole && j != hole ==> !Before(lookup, objects[j], objects[i]))
    && (forall j :: hole < j < n && hole < |objects| ==> !Before(lookup, objects[j], objects[hole]))
  }

  lemma SwapDown(lookup: Lookup, s: seq<Object>, t: seq<Object>, n: nat, j: nat)
    requires Covers(lookup, s) && 0 < j < n <= |s| && SortedBut(lookup, s, n, j) && Before(lookup, s[j], s[j - 1])
    requires t == s[j := s[j - 1]][j - 1 := s[j]]
    ensures Covers(lookup, t) && SortedBut(lookup, t, n, j - 1) && multiset(t) == multiset(s)
  {
    BeforeAsymmetric(lookup, s[j], s[j - 1]);
  }

  lemma BeforeAsymmetric(lookup: Lookup, a: Object, b: Object)
    requires Indexed(lookup) && Key(a) in lookup && Key(b) in lookup && Before(lookup, a, b)
    ensures !Before(lookup, b, a)
  {
    if Lexical.Less(Key(a), Key(b)) { Lexical.Asymmetric(Key(a), Key(b)); }
  }

  /** The hole is filled once its element is not before its left neighbour. */
  lemma HoleFilled(lookup: Lookup, s: seq<Object>, n: nat, j: nat)
    requires Covers(lookup, s) && j < n <= |s| && SortedBut(lookup, s, n, j)
    requires j > 0 ==> !Before(lookup, s[j], s[j - 1])
    ensures Sorted(lookup, s[..n])
  {
    forall i, k | 0 <= i < k < n ensures !Before(lookup, s[k], s[i]) {
      if k == j && i < j - 1 { NotBeforeChains(lookup, s[i], s[j - 1], s[j]); }
    }
  }

  /** The stable in-place sort of the slice. */
  method SortInPlace(lookup: Lookup, objects: array<Object>)
    requires Covers(lookup, objects[..])
    modifies objects
    ensures Covers(lookup, objects[..]) && multiset(objects[..]) == multiset(old(objects[..]))
    ensures Sorted(lookup, objects[..])
  {
    var i := 0;
    while i < objects.Length
      invariant 0 <= i <= objects.Length && Covers(lookup, objects[..])
      invariant multiset(objects[..]) == multiset(old(objects[..]))
      invariant Sorted(lookup, objects[..i])
    {
      Insert(lookup, objects, i);
      i := i + 1;
    }
    assert objects[..i] == objects[..];
  }

  method Insert(lookup: Lookup, objects: array<Object>, i: nat)
    requires Covers(lookup, objects[..]) && i < objects.Length && Sorted(lookup, objects[..i])
    modifies objects
    ensures Covers(lookup, objects[..]) && multiset(objects[..]) == multiset(old(objects[..]))
    ensures Sorted(lookup, objects[..i + 1])
  {
    ghost var s := objects[..];
    OpenHole(lookup, s, i);
    var j := i;
    var less := LessThanLeft(lookup, objects, j);
    while less
      invariant 0 <= j <= i && objects[..] == s && Covers(lookup, s) && multiset(s) == multiset(old(objects[..]))
      invariant SortedBut(lookup, s, i + 1, j) && less == (j > 0 && Before(lookup, s[j], s[j - 1]))
      decreases j
    {
      objects[j - 1], objects[j] := objects[j], objects[j - 1];
      SwapDown(lookup, s, objects[..], i + 1, j);
      s := objects[..];
      j := j - 1;
      less := LessThanLeft(lookup, objects, j);
    }
    HoleFilled(lookup, s, i + 1, j);
  }

  lemma OpenHole(lookup: Lookup, s: seq<Object>, i: nat)
    requires Covers(lookup, s) && i < |s| && Sorted(lookup, s[..i])
    ensures SortedBut(lookup, s, i + 1, i)
  {
    forall k, l | 0 <= k < l < i ensures !Before(lookup, s[l], s[k]) { assert s[..i][l] == s[l] && s[..i][k] == s[k]; }
  }

  method LessThanLeft(lookup: Lookup, objects: array<Object>, j: nat) returns (less: bool)
    requires j < objects.Length && Covers(lookup, objects[..])
    ensures less == (j > 0 && Before(lookup, objects[..][j], objects[..][j - 1]))
  {
    if j == 0 {
      return false;
    }
    assert objects[..][j] == objects[j] && objects[..][j - 1] == objects[j - 1];
    less := ComesBefore(lookup, objects[j], objects[j - 1]);
  }

  /**
   Every parent an object names is itself among the objects, and comes before it unless both lie on one
   inheritance cycle; there the smaller key goes first.
   */
  ghost predicate ParentsFirst(lookup: Lookup, objects: seq<Object>)
    requires Covers(lookup, objects)
  {
    && (forall o :: o in objects && ParentOf(lookup, o).Some? ==> ParentOf(lookup, o).value in objects)
    && (forall child, parent ::
          0 <= child < |objects| && 0 <= parent < |objects| && child != parent
          && ParentOf(lookup, objects[child]) == Some(objects[parent]) ==>
          (parent < child <==>
             || !Reaches(lookup, Key(objects[parent]), Key(objects[child]))
             || Lexical.Less(Key(objects[parent]), Key(objects[child]))))
  }

  lemma SortedParentsFirst(lookup: Lookup, objects: seq<Object>)
    requires IndexOf(lookup, objects) && OnlyFrom(lookup, objects) && DistinctKeys(objects) && Sorted(lookup, objects)
    requires forall i :: 0 <= i < |objects| ==> PlainKind(objects[i])
    ensures ParentsFirst(lookup, objects)
  {
    forall child, parent | 0 <= child < |objects| && 0 <= parent < |objects| && child != parent
                           && ParentOf(lookup, objects[child]) == Some(objects[parent])
      ensures parent < child <==>
                || !Reaches(lookup, Key(objects[parent]), Key(objects[child]))
                || Lexical.Less(Key(objects[parent]), Key(objects[child]))
    {
      ParentComesFirstIff(lookup, objects, child, parent);
    }
  }

  predicate IsModel(o: Object) {
    o.kind == "ClusterBaseModel" || o.kind == "BaseModel"
  }

  predicate IsRuntime(o: Object) {
    o.kind == "ClusterServingRuntime" || o.kind == "ServingRuntime"
  }

  /** Models before runtimes, runtimes before everything else. */
  predicate KindsInOrder(objects: seq<Object>) {
    && (forall i, j :: 0 <= i < j < |objects| && IsModel(objects[j]) ==> IsModel(objects[i]))
    && (forall i, j :: 0 <= i < j < |objects| && IsRuntime(objects[j]) ==> IsModel(objects[i]) || IsRuntime(objects[i]))
  }

  lemma SortedKinds(lookup: Lookup, objects: seq<Object>)
    requires Covers(lookup, objects) && Sorted(lookup, objects)
    ensures KindsInOrder(objects)
  {
  }

  method Order(objects: array<Object>)
    modifies objects
    ensures KindsInOrder(objects[..])
    ensures multiset(objects[..]) == multiset(old(objects[..]))
    ensures Covers(LookupOf(old(objects[..])), objects[..]) && Sorted(LookupOf(old(objects[..])), objects[..])
    ensures DistinctKeys(old(objects[..])) && (forall o :: o in old(objects[..]) ==> PlainKind(o)) ==>
              ParentsFirst(LookupOf(old(objects[..])), objects[..])
  {
    var lookup := BuildLookup(objects);
    ghost var was := objects[..];
    LookupCovers(was);
    SortInPlace(lookup, objects);
    SortedKinds(lookup, objects[..]);
    if DistinctKeys(was) && (forall o :: o in was ==> PlainKind(o)) {
      LookupIndexes(was);
      SameKeys(lookup, was, objects[..]);
      SortedParentsFirst(lookup, objects[..]);
    }
  }

  lemma SameKeys(lookup: Lookup, was: seq<Object>, objects: seq<Object>)
    requires IndexOf(lookup, was) && OnlyFrom(lookup, was) && DistinctKeys(was) && multiset(objects) == multiset(was)
    ensures IndexOf(lookup, objects) && OnlyFrom(lookup, objects) && DistinctKeys(objects)
    ensures forall o :: o in objects <==> o in was
  {
    forall o ensures o in objects <==> o in was { assert o in multiset(objects) <==> o in multiset(was); }
    forall i | 0 <= i < |objects| ensures objects[i] in was { assert objects[i] in objects; }
    forall i, j | 0 <= i < j < |objects| ensures Key(objects[i]) != Key(objects[j]) {
      if Key(objects[i]) == Key(objects[j]) {
        OnceOnly(was, objects[i]);
        Twice(objects, i, j);
      }
    }
  }

  lemma {:induction false} OnceOnly(s: seq<Object>, o: Object)
    requires DistinctKeys(s)
    ensures multiset(s)[o] <= 1
  {
    if s != [] {
      var front := s[..|s| - 1];
      assert s == front + [s[|s| - 1]];
      OnceOnly(front, o);
    }
  }

  lemma Twice(s: seq<Object>, i: nat, j: nat)
    requires i < j < |s| && s[i] == s[j]
    ensures multiset(s)[s[i]] >= 2
  {
    assert s == s[..j] + s[j..] && s[i] in s[..j] && s[j] in s[j..];
  }
}
