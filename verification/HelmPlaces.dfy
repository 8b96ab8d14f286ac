/**
 What the factoring pass counts (countNodes in cmd/crd-gen/helmchart.go): the places of a tree. A place is
 the path from the root, each step the position of a field or of a list element.
 */
module HelmPlaces {
  import opened HfTypes
  import opened HelmChart

  function NodeAt(n: Node, path: seq<nat>): Option<Node> {
    if path == [] then Some(n)
    else
      match n
      case Object(fields) => if path[0] < |fields| then NodeAt(fields[path[0]].value, path[1..]) else None
      case List(items) => if path[0] < |items| then NodeAt(items[path[0]], path[1..]) else None
      case _ => None
  }

  /** The place is the top of the tree, which counts as `top`, or the value of a key other than "properties". */
  predicate UnderKey(n: Node, path: seq<nat>, top: bool) {
    if path == [] then top
    else
      match n
      case Object(fields) =>
        path[0] < |fields| && UnderKey(fields[path[0]].value, path[1..], fields[path[0]].key != "properties")
      case List(items) => path[0] < |items| && UnderKey(items[path[0]], path[1..], false)
      case _ => false
  }

  /** A large object stands at this place, under a key. */
  predicate StandsAt(n: Node, top: bool, big: Node -> bool, m: Node, path: seq<nat>) {
    m.Object? && big(m) && NodeAt(n, path) == Some(m) && UnderKey(n, path, top)
  }

  function Sum(counts: seq<nat>): nat {
    if counts == [] then 0 else Sum(counts[..|counts| - 1]) + counts[|counts| - 1]
  }

  // ---- counts of the parts ----

  lemma SumOneMore(counts: seq<nat>, k: nat)
    requires k < |counts|
    ensures Sum(counts[..k + 1]) == Sum(counts[..k]) + counts[k]
  {
    assert counts[..k + 1][..k] == counts[..k];
  }

  function FieldCounts(fields: seq<Field>, big: Node -> bool, m: Node): seq<nat> {
    seq(|fields|, i requires 0 <= i < |fields| =>
        Occurrences(fields[i].value, ChildEligible(fields[i].key), big)[m])
  }

  function ItemCounts(items: seq<Node>, top: bool, big: Node -> bool, m: Node): seq<nat> {
    seq(|items|, i requires 0 <= i < |items| => Occurrences(items[i], top, big)[m])
  }

  lemma {:induction false} FieldsSum(fields: seq<Field>, big: Node -> bool, m: Node)
    ensures FieldOccurrences(fields, big)[m] == Sum(FieldCounts(fields, big, m))
  {
    if fields != [] {
      FieldsSum(fields[..|fields| - 1], big, m);
      assert FieldCounts(fields, big, m)[..|fields| - 1] == FieldCounts(fields[..|fields| - 1], big, m);
    }
  }

  lemma {:induction false} ItemsSum(items: seq<Node>, big: Node -> bool, m: Node)
    ensures ItemOccurrences(items, big)[m] == Sum(ItemCounts(items, false, big, m))
  {
    if items != [] {
      ItemsSum(items[..|items| - 1], big, m);
      assert ItemCounts(items, false, big, m)[..|items| - 1] == ItemCounts(items[..|items| - 1], false, big, m);
    }
  }

  lemma {:induction false} SchemasSum(schemas: seq<Node>, big: Node -> bool, m: Node)
    ensures SchemaOccurrences(schemas, big)[m] == Sum(ItemCounts(schemas, true, big, m))
  {
    if schemas != [] {
      SchemasSum(schemas[..|schemas| - 1], big, m);
      assert ItemCounts(schemas, true, big, m)[..|schemas| - 1] == ItemCounts(schemas[..|schemas| - 1], true, big, m);
    }
  }

  // ---- one tree ----

  /** How many parts the node has, and what each of them is. */
  function Parts(n: Node): seq<Node> {
    match n
    case Object(fields) => seq(|fields|, i requires 0 <= i < |fields| => fields[i].value)
    case List(items) => items
    case _ => []
  }

  predicate PartTop(n: Node, i: nat) {
    n.Object? && i < |n.fields| && n.fields[i].key != "properties"
  }

  function PartCounts(n: Node, big: Node -> bool, m: Node): seq<nat> {
    match n
    case Object(fields) => FieldCounts(fields, big, m)
    case List(items) => ItemCounts(items, false, big, m)
    case _ => []
  }

  predicate IsCounted(n: Node, top: bool, big: Node -> bool, m: Node) {
    n == m && n.Object? && top && big(n)
  }

  lemma CountsOfParts(n: Node, top: bool, big: Node -> bool, m: Node)
    ensures Occurrences(n, top, big)[m] == (if IsCounted(n, top, big, m) then 1 else 0) + Sum(PartCounts(n, big, m))
    ensures |PartCounts(n, big, m)| == |Parts(n)|
    ensures forall i :: 0 <= i < |Parts(n)| ==>
              PartCounts(n, big, m)[i] == Occurrences(Parts(n)[i], PartTop(n, i), big)[m]
  {
    match n
    case Object(fields) => FieldsSum(fields, big, m);
    case List(items) => ItemsSum(items, big, m);
    case _ =>
  }

  lemma PartCount(n: Node, big: Node -> bool, m: Node, i: nat)
    requires i < |Parts(n)| && |PartCounts(n, big, m)| == |Parts(n)|
    ensures PartCounts(n, big, m)[i] == Occurrences(Parts(n)[i], PartTop(n, i), big)[m]
  {
  }

  lemma StandsInPart(n: Node, top: bool, big: Node -> bool, m: Node, path: seq<nat>)
    ensures StandsAt(n, top, big, m, path) <==>
              if path == [] then IsCounted(n, top, big, m)
              else path[0] < |Parts(n)| && StandsAt(Parts(n)[path[0]], PartTop(n, path[0]), big, m, path[1..])
  {
  }

  predicate Distinct<T(==)>(s: seq<T>) {
    forall i, j :: 0 <= i < j < |s| ==> s[i] != s[j]
  }

  lemma DistinctUnion<T>(s: seq<T>, t: seq<T>)
    requires Distinct(s) && Distinct(t) && forall x :: x in s ==> x !in t
    ensures Distinct(s + t) && forall x :: x in s + t <==> x in s || x in t
  {
    forall i, j | 0 <= i < j < |s + t| ensures (s + t)[i] != (s + t)[j] {
      if i < |s| <= j { assert (s + t)[i] in s && (s + t)[j] in t; }
    }
  }

  /** The given places in the `k`-th part, seen from the whole. */
  function Below(k: nat, places: seq<seq<nat>>): seq<seq<nat>> {
    seq(|places|, i requires 0 <= i < |places| => [k] + places[i])
  }

  lemma BelowIs(k: nat, places: seq<seq<nat>>, p: seq<nat>)
    ensures p in Below(k, places) <==> p != [] && p[0] == k && p[1..] in places
  {
    if p in Below(k, places) {
      var i :| 0 <= i < |places| && Below(k, places)[i] == p;
      assert p[1..] == places[i];
    }
    if p != [] && p[0] == k && p[1..] in places {
      var i :| 0 <= i < |places| && places[i] == p[1..];
      assert p == Below(k, places)[i];
    }
  }

  lemma BelowDistinct(k: nat, places: seq<seq<nat>>)
    requires Distinct(places)
    ensures Distinct(Below(k, places))
  {
    forall i, j | 0 <= i < j < |places| ensures Below(k, places)[i] != Below(k, places)[j] {
      assert Below(k, places)[i][1..] == places[i] && Below(k, places)[j][1..] == places[j];
    }
  }

  /** All places at which the object stands, each once. */
  ghost predicate AllPlaces(places: seq<seq<nat>>, n: Node, top: bool, big: Node -> bool, m: Node) {
    Distinct(places) && forall p :: p in places <==> StandsAt(n, top, big, m, p)
  }

  /** Those within the first `k` parts. */
  ghost predicate PlacesBelow(places: seq<seq<nat>>, n: Node, big: Node -> bool, m: Node, k: nat) {
    Distinct(places)
      && forall p :: p in places <==>
           p != [] && p[0] < k && p[0] < |Parts(n)| && StandsAt(Parts(n)[p[0]], PartTop(n, p[0]), big, m, p[1..])
  }

  lemma OnePartMore(n: Node, big: Node -> bool, m: Node, k: nat, front: seq<seq<nat>>, here: seq<seq<nat>>)
    requires k < |Parts(n)| && PlacesBelow(front, n, big, m, k)
    requires AllPlaces(here, Parts(n)[k], PartTop(n, k), big, m)
    ensures PlacesBelow(front + Below(k, here), n, big, m, k + 1)
  {
    BelowDistinct(k, here);
    forall p ensures p in Below(k, here) <==> p != [] && p[0] == k && p[1..] in here { BelowIs(k, here, p); }
    DistinctUnion(front, Below(k, here));
  }

  lemma {:induction false} PlacesInParts(n: Node, big: Node -> bool, m: Node, k: nat) returns (places: seq<seq<nat>>)
    requires k <= |Parts(n)| && |PartCounts(n, big, m)| == |Parts(n)|
    ensures PlacesBelow(places, n, big, m, k) && |places| == Sum(PartCounts(n, big, m)[..k])
    decreases n, 0, k
  {
    if k == 0 {
      places := [];
    } else {
      var front := PlacesInParts(n, big, m, k - 1);
      PartCount(n, big, m, k - 1);
      var here := PlacesOf(Parts(n)[k - 1], PartTop(n, k - 1), big, m);
      places := front + Below(k - 1, here);
      assert PlacesBelow(places, n, big, m, k) by { OnePartMore(n, big, m, k - 1, front, here); }
      SumOneMore(PartCounts(n, big, m), k - 1);
    }
  }

  /** The count of an object in a tree is the number of places at which it stands. */
  lemma {:induction false} PlacesOf(n: Node, top: bool, big: Node -> bool, m: Node) returns (places: seq<seq<nat>>)
    ensures AllPlaces(places, n, top, big, m) && |places| == Occurrences(n, top, big)[m]
    decreases n, 1
  {
    CountsOfParts(n, top, big, m);
    var below := PlacesInParts(n, big, m, |Parts(n)|);
    assert PartCounts(n, big, m)[..|Parts(n)|] == PartCounts(n, big, m);
    places := (if IsCounted(n, top, big, m) then [[]] else []) + below;
    DistinctUnion(if IsCounted(n, top, big, m) then [[]] else [], below);
    forall p ensures p in places <==> StandsAt(n, top, big, m, p) { StandsInPart(n, top, big, m, p); }
  }

  // ---- all schemas ----

  datatype Place = Place(schema: nat, path: seq<nat>)

  /** A large object stands there: the root of a schema, or the value of a key other than "properties". */
  predicate IsPlace(schemas: seq<Node>, big: Node -> bool, m: Node, place: Place) {
    place.schema < |schemas| && StandsAt(schemas[place.schema], true, big, m, place.path)
  }

  ghost predicate AllIn(places: seq<Place>, schemas: seq<Node>, big: Node -> bool, m: Node) {
    Distinct(places) && forall p :: p in places <==> IsPlace(schemas, big, m, p)
  }

  function InSchema(k: nat, paths: seq<seq<nat>>): seq<Place> {
    seq(|paths|, i requires 0 <= i < |paths| => Place(k, paths[i]))
  }

  lemma OneSchemaMore(schemas: seq<Node>, big: Node -> bool, m: Node, front: seq<Place>, here: seq<seq<nat>>)
    requires schemas != [] && AllIn(front, schemas[..|schemas| - 1], big, m)
    requires AllPlaces(here, schemas[|schemas| - 1], true, big, m)
    ensures AllIn(front + InSchema(|schemas| - 1, here), schemas, big, m)
  {
    var k := |schemas| - 1;
    var last := InSchema(k, here);
    forall p ensures p in last <==> p.schema == k && p.path in here {
      if p.schema == k && p.path in here {
        var i :| 0 <= i < |here| && here[i] == p.path;
        assert last[i] == p;
      }
    }
    DistinctUnion(front, last);
  }

  /** The count over all schemas is the number of places in all of them. */
  lemma {:induction false} PlacesIn(schemas: seq<Node>, big: Node -> bool, m: Node) returns (places: seq<Place>)
    ensures AllIn(places, schemas, big, m) && |places| == SchemaOccurrences(schemas, big)[m]
  {
    if schemas == [] {
      places := [];
    } else {
      var front := PlacesIn(schemas[..|schemas| - 1], big, m);
      var here := PlacesOf(schemas[|schemas| - 1], true, big, m);
      OneSchemaMore(schemas, big, m, front, here);
      places := front + InSchema(|schemas| - 1, here);
    }
  }

  predicate TwoPlaces(schemas: seq<Node>, big: Node -> bool, m: Node, p: Place, q: Place) {
    p != q && IsPlace(schemas, big, m, p) && IsPlace(schemas, big, m, q)
  }

  /**
   A subtree becomes a partial if and only if it is a large object that stands at two different places,
   each the root of a schema or the value of a key other than "properties".
   */
  lemma PartialIff(schemas: seq<Node>, big: Node -> bool, m: Node)
    ensures m in Partials(schemas, big) <==> exists p, q :: TwoPlaces(schemas, big, m, p, q)
  {
    var places := PlacesIn(schemas, big, m);
    if |places| >= 2 {
      assert places[0] in places && places[1] in places;
      assert TwoPlaces(schemas, big, m, places[0], places[1]);
    }
    if p, q :| TwoPlaces(schemas, big, m, p, q) { assert p in places && q in places; }
  }
}
