/**
 Factoring repeated CRD schema subtrees into nested Helm partials (cmd/crd-gen/helmchart.go), on
 trees. An object is its list of fields in the order in which YAML writes its keys, so a subtree is its
 own canonical form and its first field is the one on the line of a list dash. `big` says whether a
 subtree reaches the size threshold, `name` gives a partial its template name.
 */
module HelmChart {
  import opened HfTypes

  datatype Field = Field(key: string, value: Node)

  datatype Node =
    | Text(text: string)
    | Atom(literal: string)
    | List(items: seq<Node>)
    | Object(fields: seq<Field>)

  const MARKER := "__CRDGEN_INCLUDE__"

  predicate IsMarked(text: string) {
    MARKER <= text
  }

  function Include(name: string): Node {
    Text(MARKER + name)
  }

  function IncludedName(text: string): string
    requires IsMarked(text)
  {
    text[|MARKER|..]
  }

  /** A schema's "properties" map repeats exactly when the object around it does. */
  predicate ChildEligible(key: string) {
    key != "properties"
  }

  // ---- the pass ----

  /** Every object node that is large enough and the value of a mapping key. */
  function Occurrences(n: Node, eligible: bool, big: Node -> bool): multiset<Node>
  {
    match n
    case Object(fields) => (if eligible && big(n) then multiset{n} else multiset{}) + FieldOccurrences(fields, big)
    case List(items) => ItemOccurrences(items, big)
    case _ => multiset{}
  }

  function FieldOccurrences(fields: seq<Field>, big: Node -> bool): multiset<Node> {
    if fields == [] then multiset{}
    else
      var last := fields[|fields| - 1];
      FieldOccurrences(fields[..|fields| - 1], big) + Occurrences(last.value, ChildEligible(last.key), big)
  }

  function ItemOccurrences(items: seq<Node>, big: Node -> bool): multiset<Node> {
    if items == [] then multiset{}
    else ItemOccurrences(items[..|items| - 1], big) + Occurrences(items[|items| - 1], false, big)
  }

  function SchemaOccurrences(schemas: seq<Node>, big: Node -> bool): multiset<Node> {
    if schemas == [] then multiset{}
    else SchemaOccurrences(schemas[..|schemas| - 1], big) + Occurrences(schemas[|schemas| - 1], true, big)
  }

  /** The subtrees that become partials: those counted at least twice. */
  function Partials(schemas: seq<Node>, big: Node -> bool): set<Node> {
    var counts := SchemaOccurrences(schemas, big);
    set n | n in counts && counts[n] >= 2
  }

  function Rewrite(n: Node, eligible: bool, partials: set<Node>, name: Node -> string): Node
  {
    match n
    case Object(fields) => if eligible && n in partials then Include(name(n))
      else Object(RewriteFields(fields, partials, name))
    case List(items) => List(seq(|items|, i requires 0 <= i < |items| => Rewrite(items[i], false, partials, name)))
    case _ => n
  }

  function RewriteFields(fields: seq<Field>, partials: set<Node>, name: Node -> string): seq<Field> {
    seq(|fields|, i requires 0 <= i < |fields| =>
        Field(fields[i].key, Rewrite(fields[i].value, ChildEligible(fields[i].key), partials, name)))
  }

  /** The body of a partial: the subtree's fields, themselves factored. */
  function Body(n: Node, partials: set<Node>, name: Node -> string): Node
    requires n.Object?
  {
    Object(RewriteFields(n.fields, partials, name))
  }

  // ---- what expanding means ----

  predicate IsInclude(n: Node) {
    n.Text? && IsMarked(n.text)
  }

  /** The first field is written on the same line as the dash of its list element, if there is one. */
  predicate StartsWithInclude(fields: seq<Field>) {
    fields != [] && IsInclude(fields[0].value)
  }

  /** How many dashes stand on the first line of an item of a list that itself starts after `dashes` of them. */
  function ItemDashes(dashes: nat, i: nat): nat {
    if i == 0 then dashes + 1 else 1
  }

  /**
   An include after a list dash: it is indented two columns deeper than the dash, which is the column of
   its key, so that its fields land beside the key and the key is left without a value.
   */
  function Beside(key: string, body: Option<Node>, rest: Option<seq<Field>>): Option<Node> {
    if body.Some? && body.value.Object? && body.value.fields != [] && rest.Some?
    then Some(Object([Field(key, Atom("null"))] + body.value.fields + rest.value))
    else None
  }

  /**
   Helm's expansion and how YAML reads it, giving up after `fuel` nested includes, at an undefined name,
   and where the text is no YAML: `dashes` stand on the line on which the node begins.
   */
  function Expand(n: Node, defs: map<string, Node>, dashes: nat, fuel: nat): Option<Node>
    decreases fuel, 1, n
  {
    match n
    case Text(text) =>
      if !IsMarked(text) then Some(n)
      else if dashes > 0 then None
      else ExpandDefinition(IncludedName(text), defs, fuel)
    case Atom(_) => Some(n)
    case List(items) =>
      if forall i :: 0 <= i < |items| ==> Expand(items[i], defs, ItemDashes(dashes, i), fuel).Some?
      then Some(List(seq(|items|, i requires 0 <= i < |items| =>
                         Expand(items[i], defs, ItemDashes(dashes, i), fuel).value)))
      else None
    case Object(fields) =>
      if dashes > 0 && StartsWithInclude(fields) then
        if dashes > 1 then None
        else Beside(fields[0].key, ExpandDefinition(IncludedName(fields[0].value.text), defs, fuel),
                    ExpandFields(fields[1..], defs, fuel))
      else
        var expanded := ExpandFields(fields, defs, fuel);
        if expanded.Some? then Some(Object(expanded.value)) else None
  }

  function ExpandFields(fields: seq<Field>, defs: map<string, Node>, fuel: nat): Option<seq<Field>>
    decreases fuel, 1, fields
  {
    if forall i :: 0 <= i < |fields| ==> Expand(fields[i].value, defs, 0, fuel).Some?
    then Some(seq(|fields|, i requires 0 <= i < |fields| =>
                  Field(fields[i].key, Expand(fields[i].value, defs, 0, fuel).value)))
    else None
  }

  function ExpandDefinition(x: string, defs: map<string, Node>, fuel: nat): Option<Node>
    decreases fuel, 0
  {
    if fuel == 0 || x !in defs then None else Expand(defs[x], defs, 0, fuel - 1)
  }

  /** No text of the tree can be taken for an include. */
  predicate Unmarked(n: Node) {
    match n
    case Text(text) => !IsMarked(text)
    case Atom(_) => true
    case List(items) => forall i :: 0 <= i < |items| ==> Unmarked(items[i])
    case Object(fields) => forall i :: 0 <= i < |fields| ==> Unmarked(fields[i].value)
  }

  /**
   Every include of this tree will land below its key: in no list element is the value of the first key
   one that becomes a partial.
   */
  predicate Lands(n: Node, dashes: nat, partials: set<Node>) {
    match n
    case List(items) => forall i :: 0 <= i < |items| ==> Lands(items[i], ItemDashes(dashes, i), partials)
    case Object(fields) =>
      && !(dashes > 0 && fields != [] && ChildEligible(fields[0].key) && fields[0].value in partials)
      && forall i :: 0 <= i < |fields| ==> Lands(fields[i].value, 0, partials)
    case _ => true
  }

  /** The tree is at most `h` levels high. */
  predicate Fits(n: Node, h: nat) {
    h > 0 &&
    match n
    case List(items) => forall i :: 0 <= i < |items| ==> Fits(items[i], h - 1)
    case Object(fields) => forall i :: 0 <= i < |fields| ==> Fits(fields[i].value, h - 1)
    case _ => true
  }

  predicate OnlyObjects(partials: set<Node>) {
    forall n :: n in partials ==> n.Object?
  }

  predicate DistinctNames(partials: set<Node>, name: Node -> string) {
    forall a, b :: a in partials && b in partials && name(a) == name(b) ==> a == b
  }

  /** One define block per partial. */
  predicate Defines(defs: map<string, Node>, partials: set<Node>, name: Node -> string)
    requires OnlyObjects(partials)
  {
    && (forall n :: n in partials ==> name(n) in defs && defs[name(n)] == Body(n, partials, name))
    && (forall x :: x in defs ==> exists n :: n in partials && name(n) == x && defs[x] == Body(n, partials, name))
  }

  lemma IncludeReadsBack(x: string)
    ensures IsMarked(Include(x).text) && IncludedName(Include(x).text) == x
  {
  }

  // ---- expanding the factored output gives back the input ----

  /** The includes of the output are the partials of the input and its own marked texts. */
  lemma IncludedIff(v: Node, eligible: bool, partials: set<Node>, name: Node -> string)
    requires OnlyObjects(partials)
    ensures IsInclude(Rewrite(v, eligible, partials, name)) <==> IsInclude(v) || (eligible && v in partials)
  {
    IncludeReadsBack(name(v));
  }

  lemma {:induction false} FieldsExpandBack(n: Node, dashes: nat, partials: set<Node>, name: Node -> string,
                                            defs: map<string, Node>, fuel: nat, h: nat)
    requires n.Object? && Unmarked(n) && Lands(n, dashes, partials) && Fits(n, h) && fuel >= h - 1
    requires OnlyObjects(partials) && Defines(defs, partials, name)
    ensures Expand(Body(n, partials, name), defs, dashes, fuel) == Some(n)
    decreases n, 0
  {
    var out := RewriteFields(n.fields, partials, name);
    forall i | 0 <= i < |n.fields| ensures Expand(out[i].value, defs, 0, fuel) == Some(n.fields[i].value) {
      ExpandsBack(n.fields[i].value, ChildEligible(n.fields[i].key), 0, partials, name, defs, fuel, h - 1);
    }
    if n.fields != [] { IncludedIff(n.fields[0].value, ChildEligible(n.fields[0].key), partials, name); }
    assert ExpandFields(out, defs, fuel).value == n.fields;
  }

  lemma {:induction false} ExpandsBack(n: Node, eligible: bool, dashes: nat, partials: set<Node>, name: Node -> string,
                                       defs: map<string, Node>, fuel: nat, h: nat)
    requires Unmarked(n) && Lands(n, dashes, partials) && Fits(n, h) && fuel >= h && (eligible ==> dashes == 0)
    requires OnlyObjects(partials) && Defines(defs, partials, name)
    ensures Expand(Rewrite(n, eligible, partials, name), defs, dashes, fuel) == Some(n)
    decreases n, 1
  {
    match n
    case Object(fields) =>
      if eligible && n in partials {
        IncludeReadsBack(name(n));
        FieldsExpandBack(n, dashes, partials, name, defs, fuel - 1, h);
      } else {
        FieldsExpandBack(n, dashes, partials, name, defs, fuel, h);
      }
    case List(items) =>
      var out := Rewrite(n, eligible, partials, name);
      forall i | 0 <= i < |items| ensures Expand(out.items[i], defs, ItemDashes(dashes, i), fuel) == Some(items[i]) {
        ExpandsBack(items[i], false, ItemDashes(dashes, i), partials, name, defs, fuel, h - 1);
      }
      assert Expand(out, defs, dashes, fuel).value.items == items;
    case _ =>
  }

  /** A definition is always an object, so it never expands to a text. */
  lemma MarkedTextIsLost(n: Node, defs: map<string, Node>, dashes: nat, fuel: nat)
    requires IsInclude(n) && forall x :: x in defs ==> defs[x].Object?
    ensures Expand(n, defs, dashes, fuel) != Some(n)
  {
    if fuel > 0 && IncludedName(n.text) in defs {
      var d := defs[IncludedName(n.text)];
      assert Expand(d, defs, 0, fuel - 1).None? || Expand(d, defs, 0, fuel - 1).value.Object?;
    }
  }

  /** No text is taken for an include and every include lands below its key. */
  predicate ComesBack(n: Node, dashes: nat, partials: set<Node>) {
    Unmarked(n) && Lands(n, dashes, partials)
  }

  /** Otherwise the output does not expand to the input. */
  lemma {:induction false} IsNotExpandedBack(n: Node, eligible: bool, dashes: nat, partials: set<Node>,
                                             name: Node -> string, defs: map<string, Node>, fuel: nat)
    requires !ComesBack(n, dashes, partials) && (eligible ==> dashes == 0)
    requires OnlyObjects(partials) && Defines(defs, partials, name)
    ensures Expand(Rewrite(n, eligible, partials, name), defs, dashes, fuel) != Some(n)
    decreases n, 1
  {
    forall x | x in defs ensures defs[x].Object? { }
    match n
    case Text(_) => MarkedTextIsLost(n, defs, dashes, fuel);
    case List(items) =>
      var i :| 0 <= i < |items| && !ComesBack(items[i], ItemDashes(dashes, i), partials);
      IsNotExpandedBack(items[i], false, ItemDashes(dashes, i), partials, name, defs, fuel);
      var out := Rewrite(n, eligible, partials, name);
      if Expand(out, defs, dashes, fuel).Some? { assert Expand(out, defs, dashes, fuel).value.items[i] != items[i]; }
    case Object(fields) =>
      if eligible && n in partials {
        IncludeReadsBack(name(n));
        if fuel > 0 { FieldsAreNotExpandedBack(n, dashes, partials, name, defs, fuel - 1); }
      } else {
        FieldsAreNotExpandedBack(n, dashes, partials, name, defs, fuel);
      }
  }

  lemma {:induction false} FieldsAreNotExpandedBack(n: Node, dashes: nat, partials: set<Node>, name: Node -> string,
                                                    defs: map<string, Node>, fuel: nat)
    requires n.Object? && !ComesBack(n, dashes, partials) && OnlyObjects(partials) && Defines(defs, partials, name)
    ensures Expand(Body(n, partials, name), defs, dashes, fuel) != Some(n)
    decreases n, 0
  {
    var out := Body(n, partials, name);
    if dashes > 0 && StartsWithInclude(out.fields) {
      LandsBeside(n, dashes, partials, name, defs, fuel);
    } else {
      if n.fields != [] { IncludedIff(n.fields[0].value, ChildEligible(n.fields[0].key), partials, name); }
      var i :| 0 <= i < |n.fields| && !ComesBack(n.fields[i].value, 0, partials);
      IsNotExpandedBack(n.fields[i].value, ChildEligible(n.fields[i].key), 0, partials, name, defs, fuel);
      var expanded := ExpandFields(out.fields, defs, fuel);
      if expanded.Some? { assert |expanded.value| == |n.fields| && expanded.value[i].value != n.fields[i].value; }
    }
  }

  /** An include after a dash is read as a key without value beside the partial's fields, or not at all. */
  lemma LandsBeside(n: Node, dashes: nat, partials: set<Node>, name: Node -> string, defs: map<string, Node>, fuel: nat)
    requires n.Object? && dashes > 0 && StartsWithInclude(Body(n, partials, name).fields)
    ensures var r := Expand(Body(n, partials, name), defs, dashes, fuel);
            r.Some? ==> r.value.Object? && r.value.fields[0] == Field(n.fields[0].key, Atom("null")) && r.value != n
  {
  }

  lemma {:induction false} FitsHigher(n: Node, h: nat, h': nat)
    requires Fits(n, h) && h <= h'
    ensures Fits(n, h')
    decreases h
  {
    match n
    case List(items) => forall i | 0 <= i < |items|
      ensures Fits(items[i], h' - 1) { FitsHigher(items[i], h - 1, h' - 1); }
    case Object(fields) => forall i | 0 <= i < |fields|
      ensures Fits(fields[i].value, h' - 1) { FitsHigher(fields[i].value, h - 1, h' - 1); }
    case _ =>
  }

  lemma {:induction false} AllFit(nodes: seq<Node>) returns (h: nat)
    ensures forall i :: 0 <= i < |nodes| ==> Fits(nodes[i], h)
    decreases nodes
  {
    if nodes == [] {
      h := 0;
    } else {
      var front := nodes[..|nodes| - 1];
      var a := AllFit(front);
      var b := HasHeight(nodes[|nodes| - 1]);
      h := if a < b then b else a;
      forall i | 0 <= i < |nodes| ensures Fits(nodes[i], h) {
        if i < |front| { assert Fits(front[i], a); FitsHigher(nodes[i], a, h); } else { FitsHigher(nodes[i], b, h); }
      }
    }
  }

  lemma {:induction false} HasHeight(n: Node) returns (h: nat)
    ensures Fits(n, h)
    decreases n
  {
    match n
    case List(items) =>
      h := AllFit(items);
      h := h + 1;
    case Object(fields) =>
      h := AllFieldsFit(fields);
      h := h + 1;
    case _ => h := 1;
  }

  lemma {:induction false} AllFieldsFit(fields: seq<Field>) returns (h: nat)
    ensures forall i :: 0 <= i < |fields| ==> Fits(fields[i].value, h)
    decreases fields
  {
    if fields == [] {
      h := 0;
    } else {
      var front := fields[..|fields| - 1];
      var a := AllFieldsFit(front);
      var b := HasHeight(fields[|fields| - 1].value);
      h := if a < b then b else a;
      forall i | 0 <= i < |fields| ensures Fits(fields[i].value, h) {
        if i < |front| {
          assert Fits(front[i].value, a);
          FitsHigher(fields[i].value, a, h);
        } else {
          FitsHigher(fields[i].value, b, h);
        }
      }
    }
  }

  /** From `h` nested includes on, expansion gives exactly this tree. */
  ghost predicate ExpandsFrom(n: Node, defs: map<string, Node>, result: Node, h: nat) {
    forall fuel: nat :: fuel >= h ==> Expand(n, defs, 0, fuel) == Some(result)
  }

  ghost predicate EventuallyExpands(n: Node, defs: map<string, Node>, result: Node) {
    exists h: nat :: ExpandsFrom(n, defs, result, h)
  }

  lemma ExpandsBackEventually(n: Node, partials: set<Node>, name: Node -> string, defs: map<string, Node>)
    requires ComesBack(n, 0, partials) && OnlyObjects(partials) && Defines(defs, partials, name)
    ensures EventuallyExpands(Rewrite(n, true, partials, name), defs, n)
  {
    var h := HasHeight(n);
    var out := Rewrite(n, true, partials, name);
    forall fuel: nat | fuel >= h ensures Expand(out, defs, 0, fuel) == Some(n) {
      ExpandsBack(n, true, 0, partials, name, defs, fuel, h);
    }
    assert ExpandsFrom(out, defs, n, h);
  }

  lemma {:induction false} OccurrencesAreObjects(n: Node, eligible: bool, big: Node -> bool, m: Node)
    requires m in Occurrences(n, eligible, big)
    ensures m.Object?
    decreases n
  {
    match n
    case List(items) => ItemObjects(items, big, m);
    case Object(fields) => if m != n { FieldObjects(fields, big, m); }
    case _ =>
  }

  lemma {:induction false} ItemObjects(items: seq<Node>, big: Node -> bool, m: Node)
    requires m in ItemOccurrences(items, big)
    ensures m.Object?
    decreases items
  {
    var front, last := items[..|items| - 1], items[|items| - 1];
    if m in ItemOccurrences(front, big) {
      ItemObjects(front, big, m);
    } else {
      OccurrencesAreObjects(last, false, big, m);
    }
  }

  lemma {:induction false} FieldObjects(fields: seq<Field>, big: Node -> bool, m: Node)
    requires m in FieldOccurrences(fields, big)
    ensures m.Object?
    decreases fields
  {
    var front, last := fields[..|fields| - 1], fields[|fields| - 1];
    if m in FieldOccurrences(front, big) {
      FieldObjects(front, big, m);
    } else {
      OccurrencesAreObjects(last.value, ChildEligible(last.key), big, m);
    }
  }

  lemma {:induction false} OccursInASchema(schemas: seq<Node>, big: Node -> bool, m: Node) returns (i: nat)
    requires m in SchemaOccurrences(schemas, big)
    ensures i < |schemas| && m in Occurrences(schemas[i], true, big)
  {
    var front := schemas[..|schemas| - 1];
    if m in SchemaOccurrences(front, big) {
      i := OccursInASchema(front, big, m);
    } else {
      i := |schemas| - 1;
    }
  }

  lemma PartialsAreObjects(schemas: seq<Node>, big: Node -> bool)
    ensures OnlyObjects(Partials(schemas, big))
  {
    forall m | m in Partials(schemas, big) ensures m.Object? {
      var i := OccursInASchema(schemas, big, m);
      OccurrencesAreObjects(schemas[i], true, big, m);
    }
  }

  /**
   On trees, where an include is a text that starts with the marker: for every set of schemas, every
   size threshold and names that do not collide, expanding the includes of a factored schema, nested
   ones too, ends in the input schema if and only if no input text is itself such an include and in no
   list element the value of the first key becomes a partial.
   */
  lemma ExpandingYieldsTheInputIff(schemas: seq<Node>, big: Node -> bool, name: Node -> string,
                                   defs: map<string, Node>, i: nat)
    requires i < |schemas| && OnlyObjects(Partials(schemas, big)) && Defines(defs, Partials(schemas, big), name)
    ensures EventuallyExpands(Rewrite(schemas[i], true, Partials(schemas, big), name), defs, schemas[i]) <==>
              Unmarked(schemas[i]) && Lands(schemas[i], 0, Partials(schemas, big))
  {
    var partials := Partials(schemas, big);
    var out := Rewrite(schemas[i], true, partials, name);
    if ComesBack(schemas[i], 0, partials) {
      ExpandsBackEventually(schemas[i], partials, name, defs);
    } else if h: nat :| ExpandsFrom(out, defs, schemas[i], h) {
      IsNotExpandedBack(schemas[i], true, 0, partials, name, defs, h);
    }
  }

  // ---- the guard on the rendered text ----

  predicate Holds(text: string) {
    exists i :: 0 <= i <= |text| && MARKER <= text[i..]
  }

  /** Neither a key nor a text holds the marker anywhere. */
  predicate MarkerFree(n: Node) {
    match n
    case Text(text) => !Holds(text)
    case Atom(_) => true
    case List(items) => forall i :: 0 <= i < |items| ==> MarkerFree(items[i])
    case Object(fields) => forall i :: 0 <= i < |fields| ==> !Holds(fields[i].key) && MarkerFree(fields[i].value)
  }

  /** A template name that a "key: marker" line yields whole: no quote, no space, and no marker of its own. */
  predicate PlainName(x: string) {
    x != "" && !Holds(x) && forall i :: 0 <= i < |x| ==> x[i] !in {'"', ' ', '\t', '\n', '\r'}
  }

  /** Each marker is the value of a key, followed by a template name; this is what renderYAML turns into includes. */
  predicate Renders(n: Node, underKey: bool) {
    match n
    case Text(text) => !Holds(text) || (underKey && IsMarked(text) && PlainName(IncludedName(text)))
    case Atom(_) => true
    case List(items) => forall i :: 0 <= i < |items| ==> Renders(items[i], false)
    case Object(fields) => forall i :: 0 <= i < |fields| ==> !Holds(fields[i].key) && Renders(fields[i].value, true)
  }

  predicate PlainNames(partials: set<Node>, name: Node -> string) {
    forall n :: n in partials ==> PlainName(name(n))
  }

  lemma {:induction false} MarkerFreeIsUnmarked(n: Node)
    requires MarkerFree(n)
    ensures Unmarked(n)
  {
    match n
    case Text(text) => assert text[0..] == text;
    case List(items) => forall i | 0 <= i < |items| ensures Unmarked(items[i]) { MarkerFreeIsUnmarked(items[i]); }
    case Object(fields) =>
      forall i | 0 <= i < |fields| ensures Unmarked(fields[i].value) { MarkerFreeIsUnmarked(fields[i].value); }
    case _ =>
  }

  lemma {:induction false} RewriteRenders(n: Node, underKey: bool, eligible: bool, partials: set<Node>,
                                          name: Node -> string)
    requires MarkerFree(n) && PlainNames(partials, name) && (eligible ==> underKey)
    ensures Renders(Rewrite(n, eligible, partials, name), underKey)
    decreases n, 1
  {
    match n
    case Object(fields) =>
      if eligible && n in partials {
        IncludeReadsBack(name(n));
      } else {
        BodyRenders(n, partials, name);
      }
    case List(items) =>
      var out := Rewrite(n, eligible, partials, name);
      forall i | 0 <= i < |items| ensures Renders(out.items[i], false) {
        RewriteRenders(items[i], false, false, partials, name);
      }
    case _ =>
  }

  lemma {:induction false} BodyRenders(n: Node, partials: set<Node>, name: Node -> string)
    requires n.Object? && MarkerFree(n) && PlainNames(partials, name)
    ensures Renders(Body(n, partials, name), true)
    decreases n, 0
  {
    var out := RewriteFields(n.fields, partials, name);
    forall i | 0 <= i < |n.fields| ensures !Holds(out[i].key) && Renders(out[i].value, true) {
      RewriteRenders(n.fields[i].value, true, ChildEligible(n.fields[i].key), partials, name);
    }
  }

  lemma {:induction false} OccurrencesAreMarkerFree(n: Node, eligible: bool, big: Node -> bool, m: Node)
    requires MarkerFree(n) && m in Occurrences(n, eligible, big)
    ensures MarkerFree(m)
    decreases n
  {
    match n
    case List(items) =>
      var i := ItemWithOccurrence(items, big, m);
      OccurrencesAreMarkerFree(items[i], false, big, m);
    case Object(fields) =>
      if m != n {
        var i := FieldWithOccurrence(fields, big, m);
        OccurrencesAreMarkerFree(fields[i].value, ChildEligible(fields[i].key), big, m);
      }
    case _ =>
  }

  /**
   For every set of schemas that hold the marker nowhere, every size threshold and plain names that do
   not collide: no document and no partial is refused, and expanding the includes of a factored schema,
   nested ones too, ends in the input schema if and only if in no list element the value of the first
   key becomes a partial.
   */
  lemma ExpandingYieldsTheInput(schemas: seq<Node>, big: Node -> bool, name: Node -> string, defs: map<string, Node>)
    requires forall i :: 0 <= i < |schemas| ==> MarkerFree(schemas[i])
    requires OnlyObjects(Partials(schemas, big)) && Defines(defs, Partials(schemas, big), name)
    requires PlainNames(Partials(schemas, big), name)
    ensures forall i :: 0 <= i < |schemas| ==> Renders(Rewrite(schemas[i], true, Partials(schemas, big), name), true)
    ensures forall x :: x in defs ==> Renders(defs[x], true)
    ensures forall i :: 0 <= i < |schemas| ==>
              (EventuallyExpands(Rewrite(schemas[i], true, Partials(schemas, big), name), defs, schemas[i]) <==>
                 Lands(schemas[i], 0, Partials(schemas, big)))
  {
    var partials := Partials(schemas, big);
    forall i | 0 <= i < |schemas|
      ensures Renders(Rewrite(schemas[i], true, partials, name), true)
      ensures EventuallyExpands(Rewrite(schemas[i], true, partials, name), defs, schemas[i]) <==>
                Lands(schemas[i], 0, partials)
    {
      RewriteRenders(schemas[i], true, true, partials, name);
      MarkerFreeIsUnmarked(schemas[i]);
      ExpandingYieldsTheInputIff(schemas, big, name, defs, i);
    }
    forall x | x in defs ensures Renders(defs[x], true) {
      var n :| n in partials && name(n) == x && defs[x] == Body(n, partials, name);
      var i := OccursInASchema(schemas, big, n);
      OccurrencesAreMarkerFree(schemas[i], true, big, n);
      BodyRenders(n, partials, name);
    }
  }

  /** A list of two elements that hold the same subtree under their first and only key. */
  function TwoAlternatives(b: Node): Node {
    Object([Field("anyOf", List([Object([Field("not", b)]), Object([Field("not", b)])]))])
  }

  lemma ShortTextHoldsNothing(text: string)
    requires |text| < |MARKER|
    ensures !Holds(text)
  {
  }

  /** Wherever the repeated subtree is large enough, such a schema is not given back, and nothing refuses it. */
  lemma TwoAlternativesAreLost(b: Node, big: Node -> bool, name: Node -> string, defs: map<string, Node>)
    requires b.Object? && big(b) && MarkerFree(b)
    requires var partials := Partials([TwoAlternatives(b)], big);
             OnlyObjects(partials) && Defines(defs, partials, name) && PlainNames(partials, name)
    ensures var partials := Partials([TwoAlternatives(b)], big);
            && MarkerFree(TwoAlternatives(b)) && b in partials
            && Renders(Rewrite(TwoAlternatives(b), true, partials, name), true)
            && !EventuallyExpands(Rewrite(TwoAlternatives(b), true, partials, name), defs, TwoAlternatives(b))
  {
    var schema := TwoAlternatives(b);
    var partials := Partials([schema], big);
    ShortTextHoldsNothing("anyOf");
    ShortTextHoldsNothing("not");
    assert MarkerFree(schema) by { ElementsAreMarkerFree(b); }
    TwiceInTwoAlternatives(b, big);
    var items := schema.fields[0].value.items;
    assert !Lands(items[0], ItemDashes(0, 0), partials);
    assert !Lands(schema.fields[0].value, 0, partials);
    ExpandingYieldsTheInput([schema], big, name, defs);
    assert [schema][0] == schema;
  }

  lemma ElementsAreMarkerFree(b: Node)
    requires MarkerFree(b) && !Holds("anyOf") && !Holds("not")
    ensures MarkerFree(TwoAlternatives(b))
  {
    var list := TwoAlternatives(b).fields[0].value;
    forall i | 0 <= i < |list.items| ensures MarkerFree(list.items[i]) {
      assert list.items[i] == Object([Field("not", b)]);
    }
  }

  lemma OneField(key: string, v: Node, big: Node -> bool)
    ensures FieldOccurrences([Field(key, v)], big) == Occurrences(v, ChildEligible(key), big)
  {
    assert [Field(key, v)][..0] == [];
  }

  lemma TwoItems(a: Node, b: Node, big: Node -> bool)
    ensures ItemOccurrences([a, b], big) == Occurrences(a, false, big) + Occurrences(b, false, big)
  {
    assert [a, b][..1] == [a] && [a][..0] == [];
    assert ItemOccurrences([a], big) == Occurrences(a, false, big);
  }

  lemma TwiceInTwoAlternatives(b: Node, big: Node -> bool)
    requires b.Object? && big(b)
    ensures b in Partials([TwoAlternatives(b)], big)
  {
    var element := Object([Field("not", b)]);
    OneField("not", b, big);
    TwoItems(element, element, big);
    OneField("anyOf", List([element, element]), big);
    assert [TwoAlternatives(b)][..0] == [];
    assert SchemaOccurrences([TwoAlternatives(b)], big) == Occurrences(TwoAlternatives(b), true, big);
    assert Occurrences(b, true, big)[b] >= 1;
    assert Occurrences(List([element, element]), true, big)[b] >= 2;
  }

  // ---- the shape of the output ----

  function Size(n: Node): nat {
    match n
    case List(items) => 1 + ItemsSize(items)
    case Object(fields) => 1 + FieldsSize(fields)
    case _ => 1
  }

  function ItemsSize(items: seq<Node>): nat {
    if items == [] then 0 else ItemsSize(items[..|items| - 1]) + Size(items[|items| - 1])
  }

  function FieldsSize(fields: seq<Field>): nat {
    if fields == [] then 0 else FieldsSize(fields[..|fields| - 1]) + Size(fields[|fields| - 1].value)
  }

  lemma {:induction false} ItemSize(items: seq<Node>, i: nat)
    requires i < |items|
    ensures Size(items[i]) <= ItemsSize(items)
  {
    if i < |items| - 1 { ItemSize(items[..|items| - 1], i); }
  }

  lemma {:induction false} FieldSize(fields: seq<Field>, i: nat)
    requires i < |fields|
    ensures Size(fields[i].value) <= FieldsSize(fields)
  {
    if i < |fields| - 1 { FieldSize(fields[..|fields| - 1], i); }
  }

  /** The tree includes the partial of this name somewhere. */
  predicate Includes(n: Node, x: string) {
    match n
    case Text(text) => IsMarked(text) && IncludedName(text) == x
    case Atom(_) => false
    case List(items) => exists i :: 0 <= i < |items| && Includes(items[i], x)
    case Object(fields) => exists i :: 0 <= i < |fields| && Includes(fields[i].value, x)
  }

  /** No list element is an include. */
  predicate IncludesOnlyUnderKeys(n: Node) {
    match n
    case List(items) => forall i :: 0 <= i < |items| ==>
      IncludesOnlyUnderKeys(items[i]) && !(items[i].Text? && IsMarked(items[i].text))
    case Object(fields) => forall i :: 0 <= i < |fields| ==> IncludesOnlyUnderKeys(fields[i].value)
    case _ => true
  }

  lemma {:induction false} RewrittenListsHoldNoIncludes(n: Node, eligible: bool, partials: set<Node>,
                                                        name: Node -> string)
    requires Unmarked(n)
    ensures IncludesOnlyUnderKeys(Rewrite(n, eligible, partials, name))
    decreases n
  {
    match n
    case List(items) =>
      forall i | 0 <= i < |items| ensures IncludesOnlyUnderKeys(Rewrite(items[i], false, partials, name)) {
        RewrittenListsHoldNoIncludes(items[i], false, partials, name);
      }
    case Object(fields) =>
      forall i | 0 <= i < |fields|
        ensures IncludesOnlyUnderKeys(Rewrite(fields[i].value, ChildEligible(fields[i].key), partials, name)) {
        RewrittenListsHoldNoIncludes(fields[i].value, ChildEligible(fields[i].key), partials, name);
      }
    case _ =>
  }

  /** Every include names a partial no larger than the tree it stands in. */
  lemma {:induction false} IncludesNamePartials(n: Node, eligible: bool, partials: set<Node>, name: Node -> string,
                                                x: string) returns (m: Node)
    requires Unmarked(n) && Includes(Rewrite(n, eligible, partials, name), x)
    ensures m in partials && name(m) == x && Size(m) <= Size(n)
    decreases n, 1
  {
    match n
    case List(items) =>
      var i :| 0 <= i < |items| && Includes(Rewrite(items[i], false, partials, name), x);
      m := IncludesNamePartials(items[i], false, partials, name, x);
      ItemSize(items, i);
    case Object(fields) =>
      if eligible && n in partials {
        IncludeReadsBack(name(n));
        m := n;
      } else {
        m := BodyIncludesSmaller(n, partials, name, x);
      }
    case _ => m := n;
  }

  /** A partial's body includes only partials of strictly smaller trees. */
  lemma {:induction false} BodyIncludesSmaller(n: Node, partials: set<Node>, name: Node -> string, x: string)
    returns (m: Node)
    requires n.Object? && Unmarked(n) && Includes(Body(n, partials, name), x)
    ensures m in partials && name(m) == x && Size(m) < Size(n)
    decreases n, 0
  {
    var i :| 0 <= i < |n.fields|
      && Includes(Rewrite(n.fields[i].value, ChildEligible(n.fields[i].key), partials, name), x);
    m := IncludesNamePartials(n.fields[i].value, ChildEligible(n.fields[i].key), partials, name, x);
    FieldSize(n.fields, i);
  }

  /** `chain` leads from a tree through bodies of partials, each included in the one before. */
  predicate Leads(out: Node, chain: seq<Node>, partials: set<Node>, name: Node -> string)
    requires OnlyObjects(partials)
  {
    && chain != [] && (forall i :: 0 <= i < |chain| ==> chain[i] in partials)
    && Includes(out, name(chain[0]))
    && (forall i :: 0 < i < |chain| ==> Includes(Body(chain[i - 1], partials, name), name(chain[i])))
  }

  lemma {:induction false} FieldWithOccurrence(fields: seq<Field>, big: Node -> bool, m: Node) returns (i: nat)
    requires m in FieldOccurrences(fields, big)
    ensures i < |fields| && m in Occurrences(fields[i].value, ChildEligible(fields[i].key), big)
  {
    if m in FieldOccurrences(fields[..|fields| - 1], big) {
      i := FieldWithOccurrence(fields[..|fields| - 1], big, m);
    } else {
      i := |fields| - 1;
    }
  }

  lemma {:induction false} ItemWithOccurrence(items: seq<Node>, big: Node -> bool, m: Node) returns (i: nat)
    requires m in ItemOccurrences(items, big)
    ensures i < |items| && m in Occurrences(items[i], false, big)
  {
    if m in ItemOccurrences(items[..|items| - 1], big) {
      i := ItemWithOccurrence(items[..|items| - 1], big, m);
    } else {
      i := |items| - 1;
    }
  }

  /** A partial that occurs in a tree is reached from its rewritten form. */
  lemma {:induction false} OccurrenceIsReached(n: Node, eligible: bool, big: Node -> bool, partials: set<Node>,
                                               name: Node -> string, m: Node) returns (chain: seq<Node>)
    requires OnlyObjects(partials) && m in partials && m in Occurrences(n, eligible, big)
    ensures Leads(Rewrite(n, eligible, partials, name), chain, partials, name) && chain[|chain| - 1] == m
    decreases n, 1
  {
    match n
    case List(items) =>
      var i := ItemWithOccurrence(items, big, m);
      chain := OccurrenceIsReached(items[i], false, big, partials, name, m);
      assert Includes(Rewrite(n, eligible, partials, name).items[i], name(chain[0]));
    case Object(fields) =>
      if eligible && n in partials {
        IncludeReadsBack(name(n));
        if m == n {
          chain := [n];
        } else {
          var rest := ReachedThroughBody(n, big, partials, name, m);
          chain := [n] + rest;
        }
      } else {
        chain := ReachedThroughBody(n, big, partials, name, m);
      }
    case _ => chain := [];
  }

  lemma {:induction false} ReachedThroughBody(n: Node, big: Node -> bool, partials: set<Node>, name: Node -> string,
                                              m: Node) returns (chain: seq<Node>)
    requires n.Object? && OnlyObjects(partials) && m in partials && m in FieldOccurrences(n.fields, big)
    ensures Leads(Body(n, partials, name), chain, partials, name) && chain[|chain| - 1] == m
    decreases n, 0
  {
    var i := FieldWithOccurrence(n.fields, big, m);
    chain := OccurrenceIsReached(n.fields[i].value, ChildEligible(n.fields[i].key), big, partials, name, m);
    assert Includes(Body(n, partials, name).fields[i].value, name(chain[0]));
  }

  /** Every defined partial is reachable from some document. */
  lemma EveryPartialIsReachable(schemas: seq<Node>, big: Node -> bool, name: Node -> string, m: Node)
    returns (i: nat, chain: seq<Node>)
    requires OnlyObjects(Partials(schemas, big)) && m in Partials(schemas, big)
    ensures i < |schemas|
    ensures Leads(Rewrite(schemas[i], true, Partials(schemas, big), name), chain, Partials(schemas, big), name)
    ensures chain[|chain| - 1] == m
  {
    i := OccursInASchema(schemas, big, m);
    chain := OccurrenceIsReached(schemas[i], true, big, Partials(schemas, big), name, m);
  }

  // ---- the code ----

  function Tally(counts: map<Node, nat>, n: Node): nat {
    if n in counts then counts[n] else 0
  }

  lemma OneMoreField(fields: seq<Field>, i: nat, big: Node -> bool)
    requires i < |fields|
    ensures FieldOccurrences(fields[..i + 1], big) ==
              FieldOccurrences(fields[..i], big) + Occurrences(fields[i].value, ChildEligible(fields[i].key), big)
  {
    assert fields[..i + 1][..i] == fields[..i];
  }

  lemma OneMoreItem(items: seq<Node>, i: nat, big: Node -> bool)
    requires i < |items|
    ensures ItemOccurrences(items[..i + 1], big) == ItemOccurrences(items[..i], big) + Occurrences(items[i], false, big)
  {
    assert items[..i + 1][..i] == items[..i];
  }

  /** Each node was counted as often again as it occurs in `more`. */
  ghost predicate Counted(was: map<Node, nat>, now: map<Node, nat>, more: multiset<Node>) {
    forall m :: Tally(now, m) == Tally(was, m) + more[m]
  }

  lemma CountedMore(was: map<Node, nat>, mid: map<Node, nat>, now: map<Node, nat>, x: multiset<Node>, y: multiset<Node>)
    requires Counted(was, mid, x) && Counted(mid, now, y)
    ensures Counted(was, now, x + y)
  {
  }

  class Counter {
    var counts: map<Node, nat>

    constructor ()
      ensures counts == map[]
    {
      counts := map[];
    }

    method CountNodes(n: Node, eligible: bool, big: Node -> bool)
      modifies this
      ensures Counted(old(counts), counts, Occurrences(n, eligible, big))
      decreases n
    {
      match n
      case Object(fields) =>
        if eligible && big(n) {
          counts := counts[n := Tally(counts, n) + 1];
        }
        ghost var own := if eligible && big(n) then multiset{n} else multiset{};
        for i := 0 to |fields|
          invariant Counted(old(counts), counts, own + FieldOccurrences(fields[..i], big))
        {
          ghost var mid := counts;
          CountNodes(fields[i].value, ChildEligible(fields[i].key), big);
          CountedMore(old(counts), mid, counts, own + FieldOccurrences(fields[..i], big),
                      Occurrences(fields[i].value, ChildEligible(fields[i].key), big));
          OneMoreField(fields, i, big);
        }
        assert fields[..|fields|] == fields;
      case List(items) =>
        for i := 0 to |items|
          invariant Counted(old(counts), counts, ItemOccurrences(items[..i], big))
        {
          ghost var mid := counts;
          CountNodes(items[i], false, big);
          CountedMore(old(counts), mid, counts, ItemOccurrences(items[..i], big), Occurrences(items[i], false, big));
          OneMoreItem(items, i, big);
        }
        assert items[..|items|] == items;
      case _ =>
    }
  }

  /**
   buildHelmChart on trees: counts, picks the repeated subtrees, rewrites the schemas in place and defines
   the partials.
   */
  method BuildChart(schemas: array<Node>, big: Node -> bool, name: Node -> string) returns (defs: map<string, Node>)
    modifies schemas
    ensures forall i :: 0 <= i < schemas.Length ==>
              schemas[i] == Rewrite(old(schemas[i]), true, Partials(old(schemas[..]), big), name)
    ensures OnlyObjects(Partials(old(schemas[..]), big))
    ensures DistinctNames(Partials(old(schemas[..]), big), name) ==>
              Defines(defs, Partials(old(schemas[..]), big), name)
  {
    ghost var was := schemas[..];
    var partials := FindPartials(schemas, big);
    PartialsAreObjects(was, big);
    for i := 0 to schemas.Length
      invariant forall k :: 0 <= k < i ==> schemas[k] == Rewrite(was[k], true, partials, name)
      invariant forall k :: i <= k < schemas.Length ==> schemas[k] == was[k]
    {
      schemas[i] := Rewrite(schemas[i], true, partials, name);
    }
    defs := RenderPartials(partials, name);
  }

  method FindPartials(schemas: array<Node>, big: Node -> bool) returns (partials: set<Node>)
    ensures partials == Partials(schemas[..], big)
  {
    ghost var was := schemas[..];
    var counter := new Counter();
    for i := 0 to schemas.Length
      invariant schemas[..] == was && fresh(counter)
      invariant forall m :: Tally(counter.counts, m) == SchemaOccurrences(was[..i], big)[m]
    {
      counter.CountNodes(schemas[i], true, big);
      assert was[..i + 1][..i] == was[..i] && schemas[i] == was[i];
    }
    assert was[..|was|] == was;
    partials := set n | n in counter.counts && counter.counts[n] >= 2;
    forall n ensures n in partials <==> n in Partials(was, big) {
      assert Tally(counter.counts, n) == SchemaOccurrences(was, big)[n];
    }
  }

  method RenderPartials(partials: set<Node>, name: Node -> string) returns (defs: map<string, Node>)
    requires OnlyObjects(partials)
    ensures DistinctNames(partials, name) ==> Defines(defs, partials, name)
  {
    defs := map[];
    var todo := partials;
    while todo != {}
      invariant todo <= partials
      invariant DistinctNames(partials, name) ==>
                  && (forall n :: n in partials - todo ==> name(n) in defs && defs[name(n)] == Body(n, partials, name))
                  && (forall x :: x in defs ==>
                      exists n :: n in partials && name(n) == x && defs[x] == Body(n, partials, name))
      decreases todo
    {
      var n :| n in todo;
      defs := defs[name(n) := Body(n, partials, name)];
      todo := todo - {n};
    }
  }
}
