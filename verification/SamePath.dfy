/**
 Which of several models sharing one path waits for which (shouldWaitForSamePathCandidate in
 gopher.go): the older one goes first, the key decides between equal or unset creation times.
 */
module SamePath {
  import opened HfTypes
  import Lexical

  /** `created` is None for a zero creation timestamp. */
  datatype Model = Model(key: string, created: Option<int>)

  /** `current` waits for `candidate`. */
  predicate WaitsFor(current: Model, candidate: Model) {
    if candidate.created.Some? && current.created.Some? && candidate.created != current.created
    then candidate.created.value < current.created.value
    else Lexical.Less(candidate.key, current.key)
  }

  ghost predicate DistinctKeys(models: set<Model>) {
    forall a, b :: a in models && b in models && a.key == b.key ==> a == b
  }

  predicate AllDated(models: set<Model>) {
    forall m :: m in models ==> m.created.Some?
  }

  /**
   The undated `z` sits between two dated models in key order, against their age order: `newer` waits
   for `older` by age, `older` for `z` and `z` for `newer` by key.
   */
  predicate Deadlock(older: Model, newer: Model, z: Model) {
    && older.created.Some? && newer.created.Some? && z.created.None?
    && older.created.value < newer.created.value
    && Lexical.Less(newer.key, z.key) && Lexical.Less(z.key, older.key)
  }

  ghost predicate NoDeadlock(models: set<Model>) {
    forall a, b, c :: a in models && b in models && c in models ==> !Deadlock(a, b, c)
  }

  /** A closed chain of waiting models. */
  predicate WaitingCycle(models: set<Model>, cycle: seq<Model>) {
    && cycle != [] && (forall m :: m in cycle ==> m in models)
    && (forall i :: 0 <= i < |cycle| ==> WaitsFor(cycle[i], cycle[if i + 1 < |cycle| then i + 1 else 0]))
  }

  predicate WaitsForNobody(models: set<Model>, m: Model) {
    m in models && forall other :: other in models ==> !WaitsFor(m, other)
  }

  // ---- two models ----

  lemma NobodyWaitsForItself(a: Model)
    ensures !WaitsFor(a, a)
  {
    Lexical.Irreflexive(a.key);
  }

  /** Of two models exactly one waits for the other. */
  lemma OneOfTwoWaits(a: Model, b: Model)
    requires a.key != b.key
    ensures WaitsFor(a, b) <==> !WaitsFor(b, a)
  {
    Lexical.Total(a.key, b.key);
    if Lexical.Less(a.key, b.key) { Lexical.Asymmetric(a.key, b.key); } else { Lexical.Asymmetric(b.key, a.key); }
  }

  // ---- three models ----

  /** Waiting chains onwards, except at the deadlocks. */
  lemma WaitingChains(a: Model, b: Model, c: Model)
    requires WaitsFor(a, b) && WaitsFor(b, c)
    requires !Deadlock(b, a, c) && !Deadlock(a, c, b) && !Deadlock(c, b, a)
    requires a.key != c.key
    ensures WaitsFor(a, c)
  {
    KeyChain(c, b, a);
    Lexical.Total(a.key, c.key);
  }

  lemma KeyChain(a: Model, b: Model, c: Model)
    ensures Lexical.Less(a.key, b.key) && Lexical.Less(b.key, c.key) ==> Lexical.Less(a.key, c.key)
  {
    if Lexical.Less(a.key, b.key) && Lexical.Less(b.key, c.key) { Lexical.Transitive(a.key, b.key, c.key); }
  }

  /** Each of the three waits for another: all wait for ever. */
  lemma DeadlockIsACycle(older: Model, newer: Model, z: Model)
    requires Deadlock(older, newer, z)
    ensures WaitingCycle({older, newer, z}, [newer, older, z])
    ensures forall m :: m in {older, newer, z} ==> !WaitsForNobody({older, newer, z}, m)
  {
    assert WaitsFor(newer, older) && WaitsFor(older, z) && WaitsFor(z, newer);
  }

  // ---- any number of models ----

  lemma WaitsTransitively(models: set<Model>, a: Model, b: Model, c: Model)
    requires DistinctKeys(models) && NoDeadlock(models) && a in models && b in models && c in models
    requires WaitsFor(a, b) && WaitsFor(b, c)
    ensures WaitsFor(a, c)
  {
    if a.key == c.key {
      NobodyWaitsForItself(a);
      OneOfTwoWaits(a, b);
      assert false;
    } else {
      WaitingChains(a, b, c);
    }
  }

  lemma {:induction false} ChainWaits(models: set<Model>, cycle: seq<Model>, i: nat)
    requires DistinctKeys(models) && NoDeadlock(models) && WaitingCycle(models, cycle) && 0 < i < |cycle|
    ensures WaitsFor(cycle[0], cycle[i])
  {
    assert WaitsFor(cycle[i - 1], cycle[if i - 1 + 1 < |cycle| then i - 1 + 1 else 0]);
    if i > 1 {
      ChainWaits(models, cycle, i - 1);
      WaitsTransitively(models, cycle[0], cycle[i - 1], cycle[i]);
    }
  }

  lemma NoWaitingCycle(models: set<Model>, cycle: seq<Model>)
    requires DistinctKeys(models) && NoDeadlock(models)
    ensures !WaitingCycle(models, cycle)
  {
    if WaitingCycle(models, cycle) {
      var last := |cycle| - 1;
      assert WaitsFor(cycle[last], cycle[0]);
      if last == 0 {
        NobodyWaitsForItself(cycle[0]);
      } else {
        ChainWaits(models, cycle, last);
        WaitsTransitively(models, cycle[0], cycle[last], cycle[0]);
        NobodyWaitsForItself(cycle[0]);
      }
    }
  }

  /** Waiting is free of cycles if and only if no undated model is caught between two dated ones. */
  lemma CycleFreeIff(models: set<Model>)
    requires DistinctKeys(models)
    ensures (forall cycle :: !WaitingCycle(models, cycle)) <==> NoDeadlock(models)
  {
    if NoDeadlock(models) {
      forall cycle ensures !WaitingCycle(models, cycle) { NoWaitingCycle(models, cycle); }
    } else {
      var a, b, c :| a in models && b in models && c in models && Deadlock(a, b, c);
      DeadlockIsACycle(a, b, c);
      assert WaitingCycle(models, [b, a, c]);
    }
  }

  /** Exactly one model of a nonempty set waits for nobody. */
  lemma {:induction false} ExactlyOneGoesFirst(models: set<Model>) returns (first: Model)
    requires models != {} && DistinctKeys(models) && NoDeadlock(models)
    ensures WaitsForNobody(models, first)
    ensures forall m :: WaitsForNobody(models, m) ==> m == first
  {
    var some :| some in models;
    if models == {some} {
      first := some;
      NobodyWaitsForItself(some);
    } else {
      var best := ExactlyOneGoesFirst(models - {some});
      NobodyWaitsForItself(some);
      NobodyWaitsForItself(best);
      OneOfTwoWaits(best, some);
      first := if WaitsFor(best, some) then some else best;
      forall other | other in models ensures !WaitsFor(first, other) {
        if first == some && other != some && WaitsFor(some, other) {
          WaitsTransitively(models, best, some, other);
        }
      }
    }
    forall m | WaitsForNobody(models, m) ensures m == first {
      if m != first { OneOfTwoWaits(m, first); }
    }
  }

  /** With creation times set, as the API server sets them, no set of models deadlocks. */
  lemma DatedModelsNeverDeadlock(models: set<Model>)
    requires AllDated(models) && DistinctKeys(models)
    ensures NoDeadlock(models) && forall cycle :: !WaitingCycle(models, cycle)
  {
    CycleFreeIff(models);
  }

  /** Whoever goes first among dated models is the oldest, by key among equally old ones. */
  lemma OldestGoesFirst(models: set<Model>, first: Model, other: Model)
    requires AllDated(models) && DistinctKeys(models) && WaitsForNobody(models, first)
    requires other in models && other != first
    ensures first.created.value <= other.created.value
    ensures first.created == other.created ==> Lexical.Less(first.key, other.key)
  {
    OneOfTwoWaits(first, other);
  }

  /** Without creation times the smallest key goes first. */
  lemma SmallestKeyGoesFirst(models: set<Model>, first: Model, other: Model)
    requires (forall m :: m in models ==> m.created.None?) && DistinctKeys(models) && WaitsForNobody(models, first)
    requires other in models && other != first
    ensures Lexical.Less(first.key, other.key)
  {
    OneOfTwoWaits(first, other);
  }
}
