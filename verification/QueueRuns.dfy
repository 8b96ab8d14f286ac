/** Whole runs of the task queue: what is accepted, popped, still queued or superseded. */
module QueueRuns {
  import opened HfTypes
  import opened TaskQueue

  datatype Event = Put(task: Task) | TakeNormal | TakeHigh | Close

  datatype LaneName = High | Normal | Revalidation

  function LaneOf(t: Task): LaneName {
    if UsesHighPriority(t) then High else if t.revalidationReplay then Revalidation else Normal
  }

  function In(q: Lanes, lane: LaneName): seq<Task> {
    match lane
    case High => q.high
    case Normal => q.download
    case Revalidation => q.revalidation
  }

  function Step(q: Lanes, e: Event): Lanes {
    match e
    case Put(t) => Enqueue(q, t)
    case TakeNormal => PopNormal(q).rest
    case TakeHigh => PopHigh(q).rest
    case Close => q.(closed := true)
  }

  /** The lane this event takes its task from, if any. */
  function TakenFrom(q: Lanes, e: Event): Option<LaneName> {
    match e
    case TakeNormal => if q.download != [] then Some(Normal) else if q.revalidation != [] then Some(Revalidation)
      else None
    case TakeHigh => if q.high != [] then Some(High) else None
    case _ => None
  }

  function Accepted(q: Lanes, e: Event): seq<Task> {
    if e.Put? && !q.closed then [e.task] else []
  }

  function Taken(q: Lanes, e: Event): seq<Task> {
    match TakenFrom(q, e)
    case Some(lane) => [In(q, lane)[0]]
    case None => []
  }

  function Superseded(q: Lanes, e: Event): multiset<Task> {
    if e.Put? && !q.closed && e.task.kind == Delete
    then multiset(Discard(q.high, e.task)) + multiset(Discard(q.download, e.task))
      + multiset(Discard(q.revalidation, e.task))
    else multiset{}
  }

  function Queued(q: Lanes): multiset<Task> {
    multiset(q.high) + multiset(q.download) + multiset(q.revalidation)
  }

  /** The run so far: queue contents and everything accepted, popped and superseded. */
  datatype Log = Log(queue: Lanes, accepted: multiset<Task>, popped: multiset<Task>, superseded: multiset<Task>)

  function Extended(log: Log, e: Event): Log {
    Log(Step(log.queue, e), log.accepted + multiset(Accepted(log.queue, e)), log.popped + multiset(Taken(log.queue, e)),
        log.superseded + Superseded(log.queue, e))
  }

  const EMPTY := Lanes([], [], [], false)

  function {:tailrecursion false} QueueAfter(events: seq<Event>): Lanes {
    if events == [] then EMPTY else Step(QueueAfter(events[..|events| - 1]), events[|events| - 1])
  }

  function {:tailrecursion false} Play(events: seq<Event>): (log: Log)
    ensures log.queue == QueueAfter(events)
  {
    if events == [] then Log(EMPTY, multiset{}, multiset{}, multiset{})
    else Extended(Play(events[..|events| - 1]), events[|events| - 1])
  }

  // ---- conservation ----

  lemma {:induction false} KeepOrDiscard(tasks: seq<Task>, d: Task)
    ensures multiset(tasks) == multiset(Keep(tasks, d)) + multiset(Discard(tasks, d))
  {
    if tasks != [] {
      KeepOrDiscard(tasks[1..], d);
      assert tasks == [tasks[0]] + tasks[1..];
    }
  }

  lemma PutConserves(q: Lanes, t: Task)
    ensures Queued(q) + multiset(Accepted(q, Put(t))) == Queued(Enqueue(q, t)) + Superseded(q, Put(t))
  {
    if !q.closed && t.kind == Delete {
      KeepOrDiscard(q.high, t);
      KeepOrDiscard(q.download, t);
      KeepOrDiscard(q.revalidation, t);
    }
  }

  lemma PopsHead(tasks: seq<Task>)
    requires tasks != []
    ensures multiset(tasks) == multiset{tasks[0]} + multiset(tasks[1..])
  {
    assert tasks == [tasks[0]] + tasks[1..];
  }

  lemma TakeConserves(q: Lanes, e: Event)
    requires !e.Put?
    ensures Queued(q) == Queued(Step(q, e)) + multiset(Taken(q, e))
  {
    match TakenFrom(q, e)
    case None =>
    case Some(High) => PopsHead(q.high);
    case Some(Normal) => PopsHead(q.download);
    case Some(Revalidation) => PopsHead(q.revalidation);
  }

  predicate Balanced(log: Log) {
    log.accepted == log.popped + Queued(log.queue) + log.superseded
  }

  lemma StepBalances(log: Log, e: Event)
    requires Balanced(log)
    ensures Balanced(Extended(log, e))
  {
    if e.Put? { PutConserves(log.queue, e.task); } else { TakeConserves(log.queue, e); }
    BalanceMoves(log.popped, Queued(log.queue), log.superseded, multiset(Accepted(log.queue, e)),
                 multiset(Taken(log.queue, e)),
                 Queued(Step(log.queue, e)), Superseded(log.queue, e));
  }

  lemma BalanceMoves(popped: multiset<Task>, queued: multiset<Task>, superseded: multiset<Task>,
                     accepted': multiset<Task>,
                     popped': multiset<Task>, queued': multiset<Task>, superseded': multiset<Task>)
    requires queued + accepted' == queued' + popped' + superseded'
    ensures popped + queued + superseded + accepted' == (popped + popped') + queued' + (superseded + superseded')
  {
    calc {
      popped + queued + superseded + accepted';
      popped + superseded + (queued + accepted');
      popped + superseded + (queued' + popped' + superseded');
    }
  }

  /** In every run the tasks accepted while open are exactly those popped, still queued or superseded. */
  lemma {:induction false} NothingIsLost(events: seq<Event>)
    ensures Balanced(Play(events))
  {
    if events != [] {
      NothingIsLost(events[..|events| - 1]);
      StepBalances(Play(events[..|events| - 1]), events[|events| - 1]);
    }
  }

  // ---- who is superseded ----

  /** `e` put a delete of `t`'s model, and `t` carries no newer download intent that the delete must respect. */
  predicate JustifiedBy(t: Task, e: Event) {
    && e.Put? && e.task.kind == Delete && t.kind != Delete && t.uid == e.task.uid && t.uid != ""
    && (e.task.coordinated && e.task.sequence != 0 ==> t.sequence <= e.task.sequence)
  }

  lemma {:induction false} DiscardJustified(tasks: seq<Task>, d: Task, t: Task)
    requires t in Discard(tasks, d) && d.kind == Delete
    ensures JustifiedBy(t, Put(d))
  {
    if tasks != [] && t in Discard(tasks[1..], d) { DiscardJustified(tasks[1..], d, t); }
  }

  /** The event at `i` put its task while the queue was still open. */
  predicate AcceptedAt(events: seq<Event>, i: nat) {
    i < |events| && events[i].Put? && !QueueAfter(events[..i]).closed
  }

  /** `t` was accepted, and a delete accepted after it justifies dropping it. */
  predicate SupersededAt(events: seq<Event>, t: Task, i: nat, j: nat) {
    i < j && AcceptedAt(events, i) && events[i] == Put(t) && AcceptedAt(events, j) && JustifiedBy(t, events[j])
  }

  lemma AcceptedInPrefix(events: seq<Event>, n: nat, i: nat)
    requires n <= |events| && AcceptedAt(events[..n], i)
    ensures AcceptedAt(events, i) && i < n && events[i] == events[..n][i]
  {
    assert events[..n][..i] == events[..i];
  }

  /** What a run accepted, it accepted at its last event or before. */
  lemma AcceptedLast(events: seq<Event>, t: Task)
    requires events != [] && t in Play(events).accepted && t !in Play(events[..|events| - 1]).accepted
    ensures AcceptedAt(events, |events| - 1) && events[|events| - 1] == Put(t)
  {
  }

  lemma {:induction false} AcceptedSomewhere(events: seq<Event>, t: Task) returns (i: nat)
    requires t in Play(events).accepted
    ensures AcceptedAt(events, i) && events[i] == Put(t)
  {
    var n := |events| - 1;
    if t in Play(events[..n]).accepted {
      i := AcceptedSomewhere(events[..n], t);
      AcceptedInPrefix(events, n, i);
    } else {
      AcceptedLast(events, t);
      i := n;
    }
  }

  lemma DiscardedWasQueued(tasks: seq<Task>, d: Task, t: Task)
    requires t in Discard(tasks, d) && d.kind == Delete
    ensures t in multiset(tasks) && JustifiedBy(t, Put(d))
  {
    KeepOrDiscard(tasks, d);
    assert t in multiset(Discard(tasks, d));
    DiscardJustified(tasks, d, t);
  }

  lemma SupersededWasQueued(q: Lanes, e: Event, t: Task)
    requires t in Superseded(q, e)
    ensures t in Queued(q) && JustifiedBy(t, e) && !q.closed
  {
    if t in Discard(q.high, e.task) {
      DiscardedWasQueued(q.high, e.task, t);
    } else if t in Discard(q.download, e.task) {
      DiscardedWasQueued(q.download, e.task, t);
    } else {
      DiscardedWasQueued(q.revalidation, e.task, t);
    }
  }

  lemma QueuedWasAccepted(events: seq<Event>, t: Task)
    requires t in Queued(Play(events).queue)
    ensures t in Play(events).accepted
  {
    NothingIsLost(events);
  }

  lemma SupersededNow(events: seq<Event>, t: Task, i: nat)
    requires events != [] && JustifiedBy(t, events[|events| - 1]) && AcceptedAt(events, |events| - 1)
    requires AcceptedAt(events[..|events| - 1], i) && events[..|events| - 1][i] == Put(t)
    ensures SupersededAt(events, t, i, |events| - 1)
  {
    AcceptedInPrefix(events, |events| - 1, i);
  }

  lemma SupersededInPrefix(events: seq<Event>, n: nat, t: Task, i: nat, j: nat)
    requires n <= |events| && SupersededAt(events[..n], t, i, j)
    ensures SupersededAt(events, t, i, j)
  {
    AcceptedInPrefix(events, n, i);
    AcceptedInPrefix(events, n, j);
  }

  /** A superseded task was accepted first, and a delete accepted later justifies that it was dropped. */
  lemma {:induction false} SupersededOnlyByDelete(events: seq<Event>, t: Task) returns (i: nat, j: nat)
    requires t in Play(events).superseded
    ensures SupersededAt(events, t, i, j)
  {
    var n := |events| - 1;
    if t in Superseded(Play(events[..n]).queue, events[n]) {
      SupersededWasQueued(Play(events[..n]).queue, events[n], t);
      QueuedWasAccepted(events[..n], t);
      i := AcceptedSomewhere(events[..n], t);
      SupersededNow(events, t, i);
      j := n;
    } else {
      assert t in Play(events[..n]).superseded;
      i, j := SupersededOnlyByDelete(events[..n], t);
      SupersededInPrefix(events, n, t, i, j);
    }
  }

  // ---- order ----

  function NonDeletes(tasks: seq<Task>): seq<Task> {
    if tasks == [] then [] else (if tasks[0].kind == Delete then [] else [tasks[0]]) + NonDeletes(tasks[1..])
  }

  /** The ordinary tasks that joined one lane, that were popped from it, and that deletes dropped from it. */
  datatype LaneLog = LaneLog(joined: seq<Task>, left: seq<Task>, dropped: multiset<Task>)

  function Joins(q: Lanes, e: Event, lane: LaneName): seq<Task> {
    if e.Put? && LaneOf(e.task) == lane then NonDeletes(Accepted(q, e)) else []
  }

  function Leaves(q: Lanes, e: Event, lane: LaneName): seq<Task> {
    if TakenFrom(q, e) == Some(lane) then NonDeletes(Taken(q, e)) else []
  }

  function Drops(q: Lanes, e: Event, lane: LaneName): multiset<Task> {
    if e.Put? && !q.closed && e.task.kind == Delete then multiset(Discard(In(q, lane), e.task)) else multiset{}
  }

  function ExtendedLane(log: LaneLog, q: Lanes, e: Event, lane: LaneName): LaneLog {
    LaneLog(log.joined + Joins(q, e, lane), log.left + Leaves(q, e, lane), log.dropped + Drops(q, e, lane))
  }

  function {:tailrecursion false} PlayLane(events: seq<Event>, lane: LaneName): LaneLog
  {
    if events == [] then LaneLog([], [], multiset{})
    else
      var front := events[..|events| - 1];
      ExtendedLane(PlayLane(front, lane), Play(front).queue, events[|events| - 1], lane)
  }

  /** The tasks dropped from the three lanes are exactly the superseded ones. */
  lemma {:induction false} DroppedIsSuperseded(events: seq<Event>)
    ensures Play(events).superseded ==
            PlayLane(events, High).dropped + PlayLane(events, Normal).dropped + PlayLane(events, Revalidation).dropped
  {
    if events != [] {
      var front, e := events[..|events| - 1], events[|events| - 1];
      var q := Play(front).queue;
      DroppedIsSuperseded(front);
      AddsUp(PlayLane(front, High).dropped, PlayLane(front, Normal).dropped, PlayLane(front, Revalidation).dropped,
             Drops(q, e, High), Drops(q, e, Normal), Drops(q, e, Revalidation));
      assert Superseded(q, e) == Drops(q, e, High) + Drops(q, e, Normal) + Drops(q, e, Revalidation);
    }
  }

  lemma AddsUp(a: multiset<Task>, b: multiset<Task>, c: multiset<Task>, x: multiset<Task>, y: multiset<Task>,
               z: multiset<Task>)
    ensures (a + b + c) + (x + y + z) == (a + x) + (b + y) + (c + z)
  {
  }

  /** `a` is `b` with some elements left out, order kept: `at[k]` is where `a[k]` sits in `b`. */
  predicate EmbedsAt(a: seq<Task>, b: seq<Task>, at: seq<nat>) {
    && |at| == |a|
    && (forall k :: 0 <= k < |a| ==> at[k] < |b| && a[k] == b[at[k]])
    && (forall k, l :: 0 <= k < l < |a| ==> at[k] < at[l])
  }

  ghost predicate Subsequence(a: seq<Task>, b: seq<Task>) {
    exists at: seq<nat> :: EmbedsAt(a, b, at)
  }

  lemma SubsequenceAppend(a: seq<Task>, b: seq<Task>, t: Task)
    requires Subsequence(a, b)
    ensures Subsequence(a + [t], b + [t]) && Subsequence(a, b + [t])
  {
    var at: seq<nat> :| EmbedsAt(a, b, at);
    assert EmbedsAt(a + [t], b + [t], at + [|b|]);
    assert EmbedsAt(a, b + [t], at);
  }

  lemma SubsequenceDrop(a: seq<Task>, b: seq<Task>, i: nat)
    requires Subsequence(a, b) && i < |a|
    ensures Subsequence(a[..i] + a[i + 1..], b)
  {
    var at: seq<nat> :| EmbedsAt(a, b, at);
    assert EmbedsAt(a[..i] + a[i + 1..], b, at[..i] + at[i + 1..]);
  }

  lemma {:induction false} NonDeletesConcat(a: seq<Task>, b: seq<Task>)
    ensures NonDeletes(a + b) == NonDeletes(a) + NonDeletes(b)
  {
    if a == [] {
      assert a + b == b;
    } else {
      var head := if a[0].kind == Delete then [] else [a[0]];
      calc {
        NonDeletes(a + b);
        { assert (a + b)[0] == a[0] && (a + b)[1..] == a[1..] + b; }
        head + NonDeletes(a[1..] + b);
        { NonDeletesConcat(a[1..], b); }
        head + (NonDeletes(a[1..]) + NonDeletes(b));
        (head + NonDeletes(a[1..])) + NonDeletes(b);
        NonDeletes(a) + NonDeletes(b);
      }
    }
  }

  lemma KeptHead(tasks: seq<Task>, d: Task)
    requires tasks != [] && !Supersedes(d, tasks[0])
    ensures NonDeletes(Keep(tasks, d)) == NonDeletes([tasks[0]]) + NonDeletes(Keep(tasks[1..], d))
  {
    NonDeletesConcat([tasks[0]], Keep(tasks[1..], d));
  }

  /** Filtering the tail of a subsequence leaves a subsequence. */
  lemma {:induction false} FilterTail(front: seq<Task>, tasks: seq<Task>, d: Task, b: seq<Task>)
    requires Subsequence(front + NonDeletes(tasks), b)
    ensures Subsequence(front + NonDeletes(Keep(tasks, d)), b)
    decreases |tasks|
  {
    if tasks != [] {
      var t, rest := tasks[0], tasks[1..];
      if t.kind == Delete {
        assert NonDeletes(tasks) == NonDeletes(rest);
        KeptHead(tasks, d);
        assert NonDeletes([t]) == [] && NonDeletes(Keep(tasks, d)) == NonDeletes(Keep(rest, d));
        FilterTail(front, rest, d, b);
      } else if Supersedes(d, t) {
        SubsequenceDrop(front + NonDeletes(tasks), b, |front|);
        assert (front + NonDeletes(tasks))[..|front|] + (front + NonDeletes(tasks))[|front| + 1..] == front
               + NonDeletes(rest);
        assert Keep(tasks, d) == Keep(rest, d);
        FilterTail(front, rest, d, b);
      } else {
        KeptHead(tasks, d);
        assert front + NonDeletes(tasks) == (front + [t]) + NonDeletes(rest);
        FilterTail(front + [t], rest, d, b);
        assert front + NonDeletes(Keep(tasks, d)) == (front + [t]) + NonDeletes(Keep(rest, d));
      }
    }
  }

  lemma {:induction false} DiscardIsOrdinary(tasks: seq<Task>, d: Task)
    ensures multiset(NonDeletes(tasks)) == multiset(NonDeletes(Keep(tasks, d))) + multiset(Discard(tasks, d))
  {
    if tasks != [] {
      var t, rest := tasks[0], tasks[1..];
      DiscardIsOrdinary(rest, d);
      var whole, kept, gone := NonDeletes(rest), NonDeletes(Keep(rest, d)), Discard(rest, d);
      if Supersedes(d, t) {
        assert NonDeletes(tasks) == [t] + whole && Keep(tasks, d) == Keep(rest, d) && Discard(tasks, d) == [t] + gone;
        CountOne(t, whole);
        CountOne(t, gone);
      } else {
        KeptHead(tasks, d);
        assert Discard(tasks, d) == gone;
        if t.kind == Delete {
          assert NonDeletes(tasks) == whole && NonDeletes(Keep(tasks, d)) == kept;
        } else {
          assert NonDeletes(tasks) == [t] + whole && NonDeletes(Keep(tasks, d)) == [t] + kept;
          CountOne(t, whole);
          CountOne(t, kept);
        }
      }
    }
  }

  lemma CountOne(t: Task, rest: seq<Task>)
    ensures multiset([t] + rest) == multiset{t} + multiset(rest)
  {
  }

  /** What left a lane, followed by the ordinary tasks it still holds, in the order of what joined it. */
  ghost predicate InOrder(log: LaneLog, tasks: seq<Task>) {
    Subsequence(log.left + NonDeletes(tasks), log.joined)
  }

  /** Whatever joined a lane left it, is still there or was dropped by a delete. */
  predicate Accounted(log: LaneLog, tasks: seq<Task>) {
    multiset(log.joined) == multiset(log.left) + multiset(NonDeletes(tasks)) + log.dropped
  }

  lemma DeleteKeepsOrder(log: LaneLog, q: Lanes, t: Task, lane: LaneName)
    requires t.kind == Delete && !q.closed && InOrder(log, In(q, lane))
    ensures InOrder(ExtendedLane(log, q, Put(t), lane), In(Enqueue(q, t), lane))
  {
    FilterTail(log.left, In(q, lane), t, log.joined);
    DeleteFilters(q, t, lane);
    assert log.joined + [] == log.joined && log.left + [] == log.left;
  }

  lemma DeleteFilters(q: Lanes, t: Task, lane: LaneName)
    requires t.kind == Delete && !q.closed
    ensures NonDeletes(In(Enqueue(q, t), lane)) == NonDeletes(Keep(In(q, lane), t)) && Joins(q, Put(t), lane) == []
  {
    NonDeletesConcat([t], Keep(q.high, t));
    assert NonDeletes([t]) == [];
  }

  lemma PutKeepsOrder(log: LaneLog, q: Lanes, t: Task, lane: LaneName)
    requires t.kind != Delete && !q.closed && LaneOf(t) == lane && InOrder(log, In(q, lane))
    ensures InOrder(ExtendedLane(log, q, Put(t), lane), In(Enqueue(q, t), lane))
  {
    var tasks := In(q, lane);
    NonDeletesConcat(tasks, [t]);
    assert Joins(q, Put(t), lane) == [t] && log.left + [] == log.left;
    SubsequenceAppend(log.left + NonDeletes(tasks), log.joined, t);
    assert (log.left + NonDeletes(tasks)) + [t] == log.left + NonDeletes(tasks + [t]);
  }

  lemma TakeKeepsOrder(log: LaneLog, q: Lanes, e: Event, lane: LaneName)
    requires TakenFrom(q, e) == Some(lane) && InOrder(log, In(q, lane))
    ensures InOrder(ExtendedLane(log, q, e, lane), In(Step(q, e), lane))
  {
    var tasks := In(q, lane);
    NonDeletesConcat([tasks[0]], tasks[1..]);
    assert tasks == [tasks[0]] + tasks[1..] && log.joined + [] == log.joined;
    assert log.left + (NonDeletes([tasks[0]]) + NonDeletes(tasks[1..])) == (log.left + NonDeletes([tasks[0]]))
           + NonDeletes(tasks[1..]);
  }

  lemma StepKeepsOrder(log: LaneLog, q: Lanes, e: Event, lane: LaneName)
    requires InOrder(log, In(q, lane))
    ensures InOrder(ExtendedLane(log, q, e, lane), In(Step(q, e), lane))
  {
    if e.Put? && !q.closed && e.task.kind == Delete {
      DeleteKeepsOrder(log, q, e.task, lane);
    } else if e.Put? && !q.closed && LaneOf(e.task) == lane {
      PutKeepsOrder(log, q, e.task, lane);
    } else if TakenFrom(q, e) == Some(lane) {
      TakeKeepsOrder(log, q, e, lane);
    } else {
      assert log.joined + [] == log.joined && log.left + [] == log.left;
    }
  }

  /** What was there and what joins is what remains, leaves or is dropped. */
  predicate Moves(was: multiset<Task>, joins: seq<Task>, now: multiset<Task>, leaves: seq<Task>,
                  drops: multiset<Task>) {
    was + multiset(joins) == now + multiset(leaves) + drops
  }

  lemma PutConservesLane(q: Lanes, t: Task, lane: LaneName)
    requires t.kind != Delete && !q.closed && LaneOf(t) == lane
    ensures Joins(q, Put(t), lane) == [t]
    ensures Moves(multiset(NonDeletes(In(q, lane))), [t], multiset(NonDeletes(In(Enqueue(q, t), lane))), [], multiset{})
  {
    assert NonDeletes([t]) == [t];
    NonDeletesConcat(In(q, lane), [t]);
    assert In(Enqueue(q, t), lane) == In(q, lane) + [t];
  }

  lemma TakeConservesLane(q: Lanes, e: Event, lane: LaneName)
    requires TakenFrom(q, e) == Some(lane)
    ensures Moves(multiset(NonDeletes(In(q, lane))), [], multiset(NonDeletes(In(Step(q, e), lane))),
                  Leaves(q, e, lane), multiset{})
  {
    TakesFirst(q, e, lane);
    FirstMoves(In(q, lane));
  }

  lemma TakesFirst(q: Lanes, e: Event, lane: LaneName)
    requires TakenFrom(q, e) == Some(lane)
    ensures In(q, lane) != [] && In(Step(q, e), lane) == In(q, lane)[1..]
    ensures Leaves(q, e, lane) == NonDeletes([In(q, lane)[0]])
  {
  }

  lemma FirstMoves(tasks: seq<Task>)
    requires tasks != []
    ensures Moves(multiset(NonDeletes(tasks)), [], multiset(NonDeletes(tasks[1..])), NonDeletes([tasks[0]]), multiset{})
  {
    NonDeletesConcat([tasks[0]], tasks[1..]);
    assert tasks == [tasks[0]] + tasks[1..];
  }

  lemma DeleteConservesLane(q: Lanes, t: Task, lane: LaneName)
    requires t.kind == Delete && !q.closed
    ensures Moves(multiset(NonDeletes(In(q, lane))), [], multiset(NonDeletes(In(Enqueue(q, t), lane))), [],
                  Drops(q, Put(t), lane))
  {
    DiscardIsOrdinary(In(q, lane), t);
    DeleteFilters(q, t, lane);
  }

  /** One event moves the ordinary tasks of a lane about; none appears or disappears. */
  lemma LaneConserves(q: Lanes, e: Event, lane: LaneName)
    ensures Moves(multiset(NonDeletes(In(q, lane))), Joins(q, e, lane),
                  multiset(NonDeletes(In(Step(q, e), lane))), Leaves(q, e, lane), Drops(q, e, lane))
  {
    if e.Put? && !q.closed && e.task.kind == Delete {
      DeleteConservesLane(q, e.task, lane);
      DeleteFilters(q, e.task, lane);
      assert Leaves(q, e, lane) == [];
    } else if e.Put? && !q.closed && LaneOf(e.task) == lane {
      PutConservesLane(q, e.task, lane);
      assert Leaves(q, e, lane) == [] && Drops(q, e, lane) == multiset{};
    } else if TakenFrom(q, e) == Some(lane) {
      TakeConservesLane(q, e, lane);
    } else {
      assert In(Step(q, e), lane) == In(q, lane) && Joins(q, e, lane) == [] && Leaves(q, e, lane) == [];
    }
  }

  lemma StepAccounts(log: LaneLog, q: Lanes, e: Event, lane: LaneName)
    requires Accounted(log, In(q, lane))
    ensures Accounted(ExtendedLane(log, q, e, lane), In(Step(q, e), lane))
  {
    LaneConserves(q, e, lane);
    BalanceMoves(multiset(log.left), multiset(NonDeletes(In(q, lane))), log.dropped, multiset(Joins(q, e, lane)),
                 multiset(Leaves(q, e, lane)), multiset(NonDeletes(In(Step(q, e), lane))), Drops(q, e, lane));
  }

  /**
   Each lane is first-in first-out for ordinary tasks: those popped from it, followed by those still
   in it, are the accepted ones in acceptance order, and the ones missing are superseded.
   */
  lemma {:induction false} LanesKeepOrder(events: seq<Event>, lane: LaneName)
    ensures InOrder(PlayLane(events, lane), In(Play(events).queue, lane))
    ensures Accounted(PlayLane(events, lane), In(Play(events).queue, lane))
    ensures PlayLane(events, lane).dropped <= Play(events).superseded
  {
    DroppedIsSuperseded(events);
    if events == [] {
      assert EmbedsAt([] + NonDeletes([]), [], []);
    } else {
      var front := events[..|events| - 1];
      LanesKeepOrder(front, lane);
      StepKeepsOrder(PlayLane(front, lane), Play(front).queue, events[|events| - 1], lane);
      StepAccounts(PlayLane(front, lane), Play(front).queue, events[|events| - 1], lane);
    }
  }

  // ---- what a delete leaves ----

  lemma {:induction false} KeptIsNotPointless(tasks: seq<Task>, d: Task, t: Task)
    requires t in Keep(tasks, d) && d.kind == Delete
    ensures t in tasks && !JustifiedBy(t, Put(d))
  {
    if tasks[0] != t || Supersedes(d, tasks[0]) { KeptIsNotPointless(tasks[1..], d, t); }
  }

  lemma {:induction false} OthersAreKept(tasks: seq<Task>, d: Task, t: Task)
    requires t in tasks && d.kind == Delete && !JustifiedBy(t, Put(d))
    ensures t in Keep(tasks, d)
  {
    if tasks[0] != t { OthersAreKept(tasks[1..], d, t); }
  }

  /** In every run, right after a delete is accepted exactly the tasks it makes pointless are gone from the queue. */
  lemma DeletePurgesIff(events: seq<Event>, j: nat, t: Task)
    requires AcceptedAt(events, j) && events[j].task.kind == Delete
    ensures t in Queued(QueueAfter(events[..j + 1])) <==>
              t == events[j].task || (t in Queued(QueueAfter(events[..j])) && !JustifiedBy(t, events[j]))
  {
    var q, d := QueueAfter(events[..j]), events[j].task;
    assert events[..j + 1][..j] == events[..j];
    forall lane: seq<Task> ensures t in Keep(lane, d) <==> t in lane && !JustifiedBy(t, Put(d)) {
      if t in Keep(lane, d) { KeptIsNotPointless(lane, d, t); }
      if t in lane && !JustifiedBy(t, Put(d)) { OthersAreKept(lane, d, t); }
    }
  }
}
