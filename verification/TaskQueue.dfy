/**
 The three-lane task queue (gopher_task_queue.go). The lanes are slices: a window into an array that
 appends may grow, pops advance and the superseding filter compacts in place.
 */
module TaskQueue {
  import opened HfTypes

  datatype TaskType = Download | DownloadOverride | Delete

  /**
   The fields of a task the queue looks at. `waiting`: it has started waiting for its path;
   `objectStorage`: its storage URI is OCI object storage; `coordinated`: usesArtifactTaskCoordinator.
   */
  datatype Task = Task(
    id: nat,
    kind: TaskType,
    uid: string,
    sequence: nat,
    normalPriorityOnly: bool,
    revalidationReplay: bool,
    waiting: bool,
    objectStorage: bool,
    coordinated: bool)

  predicate UsesHighPriority(t: Task) {
    || t.kind == Delete
    || (t.kind == Download && !t.normalPriorityOnly && !t.revalidationReplay && t.objectStorage)
    || (!t.normalPriorityOnly && !t.revalidationReplay && t.waiting)
  }

  // ---- the specification ----

  /** Pending work that a delete of the same model makes pointless. */
  predicate Supersedes(d: Task, t: Task) {
    && d.uid != "" && t.kind != Delete && t.uid == d.uid
    && !(d.coordinated && d.sequence != 0 && t.sequence != 0 && t.sequence > d.sequence)
  }

  function Keep(tasks: seq<Task>, d: Task): (kept: seq<Task>)
  {
    if tasks == [] then []
    else (if Supersedes(d, tasks[0]) then [] else [tasks[0]]) + Keep(tasks[1..], d)
  }

  function Discard(tasks: seq<Task>, d: Task): (discarded: seq<Task>)
  {
    if tasks == [] then []
    else (if Supersedes(d, tasks[0]) then [tasks[0]] else []) + Discard(tasks[1..], d)
  }

  datatype Lanes = Lanes(high: seq<Task>, download: seq<Task>, revalidation: seq<Task>, closed: bool)

  function Enqueue(q: Lanes, t: Task): Lanes {
    if q.closed then q
    else if t.kind == Delete then
      Lanes([t] + Keep(q.high, t), Keep(q.download, t), Keep(q.revalidation, t), q.closed)
    else if UsesHighPriority(t) then q.(high := q.high + [t])
    else if t.revalidationReplay then q.(revalidation := q.revalidation + [t])
    else q.(download := q.download + [t])
  }

  datatype Popped = Popped(task: Option<Task>, rest: Lanes)

  function PopNormal(q: Lanes): Popped {
    if q.download != [] then Popped(Some(q.download[0]), q.(download := q.download[1..]))
    else if q.revalidation != [] then Popped(Some(q.revalidation[0]), q.(revalidation := q.revalidation[1..]))
    else Popped(None, q)
  }

  function PopHigh(q: Lanes): Popped {
    if q.high != [] then Popped(Some(q.high[0]), q.(high := q.high[1..])) else Popped(None, q)
  }

  // ---- the slices ----

  lemma {:induction false} KeepAppend(tasks: seq<Task>, t: Task, d: Task)
    ensures Keep(tasks + [t], d) == Keep(tasks, d) + if Supersedes(d, t) then [] else [t]
  {
    if tasks == [] {
    } else {
      KeepAppend(tasks[1..], t, d);
      assert (tasks + [t])[1..] == tasks[1..] + [t];
    }
  }

  lemma {:induction false} KeepAll(tasks: seq<Task>, d: Task)
    requires d.uid == ""
    ensures Keep(tasks, d) == tasks
  {
    if tasks != [] { KeepAll(tasks[1..], d); }
  }

  /** A new array of this size, filled with one task, holding a copy of the window at `at`. */
  method Copied(cells: array<Task>, start: nat, count: nat, at: nat, size: nat, fill: Task)
    returns (larger: array<Task>)
    requires start + count <= cells.Length && at + count <= size
    ensures fresh(larger) && larger.Length == size && larger[at..at + count] == cells[start..start + count]
    ensures forall k :: (0 <= k < at || at + count <= k < size) ==> larger[k] == fill
  {
    larger := new Task[size](_ => fill);
    var i := 0;
    while i < count
      invariant 0 <= i <= count
      invariant larger[at..at + i] == cells[start..start + i]
      invariant forall k :: (0 <= k < at || at + i <= k < size) ==> larger[k] == fill
    {
      larger[at + i] := cells[start + i];
      i := i + 1;
    }
  }

  lemma KeepNext(tasks: seq<Task>, i: nat, d: Task)
    requires i < |tasks|
    ensures Keep(tasks[..i + 1], d) == Keep(tasks[..i], d) + if Supersedes(d, tasks[i]) then [] else [tasks[i]]
  {
    assert tasks[..i + 1] == tasks[..i] + [tasks[i]];
    KeepAppend(tasks[..i], tasks[i], d);
  }

  /** The in-place filter: reads run ahead of writes within one window. */
  method Compact(cells: array<Task>, start: nat, count: nat, d: Task) returns (kept: nat)
    requires start + count <= cells.Length && d.uid != ""
    modifies cells
    ensures kept <= count && cells[start..start + kept] == Keep(old(cells[start..start + count]), d)
  {
    ghost var was := cells[start..start + count];
    ghost var done: seq<Task> := [];
    var i := 0;
    kept := 0;
    while i < count
      invariant 0 <= kept <= i <= count
      invariant done == Keep(was[..i], d) && cells[start..start + kept] == done
      invariant forall k :: start + i <= k < start + count ==> cells[k] == was[k - start]
    {
      var t := cells[start + i];
      KeepNext(was, i, d);
      if t.kind == Delete || t.uid != d.uid
        || (d.coordinated && d.sequence != 0 && t.sequence != 0 && t.sequence > d.sequence) {
        cells[start + kept] := t;
        kept := kept + 1;
        done := done + [t];
      }
      i := i + 1;
    }
    assert was[..i] == was;
  }

  class Lane {
    var cells: array<Task>
    var start: nat
    var count: nat

    ghost predicate Valid()
      reads this
    {
      start + count <= cells.Length
    }

    ghost function Tasks(): seq<Task>
      requires Valid()
      reads this, cells
    {
      cells[start..start + count]
    }

    constructor ()
      ensures Valid() && Tasks() == [] && fresh(cells)
    {
      cells := new Task[0];
      start, count := 0, 0;
    }

    /** append: in place while the array has room, else into a larger copy. */
    method Append(t: Task)
      requires Valid()
      modifies this, cells
      ensures Valid() && Tasks() == old(Tasks()) + [t]
      ensures cells == old(cells) || fresh(cells)
    {
      if start + count < cells.Length {
        cells[start + count] := t;
      } else {
        cells := Copied(cells, start, count, 0, 2 * count + 1, t);
        start := 0;
      }
      count := count + 1;
    }

    /** A new array with the task in front. */
    method PushFront(t: Task)
      requires Valid()
      modifies this
      ensures Valid() && Tasks() == [t] + old(Tasks())
      ensures fresh(cells)
    {
      cells := Copied(cells, start, count, 1, count + 1, t);
      start, count := 0, count + 1;
    }

    method PopFront() returns (t: Task)
      requires Valid() && count > 0
      modifies this`start, this`count
      ensures Valid() && cells == old(cells) && [t] + Tasks() == old(Tasks())
    {
      t := cells[start];
      start, count := start + 1, count - 1;
    }

    /** removeSupersededTasks: the kept tasks overwrite the front of the same array. */
    method RemoveSuperseded(d: Task)
      requires Valid()
      modifies this`count, cells
      ensures Valid() && cells == old(cells) && start == old(start)
      ensures Tasks() == Keep(old(Tasks()), d)
    {
      if d.uid == "" {
        KeepAll(Tasks(), d);
      } else {
        count := Compact(cells, start, count, d);
      }
    }
  }

  class Queue {
    const high: Lane
    const download: Lane
    const revalidation: Lane
    var closed: bool

    /** The three lanes share no memory. */
    ghost predicate Valid()
      reads this, high, download, revalidation
    {
      && high.Valid() && download.Valid() && revalidation.Valid()
      && high != download && high != revalidation && download != revalidation
      && high.cells != download.cells && high.cells != revalidation.cells && download.cells != revalidation.cells
    }

    ghost function Contents(): Lanes
      requires Valid()
      reads this, high, download, revalidation, high.cells, download.cells, revalidation.cells
    {
      Lanes(high.Tasks(), download.Tasks(), revalidation.Tasks(), closed)
    }

    constructor ()
      ensures Valid() && Contents() == Lanes([], [], [], false)
    {
      high := new Lane();
      download := new Lane();
      revalidation := new Lane();
      closed := false;
    }

    method Add(t: Task)
      requires Valid()
      modifies high, download, revalidation, high.cells, download.cells, revalidation.cells
      ensures Valid() && Contents() == Enqueue(old(Contents()), t)
      ensures closed == old(closed) && (closed ==> Contents() == old(Contents()))
      ensures !closed && t.kind == Delete ==> high.Tasks() != [] && high.Tasks()[0] == t
      ensures !closed && t.kind != Delete ==>
                var urgent := !t.normalPriorityOnly && !t.revalidationReplay
                              && (t.waiting || (t.kind == Download && t.objectStorage));
                && high.Tasks() == old(high.Tasks()) + (if urgent then [t] else [])
                && download.Tasks() ==
                     old(download.Tasks()) + (if !urgent && !t.revalidationReplay then [t] else [])
                && revalidation.Tasks() == old(revalidation.Tasks()) + (if t.revalidationReplay then [t] else [])
    {
      if closed {
        return;
      }
      if t.kind == Delete {
        AddDelete(t);
      } else if UsesHighPriority(t) {
        high.Append(t);
      } else if t.revalidationReplay {
        revalidation.Append(t);
      } else {
        download.Append(t);
      }
    }

    /** Delete preempts pending work for its model and is the only insertion at the front. */
    method AddDelete(t: Task)
      requires Valid()
      modifies high, download, revalidation, high.cells, download.cells, revalidation.cells
      ensures Valid() && closed == old(closed)
      ensures high.Tasks() == [t] + Keep(old(high.Tasks()), t)
      ensures download.Tasks() == Keep(old(download.Tasks()), t)
      ensures revalidation.Tasks() == Keep(old(revalidation.Tasks()), t)
    {
      high.RemoveSuperseded(t);
      download.RemoveSuperseded(t);
      revalidation.RemoveSuperseded(t);
      high.PushFront(t);
    }

    /** After the wait: `None` means closed and drained, or nothing to pop yet. */
    method TakeNormal() returns (t: Option<Task>)
      requires Valid()
      modifies download, revalidation
      ensures Valid() && t == PopNormal(old(Contents())).task && Contents() == PopNormal(old(Contents())).rest
      ensures old(download.Tasks()) != [] ==>
                t == Some(old(download.Tasks())[0]) && download.Tasks() == old(download.Tasks())[1..]
                  && revalidation.Tasks() == old(revalidation.Tasks())
      ensures old(download.Tasks()) == [] && old(revalidation.Tasks()) != [] ==>
                t == Some(old(revalidation.Tasks())[0]) && revalidation.Tasks() == old(revalidation.Tasks())[1..]
    {
      if download.count > 0 {
        var task := download.PopFront();
        return Some(task);
      }
      if revalidation.count > 0 {
        var task := revalidation.PopFront();
        return Some(task);
      }
      t := None;
    }

    method TakeHighPriority() returns (t: Option<Task>)
      requires Valid()
      modifies high
      ensures Valid() && t == PopHigh(old(Contents())).task && Contents() == PopHigh(old(Contents())).rest
      ensures old(high.Tasks()) != [] ==>
                t == Some(old(high.Tasks())[0]) && high.Tasks() == old(high.Tasks())[1..]
    {
      if high.count > 0 {
        var task := high.PopFront();
        return Some(task);
      }
      t := None;
    }

    method Close()
      requires Valid()
      modifies this`closed
      ensures Valid() && Contents() == old(Contents()).(closed := true)
    {
      closed := true;
    }

    method Length() returns (n: nat)
      requires Valid()
      ensures n == |Contents().high| + |Contents().download| + |Contents().revalidation|
    {
      n := high.count + download.count + revalidation.count;
    }
  }
}
