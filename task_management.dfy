/**
 * The drag-and-drop handler `onDragEnd` of the task board. The board shows
 * the tasks either as one list (a single droppable named "list") or as three
 * kanban columns (droppables named after the statuses). A drop copies the
 * task array, takes the dragged task out at the source index, and puts it back
 * at the destination index with its status set to the destination's
 * droppable id.
 *
 * Both indexes are used as positions in the whole array, as the handler does,
 * even though a kanban column numbers only its own tasks.
 */
module TaskBoard {
  import opened Wrappers

  /** A board task. The status is kept as the string the handler writes. */
  datatype Task = Task(id: string, content: string, status: string)

  /** A droppable and a position in it, as the drag-and-drop library reports them. */
  datatype Location = Location(droppableId: string, index: nat)

  /** The library's `DropResult`: no destination when the task was dropped outside every droppable. */
  datatype DropResult = DropResult(source: Location, destination: Option<Location>, draggableId: string)

  const Statuses: set<string> := {"todo", "inProgress", "done"}

  /** The board's tasks when it is first shown. */
  const InitialTasks: seq<Task> := [
    Task("1", "Create project proposal", "todo"),
    Task("2", "Review client feedback", "inProgress"),
    Task("3", "Finalize design mockups", "todo"),
    Task("4", "Update documentation", "done"),
    Task("5", "Schedule team meeting", "inProgress")]

  function Ids(ts: seq<Task>): (r: seq<string>)
    ensures |r| == |ts|
    ensures forall i :: 0 <= i < |ts| ==> r[i] == ts[i].id
  {
    seq(|ts|, i requires 0 <= i < |ts| => ts[i].id)
  }

  /** `ts` without its element at `k`. */
  function Without<T>(ts: seq<T>, k: nat): (r: seq<T>)
    requires k < |ts|
    ensures |r| == |ts| - 1
    ensures forall m :: 0 <= m < k ==> r[m] == ts[m]
    ensures forall m :: k <= m < |r| ==> r[m] == ts[m + 1]
  {
    ts[..k] + ts[k + 1..]
  }

  /** `ts` with `x` put in at position `p`. */
  function Insert<T>(ts: seq<T>, p: nat, x: T): (r: seq<T>)
    requires p <= |ts|
    ensures |r| == |ts| + 1
    ensures r[p] == x
    ensures forall m :: 0 <= m < p ==> r[m] == ts[m]
    ensures forall m :: p < m < |r| ==> r[m] == ts[m - 1]
  {
    ts[..p] + [x] + ts[p..]
  }

  /** Where `splice(index, 0, x)` inserts into a list of length `n`: past the end means at the end. */
  function InsertPosition(index: nat, n: nat): (p: nat)
    ensures p <= n
    ensures index <= n ==> p == index
  {
    if index < n then index else n
  }

  /**
   * The array after the two splices: the dragged task is taken out at
   * `source`, given the status `droppableId`, and inserted at `destination`.
   */
  function Reorder(tasks: seq<Task>, source: nat, destination: nat, droppableId: string): (r: seq<Task>)
    requires source < |tasks|
  {
    var rest := Without(tasks, source);
    Insert(rest, InsertPosition(destination, |rest|), tasks[source].(status := droppableId))
  }

  /** The handler's result on the current tasks. */
  function DragEnd(tasks: seq<Task>, result: DropResult): seq<Task>
    requires result.source.index < |tasks|
  {
    match result.destination
    case None => tasks
    case Some(dest) =>
      if dest.droppableId == result.source.droppableId && dest.index == result.source.index then tasks
      else Reorder(tasks, result.source.index, dest.index, dest.droppableId)
  }

  /**
   * `onDragEnd`: `Array.from(tasks)`, then `splice(source.index, 1)` and
   * `splice(destination.index, 0, moved)` on the copy. The array keeps its
   * length across the two splices, so each is a shift of the elements between
   * the two positions.
   */
  method OnDragEnd(tasks: seq<Task>, result: DropResult) returns (updated: seq<Task>)
    requires result.source.index < |tasks|
    ensures updated == DragEnd(tasks, result)
  {
    if result.destination.None? {
      return tasks;
    }
    var dest := result.destination.value;
    var source := result.source;
    if dest.droppableId == source.droppableId && dest.index == source.index {
      return tasks;
    }
    var p := InsertPosition(dest.index, |tasks| - 1);
    updated := MoveInCopy(tasks, source.index, p, tasks[source.index].(status := dest.droppableId));
  }

  /** The array work of `onDragEnd`: copy, take out at `k`, put `x` in at `p`. */
  method MoveInCopy(tasks: seq<Task>, k: nat, p: nat, x: Task) returns (updated: seq<Task>)
    requires k < |tasks| && p < |tasks|
    ensures updated == Insert(Without(tasks, k), p, x)
  {
    var n := |tasks|;
    var a := new Task[n](i requires 0 <= i < n => tasks[i]);
    assert a[..] == tasks;
    SpliceOut(a, k);
    SpliceIn(a, p, x);
    updated := a[..];
  }

  /** `splice(k, 1)` on an array whose length stays put: the elements after `k` move one place left. */
  method SpliceOut(a: array<Task>, k: nat)
    requires k < a.Length
    modifies a
    ensures a[..a.Length - 1] == Without(old(a[..]), k)
  {
    ghost var s := a[..];
    var i := k;
    while i < a.Length - 1
      invariant k <= i <= a.Length - 1
      invariant forall m :: 0 <= m < k ==> a[m] == s[m]
      invariant forall m :: k <= m < i ==> a[m] == s[m + 1]
      invariant forall m :: i <= m < a.Length ==> a[m] == s[m]
    {
      a[i] := a[i + 1];
      i := i + 1;
    }
  }

  /** `splice(p, 0, x)` into the first `a.Length - 1` elements: the elements from `p` move one place right. */
  method SpliceIn(a: array<Task>, p: nat, x: Task)
    requires p < a.Length
    modifies a
    ensures a[..] == Insert(old(a[..a.Length - 1]), p, x)
  {
    ghost var s := a[..a.Length - 1];
    var j := a.Length - 1;
    while j > p
      invariant p <= j <= a.Length - 1
      invariant forall m :: 0 <= m < j ==> a[m] == s[m]
      invariant forall m :: j < m < a.Length ==> a[m] == s[m - 1]
    {
      a[j] := a[j - 1];
      j := j - 1;
    }
    a[p] := x;
  }

  // ---- What a drop does to the list ----

  /** A drop outside every droppable, or back onto its own place, changes nothing. */
  lemma NoMoveUnchanged(tasks: seq<Task>, result: DropResult)
    requires result.source.index < |tasks|
    requires || result.destination.None?
             || result.destination == Some(result.source)
    ensures DragEnd(tasks, result) == tasks
  {
  }

  /**
   * Otherwise the list keeps its length and its ids, the moved task sits at
   * the destination (the end when the index is past it) with the new status
   * and its other fields, and the other tasks keep their relative order.
   */
  lemma ReorderSpec(tasks: seq<Task>, source: nat, destination: nat, droppableId: string)
    requires source < |tasks|
    ensures var r := Reorder(tasks, source, destination, droppableId);
            var p := InsertPosition(destination, |tasks| - 1);
            && |r| == |tasks|
            && r[p] == Task(tasks[source].id, tasks[source].content, droppableId)
            && Without(r, p) == Without(tasks, source)
  {
    var r := Reorder(tasks, source, destination, droppableId);
    var rest := Without(tasks, source);
    var p := InsertPosition(destination, |rest|);
    assert Without(r, p) == rest;
  }

  /** Taking an element out and putting `x` in anywhere swaps one occurrence for `x`. */
  lemma MoveMultiset<T>(l: seq<T>, k: nat, p: nat, x: T)
    requires k < |l| && p < |l|
    ensures multiset(Insert(Without(l, k), p, x)) == multiset(l) - multiset{l[k]} + multiset{x}
  {
    var rest := Without(l, k);
    assert l == l[..k] + [l[k]] + l[k + 1..];
    assert multiset(l) == multiset(l[..k]) + multiset{l[k]} + multiset(l[k + 1..]);
    assert multiset(rest) == multiset(l[..k]) + multiset(l[k + 1..]);
    assert multiset(l) - multiset{l[k]} == multiset(rest);
    assert rest == rest[..p] + rest[p..];
    assert multiset(rest) == multiset(rest[..p]) + multiset(rest[p..]);
    assert multiset(Insert(rest, p, x)) == multiset(rest[..p]) + multiset{x} + multiset(rest[p..]);
  }

  /** The ids after a drop are those before, counted with multiplicity. */
  lemma ReorderKeepsIds(tasks: seq<Task>, source: nat, destination: nat, droppableId: string)
    requires source < |tasks|
    ensures multiset(Ids(Reorder(tasks, source, destination, droppableId))) == multiset(Ids(tasks))
  {
    var rest := Without(tasks, source);
    var p := InsertPosition(destination, |rest|);
    var ids := Ids(tasks);
    assert Ids(Reorder(tasks, source, destination, droppableId)) == Insert(Without(ids, source), p, ids[source]);
    MoveMultiset(ids, source, p, ids[source]);
  }

  /** A drop back at its own index in another column only changes the task's status. */
  lemma SameIndexOnlyStatus(tasks: seq<Task>, source: nat, droppableId: string)
    requires source < |tasks|
    ensures Reorder(tasks, source, source, droppableId) == tasks[source := tasks[source].(status := droppableId)]
  {
    var r := Reorder(tasks, source, source, droppableId);
    var rest := Without(tasks, source);
    assert InsertPosition(source, |rest|) == source;
    assert rest[..source] == tasks[..source];
    assert rest[source..] == tasks[source + 1..];
  }

  // ---- The list view writes its droppable id as a status ----

  predicate ValidStatuses(ts: seq<Task>)
  {
    forall i :: 0 <= i < |ts| ==> ts[i].status in Statuses
  }

  /** In the list view every move sets the moved task's status to "list", which is no status. */
  lemma ListViewDropLosesStatus()
    ensures var r := DragEnd(InitialTasks, DropResult(Location("list", 0), Some(Location("list", 2)), "1"));
            ValidStatuses(InitialTasks) && r[2].id == "1" && r[2].status == "list" && !ValidStatuses(r)
  {
    var r := DragEnd(InitialTasks, DropResult(Location("list", 0), Some(Location("list", 2)), "1"));
    assert r[2] == Task("1", "Create project proposal", "list");
    assert "list" !in Statuses;
  }

  /** The evidently intended reorder: only a status column changes the status; a list move keeps it. */
  function ReorderKeepingStatus(tasks: seq<Task>, source: nat, destination: nat, droppableId: string): seq<Task>
    requires source < |tasks|
  {
    var status := if droppableId in Statuses then droppableId else tasks[source].status;
    Reorder(tasks, source, destination, status)
  }

  /** With it, every drop keeps all statuses valid, and a list move changes only positions. */
  lemma ReorderKeepingStatusValid(tasks: seq<Task>, source: nat, destination: nat, droppableId: string)
    requires source < |tasks| && ValidStatuses(tasks)
    ensures ValidStatuses(ReorderKeepingStatus(tasks, source, destination, droppableId))
    ensures droppableId !in Statuses ==>
              multiset(ReorderKeepingStatus(tasks, source, destination, droppableId)) == multiset(tasks)
  {
    var status := if droppableId in Statuses then droppableId else tasks[source].status;
    var r := Reorder(tasks, source, destination, status);
    var rest := Without(tasks, source);
    var p := InsertPosition(destination, |rest|);
    if droppableId !in Statuses {
      assert tasks[source].(status := status) == tasks[source];
      MoveMultiset(tasks, source, p, tasks[source]);
    }
  }
}
