/**
 * The tracker's operations: add, update, delete, change status and the two
 * listings. Each mutating operation is specified by a step function on the
 * in-memory `State`; the `Cli` class performs it on the store and saves.
 * Printed messages become `Outcome` and `Listing` values.
 */
module Operations {
  import opened Tasks
  import opened Storage

  /** What a mutating operation reports. */
  datatype Outcome =
    | Added(id: int)
    | Updated(id: int)
    | Deleted(id: int)
    | StatusChanged(id: int, status: string)
    | NotFound(id: int)

  /** What a listing shows: an empty-state message or the tasks, in store order. */
  datatype Listing =
    | NoTasks
    | AllTasks(tasks: seq<Task>)
    | NoTasksWithStatus(status: string)
    | TasksWithStatus(status: string, tasks: seq<Task>)

  /** The state after an operation and what it reports. */
  datatype Step = Step(after: State, outcome: Outcome)

  /** The position of the first task with the given id, if any. */
  function FirstIndex(ts: seq<Task>, id: int): (r: Option<nat>)
    ensures r.Some? ==> r.value < |ts| && ts[r.value].id == id
    ensures r.Some? ==> forall j :: 0 <= j < r.value ==> ts[j].id != id
    ensures r.None? ==> forall j :: 0 <= j < |ts| ==> ts[j].id != id
  {
    if ts == [] then None
    else if ts[0].id == id then Some(0)
    else
      match FirstIndex(ts[1..], id)
      case None => None
      case Some(k) => Some(k + 1)
  }

  /** The tasks whose status equals the given string exactly, in store order (task-cli.py:128). */
  function WithStatus(ts: seq<Task>, status: string): (r: seq<Task>)
    ensures |r| <= |ts|
    ensures forall t <- r :: t in ts && t.status == status
    ensures forall t <- ts :: t.status == status ==> t in r
  {
    if ts == [] then []
    else if ts[0].status == status then [ts[0]] + WithStatus(ts[1..], status)
    else WithStatus(ts[1..], status)
  }

  /** `a` is `b` with some elements left out, the rest in the same order. */
  ghost predicate IsSubsequence(a: seq<Task>, b: seq<Task>)
    decreases |b|
  {
    a == [] ||
    (b != [] &&
     ((a[0] == b[0] && IsSubsequence(a[1..], b[1..])) || IsSubsequence(a, b[1..])))
  }

  /**
   * `add_task`: the counter moves up by one, and a task with that id, the
   * given description, status "todo" and both timestamps `now` is appended
   * behind the unchanged earlier tasks.
   */
  function AddStep(st: State, description: string, now: string): (r: Step)
    ensures r.outcome == Added(st.counter + 1)
    ensures r.after.counter == st.counter + 1
    ensures |r.after.tasks| == |st.tasks| + 1
    ensures r.after.tasks[..|st.tasks|] == st.tasks
    ensures r.after.tasks[|st.tasks|] == Task(st.counter + 1, description, Todo, now, now)
  {
    var id := st.counter + 1;
    Step(State(st.tasks + [NewTask(description, id, None, None, None, now)], id), Added(id))
  }

  /**
   * `update_task`: on a present id, only the first task with that id changes,
   * and only its description and `update_at`; otherwise nothing changes and
   * the outcome is not-found. The counter never changes.
   */
  function UpdateStep(st: State, id: int, description: string, now: string): (r: Step)
    ensures r.after.counter == st.counter
    ensures FirstIndex(st.tasks, id).None? ==> r == Step(st, NotFound(id))
    ensures FirstIndex(st.tasks, id).Some? ==>
      var k := FirstIndex(st.tasks, id).value;
      && r.outcome == Updated(id)
      && |r.after.tasks| == |st.tasks|
      && r.after.tasks[k] == Task(id, description, st.tasks[k].status, st.tasks[k].createdAt, now)
      && forall j :: 0 <= j < |st.tasks| && j != k ==> r.after.tasks[j] == st.tasks[j]
  {
    match FirstIndex(st.tasks, id)
    case None => Step(st, NotFound(id))
    case Some(k) =>
      var t := st.tasks[k];
      Step(State(st.tasks[k := t.(description := description, updateAt := now)], st.counter),
           Updated(id))
  }

  /**
   * `change_status`: on a present id, only the first task with that id
   * changes, and only its status and `update_at`; otherwise nothing changes
   * and the outcome is not-found. Any status string is stored as given.
   */
  function ChangeStatusStep(st: State, id: int, status: string, now: string): (r: Step)
    ensures r.after.counter == st.counter
    ensures FirstIndex(st.tasks, id).None? ==> r == Step(st, NotFound(id))
    ensures FirstIndex(st.tasks, id).Some? ==>
      var k := FirstIndex(st.tasks, id).value;
      && r.outcome == StatusChanged(id, status)
      && |r.after.tasks| == |st.tasks|
      && r.after.tasks[k] == Task(id, st.tasks[k].description, status, st.tasks[k].createdAt, now)
      && forall j :: 0 <= j < |st.tasks| && j != k ==> r.after.tasks[j] == st.tasks[j]
  {
    match FirstIndex(st.tasks, id)
    case None => Step(st, NotFound(id))
    case Some(k) =>
      var t := st.tasks[k];
      Step(State(st.tasks[k := t.(status := status, updateAt := now)], st.counter),
           StatusChanged(id, status))
  }

  /**
   * `delete_task`: on a present id, exactly the first task with that id is
   * removed and the others keep their order; otherwise nothing changes and
   * the outcome is not-found.
   */
  function DeleteStep(st: State, id: int): (r: Step)
    ensures r.after.counter == st.counter
    ensures FirstIndex(st.tasks, id).None? ==> r == Step(st, NotFound(id))
    ensures FirstIndex(st.tasks, id).Some? ==>
      var k := FirstIndex(st.tasks, id).value;
      && r.outcome == Deleted(id)
      && |r.after.tasks| == |st.tasks| - 1
      && (forall j :: 0 <= j < k ==> r.after.tasks[j] == st.tasks[j])
      && (forall j :: k <= j < |r.after.tasks| ==> r.after.tasks[j] == st.tasks[j + 1])
  {
    match FirstIndex(st.tasks, id)
    case None => Step(st, NotFound(id))
    case Some(k) => Step(State(st.tasks[..k] + st.tasks[k + 1..], st.counter), Deleted(id))
  }

  /** After a load, the next task added gets an id above every loaded id. */
  lemma LoadThenAdd(rs: seq<TaskRecord>, prior: int, now: string, description: string, later: string)
    requires rs != []
    ensures var l := Load(Parsed(rs), prior, now);
            var s := AddStep(State(l.tasks, l.counter), description, later);
            forall r <- rs :: r.id < s.outcome.id
  {
  }

  /** Adding keeps every id at most the counter, and the issued id is new. */
  lemma AddIssuesFreshId(st: State, description: string, now: string)
    requires IdsAtMost(st.tasks, st.counter)
    ensures var r := AddStep(st, description, now);
            IdsAtMost(r.after.tasks, r.after.counter) && forall t <- st.tasks :: t.id != r.outcome.id
  {
  }

  /** Update, status change and delete keep every id at most the counter. */
  lemma EditsKeepIdsAtMost(st: State, id: int, description: string, status: string, now: string)
    requires IdsAtMost(st.tasks, st.counter)
    ensures IdsAtMost(UpdateStep(st, id, description, now).after.tasks, st.counter)
    ensures IdsAtMost(ChangeStatusStep(st, id, status, now).after.tasks, st.counter)
    ensures IdsAtMost(DeleteStep(st, id).after.tasks, st.counter)
  {
  }

  /** Removing one position from a sequence leaves a subsequence of it. */
  lemma {:induction false} RemoveAtIsSubsequence(ts: seq<Task>, k: nat)
    requires k < |ts|
    ensures IsSubsequence(ts[..k] + ts[k + 1..], ts)
  {
    if k == 0 {
      assert ts[..k] + ts[k + 1..] == ts[1..];
      SubsequenceOfSelf(ts[1..]);
    } else {
      var a := ts[..k] + ts[k + 1..];
      RemoveAtIsSubsequence(ts[1..], k - 1);
      assert ts[1..][..k - 1] + ts[1..][k..] == a[1..];
      assert a[0] == ts[0];
    }
  }

  lemma {:induction false} SubsequenceOfSelf(ts: seq<Task>)
    ensures IsSubsequence(ts, ts)
    decreases |ts|
  {
    if ts != [] {
      SubsequenceOfSelf(ts[1..]);
    }
  }

  /** A delete that finds its task leaves the remaining tasks in their relative order. */
  lemma DeleteKeepsOrder(st: State, id: int)
    requires FirstIndex(st.tasks, id).Some?
    ensures IsSubsequence(DeleteStep(st, id).after.tasks, st.tasks)
    ensures multiset(DeleteStep(st, id).after.tasks) + multiset{st.tasks[FirstIndex(st.tasks, id).value]}
            == multiset(st.tasks)
  {
    var k := FirstIndex(st.tasks, id).value;
    RemoveAtIsSubsequence(st.tasks, k);
    assert st.tasks == st.tasks[..k] + [st.tasks[k]] + st.tasks[k + 1..];
  }

  /** Filtering distributes over concatenation: together with the one-task case this pins the filter down. */
  lemma {:induction false} WithStatusAppend(a: seq<Task>, b: seq<Task>, status: string)
    ensures WithStatus(a + b, status) == WithStatus(a, status) + WithStatus(b, status)
    decreases |a|
  {
    if a == [] {
      assert a + b == b;
    } else {
      assert (a + b)[1..] == a[1..] + b;
      WithStatusAppend(a[1..], b, status);
    }
  }

  /** The filtered list is a subsequence of the store: the matching tasks in original order. */
  lemma {:induction false} WithStatusIsSubsequence(ts: seq<Task>, status: string)
    ensures IsSubsequence(WithStatus(ts, status), ts)
    decreases |ts|
  {
    if ts != [] {
      WithStatusIsSubsequence(ts[1..], status);
    }
  }

  /** The filter is empty exactly when no task has the status, for an unknown status string too. */
  lemma WithStatusEmpty(ts: seq<Task>, status: string)
    ensures WithStatus(ts, status) == [] <==> forall t <- ts :: t.status != status
  {
  }

  /** The filter keeps every matching task as often as it occurs and drops the rest. */
  lemma {:induction false} WithStatusCounts(ts: seq<Task>, status: string, t: Task)
    ensures multiset(WithStatus(ts, status))[t] == if t.status == status then multiset(ts)[t] else 0
    decreases |ts|
  {
    if ts != [] {
      WithStatusCounts(ts[1..], status, t);
      assert ts == [ts[0]] + ts[1..];
    }
  }

  /**
   * The command-line front end's view of the store. The store holds the
   * state; each method performs one operation on it and saves when it
   * changes something.
   */
  class Cli {
    const storage: Store

    constructor (file: ParseResult, now: string)
      ensures fresh(storage) && storage.Valid()
      ensures storage.Current() == State(Load(file, 0, now).tasks, Load(file, 0, now).counter)
      ensures storage.warned == Load(file, 0, now).warned
      ensures storage.lastWrite == None
    {
      storage := new Store(file, now);
    }

    /**
     * The front-to-back search for a task with the id, stopping at the first
     * match; update, delete and change status each run it (task-cli.py:90-91,
     * 100-101, 109-110).
     */
    method Find(id: int) returns (k: Option<nat>)
      ensures k == FirstIndex(storage.tasks, id)
    {
      var i := 0;
      while i < |storage.tasks|
        invariant 0 <= i <= |storage.tasks|
        invariant forall j :: 0 <= j < i ==> storage.tasks[j].id != id
      {
        if storage.tasks[i].id == id {
          return Some(i);
        }
        i := i + 1;
      }
      return None;
    }

    method AddTask(description: string, now: string) returns (o: Outcome)
      requires storage.Valid()
      modifies storage`tasks, storage`idCounter, storage`lastWrite
      ensures storage.Valid()
      ensures Step(storage.Current(), o) == AddStep(old(storage.Current()), description, now)
      ensures storage.lastWrite == Some(Records(storage.tasks))
    {
      AddIssuesFreshId(storage.Current(), description, now);
      var newId := storage.NextId();
      var task := NewTask(description, newId, None, None, None, now);
      storage.tasks := storage.tasks + [task];
      storage.StoreData();
      o := Added(newId);
    }

    method UpdateTask(id: int, description: string, now: string) returns (o: Outcome)
      requires storage.Valid()
      modifies storage`tasks, storage`lastWrite
      ensures storage.Valid()
      ensures Step(storage.Current(), o) == UpdateStep(old(storage.Current()), id, description, now)
      ensures o.Updated? ==> storage.lastWrite == Some(Records(storage.tasks))
      ensures o.NotFound? ==> storage.lastWrite == old(storage.lastWrite)
    {
      EditsKeepIdsAtMost(storage.Current(), id, description, "", now);
      var k := Find(id);
      match k {
        case Some(i) =>
          var task := storage.tasks[i];
          storage.tasks := storage.tasks[i := task.(description := description, updateAt := now)];
          o := Updated(id);
          storage.StoreData();
        case None =>
          o := NotFound(id);
      }
    }

    method DeleteTask(id: int) returns (o: Outcome)
      requires storage.Valid()
      modifies storage`tasks, storage`lastWrite
      ensures storage.Valid()
      ensures Step(storage.Current(), o) == DeleteStep(old(storage.Current()), id)
      ensures o.Deleted? ==> storage.lastWrite == Some(Records(storage.tasks))
      ensures o.NotFound? ==> storage.lastWrite == old(storage.lastWrite)
    {
      EditsKeepIdsAtMost(storage.Current(), id, "", "", "");
      var k := Find(id);
      match k {
        case Some(i) =>
          storage.tasks := storage.tasks[..i] + storage.tasks[i + 1..];
          o := Deleted(id);
          storage.StoreData();
        case None =>
          o := NotFound(id);
      }
    }

    method ChangeStatus(id: int, status: string, now: string) returns (o: Outcome)
      requires storage.Valid()
      modifies storage`tasks, storage`lastWrite
      ensures storage.Valid()
      ensures Step(storage.Current(), o) == ChangeStatusStep(old(storage.Current()), id, status, now)
      ensures o.StatusChanged? ==> storage.lastWrite == Some(Records(storage.tasks))
      ensures o.NotFound? ==> storage.lastWrite == old(storage.lastWrite)
    {
      EditsKeepIdsAtMost(storage.Current(), id, "", status, now);
      var k := Find(id);
      match k {
        case Some(i) =>
          var task := storage.tasks[i];
          storage.tasks := storage.tasks[i := task.(status := status, updateAt := now)];
          o := StatusChanged(id, status);
          storage.StoreData();
        case None =>
          o := NotFound(id);
      }
    }

    /** Listing all tasks (task-cli.py:118-125): the empty-state message exactly when there are no tasks, else all of them in order. */
    method ShowTasks() returns (l: Listing)
      ensures l.NoTasks? <==> storage.tasks == []
      ensures !l.NoTasks? ==> l == AllTasks(storage.tasks)
    {
      if storage.tasks == [] {
        return NoTasks;
      }
      return AllTasks(storage.tasks);
    }

    /**
     * `show_tasks_by_filter`: the empty-state message exactly when no task has
     * the status (an unrecognised status included), else the matching tasks.
     */
    method ShowTasksByFilter(status: string) returns (l: Listing)
      ensures l.NoTasksWithStatus? <==> forall t <- storage.tasks :: t.status != status
      ensures l.NoTasksWithStatus? ==> l.status == status
      ensures !l.NoTasksWithStatus? ==> l == TasksWithStatus(status, WithStatus(storage.tasks, status))
    {
      var filtered := WithStatus(storage.tasks, status);
      WithStatusEmpty(storage.tasks, status);
      if filtered == [] {
        return NoTasksWithStatus(status);
      }
      return TasksWithStatus(status, filtered);
    }
  }
}
