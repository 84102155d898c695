/**
 * The task record of the tracker: a `Task` value, the defaults its
 * constructor fills in, and the dictionary form (`to_dict`) that is written
 * to and read back from the database file.
 */
module Tasks {

  datatype Option<T> = None | Some(value: T)

  /** The status every new task starts with, and the two the command line can set. */
  const Todo: string := "todo"
  const InProgress: string := "in-progress"
  const Done: string := "done"

  /**
   * A task. The last field keeps the source's own name, `update_at`
   * (not `updated_at`). Timestamps are opaque strings supplied by the caller.
   */
  datatype Task = Task(
    id: int,
    description: string,
    status: string,
    createdAt: string,
    updateAt: string)

  /**
   * One stored record, the keyword arguments of `Task(**d)`. `None` stands
   * for a key that is absent; for the two timestamps it also stands for a
   * stored null, which the constructor treats the same way.
   */
  datatype TaskRecord = TaskRecord(
    id: int,
    description: string,
    status: Option<string>,
    createdAt: Option<string>,
    updateAt: Option<string>)

  /** A record with every key present, as `to_dict` writes it. */
  predicate Complete(d: TaskRecord) {
    d.status.Some? && d.createdAt.Some? && d.updateAt.Some?
  }

  /**
   * The constructor: a supplied status or timestamp is kept as it is; a
   * missing status becomes "todo" and a missing timestamp the current time.
   */
  function NewTask(description: string, id: int, status: Option<string>,
                   createdAt: Option<string>, updateAt: Option<string>,
                   now: string): (t: Task)
    ensures t.id == id && t.description == description
    ensures status.Some? ==> t.status == status.value
    ensures status.None? ==> t.status == Todo
    ensures createdAt.Some? ==> t.createdAt == createdAt.value
    ensures createdAt.None? ==> t.createdAt == now
    ensures updateAt.Some? ==> t.updateAt == updateAt.value
    ensures updateAt.None? ==> t.updateAt == now
  {
    Task(id, description,
         match status case Some(s) => s case None => Todo,
         match createdAt case Some(c) => c case None => now,
         match updateAt case Some(u) => u case None => now)
  }

  /** `to_dict`: every one of the five keys is written. */
  function ToDict(t: Task): (d: TaskRecord)
    ensures Complete(d)
  {
    TaskRecord(t.id, t.description, Some(t.status), Some(t.createdAt), Some(t.updateAt))
  }

  /**
   * A task built from a stored record by passing its keys to the constructor
   * (task-cli.py:50); `now` is the clock reading for any missing timestamp.
   * The id and description are taken over, and a record with every key comes
   * back unchanged when written out again.
   */
  function FromDict(d: TaskRecord, now: string): (t: Task)
    ensures t.id == d.id && t.description == d.description
    ensures Complete(d) ==> ToDict(t) == d
  {
    NewTask(d.description, d.id, d.status, d.createdAt, d.updateAt, now)
  }

  /** Rebuilding a task from its own dictionary gives the task back, whatever the clock says. */
  lemma FromDictToDict(t: Task, now: string)
    ensures FromDict(ToDict(t), now) == t
  {
  }

  /** A record survives being loaded and written back exactly when it already had every key. */
  lemma ToDictFromDict(d: TaskRecord, now: string)
    ensures ToDict(FromDict(d, now)) == d <==> Complete(d)
  {
  }
}
