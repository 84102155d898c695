/**
 * The task store: loading the database file (as an already parsed value),
 * the id counter, and the snapshot a save writes.
 */
module Storage {
  import opened Tasks

  /** What reading the database file can give. */
  datatype ParseResult =
    | Missing                            // no file
    | Empty                              // a file of size zero
    | Corrupt                            // the JSON decoder rejected it
    | Parsed(records: seq<TaskRecord>)   // a list of records, in file order

  /** The outcome of a load: the tasks, the id counter, and whether the corruption warning was shown. */
  datatype Loaded = Loaded(tasks: seq<Task>, counter: int, warned: bool)

  /** The tasks in memory together with the id counter. */
  datatype State = State(tasks: seq<Task>, counter: int)

  /** No task carries an id above `bound`: an id above it is fresh. */
  predicate IdsAtMost(ts: seq<Task>, bound: int) {
    forall t <- ts :: t.id <= bound
  }

  /**
   * The loaded list: one task per record, built in file order (task-cli.py:50).
   * Each task keeps its record's id and description, and a complete record is
   * exactly what saving its task writes back.
   */
  function Rebuild(rs: seq<TaskRecord>, now: string): (ts: seq<Task>)
    ensures |ts| == |rs|
    ensures forall i :: 0 <= i < |rs| ==> ts[i].id == rs[i].id && ts[i].description == rs[i].description
    ensures forall i :: 0 <= i < |rs| && Complete(rs[i]) ==> ToDict(ts[i]) == rs[i]
  {
    seq(|rs|, i requires 0 <= i < |rs| => FromDict(rs[i], now))
  }

  /**
   * What a save writes: the record of every task, in store order
   * (task-cli.py:64). Every record is complete and carries its task's id.
   */
  function Records(ts: seq<Task>): (rs: seq<TaskRecord>)
    ensures |rs| == |ts|
    ensures forall r <- rs :: Complete(r)
    ensures forall i :: 0 <= i < |ts| ==> rs[i].id == ts[i].id
  {
    seq(|ts|, i requires 0 <= i < |ts| => ToDict(ts[i]))
  }

  /** The largest id among the loaded records, which some record carries (task-cli.py:53). */
  function MaxId(rs: seq<TaskRecord>): (m: int)
    requires rs != []
    ensures forall r <- rs :: r.id <= m
    ensures exists r <- rs :: r.id == m
  {
    if |rs| == 1 then rs[0].id
    else
      var rest := MaxId(rs[1..]);
      assert forall r <- rs :: r == rs[0] || r in rs[1..];
      if rs[0].id >= rest then rs[0].id else rest
  }

  /**
   * The load logic. A missing, empty or corrupt file gives no tasks and leaves
   * the counter at `prior`; only a corrupt file warns. A parsed list is
   * rebuilt in file order, and a non-empty one sets the counter to its
   * largest id.
   */
  function Load(file: ParseResult, prior: int, now: string): (r: Loaded)
    ensures r.warned <==> file.Corrupt?
    ensures !file.Parsed? ==> r.tasks == []
    ensures file.Parsed? ==> |r.tasks| == |file.records|
    ensures file.Parsed? ==>
      forall i :: 0 <= i < |r.tasks| ==> r.tasks[i] == FromDict(file.records[i], now)
    ensures IdsAtMost(r.tasks, r.counter)
    ensures file.Parsed? && file.records != [] ==> exists t <- r.tasks :: t.id == r.counter
    ensures !(file.Parsed? && file.records != []) ==> r.counter == prior
  {
    match file
    case Missing => Loaded([], prior, false)
    case Empty => Loaded([], prior, false)
    case Corrupt => Loaded([], prior, true)
    case Parsed(rs) =>
      var ts := Rebuild(rs, now);
      if rs == [] then Loaded(ts, prior, false)
      else
        RebuildIdsUpToMax(rs, now);
        Loaded(ts, MaxId(rs), false)
  }

  /** The largest record id bounds every loaded task's id and is the id of one of them. */
  lemma RebuildIdsUpToMax(rs: seq<TaskRecord>, now: string)
    requires rs != []
    ensures IdsAtMost(Rebuild(rs, now), MaxId(rs))
    ensures exists t <- Rebuild(rs, now) :: t.id == MaxId(rs)
  {
  }

  /** Saving the tasks and loading the file back gives the same tasks, in the same order. */
  lemma SaveThenLoad(ts: seq<Task>, prior: int, now: string)
    ensures Load(Parsed(Records(ts)), prior, now).tasks == ts
  {
  }

  /**
   * Loading, saving without a change and loading again gives the same tasks
   * and the same counter, with no warning the second time.
   */
  lemma LoadSaveLoad(file: ParseResult, prior: int, now: string, later: string)
    ensures var first := Load(file, prior, now);
            var second := Load(Parsed(Records(first.tasks)), prior, later);
            second.tasks == first.tasks && second.counter == first.counter && !second.warned
  {
  }

  /**
   * The store: the tasks in file order, the id counter (the source keeps it
   * as a class attribute of `Task`), and the last list written to the file.
   */
  class Store {
    var tasks: seq<Task>
    var idCounter: int
    var warned: bool
    var lastWrite: Option<seq<TaskRecord>>

    /** Every id in the store is at most the counter, so the next issued id is fresh. */
    ghost predicate Valid()
      reads this
    {
      IdsAtMost(tasks, idCounter)
    }

    function Current(): State
      reads this
    {
      State(tasks, idCounter)
    }

    /** Opening the store: the counter starts at 0 and the file's branch decides the rest. */
    constructor (file: ParseResult, now: string)
      ensures Valid()
      ensures Current() == State(Load(file, 0, now).tasks, Load(file, 0, now).counter)
      ensures warned == Load(file, 0, now).warned
      ensures lastWrite == None
    {
      tasks := [];
      idCounter := 0;
      warned := false;
      lastWrite := None;
      new;
      match file {
        case Missing =>
        case Empty =>
        case Corrupt =>
          warned := true;
        case Parsed(rs) =>
          tasks := Rebuild(rs, now);
          if rs != [] {
            SetIdCounter(MaxId(rs));
          }
      }
    }

    /** Sets the id counter to the given value (task-cli.py:27-28). */
    method SetIdCounter(value: int)
      modifies this`idCounter
      ensures idCounter == value
    {
      idCounter := value;
    }

    /** Bumps the id counter and returns its new value (task-cli.py:31-33). */
    method NextId() returns (id: int)
      modifies this`idCounter
      ensures id == old(idCounter) + 1 && idCounter == id
    {
      idCounter := idCounter + 1;
      id := idCounter;
    }

    /** Saving: the file now holds the records of all tasks, in order (task-cli.py:62-64). */
    method StoreData()
      modifies this`lastWrite
      ensures lastWrite == Some(Records(tasks))
    {
      lastWrite := Some(Records(tasks));
    }
  }
}
