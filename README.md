# Task tracker: a verified model of the task store and its operations

This project models the core of a small command-line task tracker (`task-cli.py`).
The tracker keeps an ordered list of tasks, each with an id, a description, a status,
a creation timestamp and an `update_at` timestamp. It loads the list from a JSON file at
start-up and writes the whole list back after every change. Ids come from a counter that
counts up from the largest id found in the file.

Modules, one per part of the program:

- `Tasks` (`tasks.dfy`): the `Task` value and the constructor's defaults. A missing status
  becomes `"todo"` and a missing timestamp becomes the current time. `ToDict` is the record
  the file holds, and `FromDict` models `Task(**d)`.
- `Storage` (`storage.dfy`): the load logic as a function `Load` from an already parsed file
  (`Missing | Empty | Corrupt | Parsed(records)`) to the tasks, the counter and whether the
  corruption warning was shown. The class `Store` holds the tasks, the id counter and the
  last list written, with `set_id_counter`, `get_next_id` and `store_data`. The source keeps
  the counter as a class attribute of `Task`; here it is a field of the store.
- `Operations` (`operations.dfy`): one step function per mutating operation on the
  in-memory `State` (tasks and counter), the status filter, and the class `Cli`. Its methods
  perform an operation on the store, save when something changed, and return an `Outcome`
  or a `Listing` instead of printing a message.
- `Session` (`session.dfy`): successive mutating calls on one `Cli` object, as a sequence of
  commands, with what that implies for the ids they issue. The command-line entry point
  (task-cli.py:138-200) makes exactly one such call per process. Across processes, the id
  behaviour is a load followed by an add (`Operations.LoadThenAdd`,
  `Session.IdReissuedAfterRestart`).
- `Walkthrough` (`walkthrough.dfy`): a client that drives `Cli` through a typical sequence
  of calls (two adds, a status change, a filter, a delete, the listings, and opening an
  empty file and a corrupt file) using only the contracts.

Timestamps are opaque strings that the caller passes in. Nothing is assumed about their
order.

## Where the code differs from the intended behaviour

Each point names what the tracker is meant to do and what the code does. The model
follows the code:

- The timestamp field is meant to be `updated_at`. The code names it `update_at`.
- Ids are meant never to be reused. The code recomputes the counter from the largest
  id on each load (task-cli.py:52-53), so deleting the newest task and restarting issues
  its id again (`Session.IdReissuedAfterRestart`). Ids strictly increase only over
  successive calls on one `Cli` object (`Session.RunIssuesIncreasingIds`), and the
  command line makes one call per process. Across processes the guarantee is that the
  next id exceeds every id loaded from the file (`Operations.LoadThenAdd`).
- The counter is meant to become the largest id plus one. The code stores the largest
  id itself and adds one when it issues an id. Either way the next id is the largest plus
  one. After a missing, empty or corrupt file, or an empty list, the code leaves the
  counter at its start value of 0 (task-cli.py:8), so the next id is 1.
- Unknown keys in a stored record are meant to be ignored. `Task(**d)` raises on them
  and nothing catches that.
- The status is meant to be one of `todo`, `in-progress` and `done`. `change_status`
  stores any string it is given; only the command-line dispatcher limits it to
  `in-progress` and `done`, and its `mark-todo` entry cannot be reached.

## Model

| member | source | states |
|---|---|---|
| `Tasks.NewTask` | task-cli.py:10-15 | A supplied status or timestamp is kept as given. A missing status is "todo", and a missing timestamp is the current time. |
| `Tasks.ToDict` | task-cli.py:17-24 | All five keys are written. |
| `Tasks.FromDictToDict` | task-cli.py:10-24 | Rebuilding a task from its own record gives back the same task (id, description, status, both timestamps) at any clock reading. |
| `Tasks.ToDictFromDict` | task-cli.py:10-24 | Loading a record and writing it back reproduces it exactly when the record has every key. |
| `Tasks.FromDict` | task-cli.py:50 | Building a task from a stored record keeps its id and description, and a record with every key is exactly what saving that task writes back. |
| `Storage.Rebuild` | task-cli.py:50 | The loaded list has one task per record, in file order. Each keeps its record's id and description, and each complete record is what saving its task writes back. |
| `Storage.Records` | task-cli.py:64 | A save writes one record per task, in store order. Every record has all keys and carries its task's id. |
| `Storage.MaxId` | task-cli.py:53 | The result is at least every record's id and equals the id of some record. |
| `Storage.Load` | task-cli.py:44-60 | Only a corrupt file warns. A missing, empty or corrupt file gives no tasks. A parsed list is rebuilt in file order. A non-empty list sets the counter to an id that some task has and that no task exceeds. Otherwise the counter is unchanged. |
| `Storage.SaveThenLoad` | task-cli.py:44-64 | Loading what `store_data` wrote gives back the same tasks in the same order. |
| `Storage.LoadSaveLoad` | task-cli.py:44-64 | Load, save without a change, and load again gives the same tasks and counter, and the second load does not warn. |
| `Storage.Store.constructor` | task-cli.py:40-60 | The store starts with the tasks, counter and warning that `Load` gives from a counter of 0. Nothing has been written yet. The id invariant holds. |
| `Storage.Store.SetIdCounter` | task-cli.py:27-28 | The counter takes the given value. Nothing else changes. |
| `Storage.Store.NextId` | task-cli.py:31-33 | Returns the previous counter plus one. That is also the new counter. Nothing else changes. |
| `Storage.Store.StoreData` | task-cli.py:62-64 | The file holds the records of all tasks, in order. |
| `Operations.FirstIndex` | task-cli.py:90-91 | Returns the position of a task with the id, with no earlier task having it. Returns none exactly when no task has the id. |
| `Operations.WithStatus` | task-cli.py:128 | Returns only tasks from the store that have the status, and includes every task that has it. |
| `Operations.AddStep` | task-cli.py:82-87 | The counter goes up by one. One task is appended with that id, the description, status "todo" and both timestamps set to now. The earlier tasks are unchanged, and the outcome reports the new id. |
| `Operations.UpdateStep` | task-cli.py:89-97 | For a present id, only the first task with that id changes. It gets the new description and `update_at`, and keeps its id, status and `created_at`. For an absent id, nothing changes and the outcome is not-found. The counter never changes. |
| `Operations.ChangeStatusStep` | task-cli.py:108-116 | For a present id, only the first task with that id changes. It gets the new status and `update_at`, and keeps its id, description and `created_at`. For an absent id, nothing changes and the outcome is not-found. |
| `Operations.DeleteStep` | task-cli.py:99-106 | For a present id, the first task with that id is removed. The length drops by one and the tasks before and after it keep their positions in order. For an absent id, nothing changes and the outcome is not-found. |
| `Operations.DeleteKeepsOrder` | task-cli.py:99-105 | A successful delete leaves a subsequence of the old list. As a multiset, the old list equals the new one plus the removed task. |
| `Operations.RemoveAtIsSubsequence` | task-cli.py:102 | Removing one position leaves the other tasks in their original relative order. |
| `Operations.LoadThenAdd` | task-cli.py:52-53 | After loading a non-empty list, the next add issues an id greater than every loaded id. |
| `Operations.AddIssuesFreshId` | task-cli.py:82-85 | If no id exceeds the counter, the added task's id belongs to no earlier task, and afterwards still no id exceeds the counter. |
| `Operations.EditsKeepIdsAtMost` | task-cli.py:89-116 | Update, status change and delete keep every id at most the counter. |
| `Operations.WithStatusAppend` | task-cli.py:128 | Filtering a concatenation gives the concatenation of the filtered parts. Together with the one-task case, this fixes the filter's order. |
| `Operations.WithStatusIsSubsequence` | task-cli.py:128 | The filtered list is a subsequence of the store. |
| `Operations.WithStatusEmpty` | task-cli.py:128-132 | The filtered list is empty exactly when no task has the status. This includes an unrecognised status string. |
| `Operations.WithStatusCounts` | task-cli.py:128 | Each task with the status appears as often as in the store. Every other task is absent. |
| `Operations.Cli.constructor` | task-cli.py:68-69 | Opens a fresh store from the file, as `Storage.Store.constructor` describes. |
| `Operations.Cli.Find` | task-cli.py:90-91 | The loop returns the position of the first task with the id, or none. |
| `Operations.Cli.AddTask` | task-cli.py:82-87 | The store's new tasks, counter and outcome are those of `AddStep`. The list is saved and the id invariant is kept. Only the tasks, the counter and the saved list may change. |
| `Operations.Cli.UpdateTask` | task-cli.py:89-97 | The store and the outcome are those of `UpdateStep`. The list is saved on success and not saved when the id is not found. Only the tasks and the saved list may change. |
| `Operations.Cli.DeleteTask` | task-cli.py:99-106 | The store and the outcome are those of `DeleteStep`. The list is saved on success and not saved when the id is not found. Only the tasks and the saved list may change. |
| `Operations.Cli.ChangeStatus` | task-cli.py:108-116 | The store and the outcome are those of `ChangeStatusStep`. The list is saved on success and not saved when the id is not found. Only the tasks and the saved list may change. |
| `Operations.Cli.ShowTasks` | task-cli.py:118-125 | Shows the empty-state message exactly when the store is empty. Otherwise lists all tasks in store order. |
| `Operations.Cli.ShowTasksByFilter` | task-cli.py:127-136 | Shows the "no tasks with status" message exactly when no task has the status. Otherwise lists the filtered tasks. |
| `Session.Apply` | task-cli.py:82-116 | Only an add moves the counter, by exactly one, and it reports the new counter as its id. |
| `Session.RunIssuesIncreasingIds` | task-cli.py:31-33 | Over successive calls on one `Cli` object, the issued ids strictly increase, even with deletes in between. They lie above the starting counter and at most the final one, and the counter never goes down. |
| `Session.RunKeepsIdsAtMost` | task-cli.py:82-116 | From a state where no id exceeds the counter, any sequence of calls ends in such a state. |
| `Session.IssuedIdsAreFresh` | task-cli.py:83 | From that state, every id issued by a sequence of calls is greater than the id of every task present at the start. |
| `Session.IdReissuedAfterRestart` | task-cli.py:52-53 | Add a task to an empty store, delete it, save and reload. The next add reissues id 1. |

## Left out

- File and OS access (`os.path.exists`, `getsize`, `open`) and JSON encoding and decoding are not modelled. The file arrives as an already parsed `ParseResult`, and a save is a snapshot of the records in `Store.lastWrite`. A failing write is not modelled.
- Records the decoder accepts but building the tasks or taking the largest id rejects are not modelled. Examples are a JSON value that is not a list, a record without `id` or `description`, and an unknown key. The source does not catch these errors.
- An explicit null status is not modelled. The source accepts it and keeps it (task-cli.py:10,13): such a task lists as `[None]`, matches no status filter, and is written back as null. In the model, a `TaskRecord` status of `None` means the key is absent, which becomes "todo", and a `Task` status is always a string.
- `time.ctime()` is replaced by a `now` string parameter. Each operation uses one reading. The constructor reads the clock twice, so the source's `created_at` and `update_at` of a new task may differ by a second. Loading uses one reading for every record that lacks a timestamp.
- Tasks are values. The source changes a task object's fields in place. The model replaces the element at that position of the sequence. No other holder of a task exists, so this is the same.
- `main`, the `sys.argv` dispatch, `int()` parsing, the usage messages and `show_instructions` are not modelled. The special case of `list tasks` is also left out.
- The printed messages become `Outcome` and `Listing` values. The listing's formatting of each line is not modelled.
- The three identical search loops of `update_task`, `delete_task` and `change_status` are modelled once, as `Operations.Cli.Find`.
