/**
 * A client of the `Cli` class: a typical sequence of calls (add two tasks,
 * finish the first, filter, delete the second, list), and opening a
 * zero-byte and a corrupt file, proved from the contracts alone.
 */
module Walkthrough {
  import opened Tasks
  import opened Storage
  import opened Operations

  method BuyMilkAndWriteReport(t1: string, t2: string, t3: string)
  {
    var app := new Cli(Missing, t1);
    var milk := Task(1, "buy milk", Done, t1, t3);
    var report := Task(2, "write report", Todo, t2, t2);
    var o := app.AddTask("buy milk", t1);
    assert o == Added(1) && app.storage.tasks == [milk.(status := Todo, updateAt := t1)];
    o := app.AddTask("write report", t2);
    assert o == Added(2) && app.storage.tasks == [milk.(status := Todo, updateAt := t1), report];
    assert FirstIndex(app.storage.tasks, 1) == Some(0);
    o := app.ChangeStatus(1, Done, t3);
    assert o == StatusChanged(1, Done) && app.storage.tasks == [milk, report];
    var l := app.ShowTasksByFilter(Done);
    assert l == TasksWithStatus(Done, [milk]);
    assert FirstIndex(app.storage.tasks, 2) == Some(1);
    o := app.DeleteTask(2);
    assert o == Deleted(2) && app.storage.tasks == [milk];
    l := app.ShowTasks();
    assert l == AllTasks([milk]);
    l := app.ShowTasksByFilter("finished");
    assert l == NoTasksWithStatus("finished");
  }

  method OpenEmptyAndCorruptFiles(t1: string)
  {
    var empty := new Cli(Empty, t1);
    assert empty.storage.tasks == [] && !empty.storage.warned;
    var corrupt := new Cli(Corrupt, t1);
    assert corrupt.storage.tasks == [] && corrupt.storage.warned;
    var o := corrupt.AddTask("buy milk", t1);
    assert o == Added(1) && corrupt.storage.warned;
  }
}
