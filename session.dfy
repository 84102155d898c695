/**
 * Successive mutating calls on one `Cli` object, as a sequence of commands
 * on the in-memory state, and what that says about the ids they issue. The
 * command-line entry point makes only one such call per process; across
 * processes the ids follow from a load and then an add (`LoadThenAdd`,
 * `IdReissuedAfterRestart`).
 */
module Session {
  import opened Tasks
  import opened Storage
  import opened Operations

  /** The four mutating operations, with the clock reading each one uses. */
  datatype Command =
    | Add(description: string, now: string)
    | Update(id: int, description: string, now: string)
    | Delete(id: int)
    | ChangeStatus(id: int, status: string, now: string)

  /** One command: only an add moves the counter, by one, and reports the new counter as its id. */
  function Apply(st: State, c: Command): (r: Step)
    ensures c.Add? ==> r.after.counter == st.counter + 1
    ensures !c.Add? ==> r.after.counter == st.counter
    ensures r.outcome.Added? <==> c.Add?
    ensures r.outcome.Added? ==> r.outcome.id == r.after.counter
  {
    match c
    case Add(d, now) => AddStep(st, d, now)
    case Update(id, d, now) => UpdateStep(st, id, d, now)
    case Delete(id) => DeleteStep(st, id)
    case ChangeStatus(id, s, now) => ChangeStatusStep(st, id, s, now)
  }

  /** The ids reported by the adds of a command, as a sequence of at most one. */
  function IssuedBy(s: Step): seq<int> {
    if s.outcome.Added? then [s.outcome.id] else []
  }

  /** Runs the commands in order; gives the final state and the ids the adds issued, in order. */
  function Run(st: State, cs: seq<Command>): (State, seq<int>)
    decreases |cs|
  {
    if cs == [] then (st, [])
    else
      var s := Apply(st, cs[0]);
      var rest := Run(s.after, cs[1..]);
      (rest.0, IssuedBy(s) + rest.1)
  }

  predicate StrictlyIncreasing(xs: seq<int>) {
    forall i, j :: 0 <= i < j < |xs| ==> xs[i] < xs[j]
  }

  /**
   * Over successive calls on one object, whatever updates and deletes come in
   * between, the issued ids strictly increase, all lie above the starting
   * counter, and the counter never goes down.
   */
  lemma {:induction false} RunIssuesIncreasingIds(st: State, cs: seq<Command>)
    ensures st.counter <= Run(st, cs).0.counter
    ensures StrictlyIncreasing(Run(st, cs).1)
    ensures forall x <- Run(st, cs).1 :: st.counter < x <= Run(st, cs).0.counter
    decreases |cs|
  {
    if cs != [] {
      var s := Apply(st, cs[0]);
      RunIssuesIncreasingIds(s.after, cs[1..]);
      var rest := Run(s.after, cs[1..]);
      var xs := Run(st, cs).1;
      assert xs == IssuedBy(s) + rest.1;
      if s.outcome.Added? {
        forall i, j | 0 <= i < j < |xs| ensures xs[i] < xs[j] {
          assert xs[j] == rest.1[j - 1] && rest.1[j - 1] in rest.1;
          if i > 0 {
            assert xs[i] == rest.1[i - 1];
          }
        }
      }
    }
  }

  /** The invariant of the store (no id above the counter) holds after any sequence of calls that starts in it. */
  lemma {:induction false} RunKeepsIdsAtMost(st: State, cs: seq<Command>)
    requires IdsAtMost(st.tasks, st.counter)
    ensures IdsAtMost(Run(st, cs).0.tasks, Run(st, cs).0.counter)
    decreases |cs|
  {
    if cs != [] {
      var s := Apply(st, cs[0]);
      match cs[0] {
        case Add(d, now) => AddIssuesFreshId(st, d, now);
        case Update(id, d, now) => EditsKeepIdsAtMost(st, id, d, "", now);
        case Delete(id) => EditsKeepIdsAtMost(st, id, "", "", "");
        case ChangeStatus(id, status, now) => EditsKeepIdsAtMost(st, id, "", status, now);
      }
      RunKeepsIdsAtMost(s.after, cs[1..]);
    }
  }

  /** Starting from the invariant, no id issued by a sequence of calls is the id of a task already in the store. */
  lemma IssuedIdsAreFresh(st: State, cs: seq<Command>)
    requires IdsAtMost(st.tasks, st.counter)
    ensures forall x <- Run(st, cs).1, t <- st.tasks :: t.id < x
  {
    RunIssuesIncreasingIds(st, cs);
  }

  /**
   * Ids are not unique across processes: add a task to an empty store, delete
   * it, save, and in the next process (a fresh counter of 0 and a reload) the
   * next add issues the same id again.
   */
  lemma IdReissuedAfterRestart(description: string, now: string, later: string)
    ensures var first := AddStep(State([], 0), description, now);
            var gone := DeleteStep(first.after, first.outcome.id);
            var reloaded := Load(Parsed(Records(gone.after.tasks)), 0, later);
            var again := AddStep(State(reloaded.tasks, reloaded.counter), description, later);
            gone.outcome == Deleted(1) && again.outcome == first.outcome
  {
  }
}

