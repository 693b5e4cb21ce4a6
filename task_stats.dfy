/**
 * The statistics strip of components/TaskStats.tsx: counts by status and
 * priority, the completion rate and the four cards shown. The component
 * declares the statuses "pending", "in-progress" and "completed", while the
 * tasks it is given carry the stored statuses, whose finished state is
 * "done"; the counts below compare the stored names as the source does.
 */
module TaskStats {
  import opened Common
  import opened TaskModel

  predicate HasStatus(t: TaskView, name: string) {
    StatusName(t.status) == name
  }

  function StatusIs(name: string): TaskView -> bool {
    t => HasStatus(t, name)
  }

  predicate IsHigh(t: TaskView) {
    t.priority == High
  }

  /** `Math.round(completed / total * 100)` on exact arithmetic, and 0 without tasks. */
  function CompletionRate(completed: nat, total: nat): nat {
    if total > 0 then (200 * completed + total) / (2 * total) else 0
  }

  /** The rate is the percentage rounded half up: within half a point of the exact ratio,
      and between 0 and 100 when no more tasks are completed than there are. */
  lemma CompletionRateMeaning(completed: nat, total: nat)
    ensures total == 0 ==> CompletionRate(completed, total) == 0
    ensures total > 0 ==>
      var r := CompletionRate(completed, total);
      2 * r * total <= 200 * completed + total < 2 * r * total + 2 * total
    ensures completed <= total ==> CompletionRate(completed, total) <= 100
  {
    if total > 0 {
      var r := CompletionRate(completed, total);
      var n := 200 * completed + total;
      assert n == (2 * total) * r + n % (2 * total);
      MulMono(2 * total, 101, r);
      assert completed <= total ==> n < (2 * total) * 101;
    }
  }

  lemma MulMono(a: nat, x: int, y: int)
    ensures x <= y ==> a * x <= a * y
  {
  }

  datatype StatKind = TotalTasks | InProgressTasks | CompletedTasks | Rate

  /** A card: what it counts and the value shown, a number or a percentage text. */
  datatype Stat = Stat(kind: StatKind, value: Value)

  function Label(k: StatKind): string {
    match k
    case TotalTasks => "Total Tasks"
    case InProgressTasks => "In Progress"
    case CompletedTasks => "Completed"
    case Rate => "Completion Rate"
  }

  datatype Counts = Counts(total: nat, completed: nat, inProgress: nat, pending: nat, highPriority: nat)

  function CountsOf(tasks: seq<TaskView>): Counts {
    Counts(|tasks|, Count(StatusIs("completed"), tasks), Count(StatusIs("in-progress"), tasks),
           Count(StatusIs("pending"), tasks), Count(IsHigh, tasks))
  }

  /** The cards, in their fixed order. */
  function Stats(tasks: seq<TaskView>): seq<Stat> {
    var c := CountsOf(tasks);
    [Stat(TotalTasks, Num(c.total)),
     Stat(InProgressTasks, Num(c.inProgress)),
     Stat(CompletedTasks, Num(c.completed)),
     Stat(Rate, Str(NatToString(CompletionRate(c.completed, c.total)) + "%"))]
  }

  /** No stored status is named "completed", so the completed count and the rate are 0. */
  lemma CompletedNeverCounted(tasks: seq<TaskView>)
    ensures CountsOf(tasks).completed == 0
    ensures CompletionRate(CountsOf(tasks).completed, CountsOf(tasks).total) == 0
  {
    assert ParseStatus("completed") == None;
    NoneCounted(StatusIs("completed"), tasks);
  }

  lemma {:induction false} NoneCounted(p: TaskView -> bool, tasks: seq<TaskView>)
    requires forall t :: !p(t)
    ensures Count(p, tasks) == 0
  {
    if tasks != [] {
      NoneCounted(p, tasks[1..]);
    }
  }

  /** The three status counts together never exceed the total: in-progress and pending tasks
      are disjoint, and the completed count is 0. */
  lemma CountsBounded(tasks: seq<TaskView>)
    ensures var c := CountsOf(tasks);
      c.completed + c.inProgress + c.pending <= c.total && c.highPriority <= c.total
  {
    CompletedNeverCounted(tasks);
    DisjointCounts(tasks);
    CountNot(IsHigh, tasks);
  }

  lemma {:induction false} DisjointCounts(tasks: seq<TaskView>)
    ensures Count(StatusIs("in-progress"), tasks) + Count(StatusIs("pending"), tasks) <= |tasks|
  {
    if tasks != [] {
      DisjointCounts(tasks[1..]);
      assert |"in-progress"| != |"pending"|;
    }
  }

  /** Exactly four cards, in the order total, in progress, completed, rate, carrying the
      counts of the tasks. */
  lemma StatsShape(tasks: seq<TaskView>)
    ensures var s := Stats(tasks);
      && |s| == 4
      && s[0].kind == TotalTasks && s[1].kind == InProgressTasks
      && s[2].kind == CompletedTasks && s[3].kind == Rate
      && s[0].value == Num(|tasks|) && s[2].value == Num(0)
  {
    CompletedNeverCounted(tasks);
  }
}
