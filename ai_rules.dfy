/**
 * lib/ai.ts: the deterministic, rule-based assistant. `insightsForToday` picks up to
 * three focus tasks from title-sorted pools; `summarizeTasks` ranks the active tasks and
 * explains each pick; `chatReply` answers by keyword precedence and memoises its replies
 * for 30 seconds in a module-level map.
 */
module AiRules {
  import opened Common
  import opened TaskModel

  // ---------------------------------------------------------------------------
  // Shared helpers
  // ---------------------------------------------------------------------------

  /** `priorityRank`: high 3, medium 2, anything else 1. */
  function PriorityRank(p: Priority): (r: nat)
    ensures 1 <= r <= 3
    ensures r == 3 <==> p == High
    ensures r == 2 <==> p == Medium
  {
    if p == High then 3 else if p == Medium then 2 else 1
  }

  /** `daysBetween`: whole days from `d1` to `d2` once both are truncated to midnight.
      The source truncates the two `Date` objects in place; callers that pass the shared
      `today` thread that effect explicitly (see `Summarize`). */
  function DaysBetween(d1: Moment, d2: Moment): (r: int)
    ensures r == 0 <==> d1.day == d2.day
    ensures r > 0 <==> Before(Midnight(d1.day), Midnight(d2.day))
    ensures Midnight(d1.day + r) == Midnight(d2.day)
  {
    d2.day - d1.day
  }

  predicate IsHighActive(t: Snapshot) {
    t.priority == High && t.status != Done
  }

  // ---------------------------------------------------------------------------
  // insightsForToday
  // ---------------------------------------------------------------------------

  /** Overdue for the insights: the due day lies before today's midnight. */
  predicate IsOverdueOn(t: Snapshot, today: int) {
    t.dueDay.Some? && t.dueDay.value < today && t.status != Done
  }

  predicate IsDueToday(t: Snapshot, today: int) {
    t.dueDay == Some(today) && t.status != Done
  }

  predicate IsDueSoon(t: Snapshot, today: int) {
    t.dueDay.Some? && t.status != Done && 0 < t.dueDay.value - today <= 2
  }

  function OverduePool(today: int): Snapshot -> bool {
    t => IsOverdueOn(t, today)
  }

  function DueTodayPool(today: int): Snapshot -> bool {
    t => IsDueToday(t, today)
  }

  function DueSoonPool(today: int): Snapshot -> bool {
    t => IsDueSoon(t, today)
  }

  predicate TitleLe(a: Snapshot, b: Snapshot) {
    LexLe(a.title, b.title)
  }

  lemma TitleLeConnex()
    ensures Connex(TitleLe)
  {
    forall a: Snapshot, b: Snapshot ensures TitleLe(a, b) || TitleLe(b, a) {
      LexLeTotal(a.title, b.title);
    }
  }

  /** `sortByTitle`: a stable sort on titles. */
  function SortByTitle(s: seq<Snapshot>): (r: seq<Snapshot>)
    ensures multiset(r) == multiset(s)
    ensures AdjSorted(TitleLe, r)
  {
    TitleLeConnex();
    SortSorted(TitleLe, s);
    Sort(TitleLe, s)
  }

  /** The candidate pools in the order they are tried: overdue, due today, active high
      priority, due in one or two days, and finally every task, finished ones included. */
  function Pools(tasks: seq<Snapshot>, today: int): seq<seq<Snapshot>> {
    [ SortByTitle(Filter(OverduePool(today), tasks)),
      SortByTitle(Filter(DueTodayPool(today), tasks)),
      SortByTitle(Filter(IsHighActive, tasks)),
      SortByTitle(Filter(DueSoonPool(today), tasks)),
      SortByTitle(tasks) ]
  }

  /** The `chosen` list and the `seen` title set `addFrom` updates. */
  datatype Picked = Picked(chosen: seq<Snapshot>, seen: set<string>)

  /** One `addFrom` call: skip seen titles, take the others, stop once three are chosen. */
  function AddFrom(arr: seq<Snapshot>, p: Picked): Picked
    decreases |arr|
  {
    if arr == [] then p
    else if arr[0].title in p.seen then AddFrom(arr[1..], p)
    else
      var q := Picked(p.chosen + [arr[0]], p.seen + {arr[0].title});
      if |q.chosen| >= 3 then q else AddFrom(arr[1..], q)
  }

  /** The guarded `addFrom` calls over the pools: a pool is tried only while fewer than
      three tasks are chosen. */
  function AddFromPools(pools: seq<seq<Snapshot>>, p: Picked): Picked
    decreases |pools|
  {
    if pools == [] then p
    else AddFromPools(pools[1..], if |p.chosen| < 3 then AddFrom(pools[0], p) else p)
  }

  function Titles(s: seq<Snapshot>): set<string> {
    set i | 0 <= i < |s| :: s[i].title
  }

  predicate DistinctTitles(s: seq<Snapshot>) {
    forall i, j :: 0 <= i < j < |s| ==> s[i].title != s[j].title
  }

  /** What `chosen` and `seen` always satisfy. */
  predicate PickedOk(p: Picked) {
    p.seen == Titles(p.chosen) && DistinctTitles(p.chosen) && |p.chosen| <= 3
  }

  lemma TitlesPush(s: seq<Snapshot>, x: Snapshot)
    ensures Titles(s + [x]) == Titles(s) + {x.title}
  {
    var t := s + [x];
    assert forall i :: 0 <= i < |s| ==> t[i] == s[i];
    assert t[|s|] == x;
  }

  /** Taking a task with an unseen title keeps `chosen` and `seen` in step. */
  lemma PushOk(p: Picked, x: Snapshot)
    requires PickedOk(p) && |p.chosen| < 3 && x.title !in p.seen
    ensures PickedOk(Picked(p.chosen + [x], p.seen + {x.title}))
  {
    var c := p.chosen + [x];
    TitlesPush(p.chosen, x);
    forall i, j | 0 <= i < j < |c| ensures c[i].title != c[j].title {
      if j == |p.chosen| {
        assert c[i] == p.chosen[i];
        assert c[i].title in Titles(p.chosen);
      } else {
        assert c[i] == p.chosen[i] && c[j] == p.chosen[j];
      }
    }
  }

  /** `addFrom` keeps the titles distinct and `seen` in step with `chosen`, only appends
      elements of its pool, and leaves fewer than three chosen only after every title of
      the pool has been seen. */
  lemma {:induction false} AddFromKeeps(arr: seq<Snapshot>, p: Picked)
    requires PickedOk(p) && |p.chosen| < 3
    ensures var r := AddFrom(arr, p);
      && PickedOk(r)
      && |p.chosen| <= |r.chosen| && r.chosen[..|p.chosen|] == p.chosen
      && (forall i :: |p.chosen| <= i < |r.chosen| ==> r.chosen[i] in arr)
      && (|r.chosen| < 3 ==> forall x :: x in arr ==> x.title in r.seen)
      && p.seen <= r.seen
    decreases |arr|
  {
    if arr == [] {
    } else if arr[0].title in p.seen {
      AddFromKeeps(arr[1..], p);
      var r := AddFrom(arr[1..], p);
      forall i | |p.chosen| <= i < |r.chosen| ensures r.chosen[i] in arr {
        assert r.chosen[i] in arr[1..];
      }
    } else {
      var q := Picked(p.chosen + [arr[0]], p.seen + {arr[0].title});
      PushOk(p, arr[0]);
      assert q.chosen[..|p.chosen|] == p.chosen;
      if |q.chosen| < 3 {
        AddFromKeeps(arr[1..], q);
        var r := AddFrom(arr[1..], q);
        assert r.chosen[..|p.chosen|] == r.chosen[..|q.chosen|][..|p.chosen|];
        forall i | |p.chosen| <= i < |r.chosen| ensures r.chosen[i] in arr {
          if i == |p.chosen| {
            assert r.chosen[i] == r.chosen[..|q.chosen|][i];
          } else {
            assert r.chosen[i] in arr[1..];
          }
        }
      }
    }
  }

  lemma {:induction false} AddFromPoolsKeeps(pools: seq<seq<Snapshot>>, p: Picked)
    requires PickedOk(p)
    ensures var r := AddFromPools(pools, p);
      && PickedOk(r)
      && |p.chosen| <= |r.chosen| && r.chosen[..|p.chosen|] == p.chosen
      && (forall i :: |p.chosen| <= i < |r.chosen| ==> exists k :: 0 <= k < |pools| && r.chosen[i] in pools[k])
      && (|r.chosen| < 3 ==> forall k, x :: 0 <= k < |pools| && x in pools[k] ==> x.title in r.seen)
    decreases |pools|
  {
    if pools != [] {
      var q := if |p.chosen| < 3 then AddFrom(pools[0], p) else p;
      if |p.chosen| < 3 {
        AddFromKeeps(pools[0], p);
      }
      AddFromPoolsKeeps(pools[1..], q);
      var r := AddFromPools(pools[1..], q);
      assert r.chosen[..|p.chosen|] == r.chosen[..|q.chosen|][..|p.chosen|];
      forall i | |p.chosen| <= i < |r.chosen|
        ensures exists k :: 0 <= k < |pools| && r.chosen[i] in pools[k]
      {
        if i < |q.chosen| {
          assert r.chosen[i] == q.chosen[i];
          assert r.chosen[i] in pools[0];
        } else {
          var k :| 0 <= k < |pools[1..]| && r.chosen[i] in pools[1..][k];
          assert r.chosen[i] in pools[k + 1];
        }
      }
      if |r.chosen| < 3 {
        assert q.seen <= r.seen by {
          assert q.chosen == r.chosen[..|q.chosen|];
          forall x | x in q.seen ensures x in r.seen {
            var i :| 0 <= i < |q.chosen| && q.chosen[i].title == x;
            assert r.chosen[i] == q.chosen[i];
          }
        }
        forall k, x | 0 <= k < |pools| && x in pools[k] ensures x.title in r.seen {
          if k > 0 {
            assert x in pools[1..][k - 1];
          }
        }
      }
    }
  }

  /** The tasks `insightsForToday` chooses, in order. */
  function Chosen(tasks: seq<Snapshot>, today: int): seq<Snapshot> {
    AddFromPools(Pools(tasks, today), Picked([], {})).chosen
  }

  /** Why a focus task was picked, in precedence order. */
  datatype FocusReason = OverdueBy(days: nat) | DueToday | HighPriority | DueIn(days: nat) | Recommended

  function ReasonFor(t: Snapshot, today: int): (r: FocusReason)
    ensures r.OverdueBy? <==> t.dueDay.Some? && t.dueDay.value < today
    ensures r.OverdueBy? ==> r.days >= 1 && t.dueDay.value + r.days == today
    ensures r.DueToday? <==> t.dueDay == Some(today)
    ensures r.HighPriority? <==> t.priority == High && (t.dueDay.None? || t.dueDay.value > today)
    ensures r.DueIn? <==> t.priority != High && t.dueDay.Some? && today < t.dueDay.value <= today + 2
    ensures r.DueIn? ==> 1 <= r.days <= 2 && t.dueDay == Some(today + r.days)
    ensures r.Recommended? <==> t.priority != High && (t.dueDay.None? || t.dueDay.value > today + 2)
  {
    match t.dueDay
    case Some(d) =>
      if d < today then OverdueBy(today - d)
      else if d == today then DueToday
      else if t.priority == High then HighPriority
      else if d - today <= 2 then DueIn(d - today)
      else Recommended
    case None =>
      if t.priority == High then HighPriority else Recommended
  }

  const DaysSuffix: string := " day(s)"

  function ReasonText(r: FocusReason): string {
    match r
    case OverdueBy(n) => "Overdue by " + NatToString(n) + DaysSuffix
    case DueToday => "Due today"
    case HighPriority => "High priority"
    case DueIn(n) => "Due in " + NatToString(n) + DaysSuffix
    case Recommended => "Recommended for today"
  }

  datatype FocusTask = FocusTask(title: string, reason: string)

  datatype Insights = Insights(summary: string, focusTasks: seq<FocusTask>, warnings: seq<string>, productivityTip: string)

  const OverdueWarningText: string := "Overdue tasks exist"
  const TooManyHighText: string := "Too many high priority tasks"
  const DefaultTip: string := "Focus on 1-2 tasks today and make steady progress."
  const OverdueTip: string := "Address overdue tasks first or reschedule them."
  const HighTip: string := "Re-evaluate high-priority tasks; avoid overload."
  const NoActiveText: string := "No active tasks \U{2014} great job!"
  const InsightsOverdueTail: string := " overdue tasks. Focus on clearing or rescheduling them."
  const InsightsHighTail: string := " high-priority tasks. Aim to complete the most urgent."
  const ActiveTail: string := " active tasks. Prioritize by due date and priority."

  function InsightWarnings(overdue: nat, high: nat): (r: seq<string>)
    ensures OverdueWarningText in r <==> overdue > 0
    ensures TooManyHighText in r <==> high > 5
    ensures |r| <= 2
  {
    (if overdue > 0 then [OverdueWarningText] else []) + (if high > 5 then [TooManyHighText] else [])
  }

  function InsightTip(overdue: nat, high: nat): (r: string)
    ensures r == OverdueTip <==> overdue > 0
    ensures r == HighTip <==> overdue == 0 && high > 3
    ensures r == DefaultTip <==> overdue == 0 && high <= 3
  {
    if overdue > 0 then OverdueTip else if high > 3 then HighTip else DefaultTip
  }

  function InsightSummary(overdue: nat, high: nat, pending: nat): string {
    if overdue > 0 then "You have " + NatToString(overdue) + InsightsOverdueTail
    else if high > 0 then "You have " + NatToString(high) + InsightsHighTail
    else if pending == 0 then NoActiveText
    else "You have " + NatToString(pending) + ActiveTail
  }

  function FocusTasks(chosen: seq<Snapshot>, today: int): (r: seq<FocusTask>)
    ensures |r| == |chosen|
    ensures forall i :: 0 <= i < |r| ==> r[i].title == chosen[i].title
  {
    seq(|chosen|, i requires 0 <= i < |chosen| => FocusTask(chosen[i].title, ReasonText(ReasonFor(chosen[i], today))))
  }

  /** Reference definition of `insightsForToday`; only the day of `today` matters. */
  function InsightsFor(tasks: seq<Snapshot>, today: Moment): Insights {
    var t := today.day;
    var overdue := Count(OverduePool(t), tasks);
    var high := Count(IsHighActive, tasks);
    var pending := Count(IsActive, tasks);
    Insights(InsightSummary(overdue, high, pending), FocusTasks(Chosen(tasks, t), t),
             InsightWarnings(overdue, high), InsightTip(overdue, high))
  }

  /** The `chosen`/`seen` state the nested `addFrom` closure updates. */
  class FocusPicker {
    var chosen: seq<Snapshot>
    var seen: set<string>

    constructor ()
      ensures chosen == [] && seen == {}
    {
      chosen := [];
      seen := {};
    }

    /** `addFrom`: the loop with its `continue` and `break`. */
    method AddFromLoop(arr: seq<Snapshot>)
      modifies this
      ensures Picked(chosen, seen) == AddFrom(arr, old(Picked(chosen, seen)))
    {
      ghost var start := Picked(chosen, seen);
      var i := 0;
      while i < |arr|
        invariant 0 <= i <= |arr|
        invariant AddFrom(arr[i..], Picked(chosen, seen)) == AddFrom(arr, start)
        decreases |arr| - i
      {
        assert arr[i..][1..] == arr[i + 1..];
        var task := arr[i];
        if task.title in seen {
          i := i + 1;
          continue;
        }
        chosen := chosen + [task];
        seen := seen + {task.title};
        if |chosen| >= 3 {
          break;
        }
        i := i + 1;
      }
    }
  }

  /** `insightsForToday` as written: the five guarded `addFrom` calls, then the reasons,
      warnings, tip and summary. */
  method InsightsForToday(tasks: seq<Snapshot>, today: Moment) returns (r: Insights)
    ensures r == InsightsFor(tasks, today)
  {
    var t := today.day;
    var pools: seq<seq<Snapshot>> := Pools(tasks, t);
    var picker := new FocusPicker();
    var k := 0;
    while k < |pools|
      invariant 0 <= k <= |pools|
      invariant AddFromPools(pools[k..], Picked(picker.chosen, picker.seen)) == AddFromPools(pools, Picked([], {}))
    {
      assert pools[k..][1..] == pools[k + 1..];
      if |picker.chosen| < 3 {
        picker.AddFromLoop(pools[k]);
      }
      k := k + 1;
    }
    var chosen := picker.chosen;
    var focus := FocusTasks(chosen[..if |chosen| < 3 then |chosen| else 3], t);
    assert chosen == Chosen(tasks, t);
    AddFromPoolsKeeps(pools, Picked([], {}));
    assert chosen[..if |chosen| < 3 then |chosen| else 3] == chosen;
    var overdue := Count(OverduePool(t), tasks);
    var high := Count(IsHighActive, tasks);
    var pending := Count(IsActive, tasks);
    r := Insights(InsightSummary(overdue, high, pending), focus,
                  InsightWarnings(overdue, high), InsightTip(overdue, high));
  }

  /** At most three focus tasks, with pairwise distinct titles, each naming a task of the
      input; fewer than three only when every title of the input is already among them. */
  lemma InsightsFocusProperties(tasks: seq<Snapshot>, today: Moment)
    ensures var f := InsightsFor(tasks, today).focusTasks;
      && |f| <= 3
      && (forall i, j :: 0 <= i < j < |f| ==> f[i].title != f[j].title)
      && (forall i :: 0 <= i < |f| ==> exists x :: x in tasks && x.title == f[i].title)
      && (|f| < 3 ==> forall x :: x in tasks ==> exists i :: 0 <= i < |f| && f[i].title == x.title)
  {
    var t := today.day;
    ChosenProperties(tasks, t);
    var c := Chosen(tasks, t);
    var f := FocusTasks(c, t);
    assert InsightsFor(tasks, today).focusTasks == f;
    assert forall i :: 0 <= i < |f| ==> f[i].title == c[i].title;
  }

  /** The same, of the chosen tasks themselves. */
  lemma ChosenProperties(tasks: seq<Snapshot>, t: int)
    ensures var c := Chosen(tasks, t);
      && |c| <= 3
      && (forall i, j :: 0 <= i < j < |c| ==> c[i].title != c[j].title)
      && (forall i :: 0 <= i < |c| ==> c[i] in tasks)
      && (|c| < 3 ==> forall x :: x in tasks ==> exists i :: 0 <= i < |c| && c[i].title == x.title)
  {
    AddFromPoolsKeeps(Pools(tasks, t), Picked([], {}));
    ChosenFromInput(tasks, t);
    ChosenCoversAll(tasks, t);
  }

  lemma ChosenFromInput(tasks: seq<Snapshot>, t: int)
    ensures var c := Chosen(tasks, t);
      forall i :: 0 <= i < |c| ==> c[i] in tasks
  {
    var pools: seq<seq<Snapshot>> := Pools(tasks, t);
    AddFromPoolsKeeps(pools, Picked([], {}));
    var c := Chosen(tasks, t);
    forall i | 0 <= i < |c| ensures c[i] in tasks {
      var k :| 0 <= k < |pools| && c[i] in pools[k];
      PoolMember(tasks, t, k, c[i]);
    }
  }

  lemma ChosenCoversAll(tasks: seq<Snapshot>, t: int)
    ensures var c := Chosen(tasks, t);
      |c| < 3 ==> forall x :: x in tasks ==> exists i :: 0 <= i < |c| && c[i].title == x.title
  {
    var pools: seq<seq<Snapshot>> := Pools(tasks, t);
    AddFromPoolsKeeps(pools, Picked([], {}));
    var c := Chosen(tasks, t);
    if |c| < 3 {
      forall x | x in tasks ensures exists i :: 0 <= i < |c| && c[i].title == x.title {
        assert x in multiset(pools[4]);
        assert x.title in Titles(c);
      }
    }
  }

  lemma PoolMember(tasks: seq<Snapshot>, today: int, k: nat, x: Snapshot)
    requires k < 5 && x in Pools(tasks, today)[k]
    ensures x in tasks
  {
    var pools: seq<seq<Snapshot>> := Pools(tasks, today);
    assert x in multiset(pools[k]);
    if k == 0 { FilterMembers(OverduePool(today), tasks); }
    else if k == 1 { FilterMembers(DueTodayPool(today), tasks); }
    else if k == 2 { FilterMembers(IsHighActive, tasks); }
    else if k == 3 { FilterMembers(DueSoonPool(today), tasks); }
  }

  /** When an active task is overdue, the first focus task is the overdue task whose title
      sorts first, and its reason says by how many days it is overdue. */
  lemma OverdueComesFirst(tasks: seq<Snapshot>, t: int)
    requires exists x :: x in tasks && IsOverdueOn(x, t)
    ensures var c := Chosen(tasks, t);
      && |c| >= 1 && c[0] in tasks && IsOverdueOn(c[0], t)
      && FocusTasks(c, t)[0] == FocusTask(c[0].title, ReasonText(OverdueBy(t - c[0].dueDay.value)))
  {
    OverdueLeads(tasks, t);
    FirstFocusTask(Chosen(tasks, t), t);
  }

  /** The focus entry of an overdue chosen task says by how much it is overdue. */
  lemma FirstFocusTask(c: seq<Snapshot>, t: int)
    requires |c| >= 1 && IsOverdueOn(c[0], t)
    ensures FocusTasks(c, t)[0] == FocusTask(c[0].title, ReasonText(OverdueBy(t - c[0].dueDay.value)))
  {
    var r := ReasonFor(c[0], t);
    assert r.OverdueBy? && r.days == t - c[0].dueDay.value;
  }

  /** With an overdue active task, the first task chosen is overdue. */
  lemma OverdueLeads(tasks: seq<Snapshot>, t: int)
    requires exists x :: x in tasks && IsOverdueOn(x, t)
    ensures var c := Chosen(tasks, t);
      |c| >= 1 && c[0] in tasks && IsOverdueOn(c[0], t)
  {
    var pools: seq<seq<Snapshot>> := Pools(tasks, t);
    assert pools[0] != [] && pools[0][0] in tasks && IsOverdueOn(pools[0][0], t) by {
      var w :| w in tasks && IsOverdueOn(w, t);
      FilterMembers(OverduePool(t), tasks);
      assert w in multiset(pools[0]);
      assert pools[0][0] in multiset(pools[0]);
    }
    FirstPoolLeads(pools);
  }

  /** A non-empty first pool supplies the first chosen task. */
  lemma FirstPoolLeads(pools: seq<seq<Snapshot>>)
    requires pools != [] && pools[0] != []
    ensures var c := AddFromPools(pools, Picked([], {})).chosen;
      |c| >= 1 && c[0] == pools[0][0]
  {
    var first := pools[0][0];
    var q := Picked([first], {first.title});
    var p0 := AddFrom(pools[0], Picked([], {}));
    assert [] + [first] == [first];
    assert {} + {first.title} == {first.title};
    assert p0 == AddFrom(pools[0][1..], q);
    TitlesPush([], first);
    assert PickedOk(q);
    AddFromKeeps(pools[0][1..], q);
    assert p0.chosen[..1] == [first];
    AddFromPoolsKeeps(pools[1..], p0);
    var r := AddFromPools(pools[1..], p0);
    assert r.chosen[..|p0.chosen|] == p0.chosen;
    assert r.chosen[0] == r.chosen[..|p0.chosen|][0];
  }

  /** The summary says "No active tasks — great job!" exactly when no task is active:
      an overdue or high-priority count is never above the active count. */
  lemma InsightsGreatJob(tasks: seq<Snapshot>, today: Moment)
    ensures InsightsFor(tasks, today).summary == NoActiveText <==> Count(IsActive, tasks) == 0
  {
    var t := today.day;
    CountMono(OverduePool(t), IsActive, tasks);
    CountMono(IsHighActive, IsActive, tasks);
    var o := Count(OverduePool(t), tasks);
    var h := Count(IsHighActive, tasks);
    var p := Count(IsActive, tasks);
    if o > 0 {
      assert InsightSummary(o, h, p)[0] == 'Y';
    } else if h > 0 {
      assert InsightSummary(o, h, p)[0] == 'Y';
    } else if p > 0 {
      assert InsightSummary(o, h, p)[0] == 'Y';
    }
  }

  // ---------------------------------------------------------------------------
  // summarizeTasks
  // ---------------------------------------------------------------------------

  /** Overdue for `summarizeTasks` and `chatReply`: the due date's midnight lies before the
      full `now` instant, so after midnight a task due today already counts. */
  predicate IsOverdueAt(t: Snapshot, now: Moment) {
    t.dueDay.Some? && Before(Midnight(t.dueDay.value), now) && t.status != Done
  }

  function OverdueAtPool(now: Moment): Snapshot -> bool {
    t => IsOverdueAt(t, now)
  }

  /** The quirk in numbers: a task due today is overdue at any instant after midnight,
      while `insightsForToday` does not count it. */
  lemma DueTodayOverdueAfterMidnight(t: Snapshot, now: Moment)
    requires t.dueDay == Some(now.day) && t.status != Done && now.time > 0
    ensures IsOverdueAt(t, now) && !IsOverdueOn(t, now.day)
  {
  }

  /** Sign of a comparison of two due days, an absent one counting as +infinity. */
  function DueCmp(a: Option<int>, b: Option<int>): int {
    match (a, b)
    case (None, None) => 0
    case (None, Some(_)) => 1
    case (Some(_), None) => -1
    case (Some(x), Some(y)) => if x < y then -1 else if x > y then 1 else 0
  }

  /** Sign of a comparison of two creation instants; a missing one parses to an invalid
      date, the difference is NaN, and the sort treats it as a tie. */
  function CreatedCmp(a: Option<Moment>, b: Option<Moment>): int {
    match (a, b)
    case (Some(x), Some(y)) => if Before(x, y) then -1 else if Before(y, x) then 1 else 0
    case _ => 0
  }

  /** The sign of `summarizeTasks`' comparator: higher rank first, then the earlier due
      date, then the earlier creation. */
  function FocusCmp(a: Snapshot, b: Snapshot): int {
    if a.priority != b.priority then
      (if PriorityRank(b.priority) < PriorityRank(a.priority) then -1 else 1)
    else if DueCmp(a.dueDay, b.dueDay) != 0 then DueCmp(a.dueDay, b.dueDay)
    else CreatedCmp(a.createdAt, b.createdAt)
  }

  predicate FocusLe(a: Snapshot, b: Snapshot) {
    FocusCmp(a, b) <= 0
  }

  lemma FocusCmpFlip(a: Snapshot, b: Snapshot)
    ensures FocusCmp(b, a) == -FocusCmp(a, b)
  {
    if a.priority == b.priority && DueCmp(a.dueDay, b.dueDay) == 0 {
      if a.createdAt.Some? && b.createdAt.Some? {
        var x, y := a.createdAt.value, b.createdAt.value;
        assert !(Before(x, y) && Before(y, x));
      }
    }
  }

  lemma FocusLeConnex()
    ensures Connex(FocusLe)
  {
    forall a: Snapshot, b: Snapshot ensures FocusLe(a, b) || FocusLe(b, a) {
      FocusCmpFlip(a, b);
    }
  }

  /** What `FocusLe(a, b)` means, stated without the comparator. */
  lemma {:induction false} FocusLeMeaning(a: Snapshot, b: Snapshot)
    ensures FocusLe(a, b) <==>
      PriorityRank(a.priority) > PriorityRank(b.priority)
      || (a.priority == b.priority && a.dueDay.Some? && (b.dueDay.None? || a.dueDay.value < b.dueDay.value))
      || (a.priority == b.priority && a.dueDay == b.dueDay
          && !(a.createdAt.Some? && b.createdAt.Some? && Before(b.createdAt.value, a.createdAt.value)))
  {
    if a.priority != b.priority {
      assert PriorityRank(a.priority) != PriorityRank(b.priority);
    } else if DueCmp(a.dueDay, b.dueDay) == 0 {
      assert a.dueDay == b.dueDay;
      if a.createdAt.Some? && b.createdAt.Some? {
        var x, y := a.createdAt.value, b.createdAt.value;
        assert !(Before(x, y) && Before(y, x));
      }
    }
  }

  /** The three active tasks `summarizeTasks` puts first. */
  function TopPending(tasks: seq<Snapshot>): (r: seq<Snapshot>)
    ensures |r| == Min(3, Count(IsActive, tasks))
  {
    var sorted := Sort(FocusLe, Filter(IsActive, tasks));
    sorted[..Min(3, |sorted|)]
  }

  /** The picks are active tasks of the input, each `FocusLe` its successor. */
  lemma TopPendingActiveSorted(tasks: seq<Snapshot>)
    ensures var r := TopPending(tasks);
      && (forall i :: 0 <= i < |r| ==> r[i] in tasks && IsActive(r[i]))
      && AdjSorted(FocusLe, r)
  {
    var pending := Filter(IsActive, tasks);
    var sorted := Sort(FocusLe, pending);
    FocusLeConnex();
    SortSorted(FocusLe, pending);
    FilterMembers(IsActive, tasks);
    var r := TopPending(tasks);
    forall i | 0 <= i < |r| ensures r[i] in tasks && IsActive(r[i]) {
      assert r[i] == sorted[i];
      assert sorted[i] in multiset(sorted);
    }
  }

  datatype FocusPick = FocusPick(id: Option<string>, title: string, reason: string)
  datatype OverdueNote = OverdueNote(id: Option<string>, title: string, daysOverdue: int)
  datatype TaskSummary = TaskSummary(
    summary: string,
    priorities: seq<FocusPick>,
    overdue: Option<seq<OverdueNote>>,
    tooManyHighPriority: Option<nat>,
    productivityTips: seq<string>)

  const TooManyHighMessage: string :=
    "You have many high-priority tasks. Consider lowering some priorities or rescheduling."
  const StillExistsReason: string := "Task still exists in your list"
  const HighReason: string := "marked high priority"
  const OverdueReason: string := "overdue"
  const DueSoonReason: string := "due soon"
  const GoodNextTask: string := "Good next task"

  /** `tasks.find` on the id: the first task whose id equals `id` (two missing ids are equal). */
  function FindById(tasks: seq<Snapshot>, id: Option<string>): (r: Option<Snapshot>)
    ensures r.Some? <==> exists i :: 0 <= i < |tasks| && tasks[i].id == id
    ensures r.Some? ==> r.value in tasks && r.value.id == id
  {
    if tasks == [] then None
    else if tasks[0].id == id then Some(tasks[0])
    else
      var r := FindById(tasks[1..], id);
      assert forall i :: 1 <= i < |tasks| ==> tasks[i] == tasks[1..][i - 1];
      r
  }

  /** `find` returns the FIRST task with the id: none before it has that id. */
  lemma {:induction false} FindByIdIsFirst(tasks: seq<Snapshot>, id: Option<string>)
    ensures var r := FindById(tasks, id);
      r.Some? ==> exists i :: 0 <= i < |tasks| && r.value == tasks[i] &&
                    (forall j :: 0 <= j < i ==> tasks[j].id != id)
  {
    if tasks != [] && tasks[0].id != id {
      FindByIdIsFirst(tasks[1..], id);
      var r := FindById(tasks[1..], id);
      if r.Some? {
        var i :| 0 <= i < |tasks[1..]| && r.value == tasks[1..][i] &&
                 (forall j :: 0 <= j < i ==> tasks[1..][j].id != id);
        assert r.value == tasks[i + 1];
        assert forall j :: 0 <= j < i + 1 ==> tasks[j].id != id by {
          forall j | 0 < j < i + 1 ensures tasks[j].id != id {
            assert tasks[j] == tasks[1..][j - 1];
          }
        }
      }
    }
  }

  /** The reasons for one found task, and `today` afterwards: `daysBetween` truncates it. */
  datatype Reasoned = Reasoned(reasons: seq<string>, now: Moment)

  function ReasonsFor(t: Snapshot, now: Moment): Reasoned {
    var high := if t.priority == High then [HighReason] else [];
    match t.dueDay
    case None => Reasoned(high, now)
    case Some(d) =>
      var late := if Before(Midnight(d), now) then [OverdueReason] else [];
      var days := DaysBetween(Midnight(d), now);
      var soon := if days <= 2 && t.status != Done then [DueSoonReason] else [];
      Reasoned(high + late + soon, Midnight(now.day))
  }

  /** Which reasons a found task gets, and what its lookup does to `today`. In particular
      every active task due in the future is "due soon". */
  lemma ReasonsForMeaning(t: Snapshot, now: Moment)
    ensures var r := ReasonsFor(t, now);
      && (HighReason in r.reasons <==> t.priority == High)
      && (OverdueReason in r.reasons <==> t.dueDay.Some? && Before(Midnight(t.dueDay.value), now))
      && (DueSoonReason in r.reasons <==> t.dueDay.Some? && now.day - t.dueDay.value <= 2 && t.status != Done)
      && (r.now == if t.dueDay.Some? then Midnight(now.day) else now)
  {
  }

  /** `reasons.join(", ") || "Good next task"`. */
  function ReasonLine(reasons: seq<string>): string {
    var line := Join(reasons, ", ");
    if line == "" then GoodNextTask else line
  }

  /** The reasons of each pick, threading the `today` the lookups truncate. */
  function PicksWithReasons(top: seq<Snapshot>, tasks: seq<Snapshot>, now: Moment): seq<FocusPick>
    decreases |top|
  {
    if top == [] then []
    else
      var found := FindById(tasks, top[0].id);
      var step := if found.None? then Reasoned([StillExistsReason], now) else ReasonsFor(found.value, now);
      [FocusPick(top[0].id, top[0].title, ReasonLine(step.reasons))] + PicksWithReasons(top[1..], tasks, step.now)
  }

  function OverdueNotes(overdue: seq<Snapshot>, day: int): (r: seq<OverdueNote>)
    ensures |r| == |overdue|
  {
    if overdue == [] then []
    else
      var t := overdue[0];
      [OverdueNote(t.id, t.title, if t.dueDay.Some? then day - t.dueDay.value else 0)]
      + OverdueNotes(overdue[1..], day)
  }

  const SummaryOverdueTail: string := " overdue task(s). Focus on overdue and high-priority items this week."
  const SummaryHighTail: string := " high-priority tasks. Start with the most urgent ones."
  const SummaryActiveTail: string := " active task(s). Prioritize by due date and priority."

  /** `buildSummary`. */
  function BuildSummary(overdue: nat, high: nat, pending: nat): string {
    if overdue > 0 then "You have " + NatToString(overdue) + SummaryOverdueTail
    else if high > 0 then "You have " + NatToString(high) + SummaryHighTail
    else if pending == 0 then NoActiveText
    else "You have " + NatToString(pending) + SummaryActiveTail
  }

  const RescheduleTip: string := "Reschedule or split overdue tasks into smaller chunks."
  const ManyHighTip: string := "You have many high-priority tasks; re-evaluate and lower priority where possible."
  const FocusTip: string := "Focus on 2-3 tasks per day to avoid context-switching."
  const MomentumTip: string := "Maintain the momentum: pick one meaningful task and finish it."

  /** The tips `generateTips` pushes, in order. */
  function TipsFor(overdue: nat, high: nat, pending: nat): (r: seq<string>)
    ensures 1 <= |r| <= 3
    ensures RescheduleTip in r <==> overdue > 0
    ensures ManyHighTip in r <==> high > 3
    ensures FocusTip in r <==> pending > 5
    ensures r == [MomentumTip] <==> overdue == 0 && high <= 3 && pending <= 5
  {
    var tips := (if overdue > 0 then [RescheduleTip] else [])
      + (if high > 3 then [ManyHighTip] else [])
      + (if pending > 5 then [FocusTip] else []);
    if tips == [] then [MomentumTip] else tips
  }

  /** `generateTips` as written: conditional pushes and the default. */
  method GenerateTips(overdue: nat, high: nat, pending: nat) returns (tips: seq<string>)
    ensures tips == TipsFor(overdue, high, pending)
  {
    tips := [];
    if overdue > 0 {
      tips := tips + [RescheduleTip];
    }
    if high > 3 {
      tips := tips + [ManyHighTip];
    }
    if pending > 5 {
      tips := tips + [FocusTip];
    }
    if |tips| == 0 {
      tips := tips + [MomentumTip];
    }
  }

  /** Reference definition of `summarizeTasks(tasks, today)`. */
  function Summarize(tasks: seq<Snapshot>, today: Moment): TaskSummary {
    var overdue := Filter(OverdueAtPool(today), tasks);
    var high := Count(IsHighActive, tasks);
    var pending := Count(IsActive, tasks);
    var now := if |overdue| > 0 then Midnight(today.day) else today;
    TaskSummary(
      BuildSummary(|overdue|, high, pending),
      PicksWithReasons(TopPending(tasks), tasks, now),
      if |overdue| > 0 then Some(OverdueNotes(overdue, today.day)) else None,
      if high > 5 then Some(high) else None,
      TipsFor(|overdue|, high, pending))
  }

  /** `summarizeTasks` as written, with `today` as the mutable `Date` the calls to
      `daysBetween` truncate. */
  method SummarizeTasks(tasks: seq<Snapshot>, today: Moment) returns (r: TaskSummary)
    ensures r == Summarize(tasks, today)
  {
    var now := today;
    var overdue := Filter(OverdueAtPool(now), tasks);
    var highPriority := Filter(IsHighActive, tasks);
    var pending := Filter(IsActive, tasks);
    var top := TopPending(tasks);

    var notes: Option<seq<OverdueNote>> := None;
    if |overdue| > 0 {
      notes := Some(OverdueNotes(overdue, now.day));
      now := Midnight(now.day);
    }
    var tooMany: Option<nat> := None;
    if |highPriority| > 5 {
      tooMany := Some(|highPriority|);
    }
    var summary := BuildSummary(|overdue|, |highPriority|, |pending|);
    var tips := GenerateTips(|overdue|, |highPriority|, |pending|);

    var picks := ReasonPicks(top, tasks, now);
    r := TaskSummary(summary, picks, notes, tooMany, tips);
  }

  /** The `priorities.map` of `summarizeTasks`: each pick is looked up, explained, and
      `now` is truncated whenever the task has a due date. */
  method ReasonPicks(top: seq<Snapshot>, tasks: seq<Snapshot>, today: Moment) returns (picks: seq<FocusPick>)
    ensures picks == PicksWithReasons(top, tasks, today)
  {
    var now := today;
    picks := [];
    var i := 0;
    while i < |top|
      invariant 0 <= i <= |top|
      invariant picks + PicksWithReasons(top[i..], tasks, now) == PicksWithReasons(top, tasks, today)
    {
      assert top[i..][1..] == top[i + 1..];
      var found := FindById(tasks, top[i].id);
      var reasons: seq<string>;
      ghost var before := now;
      if found.None? {
        reasons := [StillExistsReason];
      } else {
        reasons, now := CollectReasons(found.value, now);
      }
      var pick := FocusPick(top[i].id, top[i].title, ReasonLine(reasons));
      assert PicksWithReasons(top[i..], tasks, before) == [pick] + PicksWithReasons(top[i + 1..], tasks, now);
      picks := picks + [pick];
      i := i + 1;
    }
  }

  /** The body of that callback for a found task: the pushes of the reasons and the
      truncation of `now` by `daysBetween`. */
  method CollectReasons(t: Snapshot, now: Moment) returns (reasons: seq<string>, now': Moment)
    ensures Reasoned(reasons, now') == ReasonsFor(t, now)
  {
    reasons := [];
    now' := now;
    if t.priority == High {
      reasons := reasons + [HighReason];
    }
    if t.dueDay.Some? && Before(Midnight(t.dueDay.value), now') {
      reasons := reasons + [OverdueReason];
    }
    if t.dueDay.Some? {
      var days := DaysBetween(Midnight(t.dueDay.value), now');
      now' := Midnight(now'.day);
      if days <= 2 && t.status != Done {
        reasons := reasons + [DueSoonReason];
      }
    }
  }

  /** At most three active tasks come first, each no worse than the next by rank, due date
      and creation, and each pick carries the id and title of its task. */
  lemma SummarizeRanksActiveTasks(tasks: seq<Snapshot>, today: Moment)
    ensures var s := Summarize(tasks, today);
      && |s.priorities| == Min(3, Count(IsActive, tasks))
      && (forall i :: 0 <= i < |s.priorities| ==>
            s.priorities[i].title == TopPending(tasks)[i].title && s.priorities[i].id == TopPending(tasks)[i].id)
  {
    var top := TopPending(tasks);
    var now := if Count(OverdueAtPool(today), tasks) > 0 then Midnight(today.day) else today;
    PicksShape(top, tasks, now);
  }

  lemma {:induction false} PicksShape(top: seq<Snapshot>, tasks: seq<Snapshot>, now: Moment)
    ensures var p := PicksWithReasons(top, tasks, now);
      && |p| == |top|
      && forall i :: 0 <= i < |p| ==> p[i].title == top[i].title && p[i].id == top[i].id
    decreases |top|
  {
    if top != [] {
      var found := FindById(tasks, top[0].id);
      var step := if found.None? then Reasoned([StillExistsReason], now) else ReasonsFor(found.value, now);
      PicksShape(top[1..], tasks, step.now);
    }
  }

  /** Every pick's lookup succeeds: the pick itself has the id it is looked up by, so the
      "Task still exists in your list" reason never appears. */
  lemma {:induction false} PicksAlwaysFound(top: seq<Snapshot>, tasks: seq<Snapshot>, now: Moment)
    requires forall i :: 0 <= i < |top| ==> top[i] in tasks
    ensures forall i :: 0 <= i < |top| ==> FindById(tasks, top[i].id).Some?
  {
    forall i | 0 <= i < |top| ensures FindById(tasks, top[i].id).Some? {
      var j :| 0 <= j < |tasks| && tasks[j] == top[i];
    }
  }

  /** A task's reasons read `today` only through its day once a due date has truncated it,
      so looking the same task up again leaves `today` where the first lookup put it. */
  lemma ReasonsForSettles(t: Snapshot, now: Moment)
    ensures var later := ReasonsFor(t, now).now;
      ReasonsFor(t, later).now == later
  {
  }

  /** Without ids every lookup finds the first task: each pick is explained by the reasons of
      `tasks[0]`, the first one at the given `today` and every later one at the `today` that
      lookup left behind. */
  lemma {:induction false} IdlessPicksExplainFirstTask(top: seq<Snapshot>, tasks: seq<Snapshot>, now: Moment)
    requires tasks != []
    requires forall i :: 0 <= i < |tasks| ==> tasks[i].id.None?
    requires forall i :: 0 <= i < |top| ==> top[i].id.None?
    ensures var p := PicksWithReasons(top, tasks, now);
      var later := ReasonsFor(tasks[0], now).now;
      && |p| == |top|
      && forall i :: 0 <= i < |p| ==>
           p[i].reason == ReasonLine(ReasonsFor(tasks[0], if i == 0 then now else later).reasons)
    decreases |top|
  {
    if top != [] {
      var later := ReasonsFor(tasks[0], now).now;
      assert FindById(tasks, top[0].id) == Some(tasks[0]);
      IdlessPicksExplainFirstTask(top[1..], tasks, later);
      ReasonsForSettles(tasks[0], now);
      var p := PicksWithReasons(top, tasks, now);
      var rest := PicksWithReasons(top[1..], tasks, later);
      assert p == [FocusPick(top[0].id, top[0].title, ReasonLine(ReasonsFor(tasks[0], now).reasons))] + rest;
      forall i | 1 <= i < |p|
        ensures p[i].reason == ReasonLine(ReasonsFor(tasks[0], later).reasons)
      {
        assert p[i] == rest[i - 1];
      }
    }
  }

  /** The summary of tasks read without their ids (the chat route's projection) explains every
      priority by the first task of the list. */
  lemma SummarizeWithoutIds(tasks: seq<Snapshot>, today: Moment)
    requires tasks != []
    requires forall i :: 0 <= i < |tasks| ==> tasks[i].id.None?
    ensures var s := Summarize(tasks, today);
      var now := if Count(OverdueAtPool(today), tasks) > 0 then Midnight(today.day) else today;
      forall i :: 0 <= i < |s.priorities| ==>
        s.priorities[i].reason == ReasonLine(ReasonsFor(tasks[0], if i == 0 then now else ReasonsFor(tasks[0], now).now).reasons)
  {
    var top := TopPending(tasks);
    TopPendingActiveSorted(tasks);
    forall i | 0 <= i < |top| ensures top[i].id.None? {
      var j :| 0 <= j < |tasks| && tasks[j] == top[i];
    }
    var now := if Count(OverdueAtPool(today), tasks) > 0 then Midnight(today.day) else today;
    IdlessPicksExplainFirstTask(top, tasks, now);
  }

  /** Every overdue note counts whole days since the due date, never negative; a task due
      today is listed as 0 days overdue once midnight has passed. */
  lemma OverdueNotesNonNegative(tasks: seq<Snapshot>, today: Moment)
    ensures var s := Summarize(tasks, today);
      s.overdue.Some? ==> forall i :: 0 <= i < |s.overdue.value| ==> s.overdue.value[i].daysOverdue >= 0
  {
    var overdue := Filter(OverdueAtPool(today), tasks);
    FilterMembers(OverdueAtPool(today), tasks);
    NotesNonNegative(overdue, today);
  }

  lemma {:induction false} NotesNonNegative(overdue: seq<Snapshot>, today: Moment)
    requires forall x :: x in overdue ==> IsOverdueAt(x, today)
    ensures forall i :: 0 <= i < |OverdueNotes(overdue, today.day)| ==> OverdueNotes(overdue, today.day)[i].daysOverdue >= 0
  {
    if overdue != [] {
      assert overdue[0] in overdue;
      NotesNonNegative(overdue[1..], today);
      var r := OverdueNotes(overdue, today.day);
      forall i | 0 <= i < |r| ensures r[i].daysOverdue >= 0 {
        if i > 0 {
          assert r[i] == OverdueNotes(overdue[1..], today.day)[i - 1];
        }
      }
    }
  }

  /** `buildSummary` answers "No active tasks — great job!" exactly when nothing is active. */
  lemma SummarizeGreatJob(tasks: seq<Snapshot>, today: Moment)
    ensures Summarize(tasks, today).summary == NoActiveText <==> Count(IsActive, tasks) == 0
  {
    CountMono(OverdueAtPool(today), IsActive, tasks);
    CountMono(IsHighActive, IsActive, tasks);
    var o := Count(OverdueAtPool(today), tasks);
    var h := Count(IsHighActive, tasks);
    var p := Count(IsActive, tasks);
    if o > 0 || h > 0 || p > 0 {
      assert BuildSummary(o, h, p)[0] == 'Y';
    }
  }

  // ---------------------------------------------------------------------------
  // chatReply and its cache
  // ---------------------------------------------------------------------------

  datatype ChatIntent = AskFocus | AskOverdue | AskPlan | Other

  const FocusPhrase1: string := "what should i work"
  const FocusPhrase2: string := "what should i do"
  const FocusPhrase3: string := "what to work"

  /** The keyword precedence of `chatReply`, on the trimmed, lower-cased message. */
  function IntentOf(msg: string): (r: ChatIntent)
    ensures r == AskFocus <==> Contains(msg, FocusPhrase1) || Contains(msg, FocusPhrase2) || Contains(msg, FocusPhrase3)
    ensures r == AskOverdue <==> !(r == AskFocus) && Contains(msg, "overdue")
    ensures r == AskPlan ==> Contains(msg, "plan") || Contains(msg, "help me plan")
  {
    if Contains(msg, FocusPhrase1) || Contains(msg, FocusPhrase2) || Contains(msg, FocusPhrase3) then AskFocus
    else if Contains(msg, "overdue") then AskOverdue
    else if Contains(msg, "plan") || Contains(msg, "help me plan") then AskPlan
    else Other
  }

  /** A string containing `x + y` contains `y`; in particular the "help me plan" test adds
      nothing to the "plan" test before it. */
  lemma {:induction false} ContainsRightPart(s: string, x: string, y: string)
    requires Contains(s, x + y)
    ensures Contains(s, y)
    decreases |s|
  {
    if s[..|x + y|] == x + y {
      forall i | 0 <= i < |y|
        ensures s[|x|..][..|y|][i] == y[i]
      {
        assert s[|x|..][..|y|][i] == s[..|x + y|][|x| + i];
      }
      ContainsFrom(s, |x|, y);
    } else {
      ContainsRightPart(s[1..], x, y);
    }
  }

  lemma {:induction false} ContainsFrom(s: string, k: nat, y: string)
    requires k <= |s| && |y| <= |s| - k && s[k..][..|y|] == y
    ensures Contains(s, y)
    decreases k
  {
    if k == 0 {
      assert s[..|y|] == s[0..][..|y|];
    } else {
      assert s[1..][k - 1..] == s[k..];
      ContainsFrom(s[1..], k - 1, y);
    }
  }

  /** The plan intent is exactly "plan" mentioned after the first two tests fail: the
      "help me plan" test adds nothing. */
  lemma PlanIntent(msg: string)
    ensures IntentOf(msg) == AskPlan <==>
      !(Contains(msg, FocusPhrase1) || Contains(msg, FocusPhrase2) || Contains(msg, FocusPhrase3))
      && !Contains(msg, "overdue") && Contains(msg, "plan")
  {
    if Contains(msg, "help me plan") {
      assert "help me plan" == "help me " + "plan";
      ContainsRightPart(msg, "help me ", "plan");
    }
  }

  datatype ChatResult = ChatResult(reply: string, notes: string)

  const NoTasksReply: string := "I don't see any active tasks \U{2014} create one and I'll help prioritize."
  const NoOverdueReply: string := "You have no overdue tasks."
  const OverdueReplyTail: string := ". Consider rescheduling or completing them."
  const PlanReply: string :=
    "Here's a simple plan: 1) Pick your top 1-3 tasks from your priorities; 2) Estimate time and block focused slots; 3) Break any complex task into subtasks. I can suggest breaking tasks if you want."
  const FallbackReply: string :=
    "I didn't understand that. Ask about which tasks are overdue, what to work on today, or say 'help me plan my day'."

  function Quote(s: string): string {
    "\"" + s + "\""
  }

  /** Each title in double quotes. */
  function Quoted(titles: seq<string>): (r: seq<string>)
    ensures |r| == |titles|
  {
    seq(|titles|, i requires 0 <= i < |titles| => Quote(titles[i]))
  }

  function PickTitles(ps: seq<FocusPick>): seq<string> {
    seq(|ps|, i requires 0 <= i < |ps| => ps[i].title)
  }

  function SnapshotTitles(ts: seq<Snapshot>): seq<string> {
    seq(|ts|, i requires 0 <= i < |ts| => ts[i].title)
  }

  function PickReasons(ps: seq<FocusPick>): (r: seq<string>)
    ensures |r| == |ps|
  {
    seq(|ps|, i requires 0 <= i < |ps| => ps[i].reason)
  }


  /** `tasks.find` on a title the lower-cased message mentions. */
  function FindMentioned(tasks: seq<Snapshot>, lowered: string): (r: Option<Snapshot>)
    ensures r.Some? <==> exists i :: 0 <= i < |tasks| && Contains(lowered, Lower(tasks[i].title))
    ensures r.Some? ==> r.value in tasks && Contains(lowered, Lower(r.value.title))
    ensures r.Some? ==> exists i :: 0 <= i < |tasks| && r.value == tasks[i] &&
                          (forall j :: 0 <= j < i ==> !Contains(lowered, Lower(tasks[j].title)))
  {
    if tasks == [] then None
    else if Contains(lowered, Lower(tasks[0].title)) then Some(tasks[0])
    else
      assert forall i :: 1 <= i < |tasks| ==> tasks[i] == tasks[1..][i - 1];
      FindMentioned(tasks[1..], lowered)
  }

  /** `description?.slice(0, 200) || "no details"`: the first 200 characters of a
      non-empty description, the whole of a shorter one, and "no details" without one. */
  function Details(description: Option<string>): (r: string)
    ensures description.None? || description.value == "" ==> r == "no details"
    ensures description.Some? && description.value != "" ==>
      |r| == Min(200, |description.value|) && r <= description.value
  {
    match description
    case None => "no details"
    case Some(d) =>
      var cut := d[..Min(200, |d|)];
      if cut == "" then "no details" else cut
  }

  function TaskReply(t: Snapshot): string {
    "Task " + Quote(t.title) + " (priority: " + PriorityName(t.priority) + ", status: " + StatusName(t.status)
      + ") \U{2014} " + Details(t.description) + "."
  }

  /** The reply `chatReply` computes when nothing is cached. */
  function ChatAnswer(tasks: seq<Snapshot>, message: string, today: Moment): ChatResult {
    var msg := Lower(Trim(message));
    var reply :=
      match IntentOf(msg)
      case AskFocus =>
        var top := Summarize(tasks, today).priorities;
        if |top| == 0 then NoTasksReply
        else "Start with " + Join(Quoted(PickTitles(top)), " then ") + ". Reason: " + Join(PickReasons(top), "; ") + "."
      case AskOverdue =>
        var overdue := Filter(OverdueAtPool(today), tasks);
        if |overdue| == 0 then NoOverdueReply
        else "There are " + NatToString(|overdue|) + " overdue task(s): " + Join(Quoted(SnapshotTitles(overdue)), ", ") + OverdueReplyTail
      case AskPlan => PlanReply
      case Other =>
        match FindMentioned(tasks, Lower(message))
        case Some(t) => TaskReply(t)
        case None => FallbackReply;
    ChatResult(reply, "")
  }

  /** With no active task, a request for focus gets the "create one" reply. */
  lemma FocusWithoutActiveTasks(tasks: seq<Snapshot>, message: string, today: Moment)
    requires IntentOf(Lower(Trim(message))) == AskFocus
    requires forall i :: 0 <= i < |tasks| ==> tasks[i].status == Done
    ensures ChatAnswer(tasks, message, today).reply == NoTasksReply
  {
    NoActiveCount(tasks);
    SummarizeRanksActiveTasks(tasks, today);
  }

  lemma {:induction false} NoActiveCount(tasks: seq<Snapshot>)
    requires forall i :: 0 <= i < |tasks| ==> tasks[i].status == Done
    ensures Count(IsActive, tasks) == 0
  {
    if tasks != [] {
      NoActiveCount(tasks[1..]);
    }
  }

  /** A message that asks for neither focus, overdue tasks nor a plan, and names no task,
      gets the fixed fallback. */
  lemma UnknownMessageFallsBack(tasks: seq<Snapshot>, message: string, today: Moment)
    requires IntentOf(Lower(Trim(message))) == Other
    requires forall i :: 0 <= i < |tasks| ==> !Contains(Lower(message), Lower(tasks[i].title))
    ensures ChatAnswer(tasks, message, today).reply == FallbackReply
  {
  }

  const Ttl: int := 30000

  /** `chat:<trimmed lower-cased message>:<task count>`. */
  function ChatKey(message: string, count: nat): string {
    "chat:" + Lower(Trim(message)) + ":" + NatToString(count)
  }

  /** Two calls share a cache entry exactly when their normalised messages and their task
      counts agree: the digits after the last ':' determine the count. */
  lemma ChatKeyInjective(m1: string, n1: nat, m2: string, n2: nat)
    requires ChatKey(m1, n1) == ChatKey(m2, n2)
    ensures Lower(Trim(m1)) == Lower(Trim(m2)) && n1 == n2
  {
    KeyParts(Lower(Trim(m1)), NatToString(n1), Lower(Trim(m2)), NatToString(n2));
    NatToStringInjective(n1, n2);
  }

  /** A key determines its message part and its digits. */
  lemma KeyParts(x1: string, d1: string, x2: string, d2: string)
    requires AllDigits(d1) && AllDigits(d2)
    requires "chat:" + x1 + ":" + d1 == "chat:" + x2 + ":" + d2
    ensures x1 == x2 && d1 == d2
  {
    var a, b := "chat:" + x1, "chat:" + x2;
    var k := a + ":" + d1;
    if |d1| <= |d2| {
      DigitTailsAlign(a, d1, b, d2);
    } else {
      DigitTailsAlign(b, d2, a, d1);
    }
    assert d1 == k[|k| - |d1|..] == d2;
    assert a == k[..|a|] == b;
    assert x1 == a[5..] == b[5..] == x2;
  }

  /** A colon followed by digits ends a string in only one way. */
  lemma DigitTailsAlign(a: string, d1: string, b: string, d2: string)
    requires AllDigits(d1) && AllDigits(d2) && |d1| <= |d2|
    requires a + ":" + d1 == b + ":" + d2
    ensures |d1| == |d2|
  {
    if |d1| < |d2| {
      ColonAt(a, d1);
      DigitAt(b, d2, |a|);
      assert false;
    }
  }

  lemma ColonAt(a: string, d: string)
    ensures (a + ":" + d)[|a|] == ':'
  {
  }

  lemma DigitAt(b: string, d: string, j: int)
    requires AllDigits(d) && |b| + 1 <= j < |b| + 1 + |d|
    ensures IsDigit((b + ":" + d)[j])
  {
    assert (b + ":" + d)[j] == d[j - |b| - 1];
  }

  datatype CacheEntry = CacheEntry(ts: int, payload: ChatResult)

  /** An entry is served while at most `Ttl` milliseconds old. */
  predicate Live(e: CacheEntry, now: int) {
    now - e.ts <= Ttl
  }

  /** `cacheGet` as a value: the payload of an entry that is still live. */
  function Lookup(entries: map<string, CacheEntry>, key: string, now: int): (r: Option<ChatResult>)
    ensures r.Some? <==> key in entries && now - entries[key].ts <= Ttl
    ensures r.Some? ==> r.value == entries[key].payload
  {
    if key in entries && Live(entries[key], now) then Some(entries[key].payload) else None
  }

  /** `chatReply` with the cache, given the reply it would compute afresh: the reply it
      gives, and the cache afterwards. */
  function CachedReply(entries: map<string, CacheEntry>, key: string, computed: ChatResult, now: int)
    : (ChatResult, map<string, CacheEntry>)
  {
    match Lookup(entries, key, now)
    case Some(cached) => (cached, entries)
    case None => (computed, entries[key := CacheEntry(now, computed)])
  }

  /** Within the TTL of a reply computed afresh, a repeat with the same normalised message
      and the same number of tasks gets that reply back, whatever the tasks now are. */
  lemma RepeatWithinTtlIsCached(entries: map<string, CacheEntry>, tasks1: seq<Snapshot>, tasks2: seq<Snapshot>,
                                m1: string, m2: string, reply1: ChatResult, reply2: ChatResult, t1: int, t2: int)
    requires |tasks1| == |tasks2| && Lower(Trim(m1)) == Lower(Trim(m2))
    requires Lookup(entries, ChatKey(m1, |tasks1|), t1).None?
    requires t1 <= t2 <= t1 + Ttl
    ensures var (r1, e1) := CachedReply(entries, ChatKey(m1, |tasks1|), reply1, t1);
      r1 == reply1 && CachedReply(e1, ChatKey(m2, |tasks2|), reply2, t2).0 == reply1
  {
    var key := ChatKey(m1, |tasks1|);
    assert ChatKey(m2, |tasks2|) == key;
    var (r1, e1) := CachedReply(entries, key, reply1, t1);
    assert e1[key] == CacheEntry(t1, reply1);
  }

  /** An entry older than the TTL is never served: the computed reply is given and stored. */
  lemma ExpiredIsRecomputed(entries: map<string, CacheEntry>, key: string, computed: ChatResult, now: int)
    requires key in entries && now - entries[key].ts > Ttl
    ensures CachedReply(entries, key, computed, now).0 == computed
    ensures CachedReply(entries, key, computed, now).1 == entries[key := CacheEntry(now, computed)]
  {
  }

  lemma RemoveThenStore(m: map<string, CacheEntry>, key: string, e: CacheEntry)
    ensures (m - {key})[key := e] == m[key := e]
  {
  }

  /** The module-level `cache` map and its helpers, with the clock as a parameter. */
  class ChatCache {
    var entries: map<string, CacheEntry>

    constructor ()
      ensures entries == map[]
    {
      entries := map[];
    }

    /** `cacheGet`: a live entry's payload; an expired entry is deleted. */
    method Get(key: string, now: int) returns (r: Option<ChatResult>)
      modifies this
      ensures r == Lookup(old(entries), key, now)
      ensures entries == if r.Some? then old(entries) else old(entries) - {key}
    {
      if key !in entries {
        return None;
      }
      var entry := entries[key];
      if now - entry.ts > Ttl {
        entries := entries - {key};
        return None;
      }
      r := Some(entry.payload);
    }

    /** `cacheSet`. */
    method Set(key: string, payload: ChatResult, now: int)
      modifies this
      ensures entries == old(entries)[key := CacheEntry(now, payload)]
    {
      entries := entries[key := CacheEntry(now, payload)];
    }

    /** `chatReply`: look up, compute on a miss, store. */
    method ChatReply(tasks: seq<Snapshot>, message: string, today: Moment, now: int) returns (r: ChatResult)
      modifies this
      ensures (r, entries) == CachedReply(old(entries), ChatKey(message, |tasks|), ChatAnswer(tasks, message, today), now)
    {
      var key := ChatKey(message, |tasks|);
      var cached := Get(key, now);
      if cached.Some? {
        return cached.value;
      }
      r := ChatAnswer(tasks, message, today);
      Set(key, r, now);
      RemoveThenStore(old(entries), key, CacheEntry(now, r));
    }
  }
}
