/**
 * lib/deadline-risk.ts: the read-only deadline risk classifier. Three rules
 * (overdue, upcoming, overload) each may emit one warning; a tier and a note
 * are derived from the counts and the warnings.
 */
module DeadlineRisk {
  import opened Common
  import opened TaskModel

  datatype OverallRisk = LowRisk | MediumRisk | HighRisk
  datatype WarningType = Overdue | Upcoming | Overload

  datatype DeadlineWarning = DeadlineWarning(kind: WarningType, message: string, reason: string)

  datatype RiskResult = RiskResult(overallRisk: OverallRisk, warnings: seq<DeadlineWarning>, note: Option<string>)

  function Level(r: OverallRisk): nat {
    match r
    case LowRisk => 0
    case MediumRisk => 1
    case HighRisk => 2
  }

  function KindRank(k: WarningType): nat {
    match k
    case Overdue => 0
    case Upcoming => 1
    case Overload => 2
  }

  const NoteText: string :=
    "This is an early warning only. You're in control\U{2014}no changes have been made to your tasks."

  const UpcomingWindow: int := 3
  const OverloadWindow: int := 7
  const OverloadWarningThreshold: nat := 4
  const OverloadHighThreshold: nat := 5
  const OverloadMediumThreshold: nat := 3

  /** `daysBetween(today, due)`: the whole days from today's midnight to the due day's
      midnight, negative when the due day is past. */
  function DaysUntil(t: Snapshot, today: int): (r: int)
    requires t.dueDay.Some?
    ensures Midnight(today + r) == Midnight(t.dueDay.value)
    ensures r < 0 <==> Before(Midnight(t.dueDay.value), Midnight(today))
    ensures r == 0 <==> t.dueDay.value == today
  {
    t.dueDay.value - today
  }

  predicate HasDue(t: Snapshot) {
    t.dueDay.Some?
  }

  predicate IsOverdue(t: Snapshot, today: int) {
    IsActive(t) && HasDue(t) && DaysUntil(t, today) < 0
  }

  predicate IsUpcoming(t: Snapshot, today: int) {
    IsActive(t) && HasDue(t) && 0 <= DaysUntil(t, today) <= UpcomingWindow
  }

  /** An active high-priority task due within the next seven days. */
  predicate IsOverloading(t: Snapshot, today: int) {
    IsActive(t) && t.priority == High && HasDue(t) && 0 <= DaysUntil(t, today) <= OverloadWindow
  }

  lemma OverdueAndUpcomingDisjoint(t: Snapshot, today: int)
    ensures !(IsOverdue(t, today) && IsUpcoming(t, today))
  {
  }

  function OverdueOn(today: int): Snapshot -> bool {
    t => IsOverdue(t, today)
  }

  function UpcomingOn(today: int): Snapshot -> bool {
    t => IsUpcoming(t, today)
  }

  function OverloadingOn(today: int): Snapshot -> bool {
    t => IsOverloading(t, today)
  }

  function OverdueCount(tasks: seq<Snapshot>, today: int): nat {
    Count(OverdueOn(today), tasks)
  }

  function UpcomingCount(tasks: seq<Snapshot>, today: int): nat {
    Count(UpcomingOn(today), tasks)
  }

  function OverloadCount(tasks: seq<Snapshot>, today: int): nat {
    Count(OverloadingOn(today), tasks)
  }

  /** "1 task is …" / "N tasks are …". */
  function TasksAre(n: nat): string {
    NatToString(n) + (if n == 1 then " task is" else " tasks are")
  }

  const OverdueReason: string :=
    "Completing or rescheduling them can reduce stress and keep your plan accurate."
  const UpcomingReason: string :=
    "A quick check can help you decide what to tackle first without last-minute pressure."
  const OverloadMessage: string := "Several high-priority tasks are due in the same week."
  const OverloadReason: string :=
    "Spreading focus across too many urgent items at once can make it harder to finish any one of them."

  function OverdueWarning(n: nat): DeadlineWarning {
    DeadlineWarning(Overdue, TasksAre(n) + " past due.", OverdueReason)
  }

  function UpcomingWarning(n: nat): DeadlineWarning {
    DeadlineWarning(Upcoming, TasksAre(n) + " due in the next few days.", UpcomingReason)
  }

  const OverloadWarning: DeadlineWarning := DeadlineWarning(Overload, OverloadMessage, OverloadReason)

  /** The tier, first match wins. */
  function Tier(overdue: nat, overload: nat, warnings: nat): OverallRisk {
    if overdue > 0 || overload >= OverloadHighThreshold then HighRisk
    else if warnings >= 2 || (overdue == 0 && overload >= OverloadMediumThreshold) then MediumRisk
    else LowRisk
  }

  /** The warnings each rule emits, in rule order, without the source's cap checks. */
  function Warnings(tasks: seq<Snapshot>, today: int): seq<DeadlineWarning> {
    OverduePart(OverdueCount(tasks, today))
    + UpcomingPart(UpcomingCount(tasks, today))
    + OverloadPart(OverloadCount(tasks, today))
  }

  function OverduePart(o: nat): seq<DeadlineWarning> {
    if o > 0 then [OverdueWarning(o)] else []
  }

  function UpcomingPart(u: nat): seq<DeadlineWarning> {
    if u > 0 then [UpcomingWarning(u)] else []
  }

  function OverloadPart(h: nat): seq<DeadlineWarning> {
    if h >= OverloadWarningThreshold then [OverloadWarning] else []
  }

  /** Reference definition of the classifier's result. Only the day of `today` matters,
      as the source truncates it to midnight. */
  function Analysis(tasks: seq<Snapshot>, today: Moment): (r: RiskResult)
    ensures |r.warnings| <= 3
    ensures r.note.Some? <==> |r.warnings| > 0
    ensures r.note.Some? ==> r.note.value == NoteText
  {
    var w := Warnings(tasks, today.day);
    RiskResult(Tier(OverdueCount(tasks, today.day), OverloadCount(tasks, today.day), |w|), w,
               if |w| > 0 then Some(NoteText) else None)
  }

  /** Each rule emits at most one warning, exactly when its count reaches its threshold,
      and the warnings come in rule order. */
  lemma WarningsFollowRules(tasks: seq<Snapshot>, today: Moment)
    ensures var w := Analysis(tasks, today).warnings;
      && (forall i, j :: 0 <= i < j < |w| ==> KindRank(w[i].kind) < KindRank(w[j].kind))
      && ((exists i :: 0 <= i < |w| && w[i].kind == Overdue) <==> OverdueCount(tasks, today.day) > 0)
      && ((exists i :: 0 <= i < |w| && w[i].kind == Upcoming) <==> UpcomingCount(tasks, today.day) > 0)
      && ((exists i :: 0 <= i < |w| && w[i].kind == Overload) <==> OverloadCount(tasks, today.day) >= 4)
  {
    var d := today.day;
    var w := Warnings(tasks, d);
    var o := OverdueCount(tasks, d);
    var u := UpcomingCount(tasks, d);
    var h := OverloadCount(tasks, d);
    assert o > 0 ==> w[0].kind == Overdue;
    assert u > 0 ==> w[if o > 0 then 1 else 0].kind == Upcoming;
    assert h >= 4 ==> w[|w| - 1].kind == Overload;
  }

  /** The tier rules: high exactly when something is overdue or five or more active
      high-priority tasks fall in the next week; otherwise medium exactly when two
      warnings were emitted or three such tasks exist; otherwise low. */
  lemma TierRules(tasks: seq<Snapshot>, today: Moment)
    ensures var r := Analysis(tasks, today);
      var o := OverdueCount(tasks, today.day);
      var h := OverloadCount(tasks, today.day);
      && (r.overallRisk == HighRisk <==> o > 0 || h >= 5)
      && (r.overallRisk == MediumRisk <==> !(o > 0 || h >= 5) && (|r.warnings| >= 2 || h >= 3))
      && (r.overallRisk == LowRisk <==> o == 0 && h < 3 && |r.warnings| < 2)
  {
  }

  /** `analyzeDeadlineRisk` as written: filter chains, conditional pushes guarded by the
      "fewer than 3 warnings" checks, the cap, and the reassigned `overallRisk`. */
  method AnalyzeDeadlineRisk(tasks: seq<Snapshot>, today: Moment) returns (r: RiskResult)
    ensures r == Analysis(tasks, today)
  {
    var t := today.day;
    var active := Filter(IsActive, tasks);
    var withDue := Filter(HasDue, active);
    var warnings: seq<DeadlineWarning> := [];

    var overdue := Filter(DueBefore(t), withDue);
    OverdueChain(tasks, t);
    if |overdue| > 0 {
      warnings := warnings + [OverdueWarning(|overdue|)];
    }
    assert warnings == OverduePart(|overdue|);

    var upcoming := Filter(DueWithin(t, UpcomingWindow), withDue);
    UpcomingChain(tasks, t);
    if |upcoming| > 0 && |warnings| < 3 {
      warnings := warnings + [UpcomingWarning(|upcoming|)];
    }
    assert warnings == OverduePart(|overdue|) + UpcomingPart(|upcoming|);

    var highPriority := Filter(IsHigh, active);
    var highWithDue := Filter(HasDue, highPriority);
    var inNext7Days := Filter(DueWithin(t, OverloadWindow), highWithDue);
    OverloadChain(tasks, t);
    if |inNext7Days| >= 4 && |warnings| < 3 {
      warnings := warnings + [OverloadWarning];
    }

    assert warnings == Warnings(tasks, t);
    assert |warnings| <= 3;
    var capped := warnings[..if |warnings| < 3 then |warnings| else 3];
    assert capped == warnings;

    var overallRisk := LowRisk;
    if |overdue| > 0 || |inNext7Days| >= 5 {
      overallRisk := HighRisk;
    } else if |capped| >= 2 || (|overdue| == 0 && |inNext7Days| >= 3) {
      overallRisk := MediumRisk;
    }
    assert overallRisk == Tier(|overdue|, |inNext7Days|, |capped|);

    var note := if |capped| > 0 then Some(NoteText) else None;
    r := RiskResult(overallRisk, capped, note);
  }

  predicate IsHigh(x: Snapshot) {
    x.priority == High
  }

  /** The overdue filter of the source (its `dueDate` guard, then `dueDate < today`). */
  function DueBefore(today: int): Snapshot -> bool {
    (x: Snapshot) => x.dueDay.Some? && x.dueDay.value < today
  }

  /** The window filters of the source; the upcoming one re-checks that the task is not done. */
  function DueWithin(today: int, days: int): Snapshot -> bool {
    (x: Snapshot) => x.dueDay.Some? && x.status != Done && 0 <= x.dueDay.value - today <= days
  }

  lemma OverdueChain(tasks: seq<Snapshot>, t: int)
    ensures |Filter(DueBefore(t), Filter(HasDue, Filter(IsActive, tasks)))| == OverdueCount(tasks, t)
  {
    FilterFilter3(IsActive, HasDue, DueBefore(t), OverdueOn(t), tasks);
  }

  lemma UpcomingChain(tasks: seq<Snapshot>, t: int)
    ensures |Filter(DueWithin(t, UpcomingWindow), Filter(HasDue, Filter(IsActive, tasks)))| == UpcomingCount(tasks, t)
  {
    FilterFilter3(IsActive, HasDue, DueWithin(t, UpcomingWindow), UpcomingOn(t), tasks);
  }

  lemma OverloadChain(tasks: seq<Snapshot>, t: int)
    ensures |Filter(DueWithin(t, OverloadWindow), Filter(HasDue, Filter(IsHigh, Filter(IsActive, tasks))))|
         == OverloadCount(tasks, t)
  {
    var activeHigh := (x: Snapshot) => IsActive(x) && IsHigh(x);
    FilterFilter(IsActive, IsHigh, activeHigh, tasks);
    FilterFilter3(activeHigh, HasDue, DueWithin(t, OverloadWindow), OverloadingOn(t), tasks);
  }

  /** Filtering by `q` and then by `p` is filtering by their conjunction. */
  lemma {:induction false} FilterFilter<T(!new)>(q: T -> bool, p: T -> bool, pq: T -> bool, s: seq<T>)
    requires forall x :: pq(x) == (q(x) && p(x))
    ensures Filter(p, Filter(q, s)) == Filter(pq, s)
  {
    if s != [] {
      FilterFilter(q, p, pq, s[1..]);
    }
  }

  lemma FilterFilter3<T(!new)>(a: T -> bool, b: T -> bool, c: T -> bool, abc: T -> bool, s: seq<T>)
    requires forall x :: abc(x) == (a(x) && b(x) && c(x))
    ensures Filter(c, Filter(b, Filter(a, s))) == Filter(abc, s)
  {
    var ab := (x: T) => a(x) && b(x);
    FilterFilter(a, b, ab, s);
    FilterFilter(ab, c, abc, s);
  }

  /** No task, or only finished ones: low risk, no warnings, no note. */
  lemma AllDoneIsCalm(tasks: seq<Snapshot>, today: Moment)
    requires forall i :: 0 <= i < |tasks| ==> tasks[i].status == Done
    ensures Analysis(tasks, today) == RiskResult(LowRisk, [], None)
  {
    NoneMatch(OverdueOn(today.day), tasks);
    NoneMatch(UpcomingOn(today.day), tasks);
    NoneMatch(OverloadingOn(today.day), tasks);
  }

  /** Finished tasks never contribute: appending one leaves the result unchanged. */
  lemma DoneTaskIgnored(tasks: seq<Snapshot>, done: Snapshot, today: Moment)
    requires done.status == Done
    ensures Analysis(tasks + [done], today) == Analysis(tasks, today)
  {
    var d := today.day;
    FilterAppend(OverdueOn(d), tasks, [done]);
    FilterAppend(UpcomingOn(d), tasks, [done]);
    FilterAppend(OverloadingOn(d), tasks, [done]);
    assert Warnings(tasks + [done], d) == Warnings(tasks, d);
  }

  /** Adding an overdue active task never lowers the tier: the result is high. */
  lemma OverdueNeverLowersRisk(tasks: seq<Snapshot>, late: Snapshot, today: Moment)
    requires IsOverdue(late, today.day)
    ensures Analysis(tasks + [late], today).overallRisk == HighRisk
    ensures Level(Analysis(tasks + [late], today).overallRisk) >= Level(Analysis(tasks, today).overallRisk)
  {
    FilterAppend(OverdueOn(today.day), tasks, [late]);
  }

  /** The overdue message distinguishes one task from several. */
  lemma OverdueMessages(n: nat)
    ensures OverdueWarning(1).message == "1 task is past due."
    ensures n != 1 ==> OverdueWarning(n).message == NatToString(n) + " tasks are past due."
  {
  }
}
