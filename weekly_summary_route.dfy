/**
 * POST /api/ai/weekly-summary (app/api/ai/weekly-summary/route.ts): the tasks a
 * user created in the seven days up to `weekEnd`, the fixed reply for an empty
 * week, the deterministic summary used when no model client is configured, and
 * the capping of a model-generated summary.
 */
module WeeklySummaryRoute {
  import opened Common
  import opened TaskModel

  datatype WeeklyPayload = WeeklyPayload(summary: string, highlights: seq<Value>, suggestion: Value)

  /** `WeeklyThrew`: the handler throws outside any `try`, and the framework answers a bare
      500 without the route's own body. */
  datatype WeeklyResponse =
    | WeeklyRejected(status: nat, error: string)
    | WeeklyOk(payload: WeeklyPayload)
    | WeeklyThrew

  const Unauthorized: string := "Unauthorized"

  const EmptyWeekSummary: string :=
    "You haven't created any tasks this week. Start by adding a few tasks to track your progress."
  const EmptyWeekHighlight: string := "A fresh start is a great opportunity to organize your priorities"
  const EmptyWeekSuggestion: string := "Consider adding 2-3 tasks to get started"
  const StayedOnTop: string := "You stayed on top of deadlines"
  const MakingProgress: string := "You're making progress on your tasks"
  const FocusSuggestion: string := "Consider focusing on 2-3 high-priority tasks at a time"
  const MomentumSuggestion: string := "Keep up the momentum by tackling your next priority"
  const NotAvailable: string := "Your weekly summary is not available right now."

  /** The reply to a week without tasks. */
  const EmptyWeek: WeeklyPayload :=
    WeeklyPayload(EmptyWeekSummary, [Str(EmptyWeekHighlight)], Str(EmptyWeekSuggestion))

  /** The reply when the model's summary fails or has the wrong shape. */
  const Unavailable: WeeklyPayload := WeeklyPayload(NotAvailable, [], Str(""))

  /** `weekStart`: the same time of day, seven calendar days before `weekEnd`. */
  function WeekStart(weekEnd: Moment): Moment {
    Moment(weekEnd.day - 7, weekEnd.time)
  }

  /** The query `createdAt: { $gte: weekStart, $lte: weekEnd }`. */
  predicate InWindow(c: Moment, weekEnd: Moment) {
    !Before(c, WeekStart(weekEnd)) && !Before(weekEnd, c)
  }

  predicate InWeekOf(userId: string, weekEnd: Moment, t: Task) {
    t.userId == userId && InWindow(t.createdAt, weekEnd)
  }

  function WeekQuery(userId: string, weekEnd: Moment): Task -> bool {
    t => InWeekOf(userId, weekEnd, t)
  }

  /** The `minimal` projection of a stored task. */
  function Minimal(t: Task): Snapshot {
    Snapshot(Some(t.id), t.title, None, t.status, t.priority, t.dueDate, None)
  }

  function MinimalTasks(tasks: seq<Task>): (r: seq<Snapshot>)
    ensures |r| == |tasks|
  {
    seq(|tasks|, i requires 0 <= i < |tasks| => Minimal(tasks[i]))
  }

  predicate IsDone(t: Snapshot) {
    t.status == Done
  }

  /** A task counts as overdue when it is not done and its due date's midnight is before
      `weekEnd`. */
  predicate OverdueAt(weekEnd: Moment, t: Snapshot) {
    t.dueDay.Some? && t.status != Done && Before(Midnight(t.dueDay.value), weekEnd)
  }

  function OverdueAtPool(weekEnd: Moment): Snapshot -> bool {
    t => OverdueAt(weekEnd, t)
  }

  /** "1 task" or "N tasks". */
  function TaskCount(n: nat): string {
    NatToString(n) + " task" + (if n != 1 then "s" else "")
  }

  /** A count reads back as its number, and is plural exactly when it is not 1. */
  lemma TaskCountMeaning(n: nat)
    ensures ParseInt(TaskCount(n)) == Some(n)
    ensures TaskCount(n)[|TaskCount(n)| - 1] == 's' <==> n != 1
  {
    var suffix := " task" + (if n != 1 then "s" else "");
    assert TaskCount(n) == NatToString(n) + suffix;
    assert suffix[0] == ' ';
    ParseDigitsThenText(NatToString(n), suffix);
    NatToStringRoundTrip(n);
  }

  lemma ParseDigitsThenText(digits: string, rest: string)
    requires digits != [] && AllDigits(digits) && rest != [] && !IsDigit(rest[0])
    ensures ParseInt(digits + rest) == Some(DigitsValue(digits))
  {
    var t := digits + rest;
    assert t[0] == digits[0];
    assert !IsSpace(t[0]) && t[0] != '-' && t[0] != '+';
    assert TrimStart(t) == t;
    assert Unsigned(t) == t;
    DigitsThenText(digits, rest);
  }

  lemma {:induction false} DigitsThenText(digits: string, rest: string)
    requires AllDigits(digits) && rest != [] && !IsDigit(rest[0])
    ensures LeadingDigits(digits + rest) == digits
  {
    if digits != [] {
      assert (digits + rest)[1..] == digits[1..] + rest;
      DigitsThenText(digits[1..], rest);
    } else {
      assert digits + rest == rest;
    }
  }

  function FallbackSummary(total: nat, completed: nat, pending: nat): string {
    "This week you worked on " + TaskCount(total) + ". You completed " + TaskCount(completed)
      + " and have " + NatToString(pending) + " still in progress."
  }

  /** The highlights of the deterministic summary, in push order. */
  function Highlights(completed: nat, pending: nat, overdue: nat): seq<string> {
    var h1 := if completed > 0 then ["You completed " + TaskCount(completed) + " this week"] else [];
    var h2 := h1 + (if overdue == 0 && pending > 0 then [StayedOnTop] else []);
    if h2 == [] then [MakingProgress] else h2
  }

  /** The highlights are built by conditional pushes. */
  method BuildHighlights(completed: nat, pending: nat, overdue: nat) returns (highlights: seq<string>)
    ensures highlights == Highlights(completed, pending, overdue)
  {
    highlights := [];
    if completed > 0 {
      highlights := highlights + ["You completed " + TaskCount(completed) + " this week"];
    }
    if overdue == 0 && pending > 0 {
      highlights := highlights + [StayedOnTop];
    }
    if |highlights| == 0 {
      highlights := highlights + [MakingProgress];
    }
  }

  function Strs(ss: seq<string>): (r: seq<Value>)
    ensures |r| == |ss|
  {
    seq(|ss|, i requires 0 <= i < |ss| => Str(ss[i]))
  }

  /** The deterministic summary of a non-empty week. */
  function Fallback(minimal: seq<Snapshot>, weekEnd: Moment): WeeklyPayload {
    var completed := Count(IsDone, minimal);
    var pending := Count(Not(IsDone), minimal);
    var overdue := Count(OverdueAtPool(weekEnd), minimal);
    var highlights := Highlights(completed, pending, overdue);
    WeeklyPayload(FallbackSummary(|minimal|, completed, pending),
                  Strs(highlights[..Min(3, |highlights|)]),
                  Str(if pending > 3 then FocusSuggestion else MomentumSuggestion))
  }

  /** The model's summary after the shape check: `None` when it failed or is malformed. */
  function FromModel(generated: Option<Value>): Option<WeeklyPayload> {
    match generated
    case None => None
    case Some(v) =>
      if Falsy(v) || !Prop(v, "summary").Str? || !Prop(v, "highlights").Arr? then None
      else
        var items := Prop(v, "highlights").items;
        var suggestion := Prop(v, "suggestion");
        Some(WeeklyPayload(Prop(v, "summary").s, items[..Min(3, |items|)],
                           if Falsy(suggestion) then Str("") else suggestion))
  }

  /** The route. `userOf` is `getUserFromToken`, `body` what `req.json()` yields (`{}` when it
      throws), `parseInstant` the instant `new Date(v)` denotes (`None` when invalid, which
      makes the query throw), `db` the stored tasks, `hasClient` whether a model client is
      configured and `generated` the model's answer (`None` when it throws). */
  function WeeklySummary(token: Option<string>, userOf: string -> Option<string>, body: Value,
                         now: Moment, parseInstant: Value -> Option<Moment>, db: seq<Task>,
                         hasClient: bool, generated: Option<Value>): WeeklyResponse
  {
    if token.None? || token.value == "" then WeeklyRejected(401, Unauthorized)
    else if userOf(token.value).None? then WeeklyRejected(401, Unauthorized)
    else
      var weekEndValue := if body.Null? || body.Undefined? then Undefined else Prop(body, "weekEnd");
      var weekEnd := if Falsy(weekEndValue) then Some(now) else parseInstant(weekEndValue);
      // an invalid date fails the cast in `Task.find`, which no `try` surrounds
      if weekEnd.None? then WeeklyThrew
      else
        var minimal := MinimalTasks(Filter(WeekQuery(userOf(token.value).value, weekEnd.value), db));
        if |minimal| == 0 then WeeklyOk(EmptyWeek)
        else if !hasClient then WeeklyOk(Fallback(minimal, weekEnd.value))
        else
          match FromModel(generated)
          case None => WeeklyOk(Unavailable)
          case Some(p) => WeeklyOk(p)
  }

  /** The window is the seven days up to `weekEnd`, both ends included. */
  lemma WindowIsSevenDays(weekEnd: Moment, c: Moment)
    ensures WeekStart(weekEnd).day == weekEnd.day - 7 && WeekStart(weekEnd).time == weekEnd.time
    ensures InWindow(c, weekEnd) <==>
      (c.day > weekEnd.day - 7 || (c.day == weekEnd.day - 7 && c.time >= weekEnd.time))
      && (c.day < weekEnd.day || (c.day == weekEnd.day && c.time <= weekEnd.time))
  {
  }

  /** A week without tasks of the caller gets the fixed reply, with exactly one highlight. */
  lemma EmptyWeekReply(token: Option<string>, userOf: string -> Option<string>, now: Moment, db: seq<Task>,
                       hasClient: bool, generated: Option<Value>)
    requires token.Some? && token.value != "" && userOf(token.value).Some?
    requires forall i :: 0 <= i < |db| ==> !InWeekOf(userOf(token.value).value, now, db[i])
    ensures WeeklySummary(token, userOf, Obj(map[]), now, v => None, db, hasClient, generated) == WeeklyOk(EmptyWeek)
    ensures |EmptyWeek.highlights| == 1
  {
    NoneMatch(WeekQuery(userOf(token.value).value, now), db);
  }

  /** A signed-in caller whose `weekEnd` is truthy but no date makes the handler throw before
      any reply is built; without a token the answer is 401 whatever the body. */
  lemma InvalidWeekEndThrows(token: Option<string>, userOf: string -> Option<string>, body: Value, now: Moment,
                             parseInstant: Value -> Option<Moment>, db: seq<Task>, hasClient: bool,
                             generated: Option<Value>)
    ensures (token.Some? && token.value != "" && userOf(token.value).Some? && body.Obj?
             && !Falsy(Prop(body, "weekEnd")) && parseInstant(Prop(body, "weekEnd")).None?) ==>
      WeeklySummary(token, userOf, body, now, parseInstant, db, hasClient, generated) == WeeklyThrew
    ensures token.None? || token == Some("") || userOf(token.value).None? ==>
      WeeklySummary(token, userOf, body, now, parseInstant, db, hasClient, generated) == WeeklyRejected(401, Unauthorized)
    ensures WeeklySummary(token, userOf, body, now, parseInstant, db, hasClient, generated) == WeeklyThrew ==>
      !Falsy(Prop(body, "weekEnd"))
  {
  }

  /** In the deterministic summary, the completed and the pending counts add up to the
      number of tasks in the window. */
  lemma CompletedPlusPending(minimal: seq<Snapshot>)
    ensures Count(IsDone, minimal) + Count(Not(IsDone), minimal) == |minimal|
  {
    CountNot(IsDone, minimal);
  }

  /** The deterministic highlights: one to three of them (two at most, in fact); the
      completed line iff something was completed, "stayed on top" iff nothing is overdue
      and something is pending, and the generic line iff neither. */
  lemma HighlightsRules(completed: nat, pending: nat, overdue: nat)
    ensures var h := Highlights(completed, pending, overdue);
      && 1 <= |h| <= 2
      && (StayedOnTop in h <==> overdue == 0 && pending > 0)
      && (MakingProgress in h <==> completed == 0 && !(overdue == 0 && pending > 0))
      && (completed > 0 <==> h[0] == "You completed " + TaskCount(completed) + " this week")
  {
    var line := "You completed " + TaskCount(completed) + " this week";
    assert line[..4] == "You " && StayedOnTop[..4] == "You " && MakingProgress[..4] == "You'";
    assert line != StayedOnTop by {
      assert line[4] == 'c' && StayedOnTop[4] == 's';
    }
    assert line != MakingProgress;
  }

  /** The fallback's suggestion asks for focus exactly when more than three tasks are pending,
      and it keeps at most three highlights, all of them from the rules. */
  lemma FallbackRules(minimal: seq<Snapshot>, weekEnd: Moment)
    ensures var p := Fallback(minimal, weekEnd);
      var pending := Count(Not(IsDone), minimal);
      && (p.suggestion == Str(FocusSuggestion) <==> pending > 3)
      && 1 <= |p.highlights| <= 3
  {
    assert FocusSuggestion != MomentumSuggestion by {
      assert |FocusSuggestion| != |MomentumSuggestion|;
    }
    HighlightsRules(Count(IsDone, minimal), Count(Not(IsDone), minimal), Count(OverdueAtPool(weekEnd), minimal));
  }

  /** A model summary keeps at most three of its highlights, in order; a failure or a summary
      without a string `summary` and an array of `highlights` gives the fixed fallback. */
  lemma ModelSummaryCapped(generated: Option<Value>)
    ensures FromModel(generated).Some? ==>
      && generated.Some? && Prop(generated.value, "highlights").Arr?
      && |FromModel(generated).value.highlights| <= 3
      && FromModel(generated).value.highlights <= Prop(generated.value, "highlights").items
    ensures FromModel(generated).None? <==>
      generated.None? || Falsy(generated.value) || !Prop(generated.value, "summary").Str?
      || !Prop(generated.value, "highlights").Arr?
  {
  }
}
