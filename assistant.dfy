/**
 * The assistant panel of components/AIAssistant.tsx: the rule-based tips, the
 * queue of pending model suggestions with its dismiss and apply handlers, the
 * chat log, and how much of an insights result is shown. Network replies are
 * parameters of the handlers; suggestion ids, which the component draws from
 * the clock and `Math.random`, are drawn from a counter here.
 */
module Assistant {
  import opened Common
  import opened TaskModel

  // ---------------------------------------------------------------------------
  // generateSuggestions
  // ---------------------------------------------------------------------------

  /** A tip of `generateSuggestions`, carrying what its text mentions. */
  datatype Tip =
    | HighPriorityFirst(title: string)
    | DueToday(count: nat)
    | BreakDown(title: string)
    | Completed(count: nat)
    | Spread(count: nat)
    | Welcome

  /** The fixed order in which the rules are tried. */
  function Rank(t: Tip): nat {
    match t
    case HighPriorityFirst(_) => 0
    case DueToday(_) => 1
    case BreakDown(_) => 2
    case Completed(_) => 3
    case Spread(_) => 4
    case Welcome => 5
  }

  function Icon(t: Tip): string {
    match t
    case HighPriorityFirst(_) => "\U{1F3AF}"
    case DueToday(_) => "\U{23F1}\U{FE0F}"
    case BreakDown(_) => "\U{1F504}"
    case Completed(_) => "\U{2728}"
    case Spread(_) => "\U{1F4C5}"
    case Welcome => "\U{1F44B}"
  }

  function Text(t: Tip): string {
    match t
    case HighPriorityFirst(title) =>
      "Start with \"" + title + "\" - it's marked as high priority and needs your attention first."
    case DueToday(n) => "You have " + NatToString(n) + " task(s) due today. Block 2-3 hours to complete them."
    case BreakDown(title) =>
      "\"" + title + "\" looks complex. Consider breaking it into 2-3 smaller tasks for better focus."
    case Completed(n) =>
      "You've completed " + NatToString(n) + " task(s)! Keep up the momentum by tackling the next pending item."
    case Spread(n) =>
      "You have " + NatToString(n) + " pending tasks. Spread them across the next few days for sustainable progress."
    case Welcome => "Start by creating a task. Break down your goals into actionable steps!"
  }

  /** The `{ icon, text }` record a tip is pushed as. */
  datatype Rendered = Rendered(icon: string, text: string)

  function Render(t: Tip): Rendered {
    Rendered(Icon(t), Text(t))
  }

  /** Each rule has its own icon, so the card tells the kinds of tips apart; the welcome tip's
      text is fixed. */
  lemma RenderTellsKindsApart(a: Tip, b: Tip)
    ensures Rank(a) != Rank(b) ==> Render(a).icon != Render(b).icon
    ensures Render(Welcome).text == "Start by creating a task. Break down your goals into actionable steps!"
  {
  }

  /** `new Date(t.dueDate).toDateString() === new Date().toDateString()`: a missing due date
      reads as the epoch, day 0. */
  predicate IsDueOn(today: int, t: TaskView) {
    t.dueDate.GetOr(0) == today
  }

  predicate IsComplex(t: TaskView) {
    |t.description| > 100 && t.status != Done
  }

  predicate IsHigh(t: TaskView) {
    t.priority == High
  }

  predicate IsPendingTask(t: TaskView) {
    t.status == Pending
  }

  predicate IsDoneTask(t: TaskView) {
    t.status == Done
  }

  function DueOn(today: int): TaskView -> bool {
    t => IsDueOn(today, t)
  }

  /** The tips of the five rules that fire, in rule order. */
  function Rules(tasks: seq<TaskView>, today: int): seq<Tip> {
    var high := Filter(IsHigh, tasks);
    var dueToday := Count(DueOn(today), tasks);
    var complex := Filter(IsComplex, tasks);
    var completed := Count(IsDoneTask, tasks);
    var pending := Count(IsPendingTask, tasks);
    (if |high| > 0 then [HighPriorityFirst(high[0].title)] else [])
    + (if dueToday > 0 then [DueToday(dueToday)] else [])
    + (if |complex| > 0 then [BreakDown(complex[0].title)] else [])
    + (if completed > 0 then [Completed(completed)] else [])
    + (if pending > 3 then [Spread(pending)] else [])
  }

  /** What `generateSuggestions` returns. */
  function Suggestions(tasks: seq<TaskView>, today: int): seq<Tip> {
    var fired := Rules(tasks, today);
    var all := if fired == [] then [Welcome] else fired;
    all[..Min(4, |all|)]
  }

  /** `generateSuggestions`, pushing tip after tip; `today` is the current day. */
  method GenerateSuggestions(tasks: seq<TaskView>, today: int) returns (tips: seq<Tip>)
    ensures tips == Suggestions(tasks, today)
  {
    var pending := Filter(IsPendingTask, tasks);
    var high := Filter(IsHigh, tasks);
    var all: seq<Tip> := [];
    if |high| > 0 {
      all := all + [HighPriorityFirst(high[0].title)];
    }
    var dueToday := Filter(DueOn(today), tasks);
    if |dueToday| > 0 {
      all := all + [DueToday(|dueToday|)];
    }
    var complex := Filter(IsComplex, tasks);
    if |complex| > 0 {
      all := all + [BreakDown(complex[0].title)];
    }
    var completed := |Filter(IsDoneTask, tasks)|;
    if completed > 0 {
      all := all + [Completed(completed)];
    }
    if |pending| > 3 {
      all := all + [Spread(|pending|)];
    }
    if |all| == 0 {
      all := all + [Welcome];
    }
    tips := all[..Min(4, |all|)];
  }

  /** One to four tips, and the welcome tip exactly when no rule fires. */
  lemma SuggestionsShape(tasks: seq<TaskView>, today: int)
    ensures var s := Suggestions(tasks, today);
      && 1 <= |s| <= 4
      && (s == [Welcome] <==> Rules(tasks, today) == [])
      && (Rules(tasks, today) == [] <==>
            Count(IsHigh, tasks) == 0 && Count(DueOn(today), tasks) == 0 && Count(IsComplex, tasks) == 0
            && Count(IsDoneTask, tasks) == 0 && Count(IsPendingTask, tasks) <= 3)
  {
    var r := Rules(tasks, today);
    assert |r| <= 5;
    if r != [] {
      assert r[0] != Welcome;
      assert Suggestions(tasks, today)[0] == r[0];
    }
  }

  /** The tips follow the fixed rule order, so each kind appears at most once. */
  lemma SuggestionsOrdered(tasks: seq<TaskView>, today: int)
    ensures var s := Suggestions(tasks, today);
      forall i, j :: 0 <= i < j < |s| ==> Rank(s[i]) < Rank(s[j])
  {
    var r := Rules(tasks, today);
    assert forall i, j :: 0 <= i < j < |r| ==> Rank(r[i]) < Rank(r[j]);
  }

  // ---------------------------------------------------------------------------
  // Pending suggestions and chat
  // ---------------------------------------------------------------------------

  /** A queued model suggestion; `suggestion` is the `AISuggestion` record as received. */
  datatype Queued = Queued(id: nat, suggestion: Value)

  datatype Speaker = User | Assistant
  datatype Message = Message(from: Speaker, text: string)

  /** What the apply request came back with. */
  datatype ApplyOutcome = Applied | ApplyFailed(error: Option<string>)

  /** What the chat request came back with: a failed request, a non-OK status, or the body
      of an OK response. */
  datatype ChatOutcome = Unreachable | NotOk | Reply(raw: string)

  const RetryMessage: string := "I'm unable to answer right now. Please try again."
  const EmptyReplyMessage: string := "I'm unable to answer right now."
  const ApplyFailedMessage: string := "Failed to apply"
  const NoInsights: string := "No insights available today"

  function Tagged(suggestions: seq<Value>, start: nat): (r: seq<Queued>)
    ensures |r| == |suggestions|
    ensures forall i :: 0 <= i < |r| ==> r[i] == Queued(start + i, suggestions[i])
  {
    seq(|suggestions|, i requires 0 <= i < |suggestions| => Queued(start + i, suggestions[i]))
  }

  /** The queue's ids increase from front to back. */
  predicate Increasing(q: seq<Queued>) {
    forall i, j :: 0 <= i < j < |q| ==> q[i].id < q[j].id
  }

  function WithoutId(id: nat): Queued -> bool {
    (q: Queued) => q.id != id
  }

  /** The text of the assistant message for a chat outcome; `parse` is `JSON.parse`. */
  function ReplyText(outcome: ChatOutcome, parse: string -> Option<Value>): string {
    match outcome
    case Unreachable => RetryMessage
    case NotOk => RetryMessage
    case Reply(raw) =>
      var parsed := parse(raw);
      var text := if parsed.Some? && Prop(parsed.value, "text").Str? then Prop(parsed.value, "text").s else raw;
      if text == "" then EmptyReplyMessage else text
  }

  /** The suggestions an OK chat reply carries. */
  function ReplySuggestions(outcome: ChatOutcome, parse: string -> Option<Value>): seq<Value> {
    if outcome.Reply? && parse(outcome.raw).Some? && Prop(parse(outcome.raw).value, "suggestions").Arr?
    then Prop(parse(outcome.raw).value, "suggestions").items
    else []
  }

  class AssistantState {
    var queue: seq<Queued>
    var applyingId: Option<nat>
    var messages: seq<Message>
    var chatInput: string
    var insights: Option<Value>
    var alerts: seq<string>
    /** Times `onTaskUpdated` was called. */
    var updates: nat
    /** The next id to hand out. */
    var nextId: nat

    /** Every queued id was handed out and the ids increase, so no two are equal. */
    predicate Valid()
      reads this
    {
      Increasing(queue) && forall i :: 0 <= i < |queue| ==> queue[i].id < nextId
    }

    constructor()
      ensures Valid()
      ensures queue == [] && applyingId == None && messages == [] && chatInput == ""
      ensures insights == None && alerts == [] && updates == 0
    {
      queue := [];
      applyingId := None;
      messages := [];
      chatInput := "";
      insights := None;
      alerts := [];
      updates := 0;
      nextId := 0;
    }

    /** `addSuggestions`: nothing for an empty list, otherwise the suggestions are queued
        after the existing ones, in order, under fresh ids. */
    method AddSuggestions(suggestions: seq<Value>)
      requires Valid()
      modifies this
      ensures Valid()
      ensures queue == old(queue) + Tagged(suggestions, old(nextId))
      ensures nextId == old(nextId) + |suggestions|
      ensures applyingId == old(applyingId) && messages == old(messages) && chatInput == old(chatInput)
      ensures insights == old(insights) && alerts == old(alerts) && updates == old(updates)
    {
      if |suggestions| == 0 {
        assert old(queue) + Tagged(suggestions, nextId) == queue;
        return;
      }
      queue := queue + Tagged(suggestions, nextId);
      nextId := nextId + |suggestions|;
    }

    /** `dismissSuggestion`: drops the entries with that id, keeping the rest in order. */
    method Dismiss(id: nat)
      requires Valid()
      modifies this
      ensures Valid()
      ensures queue == Filter(WithoutId(id), old(queue))
      ensures nextId == old(nextId) && applyingId == old(applyingId) && messages == old(messages)
      ensures chatInput == old(chatInput) && insights == old(insights) && alerts == old(alerts)
      ensures updates == old(updates)
    {
      FilterKeepsOrder(WithoutId(id), queue, nextId);
      queue := Filter(WithoutId(id), queue);
    }

    /** `applySuggestion`: the suggestion leaves the queue only when the apply request
        succeeded; a failure raises an alert instead; `applyingId` ends up cleared. */
    method Apply(id: nat, outcome: ApplyOutcome)
      requires Valid()
      modifies this
      ensures Valid()
      ensures applyingId == None
      ensures outcome.Applied? ==>
        queue == Filter(WithoutId(id), old(queue)) && updates == old(updates) + 1 && alerts == old(alerts)
      ensures outcome.ApplyFailed? ==>
        && queue == old(queue) && updates == old(updates)
        && alerts == old(alerts) + [if outcome.error.None? || outcome.error.value == "" then ApplyFailedMessage
                                    else outcome.error.value]
      ensures nextId == old(nextId) && messages == old(messages) && chatInput == old(chatInput)
      ensures insights == old(insights)
    {
      applyingId := Some(id);
      match outcome {
        case Applied =>
          Dismiss(id);
          updates := updates + 1;
        case ApplyFailed(error) =>
          alerts := alerts + [if error.None? || error.value == "" then ApplyFailedMessage else error.value];
      }
      applyingId := None;
    }

    /** `sendChat`: a blank input changes nothing; otherwise the trimmed input is logged as
        the user's message, the input is cleared, any suggestions of the reply are queued and
        exactly one assistant message follows. */
    method SendChat(outcome: ChatOutcome, parse: string -> Option<Value>)
      requires Valid()
      modifies this
      ensures Valid()
      ensures Trim(old(chatInput)) == "" ==>
        queue == old(queue) && messages == old(messages) && chatInput == old(chatInput) && nextId == old(nextId)
      ensures Trim(old(chatInput)) != "" ==>
        && messages == old(messages) + [Message(User, Trim(old(chatInput))), Message(Assistant, ReplyText(outcome, parse))]
        && chatInput == ""
        && queue == old(queue) + Tagged(ReplySuggestions(outcome, parse), old(nextId))
      ensures applyingId == old(applyingId) && insights == old(insights) && alerts == old(alerts)
      ensures updates == old(updates)
    {
      if Trim(chatInput) == "" {
        return;
      }
      var userText := Trim(chatInput);
      messages := messages + [Message(User, userText)];
      chatInput := "";
      AddSuggestions(ReplySuggestions(outcome, parse));
      messages := messages + [Message(Assistant, ReplyText(outcome, parse))];
    }

    /** `fetchInsights`: `data` is the parsed body of an OK response, `None` when the
        request, the status or the parsing failed. A `null` body makes `data.suggestions`
        throw, so it ends in the same catch as a failure. */
    method FetchInsights(data: Option<Value>)
      requires Valid()
      modifies this
      ensures Valid()
      ensures data.Some? && data.value != Null ==> insights == data
      ensures data.None? || data == Some(Null) ==>
        insights == Some(Obj(map["summary" := Str(NoInsights)])) && queue == old(queue) && nextId == old(nextId)
      ensures data.Some? && Prop(data.value, "suggestions").Arr? ==>
        && queue == old(queue) + Tagged(Prop(data.value, "suggestions").items, old(nextId))
        && nextId == old(nextId) + |Prop(data.value, "suggestions").items|
      ensures data.Some? && !Prop(data.value, "suggestions").Arr? ==> queue == old(queue) && nextId == old(nextId)
      ensures applyingId == old(applyingId) && messages == old(messages) && chatInput == old(chatInput)
      ensures alerts == old(alerts) && updates == old(updates)
    {
      if data.None? || data.value.Null? {
        insights := Some(Obj(map["summary" := Str(NoInsights)]));
        return;
      }
      insights := data;
      var s := Prop(data.value, "suggestions");
      if s.Arr? && |s.items| > 0 {
        AddSuggestions(s.items);
      } else if s.Arr? {
        assert old(queue) + Tagged(s.items, old(nextId)) == queue;
      }
    }
  }

  lemma {:induction false} FilterKeepsOrder(p: Queued -> bool, q: seq<Queued>, bound: nat)
    requires Increasing(q) && forall i :: 0 <= i < |q| ==> q[i].id < bound
    ensures Increasing(Filter(p, q)) && forall i :: 0 <= i < |Filter(p, q)| ==> Filter(p, q)[i].id < bound
  {
    if q != [] {
      FilterKeepsOrder(p, q[1..], bound);
      FilterMembers(p, q[1..]);
      var rest := Filter(p, q[1..]);
      forall i | 0 <= i < |rest|
        ensures q[0].id < rest[i].id
      {
        assert rest[i] in q[1..];
      }
    }
  }

  /** Dismissing removes exactly the entries with that id. */
  lemma DismissRemovesExactly(q: seq<Queued>, id: nat, e: Queued)
    ensures e in Filter(WithoutId(id), q) <==> e in q && e.id != id
  {
    FilterMembers(WithoutId(id), q);
  }

  // ---------------------------------------------------------------------------
  // The insights card
  // ---------------------------------------------------------------------------

  /** What the card shows of an insights result: the first two focus tasks, the number of
      further ones when there are any, and the first two warnings. */
  datatype Card = Card(focus: seq<Value>, more: Option<nat>, warnings: seq<Value>)

  function CardOf(insights: Value): Card {
    var f := Prop(insights, "focusTasks");
    var w := Prop(insights, "warnings");
    var focus := if f.Arr? then f.items else [];
    var warnings := if w.Arr? then w.items else [];
    Card(focus[..Min(2, |focus|)], if |focus| > 2 then Some(|focus| - 2) else None,
         warnings[..Min(2, |warnings|)])
  }

  /** At most two focus tasks and two warnings are shown, the first ones; the "+N more"
      count appears exactly when focus tasks are hidden and counts them all. */
  lemma CardTruncates(insights: Value)
    ensures var c := CardOf(insights);
      var f := Prop(insights, "focusTasks");
      && |c.focus| <= 2 && |c.warnings| <= 2
      && (f.Arr? ==>
            c.focus <= f.items && (c.more.Some? <==> |f.items| > 2)
            && (c.more.Some? ==> |c.focus| + c.more.value == |f.items|))
      && (Prop(insights, "warnings").Arr? ==> c.warnings <= Prop(insights, "warnings").items)
  {
  }
}
