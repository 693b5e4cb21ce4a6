/**
 * The weekly summary card of components/WeeklySummary.tsx: the key of the
 * current week, the summary cached in `localStorage` under that key, the
 * guards of `fetchSummary` and the choice of what the card shows. Local time
 * is taken to be UTC; `JSON.parse`, `JSON.stringify` and the server's answer
 * are parameters.
 */
module WeeklySummaryView {
  import opened Common
  import AiPreferences

  // ---------------------------------------------------------------------------
  // getWeekKey
  // ---------------------------------------------------------------------------

  /** `Date.prototype.getDay` of a day number: day 0, 1 January 1970, was a Thursday;
      0 is Sunday. */
  function WeekDay(day: int): (r: int)
    ensures 0 <= r < 7
  {
    (day + 4) % 7
  }

  /** The Monday on or before `day`: a Sunday counts as the seventh day of its week. */
  function WeekStartDay(day: int): int {
    var d := WeekDay(day);
    day - (if d == 0 then 7 else d) + 1
  }

  function IntText(i: int): string {
    if i < 0 then "-" + NatToString(-i) else NatToString(i)
  }

  /** `getWeekKey`: "week-" and the time of the week's Monday midnight, in milliseconds. */
  function WeekKey(now: Moment): string {
    "week-" + IntText(WeekStartDay(now.day) * MsPerDay)
  }

  /** The week starts on a Monday, zero to six days back; a Sunday belongs to the week that
      began six days earlier. */
  lemma WeekStartIsMonday(day: int)
    ensures WeekDay(WeekStartDay(day)) == 1
    ensures 0 <= day - WeekStartDay(day) <= 6
    ensures WeekDay(day) == 0 ==> WeekStartDay(day) == day - 6
    ensures WeekDay(day) == 1 ==> WeekStartDay(day) == day
  {
  }

  /** Any two moments of the same Monday-to-Sunday week share their key. */
  lemma SameWeekSameKey(a: Moment, b: Moment)
    requires WeekStartDay(a.day) <= b.day < WeekStartDay(a.day) + 7
    ensures WeekKey(a) == WeekKey(b)
  {
    var m := WeekStartDay(a.day);
    WeekStartIsMonday(a.day);
    assert WeekDay(b.day) == (WeekDay(m) + (b.day - m)) % 7;
    assert WeekStartDay(b.day) == m;
  }

  // ---------------------------------------------------------------------------
  // getCachedSummary and cacheSummary
  // ---------------------------------------------------------------------------

  /** One read of the cache: the summary found, and the item left behind. */
  datatype Lookup = Lookup(found: Option<Value>, item: Option<string>)

  /** `getCachedSummary`: the stored summary when it was stored this week; a stale or empty
      entry is removed; a parse error, or a stored `null`, yields nothing and keeps the item. */
  function ReadCache(item: Option<string>, browser: bool, now: Moment, parse: string -> Option<Value>): Lookup {
    if !browser || item.None? || item.value == "" then Lookup(None, item)
    else
      match parse(item.value)
      case None => Lookup(None, item)
      case Some(parsed) =>
        if parsed.Null? || parsed.Undefined? then Lookup(None, item)
        else if Prop(parsed, "weekKey") == Str(WeekKey(now)) && !Falsy(Prop(parsed, "data")) then
          Lookup(Some(Prop(parsed, "data")), item)
        else Lookup(None, None)
  }

  /** The record `cacheSummary` stores. */
  function CacheRecord(now: Moment, data: Value): Value {
    Obj(map["weekKey" := Str(WeekKey(now)), "data" := data])
  }

  /** A summary is served from the cache only under the current week's key, and nothing
      else is ever served. */
  lemma CacheServesOnlyThisWeek(item: Option<string>, browser: bool, now: Moment, parse: string -> Option<Value>)
    ensures var l := ReadCache(item, browser, now, parse);
      && (l.found.Some? ==>
            && item.Some? && parse(item.value).Some?
            && Prop(parse(item.value).value, "weekKey") == Str(WeekKey(now))
            && l.found.value == Prop(parse(item.value).value, "data") && !Falsy(l.found.value)
            && l.item == item)
      && (l.item != item ==> l.item == None && l.found.None?)
  {
  }

  /** What was cached this week is read back this week, when the serialisation round-trips. */
  lemma CacheRoundTrip(now: Moment, later: Moment, data: Value, text: string, parse: string -> Option<Value>)
    requires text != "" && parse(text) == Some(CacheRecord(now, data))
    requires !Falsy(data) && WeekKey(later) == WeekKey(now)
    ensures ReadCache(Some(text), true, later, parse) == Lookup(Some(data), Some(text))
  {
    assert Prop(CacheRecord(now, data), "weekKey") == Str(WeekKey(now));
    assert Prop(CacheRecord(now, data), "data") == data;
  }

  // ---------------------------------------------------------------------------
  // The card
  // ---------------------------------------------------------------------------

  /** What the summary request came back with. */
  datatype Answer = RequestFailed | Answered(ok: bool, data: Value)

  /** The summary accepted from an answer: an OK answer with a truthy `summary` and an array
      of `highlights`. */
  function Accepted(answer: Answer): Option<Value> {
    if answer.Answered? && answer.ok && !Falsy(Prop(answer.data, "summary"))
       && Prop(answer.data, "highlights").Arr?
    then
      var suggestion := Prop(answer.data, "suggestion");
      Some(Obj(map["summary" := Prop(answer.data, "summary"),
                   "highlights" := Prop(answer.data, "highlights"),
                   "suggestion" := if Falsy(suggestion) then Str("") else suggestion]))
    else None
  }

  datatype View = Placeholder | Disabled | Retry | Prompt | Generating | Summary

  /** The card's rendering, in the order its branches are tried. */
  function ViewOf(mounted: bool, aiEnabled: bool, error: bool, hasSummary: bool, loading: bool): View {
    if !mounted then Placeholder
    else if !aiEnabled then Disabled
    else if error && !hasSummary then Retry
    else if !hasSummary && !loading then Prompt
    else if !hasSummary then Generating
    else Summary
  }

  /** The summary shows whenever there is one, the card is mounted and the assistant is
      enabled, even after an error; each other view has its own exact condition. */
  lemma ViewPrecedence(mounted: bool, aiEnabled: bool, error: bool, hasSummary: bool, loading: bool)
    ensures var v := ViewOf(mounted, aiEnabled, error, hasSummary, loading);
      && (v == Summary <==> mounted && aiEnabled && hasSummary)
      && (v == Retry <==> mounted && aiEnabled && error && !hasSummary)
      && (v == Generating <==> mounted && aiEnabled && !error && !hasSummary && loading)
      && (v == Prompt <==> mounted && aiEnabled && !error && !hasSummary && !loading)
      && (v == Disabled <==> mounted && !aiEnabled)
  {
  }

  class SummaryCard {
    var summary: Option<Value>
    var loading: bool
    var error: bool
    var aiEnabled: bool
    var expanded: bool
    var mounted: bool
    /** The `localStorage` item `taskmind_weekly_summary`. */
    var cache: Option<string>
    /** Requests sent to the summary route. */
    var requests: nat

    /** What the auto-expand effect re-establishes after every render: a mounted card that
        holds a summary is expanded. */
    predicate Settled()
      reads this
    {
      mounted && summary.Some? ==> expanded
    }

    constructor(stored: Option<string>)
      ensures summary == None && !loading && !error && aiEnabled && !expanded && !mounted
      ensures cache == stored && requests == 0
      ensures Settled()
    {
      summary := None;
      loading := false;
      error := false;
      aiEnabled := true;
      expanded := false;
      mounted := false;
      cache := stored;
      requests := 0;
    }

    /** The mount effects: read the cache and the preferences, then open the card when a
        summary was found. */
    method Mount(now: Moment, parse: string -> Option<Value>, prefs: AiPreferences.Prefs)
      modifies this
      ensures mounted && aiEnabled == AiPreferences.IsEnabled(prefs)
      ensures summary == ReadCache(old(cache), true, now, parse).found
      ensures cache == ReadCache(old(cache), true, now, parse).item
      ensures expanded == (old(expanded) || summary.Some?)
      ensures loading == old(loading) && error == old(error) && requests == old(requests)
      ensures Settled()
    {
      mounted := true;
      var l := ReadCache(cache, true, now, parse);
      summary, cache := l.found, l.item;
      aiEnabled := AiPreferences.IsEnabled(prefs);
      if summary.Some? && !expanded {
        expanded := true;
      }
    }

    /** `fetchSummary`: refuse when the assistant is disabled, serve this week's cached
        summary without a request, otherwise ask once and keep only a well-formed answer,
        which is then cached. */
    method FetchSummary(now: Moment, answer: Answer, parse: string -> Option<Value>, serialize: Value -> string)
      modifies this
      ensures !old(aiEnabled) ==>
        && error && summary == old(summary) && cache == old(cache) && requests == old(requests)
        && expanded == old(expanded) && loading == old(loading)
      ensures old(aiEnabled) && ReadCache(old(cache), true, now, parse).found.Some? ==>
        && summary == ReadCache(old(cache), true, now, parse).found && expanded
        && cache == ReadCache(old(cache), true, now, parse).item
        && requests == old(requests) && error == old(error) && loading == old(loading)
      ensures old(aiEnabled) && ReadCache(old(cache), true, now, parse).found.None? ==>
        && requests == old(requests) + 1 && !loading
        && (Accepted(answer).Some? ==>
              summary == Accepted(answer) && !error && expanded
              && cache == Some(serialize(CacheRecord(now, Accepted(answer).value))))
        && (Accepted(answer).None? ==>
              && error && summary == old(summary) && expanded == old(expanded)
              && cache == ReadCache(old(cache), true, now, parse).item)
      ensures mounted == old(mounted) && aiEnabled == old(aiEnabled)
      ensures old(Settled()) ==> Settled()
    {
      if !aiEnabled {
        error := true;
        return;
      }
      var l := ReadCache(cache, true, now, parse);
      cache := l.item;
      if l.found.Some? {
        summary := l.found;
        expanded := true;
        return;
      }
      loading := true;
      error := false;
      requests := requests + 1;
      var accepted := Accepted(answer);
      if accepted.Some? {
        summary := accepted;
        cache := Some(serialize(CacheRecord(now, accepted.value)));
        expanded := true;
      } else {
        error := true;
      }
      loading := false;
    }

    /** The `aiPreferencesChanged` listener, attached only once the card is mounted. */
    method PreferencesChanged(prefs: AiPreferences.Prefs)
      modifies this`aiEnabled
      ensures aiEnabled == if mounted then AiPreferences.IsEnabled(prefs) else old(aiEnabled)
      ensures old(Settled()) ==> Settled()
    {
      if mounted {
        aiEnabled := AiPreferences.IsEnabled(prefs);
      }
    }

    /** The expand and collapse button, followed by the auto-expand effect, which re-runs
        whenever `expanded` changes: a mounted card with a summary, the only card that shows
        the button, is opened again at once, so only a card without a summary collapses. */
    method Toggle()
      modifies this`expanded
      ensures expanded == (!old(expanded) || (mounted && summary.Some?))
      ensures Settled()
    {
      expanded := !expanded;
      if mounted && summary.Some? && !expanded {
        expanded := true;
      }
    }
  }
}
