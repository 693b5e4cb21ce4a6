/**
 * The profile page of components/profile/ProfileClient.tsx: the avatar's
 * initials, the assistant status panel, and the activity snapshot loaded
 * once from the task list, whose late answer is dropped once the page has
 * gone. The request and `localStorage` are parameters.
 */
module Profile {
  import opened Common
  import AiPreferences

  // ---------------------------------------------------------------------------
  // Initials and heading
  // ---------------------------------------------------------------------------

  /** `part?.[0] ?? ""`: the first character of a part, or nothing. */
  function FirstChar(part: string): (r: string)
    ensures |r| <= 1
  {
    if part == [] then "" else [part[0]]
  }

  /** The avatar's initials: "U" for an empty name, otherwise the first characters of the
      first two space-separated parts of the trimmed name, in upper case. */
  function Initials(name: string): string {
    if name == [] then "U"
    else
      var parts := Split(Trim(name), ' ');
      Upper(FirstChar(parts[0]) + (if |parts| > 1 then FirstChar(parts[1]) else ""))
  }

  /** At most two upper-case characters; "U" exactly for an empty name, none exactly for a
      name of white space, and otherwise led by the trimmed name's first character. */
  lemma InitialsMeaning(name: string)
    ensures var r := Initials(name);
      && |r| <= 2
      && (forall i :: 0 <= i < |r| ==> !('a' <= r[i] <= 'z'))
      && (name == [] ==> r == "U")
      && (name != [] ==> (r == [] <==> forall i :: 0 <= i < |name| ==> IsSpace(name[i])))
      && (name != [] && Trim(name) != [] ==> r != [] && r[0] == UpperChar(Trim(name)[0]))
  {
    if name != [] {
      var t := Trim(name);
      var parts := Split(t, ' ');
      if t != [] {
        assert t[0] != ' ';
        assert parts[0] == [t[0]] + Split(t[1..], ' ')[0];
      } else {
        assert parts == [""];
      }
    }
  }

  /** The heading: the name, or "Your workspace" when it is empty. */
  function Heading(name: string): (r: string)
    ensures r != [] && (name != [] ==> r == name)
  {
    if name == [] then "Your workspace" else name
  }

  /** "Member since": "Unknown" without a creation date, otherwise the date as `format`
      (the locale's short date) renders it. */
  function MemberSince(createdAt: Option<string>, format: string -> string): string {
    if createdAt.None? || createdAt.value == [] then "Unknown" else format(createdAt.value)
  }

  // ---------------------------------------------------------------------------
  // Assistant status panel
  // ---------------------------------------------------------------------------

  /** `v ?? fallback`. */
  function OrElse(v: Value, fallback: Value): (r: Value)
    ensures !(v.Null? || v.Undefined?) ==> r == v
  {
    if v.Null? || v.Undefined? then fallback else v
  }

  /** What the status panel shows: enabled or disabled, daily or manual insights, detailed
      or short answers. */
  datatype Panel = Panel(enabled: bool, daily: bool, detailed: bool)

  /** The panel for the preferences read on mount (`None` before they are read). */
  function PanelOf(prefs: Option<AiPreferences.Prefs>): Panel {
    match prefs
    case None => Panel(true, false, false)
    case Some(p) =>
      Panel(!Falsy(OrElse(Get(p, "enabled"), Bool(true))),
            OrElse(Get(p, "insightsFrequency"), Str("manual")) == Str("daily"),
            Get(p, "responseStyle") == Str("detailed"))
  }

  /** Missing preferences show as the defaults do: enabled, manual insights, short answers. */
  lemma PanelDefaults()
    ensures PanelOf(None) == PanelOf(Some(AiPreferences.Defaults)) == Panel(true, false, false)
  {
    assert Get(AiPreferences.Defaults, "enabled") == Bool(true);
    assert Get(AiPreferences.Defaults, "insightsFrequency") == Str("manual");
    assert Get(AiPreferences.Defaults, "responseStyle") == Str("short");
  }

  /** The panel agrees with the assistant's own switch, except that an `enabled` that is
      `null` or missing shows as enabled here while `isAIEnabled` treats it as off. */
  lemma PanelAgreesWithSwitch(p: AiPreferences.Prefs)
    ensures var e := Get(p, "enabled");
      && (!(e.Null? || e.Undefined?) ==> (PanelOf(Some(p)).enabled <==> AiPreferences.IsEnabled(p)))
      && (e.Null? || e.Undefined? ==> PanelOf(Some(p)).enabled && !AiPreferences.IsEnabled(p))
  {
  }

  // ---------------------------------------------------------------------------
  // Activity snapshot
  // ---------------------------------------------------------------------------

  datatype Activity = Activity(tasksCreated: nat, tasksCompleted: nat, insightsViewed: int)

  const NoActivity := Activity(0, 0, 0)

  /** What the task request came back with. */
  datatype Answer = RequestFailed | Answered(ok: bool, data: Value)

  /** The `localStorage` read of `taskmind_ai_insights_viewed`: blocked (it throws), or the
      item, when there is one. */
  datatype Stored = Blocked | Read(raw: Option<string>)

  /** The insights counter: the integer the item starts with, or 0 when the storage is
      blocked, the item is absent or it does not start with an integer. */
  function InsightsViewed(stored: Stored): int {
    if stored.Blocked? || stored.raw.None? then 0
    else
      match ParseInt(stored.raw.value)
      case None => 0
      case Some(n) => n
  }

  predicate IsDone(t: Value) {
    Prop(t, "status") == Str("done")
  }

  /** The task list of an answer, or `None` where reading it throws: a failed or non-OK
      answer, a `null` body, a `tasks` that is truthy but no array, or a `null` entry in it. */
  function TasksOf(answer: Answer): Option<seq<Value>> {
    if answer.RequestFailed? || !answer.ok || answer.data.Null? then None
    else
      var tasks := Prop(answer.data, "tasks");
      if Falsy(tasks) then Some([])
      else if !tasks.Arr? then None
      else if exists i :: 0 <= i < |tasks.items| && (tasks.items[i].Null? || tasks.items[i].Undefined?) then None
      else Some(tasks.items)
  }

  /** The snapshot `loadActivity` arrives at. */
  function ActivityOf(answer: Answer, stored: Stored): Activity {
    match TasksOf(answer)
    case None => NoActivity
    case Some(tasks) => Activity(|tasks|, Count(IsDone, tasks), InsightsViewed(stored))
  }

  /** Completed tasks never outnumber created ones; a failed load, a non-OK status and a
      `null` body all zero the three counters, and a body without tasks counts none. */
  lemma ActivityMeaning(answer: Answer, stored: Stored)
    ensures var a := ActivityOf(answer, stored);
      && a.tasksCompleted <= a.tasksCreated
      && (TasksOf(answer).None? ==> a == NoActivity)
      && (answer.RequestFailed? || !answer.ok || answer.data == Null ==> a == NoActivity)
      && (answer.Answered? && answer.ok && answer.data.Obj? && "tasks" !in answer.data.fields ==>
            a == Activity(0, 0, InsightsViewed(stored)))
      && (TasksOf(answer).Some? ==>
            a.tasksCreated == |TasksOf(answer).value| && a.insightsViewed == InsightsViewed(stored))
  {
    if TasksOf(answer).Some? {
      CountNot(IsDone, TasksOf(answer).value);
    }
  }

  /** The counter reads back what was stored as a number, and is 0 without one. */
  lemma InsightsViewedMeaning(n: nat, raw: string)
    ensures InsightsViewed(Read(Some(NatToString(n)))) == n
    ensures InsightsViewed(Read(None)) == 0 && InsightsViewed(Blocked) == 0
    ensures LeadingDigits(Unsigned(TrimStart(raw))) == [] ==> InsightsViewed(Read(Some(raw))) == 0
  {
    ParseIntOfNat(n);
  }

  class ProfilePage {
    var prefs: Option<AiPreferences.Prefs>
    var activity: Activity
    var activityLoading: bool
    /** Set when the page unmounts; the pending load then changes nothing. */
    var cancelled: bool

    constructor()
      ensures prefs == None && activity == NoActivity && activityLoading && !cancelled
    {
      prefs := None;
      activity := NoActivity;
      activityLoading := true;
      cancelled := false;
    }

    /** The preferences effect: read them once on mount. */
    method LoadPreferences(current: AiPreferences.Prefs)
      modifies this`prefs
      ensures prefs == Some(current)
    {
      prefs := Some(current);
    }

    /** An `aiPreferencesChanged` event replaces the preferences shown. */
    method PreferencesChanged(e: AiPreferences.Event)
      modifies this`prefs
      ensures prefs == Some(e.detail)
    {
      prefs := Some(e.detail);
    }

    /** The start of `loadActivity`: loading. */
    method BeginLoad()
      modifies this`activityLoading
      ensures activityLoading
    {
      activityLoading := true;
    }

    /** The cleanup of the activity effect. */
    method Unmount()
      modifies this`cancelled
      ensures cancelled
    {
      cancelled := true;
    }

    /** The rest of `loadActivity`, once the answer is in: the snapshot and the end of
        loading, both only while the page is still there. */
    method FinishLoad(answer: Answer, stored: Stored)
      modifies this`activity, this`activityLoading
      ensures old(cancelled) ==> activity == old(activity) && activityLoading == old(activityLoading)
      ensures !old(cancelled) ==> activity == ActivityOf(answer, stored) && !activityLoading
    {
      if cancelled {
        return;
      }
      var loaded := TasksOf(answer);
      if loaded.Some? {
        activity := Activity(|loaded.value|, Count(IsDone, loaded.value), InsightsViewed(stored));
      } else {
        activity := NoActivity;
      }
      activityLoading := false;
    }
  }
}
