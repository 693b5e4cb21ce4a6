/**
 * The task list of components/TaskList.tsx: the status cycle of the check
 * button, the badge colours and icons, the due-date label and the priority
 * label. The colour and icon tables take any string, as the component does.
 */
module TaskList {
  import opened Common
  import opened TaskModel

  /** The `nextStatus` table. */
  function NextStatus(s: Status): Status {
    match s
    case Pending => InProgress
    case InProgress => Done
    case Done => Pending
  }

  /** `nextStatus[task.status]`: `undefined` for a status outside the table. */
  function NextStatusOf(s: string): Option<Status> {
    match ParseStatus(s)
    case Some(st) => Some(NextStatus(st))
    case None => None
  }

  /** Every click moves the status on, and three clicks bring it back. */
  lemma StatusCycle(s: Status)
    ensures NextStatus(s) != s
    ensures NextStatus(NextStatus(s)) != s
    ensures NextStatus(NextStatus(NextStatus(s))) == s
    ensures NextStatusOf(StatusName(s)) == Some(NextStatus(s))
  {
    StatusNamesRoundTrip(s);
  }

  const DefaultPriorityColor: string := "bg-slate-50 text-slate-700 border-slate-100"
  const NeutralStatusColor: string := "bg-slate-500/20 border-slate-500/30"
  const PendingIcon: string := "\U{25EF}"

  /** `getPriorityColor`. */
  function PriorityColor(priority: string): string {
    match ParsePriority(priority)
    case Some(High) => "bg-red-50 text-red-700 border-red-100"
    case Some(Medium) => "bg-amber-50 text-amber-700 border-amber-100"
    case Some(Low) => "bg-emerald-50 text-emerald-700 border-emerald-100"
    case None => DefaultPriorityColor
  }

  /** `getStatusColor`. */
  function StatusColor(status: string): string {
    match ParseStatus(status)
    case Some(Done) => "bg-green-500/20 border-green-500/30"
    case Some(InProgress) => "bg-blue-500/20 border-blue-500/30"
    case Some(Pending) => NeutralStatusColor
    case None => NeutralStatusColor
  }

  /** `getStatusIcon`. */
  function StatusIcon(status: string): string {
    match ParseStatus(status)
    case Some(Done) => "\U{2713}"
    case Some(InProgress) => "\U{26A1}"
    case Some(Pending) => PendingIcon
    case None => PendingIcon
  }

  /** A value outside the enumerations gets the neutral badge: the default priority colour,
      and the colour and icon of a pending task. */
  lemma UnknownValuesLookNeutral(priority: string, status: string)
    ensures (forall p: Priority :: PriorityName(p) != priority) ==> PriorityColor(priority) == DefaultPriorityColor
    ensures (forall s: Status :: StatusName(s) != status) ==>
      StatusColor(status) == StatusColor(StatusName(Pending)) && StatusIcon(status) == PendingIcon
  {
    StatusNamesRoundTrip(Pending);
  }

  const MonthNames: seq<string> :=
    ["Jan", "Feb", "Mar", "Apr", "May", "Jun", "Jul", "Aug", "Sep", "Oct", "Nov", "Dec"]

  /** `formatDate`: "No due date" for a missing or empty date, otherwise the short month
      and the day of the month; `calendar` gives the month (1–12) and day of a date text,
      `None` when it is not a valid date. */
  function FormatDate(date: Option<string>, calendar: string -> Option<(nat, nat)>): string {
    if date.None? || date.value == "" then "No due date"
    else
      match calendar(date.value)
      case None => "Invalid Date"
      case Some((month, day)) =>
        if 1 <= month <= 12 then MonthNames[month - 1] + " " + NatToString(day) else "Invalid Date"
  }

  /** Without a date the label says so, whatever the calendar. */
  lemma NoDateLabel(date: Option<string>, calendar: string -> Option<(nat, nat)>, day: nat)
    ensures date.None? || date == Some("") ==> FormatDate(date, calendar) == "No due date"
    ensures date.Some? && date.value != "" && calendar(date.value) == Some((1, day)) ==>
      FormatDate(date, calendar) == "Jan " + NatToString(day)
  {
  }

  /** `s.charAt(0).toUpperCase() + s.slice(1)`. */
  function Capitalize(s: string): string {
    if s == [] then [] else [UpperChar(s[0])] + s[1..]
  }

  /** The label keeps the priority's length and all but its first character, which is
      upper-cased: "Low", "Medium", "High". */
  lemma CapitalizeMeaning(s: string)
    ensures |Capitalize(s)| == |s|
    ensures s != [] ==> Capitalize(s)[0] == UpperChar(s[0]) && Capitalize(s)[1..] == s[1..]
    ensures Capitalize(PriorityName(Low)) == "Low"
    ensures Capitalize(PriorityName(Medium)) == "Medium"
    ensures Capitalize(PriorityName(High)) == "High"
  {
    assert Capitalize("low") == [UpperChar('l')] + "ow";
    assert Capitalize("medium") == [UpperChar('m')] + "edium";
    assert Capitalize("high") == [UpperChar('h')] + "igh";
  }
}
