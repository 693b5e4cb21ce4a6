/**
 * The Task record of models/Task.ts: the stored document with its schema
 * constraints and defaults, the read-only snapshot the analysis layer consumes,
 * and the JSON view the API hands to the dashboard.
 */
module TaskModel {
  import opened Common

  datatype Status = Pending | InProgress | Done
  datatype Priority = Low | Medium | High

  function StatusName(s: Status): string {
    match s
    case Pending => "pending"
    case InProgress => "in-progress"
    case Done => "done"
  }

  function PriorityName(p: Priority): string {
    match p
    case Low => "low"
    case Medium => "medium"
    case High => "high"
  }

  /** The schema's `enum` check on `status`. */
  function ParseStatus(s: string): (r: Option<Status>)
    ensures r.Some? ==> StatusName(r.value) == s
    ensures r.None? ==> forall st: Status :: StatusName(st) != s
  {
    if s == "pending" then Some(Pending)
    else if s == "in-progress" then Some(InProgress)
    else if s == "done" then Some(Done)
    else None
  }

  /** The schema's `enum` check on `priority`. */
  function ParsePriority(s: string): (r: Option<Priority>)
    ensures r.Some? ==> PriorityName(r.value) == s
    ensures r.None? ==> forall p: Priority :: PriorityName(p) != s
  {
    if s == "low" then Some(Low)
    else if s == "medium" then Some(Medium)
    else if s == "high" then Some(High)
    else None
  }

  lemma StatusNamesRoundTrip(s: Status)
    ensures ParseStatus(StatusName(s)) == Some(s)
  {
  }

  lemma PriorityNamesRoundTrip(p: Priority)
    ensures ParsePriority(PriorityName(p)) == Some(p)
  {
  }

  /** A stored task document. `description` and `category` are `None` when stored as
      `null`; `dueDate` is the day the stored date falls on. The schema declares no
      `tags` path, so under mongoose's default strict mode no tags are ever stored. */
  datatype Task = Task(
    id: string,
    userId: string,
    title: string,
    description: Option<string>,
    status: Status,
    priority: Priority,
    category: Option<string>,
    dueDate: Option<int>,
    createdAt: Moment)

  /** What the schema guarantees of every stored task: a title that is required and trimmed. */
  predicate WellFormed(t: Task) {
    t.title != [] && Trim(t.title) == t.title
  }

  const DefaultDescription: string := ""
  const DefaultCategory: string := "General"

  /** `Task.create` with every field given: the `trim` setter runs on the title and the
      `required` validator rejects a title that is empty after trimming. */
  function Create(id: string, userId: string, title: string, description: Option<string>,
                  status: Status, priority: Priority, category: Option<string>,
                  dueDate: Option<int>, createdAt: Moment): (r: Option<Task>)
    ensures r.Some? <==> Trim(title) != []
    ensures r.Some? ==> WellFormed(r.value)
    ensures r.Some? ==> (r.value.title == Trim(title) && r.value.userId == userId
      && r.value.createdAt == createdAt && r.value.status == status && r.value.priority == priority
      && r.value.description == description && r.value.category == category && r.value.dueDate == dueDate)
  {
    if Trim(title) == [] then None
    else
      TrimIdempotent(title);
      Some(Task(id, userId, Trim(title), description, status, priority, category, dueDate, createdAt))
  }

  /** `Task.create` with only the required fields: the schema's defaults fill in the rest. */
  function CreateWithDefaults(id: string, userId: string, title: string, createdAt: Moment): (r: Option<Task>)
    ensures r.Some? <==> Trim(title) != []
    ensures r.Some? ==> (WellFormed(r.value) && r.value.status == Pending && r.value.priority == Medium
      && r.value.description == Some("") && r.value.category == Some("General") && r.value.dueDate == None
      && r.value.userId == userId && r.value.createdAt == createdAt)
  {
    Create(id, userId, title, Some(DefaultDescription), Pending, Medium, Some(DefaultCategory), None, createdAt)
  }

  /** The read-only task snapshot the analysis functions consume. The routes build it from
      stored tasks; some projections leave out the id, the description or the creation time. */
  datatype Snapshot = Snapshot(
    id: Option<string>,
    title: string,
    description: Option<string>,
    status: Status,
    priority: Priority,
    dueDay: Option<int>,
    createdAt: Option<Moment>)

  predicate IsActive(t: Snapshot) {
    t.status != Done
  }

  /** A task as the API returns it and the dashboard keeps it; `dueDate` is the day its
      date-only string names, `createdAt` the instant its ISO string names. */
  datatype TaskView = TaskView(
    id: string,
    title: string,
    description: string,
    status: Status,
    priority: Priority,
    dueDate: Option<int>,
    category: string,
    tags: seq<string>,
    createdAt: Option<Moment>)

  /** The JSON form of a stored task that the task routes answer with: a missing description
      or category reads as `""`, no tags are ever stored, and the creation time is present. */
  function ToView(t: Task): TaskView {
    TaskView(t.id, t.title, t.description.GetOr(""), t.status, t.priority, t.dueDate,
             t.category.GetOr(""), [], Some(t.createdAt))
  }
}
