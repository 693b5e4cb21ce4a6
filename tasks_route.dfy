/**
 * /api/tasks (app/api/tasks/route.ts): creating a task from a JSON body with the
 * destructuring defaults and the title and due-date checks, and listing a user's
 * tasks through a filter built from the query string, newest first.
 */
module TasksRoute {
  import opened Common
  import opened TaskModel

  datatype PostResponse =
    | PostRejected(status: nat, error: string)
    | Created(task: TaskView)

  const Unauthorized: string := "Unauthorized"
  const TitleRequired: string := "Title is required"
  const DueDateRequired: string := "Due date is required"
  const InternalError: string := "Internal server error"

  /** A destructuring default `{ x = d }`: it replaces only `undefined`. */
  function OrDefault(v: Value, d: Value): Value {
    if v.Undefined? then d else v
  }

  /** The value of an optional string path: a string, or `null`. The model rejects any
      other value, which mongoose would cast to a string or refuse; casting is left out. */
  function TextOrNull(v: Value): Option<Option<string>> {
    if v.Str? then Some(Some(v.s)) else if v.Null? then Some(None) else None
  }

  function StatusOf(v: Value): Option<Status> {
    if v.Str? then ParseStatus(v.s) else None
  }

  function PriorityOf(v: Value): Option<Priority> {
    if v.Str? then ParsePriority(v.s) else None
  }

  /** The optional fields of a create request, after the destructuring defaults and the
      schema's casts. */
  datatype NewFields = NewFields(description: Option<string>, status: Status, priority: Priority,
                                 category: Option<string>, dueDay: int)

  /** The body's optional fields with their defaults, cast as `Task.create` casts them;
      `None` when a cast fails, so that `Task.create` throws. */
  function BodyFields(b: Value, parseDate: Value -> Option<int>): Option<NewFields> {
    var description := TextOrNull(OrDefault(Prop(b, "description"), Str(DefaultDescription)));
    var priority := PriorityOf(OrDefault(Prop(b, "priority"), Str(PriorityName(Medium))));
    var status := StatusOf(OrDefault(Prop(b, "status"), Str(StatusName(Pending))));
    var category := TextOrNull(OrDefault(Prop(b, "category"), Str(DefaultCategory)));
    var due := parseDate(Prop(b, "dueDate"));
    if description.None? || priority.None? || status.None? || category.None? || due.None? then None
    else Some(NewFields(description.value, status.value, priority.value, category.value, due.value))
  }

  /** The checks `POST` makes of the title and due date of a destructured body, in order:
      the rejection they give, or `None` when the body passes them. */
  function BodyRejection(b: Value): Option<PostResponse> {
    var title := Prop(b, "title");
    if Falsy(title) then Some(PostRejected(400, TitleRequired))
    // `title.trim` is not a function
    else if !title.Str? then Some(PostRejected(500, InternalError))
    else if Trim(title.s) == [] then Some(PostRejected(400, TitleRequired))
    else if Falsy(Prop(b, "dueDate")) then Some(PostRejected(400, DueDateRequired))
    else None
  }

  /** `Task.create` from a body that passed the checks, and the response. */
  function CreateFromBody(userId: string, b: Value, parseDate: Value -> Option<int>, newId: string,
                          now: Moment): (PostResponse, Option<Task>)
    requires Prop(b, "title").Str?
  {
    match BodyFields(b, parseDate)
    case None => (PostRejected(500, InternalError), None)
    case Some(nf) =>
      // the schema's trim setter trims the already trimmed title again
      match Create(newId, userId, Trim(Prop(b, "title").s), nf.description, nf.status,
                   nf.priority, nf.category, Some(nf.dueDay), now)
      case None => (PostRejected(400, TitleRequired), None)
      case Some(t) => (Created(ToView(t)), Some(t))
  }

  /** `POST`: the response, and the task created, if any. `userOf` is `getUserFromToken`,
      `body` what `req.json()` yields (`None` when it throws), `parseDate` the day
      `new Date(v)` falls on (`None` for an invalid date), `newId` the id and `now` the
      creation time the database assigns. */
  function CreateOutcome(token: Option<string>, userOf: string -> Option<string>, body: Option<Value>,
                         parseDate: Value -> Option<int>, newId: string, now: Moment): (PostResponse, Option<Task>)
  {
    if token.None? || token.value == "" then (PostRejected(401, Unauthorized), None)
    else if userOf(token.value).None? then (PostRejected(401, Unauthorized), None)
    // a body that is not JSON, and destructuring `null`, throw
    else if body.None? || body.value.Null? || body.value.Undefined? then (PostRejected(500, InternalError), None)
    else if BodyRejection(body.value).Some? then (BodyRejection(body.value).value, None)
    else CreateFromBody(userOf(token.value).value, body.value, parseDate, newId, now)
  }

  /** Without a token, or for an unknown user, the answer is 401 and nothing is created,
      whatever the body. */
  lemma PostUnauthorized(token: Option<string>, userOf: string -> Option<string>, body: Option<Value>,
                         parseDate: Value -> Option<int>, newId: string, now: Moment)
    requires token.None? || token.value == "" || userOf(token.value).None?
    ensures CreateOutcome(token, userOf, body, parseDate, newId, now) == (PostRejected(401, Unauthorized), None)
  {
  }

  /** A missing or blank title, or a missing due date, is a 400 and creates nothing. */
  lemma PostRejectsBlankTitleOrNoDueDate(token: Option<string>, userOf: string -> Option<string>, b: Value,
                                         parseDate: Value -> Option<int>, newId: string, now: Moment)
    requires token.Some? && token.value != "" && userOf(token.value).Some? && b.Obj?
    requires Prop(b, "title").Str? || Prop(b, "title").Undefined?
    requires Prop(b, "title").Undefined? || Trim(Prop(b, "title").s) == [] || Falsy(Prop(b, "dueDate"))
    ensures var r := BodyRejection(b);
      && r.Some? && r.value.PostRejected? && r.value.status == 400
      && CreateOutcome(token, userOf, Some(b), parseDate, newId, now) == (r.value, None)
  {
  }

  /** A created task is owned by the caller, has the trimmed title, the parsed due date and
      the creation time, satisfies the schema, and is what the response shows. */
  lemma PostCreates(token: Option<string>, userOf: string -> Option<string>, body: Option<Value>,
                    parseDate: Value -> Option<int>, newId: string, now: Moment)
    requires CreateOutcome(token, userOf, body, parseDate, newId, now).1.Some?
    ensures var (r, created) := CreateOutcome(token, userOf, body, parseDate, newId, now);
      var t := created.value;
      && token.Some? && userOf(token.value) == Some(t.userId)
      && body.Some? && Prop(body.value, "title").Str? && t.title == Trim(Prop(body.value, "title").s)
      && !Falsy(Prop(body.value, "dueDate"))
      && BodyFields(body.value, parseDate) == Some(NewFields(t.description, t.status, t.priority, t.category, t.dueDate.value))
      && WellFormed(t) && t.id == newId && t.createdAt == now
      && r == Created(ToView(t)) && r.task.tags == []
  {
    TrimIdempotent(Prop(body.value, "title").s);
  }

  /** Fields the body leaves out take their defaults: an empty description, status
      "pending", priority "medium" and category "General". */
  lemma PostDefaults(b: Value, parseDate: Value -> Option<int>)
    requires b.Obj? && parseDate(Prop(b, "dueDate")).Some?
    requires Prop(b, "description").Undefined? && Prop(b, "priority").Undefined?
    requires Prop(b, "status").Undefined? && Prop(b, "category").Undefined?
    ensures BodyFields(b, parseDate) == Some(NewFields(Some(""), Pending, Medium, Some("General"),
                                                       parseDate(Prop(b, "dueDate")).value))
  {
    PriorityNamesRoundTrip(Medium);
    StatusNamesRoundTrip(Pending);
  }

  // ---------------------------------------------------------------------------
  // GET
  // ---------------------------------------------------------------------------

  /** The query object `filter`: the owner, and the optional status, category and title search. */
  datatype TaskQuery = TaskQuery(userId: string, status: Option<string>, category: Option<string>,
                                 titleSearch: Option<string>)

  /** A query parameter that narrows the list: present, non-empty and not "all". */
  predicate Narrows(p: Option<string>) {
    p.Some? && p.value != "" && p.value != "all"
  }

  /** `filter` built by conditional field assignment from the query parameters. */
  method BuildFilter(userId: string, status: Option<string>, category: Option<string>, search: Option<string>)
    returns (f: TaskQuery)
    ensures f.userId == userId
    ensures f.status.Some? <==> Narrows(status)
    ensures f.status.Some? ==> f.status == status
    ensures f.category.Some? <==> Narrows(category)
    ensures f.category.Some? ==> f.category == category
    ensures f.titleSearch.Some? <==> search.Some? && search.value != ""
    ensures f.titleSearch.Some? ==> f.titleSearch == search
  {
    f := TaskQuery(userId, None, None, None);
    if status.Some? && status.value != "" && status.value != "all" {
      f := f.(status := status);
    }
    if category.Some? && category.value != "" && category.value != "all" {
      f := f.(category := category);
    }
    if search.Some? && search.value != "" {
      f := f.(titleSearch := search);
    }
  }

  /** Whether a stored task matches the query; the title search is a case-insensitive
      substring test. */
  predicate Matches(f: TaskQuery, t: Task) {
    && t.userId == f.userId
    && (f.status.None? || StatusName(t.status) == f.status.value)
    && (f.category.None? || t.category == Some(f.category.value))
    && (f.titleSearch.None? || Contains(Lower(t.title), Lower(f.titleSearch.value)))
  }

  function MatchesQuery(f: TaskQuery): Task -> bool {
    t => Matches(f, t)
  }

  /** `sort({ createdAt: -1 })`: `a` may precede `b` when it is not older. */
  predicate NewerFirst(a: Task, b: Task) {
    !Before(a.createdAt, b.createdAt)
  }

  /** The tasks `GET` returns for a query over the stored tasks `db`. */
  function ListTasks(db: seq<Task>, f: TaskQuery): seq<TaskView> {
    var found := Sort(NewerFirst, Filter(MatchesQuery(f), db));
    seq(|found|, i requires 0 <= i < |found| => ToView(found[i]))
  }

  datatype ListResponse =
    | ListRejected(status: nat, error: string)
    | Listed(tasks: seq<TaskView>)

  /** `GET`: the token and user guards, then the filter built from the query parameters and
      the matching tasks, newest first. */
  method GetTasks(token: Option<string>, userOf: string -> Option<string>, status: Option<string>,
                  category: Option<string>, search: Option<string>, db: seq<Task>) returns (r: ListResponse)
    ensures token.None? || token.value == "" || userOf(token.value).None? ==> r == ListRejected(401, Unauthorized)
    ensures token.Some? && token.value != "" && userOf(token.value).Some? ==>
      r == Listed(ListTasks(db, TaskQuery(userOf(token.value).value,
                                          if Narrows(status) then status else None,
                                          if Narrows(category) then category else None,
                                          if search.Some? && search.value != "" then search else None)))
  {
    if token.None? || token.value == "" {
      return ListRejected(401, Unauthorized);
    }
    var user := userOf(token.value);
    if user.None? {
      return ListRejected(401, Unauthorized);
    }
    var f := BuildFilter(user.value, status, category, search);
    r := Listed(ListTasks(db, f));
  }

  lemma NewerFirstConnex()
    ensures Connex(NewerFirst)
  {
    forall a: Task, b: Task
      ensures NewerFirst(a, b) || NewerFirst(b, a)
    {
    }
  }

  /** The listed tasks are exactly the caller's tasks matching the query, each once, with
      every task created no earlier than the one after it. */
  lemma ListTasksMeaning(db: seq<Task>, f: TaskQuery)
    ensures var found := Sort(NewerFirst, Filter(MatchesQuery(f), db));
      && ListTasks(db, f) == seq(|found|, i requires 0 <= i < |found| => ToView(found[i]))
      && multiset(found) == multiset(Filter(MatchesQuery(f), db))
      && (forall t :: t in found <==> t in db && Matches(f, t))
      && (forall i :: 0 < i < |found| ==> !Before(found[i - 1].createdAt, found[i].createdAt))
      && (forall t :: t in found ==> t.userId == f.userId)
  {
    var kept := Filter(MatchesQuery(f), db);
    var found := Sort(NewerFirst, kept);
    FilterMembers(MatchesQuery(f), db);
    assert forall t :: t in found <==> t in multiset(found);
    assert forall t :: t in kept <==> t in multiset(kept);
    NewerFirstConnex();
    SortSorted(NewerFirst, kept);
  }

  /** With no narrowing parameter, the list holds every task of the caller. */
  lemma UnfilteredListsAllOwnTasks(db: seq<Task>, userId: string, t: Task)
    ensures var f := TaskQuery(userId, None, None, None);
      t in Sort(NewerFirst, Filter(MatchesQuery(f), db)) <==> t in db && t.userId == userId
  {
    ListTasksMeaning(db, TaskQuery(userId, None, None, None));
  }
}
