/**
 * POST /api/ai/actions/apply (app/api/ai/actions/apply/route.ts): the ordered
 * guards that a user-approved suggestion must pass, and the update of only the
 * whitelisted fields of the target task. The database is a map from task id to
 * the stored task, whose `userId` is its owner.
 */
module ApplyRoute {
  import opened Common
  import opened TaskModel
  import opened AiActions

  /** A saved answer carries the stored task as the task routes project it, and the answer's
      `tags` apart: no `tags` is stored, but `Object.assign` leaves the change's `tags` on the
      loaded document as a plain property, so `task.tags ?? []` reads it back. */
  datatype ApplyResponse =
    | Rejected(status: nat, error: string)
    | Saved(task: TaskView, tags: Value)

  const Unauthorized: string := "Unauthorized"
  const TargetRequired: string := "targetTaskId is required"
  const ChangeRequired: string := "suggestedChange is required"
  const NoAllowedField: string := "suggestedChange must contain at least one allowed field"
  const NotFound: string := "Task not found"
  const Forbidden: string := "Forbidden"
  const InternalError: string := "Internal server error"

  /** `typeof v === "object"`. */
  predicate IsObjectType(v: Value) {
    v.Null? || v.Arr? || v.Obj? || v.Date?
  }

  /** The reassignment of `allowed.dueDate`: a falsy value becomes `null`, anything else the
      date `new Date(value)` denotes; `parseDate` gives `None` for an invalid date. */
  function CoerceDueDate(v: Value, parseDate: Value -> Option<int>): (r: Value)
    ensures Falsy(v) ==> r == Null
    ensures !Falsy(v) && parseDate(v).Some? ==> r == Date(parseDate(v).value)
    ensures !Falsy(v) && parseDate(v).None? ==> r == Str("Invalid Date")
  {
    if Falsy(v) then Null
    else match parseDate(v)
      case Some(d) => Date(d)
      case None => Str("Invalid Date")
  }

  /** `allowed` after the copy loop and the `dueDate` reassignment. */
  function Coerced(change: map<string, Value>, parseDate: Value -> Option<int>): map<string, Value> {
    if "dueDate" in change then change["dueDate" := CoerceDueDate(change["dueDate"], parseDate)] else change
  }

  /** The schema paths a change can set; `tags` is not one of them. */
  datatype Path = TitlePath | DescriptionPath | StatusPath | PriorityPath | CategoryPath | DueDatePath

  function KeyOf(p: Path): string {
    match p
    case TitlePath => "title"
    case DescriptionPath => "description"
    case StatusPath => "status"
    case PriorityPath => "priority"
    case CategoryPath => "category"
    case DueDatePath => "dueDate"
  }

  /** The schema path a key names, if any. */
  function PathOf(key: string): (r: Option<Path>)
    ensures r.Some? ==> KeyOf(r.value) == key
    ensures r.None? ==> forall p: Path :: KeyOf(p) != key
  {
    if key == "title" then Some(TitlePath)
    else if key == "description" then Some(DescriptionPath)
    else if key == "status" then Some(StatusPath)
    else if key == "priority" then Some(PriorityPath)
    else if key == "category" then Some(CategoryPath)
    else if key == "dueDate" then Some(DueDatePath)
    else None
  }

  /** Setting one path of the loaded document, as `Object.assign` and then `save` see it:
      `None` when the value does not pass the schema's cast and validators, so that `save`
      throws. The title setter trims. */
  function SetField(t: Task, p: Path, v: Value): Option<Task> {
    match p
    case TitlePath =>
      if v.Str? && Trim(v.s) != [] then Some(t.(title := Trim(v.s))) else None
    case DescriptionPath =>
      if v.Str? then Some(t.(description := Some(v.s)))
      else if v.Null? then Some(t.(description := None))
      else None
    case StatusPath =>
      if v.Str? && ParseStatus(v.s).Some? then Some(t.(status := ParseStatus(v.s).value)) else None
    case PriorityPath =>
      if v.Str? && ParsePriority(v.s).Some? then Some(t.(priority := ParsePriority(v.s).value)) else None
    case CategoryPath =>
      if v.Str? then Some(t.(category := Some(v.s)))
      else if v.Null? then Some(t.(category := None))
      else None
    case DueDatePath =>
      if v.Date? then Some(t.(dueDate := Some(v.day)))
      else if v.Null? then Some(t.(dueDate := None))
      else None
  }

  /** `Object.assign(task, allowed)` followed by `save`, over the given keys in order; a key
      that names no schema path (`tags`) is not stored under the schema's strict mode, though
      the document still holds it until the answer is built (see `EchoedTags`). */
  function AssignKeys(t: Task, keys: seq<string>, allowed: map<string, Value>): Option<Task>
    decreases |keys|
  {
    if keys == [] then Some(t)
    else
      var next :=
        if keys[0] in allowed && PathOf(keys[0]).Some? then SetField(t, PathOf(keys[0]).value, allowed[keys[0]])
        else Some(t);
      match next
      case None => None
      case Some(t') => AssignKeys(t', keys[1..], allowed)
  }

  function Assign(t: Task, allowed: map<string, Value>): Option<Task> {
    AssignKeys(t, AllowedKeys, allowed)
  }

  /** `task.tags ?? []` after `Object.assign(task, allowed)`: the assigned `tags`, unless it
      is missing, `null` or `undefined`. */
  function EchoedTags(allowed: map<string, Value>): Value {
    if "tags" in allowed && !allowed["tags"].Null? && !allowed["tags"].Undefined? then allowed["tags"] else Arr([])
  }

  /** The response, and the database afterwards, for a request with cookie token `token`,
      where `userOf` is `getUserFromToken` and `body` what `req.json()` yields (`{}` when the
      body is not JSON). */
  function ApplyOutcome(db: map<string, Task>, token: Option<string>, userOf: string -> Option<string>,
                        body: Value, parseDate: Value -> Option<int>): (ApplyResponse, map<string, Task>)
  {
    if token.None? || token.value == "" then (Rejected(401, Unauthorized), db)
    else if userOf(token.value).None? then (Rejected(401, Unauthorized), db)
    // destructuring `null` throws
    else if body.Null? || body.Undefined? then (Rejected(500, InternalError), db)
    else
      var target := Prop(body, "targetTaskId");
      var change := Prop(body, "suggestedChange");
      if Falsy(target) || !target.Str? then (Rejected(400, TargetRequired), db)
      else if Falsy(change) || !IsObjectType(change) then (Rejected(400, ChangeRequired), db)
      else if Sanitized(Fields(change)) == map[] then (Rejected(400, NoAllowedField), db)
      else if target.s !in db then (Rejected(404, NotFound), db)
      else if db[target.s].userId != userOf(token.value).value then (Rejected(403, Forbidden), db)
      else match Assign(db[target.s], Coerced(Sanitized(Fields(change)), parseDate))
        case None => (Rejected(500, InternalError), db)
        case Some(t) => (Saved(ToView(t), EchoedTags(Coerced(Sanitized(Fields(change)), parseDate))), db[target.s := t])
  }

  /** The loop filling `allowed` from the keys of a sanitised change: its defined values. */
  method CopyDefined(suggested: map<string, Value>) returns (allowed: map<string, Value>)
    requires forall k :: k in suggested ==> k in AllowedKeys
    ensures allowed == map k | k in suggested && suggested[k] != Undefined :: suggested[k]
  {
    allowed := map[];
    for i := 0 to |AllowedKeys|
      invariant allowed == map k | k in suggested && k in AllowedKeys[..i] && suggested[k] != Undefined :: suggested[k]
    {
      var k := AllowedKeys[i];
      assert AllowedKeys[..i + 1] == AllowedKeys[..i] + [k];
      if Get(suggested, k) != Undefined {
        allowed := allowed[k := suggested[k]];
      }
    }
    assert AllowedKeys[..|AllowedKeys|] == AllowedKeys;
  }

  /** A schema path of a task read back as the value `Object.assign` would have written. */
  function Read(t: Task, p: Path): Value {
    match p
    case TitlePath => Str(t.title)
    case DescriptionPath => if t.description.Some? then Str(t.description.value) else Null
    case StatusPath => Str(StatusName(t.status))
    case PriorityPath => Str(PriorityName(t.priority))
    case CategoryPath => if t.category.Some? then Str(t.category.value) else Null
    case DueDatePath => if t.dueDate.Some? then Date(t.dueDate.value) else Null
  }

  /** The value a path holds after a successful assignment of `v`: the title setter trims. */
  function Stored(p: Path, v: Value): Value {
    if p == TitlePath && v.Str? then Str(Trim(v.s)) else v
  }

  /** Setting one path changes that path to the stored value and nothing else. */
  lemma SetFieldEffect(t: Task, p: Path, v: Value)
    requires SetField(t, p, v).Some?
    ensures var t' := SetField(t, p, v).value;
      t'.id == t.id && t'.userId == t.userId && t'.createdAt == t.createdAt
      && Read(t', p) == Stored(p, v)
      && forall q :: q != p ==> Read(t', q) == Read(t, q)
  {
    match p
    case StatusPath => StatusNamesRoundTrip(ParseStatus(v.s).value);
    case PriorityPath => PriorityNamesRoundTrip(ParsePriority(v.s).value);
    case _ =>
  }

  /** After a successful assignment, every path whose key is listed in `keys` and present in
      `allowed` holds its stored value, and every other path is as before; the id, the owner
      and the creation time never change. */
  lemma {:induction false} AssignKeysEffect(t: Task, keys: seq<string>, allowed: map<string, Value>)
    requires AssignKeys(t, keys, allowed).Some?
    ensures var t' := AssignKeys(t, keys, allowed).value;
      t'.id == t.id && t'.userId == t.userId && t'.createdAt == t.createdAt
      && forall q :: Read(t', q) ==
           if KeyOf(q) in keys && KeyOf(q) in allowed then Stored(q, allowed[KeyOf(q)]) else Read(t, q)
    decreases |keys|
  {
    if keys != [] {
      var key := keys[0];
      assert forall k :: k in keys <==> k == key || k in keys[1..];
      if key in allowed && PathOf(key).Some? {
        SetFieldEffect(t, PathOf(key).value, allowed[key]);
        AssignKeysEffect(SetField(t, PathOf(key).value, allowed[key]).value, keys[1..], allowed);
      } else {
        AssignKeysEffect(t, keys[1..], allowed);
      }
    }
  }

  /** Every guard that fails leaves the database as it was, and the statuses are the ones
      the route answers with. */
  lemma RejectionWritesNothing(db: map<string, Task>, token: Option<string>, userOf: string -> Option<string>,
                               body: Value, parseDate: Value -> Option<int>)
    ensures var (r, db') := ApplyOutcome(db, token, userOf, body, parseDate);
      r.Rejected? ==> db' == db && r.status in {400, 401, 403, 404, 500}
  {
  }

  /** The guards fire in order: without a token, or for an unknown user, the answer is 401
      whatever the body; a bad `targetTaskId` is reported before a bad change, and both
      before the task is looked up. */
  lemma GuardOrder(db: map<string, Task>, token: Option<string>, userOf: string -> Option<string>,
                   body: Value, parseDate: Value -> Option<int>)
    ensures token.None? || token == Some("") ==> ApplyOutcome(db, token, userOf, body, parseDate).0 == Rejected(401, Unauthorized)
    ensures token.Some? && token.value != "" && userOf(token.value).None? ==>
      ApplyOutcome(db, token, userOf, body, parseDate).0 == Rejected(401, Unauthorized)
    ensures (token.Some? && token.value != "" && userOf(token.value).Some? && body.Obj?
      && !Prop(body, "targetTaskId").Str?) ==> ApplyOutcome(db, token, userOf, body, parseDate).0.status == 400
    ensures ApplyOutcome(db, token, userOf, body, parseDate).0 in {Rejected(404, NotFound), Rejected(403, Forbidden)} ==>
      Prop(body, "targetTaskId").Str? && Sanitized(Fields(Prop(body, "suggestedChange"))) != map[]
  {
  }

  /** A task is written only when every guard passed, and then only that task, which
      becomes the result of assigning the coerced change; the response projects it: its id,
      `""` for a missing description or category, and as its tags the change's `tags` when
      one that is not `null` was suggested, and `[]` otherwise. */
  lemma SavedOnlyWhenGuardsPass(db: map<string, Task>, token: Option<string>, userOf: string -> Option<string>,
                                body: Value, parseDate: Value -> Option<int>)
    requires ApplyOutcome(db, token, userOf, body, parseDate).0.Saved?
    ensures var (r, db') := ApplyOutcome(db, token, userOf, body, parseDate);
      var id := Prop(body, "targetTaskId").s;
      var change := Sanitized(Fields(Prop(body, "suggestedChange")));
      && token.Some? && userOf(token.value).Some? && change != map[]
      && id in db && db[id].userId == userOf(token.value).value
      && db' == db[id := db'[id]]
      && Assign(db[id], Coerced(change, parseDate)) == Some(db'[id])
      && r.task.id == db[id].id
      && ("tags" in change && !change["tags"].Null? ==> r.tags == change["tags"])
      && ("tags" !in change || change["tags"].Null? ==> r.tags == Arr([]))
      && r.task.description == db'[id].description.GetOr("") && r.task.category == db'[id].category.GetOr("")
  {
    var id := Prop(body, "targetTaskId").s;
    var change := Sanitized(Fields(Prop(body, "suggestedChange")));
    AssignKeysEffect(db[id], AllowedKeys, Coerced(change, parseDate));
  }

  /** Assigning a sanitised change keeps the task's id, owner and creation time; each path
      named in the change holds the change's value (the title trimmed), and every other path
      is unchanged. */
  lemma AssignChangesOnlyNamedPaths(t: Task, change: map<string, Value>, parseDate: Value -> Option<int>)
    requires forall k :: k in change ==> k in AllowedKeys
    requires Assign(t, Coerced(change, parseDate)).Some?
    ensures var t' := Assign(t, Coerced(change, parseDate)).value;
      && t'.id == t.id && t'.userId == t.userId && t'.createdAt == t.createdAt
      && (forall q :: KeyOf(q) !in change ==> Read(t', q) == Read(t, q))
      && (forall q :: KeyOf(q) in change && q != DueDatePath ==> Read(t', q) == Stored(q, change[KeyOf(q)]))
  {
    var allowed := Coerced(change, parseDate);
    assert forall k :: k in allowed <==> k in change;
    assert forall k :: k in change && k != "dueDate" ==> allowed[k] == change[k];
    assert forall q :: KeyOf(q) in AllowedKeys;
    AssignKeysEffect(t, AllowedKeys, allowed);
  }

  /** A falsy `dueDate` in the change clears the due date; any other value sets it to the
      day it parses to. */
  lemma AssignCoercesDueDate(t: Task, change: map<string, Value>, parseDate: Value -> Option<int>)
    requires "dueDate" in change
    requires Assign(t, Coerced(change, parseDate)).Some?
    ensures Assign(t, Coerced(change, parseDate)).value.dueDate ==
      if Falsy(change["dueDate"]) then None else parseDate(change["dueDate"])
  {
    var allowed := Coerced(change, parseDate);
    AssignKeysEffect(t, AllowedKeys, allowed);
    assert KeyOf(DueDatePath) in AllowedKeys;
    assert Read(Assign(t, allowed).value, DueDatePath) == Stored(DueDatePath, allowed["dueDate"]);
  }

  /** The task collection as the route uses it. */
  class TaskCollection {
    var tasks: map<string, Task>

    constructor (tasks: map<string, Task>)
      ensures this.tasks == tasks
    {
      this.tasks := tasks;
    }

    /** `POST`: early-return guards, the copy loop, the `dueDate` reassignment, then the
        in-place assignment and `save`. */
    method Apply(token: Option<string>, userOf: string -> Option<string>, body: Value,
                 parseDate: Value -> Option<int>) returns (r: ApplyResponse)
      modifies this
      ensures (r, tasks) == ApplyOutcome(old(tasks), token, userOf, body, parseDate)
    {
      if token.None? || token.value == "" {
        return Rejected(401, Unauthorized);
      }
      var user := userOf(token.value);
      if user.None? {
        return Rejected(401, Unauthorized);
      }
      if body.Null? || body.Undefined? {
        return Rejected(500, InternalError);
      }
      var target := Prop(body, "targetTaskId");
      var rawChange := Prop(body, "suggestedChange");
      if Falsy(target) || !target.Str? {
        return Rejected(400, TargetRequired);
      }
      if Falsy(rawChange) || !IsObjectType(rawChange) {
        return Rejected(400, ChangeRequired);
      }
      var suggested := SanitizeSuggestedChange(Fields(rawChange));
      if suggested == map[] {
        return Rejected(400, NoAllowedField);
      }
      if target.s !in tasks {
        return Rejected(404, NotFound);
      }
      var task := tasks[target.s];
      if task.userId != user.value {
        return Rejected(403, Forbidden);
      }
      var allowed := CopyDefined(suggested);
      assert allowed == suggested;
      if "dueDate" in allowed {
        allowed := allowed["dueDate" := CoerceDueDate(allowed["dueDate"], parseDate)];
      }
      var saved := Assign(task, allowed);
      if saved.None? {
        return Rejected(500, InternalError);
      }
      tasks := tasks[target.s := saved.value];
      r := Saved(ToView(saved.value), EchoedTags(allowed));
    }
  }
}
