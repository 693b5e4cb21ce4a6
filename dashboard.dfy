/**
 * The dashboard page of app/dashboard/page.tsx: the client-side filter over
 * the fetched tasks, the category choices, the query of the fetch, and the
 * handlers that change the task list once the server has answered. The
 * server's answers are parameters of the handlers.
 */
module Dashboard {
  import opened Common
  import opened TaskModel

  /** The status select: "all" or one status. */
  datatype StatusChoice = AnyStatus | Only(status: Status)

  const All: string := "all"

  predicate MatchesSearch(t: TaskView, query: string) {
    Trim(query) == ""
    || (t.title != "" && Contains(Lower(t.title), Lower(query)))
    || (t.description != "" && Contains(Lower(t.description), Lower(query)))
  }

  /** The predicate of `filteredTasks`; the search text is trimmed only to decide whether
      it is blank. */
  predicate Shown(t: TaskView, status: StatusChoice, category: string, query: string) {
    (status.AnyStatus? || t.status == status.status)
    && (category == All || t.category == category)
    && MatchesSearch(t, query)
  }

  function ShownBy(status: StatusChoice, category: string, query: string): TaskView -> bool {
    t => Shown(t, status, category, query)
  }

  function FilteredTasks(tasks: seq<TaskView>, status: StatusChoice, category: string, query: string): seq<TaskView> {
    Filter(ShownBy(status, category, query), tasks)
  }

  /** The filter keeps tasks in order and drops nothing it should keep; with no status, no
      category and a blank search it keeps everything. */
  lemma FilteredMeaning(tasks: seq<TaskView>, status: StatusChoice, category: string, query: string, t: TaskView)
    ensures Subseq(FilteredTasks(tasks, status, category, query), tasks)
    ensures t in FilteredTasks(tasks, status, category, query) <==> t in tasks && Shown(t, status, category, query)
    ensures status.AnyStatus? && category == All && Trim(query) == "" ==>
      FilteredTasks(tasks, status, category, query) == tasks
  {
    FilterSubseq(ShownBy(status, category, query), tasks);
    FilterMembers(ShownBy(status, category, query), tasks);
    if status.AnyStatus? && category == All && Trim(query) == "" {
      FilterAll(ShownBy(status, category, query), tasks);
    }
  }

  lemma LowerKeepsSpaces(q: string)
    ensures forall i :: 0 <= i < |q| ==> (IsSpace(q[i]) <==> IsSpace(Lower(q)[i]))
  {
  }

  /** The search ignores letter case, in the query as in the task. */
  lemma SearchIgnoresCase(t: TaskView, q1: string, q2: string)
    requires Lower(q1) == Lower(q2)
    ensures MatchesSearch(t, q1) <==> MatchesSearch(t, q2)
  {
    LowerKeepsSpaces(q1);
    LowerKeepsSpaces(q2);
    assert |q1| == |q2|;
    assert (forall i :: 0 <= i < |q1| ==> IsSpace(q1[i])) <==> (forall i :: 0 <= i < |q2| ==> IsSpace(q2[i]));
  }

  /** One parameter of the query string of `fetchTasks`. */
  datatype Param = StatusParam(status: Status) | CategoryParam(category: string) | SearchParam(search: string)

  /** The query string of `fetchTasks`, in the order the parameters are set. */
  function FetchParams(status: StatusChoice, category: string, query: string): seq<Param> {
    (if status.Only? then [StatusParam(status.status)] else [])
    + (if category != "" && category != All then [CategoryParam(category)] else [])
    + (if query != "" && Trim(query) != "" then [SearchParam(Trim(query))] else [])
  }

  /** A status or a category is sent only when one is chosen, and the search only when it
      is not blank, and then trimmed; each at most once. */
  lemma FetchParamsMeaning(status: StatusChoice, category: string, query: string)
    ensures var p := FetchParams(status, category, query);
      && |p| <= 3
      && (forall s :: StatusParam(s) in p <==> status == Only(s))
      && (forall c :: CategoryParam(c) in p <==> c == category && category != "" && category != All)
      && (forall q :: SearchParam(q) in p <==> q == Trim(query) && q != "")
  {
    if Trim(query) != "" {
      assert query != "";
    }
  }

  // ---------------------------------------------------------------------------
  // categories
  // ---------------------------------------------------------------------------

  /** `Array.from(new Set(s))`: each value once, in the order of first appearance. */
  function Distinct(s: seq<string>): (r: seq<string>)
    ensures forall x :: x in r <==> x in s
    decreases |s|
  {
    if s == [] then []
    else
      var r := Distinct(s[..|s| - 1]);
      assert s == s[..|s| - 1] + [s[|s| - 1]];
      if s[|s| - 1] in r then r else r + [s[|s| - 1]]
  }

  function CategoriesOf(tasks: seq<TaskView>): seq<string> {
    seq(|tasks|, i requires 0 <= i < |tasks| => tasks[i].category)
  }

  /** `categories`. */
  function Categories(tasks: seq<TaskView>): seq<string> {
    [All] + Distinct(CategoriesOf(tasks))
  }

  /** The position of the first occurrence of `x` in `s`. */
  function FirstAt(s: seq<string>, x: string): (k: nat)
    requires x in s
    ensures k < |s| && s[k] == x
    ensures forall j :: 0 <= j < k ==> s[j] != x
  {
    if s[0] == x then 0 else 1 + FirstAt(s[1..], x)
  }

  /** Appending leaves the first occurrence of a value already present where it was. */
  lemma FirstAtSnoc(s: seq<string>, x: string, y: string)
    requires y in s
    ensures FirstAt(s + [x], y) == FirstAt(s, y)
  {
    var k := FirstAt(s, y);
    assert (s + [x])[k] == y;
    assert forall j :: 0 <= j < k ==> (s + [x])[j] == s[j];
  }

  /** Each value once, and the values in the order of their first appearance in `s`. */
  lemma {:induction false} DistinctMeaning(s: seq<string>)
    ensures NoDuplicates(Distinct(s))
    ensures forall x :: x in Distinct(s) <==> x in s
    ensures Subseq(Distinct(s), s)
    ensures forall i, j :: 0 <= i < j < |Distinct(s)| ==> FirstAt(s, Distinct(s)[i]) < FirstAt(s, Distinct(s)[j])
    decreases |s|
  {
    if s != [] {
      var init := s[..|s| - 1];
      var x := s[|s| - 1];
      DistinctMeaning(init);
      assert s == init + [x];
      SubseqExtend(Distinct(init), init, x);
      SubseqSnoc(Distinct(init), init, x);
      DistinctOrderStep(init, x);
    }
  }

  /** The step of the order proof: a value appended to `Distinct` comes after all the others. */
  lemma DistinctOrderStep(init: seq<string>, x: string)
    requires forall i, j :: 0 <= i < j < |Distinct(init)| ==> FirstAt(init, Distinct(init)[i]) < FirstAt(init, Distinct(init)[j])
    ensures var s := init + [x];
      forall i, j :: 0 <= i < j < |Distinct(s)| ==> FirstAt(s, Distinct(s)[i]) < FirstAt(s, Distinct(s)[j])
  {
    var s := init + [x];
    assert s[..|s| - 1] == init;
    var r := Distinct(init);
    var d := Distinct(s);
    forall i | 0 <= i < |r| ensures FirstAt(s, r[i]) == FirstAt(init, r[i]) {
      FirstAtSnoc(init, x, r[i]);
    }
    if x !in r {
      assert d == r + [x];
      assert FirstAt(s, x) == |init| by {
        assert s[|init|] == x;
        assert forall j :: 0 <= j < |init| ==> s[j] == init[j];
      }
      forall i, j | 0 <= i < j < |d| ensures FirstAt(s, d[i]) < FirstAt(s, d[j]) {
        assert d[i] == r[i];
        if j < |r| {
          assert d[j] == r[j];
        }
      }
    }
  }

  lemma {:induction false} SubseqExtend(r: seq<string>, s: seq<string>, x: string)
    requires Subseq(r, s)
    ensures Subseq(r, s + [x])
    decreases |s|
  {
    if r != [] {
      assert (s + [x])[1..] == s[1..] + [x];
      if r[0] == s[0] && Subseq(r[1..], s[1..]) {
        SubseqExtend(r[1..], s[1..], x);
      } else {
        SubseqExtend(r, s[1..], x);
      }
    }
  }

  lemma {:induction false} SubseqSnoc(r: seq<string>, s: seq<string>, x: string)
    requires Subseq(r, s)
    ensures Subseq(r + [x], s + [x])
    decreases |s|
  {
    if s == [] {
      assert r == [];
      assert Subseq(([] + [x])[1..], []);
    } else {
      assert (s + [x])[1..] == s[1..] + [x];
      if r == [] {
        SubseqSnoc(r, s[1..], x);
      } else if r[0] == s[0] && Subseq(r[1..], s[1..]) {
        SubseqSnoc(r[1..], s[1..], x);
        assert (r + [x])[1..] == r[1..] + [x];
      } else {
        SubseqSnoc(r, s[1..], x);
      }
    }
  }

  /** The choices are "all" and then every category of the tasks once, in the order the
      categories first appear. */
  lemma CategoriesMeaning(tasks: seq<TaskView>)
    ensures var c := Categories(tasks);
      && c[0] == All
      && NoDuplicates(c[1..])
      && Subseq(c[1..], CategoriesOf(tasks))
      && (forall i :: 0 <= i < |tasks| ==> tasks[i].category in c[1..])
      && forall i, j :: 1 <= i < j < |c| ==> FirstAt(CategoriesOf(tasks), c[i]) < FirstAt(CategoriesOf(tasks), c[j])
  {
    var c := Categories(tasks);
    DistinctMeaning(CategoriesOf(tasks));
    assert c[1..] == Distinct(CategoriesOf(tasks));
    forall i | 0 <= i < |tasks|
      ensures tasks[i].category in c[1..]
    {
      assert CategoriesOf(tasks)[i] == tasks[i].category;
    }
  }

  // ---------------------------------------------------------------------------
  // The task list handlers
  // ---------------------------------------------------------------------------

  /** The server's answer to a create, update or delete: the task it returned, or the
      failure with the `error` of its body. */
  datatype Answer = Ok(task: TaskView) | Failed(error: Option<string>)

  function AlertText(error: Option<string>, fallback: string): string {
    if error.None? || error.value == "" then fallback else error.value
  }

  /** `prev.map((t) => (t.id === task.id ? task : t))`. */
  function ReplaceById(tasks: seq<TaskView>, task: TaskView): (r: seq<TaskView>)
    ensures |r| == |tasks|
  {
    seq(|tasks|, i requires 0 <= i < |tasks| => if tasks[i].id == task.id then task else tasks[i])
  }

  function WithoutTask(id: string): TaskView -> bool {
    (t: TaskView) => t.id != id
  }

  class DashboardState {
    var tasks: seq<TaskView>
    var alerts: seq<string>
    var showModal: bool
    var editing: Option<TaskView>

    constructor()
      ensures tasks == [] && alerts == [] && !showModal && editing == None
    {
      tasks := [];
      alerts := [];
      showModal := false;
      editing := None;
    }

    /** `fetchTasks`: the fetched list replaces the tasks; a failure only alerts. */
    method FetchTasks(fetched: Option<seq<TaskView>>)
      modifies this
      ensures fetched.Some? ==> tasks == fetched.value && alerts == old(alerts)
      ensures fetched.None? ==> tasks == old(tasks) && alerts == old(alerts) + ["Failed to fetch tasks"]
      ensures showModal == old(showModal) && editing == old(editing)
    {
      if fetched.None? {
        alerts := alerts + ["Failed to fetch tasks"];
        return;
      }
      tasks := fetched.value;
    }

    /** `handleAddTask`: the created task goes first and the modal closes. */
    method AddTask(answer: Answer)
      modifies this
      ensures answer.Ok? ==> tasks == [answer.task] + old(tasks) && !showModal && alerts == old(alerts)
      ensures answer.Failed? ==>
        && tasks == old(tasks) && showModal == old(showModal)
        && alerts == old(alerts) + [AlertText(answer.error, "Failed to create task")]
      ensures editing == old(editing)
    {
      match answer {
        case Ok(task) =>
          tasks := [task] + tasks;
          showModal := false;
        case Failed(error) =>
          alerts := alerts + [AlertText(error, "Failed to create task")];
      }
    }

    /** `handleUpdateTask`: the returned task replaces the entries with its id, and the
        editor closes. */
    method UpdateTask(answer: Answer)
      modifies this
      ensures answer.Ok? ==>
        tasks == ReplaceById(old(tasks), answer.task) && !showModal && editing == None && alerts == old(alerts)
      ensures answer.Failed? ==>
        && tasks == old(tasks) && showModal == old(showModal) && editing == old(editing)
        && alerts == old(alerts) + [AlertText(answer.error, "Failed to update task")]
    {
      match answer {
        case Ok(task) =>
          tasks := ReplaceById(tasks, task);
          editing := None;
          showModal := false;
        case Failed(error) =>
          alerts := alerts + [AlertText(error, "Failed to update task")];
      }
    }

    /** `handleStatusChange`: like an update, without touching the editor. */
    method StatusChange(answer: Answer)
      modifies this
      ensures answer.Ok? ==> tasks == ReplaceById(old(tasks), answer.task) && alerts == old(alerts)
      ensures answer.Failed? ==>
        tasks == old(tasks) && alerts == old(alerts) + [AlertText(answer.error, "Failed to update status")]
      ensures showModal == old(showModal) && editing == old(editing)
    {
      match answer {
        case Ok(task) =>
          tasks := ReplaceById(tasks, task);
        case Failed(error) =>
          alerts := alerts + [AlertText(error, "Failed to update status")];
      }
    }

    /** `handleDeleteTask`: nothing unless confirmed; then, when the server agrees, the
        entries with that id go. */
    method DeleteTask(id: string, confirmed: bool, deleted: Option<Option<string>>)
      modifies this
      ensures !confirmed ==> tasks == old(tasks) && alerts == old(alerts)
      ensures confirmed && deleted.None? ==> tasks == Filter(WithoutTask(id), old(tasks)) && alerts == old(alerts)
      ensures confirmed && deleted.Some? ==>
        tasks == old(tasks) && alerts == old(alerts) + [AlertText(deleted.value, "Failed to delete task")]
      ensures showModal == old(showModal) && editing == old(editing)
    {
      if !confirmed {
        return;
      }
      if deleted.None? {
        tasks := Filter(WithoutTask(id), tasks);
      } else {
        alerts := alerts + [AlertText(deleted.value, "Failed to delete task")];
      }
    }
  }

  /** Replacing by id keeps the length, swaps in the returned task exactly where the ids
      agree and leaves every other entry as it was. */
  lemma ReplaceByIdMeaning(tasks: seq<TaskView>, task: TaskView)
    ensures var r := ReplaceById(tasks, task);
      && |r| == |tasks|
      && (forall i :: 0 <= i < |r| && tasks[i].id == task.id ==> r[i] == task)
      && (forall i :: 0 <= i < |r| && tasks[i].id != task.id ==> r[i] == tasks[i])
  {
  }

  /** Deleting drops exactly the entries with that id and keeps the others in order. */
  lemma DeleteMeaning(tasks: seq<TaskView>, id: string, t: TaskView)
    ensures t in Filter(WithoutTask(id), tasks) <==> t in tasks && t.id != id
    ensures Subseq(Filter(WithoutTask(id), tasks), tasks)
  {
    FilterMembers(WithoutTask(id), tasks);
    FilterSubseq(WithoutTask(id), tasks);
  }
}
