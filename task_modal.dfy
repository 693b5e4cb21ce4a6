/**
 * The create/edit dialog of components/TaskModal.tsx: the form state and its
 * defaults, adding and removing tags, and the checks and payload of a submit.
 * `alert` and `onSave` are recorded in the state.
 */
module TaskModal {
  import opened Common
  import opened TaskModel

  /** A task as the dialog receives it for editing; its due date is the form's text. */
  datatype EditedTask = EditedTask(
    id: string, title: string, description: string, priority: Priority, status: Status,
    dueDate: string, category: string, tags: seq<string>, createdAt: string)

  /** What `onSave` receives: the fields of a new task, or the edited task overridden by
      the form — which also carries the form's `tagInput`. */
  datatype Payload =
    | NewTask(title: string, description: string, priority: Priority, status: Status,
              dueDate: string, category: string, tags: seq<string>)
    | Edited(task: EditedTask, tagInput: string)

  datatype TextField = Title | Description | DueDate | Category | TagInput

  const DefaultFormCategory: string := "Work"
  const NeedTitle: string := "Please enter a task title"
  const NeedDueDate: string := "Please select a due date"

  function FallbackIfEmpty(s: string, fallback: string): string {
    if s == "" then fallback else s
  }

  class TaskForm {
    const editing: Option<EditedTask>
    var title: string
    var description: string
    var priority: Priority
    var status: Status
    var dueDate: string
    var category: string
    var tags: seq<string>
    var tagInput: string
    var alerts: seq<string>
    var saved: seq<Payload>

    /** The initial form: the edited task's fields where they are not empty, otherwise
        medium priority, pending, category "Work" and no tags. */
    constructor(task: Option<EditedTask>)
      ensures editing == task && tagInput == "" && alerts == [] && saved == []
      ensures task.None? ==>
        && title == "" && description == "" && priority == Medium && status == Pending
        && dueDate == "" && category == DefaultFormCategory && tags == []
      ensures task.Some? ==>
        && title == task.value.title && description == task.value.description
        && priority == task.value.priority && status == task.value.status && dueDate == task.value.dueDate
        && category == FallbackIfEmpty(task.value.category, DefaultFormCategory) && tags == task.value.tags
    {
      editing := task;
      if task.None? {
        title, description, priority, status := "", "", Medium, Pending;
        dueDate, category, tags := "", DefaultFormCategory, [];
      } else {
        var t := task.value;
        title, description, priority, status := t.title, t.description, t.priority, t.status;
        dueDate, category, tags := t.dueDate, FallbackIfEmpty(t.category, DefaultFormCategory), t.tags;
      }
      tagInput := "";
      alerts := [];
      saved := [];
    }

    /** `handleInputChange` for a text input. */
    method SetText(field: TextField, value: string)
      modifies this`title, this`description, this`dueDate, this`category, this`tagInput
      ensures title == (if field == Title then value else old(title))
      ensures description == (if field == Description then value else old(description))
      ensures dueDate == (if field == DueDate then value else old(dueDate))
      ensures category == (if field == Category then value else old(category))
      ensures tagInput == (if field == TagInput then value else old(tagInput))
    {
      match field {
        case Title => title := value;
        case Description => description := value;
        case DueDate => dueDate := value;
        case Category => category := value;
        case TagInput => tagInput := value;
      }
    }

    /** `handleInputChange` from the priority select; the select offers only the three
        priorities. */
    method SetPriority(value: Priority)
      modifies this`priority
      ensures priority == value
    {
      priority := value;
    }

    /** `handleInputChange` from the status select; the select offers only the three
        statuses. */
    method SetStatus(value: Status)
      modifies this`status
      ensures status == value
    {
      status := value;
    }

    /** `handleAddTag`: the trimmed input joins the tags, and the input clears, only when
        it is neither blank nor already a tag; otherwise nothing changes. */
    method AddTag()
      modifies this`tags, this`tagInput
      ensures var tag := Trim(old(tagInput));
        if tag != "" && tag !in old(tags) then tags == old(tags) + [tag] && tagInput == ""
        else tags == old(tags) && tagInput == old(tagInput)
      ensures NoDuplicates(old(tags)) ==> NoDuplicates(tags)
    {
      var tag := Trim(tagInput);
      if tag != "" && tag !in tags {
        tags := tags + [tag];
        tagInput := "";
      }
    }

    /** `handleRemoveTag`. */
    method RemoveTag(tag: string)
      modifies this`tags
      ensures tags == Filter(NotTag(tag), old(tags))
    {
      tags := Filter(NotTag(tag), tags);
    }

    /** `handleSubmit`: a rejected form alerts and saves nothing; otherwise exactly one
        payload is saved. */
    method Submit()
      modifies this`alerts, this`saved
      ensures var r := Rejection(title, dueDate);
        var p := PayloadOf(editing, title, description, priority, status, dueDate, category, tags, tagInput);
        && (r.Some? ==> saved == old(saved) && alerts == old(alerts) + [r.value])
        && (r.None? ==> alerts == old(alerts) && saved == old(saved) + [p])
    {
      if Trim(title) == "" {
        alerts := alerts + [NeedTitle];
      } else if dueDate == "" {
        alerts := alerts + [NeedDueDate];
      } else {
        saved := saved + [PayloadOf(editing, title, description, priority, status, dueDate, category, tags, tagInput)];
      }
    }
  }

  /** The alert of a submit that fails its checks, title first. */
  function Rejection(title: string, dueDate: string): Option<string> {
    if Trim(title) == "" then Some(NeedTitle)
    else if dueDate == "" then Some(NeedDueDate)
    else None
  }

  /** A submit goes through exactly when the title is not blank and a due date is set. */
  lemma RejectionMeaning(title: string, dueDate: string)
    ensures Rejection(title, dueDate).None? <==>
      (exists i :: 0 <= i < |title| && !IsSpace(title[i])) && dueDate != ""
    ensures Rejection(title, dueDate) == Some(NeedTitle) <==> forall i :: 0 <= i < |title| ==> IsSpace(title[i])
  {
    assert NeedTitle != NeedDueDate by {
      assert |NeedTitle| != |NeedDueDate|;
    }
  }

  function NotTag(tag: string): string -> bool {
    t => t != tag
  }

  /** The payload of a submit that passed the checks. */
  function PayloadOf(editing: Option<EditedTask>, title: string, description: string, priority: Priority,
                     status: Status, dueDate: string, category: string, tags: seq<string>, tagInput: string): Payload
  {
    match editing
    case None => NewTask(title, description, priority, status, dueDate, category, tags)
    case Some(t) =>
      Edited(EditedTask(t.id, title, description, priority, status, dueDate, category, tags, t.createdAt), tagInput)
  }

  /** An edit keeps the task's id and creation time and takes every form field; a new task
      carries the form fields and nothing else. */
  lemma PayloadMeaning(editing: Option<EditedTask>, title: string, description: string, priority: Priority,
                       status: Status, dueDate: string, category: string, tags: seq<string>, tagInput: string)
    ensures var p := PayloadOf(editing, title, description, priority, status, dueDate, category, tags, tagInput);
      && (editing.Some? <==> p.Edited?)
      && (p.Edited? ==>
            && p.task.id == editing.value.id && p.task.createdAt == editing.value.createdAt
            && p.task.title == title && p.task.dueDate == dueDate && p.task.tags == tags
            && p.task.category == category && p.tagInput == tagInput)
      && (p.NewTask? ==> p.title == title && p.dueDate == dueDate && p.tags == tags && p.category == category)
  {
  }

  /** Removing a tag drops every copy of it and keeps the other tags in order. */
  lemma RemoveTagMeaning(tags: seq<string>, tag: string, t: string)
    ensures t in Filter(NotTag(tag), tags) <==> t in tags && t != tag
    ensures Subseq(Filter(NotTag(tag), tags), tags)
  {
    FilterMembers(NotTag(tag), tags);
    FilterSubseq(NotTag(tag), tags);
  }
}
