/** The task form: title, description, status, priority, project, tags,
    subtasks and comments, with a draft subtask line, and a submit that builds
    the new task and hands it to the board. */
module TaskDialog {
  import opened Seqs
  import opened Text
  import opened Types
  import NameSearch
  import MultiSelect
  import KanbanTask

  /** The form's values. */
  datatype TaskForm = TaskForm(
    title: string,
    description: string,
    priority: Priority,
    status: Status,
    projectId: string,
    tags: seq<Tag>,
    subtasks: seq<SubTask>,
    comments: seq<Comment>)

  /** The author written on every comment the form creates. */
  const Author: string := "user"

  function DefaultForm(status: Option<Status>): TaskForm {
    TaskForm("", "", Low, if status.Some? then status.value else NotStarted, "", [], [], [])
  }

  /** Adding the draft line: a line of nothing but white space adds nothing;
      any other line is appended, untrimmed and unticked, under a fresh id. */
  function AddedSubtasks(subtasks: seq<SubTask>, input: string, id: string): (r: seq<SubTask>)
    ensures (forall i :: 0 <= i < |input| ==> IsWhitespace(input[i])) ==> r == subtasks
    ensures (exists i :: 0 <= i < |input| && !IsWhitespace(input[i])) ==> r == subtasks + [SubTask(id, input, false)]
  {
    if Trim(input) == "" then subtasks else subtasks + [SubTask(id, input, false)]
  }

  function HasId(id: string): SubTask -> bool {
    (s: SubTask) => s.id == id
  }

  function Tick(completed: bool): SubTask -> SubTask {
    (s: SubTask) => s.(completed := completed)
  }

  /** Ticking or unticking: the subtasks with the id take the new state; ids,
      titles, order and every other subtask stay. */
  function ChangedSubtasks(subtasks: seq<SubTask>, id: string, completed: bool): (r: seq<SubTask>)
    ensures |r| == |subtasks|
    ensures forall i :: 0 <= i < |subtasks| ==> r[i].id == subtasks[i].id && r[i].title == subtasks[i].title
    ensures forall i :: 0 <= i < |subtasks| && subtasks[i].id == id ==> r[i].completed == completed
    ensures forall i :: 0 <= i < |subtasks| && subtasks[i].id != id ==> r[i] == subtasks[i]
  {
    MapWhere(HasId(id), Tick(completed), subtasks)
  }

  /** Ticking never lowers the card's completed count, and unticking never
      raises it. */
  lemma {:induction false} TickMonotone(subtasks: seq<SubTask>, id: string, completed: bool)
    ensures completed ==> KanbanTask.CompletedSubtasks(ChangedSubtasks(subtasks, id, completed)) >= KanbanTask.CompletedSubtasks(subtasks)
    ensures !completed ==> KanbanTask.CompletedSubtasks(ChangedSubtasks(subtasks, id, completed)) <= KanbanTask.CompletedSubtasks(subtasks)
  {
    if subtasks != [] {
      var changed := ChangedSubtasks(subtasks, id, completed);
      assert changed[1..] == ChangedSubtasks(subtasks[1..], id, completed);
      TickMonotone(subtasks[1..], id, completed);
    }
  }

  /** The names the tag picker shows as chosen. */
  function TagNames(tags: seq<Tag>): seq<string> {
    Map((t: Tag) => t.name, tags)
  }

  function NameIn(chosen: seq<string>): Tag -> bool {
    (t: Tag) => t.name in chosen
  }

  /** The picker's chosen names turned back into tags: every tag of the full
      list whose name is chosen, in list order. */
  function SelectedTags(tags: seq<Tag>, chosen: seq<string>): (r: seq<Tag>)
    ensures forall t :: t in r <==> t in tags && t.name in chosen
    ensures forall t :: multiset(r)[t] == if t.name in chosen then multiset(tags)[t] else 0
    ensures IsSubseq(r, tags)
  {
    FilterMultiset(NameIn(chosen), tags);
    FilterIsSubseq(NameIn(chosen), tags);
    Filter(NameIn(chosen), tags)
  }

  /** Clicking a tag's checkbox selects every tag of that name when none was
      selected and deselects them all when one was; tags of other names keep
      their selection. */
  lemma CheckboxSelectsByName(tags: seq<Tag>, current: seq<Tag>, tag: Tag)
    ensures var after := SelectedTags(tags, MultiSelect.CheckboxChange(TagNames(current), tag));
      && (forall t :: t in tags && t.name == tag.name ==> (t in after <==> tag.name !in TagNames(current)))
      && (forall t :: t in tags && t.name != tag.name ==> (t in after <==> t in SelectedTags(tags, TagNames(current))))
  {
  }

  /** The new task: the form's fields, a fresh id, no files, and in place of
      the form's comments exactly one comment with the draft comment text, the
      creation time and the fixed author. */
  function CreatedTask(form: TaskForm, id: string, commentId: string, createdAt: string, newComment: string): (t: Task)
    ensures t.id == id && t.files == []
    ensures t.title == form.title && t.description == form.description
    ensures t.status == form.status && t.priority == form.priority && t.projectId == form.projectId
    ensures t.tags == form.tags && t.subtasks == form.subtasks
    ensures t.comments == [Comment(commentId, newComment, createdAt, Author)]
  {
    Task(id, form.title, form.description, form.status, form.priority, form.projectId,
         form.tags, form.subtasks, [Comment(commentId, newComment, createdAt, Author)], [])
  }

  /** The empty comment the form always attaches matches only the empty search,
      so a created task is found exactly by its title, its description, or an
      empty search. */
  lemma CreatedTaskSearch(form: TaskForm, id: string, commentId: string, createdAt: string, query: string)
    ensures var t := CreatedTask(form, id, commentId, createdAt, "");
      (|| Matches(t.title, query) || Matches(t.description, query)
       || exists i :: 0 <= i < |t.comments| && Matches(t.comments[i].content, query))
      <==> (Matches(form.title, query) || Matches(form.description, query) || query == "")
  {
    var t := CreatedTask(form, id, commentId, createdAt, "");
    assert t.comments[0].content == "";
    if Matches("", query) {
      var k: nat :| k <= 0 && OccursAt(Lower(""), Lower(query), k);
      assert |Lower(query)| == 0;
    }
    MatchesCaseInsensitive(form.title, query);
  }

  class Dialog {
    var open: bool
    /** The projects and tags the dialog was given. */
    const projects: seq<Project>
    const tags: seq<Tag>
    var form: TaskForm
    var newSubtask: string
    /** The draft comment and the two search texts: no handler ever sets them. */
    var newComment: string
    var tagSearch: string
    var projectSearch: string

    /** The draft comment and the search texts stay empty for the dialog's
        whole life. */
    predicate Valid()
      reads this
    {
      newComment == "" && tagSearch == "" && projectSearch == ""
    }

    /** A fresh form: empty title, description and project, low priority, the
        given status or `not_started`, and no tags, subtasks or comments. */
    constructor (isOpen: bool, status: Option<Status>, projects: seq<Project>, tags: seq<Tag>)
      ensures Valid() && open == isOpen && this.projects == projects && this.tags == tags
      ensures form.title == "" && form.description == "" && form.projectId == "" && form.priority == Low
      ensures form.status == (if status.Some? then status.value else NotStarted)
      ensures form.tags == [] && form.subtasks == [] && form.comments == []
      ensures newSubtask == ""
    {
      open := isOpen;
      this.projects := projects;
      this.tags := tags;
      form := DefaultForm(status);
      newSubtask := "";
      newComment := "";
      tagSearch := "";
      projectSearch := "";
    }

    /** The user fills in the plain fields. */
    method Fill(title: string, description: string, priority: Priority, status: Status, projectId: string)
      requires Valid()
      modifies this
      ensures Valid() && open == old(open) && newSubtask == old(newSubtask)
      ensures form == old(form).(title := title, description := description, priority := priority,
                                 status := status, projectId := projectId)
    {
      form := form.(title := title, description := description, priority := priority,
                    status := status, projectId := projectId);
    }

    /** The user types into the draft subtask line. */
    method EnterSubtask(text: string)
      requires Valid()
      modifies this
      ensures Valid() && newSubtask == text && form == old(form) && open == old(open)
    {
      newSubtask := text;
    }

    /** Add the draft line as a subtask and clear it; a blank line is ignored. */
    method AddSubtask(id: string)
      requires Valid()
      modifies this
      ensures Valid() && open == old(open)
      ensures form == old(form).(subtasks := AddedSubtasks(old(form.subtasks), old(newSubtask), id))
      ensures newSubtask == if Trim(old(newSubtask)) == "" then old(newSubtask) else ""
    {
      var added := AddedSubtasks(form.subtasks, newSubtask, id);
      if Trim(newSubtask) == "" {
        assert added == form.subtasks;
        return;
      }
      form := form.(subtasks := added);
      newSubtask := "";
    }

    /** Tick or untick the subtasks with the id. */
    method SubtaskChange(id: string, completed: bool)
      requires Valid()
      modifies this
      ensures Valid() && open == old(open) && newSubtask == old(newSubtask)
      ensures form == old(form).(subtasks := ChangedSubtasks(old(form.subtasks), id, completed))
    {
      form := form.(subtasks := ChangedSubtasks(form.subtasks, id, completed));
    }

    /** The tag picker reports its chosen names; the form keeps the matching
        tags of the full list. */
    method ChooseTags(chosen: seq<string>)
      requires Valid()
      modifies this
      ensures Valid() && open == old(open) && newSubtask == old(newSubtask)
      ensures form == old(form).(tags := SelectedTags(tags, chosen))
    {
      form := form.(tags := SelectedTags(tags, chosen));
    }

    /** Build the task from the form, hand it over once, and close. */
    method Submit(id: string, commentId: string, createdAt: string) returns (created: Task)
      requires Valid()
      modifies this
      ensures Valid() && !open && form == old(form) && newSubtask == old(newSubtask)
      ensures created == CreatedTask(old(form), id, commentId, createdAt, "")
    {
      created := CreatedTask(form, id, commentId, createdAt, newComment);
      open := false;
    }

    /** The tags offered by the picker and the projects offered by the project
        select. Their search texts are never set, so both offer everything. */
    function FilteredTags(): (r: seq<Tag>)
      requires Valid()
      reads this
      ensures r == tags
    {
      NameSearch.SearchTags(tags, tagSearch)
    }

    function FilteredProjects(): (r: seq<Project>)
      requires Valid()
      reads this
      ensures r == projects
    {
      NameSearch.SearchProjects(projects, projectSearch)
    }
  }
}
