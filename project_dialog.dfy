/** The project manager: the same shape as the tag manager, over projects,
    with a form holding only the name. A new project starts with an empty
    `tasks` list, and an edit touches the name alone. */
module ProjectDialog {
  import opened Seqs
  import opened Text
  import opened Types
  import NameSearch
  import KanbanBoard

  function HasId(id: string): Project -> bool {
    (p: Project) => p.id == id
  }

  function LacksId(id: string): Project -> bool {
    (p: Project) => p.id != id
  }

  function Rename(name: string): Project -> Project {
    (p: Project) => p.(name := name)
  }

  /** Adding: the new project, with no tasks, goes at the end; every existing
      project stays where it was. */
  function AddedProjects(projects: seq<Project>, name: string, id: string): (r: seq<Project>)
    ensures |r| == |projects| + 1
    ensures r[..|projects|] == projects && r[|projects|] == Project(id, name, [])
  {
    projects + [Project(id, name, [])]
  }

  /** Editing: the projects with the edited id take the new name and keep their
      id, their `tasks` and their place; all others are untouched. */
  function EditedProjects(projects: seq<Project>, id: string, name: string): (r: seq<Project>)
    ensures |r| == |projects|
    ensures forall i :: 0 <= i < |projects| && projects[i].id == id ==>
      r[i].name == name && r[i].id == id && r[i].tasks == projects[i].tasks
    ensures forall i :: 0 <= i < |projects| && projects[i].id != id ==> r[i] == projects[i]
  {
    MapWhere(HasId(id), Rename(name), projects)
  }

  /** Deleting: every project with the id goes, the rest keep their relative order. */
  function DeletedProjects(projects: seq<Project>, id: string): (r: seq<Project>)
    ensures forall p :: p in r <==> p in projects && p.id != id
    ensures IsSubseq(r, projects)
    ensures |r| == |projects| - |Filter(HasId(id), projects)|
  {
    FilterMultiset(LacksId(id), projects);
    FilterIsSubseq(LacksId(id), projects);
    FilterComplement(HasId(id), LacksId(id), projects);
    Filter(LacksId(id), projects)
  }

  /** Deleting a freshly added project by its id gives back the list it was added to. */
  lemma AddThenDelete(projects: seq<Project>, name: string, id: string)
    requires forall i :: 0 <= i < |projects| ==> projects[i].id != id
    ensures DeletedProjects(AddedProjects(projects, name, id), id) == projects
  {
    FilterAppend(LacksId(id), projects, [Project(id, name, [])]);
    FilterAllOrNone(LacksId(id), projects);
    assert Filter(LacksId(id), [Project(id, name, [])]) == [] + Filter(LacksId(id), []);
  }

  /** Deleting an edited project is deleting it: the edit leaves no trace. */
  lemma EditThenDelete(projects: seq<Project>, id: string, name: string)
    ensures DeletedProjects(EditedProjects(projects, id, name), id) == DeletedProjects(projects, id)
  {
    FilterAfterMapWhere(HasId(id), Rename(name), LacksId(id), projects);
  }

  /** Renaming twice to the same name is renaming once, and a rename aimed at
      an id no project has changes nothing. */
  lemma EditIdempotent(projects: seq<Project>, id: string, name: string)
    ensures EditedProjects(EditedProjects(projects, id, name), id, name) == EditedProjects(projects, id, name)
    ensures (forall i :: 0 <= i < |projects| ==> projects[i].id != id) ==> EditedProjects(projects, id, name) == projects
  {
    MapWhereIdempotent(HasId(id), Rename(name), projects);
  }

  /** A project added under a new name shows up on the board as one more
      column at the end of the project layout, holding the tasks that already
      name its id; every other column stays as it was. */
  lemma AddedProjectColumn(filtered: seq<Task>, projects: seq<Project>, name: string, id: string)
    requires forall i :: 0 <= i < |projects| ==> projects[i].name != name
    ensures KanbanBoard.ProjectColumns(filtered, AddedProjects(projects, name, id))
         == KanbanBoard.ProjectColumns(filtered, projects) + [KanbanBoard.Column(name, Filter(KanbanBoard.InProject(id), filtered))]
  {
    var added := AddedProjects(projects, name, id);
    assert added[..|added| - 1] == projects;
    KanbanBoard.ProjectColumnTitles(filtered, projects);
    assert name !in KanbanBoard.Names(projects);
  }

  class Dialog {
    /** The id of the project being edited; `None` is `null`. */
    var editProjectId: Option<string>
    /** The form's current value. */
    var name: string
    var projectSearch: string

    constructor ()
      ensures editProjectId == None && name == "" && projectSearch == ""
    {
      editProjectId := None;
      name := "";
      projectSearch := "";
    }

    /** Edit mode as the code tests it: `editProjectId` is truthy, so neither
        `null` nor the empty string. */
    predicate Editing()
      reads this
    {
      editProjectId.Some? && editProjectId.value != ""
    }

    /** The user types into the form. */
    method EnterName(newName: string)
      modifies this
      ensures name == newName
      ensures editProjectId == old(editProjectId) && projectSearch == old(projectSearch)
    {
      name := newName;
    }

    /** Add the form's project under a fresh id, then reset the form. */
    method AddProject(projects: seq<Project>, id: string) returns (updated: seq<Project>)
      modifies this
      ensures updated == AddedProjects(projects, old(name), id)
      ensures name == ""
      ensures editProjectId == old(editProjectId) && projectSearch == old(projectSearch)
    {
      updated := AddedProjects(projects, name, id);
      name := "";
    }

    /** Rename the project being edited, leave edit mode and reset the form;
        outside edit mode nothing is handed back and nothing changes. */
    method EditProject(projects: seq<Project>) returns (updated: Option<seq<Project>>)
      modifies this
      ensures !old(Editing()) ==> updated == None && editProjectId == old(editProjectId) && name == old(name)
      ensures old(Editing()) ==> updated == Some(EditedProjects(projects, old(editProjectId).value, old(name)))
      ensures old(Editing()) ==> editProjectId == None && name == ""
      ensures projectSearch == old(projectSearch)
    {
      if !Editing() {
        return None;
      }
      updated := Some(EditedProjects(projects, editProjectId.value, name));
      editProjectId := None;
      name := "";
    }

    /** Submitting edits in edit mode and adds otherwise; either way the form
        ends up reset. */
    method Submit(projects: seq<Project>, freshId: string) returns (updated: seq<Project>)
      modifies this
      ensures old(Editing()) ==> updated == EditedProjects(projects, old(editProjectId).value, old(name)) && editProjectId == None
      ensures !old(Editing()) ==> updated == AddedProjects(projects, old(name), freshId) && editProjectId == old(editProjectId)
      ensures name == "" && projectSearch == old(projectSearch)
    {
      if Editing() {
        var edited := EditProject(projects);
        updated := edited.value;
      } else {
        updated := AddProject(projects, freshId);
      }
    }

    /** Enter edit mode for a project and load its name into the form. */
    method EditClick(project: Project)
      modifies this
      ensures editProjectId == Some(project.id) && name == project.name
      ensures projectSearch == old(projectSearch)
    {
      editProjectId := Some(project.id);
      name := project.name;
    }

    /** Leave edit mode and reset the form. */
    method CancelEdit()
      modifies this
      ensures editProjectId == None && !Editing() && name == ""
      ensures projectSearch == old(projectSearch)
    {
      editProjectId := None;
      name := "";
    }

    method SetSearch(text: string)
      modifies this
      ensures projectSearch == text
      ensures editProjectId == old(editProjectId) && name == old(name)
    {
      projectSearch := text;
    }

    /** The projects listed under the search box. */
    function FilteredProjects(projects: seq<Project>): (r: seq<Project>)
      reads this
      ensures forall p :: p in r <==> p in projects && Matches(p.name, projectSearch)
      ensures projectSearch == "" ==> r == projects
    {
      NameSearch.SearchProjects(projects, projectSearch)
    }
  }
}
