/** The board: its collections of tasks, projects and tags, the search and
    group-by inputs, and the view that turns them into columns. */
module KanbanBoard {
  import opened Seqs
  import opened Text
  import opened Types

  /** One column of the board: its heading and its tasks, in order. The view is
      an ordered sequence of columns, standing for the object whose entries the
      board renders in insertion order. */
  datatype Column = Column(title: string, tasks: seq<Task>)

  function StatusLabel(s: Status): string {
    match s
    case NotStarted => "Not Started"
    case InProgress => "In Progress"
    case Done => "Done"
  }

  function PriorityLabel(p: Priority): string {
    match p
    case High => "High"
    case Medium => "Medium"
    case Low => "Low"
  }

  /** The column order of the two fixed layouts. */
  const StatusOrder: seq<Status> := [NotStarted, InProgress, Done]
  const PriorityOrder: seq<Priority> := [High, Medium, Low]

  // ---------------------------------------------------------------------------
  // Search

  /** The query occurs, ignoring case, in the title, the description or the
      content of some comment. */
  predicate MatchesSearch(task: Task, query: string)
    ensures query == "" ==> MatchesSearch(task, query)
    ensures MatchesSearch(task, query) ==>
      || |query| <= |task.title| || |query| <= |task.description|
      || exists i :: 0 <= i < |task.comments| && |query| <= |task.comments[i].content|
  {
    || Matches(task.title, query)
    || Matches(task.description, query)
    || exists i :: 0 <= i < |task.comments| && Matches(task.comments[i].content, query)
  }

  function Searching(query: string): Task -> bool {
    (t: Task) => MatchesSearch(t, query)
  }

  /** The tasks that survive the search box, in board order. */
  function SearchFilter(tasks: seq<Task>, query: string): (r: seq<Task>)
    ensures forall t :: t in r <==> t in tasks && MatchesSearch(t, query)
    ensures forall t :: multiset(r)[t] == if MatchesSearch(t, query) then multiset(tasks)[t] else 0
    ensures IsSubseq(r, tasks)
    ensures query == "" ==> r == tasks
  {
    var keep := Searching(query);
    FilterMultiset(keep, tasks);
    FilterIsSubseq(keep, tasks);
    EmptyQueryMatchesAll();
    FilterAllOrNone(keep, tasks);
    Filter(keep, tasks)
  }

  // ---------------------------------------------------------------------------
  // Bucketing

  function HasStatus(s: Status): Task -> bool {
    (t: Task) => t.status == s
  }

  function HasPriority(p: Priority): Task -> bool {
    (t: Task) => t.priority == p
  }

  function InProject(id: string): Task -> bool {
    (t: Task) => t.projectId == id
  }

  /** "Not Started", "In Progress", "Done", each with the tasks of that status. */
  function StatusColumns(filtered: seq<Task>): (r: seq<Column>)
    ensures |r| == 3 && DistinctTitles(r)
    ensures forall i :: 0 <= i < 3 ==> r[i].title == StatusLabel(StatusOrder[i])
    ensures forall i, j :: 0 <= i < 3 && 0 <= j < |r[i].tasks| ==> r[i].tasks[j].status == StatusOrder[i]
  {
    seq(3, i requires 0 <= i < 3 => Column(StatusLabel(StatusOrder[i]), Filter(HasStatus(StatusOrder[i]), filtered)))
  }

  /** "High", "Medium", "Low", each with the tasks of that priority. */
  function PriorityColumns(filtered: seq<Task>): (r: seq<Column>)
    ensures |r| == 3 && DistinctTitles(r)
    ensures forall i :: 0 <= i < 3 ==> r[i].title == PriorityLabel(PriorityOrder[i])
    ensures forall i, j :: 0 <= i < 3 && 0 <= j < |r[i].tasks| ==> r[i].tasks[j].priority == PriorityOrder[i]
  {
    seq(3, i requires 0 <= i < 3 => Column(PriorityLabel(PriorityOrder[i]), Filter(HasPriority(PriorityOrder[i]), filtered)))
  }

  function Titles(columns: seq<Column>): (r: seq<string>)
    ensures |r| == |columns|
    ensures forall i :: 0 <= i < |columns| ==> r[i] == columns[i].title
  {
    seq(|columns|, i requires 0 <= i < |columns| => columns[i].title)
  }

  /** No two columns share a title, as no two keys of an object coincide. */
  predicate DistinctTitles(columns: seq<Column>) {
    forall i, j :: 0 <= i < j < |columns| ==> columns[i].title != columns[j].title
  }

  /** `groups[title] = tasks` on a plain object: an existing key keeps its
      place and takes the new list, a new key goes at the end. */
  function Assign(groups: seq<Column>, title: string, tasks: seq<Task>): (r: seq<Column>)
    requires DistinctTitles(groups)
    ensures DistinctTitles(r)
    ensures Titles(r) == if title in Titles(groups) then Titles(groups) else Titles(groups) + [title]
    ensures forall i :: 0 <= i < |groups| ==> r[i] == if groups[i].title == title then Column(title, tasks) else groups[i]
    ensures title !in Titles(groups) ==> r == groups + [Column(title, tasks)]
  {
    if title in Titles(groups) then
      seq(|groups|, i requires 0 <= i < |groups| => if groups[i].title == title then Column(title, tasks) else groups[i])
    else
      groups + [Column(title, tasks)]
  }

  /** After an assignment the key holds the new list and every other entry is
      an entry from before. */
  lemma AssignMembers(groups: seq<Column>, title: string, tasks: seq<Task>)
    requires DistinctTitles(groups)
    ensures forall c :: c in Assign(groups, title, tasks) ==> (c.title == title && c.tasks == tasks) || (c in groups && c.title != title)
    ensures forall c :: c in groups && c.title != title ==> c in Assign(groups, title, tasks)
    ensures Column(title, tasks) in Assign(groups, title, tasks)
  {
    var r := Assign(groups, title, tasks);
    if title in Titles(groups) {
      var k :| 0 <= k < |groups| && Titles(groups)[k] == title;
      assert r[k] == Column(title, tasks);
    } else {
      assert r[|groups|] == Column(title, tasks);
    }
  }

  /** The project layout: for each project in turn, the filtered tasks whose
      `projectId` is its id, stored under its name. */
  function ProjectColumns(filtered: seq<Task>, projects: seq<Project>): (r: seq<Column>)
    ensures DistinctTitles(r)
    ensures |r| <= |projects|
    decreases |projects|
  {
    if projects == [] then []
    else
      var last := projects[|projects| - 1];
      Assign(ProjectColumns(filtered, projects[..|projects| - 1]), last.name, Filter(InProject(last.id), filtered))
  }

  /** The bucketing step for one layout. */
  function Group(filtered: seq<Task>, projects: seq<Project>, groupBy: GroupBy): (r: seq<Column>)
    ensures DistinctTitles(r)
    ensures groupBy != ByProject ==> |r| == 3
    ensures groupBy == ByProject ==> |r| <= |projects|
  {
    match groupBy
    case ByStatus => StatusColumns(filtered)
    case ByPriority => PriorityColumns(filtered)
    case ByProject => ProjectColumns(filtered, projects)
  }

  /** What the board shows: search, then bucket. */
  function View(tasks: seq<Task>, projects: seq<Project>, groupBy: GroupBy, query: string): (r: seq<Column>)
    ensures DistinctTitles(r)
    ensures groupBy != ByProject ==> |r| == 3
    ensures query == "" ==> r == Group(tasks, projects, groupBy)
  {
    Group(SearchFilter(tasks, query), projects, groupBy)
  }

  /** The project layout as the board computes it: a loop over the projects
      that assigns each one's bucket under its name. */
  method GroupProjects(filtered: seq<Task>, projects: seq<Project>) returns (groups: seq<Column>)
    ensures groups == ProjectColumns(filtered, projects)
  {
    groups := [];
    var i := 0;
    while i < |projects|
      invariant 0 <= i <= |projects|
      invariant groups == ProjectColumns(filtered, projects[..i])
    {
      var project := projects[i];
      groups := Assign(groups, project.name, Filter(InProject(project.id), filtered));
      assert projects[..i + 1][..i] == projects[..i];
      i := i + 1;
    }
    assert projects[..|projects|] == projects;
  }

  // ---------------------------------------------------------------------------
  // Column headings and the unfinished counter

  /** The status a status-layout column heading stands for. */
  function GetStatusFromTitle(title: string): (r: Option<Status>)
    ensures r.Some? ==> StatusLabel(r.value) == title
    ensures r.None? ==> forall s :: StatusLabel(s) != title
  {
    if title == "Not Started" then Some(NotStarted)
    else if title == "In Progress" then Some(InProgress)
    else if title == "Done" then Some(Done)
    else None
  }

  /** The number of tasks not yet done. */
  function Unfinished(tasks: seq<Task>): (n: nat)
    ensures n + |Filter(HasStatus(Done), tasks)| == |tasks|
  {
    var open := (t: Task) => t.status != Done;
    FilterComplement(HasStatus(Done), open, tasks);
    |Filter(open, tasks)|
  }

  // ---------------------------------------------------------------------------
  // The board's state

  class Board {
    var groupBy: GroupBy
    var searchQuery: string
    var allTasks: seq<Task>
    var allProjects: seq<Project>
    var allTags: seq<Tag>

    /** The board starts from the collections it is given, grouped by status
        and with an empty search. */
    constructor (projects: seq<Project>, tasks: seq<Task>, tags: seq<Tag>)
      ensures groupBy == ByStatus && searchQuery == ""
      ensures allTasks == tasks && allProjects == projects && allTags == tags
    {
      groupBy := ByStatus;
      searchQuery := "";
      allTasks := tasks;
      allProjects := projects;
      allTags := tags;
    }

    function UnfinishedCount(): (n: nat)
      reads this
      ensures n <= |allTasks|
      ensures n + |Filter(HasStatus(Done), allTasks)| == |allTasks|
    {
      Unfinished(allTasks)
    }

    method SetGroupBy(g: GroupBy)
      modifies this
      ensures groupBy == g && searchQuery == old(searchQuery)
      ensures allTasks == old(allTasks) && allProjects == old(allProjects) && allTags == old(allTags)
      ensures UnfinishedCount() == old(UnfinishedCount())
    {
      groupBy := g;
    }

    method SetSearchQuery(query: string)
      modifies this
      ensures searchQuery == query && groupBy == old(groupBy)
      ensures allTasks == old(allTasks) && allProjects == old(allProjects) && allTags == old(allTags)
      ensures UnfinishedCount() == old(UnfinishedCount())
    {
      searchQuery := query;
    }

    /** Creating a task appends it; nothing else changes. */
    method CreateTask(task: Task)
      modifies this
      ensures allTasks == old(allTasks) + [task]
      ensures allProjects == old(allProjects) && allTags == old(allTags)
      ensures groupBy == old(groupBy) && searchQuery == old(searchQuery)
      ensures UnfinishedCount() == old(UnfinishedCount()) + (if task.status == Done then 0 else 1)
    {
      UnfinishedAppend(allTasks, task);
      allTasks := allTasks + [task];
    }

    /** The project manager hands back a whole new list, which replaces the old one. */
    method UpdateProjects(projects: seq<Project>)
      modifies this
      ensures allProjects == projects
      ensures allTasks == old(allTasks) && allTags == old(allTags)
      ensures groupBy == old(groupBy) && searchQuery == old(searchQuery)
    {
      allProjects := projects;
    }

    /** The tag manager hands back a whole new list, which replaces the old one. */
    method UpdateTags(tags: seq<Tag>)
      modifies this
      ensures allTags == tags
      ensures allTasks == old(allTasks) && allProjects == old(allProjects)
      ensures groupBy == old(groupBy) && searchQuery == old(searchQuery)
    {
      allTags := tags;
    }

    /** The columns the board renders for its current state. */
    method GroupedTasks() returns (columns: seq<Column>)
      ensures columns == View(allTasks, allProjects, groupBy, searchQuery)
    {
      var filtered := SearchFilter(allTasks, searchQuery);
      match groupBy
      case ByStatus => columns := StatusColumns(filtered);
      case ByPriority => columns := PriorityColumns(filtered);
      case ByProject => columns := GroupProjects(filtered, allProjects);
    }
  }

  // ---------------------------------------------------------------------------
  // Properties of the view

  /** Appending a task adds one to the unfinished count exactly when it is not done. */
  lemma UnfinishedAppend(tasks: seq<Task>, task: Task)
    ensures Unfinished(tasks + [task]) == Unfinished(tasks) + (if task.status == Done then 0 else 1)
  {
    FilterAppend(HasStatus(Done), tasks, [task]);
  }

  /** Each heading of the status layout reads back as the status of its column. */
  lemma StatusTitlesRoundTrip(s: Status)
    ensures GetStatusFromTitle(StatusLabel(s)) == Some(s)
  {
  }

  /** The status layout: the three fixed headings in their fixed order, each
      reading back as its status, and each column holding, in order, exactly
      the searched tasks of that status. */
  lemma StatusLayout(tasks: seq<Task>, projects: seq<Project>, query: string)
    ensures var columns := View(tasks, projects, ByStatus, query);
      && |columns| == 3
      && forall i :: 0 <= i < 3 ==>
           && columns[i].title == StatusLabel(StatusOrder[i])
           && GetStatusFromTitle(columns[i].title) == Some(StatusOrder[i])
           && IsSubseq(columns[i].tasks, SearchFilter(tasks, query))
           && forall t :: t in columns[i].tasks <==> t in SearchFilter(tasks, query) && t.status == StatusOrder[i]
  {
    var filtered := SearchFilter(tasks, query);
    var columns := View(tasks, projects, ByStatus, query);
    assert columns == StatusColumns(filtered);
    forall i | 0 <= i < 3
      ensures GetStatusFromTitle(columns[i].title) == Some(StatusOrder[i])
      ensures IsSubseq(columns[i].tasks, filtered)
      ensures forall t :: t in columns[i].tasks <==> t in filtered && t.status == StatusOrder[i]
    {
      StatusTitlesRoundTrip(StatusOrder[i]);
      FilterIsSubseq(HasStatus(StatusOrder[i]), filtered);
      FilterMultiset(HasStatus(StatusOrder[i]), filtered);
    }
  }

  /** Together the three status columns hold every searched task exactly once. */
  lemma StatusPartition(tasks: seq<Task>, projects: seq<Project>, query: string)
    ensures var columns := View(tasks, projects, ByStatus, query);
      && |columns| == 3
      && multiset(columns[0].tasks) + multiset(columns[1].tasks) + multiset(columns[2].tasks)
         == multiset(SearchFilter(tasks, query))
  {
    var filtered := SearchFilter(tasks, query);
    var columns := View(tasks, projects, ByStatus, query);
    assert columns == StatusColumns(filtered);
    assert columns[0].tasks == Filter(HasStatus(NotStarted), filtered);
    assert columns[1].tasks == Filter(HasStatus(InProgress), filtered);
    assert columns[2].tasks == Filter(HasStatus(Done), filtered);
    FilterPartition3(HasStatus(NotStarted), HasStatus(InProgress), HasStatus(Done), filtered);
  }

  /** The priority layout: "High", "Medium", "Low" in that order, each column
      holding, in order, exactly the searched tasks of that priority. */
  lemma PriorityLayout(tasks: seq<Task>, projects: seq<Project>, query: string)
    ensures var columns := View(tasks, projects, ByPriority, query);
      && |columns| == 3
      && forall i :: 0 <= i < 3 ==>
           && columns[i].title == PriorityLabel(PriorityOrder[i])
           && IsSubseq(columns[i].tasks, SearchFilter(tasks, query))
           && forall t :: t in columns[i].tasks <==> t in SearchFilter(tasks, query) && t.priority == PriorityOrder[i]
  {
    var filtered := SearchFilter(tasks, query);
    var columns := View(tasks, projects, ByPriority, query);
    assert columns == PriorityColumns(filtered);
    forall i | 0 <= i < 3
      ensures IsSubseq(columns[i].tasks, filtered)
      ensures forall t :: t in columns[i].tasks <==> t in filtered && t.priority == PriorityOrder[i]
    {
      FilterIsSubseq(HasPriority(PriorityOrder[i]), filtered);
      FilterMultiset(HasPriority(PriorityOrder[i]), filtered);
    }
  }

  /** Together the three priority columns hold every searched task exactly once. */
  lemma PriorityPartition(tasks: seq<Task>, projects: seq<Project>, query: string)
    ensures var columns := View(tasks, projects, ByPriority, query);
      && |columns| == 3
      && multiset(columns[0].tasks) + multiset(columns[1].tasks) + multiset(columns[2].tasks)
         == multiset(SearchFilter(tasks, query))
  {
    var filtered := SearchFilter(tasks, query);
    var columns := View(tasks, projects, ByPriority, query);
    assert columns == PriorityColumns(filtered);
    assert columns[0].tasks == Filter(HasPriority(High), filtered);
    assert columns[1].tasks == Filter(HasPriority(Medium), filtered);
    assert columns[2].tasks == Filter(HasPriority(Low), filtered);
    FilterPartition3(HasPriority(High), HasPriority(Medium), HasPriority(Low), filtered);
  }

  /** The names of a list of projects, in order. */
  function Names(projects: seq<Project>): seq<string> {
    Map((p: Project) => p.name, projects)
  }

  /** The distinct elements of `s`, each at the place of its first occurrence. */
  function Dedup(s: seq<string>): (r: seq<string>)
    ensures forall x :: x in r <==> x in s
    ensures forall i, j :: 0 <= i < j < |r| ==> r[i] != r[j]
  {
    if s == [] then []
    else
      var d := Dedup(s[..|s| - 1]);
      assert s == s[..|s| - 1] + [s[|s| - 1]];
      if s[|s| - 1] in d then d else d + [s[|s| - 1]]
  }

  /** The last project in the list with the given name: the one whose bucket
      survives when several share a name. */
  function LastNamed(projects: seq<Project>, name: string): (r: Option<Project>)
    ensures r.Some? <==> exists k :: 0 <= k < |projects| && projects[k].name == name
    ensures r.Some? ==> exists k :: 0 <= k < |projects| && projects[k] == r.value && r.value.name == name
                                     && forall j :: k < j < |projects| ==> projects[j].name != name
  {
    if projects == [] then None
    else if projects[|projects| - 1].name == name then Some(projects[|projects| - 1])
    else
      var r := LastNamed(projects[..|projects| - 1], name);
      assert forall k :: 0 <= k < |projects| - 1 ==> projects[..|projects| - 1][k] == projects[k];
      r
  }

  /** The project layout has one column per distinct project name, in the order
      in which the names first appear. */
  lemma {:induction false} ProjectColumnTitles(filtered: seq<Task>, projects: seq<Project>)
    ensures Titles(ProjectColumns(filtered, projects)) == Dedup(Names(projects))
    decreases |projects|
  {
    if projects != [] {
      var init := projects[..|projects| - 1];
      ProjectColumnTitles(filtered, init);
      assert Names(projects)[..|projects| - 1] == Names(init);
    }
  }

  /** Each column of the project layout holds exactly the tasks, in order, of
      the last project that carries its name. */
  lemma {:induction false} ProjectColumnContents(filtered: seq<Task>, projects: seq<Project>)
    ensures forall c :: c in ProjectColumns(filtered, projects) ==>
      LastNamed(projects, c.title).Some? && c.tasks == Filter(InProject(LastNamed(projects, c.title).value.id), filtered)
    decreases |projects|
  {
    if projects != [] {
      var init := projects[..|projects| - 1];
      var last := projects[|projects| - 1];
      ProjectColumnContents(filtered, init);
      forall c | c in ProjectColumns(filtered, projects)
        ensures LastNamed(projects, c.title).Some?
        ensures c.tasks == Filter(InProject(LastNamed(projects, c.title).value.id), filtered)
      {
        if c.title != last.name {
          assert c in ProjectColumns(filtered, init);
          assert LastNamed(projects, c.title) == LastNamed(init, c.title);
        }
      }
    }
  }

  /** A searched task whose `projectId` is the id of no project is in no column
      of the project layout. */
  lemma UnassignedTaskHidden(filtered: seq<Task>, projects: seq<Project>, task: Task)
    requires forall p :: p in projects ==> p.id != task.projectId
    ensures forall c :: c in ProjectColumns(filtered, projects) ==> task !in c.tasks
  {
    ProjectColumnContents(filtered, projects);
    forall c | c in ProjectColumns(filtered, projects)
      ensures task !in c.tasks
    {
      var owner := LastNamed(projects, c.title).value;
      FilterMultiset(InProject(owner.id), filtered);
    }
  }

  /** A searched task belonging to the last project of its name is in the
      column of that name. */
  lemma TaskInItsProjectColumn(filtered: seq<Task>, projects: seq<Project>, task: Task, k: nat)
    requires task in filtered
    requires k < |projects| && task.projectId == projects[k].id
    requires forall j :: k < j < |projects| ==> projects[j].name != projects[k].name
    ensures exists c :: c in ProjectColumns(filtered, projects) && c.title == projects[k].name && task in c.tasks
  {
    var name := projects[k].name;
    var columns := ProjectColumns(filtered, projects);
    ProjectColumnTitles(filtered, projects);
    assert Names(projects)[k] == name;
    assert name in Titles(columns);
    var i :| 0 <= i < |columns| && Titles(columns)[i] == name;
    var c := columns[i];
    ProjectColumnContents(filtered, projects);
    assert c in columns;
    var owner := LastNamed(projects, name).value;
    var k' :| 0 <= k' < |projects| && projects[k'] == owner && owner.name == name
              && forall j :: k' < j < |projects| ==> projects[j].name != name;
    assert k' == k;
    FilterMultiset(InProject(owner.id), filtered);
    assert task in c.tasks;
  }

  /** The project layout reads only the ids and names of the projects: their
      own `tasks` lists play no part. */
  lemma {:induction false} ProjectColumnsIgnoreProjectTasks(filtered: seq<Task>, projects: seq<Project>, others: seq<Project>)
    requires |projects| == |others|
    requires forall i :: 0 <= i < |projects| ==> projects[i].id == others[i].id && projects[i].name == others[i].name
    ensures ProjectColumns(filtered, projects) == ProjectColumns(filtered, others)
    decreases |projects|
  {
    if projects != [] {
      ProjectColumnsIgnoreProjectTasks(filtered, projects[..|projects| - 1], others[..|others| - 1]);
    }
  }

  /** In every layout each column lists its tasks in the order of the searched
      list, which lists them in the order of the board. */
  lemma ColumnsKeepBoardOrder(tasks: seq<Task>, projects: seq<Project>, groupBy: GroupBy, query: string)
    ensures forall c :: c in View(tasks, projects, groupBy, query) ==>
      IsSubseq(c.tasks, SearchFilter(tasks, query)) && IsSubseq(c.tasks, tasks)
  {
    var filtered := SearchFilter(tasks, query);
    forall c | c in View(tasks, projects, groupBy, query)
      ensures IsSubseq(c.tasks, filtered) && IsSubseq(c.tasks, tasks)
    {
      match groupBy {
        case ByStatus =>
          StatusLayout(tasks, projects, query);
        case ByPriority =>
          PriorityLayout(tasks, projects, query);
        case ByProject =>
          ProjectColumnContents(filtered, projects);
          FilterIsSubseq(InProject(LastNamed(projects, c.title).value.id), filtered);
      }
      SubseqTransitive(c.tasks, filtered, tasks);
    }
  }

  /** With an empty search the view buckets the whole task list. */
  lemma EmptySearchShowsAll(tasks: seq<Task>, projects: seq<Project>, groupBy: GroupBy)
    ensures View(tasks, projects, groupBy, "") == Group(tasks, projects, groupBy)
  {
  }

  /** Searching a list with one more task at the end searches the list and
      then the task. */
  lemma SearchAppend(tasks: seq<Task>, task: Task, query: string)
    ensures SearchFilter(tasks + [task], query) == SearchFilter(tasks, query) + (if MatchesSearch(task, query) then [task] else [])
  {
    var keep := Searching(query);
    var one := Filter(keep, [task]);
    assert one == (if MatchesSearch(task, query) then [task] else []) by {
      assert one == (if keep(task) then [task] else []) + Filter(keep, []);
    }
    calc {
      SearchFilter(tasks + [task], query);
      Filter(keep, tasks + [task]);
      { FilterAppend(keep, tasks, [task]); }
      Filter(keep, tasks) + one;
    }
  }

  /** Creating a task that the search lets through adds it at the end of the
      column of its status; every other column is unchanged. */
  lemma CreatedTaskJoinsItsStatusColumn(tasks: seq<Task>, projects: seq<Project>, query: string, task: Task)
    ensures var before := View(tasks, projects, ByStatus, query);
      var after := View(tasks + [task], projects, ByStatus, query);
      && |after| == |before| == 3
      && forall i :: 0 <= i < 3 ==>
           after[i].tasks == before[i].tasks + (if MatchesSearch(task, query) && task.status == StatusOrder[i] then [task] else [])
  {
    var old_ := SearchFilter(tasks, query);
    var extra: seq<Task> := if MatchesSearch(task, query) then [task] else [];
    SearchAppend(tasks, task, query);
    var before := StatusColumns(old_);
    var after := StatusColumns(old_ + extra);
    assert View(tasks, projects, ByStatus, query) == before;
    assert View(tasks + [task], projects, ByStatus, query) == after;
    forall i | 0 <= i < 3
      ensures after[i].tasks == before[i].tasks
              + (if MatchesSearch(task, query) && task.status == StatusOrder[i] then [task] else [])
    {
      var own := HasStatus(StatusOrder[i]);
      assert after[i].tasks == Filter(own, old_ + extra);
      assert before[i].tasks == Filter(own, old_);
      FilterAppend(own, old_, extra);
      if MatchesSearch(task, query) {
        assert Filter(own, extra) == (if own(task) then [task] else []) + Filter(own, []);
      }
    }
  }
}
