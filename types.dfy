/** The board's entities. Every one is a plain record; the string literal
    unions become enumerations, with the key strings the code compares and
    displays. */
module Types {
  import opened Seqs

  datatype Priority = Low | Medium | High

  datatype Status = NotStarted | InProgress | Done

  /** The three ways the board can lay out its columns. */
  datatype GroupBy = ByStatus | ByPriority | ByProject

  datatype Tag = Tag(id: string, name: string, color: string)

  datatype SubTask = SubTask(id: string, title: string, completed: bool)

  datatype Comment = Comment(id: string, content: string, createdAt: string, author: string)

  /** A task names its project only through the plain string `projectId`;
      nothing ties it to `Project.tasks`. */
  datatype Task = Task(
    id: string,
    title: string,
    description: string,
    status: Status,
    priority: Priority,
    projectId: string,
    tags: seq<Tag>,
    subtasks: seq<SubTask>,
    comments: seq<Comment>,
    files: seq<string>)

  datatype Project = Project(id: string, name: string, tasks: seq<Task>)

  /** The string literal a priority is at run time. */
  function PriorityKey(p: Priority): string {
    match p
    case Low => "low"
    case Medium => "medium"
    case High => "high"
  }

  /** The string literal a status is at run time. */
  function StatusKey(s: Status): string {
    match s
    case NotStarted => "not_started"
    case InProgress => "in_progress"
    case Done => "done"
  }

  /** Reading a key back: the literal union admits exactly the three keys. */
  function ParsePriority(key: string): (r: Option<Priority>)
    ensures r.Some? ==> PriorityKey(r.value) == key
    ensures r.None? ==> forall p :: PriorityKey(p) != key
  {
    if key == "low" then Some(Low)
    else if key == "medium" then Some(Medium)
    else if key == "high" then Some(High)
    else None
  }

  function ParseStatus(key: string): (r: Option<Status>)
    ensures r.Some? ==> StatusKey(r.value) == key
    ensures r.None? ==> forall s :: StatusKey(s) != key
  {
    if key == "not_started" then Some(NotStarted)
    else if key == "in_progress" then Some(InProgress)
    else if key == "done" then Some(Done)
    else None
  }

  /** Every priority and every status survives the trip through its key. */
  lemma KeysRoundTrip(p: Priority, s: Status)
    ensures ParsePriority(PriorityKey(p)) == Some(p)
    ensures ParseStatus(StatusKey(s)) == Some(s)
  {
  }
}
