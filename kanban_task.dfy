/** The task card: a priority badge coloured by priority, the description,
    the tag row and the subtask progress line, each shown only when there is
    something to show. */
module KanbanTask {
  import opened Seqs
  import opened Types

  /** The badge class for a value outside the priority union. */
  const Fallback: string := "bg-gray-500"

  /** The badge class for a priority key, switched on the key string. */
  function PriorityColor(priority: string): (c: string)
    ensures c == Fallback <==> ParsePriority(priority).None?
  {
    if priority == "high" then "bg-priority-high"
    else if priority == "medium" then "bg-priority-medium"
    else if priority == "low" then "bg-priority-low"
    else Fallback
  }

  /** The three priorities get three different badge classes. */
  lemma PriorityColorsDistinct(p: Priority, q: Priority)
    ensures p != q ==> PriorityColor(PriorityKey(p)) != PriorityColor(PriorityKey(q))
    ensures PriorityColor(PriorityKey(p)) != Fallback
  {
  }

  function IsCompleted(): SubTask -> bool {
    (s: SubTask) => s.completed
  }

  /** The number of ticked subtasks. */
  function CompletedSubtasks(subtasks: seq<SubTask>): (n: nat)
    ensures n <= |subtasks|
    ensures n == |subtasks| <==> forall i :: 0 <= i < |subtasks| ==> subtasks[i].completed
    ensures n == 0 <==> forall i :: 0 <= i < |subtasks| ==> !subtasks[i].completed
  {
    FilterLength(IsCompleted(), subtasks);
    |Filter(IsCompleted(), subtasks)|
  }

  /** What a card shows. A missing part is `None`. */
  datatype Card = Card(
    title: string,
    priorityClass: string,
    priorityText: string,
    description: Option<string>,
    tagRow: Option<seq<Tag>>,
    progress: Option<(nat, nat)>)

  function CardOf(task: Task): (c: Card)
    ensures c.title == task.title && c.priorityText == PriorityKey(task.priority)
    ensures c.priorityClass != Fallback
    ensures c.description.Some? <==> task.description != ""
    ensures c.tagRow.Some? <==> |task.tags| > 0
    ensures c.progress.Some? <==> |task.subtasks| > 0
    ensures c.progress.Some? ==> c.progress.value.0 <= c.progress.value.1 == |task.subtasks|
  {
    Card(
      task.title,
      PriorityColor(PriorityKey(task.priority)),
      PriorityKey(task.priority),
      if task.description != "" then Some(task.description) else None,
      if |task.tags| > 0 then Some(task.tags) else None,
      if |task.subtasks| > 0 then Some((CompletedSubtasks(task.subtasks), |task.subtasks|)) else None)
  }
}
