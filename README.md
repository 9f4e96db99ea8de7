# Kanban board — a Dafny model

This project models the client-side core of a Kanban board: a board that
holds tasks, projects and tags, searches its tasks and lays them out in
columns by status, by priority or by project. Around the board sit a tag
manager and a project manager (add, rename or recolour, delete, search), a
task form (fields, a subtask draft line, a tag picker, and a submit that
builds the new task), the two tag pickers, and the task card.

Modules follow the source files:

- `Types` (`src/types/kanban.ts`): the records and the string-literal unions, with their key strings.
- `Text`: the three JavaScript string operations the board relies on: `toLowerCase`, `includes` and `trim`.
- `Seqs`: `filter` and the conditional `map`, stated once, with their laws.
- `NameSearch`: the name search that the tag manager, the project manager, the tag multi-select and the task form all repeat.
- `KanbanBoard`: the board's state as a class, and the view as functions.
  - The project layout is also written as the loop the board runs (`GroupProjects`).
  - The column object is an ordered sequence of columns, in insertion order. `Assign` is a key assignment on it for ordinary string keys; the plain-object behaviours it leaves out are listed under "Left out".
- `TagDialog`, `ProjectDialog` and `TaskDialog`: each dialog's list operations are functions, and its form state is a class.
  - Each handler is a method of that class.
  - Handlers that hand a new list to the parent return it.
- `MultiSelect` and `MultiSelectTags`: toggling a name in the chosen names.
- `KanbanTask`: the card's badge colour, its progress count, and what it shows.

Random ids and `new Date()` timestamps are parameters of the operations that
use them. Rendering, focus and dialog open/close animation are not modelled.

Decisions a reader should know:

- Lower-casing changes the ASCII letters `A`–`Z` only, and `trim` strips JavaScript's white-space and line-terminator set.
- When several projects share a name, the project layout keeps the bucket of the last one, at the place where the name first appeared. The earlier projects' tasks are then in no column (`ProjectColumnContents`, `TaskInItsProjectColumn`).
- The tag and project managers test edit mode by JavaScript truthiness. An edit id of `""` counts as not editing (`Editing()`).
- The task form puts the subtasks drafted in the form into the new task. It replaces the form's comments with one comment whose content is the draft comment. Nothing ever sets that draft, so it is always `""` (`TaskDialog.Dialog.Valid`).
- The task form never sets its tag or project search texts. Its pickers therefore always offer every tag and every project (`TaskDialog.Dialog.FilteredTags`).

## Model

| member | source | states |
|---|---|---|
| Types.ParsePriority | src/types/kanban.ts:1 | a key parses exactly when it is one of the three priority literals, and parses to the priority whose key it is |
| Types.ParseStatus | src/types/kanban.ts:2 | the same for the three status literals |
| Types.KeysRoundTrip | src/types/kanban.ts:1-2 | every priority and status survives the trip through its key string |
| Text.Includes | src/components/kanban/KanbanBoard.tsx:31-33 | `includes` is true exactly when the needle occurs at some index of the text |
| Text.LowerIdempotent | src/components/kanban/KanbanBoard.tsx:29-33 | lower-casing twice is lower-casing once |
| Text.MatchesCaseInsensitive | src/components/kanban/KanbanBoard.tsx:29-33 | the empty query matches every text; matching ignores the case of text and query |
| Text.EmptyQueryMatchesAll | src/components/kanban/TagDialog.tsx:57-59 | every name matches the empty search |
| Text.TrimStart | src/components/kanban/TaskDialog.tsx:87 | the result is a suffix, starts with a non-blank or is empty, and only white space was removed |
| Text.TrimEnd | src/components/kanban/TaskDialog.tsx:87 | the result is a prefix, ends with a non-blank or is empty, and only white space was removed |
| Text.Trim | src/components/kanban/TaskDialog.tsx:87 | `trim()` is no longer than its input, starts and ends with a non-blank unless empty, and gives `""` exactly when every character is white space |
| Text.Lower | src/components/kanban/KanbanBoard.tsx:29 | same length; no upper-case ASCII letter is left; each upper-case letter becomes its lower-case partner and every other character stays |
| Text.Matches | src/components/kanban/KanbanBoard.tsx:31-33 | the empty query matches every text, and a query longer than the text never matches |
| Seqs.FilterMultiset | src/components/kanban/KanbanBoard.tsx:28-35 | a filter keeps every passing element with its multiplicity and no other element |
| Seqs.FilterIsSubseq | src/components/kanban/KanbanBoard.tsx:28-35 | a filter keeps the original relative order |
| Seqs.FilterLength | src/components/kanban/KanbanTask.tsx:27 | a filter keeps the full length iff every element passes, and nothing iff none does |
| Seqs.Map | src/components/kanban/TaskDialog.tsx:238 | `map` keeps the length and puts the image of each element at its place |
| Seqs.MapWhere | src/components/kanban/TagDialog.tsx:44-46 | the conditional `map` keeps length and untouched elements and updates exactly the matching ones |
| NameSearch.SearchTags | src/components/kanban/TagDialog.tsx:57-59 | a tag is listed iff it is in the list and its name contains the search, ignoring case; each listed tag as often as in the list; list order kept; empty search lists all |
| NameSearch.SearchProjects | src/components/kanban/ProjectDialog.tsx:56-60 | the same for projects, multiplicity included |
| KanbanBoard.MatchesSearch | src/components/kanban/KanbanBoard.tsx:29-34 | the empty query matches every task; a match needs a title, description or comment at least as long as the query |
| KanbanBoard.SearchFilter | src/components/kanban/KanbanBoard.tsx:28-35 | a task survives iff title, description or some comment contains the query, ignoring case; each surviving task as often as on the board; board order kept; empty query keeps all |
| KanbanBoard.SearchAppend | src/components/kanban/KanbanBoard.tsx:28-35 | searching a list with one more task at the end searches the list, then keeps the task iff it matches |
| KanbanBoard.StatusColumns | src/components/kanban/KanbanBoard.tsx:38-43 | three columns with the three status headings in order and distinct; every task in a column has that column's status |
| KanbanBoard.PriorityColumns | src/components/kanban/KanbanBoard.tsx:44-49 | three columns "High", "Medium", "Low", distinct; every task in a column has that column's priority |
| KanbanBoard.Assign | src/components/kanban/KanbanBoard.tsx:53-55 | object key assignment: the entry with the key keeps its place and takes the new list, the other entries stay, a new key is appended at the end; keys stay distinct |
| KanbanBoard.AssignMembers | src/components/kanban/KanbanBoard.tsx:53-55 | after the assignment the key holds the new list, every other entry is an entry from before, and no other entry is lost |
| KanbanBoard.ProjectColumns | src/components/kanban/KanbanBoard.tsx:50-57 | the project layout never has two columns with one title |
| KanbanBoard.Group | src/components/kanban/KanbanBoard.tsx:37-60 | no two columns share a heading; the status and priority layouts have three columns, the project layout at most one per project |
| KanbanBoard.View | src/components/kanban/KanbanBoard.tsx:27-61 | what the board shows: no two columns share a heading, three columns outside the project layout, and the whole list bucketed under an empty search |
| KanbanBoard.GroupProjects | src/components/kanban/KanbanBoard.tsx:51-56 | the `forEach` loop builds exactly the project layout |
| KanbanBoard.GetStatusFromTitle | src/components/kanban/KanbanBoard.tsx:63-70 | a heading maps to the status whose label it is, and only the three labels map to anything |
| KanbanBoard.Unfinished | src/components/kanban/KanbanBoard.tsx:85 | unfinished and done tasks together are all the tasks |
| KanbanBoard.Board.constructor | src/components/kanban/KanbanBoard.tsx:18-25 | the board starts from the given lists, grouped by status, with an empty search |
| KanbanBoard.Board.UnfinishedCount | src/components/kanban/KanbanBoard.tsx:85 | the unfinished count is at most the task count, and with the done tasks makes up all of them |
| KanbanBoard.Board.SetGroupBy | src/components/kanban/KanbanBoard.tsx:91-99 | only the layout changes; the unfinished count stays |
| KanbanBoard.Board.SetSearchQuery | src/components/kanban/KanbanBoard.tsx:101-106 | only the search changes; the unfinished count stays |
| KanbanBoard.Board.CreateTask | src/components/kanban/KanbanBoard.tsx:72-74 | the task is appended, nothing else changes, and the unfinished count grows by one iff the task is not done |
| KanbanBoard.Board.UpdateProjects | src/components/kanban/KanbanBoard.tsx:76-78 | the project list is replaced whole; nothing else changes |
| KanbanBoard.Board.UpdateTags | src/components/kanban/KanbanBoard.tsx:80-82 | the tag list is replaced whole; nothing else changes |
| KanbanBoard.Board.GroupedTasks | src/components/kanban/KanbanBoard.tsx:27-61 | the rendered columns are the view of the board's current state: search, then bucket |
| KanbanBoard.UnfinishedAppend | src/components/kanban/KanbanBoard.tsx:72-85 | appending a task raises the unfinished count by one exactly when it is not done |
| KanbanBoard.StatusTitlesRoundTrip | src/components/kanban/KanbanBoard.tsx:38-70 | each status-column heading reads back as its status |
| KanbanBoard.StatusLayout | src/components/kanban/KanbanBoard.tsx:37-43 | three columns "Not Started", "In Progress", "Done"; each holds, in order, exactly the searched tasks of its status |
| KanbanBoard.StatusPartition | src/components/kanban/KanbanBoard.tsx:38-43 | the status columns together hold every searched task exactly once |
| KanbanBoard.PriorityLayout | src/components/kanban/KanbanBoard.tsx:44-49 | three columns "High", "Medium", "Low"; each holds, in order, exactly the searched tasks of its priority |
| KanbanBoard.PriorityPartition | src/components/kanban/KanbanBoard.tsx:44-49 | the priority columns together hold every searched task exactly once |
| KanbanBoard.Dedup | src/components/kanban/KanbanBoard.tsx:51-56 | the distinct project names, each once |
| KanbanBoard.LastNamed | src/components/kanban/KanbanBoard.tsx:52-56 | the last project carrying a name, the one whose bucket survives |
| KanbanBoard.ProjectColumnTitles | src/components/kanban/KanbanBoard.tsx:50-57 | one column per distinct project name, in order of first appearance |
| KanbanBoard.ProjectColumnContents | src/components/kanban/KanbanBoard.tsx:50-57 | each project column holds, in order, exactly the searched tasks whose `projectId` is the id of the last project of that name |
| KanbanBoard.UnassignedTaskHidden | src/components/kanban/KanbanBoard.tsx:52-56 | a task naming no project's id is in no project column |
| KanbanBoard.TaskInItsProjectColumn | src/components/kanban/KanbanBoard.tsx:52-56 | a searched task of the last project of its name is in that name's column |
| KanbanBoard.ProjectColumnsIgnoreProjectTasks | src/components/kanban/KanbanBoard.tsx:52-56 | the project layout depends on project ids and names only, never on `Project.tasks` |
| KanbanBoard.ColumnsKeepBoardOrder | src/components/kanban/KanbanBoard.tsx:27-61 | in every layout each column lists its tasks in board order |
| KanbanBoard.EmptySearchShowsAll | src/components/kanban/KanbanBoard.tsx:28-35 | with an empty search the view buckets the whole task list |
| KanbanBoard.CreatedTaskJoinsItsStatusColumn | src/components/kanban/KanbanBoard.tsx:27-74 | a created task that matches the search appears at the end of its status column; no other column changes |
| TagDialog.AddedTags | src/components/kanban/TagDialog.tsx:33-38 | the new tag is appended; existing tags stay in place |
| TagDialog.EditedTags | src/components/kanban/TagDialog.tsx:43-46 | tags with the edited id take the form's name and colour and keep id and place; others are untouched |
| TagDialog.DeletedTags | src/components/kanban/TagDialog.tsx:52-55 | every tag with the id is removed, the rest keep their order, and the length drops by their number |
| TagDialog.AddThenDelete | src/components/kanban/TagDialog.tsx:33-55 | deleting a freshly added tag gives back the list |
| TagDialog.EditThenDelete | src/components/kanban/TagDialog.tsx:42-55 | deleting an edited tag leaves the same list as deleting it unedited |
| TagDialog.EditIdempotent | src/components/kanban/TagDialog.tsx:42-50 | the same edit twice is the edit once; an edit of an absent id changes nothing |
| TagDialog.DeleteIdempotent | src/components/kanban/TagDialog.tsx:52-55 | deleting twice is deleting once |
| TagDialog.Dialog.constructor | src/components/kanban/TagDialog.tsx:24-31 | no edit id, empty search, form at its defaults (empty name, colour `#9b87f5`) |
| TagDialog.Dialog.EnterValues | src/components/kanban/TagDialog.tsx:92-108 | typing sets the form values only |
| TagDialog.Dialog.AddTag | src/components/kanban/TagDialog.tsx:33-40 | hands back the list with the form's tag appended and resets the form |
| TagDialog.Dialog.EditTag | src/components/kanban/TagDialog.tsx:42-50 | outside edit mode does nothing; otherwise hands back the edited list, leaves edit mode, resets the form |
| TagDialog.Dialog.Submit | src/components/kanban/TagDialog.tsx:61-67 | edits in edit mode, adds otherwise; the form ends at its defaults |
| TagDialog.Dialog.EditClick | src/components/kanban/TagDialog.tsx:69-73 | enters edit mode for the tag and loads its name and colour |
| TagDialog.Dialog.CancelEdit | src/components/kanban/TagDialog.tsx:75-78 | leaves edit mode and resets the form |
| TagDialog.Dialog.SetSearch | src/components/kanban/TagDialog.tsx:128 | sets the search text only |
| TagDialog.Dialog.FilteredTags | src/components/kanban/TagDialog.tsx:57-59 | lists exactly the tags whose name contains the search, ignoring case; all of them under an empty search |
| ProjectDialog.AddedProjects | src/components/kanban/ProjectDialog.tsx:31-37 | the new project, with no tasks, is appended; existing projects stay |
| ProjectDialog.EditedProjects | src/components/kanban/ProjectDialog.tsx:43-46 | projects with the id take the new name and keep id, tasks and place; others are untouched |
| ProjectDialog.DeletedProjects | src/components/kanban/ProjectDialog.tsx:51-54 | every project with the id is removed, the rest keep their order, and the length drops by their number |
| ProjectDialog.AddThenDelete | src/components/kanban/ProjectDialog.tsx:31-54 | deleting a freshly added project gives back the list |
| ProjectDialog.EditThenDelete | src/components/kanban/ProjectDialog.tsx:41-54 | deleting a renamed project leaves the same list as deleting it unrenamed |
| ProjectDialog.EditIdempotent | src/components/kanban/ProjectDialog.tsx:41-49 | the same rename twice is the rename once; a rename of an absent id changes nothing |
| ProjectDialog.AddedProjectColumn | src/components/kanban/ProjectDialog.tsx:31-37 | a project added under a new name adds one column at the end of the board's project layout, holding the tasks naming its id |
| ProjectDialog.Dialog.constructor | src/components/kanban/ProjectDialog.tsx:23-29 | no edit id, empty search, empty name |
| ProjectDialog.Dialog.EnterName | src/components/kanban/ProjectDialog.tsx:92-96 | typing sets the name only |
| ProjectDialog.Dialog.AddProject | src/components/kanban/ProjectDialog.tsx:31-39 | hands back the list with the new project appended and resets the form |
| ProjectDialog.Dialog.EditProject | src/components/kanban/ProjectDialog.tsx:41-49 | outside edit mode does nothing; otherwise hands back the renamed list, leaves edit mode, resets the form |
| ProjectDialog.Dialog.Submit | src/components/kanban/ProjectDialog.tsx:62-68 | renames in edit mode, adds otherwise; the form ends empty |
| ProjectDialog.Dialog.EditClick | src/components/kanban/ProjectDialog.tsx:70-73 | enters edit mode for the project and loads its name |
| ProjectDialog.Dialog.CancelEdit | src/components/kanban/ProjectDialog.tsx:75-78 | leaves edit mode and resets the form |
| ProjectDialog.Dialog.SetSearch | src/components/kanban/ProjectDialog.tsx:116 | sets the search text only |
| ProjectDialog.Dialog.FilteredProjects | src/components/kanban/ProjectDialog.tsx:56-60 | lists exactly the projects whose name contains the search, ignoring case; all of them under an empty search |
| MultiSelect.Toggle | src/components/ui/multi-select.tsx:23-29 | the name's membership flips, every other name keeps its membership, removal shortens the list, an unchosen name is appended |
| MultiSelect.ToggleKeepsOthers | src/components/ui/multi-select.tsx:23-29 | apart from the toggled name, the chosen names and their order are kept |
| MultiSelect.ToggleTwice | src/components/ui/multi-select.tsx:23-29 | toggling an unchosen name twice gives back the choice |
| MultiSelect.ToggleTwiceFromChosen | src/components/ui/multi-select.tsx:23-29 | from a choice holding the name, two toggles move it to the end and drop its duplicates |
| MultiSelect.VisibleTags | src/components/ui/multi-select.tsx:19-21 | the checkboxes shown are exactly the tags whose name contains the search, in list order |
| MultiSelect.Checked | src/components/ui/multi-select.tsx:44 | a checkbox is ticked exactly when clicking it would shorten the choice |
| MultiSelect.CheckboxChange | src/components/ui/multi-select.tsx:23-45 | a click flips its own checkbox and leaves the checkboxes of other names as they were |
| MultiSelectTags.Highlighted | src/components/ui/multi-select-tags.tsx:33 | for the same choice, a button is highlighted exactly when the checkbox of its tag would be ticked |
| MultiSelectTags.TagClick | src/components/ui/multi-select-tags.tsx:16-22 | a click flips the tag's highlight; a highlighted name is removed everywhere, another is appended |
| MultiSelectTags.ClickTwice | src/components/ui/multi-select-tags.tsx:16-22 | clicking an unhighlighted tag twice gives back the choice |
| KanbanTask.PriorityColor | src/components/kanban/KanbanTask.tsx:14-25 | the grey fallback is returned exactly for a value outside the priority union |
| KanbanTask.PriorityColorsDistinct | src/components/kanban/KanbanTask.tsx:14-25 | the three priorities get three different colours, none the fallback |
| KanbanTask.CompletedSubtasks | src/components/kanban/KanbanTask.tsx:27 | at most the number of subtasks; equal to it iff all are ticked; zero iff none is |
| KanbanTask.CardOf | src/components/kanban/KanbanTask.tsx:29-72 | the description is shown iff non-empty, the tag row iff there are tags, the progress line iff there are subtasks, and the progress never exceeds the total |
| TaskDialog.AddedSubtasks | src/components/kanban/TaskDialog.tsx:86-97 | a draft of nothing but white space adds nothing; any other draft is appended untrimmed and unticked |
| TaskDialog.ChangedSubtasks | src/components/kanban/TaskDialog.tsx:99-106 | subtasks with the id take the new tick; ids, titles, order and all other subtasks stay |
| TaskDialog.TickMonotone | src/components/kanban/TaskDialog.tsx:99-106 | ticking never lowers the card's completed count, unticking never raises it |
| TaskDialog.SelectedTags | src/components/kanban/TaskDialog.tsx:239-241 | the form keeps exactly the tags of the full list whose names are chosen, each as often as in the list, in list order |
| TaskDialog.CheckboxSelectsByName | src/components/kanban/TaskDialog.tsx:236-241 | a checkbox click selects or deselects every tag of that name; tags of other names keep their selection |
| TaskDialog.CreatedTask | src/components/kanban/TaskDialog.tsx:58-69 | the form's fields, a fresh id, no files, and exactly one comment by "user" holding the draft comment |
| TaskDialog.CreatedTaskSearch | src/components/kanban/TaskDialog.tsx:58-69 | a created task is found by the board's search exactly by its title, its description, or an empty search |
| TaskDialog.Dialog.constructor | src/components/kanban/TaskDialog.tsx:37-56 | form defaults: empty title, description and project, low priority, the given status or `not_started`, no tags, subtasks or comments |
| TaskDialog.Dialog.Fill | src/components/kanban/TaskDialog.tsx:116-212 | entering the plain fields changes those fields only |
| TaskDialog.Dialog.EnterSubtask | src/components/kanban/TaskDialog.tsx:260-263 | typing sets the draft subtask line only |
| TaskDialog.Dialog.AddSubtask | src/components/kanban/TaskDialog.tsx:86-97 | a blank draft changes nothing; otherwise the subtask is appended and the draft cleared |
| TaskDialog.Dialog.SubtaskChange | src/components/kanban/TaskDialog.tsx:99-106 | the subtasks are replaced by the ticked or unticked list |
| TaskDialog.Dialog.ChooseTags | src/components/kanban/TaskDialog.tsx:239-241 | the form's tags become the chosen tags of the full list |
| TaskDialog.Dialog.Submit | src/components/kanban/TaskDialog.tsx:58-72 | hands over the created task with its empty comment and closes the dialog |
| TaskDialog.Dialog.FilteredTags | src/components/kanban/TaskDialog.tsx:74-78 | the tag picker is offered every tag |
| TaskDialog.Dialog.FilteredProjects | src/components/kanban/TaskDialog.tsx:80-84 | the project select is offered every project |

## Left out

- Rendering, styling, icons and the dialogs' open/close state are not modelled. The exception is the task form's close on submit.
- No reachable path calls the board's `handleCreateTask`. The board renders each column's task form with `open={false}` and a no-op `onOpenChange`, so nothing opens it. The task form that the column's own "Add new task" button opens has a no-op `onCreateTask`, and so does the form that the card's view and edit buttons open. `KanbanBoard.Board.CreateTask` is modelled as the handler it is, whoever calls it.
- `Math.random()` ids and `new Date().toISOString()` times are parameters. Nothing makes an id unique. The lemmas that need a fresh id say so in their `requires`.
- The `Array.isArray` guards are not modelled, because every list in the model is a sequence.
- The `default` branch of the grouping switch is not modelled, because `GroupBy` has exactly three values.
- react-hook-form validation is not modelled. No field of any form has a validation rule, so every submit goes through.
- The comment textarea is bound to the form's `comments` field and would store a string there. The model does not represent that string. The submit discards `comments` in any case.
- TaskDialog.Dialog.SubtaskChange: the subtask list renders a `Checkbox` component that the file never imports. Rendering any non-empty subtask list would therefore fail with a reference error, and no working control calls `handleSubtaskChange`. The model states what the handler does when called.
- TaskDialog.Dialog.AddSubtask: for the same reason, the first subtask added makes the form's subtask list fail to render. The model states the handler's effect on the form only.
- `Task.tags` is a sequence of `Tag` records, as the types declare. The card renders each element as a child. With `Tag` records React would reject the object, and only string tags render as text. `KanbanTask.CardOf` records which tags the row shows, not their text.
- `KanbanTask.PriorityColor`: the class names are plain strings. The Tailwind colours they stand for are not modelled.
- `Text.Lower`: only ASCII letters are lower-cased. JavaScript also lower-cases non-ASCII letters, which the model leaves unchanged.
- The nested tag and project managers inside the task form are the same components as the board's, and both drop their changes. The one for projects is given a no-op `onUpdateProjects`. The one for tags is given the form's `onUpdateTags`, which no caller of the form supplies, so the tag manager's no-op default applies. That wiring is not modelled separately.
- KanbanBoard.Assign: models key assignment on a plain object for ordinary string keys only. `Object.entries` lists integer-like keys first, in ascending numeric order, so a project named "2024" is listed before earlier-added names; the model keeps insertion order for every name (and `ProjectColumnTitles` states that order). Assigning to the key `"__proto__"` replaces the object's prototype and adds no entry; the model adds a column for a project of that name.
- KanbanBoard.GetStatusFromTitle: `statusMap[title]` also returns inherited members of `Object.prototype` for titles such as "toString" or "constructor"; the model returns `None` for every title but the three headings. The board only ever passes its own column headings.
