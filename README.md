# Verified model of the codewithmauricio front end's core logic

This project is a Dafny model of the logic inside a React/Next.js admin front end. It covers:

- the **kanban board state engine**:
  - the per-column task cache;
  - drag-and-drop of columns and tasks, with a live preview while hovering;
  - create, edit, assign and delete of tasks;
- the **kanban board list**: reordering boards by drag, and creating, renaming, deleting and AI-batch-creating boards;
- the **text heuristics** of the PDF summariser (sentence splitting, chunking, keyword ranking, top-k summary, question answering) and of the CV analyser (language vote, section check, suggestions, score);
- the **permission logic**:
  - the recursive navigation-menu filter;
  - the `usePermission` predicates and typed getters;
  - the `ConditionalRender` and `PermissionGuard` decisions;
- the **admin pages' form state**:
  - the permission-toggle dialog;
  - role slugs and role dialogs;
  - user dialogs and the update payload;
  - the cash-terminal selection modal;
  - the filter card;
- the **table cell helpers** (role colour hash, chips, avatar URL) and the **trial notification dialog**.

Each source file of that core becomes one Dafny module, in one file:

| module | file | models |
|---|---|---|
| `Wrappers` | wrappers.dfy | `Option` |
| `Seqs` | seqs.dfy | `arrayMove`, `splice`, `filter`, the stable `sort`, and the key order of `Object.entries` |
| `Text` | text.dfy | JavaScript whitespace, `trim`, `split(/\s+/)`, `join`, `includes`, `startsWith`, and decimal strings |
| `DragIds` | drag_ids.dfy | the dnd-kit id strings `column-<id>`, `column-<id>-droppable` and `task-<id>`, and how the handlers parse them |
| `KanbanBoard` | kanban_board.dfy | `useKanbanBoard` as a class over `columns`, `tasksByColumn`, `activeId` and `overColumnId` |
| `KanbanProperties` | kanban_properties.dfy | what each drop and the hover preview do, and task conservation |
| `KanbanBoardsView` | kanban_boards_view.dfy | the board list as a class |
| `PdfSummarizer` | pdf_summarizer.dfy | the summariser's pure helpers and their loops |
| `CvAnalyzer` | cv_analyzer.dfy | `detectLanguage`, `analyzeText` and `scoreLabel` |
| `AuthTypes` | auth_types.dfy | the permission and user records |
| `Navigation` | navigation.dfy | `filterNavigationByPermissions` |
| `UsePermission` | use_permission.dfy | the `usePermission` hook |
| `ConditionalRender` | conditional_render.dfy | the `ConditionalRender` component |
| `PermissionGuard` | permission_guard.dfy | the `PermissionGuard` component |
| `PermissionsView` | permissions_view.dfy | the permission settings page as a class |
| `RolesView` | roles_view.dfy | the role settings page as a class |
| `UsersView` | users_view.dfy | the user settings page as a class |
| `TerminalModal` | terminal_modal.dfy | the cash box and terminal selection modal as a class |
| `CardFilter` | card_filter.dfy | the filter card as a class |
| `TableColumns` | table_columns.dfy | the table cell helpers |
| `TrialDialog` | trial_dialog.dfy | the trial notification dialog |

**Conventions.**

- Every REST call is an outcome given to the handler: success or failure, with the reply body as an input. A failed call that reloads the page state takes the reload's replies as a further input.
- Regular-expression tokenisers and signals are inputs too: the tokens of the normalised text, and the five CV signals.
- JavaScript truthiness is written out:
  - an empty string is falsy (`Trim(name) == []`, `Required`, `HasSinglePermission`);
  - id 0 is falsy (`Missing`, `NoRole`, `Chosen`, `RoleIdOf`, `SelectedItem`);
  - `null`/`undefined` is `None`.
- Integers are unbounded except where the source wraps. `getRoleColor`'s `<<` is modelled with 32-bit `ToInt32` semantics.
- Stateful code is a class whose methods change exactly their `modifies` frame. Each method is specified by the new state as a function of the old one, and those functions carry the properties.

## Model

| member | source | states |
|---|---|---|
| Seqs.RemoveAt | src/views/kanban/hooks/useKanbanBoard.ts:313 | removing index i keeps everything before i and shifts everything after it down by one |
| Seqs.InsertAt | src/views/kanban/hooks/useKanbanBoard.ts:202 | `splice(i, 0, x)`: x lands at index i, earlier elements stay, later ones shift up by one |
| Seqs.RemoveAtMultiset | src/views/kanban/hooks/useKanbanBoard.ts:313 | removing an element loses exactly that element |
| Seqs.InsertAtMultiset | src/views/kanban/hooks/useKanbanBoard.ts:315 | inserting adds exactly that element |
| Seqs.ArrayMoveSpec | src/views/kanban/hooks/useKanbanBoard.ts:236 | `arrayMove` keeps the same elements, puts the moved one at `to`, and keeps all others in their relative order |
| Seqs.ArrayMoveAt | src/views/kanban/hooks/useKanbanBoard.ts:288 | index-wise `arrayMove`: elements strictly between `from` and `to` shift by one, all others stay |
| Seqs.Filter | src/views/kanban/hooks/useKanbanBoard.ts:199 | `filter` keeps exactly the elements satisfying the test, and adds none |
| Seqs.FilterMultiset | src/views/kanban/hooks/useKanbanBoard.ts:313 | a filter keeps a sub-multiset of its input |
| Seqs.FilterAppend | src/navigation/vertical/index.ts:88-95 | filtering a concatenation filters each part |
| Seqs.FilterSubsequence | src/hooks/usePermission.tsx:25-29 | a filter keeps its survivors in their original order |
| Seqs.InsertSpec | src/views/kanban/hooks/useKanbanBoard.ts:96 | one insertion step keeps the list sorted, adds exactly x, and puts x in front of equal keys |
| Seqs.InsertMultiset | src/views/kanban/hooks/useKanbanBoard.ts:96 | an insertion step adds exactly one element |
| Seqs.InsertSorted | src/views/kanban/hooks/useKanbanBoard.ts:96 | an insertion step keeps the list sorted |
| Seqs.InsertKeyClass | src/views/kanban/hooks/useKanbanBoard.ts:96 | an insertion step adds x to the front of its key class |
| Seqs.SortBySpec | src/views/kanban/hooks/useKanbanBoard.ts:96 | the position sort is a sorted permutation of its input, and stable on equal keys |
| Seqs.LeastElement | src/views/kanban/hooks/useKanbanBoard.ts:161-166 | a non-empty set of column ids has a least element |
| Seqs.HasMinimum | src/views/kanban/hooks/useKanbanBoard.ts:161-166 | a non-empty set of column ids has a minimum |
| Seqs.MinOf | src/views/kanban/hooks/useKanbanBoard.ts:161-166 | the least column id of a non-empty set |
| Seqs.MinOfIs | src/views/kanban/hooks/useKanbanBoard.ts:161-166 | an element no other undercuts is the minimum |
| Seqs.GreatestElement | src/views/kanban/hooks/useKanbanBoard.ts:184-187 | a non-empty set of column ids has a greatest element |
| Seqs.HasMaximum | src/views/kanban/hooks/useKanbanBoard.ts:184-187 | a non-empty set of column ids has a maximum |
| Seqs.MaxOf | src/views/kanban/hooks/useKanbanBoard.ts:184-187 | the greatest column id of a non-empty set |
| Seqs.MaxOfIs | src/views/kanban/hooks/useKanbanBoard.ts:184-187 | an element no other exceeds is the maximum |
| Seqs.AscendingKeys | src/views/kanban/hooks/useKanbanBoard.ts:161 | `Object.entries` of a record with numeric keys lists each key once, in ascending order |
| Seqs.DistinctCount | src/views/PdfSummarizer/PdfSummarizerView.tsx:60-66 | in a list without repeats every value occurs at most once |
| Seqs.PermutationDistinct | src/views/PdfSummarizer/PdfSummarizerView.tsx:68-70 | reordering a list without repeats leaves it without repeats |
| Seqs.SplitMultiset | src/views/PdfSummarizer/PdfSummarizerView.tsx:97 | `slice(0, n)` and the rest share out the elements |
| Seqs.LeftOutIsLater | src/views/PdfSummarizer/PdfSummarizerView.tsx:97 | an element left out by `slice(0, n)` sits at some index n or later |
| Text.OutsideRanges | src/views/PdfSummarizer/PdfSummarizerView.tsx:40 | a code point that no whitespace range covers is not whitespace |
| Text.PrintableNotSpace | src/views/settings/rols/RolesView.tsx:114 | no printable ASCII character except the space is whitespace |
| Text.TrimStart | src/views/PdfSummarizer/PdfSummarizerView.tsx:40 | `trimStart` cuts only whitespace and leaves a result that does not start with whitespace |
| Text.TrimEnd | src/views/PdfSummarizer/PdfSummarizerView.tsx:40 | `trimEnd` cuts only whitespace and leaves a result that does not end with whitespace |
| Text.TrimStartSuffix | src/views/PdfSummarizer/PdfSummarizerView.tsx:40 | `trimStart` keeps a suffix |
| Text.TrimEndPrefix | src/views/PdfSummarizer/PdfSummarizerView.tsx:40 | `trimEnd` keeps a prefix |
| Text.TrimStartShrinks | src/views/PdfSummarizer/PdfSummarizerView.tsx:40 | a leading whitespace character is always cut |
| Text.TrimEmptyIffBlank | src/views/kanban/KanbanBoardsView.tsx:164 | `!s.trim()` holds exactly for all-whitespace strings |
| Text.TakeWord | src/views/PdfSummarizer/PdfSummarizerView.tsx:47 | the longest whitespace-free prefix, which ends at whitespace or at the end |
| Text.Words | src/views/PdfSummarizer/PdfSummarizerView.tsx:47 | `split(/\s+/).filter(Boolean)` yields only non-empty whitespace-free words |
| Text.TakeWordOf | src/views/PdfSummarizer/PdfSummarizerView.tsx:47 | a word followed by whitespace is taken whole |
| Text.WordsSkipSpace | src/views/PdfSummarizer/PdfSummarizerView.tsx:47 | leading whitespace does not change the words |
| Text.WordsOfWord | src/views/PdfSummarizer/PdfSummarizerView.tsx:47 | a leading word is the first of the words |
| Text.JoinCons | src/views/PdfSummarizer/PdfSummarizerView.tsx:51 | `join` of a non-empty list unfolds at its head |
| Text.WordsOfJoinCons | src/views/PdfSummarizer/PdfSummarizerView.tsx:51 | the step of the split/join round trip |
| Text.WordsOfJoin | src/views/PdfSummarizer/PdfSummarizerView.tsx:47-51 | splitting the space-joined words gives back the same words |
| Text.WordsEmptyIffBlank | src/views/PdfSummarizer/PdfSummarizerView.tsx:47 | the word list is empty exactly for blank text |
| Text.JoinEmpty | src/views/PdfSummarizer/PdfSummarizerView.tsx:51 | a space-joined word list is empty exactly when the list is |
| Text.DigitChar | src/views/kanban/components/SortableTask.tsx:16 | a decimal digit character |
| Text.NatToString | src/views/kanban/components/SortableTask.tsx:16 | `${n}` is a non-empty run of digits |
| Text.ParseNatToString | src/views/kanban/hooks/useKanbanBoard.ts:255 | `Number` reads back the decimal form of a number |
| DragIds.Encode | src/views/kanban/components/SortableColumn.tsx:29-37 | every id string is longer than the `task-` prefix |
| DragIds.DigitRun | src/views/kanban/hooks/useKanbanBoard.ts:168 | the greedy `\d+`: a maximal run of digits |
| DragIds.ClassifyTask | src/views/kanban/hooks/useKanbanBoard.ts:226-227 | `startsWith('task-')` recognises exactly the task ids |
| DragIds.ClassifyColumn | src/views/kanban/hooks/useKanbanBoard.ts:224-225 | `startsWith('column-')` holds for sortable columns AND for drop zones |
| DragIds.NoDroppable | src/views/kanban/hooks/useKanbanBoard.ts:228 | a column or task id contains no `-droppable` |
| DragIds.ClassifyDroppable | src/views/kanban/hooks/useKanbanBoard.ts:228 | `includes('-droppable')` recognises exactly the drop zones |
| DragIds.TaskNumberEncode | src/views/kanban/hooks/useKanbanBoard.ts:255 | `Number(id.replace('task-', ''))` gives back the task id |
| DragIds.DigitRunOf | src/views/kanban/hooks/useKanbanBoard.ts:341 | the greedy digit run stops exactly at the end of the digits |
| DragIds.MatchZoneEncode | src/views/kanban/hooks/useKanbanBoard.ts:341 | `/column-(\d+)-droppable/` captures the zone's column id |
| DragIds.EncodeInjective | src/views/kanban/hooks/useKanbanBoard.ts:219 | two items share an id string iff they are the same item, so `active.id === over.id` compares items |
| KanbanBoard.SortColumns | src/views/kanban/hooks/useKanbanBoard.ts:95-98 | `sortedColumns` is a permutation of `columns` ordered by non-decreasing position; columns with equal positions keep their order |
| KanbanBoard.SortTasks | src/views/kanban/hooks/useKanbanBoard.ts:119-121 | each column's tasks are a permutation sorted by position, stable on equal positions |
| KanbanBoard.ReindexColumns | src/views/kanban/hooks/useKanbanBoard.ts:237 | after renumbering, every column's position is its index, and nothing else changes |
| KanbanBoard.ReindexTasks | src/views/kanban/hooks/useKanbanBoard.ts:289 | after renumbering, every task's position is its index, and nothing else changes |
| KanbanBoard.ReorderItems | src/views/kanban/hooks/useKanbanBoard.ts:242 | the reorder payload lists the same ids as the new columns, with position = index |
| KanbanBoard.IndexOfTask | src/views/kanban/hooks/useKanbanBoard.ts:283-284 | `findIndex`: the first index holding the id, or -1 exactly when the id is absent |
| KanbanBoard.FindTask | src/views/kanban/hooks/useKanbanBoard.ts:196 | `find` on a list that holds the id returns a task of the list with that id |
| KanbanBoard.Without | src/views/kanban/hooks/useKanbanBoard.ts:199 | `filter(t => t.id !== id)` drops exactly the copies of the id, keeps every other task, and adds none |
| KanbanBoard.WithoutIsFilter | src/views/kanban/hooks/useKanbanBoard.ts:313 | removing a task is the array filter with the id test |
| KanbanBoard.LeastOwner | src/views/kanban/hooks/useKanbanBoard.ts:260-265 | the column the scan with `break` finds holds the task |
| KanbanBoard.GreatestOwner | src/views/kanban/hooks/useKanbanBoard.ts:184-187 | the column the scan without `break` finds holds the task |
| KanbanBoard.KeyOrder | src/views/kanban/hooks/useKanbanBoard.ts:161 | `Object.entries(tasksByColumn)` visits each column id once, in ascending order |
| KanbanBoard.FindFirstOwner | src/views/kanban/hooks/useKanbanBoard.ts:260-265 | the `for…of` loop with `break` returns the least column owning the task |
| KanbanBoard.FirstSeenIsLeast | src/views/kanban/hooks/useKanbanBoard.ts:260-265 | the first owner met in ascending key order is the least owner |
| KanbanBoard.NoneSeenNoOwner | src/views/kanban/hooks/useKanbanBoard.ts:260-267 | a scan that meets no owner proves that no column holds the task |
| KanbanBoard.FindLastOwners | src/views/kanban/hooks/useKanbanBoard.ts:184-187 | the loop without `break` ends with the greatest column owning each of the two tasks |
| KanbanBoard.LastSeenStep | src/views/kanban/hooks/useKanbanBoard.ts:184-187 | one step of that loop keeps "the last owner seen so far" |
| KanbanBoard.LastSeenIsGreatest | src/views/kanban/hooks/useKanbanBoard.ts:184-187 | the last owner seen over all keys is the greatest owner |
| KanbanBoard.ColumnIndex | src/views/kanban/hooks/useKanbanBoard.ts:231-232 | `sortedColumns.findIndex` on an id string: the first column with that string, or -1 when none has it |
| KanbanBoard.ColumnsOf | src/views/kanban/hooks/useKanbanBoard.ts:108-109 | the columns of a reload, in order |
| KanbanBoard.TasksMapOf | src/views/kanban/hooks/useKanbanBoard.ts:119-122 | the reloaded map has exactly the reloaded column ids as keys, each list sorted by position |
| KanbanBoard.BuildTasksMap | src/views/kanban/hooks/useKanbanBoard.ts:119-122 | the `forEach` builds exactly that map |
| KanbanBoard.RemoveEverywhere | src/views/kanban/hooks/useKanbanBoard.ts:614-617 | the confirmed delete keeps every column key, and each list becomes its filter without the task |
| KanbanBoard.RemoveTaskEverywhere | src/views/kanban/hooks/useKanbanBoard.ts:615-617 | the `for…in` loop produces exactly that map |
| KanbanBoard.RemovedStep | src/views/kanban/hooks/useKanbanBoard.ts:615-617 | one loop step filters one more column |
| KanbanBoard.RemovedAll | src/views/kanban/hooks/useKanbanBoard.ts:615-617 | after all keys, every column has been filtered |
| KanbanBoard.Board.constructor | src/views/kanban/hooks/useKanbanBoard.ts:68-93 | the hook's initial state: no columns, no tasks, nothing dragged or hovered |
| KanbanBoard.Board.SortedColumns | src/views/kanban/hooks/useKanbanBoard.ts:95-98 | the sorted view is a sorted permutation of the stored columns, which are not reordered |
| KanbanBoard.Board.Load | src/views/kanban/hooks/useKanbanBoard.ts:100-137 | `loadBoardData`: nothing without a board id; otherwise the columns and the sorted task lists that arrived before any failure |
| KanbanBoard.Board.DragStart | src/views/kanban/hooks/useKanbanBoard.ts:145-147 | records the dragged item |
| KanbanBoard.Board.DragOver | src/views/kanban/hooks/useKanbanBoard.ts:149-211 | hovering sets `overColumnId`; task lists change only when a task hovers a task, and then as the preview move |
| KanbanBoard.Board.TaskDropOf | src/views/kanban/hooks/useKanbanBoard.ts:254-375 | the task branch, with its ownership loops, gives the drop the specification function describes |
| KanbanBoard.Board.DragEnd | src/views/kanban/hooks/useKanbanBoard.ts:213-377 | drag end always clears `activeId` and `overColumnId`; with no target or a self-drop nothing else changes; otherwise the optimistic update, the request and, on failure, the reload |
| KanbanBoard.Board.DropOf | src/views/kanban/hooks/useKanbanBoard.ts:219-254 | the branch selection of the drop handler |
| KanbanBoard.Board.ApplyDrop | src/views/kanban/hooks/useKanbanBoard.ts:236-375 | the optimistic update, the request it sends, and the reload after a failed save |
| KanbanBoard.Board.AddColumn | src/views/kanban/hooks/useKanbanBoard.ts:379-400 | a blank name is refused; otherwise the request asks for position = column count, and the created column is appended |
| KanbanBoard.Board.AddTask | src/views/kanban/hooks/useKanbanBoard.ts:451-482 | needs a column (id 0 counts as none) and a non-blank name; requests position = list length and appends the created task |
| KanbanBoard.Board.Assign | src/views/kanban/hooks/useKanbanBoard.ts:533-555 | the server's copy replaces the task in the list of the column it names |
| KanbanBoard.Board.SaveEdit | src/views/kanban/hooks/useKanbanBoard.ts:565-601 | needs a task being edited and a non-blank name; the server's copy replaces the task in its column |
| KanbanBoard.Board.ConfirmDelete | src/views/kanban/hooks/useKanbanBoard.ts:608-629 | after a successful delete no column lists the task; every other task keeps its order |
| KanbanProperties.TotalRemove | src/views/kanban/hooks/useKanbanBoard.ts:313 | the total task count does not depend on the order the columns are counted in |
| KanbanProperties.TotalUpdate | src/views/kanban/hooks/useKanbanBoard.ts:315-326 | replacing one list changes the total by the difference in length |
| KanbanProperties.ColumnIndexOf | src/views/kanban/hooks/useKanbanBoard.ts:231-232 | looking up a column's own id string finds the first column with that id |
| KanbanProperties.ColumnIndexOfZone | src/views/kanban/hooks/useKanbanBoard.ts:231-232 | a drop-zone id matches no sortable column |
| KanbanProperties.TaskDropOutcome | src/views/kanban/hooks/useKanbanBoard.ts:254-255 | a dragged task not dropped on itself goes to the task branch |
| KanbanProperties.DropNowhereOrOnItself | src/views/kanban/hooks/useKanbanBoard.ts:218-219 | no target, or the item dropped on itself: nothing changes and nothing is sent |
| KanbanProperties.MixedDropsIgnored | src/views/kanban/hooks/useKanbanBoard.ts:230-268 | a column dropped on a task, or a task dropped on a sortable column rather than its zone, is ignored |
| KanbanProperties.ColumnOnZoneIgnored | src/views/kanban/hooks/useKanbanBoard.ts:230-234 | a column dropped on a drop zone is ignored |
| KanbanProperties.UnownedTaskIgnored | src/views/kanban/hooks/useKanbanBoard.ts:267 | a task held by no column, or only by column 0, cannot be dropped anywhere |
| KanbanProperties.UnownedTargetIgnored | src/views/kanban/hooks/useKanbanBoard.ts:272-279 | a task dropped on a task no column holds is ignored |
| KanbanProperties.ColumnDropOutcome | src/views/kanban/hooks/useKanbanBoard.ts:230 | a column dropped on a column goes to the column branch over the sorted columns |
| KanbanProperties.ColumnDropMoves | src/views/kanban/hooks/useKanbanBoard.ts:230-243 | ignored iff either id is unlisted; otherwise the arrayMove, renumbered 0..N-1, with the dragged column at the target index, and a payload of ids with position = index |
| KanbanProperties.ColumnDropSpec | src/views/kanban/hooks/useKanbanBoard.ts:230-243 | a column-on-column drop, end to end, as above |
| KanbanProperties.TaskOnTaskOutcome | src/views/kanban/hooks/useKanbanBoard.ts:269-306 | a task on a task: the same-column branch iff both have the same owner, else the cross-column branch |
| KanbanProperties.WithoutCount | src/views/kanban/hooks/useKanbanBoard.ts:313 | filtering loses exactly the copies of the id, at least one when the task is present |
| KanbanProperties.SameColumnMoves | src/views/kanban/hooks/useKanbanBoard.ts:281-300 | same-column: that column becomes arrayMove renumbered 0..M-1, the task sits at the sent index, other columns unchanged, total unchanged |
| KanbanProperties.SameColumnDropSpec | src/views/kanban/hooks/useKanbanBoard.ts:281-300 | the same-column drop, end to end, as above |
| KanbanProperties.CrossColumnMoves | src/views/kanban/hooks/useKanbanBoard.ts:306-326 | cross-column: the source is filtered (not renumbered), the target gets the re-homed task at the hovered index and is renumbered, and nothing else changes |
| KanbanProperties.CrossColumnTarget | src/views/kanban/hooks/useKanbanBoard.ts:315-320 | the target after insertion and renumbering: earlier tasks, the moved task at index o, later tasks shifted up by one, all renumbered |
| KanbanProperties.CrossColumnTotal | src/views/kanban/hooks/useKanbanBoard.ts:306-326 | the board gains one entry and loses every copy of the task in the source |
| KanbanProperties.CrossColumnDropSpec | src/views/kanban/hooks/useKanbanBoard.ts:306-326 | the cross-column drop, end to end, as above |
| KanbanProperties.TaskOnZoneOutcome | src/views/kanban/hooks/useKanbanBoard.ts:340-347 | a task on a drop zone: ignored for its own column, else the zone branch |
| KanbanProperties.ZoneDropTotal | src/views/kanban/hooks/useKanbanBoard.ts:348-358 | the zone drop gains one entry and loses every copy of the task in the source |
| KanbanProperties.ZoneDropSpec | src/views/kanban/hooks/useKanbanBoard.ts:340-362 | a drop on a zone: a no-op for the source column itself; otherwise appended with position = old target length and the target's column id, removed from the source, with that position sent |
| KanbanProperties.CrossColumnSingleHome | src/views/kanban/hooks/useKanbanBoard.ts:306-326 | when one column alone holds the task, once, a cross-column drop leaves it in the target column alone, once, with the task total unchanged |
| KanbanProperties.ZoneDropSingleHome | src/views/kanban/hooks/useKanbanBoard.ts:340-362 | the same for a drop on another column's zone: the zone's column alone holds the task, once, with the task total unchanged |
| KanbanProperties.HoverColumnSpec | src/views/kanban/hooks/useKanbanBoard.ts:156-175 | the hovered column is the first owner of a hovered task, or the zone's own column, or none over a sortable column |
| KanbanProperties.HoverTasksSpec | src/views/kanban/hooks/useKanbanBoard.ts:177-208 | the preview changes lists only for two owned tasks in different columns; then the task moves to the hovered task's index, without renumbering |
| KanbanProperties.HoverTasksTotal | src/views/kanban/hooks/useKanbanBoard.ts:193-208 | the preview gains one entry and loses every copy of the task in its column |
| KanbanProperties.TasksMapOfLast | src/views/kanban/hooks/useKanbanBoard.ts:119-122 | when a column id is listed twice in a reload, the later entry's sorted tasks win |
| KanbanBoardsView.IndexOfBoard | src/views/kanban/KanbanBoardsView.tsx:136-137 | `findIndex` on board ids: the first match, or -1 exactly when none matches |
| KanbanBoardsView.BoardIds | src/views/kanban/KanbanBoardsView.tsx:142 | the reorder payload is the id sequence of the list |
| KanbanBoardsView.Renamed | src/views/kanban/KanbanBoardsView.tsx:195-197 | exactly the boards with the selected id take the new name; ids and positions are kept |
| KanbanBoardsView.WithoutBoard | src/views/kanban/KanbanBoardsView.tsx:215-216 | deleting removes exactly the boards with the id, and keeps the rest in order |
| KanbanBoardsView.BoardDropSpec | src/views/kanban/KanbanBoardsView.tsx:130-138 | no target or a self-drop is a no-op; otherwise a real arrayMove to the target's index with the same boards and the others in order |
| KanbanBoardsView.BoardsList.constructor | src/views/kanban/KanbanBoardsView.tsx:85-86 | an empty list, with nothing dragged |
| KanbanBoardsView.BoardsList.Load | src/views/kanban/KanbanBoardsView.tsx:108-116 | `loadBoards`: the fetched list (`data \|\| []`), or the old one when the fetch fails |
| KanbanBoardsView.BoardsList.DragStart | src/views/kanban/KanbanBoardsView.tsx:122-124 | records the dragged board |
| KanbanBoardsView.BoardsList.DragEnd | src/views/kanban/KanbanBoardsView.tsx:126-150 | clears the drag; a real move replaces the list with the arrayMove and sends its id order; a failed save reloads |
| KanbanBoardsView.BoardsList.Create | src/views/kanban/KanbanBoardsView.tsx:163-184 | a blank name is refused; otherwise requests position = board count and appends the created board |
| KanbanBoardsView.BoardsList.EditSave | src/views/kanban/KanbanBoardsView.tsx:186-204 | needs a selection and a non-blank name; renames only the boards with the selected id |
| KanbanBoardsView.BoardsList.DeleteConfirm | src/views/kanban/KanbanBoardsView.tsx:211-229 | after a successful delete no board carries the id |
| KanbanBoardsView.BoardsList.AiGenerate | src/views/kanban/KanbanBoardsView.tsx:231-273 | a blank prompt is refused; creates are requested at consecutive positions from the board count; the created boards are appended in order when all succeed; after a failure the last create requested is the one that failed, every earlier one succeeded, and the list is unchanged |
| KanbanBoardsView.AllCreatedSpec | src/views/kanban/KanbanBoardsView.tsx:252-263 | when every create succeeded, the created boards are the replies in order |
| KanbanBoardsView.CreateBatch | src/views/kanban/KanbanBoardsView.tsx:252-263 | the counted loop posts name i with position start + i; it stops at the first failure: the last create sent is the one that failed and every earlier one succeeded |
| KanbanBoardsView.CreatedAppend | src/views/kanban/KanbanBoardsView.tsx:252-263 | the boards created by two batches are those of the first followed by those of the second |
| KanbanBoardsView.CreatedSnoc | src/views/kanban/KanbanBoardsView.tsx:252-263 | one more successful create appends its board |
| PdfSummarizer.NextBreak | src/views/PdfSummarizer/PdfSummarizerView.tsx:43 | the first position from p on where the split pattern matches (a stop character then whitespace), or the end; no match is skipped |
| PdfSummarizer.SplitAfterStops | src/views/PdfSummarizer/PdfSummarizerView.tsx:43 | `split` always yields at least one piece |
| PdfSummarizer.JoinSingleSpaced | src/views/PdfSummarizer/PdfSummarizerView.tsx:40 | words joined with single spaces give single-spaced text that neither starts nor ends with a space |
| PdfSummarizer.NormalizeSingleSpaced | src/views/PdfSummarizer/PdfSummarizerView.tsx:40 | collapsing the whitespace runs and trimming gives single-spaced text |
| PdfSummarizer.SingleSpacedSuffix | src/views/PdfSummarizer/PdfSummarizerView.tsx:43 | a suffix of single-spaced text that starts on a non-space is single-spaced |
| PdfSummarizer.SplitJoin | src/views/PdfSummarizer/PdfSummarizerView.tsx:43 | on single-spaced text the split only drops single spaces: joining the pieces with a space restores the text |
| PdfSummarizer.SentencesSpec | src/views/PdfSummarizer/PdfSummarizerView.tsx:39-44 | no sentences exactly for blank text; otherwise the sentences joined with spaces are the collapsed, trimmed text |
| PdfSummarizer.SplitIntoChunks | src/views/PdfSummarizer/PdfSummarizerView.tsx:46-55 | the counted loop yields the joined word slices at 0, maxWords, 2·maxWords, … |
| PdfSummarizer.SplitIntoDefaultChunks | src/views/PdfSummarizer/PdfSummarizerView.tsx:212 | the upload handler's call with the default 180 words per chunk; no chunk exactly for blank text |
| PdfSummarizer.ChunkStep | src/views/PdfSummarizer/PdfSummarizerView.tsx:50-52 | one push and `i += maxWords` keep the loop invariant |
| PdfSummarizer.ChunkTextsJoin | src/views/PdfSummarizer/PdfSummarizerView.tsx:51 | each chunk text is its words joined with single spaces |
| PdfSummarizer.ChunkWordsFlatten | src/views/PdfSummarizer/PdfSummarizerView.tsx:47-52 | the chunks' words, concatenated, are all the words in order: none lost, repeated or moved |
| PdfSummarizer.ChunkWordsSizes | src/views/PdfSummarizer/PdfSummarizerView.tsx:50-52 | every chunk but the last has exactly maxWords words, the last between 1 and maxWords |
| PdfSummarizer.ChunkWordsAreWords | src/views/PdfSummarizer/PdfSummarizerView.tsx:47 | every chunk word is non-empty and has no whitespace |
| PdfSummarizer.ChunkTextWords | src/views/PdfSummarizer/PdfSummarizerView.tsx:47-51 | reading the words back from a chunk's text gives exactly the words that went into it |
| PdfSummarizer.OccurrencesSnoc | src/views/PdfSummarizer/PdfSummarizerView.tsx:64 | counting one more token adds one exactly for its own word |
| PdfSummarizer.OccurrencesAbsent | src/views/PdfSummarizer/PdfSummarizerView.tsx:64 | a word not among the tokens has count 0 |
| PdfSummarizer.FirstSeen | src/views/PdfSummarizer/PdfSummarizerView.tsx:60-67 | the Map's key order: each counted token once, only counted tokens of the text, and all of them |
| PdfSummarizer.Tallies | src/views/PdfSummarizer/PdfSummarizerView.tsx:67 | the entries pair each key, in key order, with its number of occurrences |
| PdfSummarizer.RankTallies | src/views/PdfSummarizer/PdfSummarizerView.tsx:68 | the comparator sort is a permutation with non-increasing counts |
| PdfSummarizer.ExtractKeywords | src/views/PdfSummarizer/PdfSummarizerView.tsx:57-71 | the `forEach` and the ranking give the words of the first `maxKeywords` ranked entries |
| PdfSummarizer.CountTokens | src/views/PdfSummarizer/PdfSummarizerView.tsx:62-65 | after the loop the map holds exactly the counted tokens, each with its number of occurrences, keyed in first-seen order |
| PdfSummarizer.RankedTally | src/views/PdfSummarizer/PdfSummarizerView.tsx:67-68 | every ranked entry is a counted token with its true count |
| PdfSummarizer.KeywordsRanked | src/views/PdfSummarizer/PdfSummarizerView.tsx:67-70 | at most `maxKeywords` keywords, each a counted token of the text, in non-increasing frequency |
| PdfSummarizer.KeywordsDistinct | src/views/PdfSummarizer/PdfSummarizerView.tsx:67-70 | no keyword is listed twice |
| PdfSummarizer.KeywordsTop | src/views/PdfSummarizer/PdfSummarizerView.tsx:67-70 | a counted token is left out only when the list is full, and then every keyword occurs at least as often |
| PdfSummarizer.Hits | src/views/PdfSummarizer/PdfSummarizerView.tsx:76-80 | the score is at most the number of words, and positive iff the text contains one of them |
| PdfSummarizer.CountIncluded | src/views/PdfSummarizer/PdfSummarizerView.tsx:75-80 | the counter loop computes that score |
| PdfSummarizer.ScoreSentence | src/views/PdfSummarizer/PdfSummarizerView.tsx:73-83 | the number of keywords the normalised sentence contains, at most the number of keywords |
| PdfSummarizer.ScoreAll | src/views/PdfSummarizer/PdfSummarizerView.tsx:90-93 | each sentence, in order, paired with its score |
| PdfSummarizer.RankScored | src/views/PdfSummarizer/PdfSummarizerView.tsx:96 | the comparator sort is a permutation with non-increasing scores |
| PdfSummarizer.ScoreSentences | src/views/PdfSummarizer/PdfSummarizerView.tsx:90-93 | the `map` gives each sentence with its score |
| PdfSummarizer.Summarize | src/views/PdfSummarizer/PdfSummarizerView.tsx:85-99 | the summary is the trimmed first `min(6, n)` ranked sentences of the text |
| PdfSummarizer.SummaryLength | src/views/PdfSummarizer/PdfSummarizerView.tsx:97 | the summary has `min(6, n)` entries for n sentences |
| PdfSummarizer.SummaryPicksSpec | src/views/PdfSummarizer/PdfSummarizerView.tsx:95-97 | the picks are distinct scored sentences of the input with their own scores, in non-increasing order |
| PdfSummarizer.SummaryTop | src/views/PdfSummarizer/PdfSummarizerView.tsx:96-97 | no sentence left out scores higher than a picked one |
| PdfSummarizer.SummaryEmptyIffBlank | src/views/PdfSummarizer/PdfSummarizerView.tsx:86-87 | the summary is empty exactly when the text is blank |
| PdfSummarizer.BuildSummaryText | src/views/PdfSummarizer/PdfSummarizerView.tsx:101-103 | every summary sentence occurs in the built text |
| PdfSummarizer.JoinIncludes | src/views/PdfSummarizer/PdfSummarizerView.tsx:102 | every joined element occurs in the joined text |
| PdfSummarizer.QuestionWords | src/views/PdfSummarizer/PdfSummarizerView.tsx:106-108 | the question words are words of the normalised question longer than 3 characters |
| PdfSummarizer.Relevances | src/views/PdfSummarizer/PdfSummarizerView.tsx:112-124 | each trimmed sentence, in order, with the number of question words its normalised text contains |
| PdfSummarizer.RelevancesSnoc | src/views/PdfSummarizer/PdfSummarizerView.tsx:112-124 | one more sentence appends its own answer |
| PdfSummarizer.RankAnswers | src/views/PdfSummarizer/PdfSummarizerView.tsx:126 | the comparator sort is a permutation with non-increasing relevance |
| PdfSummarizer.FindAnswers | src/views/PdfSummarizer/PdfSummarizerView.tsx:105-130 | the answers are the first five ranked relevant items of the scored sentences |
| PdfSummarizer.ScoreAnswers | src/views/PdfSummarizer/PdfSummarizerView.tsx:113-124 | the `map` with its counter loop gives exactly those relevances |
| PdfSummarizer.TopAnswersCount | src/views/PdfSummarizer/PdfSummarizerView.tsx:125-127 | `min(5, m)` answers for m relevant items, each a different relevant item |
| PdfSummarizer.TopAnswersOrder | src/views/PdfSummarizer/PdfSummarizerView.tsx:125-126 | every answer has positive relevance, non-increasing along the list |
| PdfSummarizer.TopAnswersTop | src/views/PdfSummarizer/PdfSummarizerView.tsx:126-127 | no relevant item left out is more relevant than a picked one |
| PdfSummarizer.AnswersSpec | src/views/PdfSummarizer/PdfSummarizerView.tsx:105-130 | every answer is a trimmed sentence of the text with its own relevance, between 1 and the number of question words |
| CvAnalyzer.StopCount | src/views/CVAnalyzer/CVAnalyzerView.tsx:82-83 | the filter count is at most the number of words, and zero iff no word is a stop-word |
| CvAnalyzer.DetectLanguage | src/views/CVAnalyzer/CVAnalyzerView.tsx:75-90 | a Spanish letter decides Spanish; otherwise Spanish iff strictly more Spanish than English stop-words, so a tie is English |
| CvAnalyzer.NoEvidenceIsEnglish | src/views/CVAnalyzer/CVAnalyzerView.tsx:77-89 | no Spanish letter and no Spanish stop-word gives English |
| CvAnalyzer.CheckSections | src/views/CVAnalyzer/CVAnalyzerView.tsx:109-118 | one result per configured section, same key and label; found iff a matcher occurs, and for contact also iff an e-mail, phone or link signal holds |
| CvAnalyzer.MissingSections | src/views/CVAnalyzer/CVAnalyzerView.tsx:122 | exactly the keys of the sections not found |
| CvAnalyzer.LengthBands | src/views/CVAnalyzer/CVAnalyzerView.tsx:123-124 | a CV is never both short and long; 0 words and 200–900 words are neither |
| CvAnalyzer.Message | src/views/CVAnalyzer/CVAnalyzerView.tsx:126-150 | every pushed suggestion has a non-empty text in the detected language; only the unused "add contact" case has none |
| CvAnalyzer.SpanishMessage | src/views/CVAnalyzer/CVAnalyzerView.tsx:127-137 | the Spanish texts: non-empty for every pushed suggestion |
| CvAnalyzer.EnglishMessage | src/views/CVAnalyzer/CVAnalyzerView.tsx:139-149 | the English texts: non-empty for every pushed suggestion |
| CvAnalyzer.Step | src/views/CVAnalyzer/CVAnalyzerView.tsx:126-150 | each test pushes at most one suggestion, of its own rank |
| CvAnalyzer.PushedRanked | src/views/CVAnalyzer/CVAnalyzerView.tsx:126-150 | the first n tests push suggestions in strictly increasing rank, each exactly when its test holds |
| CvAnalyzer.SuggestionsSpec | src/views/CVAnalyzer/CVAnalyzerView.tsx:126-150 | suggestions come in test order without repeats; one per missing non-contact section; e-mail/phone, links, metrics, dates, short and long each exactly when their condition holds |
| CvAnalyzer.Clamp | src/views/CVAnalyzer/CVAnalyzerView.tsx:161 | `Math.max(0, Math.min(100, x))` lies in 0..100 and keeps values already there |
| CvAnalyzer.ScoreMonotone | src/views/CVAnalyzer/CVAnalyzerView.tsx:152-161 | missing more sections never raises the score |
| CvAnalyzer.ScoreSignalMonotone | src/views/CVAnalyzer/CVAnalyzerView.tsx:154-158 | losing a signal never raises the score |
| CvAnalyzer.PushSuggestions | src/views/CVAnalyzer/CVAnalyzerView.tsx:120-150 | the `if`/`push` sequence yields exactly the suggestions of the tests, in order |
| CvAnalyzer.PushSectionSuggestions | src/views/CVAnalyzer/CVAnalyzerView.tsx:127-131 | the five section tests push one suggestion per missing section other than contact |
| CvAnalyzer.PushSignalSuggestions | src/views/CVAnalyzer/CVAnalyzerView.tsx:132-137 | the six signal and length tests extend that list in order |
| CvAnalyzer.DeductScore | src/views/CVAnalyzer/CVAnalyzerView.tsx:152-161 | the step-by-step deductions and the clamp give 100 minus 8 per missing section minus the fixed signal and length penalties, clamped |
| CvAnalyzer.AnalyzeText | src/views/CVAnalyzer/CVAnalyzerView.tsx:96-171 | the result's language, word count, signals, sections, score and suggestions are those of the specification functions |
| CvAnalyzer.AnalysisSpec | src/views/CVAnalyzer/CVAnalyzerView.tsx:152-161 | every score is in 0..100; a CV with every section, every signal and 200–900 words scores 100 and gets no suggestion |
| CvAnalyzer.AllMatchedNoneMissing | src/views/CVAnalyzer/CVAnalyzerView.tsx:109-122 | when every section's matchers hit, no section is missing |
| CvAnalyzer.ScoreLabel | src/views/CVAnalyzer/CVAnalyzerView.tsx:259-265 | empty exactly when there is no result |
| CvAnalyzer.BandMonotone | src/views/CVAnalyzer/CVAnalyzerView.tsx:261-264 | a higher score never gets a lower band, and 100 is "Strong"/"Muy bien" |
| AuthTypes.Slugs | src/navigation/vertical/index.ts:83 | `permissions.map(p => p.slug)`: one slug per permission, in order |
| AuthTypes.SlugsMember | src/navigation/vertical/index.ts:83-90 | a slug is among the slugs iff some permission carries it |
| Navigation.FilterItems | src/navigation/vertical/index.ts:86-107 | filtering never adds items |
| Navigation.Prune | src/navigation/vertical/index.ts:96-106 | only a group's children change, and an item is a group before iff after |
| Navigation.FilterNavigation | src/navigation/vertical/index.ts:78-110 | a missing or empty permission list shows nothing; the menu never grows |
| Navigation.FilterItemsSpec | src/navigation/vertical/index.ts:86-107 | the result is the allowed items, in their original order, each pruned |
| Navigation.FilterItemsAppend | src/navigation/vertical/index.ts:86-107 | filtering a concatenation filters each part |
| Navigation.AllowedSurvives | src/navigation/vertical/index.ts:88-106 | every allowed item appears, pruned, in the result |
| Navigation.SurvivorIsAllowed | src/navigation/vertical/index.ts:88-106 | everything in the result is the pruning of an allowed item |
| Navigation.RejectedGroupVanishes | src/navigation/vertical/index.ts:88-95 | a group failing its own requirement disappears with its whole subtree |
| Navigation.EmptyGroupKept | src/navigation/vertical/index.ts:96-103 | a kept group whose children all fail stays, with no children |
| Navigation.NoneAllowed | src/navigation/vertical/index.ts:88-95 | when no item is allowed the result is empty |
| Navigation.DashboardOnly | src/navigation/vertical/index.ts:13-71 | holding only `view-dashboard` shows the AI Tools group with just the Dashboards link |
| Navigation.RolesWithoutSettings | src/navigation/vertical/index.ts:13-71 | `view-roles` without `view-settings` shows no settings entry at all |
| UsePermission.SomeSlug | src/hooks/usePermission.tsx:10 | `some(p => p.slug === slug)`: some permission carries the slug |
| UsePermission.HasPermission | src/hooks/usePermission.tsx:7-11 | true iff there is a user with a permissions list holding the slug |
| UsePermission.HasAnyPermission | src/hooks/usePermission.tsx:13-17 | true iff some listed slug is held; an empty list gives false |
| UsePermission.AnyHeld | src/hooks/usePermission.tsx:16 | `slugs.some(...)`: some slug is held by the list |
| UsePermission.HasAllPermissions | src/hooks/usePermission.tsx:19-23 | true iff the user has a permissions list and every listed slug is held; an empty list gives true exactly when the list exists |
| UsePermission.AllHeld | src/hooks/usePermission.tsx:22 | `slugs.every(...)`: every slug is held by the list |
| UsePermission.PermissionsByType | src/hooks/usePermission.tsx:25-29 | empty without a list; otherwise exactly the user's permissions of that type, in order |
| UsePermission.PagePermissions | src/hooks/usePermission.tsx:31-33 | only page permissions |
| UsePermission.ComponentPermissions | src/hooks/usePermission.tsx:35-37 | only component permissions |
| UsePermission.ActionPermissions | src/hooks/usePermission.tsx:39-41 | only action permissions |
| UsePermission.Permissions | src/hooks/usePermission.tsx:51 | `auth.user?.permissions \|\| []` |
| UsePermission.KindsPartition | src/hooks/usePermission.tsx:25-41 | when every permission has a standard type, the page, component and action lists share out the user's permissions |
| UsePermission.FilterPartition | src/hooks/usePermission.tsx:28 | the three type filters partition a list of standard-typed permissions |
| UsePermission.KindCons | src/hooks/usePermission.tsx:28 | a type filter over a non-empty list: the head counts iff it has that type |
| ConditionalRender.Access | src/components/ConditionalRender.tsx:42-52 | a truthy `permission` alone decides; else no list denies; else requireAll means all held, otherwise any held |
| ConditionalRender.Render | src/components/ConditionalRender.tsx:54 | the children exactly when access is granted, the fallback otherwise |
| ConditionalRender.SinglePermissionDecides | src/components/ConditionalRender.tsx:44-45 | with a single permission, `permissions` and `requireAll` do not matter |
| ConditionalRender.EmptyListRequireAll | src/components/ConditionalRender.tsx:47-48 | an empty list with requireAll grants access to any user with a permissions list |
| ConditionalRender.EmptyListAny | src/components/ConditionalRender.tsx:49-50 | an empty list without requireAll never grants access |
| ConditionalRender.AllImpliesAny | src/components/ConditionalRender.tsx:46-51 | for a non-empty list, access under requireAll implies access without it |
| PermissionGuard.Guard | src/components/PermissionGuard.tsx:31-74 | loading first; nothing without a user; the children iff the user holds the permission; else the truthy fallback, else the access-denied card |
| PermissionGuard.Redirect | src/components/PermissionGuard.tsx:24-28 | the effect sends to `/login` exactly when the guard renders nothing |
| PermissionGuard.GuardBeforeUser | src/components/PermissionGuard.tsx:31-42 | while loading or without a user the permission and fallback do not matter |
| PermissionGuard.GuardAgreesWithConditionalRender | src/components/PermissionGuard.tsx:45-74 | for a loaded user and a non-empty slug, the guard shows the children exactly when `ConditionalRender` with that permission would |
| PermissionsView.Without | src/views/settings/permissions/PermissionsView.tsx:107 | the id is gone and every other id keeps its membership |
| PermissionsView.Toggle | src/views/settings/permissions/PermissionsView.tsx:104-110 | a present id is removed (every copy); an absent one is appended; no other id changes membership |
| PermissionsView.ToggleTwice | src/views/settings/permissions/PermissionsView.tsx:104-110 | toggling the same id twice restores every id's membership |
| PermissionsView.ToggleAbsentTwice | src/views/settings/permissions/PermissionsView.tsx:104-110 | toggling an absent id twice gives back the very same list |
| PermissionsView.NoneFiltered | src/views/settings/permissions/PermissionsView.tsx:107 | filtering out an absent id changes nothing |
| PermissionsView.RolePermsMap | src/views/settings/permissions/PermissionsView.tsx:72-81 | the map has a key exactly for each role's id |
| PermissionsView.RolePermsEntry | src/views/settings/permissions/PermissionsView.tsx:72-81 | a role whose id is unique gets its own fetched ids, or `[]` when its fetch failed |
| PermissionsView.LoadRolePermissions | src/views/settings/permissions/PermissionsView.tsx:72-81 | the `for…of` loop builds exactly that map |
| PermissionsView.TypeChip | src/views/settings/permissions/PermissionsView.tsx:138-149 | page, component and action get their own colour; anything else is "default"/"Otro" |
| PermissionsView.Page.constructor | src/views/settings/permissions/PermissionsView.tsx:44-52 | no roles, no entries, no selection, dialog closed |
| PermissionsView.Page.LoadData | src/views/settings/permissions/PermissionsView.tsx:58-90 | a failed role list leaves the data and sets the error; a `null` list empties the roles; otherwise the roles and the per-role map |
| PermissionsView.Page.OpenDialog | src/views/settings/permissions/PermissionsView.tsx:92-96 | the dialog opens on a copy of the given list for that role |
| PermissionsView.Page.OpenForRole | src/views/settings/permissions/PermissionsView.tsx:202 | the role's button opens the dialog on its list, or `[]` |
| PermissionsView.Page.CloseDialog | src/views/settings/permissions/PermissionsView.tsx:98-102 | closes the dialog and forgets the selection and copy |
| PermissionsView.Page.TogglePermission | src/views/settings/permissions/PermissionsView.tsx:104-110 | only the dialog's copy changes, by `Toggle` |
| PermissionsView.Page.SavePermissions | src/views/settings/permissions/PermissionsView.tsx:112-126 | without a role, or when the save fails, nothing changes; otherwise only the selected role's entry becomes the copy and the dialog closes |
| RolesView.LowerChar | src/views/settings/rols/RolesView.tsx:114 | the result is never an upper-case ASCII letter, and other characters are kept |
| RolesView.Lower | src/views/settings/rols/RolesView.tsx:114 | `toLowerCase`, character by character, same length |
| RolesView.DashSpaces | src/views/settings/rols/RolesView.tsx:114 | `replace(/\s+/g, '-')` leaves no whitespace and never lengthens |
| RolesView.Slug | src/views/settings/rols/RolesView.tsx:114 | the slug has only `a-z`, `0-9` and `-`, and is no longer than the name |
| RolesView.SlugOfSlugChars | src/views/settings/rols/RolesView.tsx:114 | a string of slug characters is its own slug |
| RolesView.SlugIdempotent | src/views/settings/rols/RolesView.tsx:114 | deriving the slug twice gives the same slug |
| RolesView.DashSpacesNoSpace | src/views/settings/rols/RolesView.tsx:114 | text without whitespace is unchanged by the dash replacement |
| RolesView.DashSpacesRun | src/views/settings/rols/RolesView.tsx:114 | a maximal whitespace run becomes exactly one dash |
| RolesView.TrimBlankPrefix | src/views/settings/rols/RolesView.tsx:114 | skipping a whitespace run stops at the first non-space |
| RolesView.FilterAll | src/views/settings/rols/RolesView.tsx:114 | removing non-slug characters from slug characters changes nothing |
| RolesView.FormChange | src/views/settings/rols/RolesView.tsx:110-116 | a name edit sets the name and the derived slug, keeping the colour; a slug or colour edit sets only that field |
| RolesView.NameEditEnables | src/views/settings/rols/RolesView.tsx:110-116 | after a name edit the create and save buttons are enabled exactly when the name and its slug are non-empty |
| RolesView.PunctuationNameDisables | src/views/settings/rols/RolesView.tsx:110-116 | a name with no letter, digit, whitespace or dash has an empty slug, so both buttons stay disabled |
| RolesView.SubmitEnabled | src/views/settings/rols/RolesView.tsx:307 | the create and save buttons are enabled iff name and slug are non-empty |
| RolesView.Page.constructor | src/views/settings/rols/RolesView.tsx:16-24 | no roles, an empty form, nothing selected, all dialogs closed |
| RolesView.Page.FetchRoles | src/views/settings/rols/RolesView.tsx:26-38 | both lists replaced on success, both kept on failure |
| RolesView.Page.OpenCreateDialog | src/views/settings/rols/RolesView.tsx:44 | opens the create dialog |
| RolesView.Page.CloseCreateDialog | src/views/settings/rols/RolesView.tsx:45-48 | closes it and resets the form |
| RolesView.Page.ChangeField | src/views/settings/rols/RolesView.tsx:110-116 | the form becomes `FormChange` of the old form |
| RolesView.Page.CreateRole | src/views/settings/rols/RolesView.tsx:50-58 | the form is posted; a failed post changes nothing; a successful one refetches (both lists replaced by the refetch, or kept when it fails) and closes the dialog with a reset form |
| RolesView.Page.OpenEditDialog | src/views/settings/rols/RolesView.tsx:60-68 | selects the role and fills the form with its name, slug and colour |
| RolesView.Page.CloseEditDialog | src/views/settings/rols/RolesView.tsx:70-74 | clears the selection and form and closes the dialog |
| RolesView.Page.UpdateRole | src/views/settings/rols/RolesView.tsx:76-86 | without a selection nothing is sent; otherwise the selected id and the form are sent; only success refetches (lists replaced, or kept when the refetch fails) and closes the dialog |
| RolesView.Page.OpenDeleteDialog | src/views/settings/rols/RolesView.tsx:88-91 | selects the role and opens the confirmation |
| RolesView.Page.CloseDeleteDialog | src/views/settings/rols/RolesView.tsx:93-96 | clears the selection and closes it |
| RolesView.Page.DeleteRole | src/views/settings/rols/RolesView.tsx:98-108 | without a selection nothing is sent; otherwise the selected id is sent; only success refetches (lists replaced, or kept when the refetch fails) and closes the confirmation |
| UsersView.FormChange | src/views/settings/users/UsersView.tsx:211-213 | each edit sets exactly its own field; the role may become `null`, the `''` of "Sin rol" or a role id |
| UsersView.CreateEnabled | src/views/settings/users/UsersView.tsx:370 | create is enabled iff name, last name, e-mail and password are non-empty |
| UsersView.UpdateEnabled | src/views/settings/users/UsersView.tsx:445 | save is enabled iff name, last name and e-mail are non-empty |
| UsersView.CreateStricterThanUpdate | src/views/settings/users/UsersView.tsx:370-445 | create enabled implies save enabled; they differ only on an empty password |
| UsersView.Payload | src/views/settings/users/UsersView.tsx:172-177 | the update payload carries the form's name, last name, e-mail and role choice, `''` included |
| UsersView.PayloadIgnoresPassword | src/views/settings/users/UsersView.tsx:172-177 | the password never reaches the update payload |
| UsersView.RoleIdOf | src/views/settings/users/UsersView.tsx:151 | `user.role?.id \|\| null`: the role's id unless there is no role or its id is 0, and never `''` |
| UsersView.SelectedItem | src/views/settings/users/UsersView.tsx:334-339 | `formData.roleId \|\| ''`: the "Sin rol" item shows for `null`, `''` and id 0, a role's item otherwise |
| UsersView.NoRoleTwoWays | src/views/settings/users/UsersView.tsx:334-339 | picking "Sin rol" and loading a user without a role show the same item but send different payloads (`''` against `null`) |
| UsersView.EditForm | src/views/settings/users/UsersView.tsx:144-154 | the edit form copies name, last name, e-mail and role id, with an empty password (so create would be disabled) |
| UsersView.Page.constructor | src/views/settings/users/UsersView.tsx:70-85 | no users or roles, an empty form, nothing selected, all dialogs closed |
| UsersView.Page.FetchUsers | src/views/settings/users/UsersView.tsx:88-98 | the fetched users on success, the old list on failure |
| UsersView.Page.FetchRoles | src/views/settings/users/UsersView.tsx:101-112 | the global roles followed by the custom roles on success, the old list on failure |
| UsersView.Page.OpenCreateDialog | src/views/settings/users/UsersView.tsx:120 | opens the create dialog |
| UsersView.Page.CloseCreateDialog | src/views/settings/users/UsersView.tsx:121-130 | closes it and resets the form |
| UsersView.Page.ChangeField | src/views/settings/users/UsersView.tsx:211-213 | the form becomes `FormChange` of the old form |
| UsersView.Page.CreateUser | src/views/settings/users/UsersView.tsx:133-141 | the whole form is posted; a failure changes nothing; success refetches and closes the dialog with a reset form |
| UsersView.Page.OpenEditDialog | src/views/settings/users/UsersView.tsx:144-154 | selects the user and fills the form with `EditForm` |
| UsersView.Page.CloseEditDialog | src/views/settings/users/UsersView.tsx:156-166 | clears the selection and form and closes the dialog |
| UsersView.Page.UpdateUser | src/views/settings/users/UsersView.tsx:168-185 | without a selection nothing is sent; otherwise the selected id and the password-free payload; only success refetches (the reply, or the old list when the refetch fails) and closes the dialog |
| UsersView.Page.OpenDeleteDialog | src/views/settings/users/UsersView.tsx:188-191 | selects the user and opens the confirmation |
| UsersView.Page.CloseDeleteDialog | src/views/settings/users/UsersView.tsx:193-196 | clears the selection and closes it |
| UsersView.Page.DeleteUser | src/views/settings/users/UsersView.tsx:198-208 | without a selection nothing is sent; otherwise the selected id; only success refetches (the reply, or the old list when the refetch fails) and closes the confirmation |
| TerminalModal.FirstFree | src/components/modals/SelectBoxTerminalModal.tsx:63-70 | none iff every terminal is occupied; otherwise the id of the first terminal that is not occupied |
| TerminalModal.FindFirstFree | src/components/modals/SelectBoxTerminalModal.tsx:63-70 | the `for…of` loop with `break` finds exactly that terminal |
| TerminalModal.Modal.constructor | src/components/modals/SelectBoxTerminalModal.tsx:51-89 | the modal's props are kept; nothing chosen and both lists empty |
| TerminalModal.Modal.RequireInitialAmount | src/components/modals/SelectBoxTerminalModal.tsx:99-103 | an amount is required iff a box is chosen, nothing was opened today and the box is not among the boxes opened today |
| TerminalModal.Modal.ShowSelection | src/components/modals/SelectBoxTerminalModal.tsx:177 | the selectors are hidden exactly for one box with one terminal |
| TerminalModal.Modal.IsValid | src/components/modals/SelectBoxTerminalModal.tsx:188 | with an amount required the form's validity decides; otherwise a box and a terminal must be chosen |
| TerminalModal.Modal.FetchLists | src/components/modals/SelectBoxTerminalModal.tsx:51-89 | a failed request (boxes, or the first box's terminals) empties both lists and choices; no boxes clears everything; otherwise the first box is chosen with its terminals and the first free one |
| TerminalModal.Modal.ResetLists | src/components/modals/SelectBoxTerminalModal.tsx:80-85 | both lists emptied and both choices cleared |
| TerminalModal.Modal.SelectBox | src/components/modals/SelectBoxTerminalModal.tsx:117-143 | the box is chosen; its terminals are loaded with the first free one chosen, or the list is emptied with no terminal on failure |
| TerminalModal.Modal.SelectTerminal | src/components/modals/SelectBoxTerminalModal.tsx:145-147 | the terminal is chosen |
| TerminalModal.Modal.Submit | src/components/modals/SelectBoxTerminalModal.tsx:149-184 | with an amount required, a form the schema rejects is never submitted; nothing is sent without a box and a terminal, or for an occupied terminal; otherwise both ids and the user, with the amount exactly when it is required |
| CardFilter.FieldKeys | src/components/cards/CardFilter.tsx:61-63 | the set of the declared field keys |
| CardFilter.FieldKeysSnoc | src/components/cards/CardFilter.tsx:61-63 | one more field adds its key |
| CardFilter.CurrentValue | src/components/cards/CardFilter.tsx:62 | `currentFilters[key] \|\| ''` |
| CardFilter.InitialFilters | src/components/cards/CardFilter.tsx:59-66 | exactly the declared keys, each with its current value or "" |
| CardFilter.ClearedFilters | src/components/cards/CardFilter.tsx:79-82 | exactly the declared keys, each "" |
| CardFilter.BuildInitialFilters | src/components/cards/CardFilter.tsx:60-63 | the `forEach` builds exactly the initial filters |
| CardFilter.BuildClearedFilters | src/components/cards/CardFilter.tsx:79-82 | the `forEach` builds exactly the cleared filters |
| CardFilter.VisibleFields | src/components/cards/CardFilter.tsx:93-94 | the fields without `show: false`, in order, and all of them |
| CardFilter.Card.constructor | src/components/cards/CardFilter.tsx:56-68 | the filters start as the initial filters; the panel is hidden |
| CardFilter.Card.FilterChange | src/components/cards/CardFilter.tsx:70-76 | only that key takes the value; the new filters are reported when there is a listener |
| CardFilter.Card.ClearFilters | src/components/cards/CardFilter.tsx:78-90 | the filters become the cleared filters; the change listener, then `onClear`, are called when present |
| CardFilter.Card.ToggleFilters | src/components/cards/CardFilter.tsx:143 | the panel's visibility flips |
| CardFilter.ClearedIsFreshStart | src/components/cards/CardFilter.tsx:59-82 | clearing gives the filters a card starts with when no current filters are passed |
| CardFilter.InitialFiltersFixpoint | src/components/cards/CardFilter.tsx:59-66 | passing the card's own filters back as current filters starts it on the same filters |
| TableColumns.ToInt32 | src/components/table/columns.tsx:190 | the 32-bit conversion that `<<` applies: in range and congruent modulo 2^32 |
| TableColumns.ShiftLeft5 | src/components/table/columns.tsx:190 | `hash << 5` is a signed 32-bit value |
| TableColumns.Abs | src/components/table/columns.tsx:192 | `Math.abs` |
| TableColumns.ComputeRoleHash | src/components/table/columns.tsx:188-191 | the loop computes the left fold of the hash step over the slug's characters |
| TableColumns.RoleColor | src/components/table/columns.tsx:187-195 | `getRoleColor` picks `muiColors[abs(hash) % 6]`, always one of the six colours |
| TableColumns.RoleColorExamples | src/components/table/columns.tsx:187-195 | the empty slug is "primary"; "a" hashes to 97 and is "success" |
| TableColumns.ToInt32Small | src/components/table/columns.tsx:190 | the conversion keeps 32-bit values |
| TableColumns.HashStepExact | src/components/table/columns.tsx:190 | for small hashes a step is `31 * hash + code` |
| TableColumns.ShiftWraps | src/components/table/columns.tsx:190 | the shift wraps: `2^30 << 5` is 0 and `-1 << 5` is -32 |
| TableColumns.ChipBoolean | src/components/table/columns.tsx:219-240 | `1` and `true` give the "true" label, colour and check icon; every other value the "false" ones |
| TableColumns.ChipBooleanDefault | src/components/table/columns.tsx:221-224 | with the defaults the chip is "success" exactly for `1` and `true` |
| TableColumns.LabelUserStatus | src/components/table/columns.tsx:157-179 | a known status gets its own chip; anything else the "inactive" chip |
| TableColumns.LabelType | src/components/table/columns.tsx:271-294 | a known type gets its own chip; anything else the "venta" chip |
| TableColumns.ActionChip | src/components/table/columns.tsx:320-336 | create, edit and remove get Crear/Editar/Eliminar in success/info/error; any other action keeps its text, in "info" with the circle icon |
| TableColumns.AvatarUrl | src/components/table/columns.tsx:30-34 | no image stays none; an empty or absolute URL is kept; any other path is prefixed with `<api>/minio/` |
| TableColumns.AvatarShowsPicture | src/components/table/columns.tsx:30-34 | a picture URL is produced exactly when the image is a non-empty string |
| TableColumns.AvatarKeepsPath | src/components/table/columns.tsx:32-33 | a relative path ends the URL unchanged after the `/minio/` prefix |
| TableColumns.LabelRole | src/components/table/columns.tsx:132-143 | no chip iff there is no first role; the chip shows its name, in its colour or "primary" |
| TableColumns.LabelUserRoles | src/components/table/columns.tsx:197-217 | no chips iff the list is missing or empty; otherwise one chip per role, in order, with its name and its slug's colour |
| TrialDialog.BandOf | src/components/dialogs/TrialNotificationDialog.tsx:36-49 | more than 20 days active, 11–20 ending, 1–10 urgent, otherwise expired |
| TrialDialog.Urgency | src/components/dialogs/TrialNotificationDialog.tsx:36-49 | the bands rank from 0 to 3 |
| TrialDialog.UrgencyMonotone | src/components/dialogs/TrialNotificationDialog.tsx:36-49 | fewer days never means a less urgent band |
| TrialDialog.ProgressColor | src/components/dialogs/TrialNotificationDialog.tsx:36-41 | success, warning, error exactly for active, ending, and urgent or expired |
| TrialDialog.Severity | src/components/dialogs/TrialNotificationDialog.tsx:75-81 | info, warning, error exactly for active, ending, and urgent or expired |
| TrialDialog.SeverityMatchesProgress | src/components/dialogs/TrialNotificationDialog.tsx:36-81 | the alert severity is the progress colour, with "info" for "success" |
| TrialDialog.IconName | src/components/dialogs/TrialNotificationDialog.tsx:43-49 | one icon per band |
| TrialDialog.IconDeterminesBand | src/components/dialogs/TrialNotificationDialog.tsx:43-49 | the icon tells the band |
| TrialDialog.IconColor | src/components/dialogs/TrialNotificationDialog.tsx:97 | orange exactly while days remain, red otherwise |
| TrialDialog.IntToString | src/components/dialogs/TrialNotificationDialog.tsx:63-69 | the decimal text of the day count |
| TrialDialog.Message | src/components/dialogs/TrialNotificationDialog.tsx:61-73 | expired text at 0 days or fewer; otherwise the band's own opening followed, somewhere, by the day count; in the urgent band it ends "días." exactly for more than one day |
| TrialDialog.UrgentMessage | src/components/dialogs/TrialNotificationDialog.tsx:68-70 | the urgent text starts with the "¡Atención!" opening, contains the count and ends in "días." iff more than one day |
| TrialDialog.Mention | src/components/dialogs/TrialNotificationDialog.tsx:63-69 | a message built around the count starts with the given opening, contains the count and ends with the given tail |
| TrialDialog.DaysLabel | src/components/dialogs/TrialNotificationDialog.tsx:121 | the chip starts with the count and ends "restante" for exactly 1 day, "restantes" otherwise |
| TrialDialog.ContactOnlyWhenUrgent | src/components/dialogs/TrialNotificationDialog.tsx:151-183 | the contact note and button show exactly in the urgent band, which is exactly a red progress bar with an orange icon |

## Left out

- REST calls, toasts, `console` output and loading/saving flags are not modelled. Each call is an outcome passed to its handler: success or failure, with the reply body as an input.
- Request interleaving is not modelled. The handlers never sequence their requests, so a late failure's reload can overwrite newer optimistic state. Capturing that needs a concurrency model.
- `handleGenerateColumnsWithAI`, `handleGenerateTasksWithAI` and `openTaskDialogForAI` in `useKanbanBoard` are left out: they send a prompt to a remote service and reload the board. The board-list AI batch is modelled as `KanbanBoardsView.BoardsList.AiGenerate`.
- The dialog bookkeeping handlers (`handleOpenTaskDialog`, `handleEditTask`, `handleDeleteTask`, the close handlers, `handleEditOpen`, `handleCreateOpen`, `handleDeleteOpen`) only store a selection or open a dialog. Their stored values are parameters of the save and confirm methods.
- dnd-kit's collision detection, sensors and drag overlay are left out. The model assumes dnd-kit reports only ids that the board registered.
- `KanbanBoardsView.BoardsList.DragEnd` requires both board ids to be in the list, for that reason. `arrayMove` on index -1 is library behaviour and is not modelled.
- The `!activeTask` and `!sourceTask` branches of the drop and hover handlers cannot be reached once an owning column has been found, so they have no model.
- `KanbanBoard.Board.DragOver` finds the owning columns in the rendered `tasksByColumn` but applies the move to the pending `prev` state. The model has no pending state updates and reads both from the same board.
- After a drop on a column's zone, the source list is not renumbered. The target can then hold two tasks with the same position; this is kept as written.
- `toLowerCase` is modelled for ASCII `A`–`Z` only. Unicode NFD normalisation and accent stripping are left out. The normalised text, its regular-expression tokens and the CV analyser's five signal tests are inputs.
- Strings are sequences of Unicode code points rather than UTF-16 code units. `charCodeAt` in `getRoleColor` therefore agrees with the model only for characters in the Basic Multilingual Plane.
- `TableColumns.RoleHash`: the hash uses exact integers, with the 32-bit conversion applied only where `<<` applies it. It agrees with JavaScript's doubles while the running sum stays below 2^53, which holds for slugs shorter than about four million characters.
- PDF extraction, page thumbnails, `localStorage` and clipboard use are left out.
- The trial dialog's progress percentage (a floating-point value) and the locale date format are left out. Days remaining are modelled as an integer.
- `TerminalModal.Modal.Submit` sends the amount as `NumberOf(input)`, the typed text tagged for conversion; what `Number(...)` makes of it is not modelled. Whether the yup schema (a required number, at least 0) accepts the typed amount is the boolean input `formValid`, shared by `IsValid` and `Submit`; the schema's own rules and its error messages are not modelled.
- `PdfSummarizer.SplitIntoChunks` requires `maxWords > 0`. With 0 the source loop never advances.
- `PdfSummarizer.ChunkWordsSizes` does not state the chunk count `ceil(n / maxWords)` as a formula. The count follows from the chunk sizes together with `ChunkWordsFlatten`.
- `ConditionalRender.Render` and `PermissionGuard.Guard` model the fallback as present or absent. Other falsy React nodes (`0`, `''`, `false`) are treated as present.
- The permission catalogue that `PermissionsView` lists is display only and is not modelled; only the role lists and the dialog are. The catalogue is fetched together with the roles (`Promise.all`), so its failure takes the same error path: `PermissionsView.Page.LoadData` folds it into `RolesFailed`.
- Navigation section titles are modelled as items without a path or children.
- The other label helpers in `columns.tsx` (`labelOrderStatus`, `labelStoreApps`, `labelStatusChip`, `labelExecutionType`, the date cells) are not part of this model. Chip icons are modelled only where the source chooses among several.
- The auth context (`/auth/me`, storage, redirects), the CASL ability guard and routing are not part of this model. `PermissionGuard.Redirect` states only when the redirect to `/login` fires.
