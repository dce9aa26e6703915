/**
 * The board state behind one kanban board page: its columns, the tasks of every column keyed
 * by column id, the item being dragged and the column currently hovered. Drag-and-drop
 * handlers reorder columns, reorder tasks inside a column, move a task to another column
 * (dropped on a task or on the column's drop zone) and preview such a move while hovering;
 * create, edit, assign and delete keep the per-column task lists up to date.
 *
 * Every REST call is an outcome given to the handler: on success the optimistic state stays,
 * on failure the handlers that reload the board apply a server snapshot (`LoadReply`).
 */
module KanbanBoard {
  import opened Wrappers
  import opened Seqs
  import opened Text
  import opened DragIds

  // ---------------------------------------------------------------------------------------------
  // Entities
  // ---------------------------------------------------------------------------------------------

  datatype User = User(id: nat, name: string, lastName: Option<string>, email: string)

  datatype BoardColumn = BoardColumn(id: nat, name: string, position: int)

  datatype Task = Task(
    id: nat,
    name: string,
    description: Option<string>,
    position: int,
    assignedUserId: Option<nat>,
    boardColumnId: nat,
    assignedUser: Option<User>)

  /** `Record<number, Task[]>`: the tasks of each column, keyed by column id. */
  type TaskMap = map<nat, seq<Task>>

  /** One `{ id, position }` entry of the column reorder request. */
  datatype ReorderItem = ReorderItem(id: nat, position: nat)

  /** The REST calls the handlers make. */
  datatype Request =
    | ReorderColumns(items: seq<ReorderItem>)
    | MoveTask(taskId: nat, boardColumnId: nat, position: int)
    | CreateColumn(columnName: string, columnPosition: nat)
    | CreateTask(columnId: nat, taskName: string, taskDescription: string, taskPosition: nat,
                 newAssignee: Option<nat>)
    | AssignTask(assignTaskId: nat, assignee: Option<nat>)
    | EditTask(editTaskId: nat, editName: string, editDescription: string, editAssignee: Option<nat>)
    | DeleteTask(deleteTaskId: nat)

  /** The replies of the board reload: what reached the page before the first failure. */
  datatype ColumnTasks = ColumnTasks(column: BoardColumn, tasks: Option<seq<Task>>)
  datatype LoadReply =
    | BoardFailed                              // the board or its columns could not be fetched
    | TasksFailed(columns: seq<BoardColumn>)   // the columns arrived, a task list did not
    | Loaded(entries: seq<ColumnTasks>)        // every column with its task list

  /** A REST call's outcome; a failed reorder or move reloads the board. */
  datatype Outcome = Saved | Failed(reload: LoadReply)

  // ---------------------------------------------------------------------------------------------
  // Lists of columns and tasks
  // ---------------------------------------------------------------------------------------------

  function ColumnPosition(c: BoardColumn): int { c.position }
  function TaskPosition(t: Task): int { t.position }

  /** `[...columns].sort((a, b) => a.position - b.position)`. */
  function SortColumns(cs: seq<BoardColumn>): (r: seq<BoardColumn>)
    ensures SortedBy(r, ColumnPosition)
    ensures multiset(r) == multiset(cs) && |r| == |cs|
    ensures forall p :: KeyClass(r, ColumnPosition, p) == KeyClass(cs, ColumnPosition, p)
  {
    SortBySpec(cs, ColumnPosition);
    SortBy(cs, ColumnPosition)
  }

  /** `tasks.sort((a, b) => a.position - b.position)`. */
  function SortTasks(ts: seq<Task>): (r: seq<Task>)
    ensures SortedBy(r, TaskPosition)
    ensures multiset(r) == multiset(ts) && |r| == |ts|
    ensures forall p :: KeyClass(r, TaskPosition, p) == KeyClass(ts, TaskPosition, p)
  {
    SortBySpec(ts, TaskPosition);
    SortBy(ts, TaskPosition)
  }

  /** `cols.map((col, idx) => ({ ...col, position: idx }))`. */
  function ReindexColumns(cs: seq<BoardColumn>): (r: seq<BoardColumn>)
    ensures |r| == |cs|
    ensures forall i :: 0 <= i < |r| ==> r[i].position == i && r[i].id == cs[i].id && r[i].name == cs[i].name
  {
    seq(|cs|, i requires 0 <= i < |cs| => cs[i].(position := i))
  }

  /** `tasks.map((task, idx) => ({ ...task, position: idx }))`. */
  function ReindexTasks(ts: seq<Task>): (r: seq<Task>)
    ensures |r| == |ts|
    ensures forall i :: 0 <= i < |r| ==> r[i].position == i && r[i].(position := ts[i].position) == ts[i]
  {
    seq(|ts|, i requires 0 <= i < |ts| => ts[i].(position := i))
  }

  /** `columns.map((col, idx) => ({ id: col.id, position: idx }))`. */
  function ReorderItems(cs: seq<BoardColumn>): (r: seq<ReorderItem>)
    ensures |r| == |cs| && forall i :: 0 <= i < |r| ==> r[i].id == cs[i].id && r[i].position == i
  {
    seq(|cs|, i requires 0 <= i < |cs| => ReorderItem(cs[i].id, i))
  }

  /** `tasks.some(t => t.id === id)`. */
  predicate HasTask(ts: seq<Task>, id: nat) {
    ts != [] && (ts[0].id == id || HasTask(ts[1..], id))
  }

  /** `tasks.findIndex(t => t.id === id)`: the first index holding that id, or -1. */
  function IndexOfTask(ts: seq<Task>, id: nat): (i: int)
    ensures -1 <= i < |ts|
    ensures i >= 0 ==> ts[i].id == id && forall j :: 0 <= j < i ==> ts[j].id != id
    ensures i == -1 <==> !HasTask(ts, id)
  {
    if ts == [] then -1
    else if ts[0].id == id then 0
    else
      var r := IndexOfTask(ts[1..], id);
      assert forall j :: 1 <= j < |ts| ==> ts[j] == ts[1..][j - 1];
      if r == -1 then -1 else r + 1
  }

  /** `tasks.find(t => t.id === id)` for a list that holds the id. */
  function FindTask(ts: seq<Task>, id: nat): (t: Task)
    requires HasTask(ts, id)
    ensures t in ts && t.id == id
  {
    ts[IndexOfTask(ts, id)]
  }

  /** How many tasks of the list carry the id. */
  function CountId(ts: seq<Task>, id: nat): nat {
    if ts == [] then 0 else (if ts[0].id == id then 1 else 0) + CountId(ts[1..], id)
  }

  /** `tasks.filter(t => t.id !== id)`. */
  function Without(ts: seq<Task>, id: nat): (r: seq<Task>)
    ensures |r| == |ts| - CountId(ts, id)
    ensures !HasTask(r, id)
    ensures forall i :: 0 <= i < |r| ==> r[i] in ts && r[i].id != id
    ensures forall i :: 0 <= i < |ts| && ts[i].id != id ==> ts[i] in r
  {
    if ts == [] then []
    else
      var rest := Without(ts[1..], id);
      assert forall i :: 1 <= i < |ts| ==> ts[i] == ts[1..][i - 1];
      if ts[0].id == id then rest
      else
        assert forall i :: 1 <= i <= |rest| ==> ([ts[0]] + rest)[i] == rest[i - 1];
        [ts[0]] + rest
  }

  /** The list without the task is the one the array filter keeps. */
  lemma {:induction false} WithoutIsFilter(ts: seq<Task>, id: nat)
    ensures Without(ts, id) == Filter(ts, (t: Task) => t.id != id)
  {
    if ts != [] {
      WithoutIsFilter(ts[1..], id);
    }
  }

  /** `tasks.map(t => t.id === id ? updated : t)`. */
  function ReplaceTask(ts: seq<Task>, id: nat, updated: Task): seq<Task> {
    seq(|ts|, i requires 0 <= i < |ts| => if ts[i].id == id then updated else ts[i])
  }

  /** `tasksByColumn[k] || []`. */
  function Lookup(m: TaskMap, k: nat): seq<Task> {
    if k in m then m[k] else []
  }

  // ---------------------------------------------------------------------------------------------
  // Which column holds a task
  // ---------------------------------------------------------------------------------------------

  /** The columns whose list holds a task with the id. */
  function Owners(m: TaskMap, id: nat): set<nat> {
    set k | k in m && HasTask(m[k], id)
  }

  /** The scan that stops at the first owning column (`Object.entries` lists numeric keys in ascending order). */
  function LeastOwner(m: TaskMap, id: nat): (r: Option<nat>)
    ensures r.Some? ==> r.value in m && HasTask(m[r.value], id)
  {
    if Owners(m, id) == {} then None else Some(MinOf(Owners(m, id)))
  }

  /** The scan that visits every column and keeps the last owner it sees. */
  function GreatestOwner(m: TaskMap, id: nat): (r: Option<nat>)
    ensures r.Some? ==> r.value in m && HasTask(m[r.value], id)
  {
    if Owners(m, id) == {} then None else Some(MaxOf(Owners(m, id)))
  }

  /** `!columnId`: no column found, or column id 0. */
  predicate Missing(c: Option<nat>) {
    c.None? || c.value == 0
  }

  /** `keys` lists every column id of the map once, in ascending order. */
  ghost predicate ListsKeys(m: TaskMap, keys: seq<nat>) {
    (forall k :: k in m <==> k in keys)
    && (forall i, j :: 0 <= i < j < |keys| ==> keys[i] < keys[j])
  }

  /** `Object.entries(tasksByColumn)` / `for ... in`: the column ids in the order they are visited. */
  method KeyOrder(m: TaskMap) returns (keys: seq<nat>)
    ensures ListsKeys(m, keys)
  {
    keys := AscendingKeys(m.Keys);
  }

  /**
   * The `for ... of Object.entries(tasksByColumn)` loop with `break` on the first column
   * whose list holds the task.
   */
  method FindFirstOwner(m: TaskMap, id: nat) returns (col: Option<nat>)
    ensures col == LeastOwner(m, id)
  {
    var keys := KeyOrder(m);
    var i := 0;
    while i < |keys|
      invariant 0 <= i <= |keys|
      invariant forall j :: 0 <= j < i ==> !HasTask(m[keys[j]], id)
    {
      if HasTask(m[keys[i]], id) {
        FirstSeenIsLeast(m, keys, id, i);
        return Some(keys[i]);
      }
      i := i + 1;
    }
    NoneSeenNoOwner(m, keys, id);
    return None;
  }

  lemma FirstSeenIsLeast(m: TaskMap, keys: seq<nat>, id: nat, i: nat)
    requires ListsKeys(m, keys)
    requires i < |keys| && HasTask(m[keys[i]], id)
    requires forall j :: 0 <= j < i ==> !HasTask(m[keys[j]], id)
    ensures LeastOwner(m, id) == Some(keys[i])
  {
    var owners := Owners(m, id);
    assert keys[i] in owners;
    forall k | k in owners ensures keys[i] <= k {
      assert k in keys;
      var j :| 0 <= j < |keys| && keys[j] == k;
      assert i <= j;
    }
    MinOfIs(owners, keys[i]);
  }

  lemma NoneSeenNoOwner(m: TaskMap, keys: seq<nat>, id: nat)
    requires ListsKeys(m, keys)
    requires forall j :: 0 <= j < |keys| ==> !HasTask(m[keys[j]], id)
    ensures Owners(m, id) == {}
  {
    forall k | k in m ensures !HasTask(m[k], id) {
      assert k in keys;
      var j :| 0 <= j < |keys| && keys[j] == k;
    }
  }

  /**
   * The loop without `break` that records, for the dragged and the hovered task at once,
   * the last column whose list holds it.
   */
  method FindLastOwners(m: TaskMap, activeTask: nat, overTask: nat) returns (activeCol: Option<nat>, overCol: Option<nat>)
    ensures activeCol == GreatestOwner(m, activeTask)
    ensures overCol == GreatestOwner(m, overTask)
  {
    var keys := KeyOrder(m);
    activeCol, overCol := None, None;
    var i := 0;
    while i < |keys|
      invariant 0 <= i <= |keys|
      invariant LastSeen(m, keys[..i], activeTask, activeCol)
      invariant LastSeen(m, keys[..i], overTask, overCol)
    {
      LastSeenStep(m, keys, i, activeTask, activeCol);
      LastSeenStep(m, keys, i, overTask, overCol);
      if HasTask(m[keys[i]], activeTask) { activeCol := Some(keys[i]); }
      if HasTask(m[keys[i]], overTask) { overCol := Some(keys[i]); }
      i := i + 1;
    }
    assert keys[..i] == keys;
    LastSeenIsGreatest(m, keys, activeTask, activeCol);
    LastSeenIsGreatest(m, keys, overTask, overCol);
  }

  /** `seen` is the last key of `keys` whose list holds the task (keys in ascending order, so the largest). */
  ghost predicate LastSeen(m: TaskMap, keys: seq<nat>, id: nat, seen: Option<nat>) {
    (forall j :: 0 <= j < |keys| ==> keys[j] in m)
    && (seen.None? <==> forall j :: 0 <= j < |keys| ==> !HasTask(m[keys[j]], id))
    && (seen.Some? ==> seen.value in m && HasTask(m[seen.value], id))
    && (seen.Some? ==> forall j :: 0 <= j < |keys| && HasTask(m[keys[j]], id) ==> keys[j] <= seen.value)
  }

  lemma LastSeenStep(m: TaskMap, keys: seq<nat>, i: nat, id: nat, seen: Option<nat>)
    requires ListsKeys(m, keys) && i < |keys|
    requires LastSeen(m, keys[..i], id, seen)
    ensures LastSeen(m, keys[..i + 1], id, if HasTask(m[keys[i]], id) then Some(keys[i]) else seen)
  {
    assert forall j :: 0 <= j < i ==> keys[..i + 1][j] == keys[..i][j];
  }

  lemma LastSeenIsGreatest(m: TaskMap, keys: seq<nat>, id: nat, seen: Option<nat>)
    requires ListsKeys(m, keys)
    requires LastSeen(m, keys, id, seen)
    ensures seen == GreatestOwner(m, id)
  {
    var owners := Owners(m, id);
    if seen.None? {
      NoneSeenNoOwner(m, keys, id);
    } else {
      forall k | k in owners ensures k <= seen.value {
        assert k in keys;
      var j :| 0 <= j < |keys| && keys[j] == k;
      }
      assert seen.value in owners;
      MaxOfIs(owners, seen.value);
    }
  }

  // ---------------------------------------------------------------------------------------------
  // Drop outcome (handleDragEnd), stated on the id strings as the handler tests them
  // ---------------------------------------------------------------------------------------------

  /** What a drop does before its REST call: nothing, a new column list, or new task lists. */
  datatype Drop =
    | Ignored
    | ColumnsReordered(newColumns: seq<BoardColumn>, reorder: Request)
    | TasksMoved(newTasks: TaskMap, move: Request)

  /** `sortedColumns.findIndex(c => `column-${c.id}` === id)`. */
  function ColumnIndex(cs: seq<BoardColumn>, id: string): (i: int)
    ensures -1 <= i < |cs|
    ensures i >= 0 ==> Encode(ColumnItem(cs[i].id)) == id
    ensures i >= 0 ==> forall j :: 0 <= j < i ==> Encode(ColumnItem(cs[j].id)) != id
    ensures i == -1 ==> forall j :: 0 <= j < |cs| ==> Encode(ColumnItem(cs[j].id)) != id
  {
    if cs == [] then -1
    else if Encode(ColumnItem(cs[0].id)) == id then 0
    else
      var r := ColumnIndex(cs[1..], id);
      assert forall j :: 1 <= j < |cs| ==> cs[j] == cs[1..][j - 1];
      if r == -1 then -1 else r + 1
  }

  /** A column dropped on a column: arrayMove on the sorted columns, then positions renumbered. */
  function ColumnDrop(sorted: seq<BoardColumn>, activeStr: string, overStr: string): Drop {
    var oldIndex := ColumnIndex(sorted, activeStr);
    var newIndex := ColumnIndex(sorted, overStr);
    if oldIndex == -1 || newIndex == -1 || oldIndex == newIndex then Ignored
    else
      var updated := ReindexColumns(ArrayMove(sorted, oldIndex, newIndex));
      ColumnsReordered(updated, ReorderColumns(ReorderItems(updated)))
  }

  /** A task dropped on another task of its own column. */
  function SameColumnDrop(m: TaskMap, col: nat, activeTask: nat, overTask: nat): Drop
    requires col in m
  {
    var tasks := m[col];
    var oldIndex := IndexOfTask(tasks, activeTask);
    var newIndex := IndexOfTask(tasks, overTask);
    if oldIndex == -1 || newIndex == -1 || oldIndex == newIndex then Ignored
    else
      TasksMoved(m[col := ReindexTasks(ArrayMove(tasks, oldIndex, newIndex))], MoveTask(activeTask, col, newIndex))
  }

  /** A task dropped on a task of another column: the source list is filtered but not renumbered. */
  function CrossColumnDrop(m: TaskMap, source: nat, target: nat, activeTask: nat, overTask: nat): Drop
    requires source in m && HasTask(m[source], activeTask)
    requires target in m && HasTask(m[target], overTask)
  {
    var sourceTask := FindTask(m[source], activeTask);
    var overIndex := IndexOfTask(m[target], overTask);
    var inserted := InsertAt(m[target], overIndex, sourceTask.(boardColumnId := target));
    TasksMoved(m[source := Without(m[source], activeTask)][target := ReindexTasks(inserted)],
               MoveTask(activeTask, target, overIndex))
  }

  /** A task dropped on another column's drop zone: appended with position = old length. */
  function ZoneDrop(m: TaskMap, source: nat, target: nat, activeTask: nat): Drop
    requires source in m && HasTask(m[source], activeTask)
  {
    var sourceTask := FindTask(m[source], activeTask);
    var newPosition := |Lookup(m, target)|;
    var appended := Lookup(m, target) + [sourceTask.(boardColumnId := target, position := newPosition)];
    TasksMoved(m[source := Without(m[source], activeTask)][target := appended],
               MoveTask(activeTask, target, newPosition))
  }

  /** The task branch of the drop handler, for a dragged id that starts with `task-`. */
  function TaskDrop(m: TaskMap, activeStr: string, overStr: string): Drop {
    match TaskNumber(activeStr)
    case None => Ignored        // NaN: no column holds it
    case Some(activeTask) =>
      var source := LeastOwner(m, activeTask);
      if Missing(source) then Ignored
      else if StartsWith(overStr, TaskPrefix) then
        match TaskNumber(overStr)
        case None => Ignored
        case Some(overTask) =>
          var target := LeastOwner(m, overTask);
          if Missing(target) then Ignored
          else if source == target then SameColumnDrop(m, source.value, activeTask, overTask)
          else CrossColumnDrop(m, source.value, target.value, activeTask, overTask)
      else if Includes(overStr, DroppableSuffix) then
        match MatchZone(overStr)
        case None => Ignored
        case Some(target) =>
          if source.value == target then Ignored else ZoneDrop(m, source.value, target, activeTask)
      else Ignored
  }

  /** `handleDragEnd` up to its REST call. */
  function DropOutcome(cols: seq<BoardColumn>, m: TaskMap, active: DragId, over: Option<DragId>): Drop {
    if over.None? then Ignored
    else
      var activeStr := Encode(active);
      var overStr := Encode(over.value);
      if activeStr == overStr then Ignored
      else if StartsWith(activeStr, ColumnPrefix) && StartsWith(overStr, ColumnPrefix) then
        ColumnDrop(SortColumns(cols), activeStr, overStr)
      else if StartsWith(activeStr, TaskPrefix) then TaskDrop(m, activeStr, overStr)
      else Ignored
  }

  /** The request a drop sends, if any. */
  function DropRequest(d: Drop): Option<Request> {
    match d
    case Ignored => None
    case ColumnsReordered(_, r) => Some(r)
    case TasksMoved(_, r) => Some(r)
  }

  // ---------------------------------------------------------------------------------------------
  // Hover preview (handleDragOver)
  // ---------------------------------------------------------------------------------------------

  /** The column highlighted while hovering `overStr`: the owner of a hovered task, or the drop zone's column. */
  function HoverColumn(m: TaskMap, overStr: string): Option<nat> {
    if StartsWith(overStr, TaskPrefix) then
      match TaskNumber(overStr)
      case None => None
      case Some(overTask) => LeastOwner(m, overTask)
    else if Includes(overStr, DroppableSuffix) then MatchZone(overStr)
    else None
  }

  /** The preview move: the dragged task goes to the hovered task's index in the hovered task's column. */
  function HoverTasks(m: TaskMap, activeTask: nat, overTask: nat): TaskMap {
    var source := GreatestOwner(m, activeTask);
    var target := GreatestOwner(m, overTask);
    if Missing(source) || Missing(target) || source == target then m
    else
      var activeItem := FindTask(m[source.value], activeTask);
      var overIndex := IndexOfTask(m[target.value], overTask);
      m[source.value := Without(m[source.value], activeTask)]
       [target.value := InsertAt(m[target.value], overIndex, activeItem.(boardColumnId := target.value))]
  }

  // ---------------------------------------------------------------------------------------------
  // Reload (loadBoardData)
  // ---------------------------------------------------------------------------------------------

  function ColumnsOf(es: seq<ColumnTasks>): (cs: seq<BoardColumn>)
    ensures |cs| == |es| && forall i :: 0 <= i < |es| ==> cs[i] == es[i].column
  {
    if es == [] then [] else [es[0].column] + ColumnsOf(es[1..])
  }

  /** The ids of the columns in a reply. */
  function ColumnIds(es: seq<ColumnTasks>): set<nat> {
    set i | 0 <= i < |es| :: es[i].column.id
  }

  /** `tasksMap[columnId] = tasks.sort(...)` for each entry in turn: a later entry for the same column wins. */
  function TasksMapOf(es: seq<ColumnTasks>): (r: TaskMap)
    ensures r.Keys == ColumnIds(es)
    ensures forall k :: k in r ==> SortedBy(r[k], TaskPosition)
  {
    if es == [] then map[]
    else
      var last := es[|es| - 1];
      var init := es[..|es| - 1];
      assert ColumnIds(es) == ColumnIds(init) + {last.column.id} by {
        forall k | k in ColumnIds(es) ensures k in ColumnIds(init) + {last.column.id} {
          var i :| 0 <= i < |es| && es[i].column.id == k;
          if i < |init| {
            assert init[i] == es[i];
          }
        }
      }
      TasksMapOf(init)[last.column.id := SortTasks(last.tasks.GetOr([]))]
  }

  /** The `forEach` that fills the tasks map. */
  method BuildTasksMap(es: seq<ColumnTasks>) returns (tasksMap: TaskMap)
    ensures tasksMap == TasksMapOf(es)
  {
    tasksMap := map[];
    var i := 0;
    while i < |es|
      invariant 0 <= i <= |es|
      invariant tasksMap == TasksMapOf(es[..i])
    {
      assert es[..i + 1][..i] == es[..i];
      tasksMap := tasksMap[es[i].column.id := SortTasks(es[i].tasks.GetOr([]))];
      i := i + 1;
    }
    assert es[..i] == es;
  }

  /** The state a reload leaves: nothing without a board id, then whatever arrived before a failure. */
  function LoadEffect(boardId: nat, cols: seq<BoardColumn>, m: TaskMap, reply: LoadReply): (seq<BoardColumn>, TaskMap) {
    if boardId == 0 then (cols, m)
    else
      match reply
      case BoardFailed => (cols, m)
      case TasksFailed(cs) => (cs, m)
      case Loaded(es) => (ColumnsOf(es), TasksMapOf(es))
  }

  /** The state after a drop and its REST call. */
  function AfterDrop(boardId: nat, cols: seq<BoardColumn>, m: TaskMap, d: Drop, outcome: Outcome): (seq<BoardColumn>, TaskMap) {
    var optimistic :=
      match d
      case Ignored => (cols, m)
      case ColumnsReordered(cs, _) => (cs, m)
      case TasksMoved(m', _) => (cols, m');
    if d.Ignored? || outcome.Saved? then optimistic
    else LoadEffect(boardId, optimistic.0, optimistic.1, outcome.reload)
  }

  /** The confirmed delete: every column's list without the task. */
  function RemoveEverywhere(m: TaskMap, id: nat): (r: TaskMap)
    ensures r.Keys == m.Keys
    ensures forall k :: k in r ==> !HasTask(r[k], id) && r[k] == Filter(m[k], (t: Task) => t.id != id)
  {
    forall k | k in m ensures Without(m[k], id) == Filter(m[k], (t: Task) => t.id != id) {
      WithoutIsFilter(m[k], id);
    }
    map k | k in m :: Without(m[k], id)
  }

  /** The `for ... in` loop of the confirmed delete, over the columns in key order. */
  method RemoveTaskEverywhere(m: TaskMap, id: nat) returns (updated: TaskMap)
    ensures updated == RemoveEverywhere(m, id)
  {
    var keys := KeyOrder(m);
    updated := m;
    var i := 0;
    while i < |keys|
      invariant 0 <= i <= |keys|
      invariant updated == PartlyRemoved(m, keys[..i], id)
    {
      RemovedStep(m, keys, i, id);
      updated := updated[keys[i] := Without(updated[keys[i]], id)];
      i := i + 1;
    }
    RemovedAll(m, keys, id);
  }

  /** The task map once the columns in `done` have been filtered. */
  ghost function PartlyRemoved(m: TaskMap, done: seq<nat>, id: nat): TaskMap {
    map k | k in m :: if k in done then Without(m[k], id) else m[k]
  }

  lemma RemovedStep(m: TaskMap, keys: seq<nat>, i: nat, id: nat)
    requires ListsKeys(m, keys) && i < |keys|
    ensures var p := PartlyRemoved(m, keys[..i], id);
      keys[i] in p && PartlyRemoved(m, keys[..i + 1], id) == p[keys[i] := Without(p[keys[i]], id)]
  {
    var p := PartlyRemoved(m, keys[..i], id);
    assert keys[i] !in keys[..i];
    assert forall k :: k in keys[..i + 1] <==> k in keys[..i] || k == keys[i];
  }

  lemma RemovedAll(m: TaskMap, keys: seq<nat>, id: nat)
    requires ListsKeys(m, keys)
    ensures PartlyRemoved(m, keys[..|keys|], id) == RemoveEverywhere(m, id)
  {
    assert keys[..|keys|] == keys;
    forall k | k in m ensures k in keys {
      assert k in keys;
      var j :| 0 <= j < |keys| && keys[j] == k;
    }
  }

  // ---------------------------------------------------------------------------------------------
  // The board
  // ---------------------------------------------------------------------------------------------

  class Board {
    const boardId: nat
    var columns: seq<BoardColumn>
    var tasksByColumn: TaskMap
    var activeId: Option<DragId>
    var overColumnId: Option<nat>

    constructor(boardId: nat)
      ensures this.boardId == boardId
      ensures columns == [] && tasksByColumn == map[] && activeId == None && overColumnId == None
    {
      this.boardId := boardId;
      columns := [];
      tasksByColumn := map[];
      activeId := None;
      overColumnId := None;
    }

    /** `sortedColumns`: the columns ordered by position; the stored list keeps its own order. */
    function SortedColumns(): (r: seq<BoardColumn>)
      reads this
      ensures SortedBy(r, ColumnPosition) && multiset(r) == multiset(columns)
    {
      SortColumns(columns)
    }

    /** `loadBoardData`. */
    method Load(reply: LoadReply)
      modifies this`columns, this`tasksByColumn
      ensures (columns, tasksByColumn) == LoadEffect(boardId, old(columns), old(tasksByColumn), reply)
    {
      if boardId == 0 {
        return;
      }
      match reply
      case BoardFailed =>
      case TasksFailed(cs) =>
        columns := cs;
      case Loaded(es) =>
        columns := ColumnsOf(es);
        tasksByColumn := BuildTasksMap(es);
    }

    /** `handleDragStart`. */
    method DragStart(active: DragId)
      modifies this`activeId
      ensures activeId == Some(active)
    {
      activeId := Some(active);
    }

    /** `handleDragOver`. */
    method DragOver(active: DragId, over: Option<DragId>)
      modifies this`overColumnId, this`tasksByColumn
      ensures over.None? || !active.TaskItem? ==>
        overColumnId == old(overColumnId) && tasksByColumn == old(tasksByColumn)
      ensures over.Some? && active.TaskItem? ==>
        overColumnId == HoverColumn(old(tasksByColumn), Encode(over.value))
      ensures over.Some? && active.TaskItem? && over.value.TaskItem? ==>
        tasksByColumn == HoverTasks(old(tasksByColumn), active.taskId, over.value.taskId)
      ensures over.Some? && active.TaskItem? && !over.value.TaskItem? ==> tasksByColumn == old(tasksByColumn)
    {
      if over.None? {
        return;
      }
      var activeStr := Encode(active);
      var overStr := Encode(over.value);
      ClassifyTask(active);
      ClassifyTask(over.value);
      if StartsWith(activeStr, TaskPrefix) {
        var columnId: Option<nat> := None;
        if StartsWith(overStr, TaskPrefix) {
          match TaskNumber(overStr)
          case None =>
          case Some(overTask) =>
            columnId := FindFirstOwner(tasksByColumn, overTask);
        } else if Includes(overStr, DroppableSuffix) {
          columnId := MatchZone(overStr);
        }
        overColumnId := columnId;

        if !StartsWith(overStr, TaskPrefix) {
          return;
        }
        TaskNumberEncode(active.taskId);
        TaskNumberEncode(over.value.taskId);
        var activeTask := active.taskId;
        var overTask := over.value.taskId;
        var activeColumnId, hoveredColumnId := FindLastOwners(tasksByColumn, activeTask, overTask);
        if Missing(activeColumnId) || Missing(hoveredColumnId) {
          return;
        }
        if activeColumnId == hoveredColumnId {
          return;
        }
        var sourceTasks := tasksByColumn[activeColumnId.value];
        var targetTasks := tasksByColumn[hoveredColumnId.value];
        var activeItem := FindTask(sourceTasks, activeTask);
        var updatedSourceTasks := Without(sourceTasks, activeTask);
        var overIndex := IndexOfTask(targetTasks, overTask);
        targetTasks := InsertAt(targetTasks, overIndex, activeItem.(boardColumnId := hoveredColumnId.value));
        tasksByColumn := tasksByColumn[activeColumnId.value := updatedSourceTasks][hoveredColumnId.value := targetTasks];
      }
    }

    /** The task branch of `handleDragEnd`, with its ownership loops. */
    method TaskDropOf(activeStr: string, overStr: string) returns (d: Drop)
      ensures d == TaskDrop(tasksByColumn, activeStr, overStr)
    {
      d := Ignored;
      match TaskNumber(activeStr)
      case None =>
      case Some(activeTask) =>
        var source := FindFirstOwner(tasksByColumn, activeTask);
        if Missing(source) {
          return;
        }
        if StartsWith(overStr, TaskPrefix) {
          match TaskNumber(overStr)
          case None =>
          case Some(overTask) =>
            var target := FindFirstOwner(tasksByColumn, overTask);
            if Missing(target) {
              return;
            }
            if source == target {
              d := SameColumnDrop(tasksByColumn, source.value, activeTask, overTask);
            } else {
              d := CrossColumnDrop(tasksByColumn, source.value, target.value, activeTask, overTask);
            }
        } else if Includes(overStr, DroppableSuffix) {
          match MatchZone(overStr)
          case None =>
          case Some(target) =>
            if source.value != target {
              d := ZoneDrop(tasksByColumn, source.value, target, activeTask);
            }
        }
    }

    /** `handleDragEnd`: clears the drag state, applies the drop and sends its request. */
    method DragEnd(active: DragId, over: Option<DragId>, outcome: Outcome) returns (request: Option<Request>)
      modifies this`activeId, this`overColumnId, this`columns, this`tasksByColumn
      ensures activeId == None && overColumnId == None
      ensures over.None? || over == Some(active) ==>
        request.None? && columns == old(columns) && tasksByColumn == old(tasksByColumn)
      ensures request == DropRequest(DropOutcome(old(columns), old(tasksByColumn), active, over))
      ensures (columns, tasksByColumn) ==
        AfterDrop(boardId, old(columns), old(tasksByColumn), DropOutcome(old(columns), old(tasksByColumn), active, over), outcome)
    {
      activeId := None;
      overColumnId := None;
      var d := DropOf(active, over);
      request := ApplyDrop(d, outcome);
    }

    /** The branch selection of `handleDragEnd`: which drop, if any, the two ids make. */
    method DropOf(active: DragId, over: Option<DragId>) returns (d: Drop)
      ensures d == DropOutcome(columns, tasksByColumn, active, over)
    {
      if over.None? {
        return Ignored;
      }
      var activeStr := Encode(active);
      var overStr := Encode(over.value);
      if activeStr == overStr {
        return Ignored;
      }
      var isActiveColumn := StartsWith(activeStr, ColumnPrefix);
      var isOverColumn := StartsWith(overStr, ColumnPrefix);
      var isActiveTask := StartsWith(activeStr, TaskPrefix);
      d := Ignored;
      if isActiveColumn && isOverColumn {
        d := ColumnDrop(SortedColumns(), activeStr, overStr);
      } else if isActiveTask {
        d := TaskDropOf(activeStr, overStr);
      }
    }

    /** The optimistic update of a drop, then the request, and the reload when the request fails. */
    method ApplyDrop(d: Drop, outcome: Outcome) returns (request: Option<Request>)
      modifies this`columns, this`tasksByColumn
      ensures request == DropRequest(d)
      ensures (columns, tasksByColumn) == AfterDrop(boardId, old(columns), old(tasksByColumn), d, outcome)
    {
      match d
      case Ignored =>
        request := None;
      case ColumnsReordered(cs, r) =>
        columns := cs;
        request := Some(r);
        if outcome.Failed? {
          Load(outcome.reload);
        }
      case TasksMoved(m, r) =>
        tasksByColumn := m;
        request := Some(r);
        if outcome.Failed? {
          Load(outcome.reload);
        }
    }

    /** `handleCreateColumn`: a blank name is refused; otherwise the created column is appended. */
    method AddColumn(name: string, reply: Option<BoardColumn>) returns (request: Option<Request>)
      modifies this`columns
      ensures Trim(name) == [] ==> request.None? && columns == old(columns)
      ensures Trim(name) != [] ==> request == Some(CreateColumn(name, |old(columns)|))
      ensures Trim(name) != [] && reply.Some? ==> columns == old(columns) + [reply.value]
      ensures reply.None? ==> columns == old(columns)
    {
      if Trim(name) == [] {
        return None;
      }
      request := Some(CreateColumn(name, |columns|));
      if reply.Some? {
        columns := columns + [reply.value];
      }
    }

    /** `handleCreateTask`: needs a column (id 0 counts as none) and a non-blank name. */
    method AddTask(activeColumnId: Option<nat>, name: string, description: string, assignee: Option<nat>, reply: Option<Task>)
      returns (request: Option<Request>)
      modifies this`tasksByColumn
      ensures Missing(activeColumnId) || Trim(name) == [] ==> request.None? && tasksByColumn == old(tasksByColumn)
      ensures !Missing(activeColumnId) && Trim(name) != [] ==>
        request == Some(CreateTask(activeColumnId.value, name, description,
                                   |Lookup(old(tasksByColumn), activeColumnId.value)|, assignee))
      ensures !Missing(activeColumnId) && Trim(name) != [] && reply.Some? ==>
        tasksByColumn == old(tasksByColumn)[activeColumnId.value :=
          Lookup(old(tasksByColumn), activeColumnId.value) + [reply.value]]
      ensures reply.None? ==> tasksByColumn == old(tasksByColumn)
    {
      if Missing(activeColumnId) || Trim(name) == [] {
        return None;
      }
      var col := activeColumnId.value;
      request := Some(CreateTask(col, name, description, |Lookup(tasksByColumn, col)|, assignee));
      if reply.Some? {
        tasksByColumn := tasksByColumn[col := Lookup(tasksByColumn, col) + [reply.value]];
      }
    }

    /** `handleAssignTask`: the server's copy replaces the task in the column it names. */
    method Assign(task: Task, assignee: Option<nat>, reply: Option<Task>) returns (request: Request)
      modifies this`tasksByColumn
      ensures request == AssignTask(task.id, assignee)
      ensures reply.Some? ==> tasksByColumn == old(tasksByColumn)[task.boardColumnId :=
        ReplaceTask(Lookup(old(tasksByColumn), task.boardColumnId), task.id, reply.value)]
      ensures reply.None? ==> tasksByColumn == old(tasksByColumn)
    {
      request := AssignTask(task.id, assignee);
      if reply.Some? {
        var col := task.boardColumnId;
        tasksByColumn := tasksByColumn[col := ReplaceTask(Lookup(tasksByColumn, col), task.id, reply.value)];
      }
    }

    /** `handleSaveEditTask`: needs a task being edited and a non-blank name. */
    method SaveEdit(editing: Option<Task>, name: string, description: string, assignee: Option<nat>, reply: Option<Task>)
      returns (request: Option<Request>)
      modifies this`tasksByColumn
      ensures editing.None? || Trim(name) == [] ==> request.None? && tasksByColumn == old(tasksByColumn)
      ensures editing.Some? && Trim(name) != [] ==>
        request == Some(EditTask(editing.value.id, name, description, assignee))
      ensures editing.Some? && Trim(name) != [] && reply.Some? ==>
        tasksByColumn == old(tasksByColumn)[editing.value.boardColumnId :=
          ReplaceTask(Lookup(old(tasksByColumn), editing.value.boardColumnId), editing.value.id, reply.value)]
      ensures reply.None? ==> tasksByColumn == old(tasksByColumn)
    {
      if editing.None? || Trim(name) == [] {
        return None;
      }
      var task := editing.value;
      request := Some(EditTask(task.id, name, description, assignee));
      if reply.Some? {
        var col := task.boardColumnId;
        tasksByColumn := tasksByColumn[col := ReplaceTask(Lookup(tasksByColumn, col), task.id, reply.value)];
      }
    }

    /** `handleConfirmDeleteTask`: after a successful delete, no column lists the task any more. */
    method ConfirmDelete(toDelete: Option<Task>, succeeded: bool) returns (request: Option<Request>)
      modifies this`tasksByColumn
      ensures toDelete.None? ==> request.None?
      ensures toDelete.Some? ==> request == Some(DeleteTask(toDelete.value.id))
      ensures toDelete.Some? && succeeded ==> tasksByColumn == RemoveEverywhere(old(tasksByColumn), toDelete.value.id)
      ensures toDelete.None? || !succeeded ==> tasksByColumn == old(tasksByColumn)
    {
      if toDelete.None? {
        return None;
      }
      request := Some(DeleteTask(toDelete.value.id));
      if succeeded {
        tasksByColumn := RemoveTaskEverywhere(tasksByColumn, toDelete.value.id);
      }
    }
  }
}
