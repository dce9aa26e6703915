/**
 * What the kanban board's drag-and-drop handlers promise, stated on the dragged and hovered
 * items themselves rather than on their id strings: which drops are ignored, what a column
 * reorder, a same-column reorder, a cross-column move and a drop-zone move leave behind, what
 * the hover preview does, and how many tasks the board holds afterwards.
 */
module KanbanProperties {
  import opened Wrappers
  import opened Seqs
  import opened Text
  import opened DragIds
  import opened KanbanBoard

  // ---------------------------------------------------------------------------------------------
  // Counting the tasks of a board
  // ---------------------------------------------------------------------------------------------

  /** The number of task entries over all columns. */
  function TotalTasks(m: TaskMap): nat
    decreases |m.Keys|
  {
    if m == map[] then 0
    else
      var k := MinOf(m.Keys);
      assert (m - {k}).Keys == m.Keys - {k};
      |m[k]| + TotalTasks(m - {k})
  }

  /** Any column may be taken out first: the total does not depend on the order of the columns. */
  lemma {:induction false} TotalRemove(m: TaskMap, k: nat)
    requires k in m
    ensures TotalTasks(m) == |m[k]| + TotalTasks(m - {k})
    decreases |m.Keys|
  {
    var j := MinOf(m.Keys);
    if j != k {
      var mj := m - {j};
      assert mj.Keys == m.Keys - {j};
      TotalRemove(mj, k);
      var mk := m - {k};
      assert mk.Keys == m.Keys - {k};
      assert mk != map[] && j in mk.Keys;
      MinOfIs(mk.Keys, j);
      assert mk - {j} == mj - {k};
    }
  }

  /** Replacing one column's list changes the total by the difference in length. */
  lemma TotalUpdate(m: TaskMap, k: nat, v: seq<Task>)
    ensures k in m ==> TotalTasks(m[k := v]) + |m[k]| == TotalTasks(m) + |v|
    ensures k !in m ==> TotalTasks(m[k := v]) == TotalTasks(m) + |v|
  {
    var u := m[k := v];
    TotalRemove(u, k);
    if k in m {
      TotalRemove(m, k);
      assert u - {k} == m - {k};
    } else {
      assert u - {k} == m;
    }
  }

  // ---------------------------------------------------------------------------------------------
  // Id strings seen through the items
  // ---------------------------------------------------------------------------------------------

  /** `findIndex(c => `column-${c.id}` === id)` on a column's own id finds the first column with that id. */
  lemma ColumnIndexOf(cs: seq<BoardColumn>, a: nat)
    ensures var i := ColumnIndex(cs, Encode(ColumnItem(a)));
      (i >= 0 ==> cs[i].id == a && forall j :: 0 <= j < i ==> cs[j].id != a)
      && (i == -1 <==> forall j :: 0 <= j < |cs| ==> cs[j].id != a)
  {
    forall j | 0 <= j < |cs|
      ensures Encode(ColumnItem(cs[j].id)) == Encode(ColumnItem(a)) <==> cs[j].id == a
    {
      EncodeInjective(ColumnItem(cs[j].id), ColumnItem(a));
    }
  }

  /** A drop zone's id is not the id of any sortable column. */
  lemma ColumnIndexOfZone(cs: seq<BoardColumn>, c: nat)
    ensures ColumnIndex(cs, Encode(DropZone(c))) == -1
  {
    forall j | 0 <= j < |cs| ensures Encode(ColumnItem(cs[j].id)) != Encode(DropZone(c)) {
      EncodeInjective(ColumnItem(cs[j].id), DropZone(c));
    }
  }

  /** A dragged task that is not dropped on itself goes to the task branch of the handler. */
  lemma TaskDropOutcome(cols: seq<BoardColumn>, m: TaskMap, a: nat, over: DragId)
    requires over != TaskItem(a)
    ensures DropOutcome(cols, m, TaskItem(a), Some(over)) == TaskDrop(m, Encode(TaskItem(a)), Encode(over))
    ensures TaskNumber(Encode(TaskItem(a))) == Some(a)
  {
    EncodeInjective(TaskItem(a), over);
    ClassifyColumn(TaskItem(a));
    ClassifyTask(TaskItem(a));
    TaskNumberEncode(a);
  }

  // ---------------------------------------------------------------------------------------------
  // Drops that do nothing
  // ---------------------------------------------------------------------------------------------

  /** A drop outside any target, or on the dragged item itself, changes nothing and sends nothing. */
  lemma DropNowhereOrOnItself(cols: seq<BoardColumn>, m: TaskMap, active: DragId, over: Option<DragId>)
    requires over.None? || over == Some(active)
    ensures DropOutcome(cols, m, active, over) == Ignored
    ensures forall boardId, outcome :: AfterDrop(boardId, cols, m, DropOutcome(cols, m, active, over), outcome) == (cols, m)
  {
  }

  /** A column dropped on a task, or a task dropped on a sortable column (not its drop zone), is ignored. */
  lemma MixedDropsIgnored(cols: seq<BoardColumn>, m: TaskMap, a: nat, b: nat)
    ensures DropOutcome(cols, m, ColumnItem(a), Some(TaskItem(b))) == Ignored
    ensures DropOutcome(cols, m, TaskItem(a), Some(ColumnItem(b))) == Ignored
  {
    ClassifyColumn(TaskItem(b));
    ClassifyTask(ColumnItem(a));
    TaskDropOutcome(cols, m, a, ColumnItem(b));
    ClassifyTask(ColumnItem(b));
    ClassifyDroppable(ColumnItem(b));
  }

  /** A column dropped on a column's drop zone matches no sortable column and is ignored. */
  lemma ColumnOnZoneIgnored(cols: seq<BoardColumn>, m: TaskMap, a: nat, c: nat)
    ensures DropOutcome(cols, m, ColumnItem(a), Some(DropZone(c))) == Ignored
  {
    ClassifyColumn(ColumnItem(a));
    ClassifyColumn(DropZone(c));
    EncodeInjective(ColumnItem(a), DropZone(c));
    ColumnIndexOfZone(SortColumns(cols), c);
  }

  /** A task that no column holds, or that only column 0 holds, cannot be dropped anywhere. */
  lemma UnownedTaskIgnored(cols: seq<BoardColumn>, m: TaskMap, a: nat, over: DragId)
    requires Missing(LeastOwner(m, a))
    ensures DropOutcome(cols, m, TaskItem(a), Some(over)) == Ignored
  {
    if over != TaskItem(a) {
      TaskDropOutcome(cols, m, a, over);
    }
  }

  /** A task dropped on a task that no column holds (or only column 0) is ignored. */
  lemma UnownedTargetIgnored(cols: seq<BoardColumn>, m: TaskMap, a: nat, b: nat)
    requires Missing(LeastOwner(m, b))
    ensures DropOutcome(cols, m, TaskItem(a), Some(TaskItem(b))) == Ignored
  {
    if a != b {
      TaskDropOutcome(cols, m, a, TaskItem(b));
      ClassifyTask(TaskItem(b));
      TaskNumberEncode(b);
    }
  }

  // ---------------------------------------------------------------------------------------------
  // Column reorder
  // ---------------------------------------------------------------------------------------------

  /** A column dropped on another column goes to the column branch with both id strings. */
  lemma ColumnDropOutcome(cols: seq<BoardColumn>, m: TaskMap, a: nat, b: nat)
    requires a != b
    ensures DropOutcome(cols, m, ColumnItem(a), Some(ColumnItem(b)))
         == ColumnDrop(SortColumns(cols), Encode(ColumnItem(a)), Encode(ColumnItem(b)))
  {
    ClassifyColumn(ColumnItem(a));
    ClassifyColumn(ColumnItem(b));
    EncodeInjective(ColumnItem(a), ColumnItem(b));
  }

  /** The column branch on two column ids: ignored unless both are listed, otherwise the dense arrayMove. */
  lemma ColumnDropMoves(sorted: seq<BoardColumn>, a: nat, b: nat)
    requires a != b
    ensures var i := ColumnIndex(sorted, Encode(ColumnItem(a)));
      var j := ColumnIndex(sorted, Encode(ColumnItem(b)));
      var d := ColumnDrop(sorted, Encode(ColumnItem(a)), Encode(ColumnItem(b)));
      (d.Ignored? <==> i == -1 || j == -1)
      && (d.ColumnsReordered? ==>
            0 <= i < |sorted| && 0 <= j < |sorted| && sorted[i].id == a && sorted[j].id == b
            && |d.newColumns| == |sorted|
            && d.newColumns[j].id == a
            && (forall k :: 0 <= k < |sorted| ==> d.newColumns[k] == ArrayMove(sorted, i, j)[k].(position := k))
            && d.reorder == ReorderColumns(ReorderItems(d.newColumns)))
  {
    ColumnIndexOf(sorted, a);
    ColumnIndexOf(sorted, b);
    var i := ColumnIndex(sorted, Encode(ColumnItem(a)));
    var j := ColumnIndex(sorted, Encode(ColumnItem(b)));
    if i >= 0 && j >= 0 {
      ArrayMoveSpec(sorted, i, j);
    }
  }

  /**
   * A column dropped on another column: nothing happens unless both are among the sorted
   * columns; otherwise the sorted list is arrayMoved from the dragged column's index to the
   * target's and every position becomes its index.
   */
  lemma ColumnDropSpec(cols: seq<BoardColumn>, m: TaskMap, a: nat, b: nat)
    requires a != b
    ensures var sorted := SortColumns(cols);
      var i := ColumnIndex(sorted, Encode(ColumnItem(a)));
      var j := ColumnIndex(sorted, Encode(ColumnItem(b)));
      var d := DropOutcome(cols, m, ColumnItem(a), Some(ColumnItem(b)));
      (d.Ignored? <==> i == -1 || j == -1)
      && (d.ColumnsReordered? ==>
            0 <= i < |sorted| && 0 <= j < |sorted| && sorted[i].id == a && sorted[j].id == b
            && |d.newColumns| == |sorted|
            && d.newColumns[j].id == a
            && (forall k :: 0 <= k < |sorted| ==> d.newColumns[k] == ArrayMove(sorted, i, j)[k].(position := k))
            && d.reorder == ReorderColumns(ReorderItems(d.newColumns)))
  {
    ColumnDropOutcome(cols, m, a, b);
    ColumnDropMoves(SortColumns(cols), a, b);
  }

  // ---------------------------------------------------------------------------------------------
  // Task moves
  // ---------------------------------------------------------------------------------------------

  /** A task dropped on another task goes to the same-column or the cross-column branch by the owning columns. */
  lemma TaskOnTaskOutcome(cols: seq<BoardColumn>, m: TaskMap, a: nat, b: nat)
    requires a != b
    requires !Missing(LeastOwner(m, a)) && !Missing(LeastOwner(m, b))
    ensures var s := LeastOwner(m, a).value;
      var t := LeastOwner(m, b).value;
      DropOutcome(cols, m, TaskItem(a), Some(TaskItem(b))) ==
        if s == t then SameColumnDrop(m, s, a, b) else CrossColumnDrop(m, s, t, a, b)
  {
    TaskDropOutcome(cols, m, a, TaskItem(b));
    ClassifyTask(TaskItem(b));
    TaskNumberEncode(b);
  }

  /** Filtering a list removes exactly the entries carrying the id. */
  lemma {:induction false} WithoutCount(ts: seq<Task>, id: nat)
    ensures |Without(ts, id)| + CountId(ts, id) == |ts|
    ensures HasTask(ts, id) ==> CountId(ts, id) >= 1
  {
    if ts != [] {
      WithoutCount(ts[1..], id);
    }
  }

  /** The same-column branch: a dense arrayMove of that one column. */
  lemma SameColumnMoves(m: TaskMap, c: nat, a: nat, b: nat)
    requires c in m && HasTask(m[c], a) && HasTask(m[c], b) && a != b
    ensures var i := IndexOfTask(m[c], a);
      var j := IndexOfTask(m[c], b);
      var d := SameColumnDrop(m, c, a, b);
      0 <= i < |m[c]| && 0 <= j < |m[c]| && i != j
      && d.TasksMoved? && d.move == MoveTask(a, c, j)
      && d.newTasks.Keys == m.Keys
      && (forall k :: k in m && k != c ==> d.newTasks[k] == m[k])
      && |d.newTasks[c]| == |m[c]| && d.newTasks[c][j].id == a
      && (forall k :: 0 <= k < |m[c]| ==> d.newTasks[c][k] == ArrayMove(m[c], i, j)[k].(position := k))
      && TotalTasks(d.newTasks) == TotalTasks(m)
  {
    var i := IndexOfTask(m[c], a);
    var j := IndexOfTask(m[c], b);
    ArrayMoveSpec(m[c], i, j);
    TotalUpdate(m, c, ReindexTasks(ArrayMove(m[c], i, j)));
  }

  /**
   * A task dropped on another task of the same column: that column becomes the arrayMove of
   * its list from the dragged task's index to the hovered task's, renumbered 0..M-1; the moved
   * task sits at the hovered index, which is the position sent to the server; no other column
   * changes and no task is gained or lost.
   */
  lemma SameColumnDropSpec(cols: seq<BoardColumn>, m: TaskMap, a: nat, b: nat)
    requires a != b
    requires !Missing(LeastOwner(m, a)) && LeastOwner(m, a) == LeastOwner(m, b)
    ensures var c := LeastOwner(m, a).value;
      var i := IndexOfTask(m[c], a);
      var j := IndexOfTask(m[c], b);
      var d := DropOutcome(cols, m, TaskItem(a), Some(TaskItem(b)));
      0 <= i < |m[c]| && 0 <= j < |m[c]| && i != j
      && d.TasksMoved? && d.move == MoveTask(a, c, j)
      && d.newTasks.Keys == m.Keys
      && (forall k :: k in m && k != c ==> d.newTasks[k] == m[k])
      && |d.newTasks[c]| == |m[c]| && d.newTasks[c][j].id == a
      && (forall k :: 0 <= k < |m[c]| ==> d.newTasks[c][k] == ArrayMove(m[c], i, j)[k].(position := k))
      && TotalTasks(d.newTasks) == TotalTasks(m)
  {
    TaskOnTaskOutcome(cols, m, a, b);
    SameColumnMoves(m, LeastOwner(m, a).value, a, b);
  }

  /** The cross-column branch: the source is filtered, the target replaced, nothing else touched. */
  lemma CrossColumnMoves(m: TaskMap, s: nat, t: nat, a: nat, b: nat)
    requires s in m && HasTask(m[s], a) && t in m && HasTask(m[t], b) && s != t
    ensures 0 <= IndexOfTask(m[t], b) < |m[t]|
    ensures CrossColumnDrop(m, s, t, a, b).TasksMoved?
    ensures CrossColumnDrop(m, s, t, a, b).move == MoveTask(a, t, IndexOfTask(m[t], b))
    ensures CrossColumnDrop(m, s, t, a, b).newTasks.Keys == m.Keys
    ensures forall k :: k in m && k != s && k != t ==> CrossColumnDrop(m, s, t, a, b).newTasks[k] == m[k]
    ensures CrossColumnDrop(m, s, t, a, b).newTasks[s] == Without(m[s], a)
    ensures CrossColumnDrop(m, s, t, a, b).newTasks[t] ==
      ReindexTasks(InsertAt(m[t], IndexOfTask(m[t], b), FindTask(m[s], a).(boardColumnId := t)))
  {
  }

  /** The cross-column target: the task inserted at the hovered task's index, the list renumbered 0..M. */
  lemma CrossColumnTarget(ts: seq<Task>, o: nat, task: Task)
    requires o < |ts|
    ensures |ReindexTasks(InsertAt(ts, o, task))| == |ts| + 1
    ensures ReindexTasks(InsertAt(ts, o, task))[o] == task.(position := o)
    ensures forall k :: 0 <= k < o ==> ReindexTasks(InsertAt(ts, o, task))[k] == ts[k].(position := k)
    ensures forall k :: o < k <= |ts| ==> ReindexTasks(InsertAt(ts, o, task))[k] == ts[k - 1].(position := k)
  {
    var inserted := InsertAt(ts, o, task);
    var r := ReindexTasks(inserted);
    forall k | 0 <= k < |r| ensures r[k] == inserted[k].(position := k) {
    }
  }

  /** The cross-column branch gains one entry and loses every copy of the task in the source column. */
  lemma CrossColumnTotal(m: TaskMap, s: nat, t: nat, a: nat, b: nat)
    requires s in m && HasTask(m[s], a) && t in m && HasTask(m[t], b) && s != t
    ensures TotalTasks(CrossColumnDrop(m, s, t, a, b).newTasks) + CountId(m[s], a) == TotalTasks(m) + 1
  {
    var o := IndexOfTask(m[t], b);
    var inserted := InsertAt(m[t], o, FindTask(m[s], a).(boardColumnId := t));
    var w := Without(m[s], a);
    WithoutCount(m[s], a);
    TotalUpdate(m, s, w);
    TotalUpdate(m[s := w], t, ReindexTasks(inserted));
  }

  /**
   * A task dropped on a task of another column: the source list loses the task and keeps
   * its remaining tasks and their old positions; the target gets the task, with its column
   * id updated, at the hovered task's index and is renumbered 0..M; other columns do not
   * change. The board gains one entry and loses every copy of the task in the source.
   */
  lemma CrossColumnDropSpec(cols: seq<BoardColumn>, m: TaskMap, a: nat, b: nat)
    requires !Missing(LeastOwner(m, a)) && !Missing(LeastOwner(m, b))
    requires LeastOwner(m, a) != LeastOwner(m, b)
    ensures var s := LeastOwner(m, a).value;
      var t := LeastOwner(m, b).value;
      var o := IndexOfTask(m[t], b);
      var d := DropOutcome(cols, m, TaskItem(a), Some(TaskItem(b)));
      0 <= o < |m[t]|
      && d.TasksMoved? && d.move == MoveTask(a, t, o)
      && d.newTasks.Keys == m.Keys
      && (forall k :: k in m && k != s && k != t ==> d.newTasks[k] == m[k])
      && d.newTasks[s] == Without(m[s], a)
      && |d.newTasks[t]| == |m[t]| + 1
      && d.newTasks[t][o] == FindTask(m[s], a).(boardColumnId := t, position := o)
      && (forall k :: 0 <= k < o ==> d.newTasks[t][k] == m[t][k].(position := k))
      && (forall k :: o < k <= |m[t]| ==> d.newTasks[t][k] == m[t][k - 1].(position := k))
      && TotalTasks(d.newTasks) + CountId(m[s], a) == TotalTasks(m) + 1
  {
    var s := LeastOwner(m, a).value;
    var t := LeastOwner(m, b).value;
    assert a != b;
    TaskOnTaskOutcome(cols, m, a, b);
    CrossColumnMoves(m, s, t, a, b);
    CrossColumnTarget(m[t], IndexOfTask(m[t], b), FindTask(m[s], a).(boardColumnId := t));
    CrossColumnTotal(m, s, t, a, b);
  }

  /** A task dropped on a drop zone goes to the zone branch with the zone's column id. */
  lemma TaskOnZoneOutcome(cols: seq<BoardColumn>, m: TaskMap, a: nat, c: nat)
    requires !Missing(LeastOwner(m, a))
    ensures var s := LeastOwner(m, a).value;
      DropOutcome(cols, m, TaskItem(a), Some(DropZone(c))) == if s == c then Ignored else ZoneDrop(m, s, c, a)
  {
    TaskDropOutcome(cols, m, a, DropZone(c));
    ClassifyTask(DropZone(c));
    ClassifyDroppable(DropZone(c));
    MatchZoneEncode(c);
  }

  /** The zone branch gains one entry and loses every copy of the task in the source column. */
  lemma ZoneDropTotal(m: TaskMap, s: nat, c: nat, a: nat)
    requires s in m && HasTask(m[s], a) && s != c
    ensures TotalTasks(ZoneDrop(m, s, c, a).newTasks) + CountId(m[s], a) == TotalTasks(m) + 1
  {
    var w := Without(m[s], a);
    var appended := Lookup(m, c) + [FindTask(m[s], a).(boardColumnId := c, position := |Lookup(m, c)|)];
    WithoutCount(m[s], a);
    TotalUpdate(m, s, w);
    TotalUpdate(m[s := w], c, appended);
  }

  /**
   * A task dropped on a column's drop zone: nothing happens when the zone belongs to the
   * task's own column; otherwise the task leaves its column and is appended to the zone's
   * column (created if the board has no list for it) with that column's id and the old
   * length of its list as position, which is also the position sent to the server.
   */
  lemma ZoneDropSpec(cols: seq<BoardColumn>, m: TaskMap, a: nat, c: nat)
    requires !Missing(LeastOwner(m, a))
    ensures var s := LeastOwner(m, a).value;
      var d := DropOutcome(cols, m, TaskItem(a), Some(DropZone(c)));
      (s == c ==> d == Ignored)
      && (s != c ==>
            d.TasksMoved? && d.move == MoveTask(a, c, |Lookup(m, c)|)
            && d.newTasks.Keys == m.Keys + {c}
            && (forall k :: k in m && k != s && k != c ==> d.newTasks[k] == m[k])
            && d.newTasks[s] == Without(m[s], a)
            && d.newTasks[c] == Lookup(m, c) + [FindTask(m[s], a).(boardColumnId := c, position := |Lookup(m, c)|)]
            && TotalTasks(d.newTasks) + CountId(m[s], a) == TotalTasks(m) + 1)
  {
    var s := LeastOwner(m, a).value;
    TaskOnZoneOutcome(cols, m, a, c);
    if s != c {
      ZoneDropTotal(m, s, c, a);
    }
  }

  // ---------------------------------------------------------------------------------------------
  // Where a moved task ends up
  // ---------------------------------------------------------------------------------------------

  /** The task is held once by column `s` and by no other column. */
  predicate SingleHome(m: TaskMap, s: nat, a: nat) {
    s in m && CountId(m[s], a) == 1 && forall k :: k in m && k != s ==> !HasTask(m[k], a)
  }

  lemma {:induction false} CountIdAppend(u: seq<Task>, v: seq<Task>, id: nat)
    ensures CountId(u + v, id) == CountId(u, id) + CountId(v, id)
  {
    if u == [] {
      assert u + v == v;
    } else {
      assert (u + v)[0] == u[0];
      assert (u + v)[1..] == u[1..] + v;
      CountIdAppend(u[1..], v, id);
    }
  }

  lemma {:induction false} CountIdAbsent(ts: seq<Task>, id: nat)
    ensures CountId(ts, id) == 0 <==> !HasTask(ts, id)
  {
    if ts != [] {
      CountIdAbsent(ts[1..], id);
    }
  }

  lemma {:induction false} CountIdSameIds(ts: seq<Task>, us: seq<Task>, id: nat)
    requires |ts| == |us| && forall i :: 0 <= i < |ts| ==> ts[i].id == us[i].id
    ensures CountId(ts, id) == CountId(us, id)
  {
    if ts != [] {
      CountIdSameIds(ts[1..], us[1..], id);
    }
  }

  /** Inserting a task with the id into a list without it, and renumbering, leaves exactly one copy. */
  lemma InsertedOnce(ts: seq<Task>, o: nat, task: Task)
    requires o <= |ts| && !HasTask(ts, task.id)
    ensures CountId(ReindexTasks(InsertAt(ts, o, task)), task.id) == 1
  {
    var inserted := InsertAt(ts, o, task);
    CountIdSameIds(ReindexTasks(inserted), inserted, task.id);
    assert inserted == ts[..o] + [task] + ts[o..];
    CountIdAppend(ts[..o] + [task], ts[o..], task.id);
    CountIdAppend(ts[..o], [task], task.id);
    assert ts == ts[..o] + ts[o..];
    CountIdAppend(ts[..o], ts[o..], task.id);
    CountIdAbsent(ts, task.id);
  }

  /**
   * No duplication, no loss: when one column alone holds the dragged task, once, a drop on a
   * task of another column leaves the task in the target column alone, once, and the board
   * holds as many task entries as before.
   */
  lemma CrossColumnSingleHome(cols: seq<BoardColumn>, m: TaskMap, a: nat, b: nat)
    requires !Missing(LeastOwner(m, a)) && !Missing(LeastOwner(m, b))
    requires LeastOwner(m, a) != LeastOwner(m, b)
    requires SingleHome(m, LeastOwner(m, a).value, a)
    ensures var d := DropOutcome(cols, m, TaskItem(a), Some(TaskItem(b)));
      d.TasksMoved? && SingleHome(d.newTasks, LeastOwner(m, b).value, a)
      && TotalTasks(d.newTasks) == TotalTasks(m)
  {
    var s := LeastOwner(m, a).value;
    var t := LeastOwner(m, b).value;
    assert a != b;
    TaskOnTaskOutcome(cols, m, a, b);
    CrossColumnMoves(m, s, t, a, b);
    CrossColumnTotal(m, s, t, a, b);
    InsertedOnce(m[t], IndexOfTask(m[t], b), FindTask(m[s], a).(boardColumnId := t));
  }

  /**
   * The same for a drop on another column's drop zone: afterwards the zone's column alone
   * holds the task, once, and the number of task entries is unchanged.
   */
  lemma ZoneDropSingleHome(cols: seq<BoardColumn>, m: TaskMap, a: nat, c: nat)
    requires !Missing(LeastOwner(m, a)) && LeastOwner(m, a).value != c
    requires SingleHome(m, LeastOwner(m, a).value, a)
    ensures var d := DropOutcome(cols, m, TaskItem(a), Some(DropZone(c)));
      d.TasksMoved? && SingleHome(d.newTasks, c, a) && TotalTasks(d.newTasks) == TotalTasks(m)
  {
    var s := LeastOwner(m, a).value;
    ZoneDropSpec(cols, m, a, c);
    var task := FindTask(m[s], a).(boardColumnId := c, position := |Lookup(m, c)|);
    CountIdAbsent(Lookup(m, c), a);
    CountIdAppend(Lookup(m, c), [task], a);
  }

  // ---------------------------------------------------------------------------------------------
  // Hover preview
  // ---------------------------------------------------------------------------------------------

  /** The highlighted column: the first column holding a hovered task, a drop zone's own column, nothing over a column. */
  lemma HoverColumnSpec(m: TaskMap, over: DragId)
    ensures HoverColumn(m, Encode(over)) ==
      match over
      case TaskItem(t) => LeastOwner(m, t)
      case DropZone(c) => Some(c)
      case ColumnItem(_) => None
  {
    ClassifyTask(over);
    ClassifyDroppable(over);
    match over
    case TaskItem(t) => TaskNumberEncode(t);
    case DropZone(c) => MatchZoneEncode(c);
    case ColumnItem(_) =>
  }

  /**
   * The preview move: when both tasks have an owning column (found by the scan that keeps the
   * last owner) and the columns differ, the dragged task leaves its column and is inserted,
   * with the hovered column's id, at the hovered task's index; nothing is renumbered. In every
   * other case the task lists stay as they are.
   */
  lemma HoverTasksSpec(m: TaskMap, a: nat, b: nat)
    ensures var s := GreatestOwner(m, a);
      var t := GreatestOwner(m, b);
      var r := HoverTasks(m, a, b);
      (Missing(s) || Missing(t) || s == t ==> r == m)
      && (!Missing(s) && !Missing(t) && s != t ==>
            var o := IndexOfTask(m[t.value], b);
            0 <= o < |m[t.value]|
            && r.Keys == m.Keys
            && (forall k :: k in m && k != s.value && k != t.value ==> r[k] == m[k])
            && r[s.value] == Without(m[s.value], a)
            && |r[t.value]| == |m[t.value]| + 1
            && r[t.value][o] == FindTask(m[s.value], a).(boardColumnId := t.value)
            && (forall k :: 0 <= k < o ==> r[t.value][k] == m[t.value][k])
            && (forall k :: o < k <= |m[t.value]| ==> r[t.value][k] == m[t.value][k - 1]))
  {
  }

  /** The preview move gains one entry and loses every copy of the task in its column. */
  lemma HoverTasksTotal(m: TaskMap, a: nat, b: nat)
    requires !Missing(GreatestOwner(m, a)) && !Missing(GreatestOwner(m, b))
    requires GreatestOwner(m, a) != GreatestOwner(m, b)
    ensures TotalTasks(HoverTasks(m, a, b)) + CountId(m[GreatestOwner(m, a).value], a) == TotalTasks(m) + 1
  {
    var s := GreatestOwner(m, a).value;
    var t := GreatestOwner(m, b).value;
    var w := Without(m[s], a);
    var o := IndexOfTask(m[t], b);
    var inserted := InsertAt(m[t], o, FindTask(m[s], a).(boardColumnId := t));
    WithoutCount(m[s], a);
    TotalUpdate(m, s, w);
    TotalUpdate(m[s := w], t, inserted);
  }

  // ---------------------------------------------------------------------------------------------
  // Reload
  // ---------------------------------------------------------------------------------------------

  /** When a column id is listed twice, the later entry's sorted tasks are the ones kept. */
  lemma {:induction false} TasksMapOfLast(es: seq<ColumnTasks>, i: nat)
    requires i < |es|
    requires forall j :: i < j < |es| ==> es[j].column.id != es[i].column.id
    ensures TasksMapOf(es)[es[i].column.id] == SortTasks(es[i].tasks.GetOr([]))
  {
    if i < |es| - 1 {
      var init := es[..|es| - 1];
      assert forall j :: i < j < |init| ==> init[j] == es[j];
      TasksMapOfLast(init, i);
      assert init[i] == es[i];
    }
  }
}
