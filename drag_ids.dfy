/**
 * The identifiers the kanban drag-and-drop layer gives its sortable and droppable items:
 * `column-<id>` for a sortable column, `column-<id>-droppable` for the drop zone under a
 * column's task list, and `task-<id>` for a sortable task. The board's handlers tell them
 * apart with `startsWith('column-')`, `startsWith('task-')` and `includes('-droppable')`, read
 * the task id back with `Number(id.replace('task-', ''))` and the drop zone's column id with
 * the regular expression `column-(\d+)-droppable`. This module proves that each of those
 * string tests recognises exactly the kind of id it is meant to.
 */
module DragIds {
  import opened Text
  import opened Wrappers

  datatype DragId = ColumnItem(columnId: nat) | TaskItem(taskId: nat) | DropZone(zoneColumnId: nat)

  const ColumnPrefix: string := "column-"
  const TaskPrefix: string := "task-"
  const DroppableSuffix: string := "-droppable"

  /** The id string of an item, as the sortable column, the column's drop zone and the sortable task build it. */
  function Encode(d: DragId): (s: string)
    ensures |s| > |TaskPrefix|
  {
    match d
    case ColumnItem(c) => ColumnPrefix + NatToString(c)
    case TaskItem(t) => TaskPrefix + NatToString(t)
    case DropZone(c) => ColumnPrefix + NatToString(c) + DroppableSuffix
  }

  /** `Number(s.replace('task-', ''))` for an id that starts with `task-`; `None` stands for NaN. */
  function TaskNumber(s: string): Option<nat> {
    if StartsWith(s, TaskPrefix) && |s| > |TaskPrefix| && AllDigits(s[|TaskPrefix|..])
    then Some(ParseNat(s[|TaskPrefix|..]))
    else None
  }

  /** The length of the run of decimal digits at the start of `s`. */
  function DigitRun(s: string): (n: nat)
    ensures n <= |s| && AllDigits(s[..n])
    ensures n == |s| || !IsDigit(s[n])
  {
    if s != [] && IsDigit(s[0]) then 1 + DigitRun(s[1..]) else 0
  }

  /**
   * `column-(\d+)-droppable` matched at the start of `s`. The greedy `\d+` only needs its
   * longest run: a shorter one is followed by a digit, which cannot begin `-droppable`.
   */
  function ZoneAt(s: string): Option<nat> {
    if StartsWith(s, ColumnPrefix) then
      var rest := s[|ColumnPrefix|..];
      var n := DigitRun(rest);
      if n > 0 && StartsWith(rest[n..], DroppableSuffix) then Some(ParseNat(rest[..n])) else None
    else None
  }

  /** `s.match(/column-(\d+)-droppable/)`: the captured number of the leftmost match. */
  function MatchZone(s: string): Option<nat>
    decreases |s|
  {
    if s == [] then None
    else if ZoneAt(s).Some? then ZoneAt(s)
    else MatchZone(s[1..])
  }

  /** `startsWith('task-')` recognises exactly the task ids. */
  lemma ClassifyTask(d: DragId)
    ensures StartsWith(Encode(d), TaskPrefix) <==> d.TaskItem?
  {
    if !d.TaskItem? {
      assert Encode(d)[0] == 'c';
    }
  }

  /** `startsWith('column-')` holds for the sortable columns AND for the drop zones. */
  lemma ClassifyColumn(d: DragId)
    ensures StartsWith(Encode(d), ColumnPrefix) <==> d.ColumnItem? || d.DropZone?
  {
    if d.TaskItem? {
      assert Encode(d)[0] == 't';
    } else {
      var s := Encode(d);
      assert s[..|ColumnPrefix|] == ColumnPrefix;
    }
  }

  /** An id made of a prefix ending in its only `-`, followed by digits, has no `-droppable` in it. */
  lemma NoDroppable(p: string, digits: string)
    requires |p| >= 1 && p[|p| - 1] == '-'
    requires forall j :: 0 <= j < |p| - 1 ==> p[j] != '-'
    requires digits != [] && AllDigits(digits)
    ensures !Includes(p + digits, DroppableSuffix)
  {
    var s := p + digits;
    forall i | 0 <= i <= |s| - |DroppableSuffix| ensures !OccursAt(s, DroppableSuffix, i) {
      if i < |p| - 1 {
        assert s[i] == p[i];
        assert s[i..i + |DroppableSuffix|][0] == s[i];
      } else if i == |p| - 1 {
        assert s[i + 1] == digits[0];
        assert s[i..i + |DroppableSuffix|][1] == s[i + 1];
      } else {
        assert s[i] == digits[i - |p|];
        assert s[i..i + |DroppableSuffix|][0] == s[i];
      }
    }
  }

  /** `includes('-droppable')` recognises exactly the drop zones. */
  lemma ClassifyDroppable(d: DragId)
    ensures Includes(Encode(d), DroppableSuffix) <==> d.DropZone?
  {
    match d
    case ColumnItem(c) =>
      NoDroppable(ColumnPrefix, NatToString(c));
    case TaskItem(t) =>
      NoDroppable(TaskPrefix, NatToString(t));
    case DropZone(c) =>
      var s := Encode(d);
      var k := |ColumnPrefix + NatToString(c)|;
      assert s[k..k + |DroppableSuffix|] == DroppableSuffix;
      assert OccursAt(s, DroppableSuffix, k);
  }

  /** Reading a task id back from its string gives the task's id. */
  lemma TaskNumberEncode(t: nat)
    ensures TaskNumber(Encode(TaskItem(t))) == Some(t)
  {
    var s := Encode(TaskItem(t));
    assert s[|TaskPrefix|..] == NatToString(t);
    ParseNatToString(t);
  }

  lemma DigitRunOf(digits: string, rest: string)
    requires AllDigits(digits)
    requires rest == [] || !IsDigit(rest[0])
    ensures DigitRun(digits + rest) == |digits|
  {
    if digits != [] {
      assert (digits + rest)[1..] == digits[1..] + rest;
      DigitRunOf(digits[1..], rest);
    } else {
      assert digits + rest == rest;
    }
  }

  /** The drop-zone regular expression captures the zone's column id. */
  lemma MatchZoneEncode(c: nat)
    ensures MatchZone(Encode(DropZone(c))) == Some(c)
  {
    var s := Encode(DropZone(c));
    var digits := NatToString(c);
    var rest := s[|ColumnPrefix|..];
    assert rest == digits + DroppableSuffix;
    DigitRunOf(digits, DroppableSuffix);
    assert rest[|digits|..] == DroppableSuffix;
    assert rest[..|digits|] == digits;
    ParseNatToString(c);
    assert ZoneAt(s) == Some(c);
  }

  /** Different items never share an id string, so `active.id === over.id` compares the items themselves. */
  lemma EncodeInjective(a: DragId, b: DragId)
    ensures Encode(a) == Encode(b) <==> a == b
  {
    if Encode(a) == Encode(b) {
      ClassifyTask(a);
      ClassifyTask(b);
      ClassifyDroppable(a);
      ClassifyDroppable(b);
      match a
      case TaskItem(t) =>
        TaskNumberEncode(t);
        TaskNumberEncode(b.taskId);
      case DropZone(c) =>
        MatchZoneEncode(c);
        MatchZoneEncode(b.zoneColumnId);
      case ColumnItem(c) =>
        var s := Encode(a);
        assert s[|ColumnPrefix|..] == NatToString(c);
        assert Encode(b)[|ColumnPrefix|..] == NatToString(b.columnId);
        ParseNatToString(c);
        ParseNatToString(b.columnId);
    }
  }
}
