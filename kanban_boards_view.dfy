/**
 * The list of kanban boards: boards are reordered by dragging (arrayMove, then the id list
 * is sent to the server), created with the next free position, renamed, deleted, and
 * created in batch from names proposed by an AI endpoint, with consecutive positions.
 */
module KanbanBoardsView {
  import opened Wrappers
  import opened Seqs
  import opened Text

  datatype Board = Board(id: nat, name: string, position: Option<int>)

  /** The REST calls of the view. */
  datatype Request =
    | ReorderBoards(boardIds: seq<nat>)
    | CreateBoard(name: string, position: nat)
    | RenameBoard(renameId: nat, newName: string)
    | DeleteBoard(deleteId: nat)
    | GenerateBoards(prompt: string)

  /** A board list fetch: failed, or answered with a possibly missing body (`data || []`). */
  datatype BoardsReply = FetchFailed | Fetched(data: Option<seq<Board>>)

  /** A write's outcome; a failed reorder reloads the list. */
  datatype Outcome = Saved | Failed(reload: BoardsReply)

  /** `boards.findIndex(b => b.id === id)`. */
  function IndexOfBoard(bs: seq<Board>, id: nat): (i: int)
    ensures -1 <= i < |bs|
    ensures i >= 0 ==> bs[i].id == id && forall j :: 0 <= j < i ==> bs[j].id != id
    ensures i == -1 <==> forall j :: 0 <= j < |bs| ==> bs[j].id != id
  {
    if bs == [] then -1
    else if bs[0].id == id then 0
    else
      var r := IndexOfBoard(bs[1..], id);
      assert forall j :: 1 <= j < |bs| ==> bs[j] == bs[1..][j - 1];
      if r == -1 then -1 else r + 1
  }

  /** `boards.map(b => b.id)`. */
  function BoardIds(bs: seq<Board>): (ids: seq<nat>)
    ensures |ids| == |bs| && forall i :: 0 <= i < |bs| ==> ids[i] == bs[i].id
  {
    if bs == [] then [] else [bs[0].id] + BoardIds(bs[1..])
  }

  /** `prev.map(b => b.id === id ? { ...b, name } : b)`. */
  function Renamed(bs: seq<Board>, id: nat, name: string): (r: seq<Board>)
    ensures |r| == |bs|
    ensures forall i :: 0 <= i < |bs| ==> r[i].id == bs[i].id && r[i].position == bs[i].position
    ensures forall i :: 0 <= i < |bs| ==> r[i].name == if bs[i].id == id then name else bs[i].name
  {
    if bs == [] then []
    else [if bs[0].id == id then bs[0].(name := name) else bs[0]] + Renamed(bs[1..], id, name)
  }

  /** `prev.filter(b => b.id !== id)`: no board with the id is left, every other board stays, in order. */
  function WithoutBoard(bs: seq<Board>, id: nat): (r: seq<Board>)
    ensures forall i :: 0 <= i < |r| ==> r[i].id != id
    ensures r == Filter(bs, (b: Board) => b.id != id)
  {
    if bs == [] then []
    else (if bs[0].id != id then [bs[0]] else []) + WithoutBoard(bs[1..], id)
  }

  /**
   * The reorder a board drag asks for: nothing when there is no target, when the target is the
   * dragged board or when both ids resolve to the same index; otherwise arrayMove.
   */
  function BoardDrop(bs: seq<Board>, active: nat, over: Option<nat>): Option<seq<Board>>
    requires IndexOfBoard(bs, active) >= 0
    requires over.Some? ==> IndexOfBoard(bs, over.value) >= 0
  {
    if over.None? || active == over.value then None
    else
      var oldIndex := IndexOfBoard(bs, active);
      var newIndex := IndexOfBoard(bs, over.value);
      if oldIndex == newIndex then None
      else Some(ArrayMove(bs, oldIndex, newIndex))
  }

  /**
   * A board drag onto a different board moves the dragged board to the target's index, keeps
   * the same boards and the others in their relative order; the ids of two different boards
   * always resolve to different indices.
   */
  lemma BoardDropSpec(bs: seq<Board>, active: nat, over: Option<nat>)
    requires IndexOfBoard(bs, active) >= 0
    requires over.Some? ==> IndexOfBoard(bs, over.value) >= 0
    ensures over.None? || over == Some(active) ==> BoardDrop(bs, active, over).None?
    ensures over.Some? && over != Some(active) ==>
      var i := IndexOfBoard(bs, active);
      var j := IndexOfBoard(bs, over.value);
      var r := BoardDrop(bs, active, over);
      i != j && r.Some?
      && |r.value| == |bs| && multiset(r.value) == multiset(bs)
      && r.value[j] == bs[i] && r.value[j].id == active
      && RemoveAt(r.value, j) == RemoveAt(bs, i)
  {
    if over.Some? && over != Some(active) {
      ArrayMoveSpec(bs, IndexOfBoard(bs, active), IndexOfBoard(bs, over.value));
    }
  }

  /** The boards a reload leaves: the fetched list (empty for a missing body), or the old one on failure. */
  function Reloaded(bs: seq<Board>, reply: BoardsReply): seq<Board> {
    match reply
    case FetchFailed => bs
    case Fetched(data) => data.GetOr([])
  }

  class BoardsList {
    var boards: seq<Board>
    var activeId: Option<nat>

    constructor()
      ensures boards == [] && activeId == None
    {
      boards := [];
      activeId := None;
    }

    /** `loadBoards`. */
    method Load(reply: BoardsReply)
      modifies this`boards
      ensures boards == Reloaded(old(boards), reply)
    {
      match reply
      case FetchFailed =>
      case Fetched(data) =>
        boards := data.GetOr([]);
    }

    /** `handleDragStart`. */
    method DragStart(active: nat)
      modifies this`activeId
      ensures activeId == Some(active)
    {
      activeId := Some(active);
    }

    /**
     * `handleDragEnd`: the drag is cleared; a real move replaces the list with the arrayMove
     * and sends the new id order; a failed save reloads.
     */
    method DragEnd(active: nat, over: Option<nat>, outcome: Outcome) returns (request: Option<Request>)
      requires IndexOfBoard(boards, active) >= 0
      requires over.Some? ==> IndexOfBoard(boards, over.value) >= 0
      modifies this`activeId, this`boards
      ensures activeId == None
      ensures BoardDrop(old(boards), active, over).None? ==> request.None? && boards == old(boards)
      ensures BoardDrop(old(boards), active, over).Some? ==>
        var moved := BoardDrop(old(boards), active, over).value;
        request == Some(ReorderBoards(BoardIds(moved)))
        && boards == (if outcome.Saved? then moved else Reloaded(moved, outcome.reload))
    {
      activeId := None;
      if over.None? || active == over.value {
        return None;
      }
      var oldIndex := IndexOfBoard(boards, active);
      var newIndex := IndexOfBoard(boards, over.value);
      if oldIndex == newIndex {
        return None;
      }
      boards := ArrayMove(boards, oldIndex, newIndex);
      request := Some(ReorderBoards(BoardIds(boards)));
      if outcome.Failed? {
        Load(outcome.reload);
      }
    }

    /** `handleCreateBoard`: a blank name is refused; the position asked for is the current count. */
    method Create(name: string, reply: Option<Board>) returns (request: Option<Request>)
      modifies this`boards
      ensures Trim(name) == [] ==> request.None? && boards == old(boards)
      ensures Trim(name) != [] ==> request == Some(CreateBoard(name, |old(boards)|))
      ensures Trim(name) != [] && reply.Some? ==> boards == old(boards) + [reply.value]
      ensures reply.None? ==> boards == old(boards)
    {
      if Trim(name) == [] {
        return None;
      }
      request := Some(CreateBoard(name, |boards|));
      if reply.Some? {
        boards := boards + [reply.value];
      }
    }

    /** `handleEditSave`: needs a selected board and a non-blank name; renames every board with its id. */
    method EditSave(selected: Option<Board>, name: string, succeeded: bool) returns (request: Option<Request>)
      modifies this`boards
      ensures selected.None? || Trim(name) == [] ==> request.None? && boards == old(boards)
      ensures selected.Some? && Trim(name) != [] ==> request == Some(RenameBoard(selected.value.id, name))
      ensures selected.Some? && Trim(name) != [] && succeeded ==> boards == Renamed(old(boards), selected.value.id, name)
      ensures !succeeded ==> boards == old(boards)
    {
      if selected.None? || Trim(name) == [] {
        return None;
      }
      request := Some(RenameBoard(selected.value.id, name));
      if succeeded {
        boards := Renamed(boards, selected.value.id, name);
      }
    }

    /** `handleDeleteConfirm`: after a successful delete no board carries the id. */
    method DeleteConfirm(selected: Option<Board>, succeeded: bool) returns (request: Option<Request>)
      modifies this`boards
      ensures selected.None? ==> request.None?
      ensures selected.Some? ==> request == Some(DeleteBoard(selected.value.id))
      ensures selected.Some? && succeeded ==> boards == WithoutBoard(old(boards), selected.value.id)
      ensures selected.None? || !succeeded ==> boards == old(boards)
    {
      if selected.None? {
        return None;
      }
      request := Some(DeleteBoard(selected.value.id));
      if succeeded {
        boards := WithoutBoard(boards, selected.value.id);
      }
    }

    /**
     * `handleAiGenerate`: a blank prompt is refused; with proposed names, one create request
     * per name with consecutive positions from the current count, and the created boards are
     * appended in order once every create has succeeded. `replies[i]` is the server's answer
     * to the i-th create (`None` when it failed, which ends the batch without any change).
     */
    method AiGenerate(prompt: string, names: Option<seq<string>>, replies: seq<Option<Board>>)
      returns (requests: seq<Request>)
      requires names.Some? ==> |replies| == |names.value|
      modifies this`boards
      ensures Trim(prompt) == [] ==> requests == [] && boards == old(boards)
      ensures Trim(prompt) != [] && (names.None? || names.value == []) ==>
        requests == [GenerateBoards(prompt)] && boards == old(boards)
      ensures Trim(prompt) != [] && names.Some? && names.value != [] ==>
        2 <= |requests| <= |names.value| + 1 && requests[0] == GenerateBoards(prompt)
        && (forall i :: 1 <= i < |requests| ==>
              requests[i] == CreateBoard(names.value[i - 1], |old(boards)| + i - 1))
        && (AllCreated(replies) ==> boards == old(boards) + Created(replies))
        && (!AllCreated(replies) ==> boards == old(boards))
        && (AllCreated(replies) ==> |requests| == |names.value| + 1)
        && (!AllCreated(replies) ==>
              replies[|requests| - 2].None? && forall i :: 0 <= i < |requests| - 2 ==> replies[i].Some?)
    {
      if Trim(prompt) == [] {
        return [];
      }
      requests := [GenerateBoards(prompt)];
      if names.None? || names.value == [] {
        return;
      }
      var created, sent := CreateBatch(names.value, |boards|, replies);
      requests := requests + sent;
      if created.Some? {
        boards := boards + created.value;
      }
      AllCreatedSpec(replies);
    }
  }

  /** Every create of the batch was answered. */
  predicate AllCreated(replies: seq<Option<Board>>) {
    forall i :: 0 <= i < |replies| ==> replies[i].Some?
  }

  /** The boards the replies carry, in order, skipping failed ones. */
  function Created(replies: seq<Option<Board>>): seq<Board> {
    if replies == [] then []
    else (if replies[0].Some? then [replies[0].value] else []) + Created(replies[1..])
  }

  /** Appending the created boards changes the list exactly when there is at least one of them. */
  lemma AllCreatedSpec(replies: seq<Option<Board>>)
    ensures AllCreated(replies) ==> |Created(replies)| == |replies|
    ensures AllCreated(replies) ==> forall i :: 0 <= i < |replies| ==> Created(replies)[i] == replies[i].value
  {
    if replies != [] {
      AllCreatedSpec(replies[1..]);
    }
  }

  /**
   * The counted loop of the batch: the i-th name is posted with position `start + i`; the
   * loop stops at the first failed create, and only a batch without failures yields boards.
   */
  method CreateBatch(names: seq<string>, start: nat, replies: seq<Option<Board>>)
    returns (created: Option<seq<Board>>, sent: seq<Request>)
    requires |replies| == |names| && names != []
    ensures 1 <= |sent| <= |names|
    ensures forall i :: 0 <= i < |sent| ==> sent[i] == CreateBoard(names[i], start + i)
    ensures created.Some? <==> AllCreated(replies)
    ensures created.Some? ==> created.value == Created(replies) && |sent| == |names|
    ensures created.None? ==> replies[|sent| - 1].None? && forall i :: 0 <= i < |sent| - 1 ==> replies[i].Some?
  {
    var newBoards: seq<Board> := [];
    sent := [];
    var i := 0;
    while i < |names|
      invariant 0 <= i <= |names|
      invariant |sent| == i
      invariant forall k :: 0 <= k < i ==> sent[k] == CreateBoard(names[k], start + k)
      invariant forall k :: 0 <= k < i ==> replies[k].Some?
      invariant newBoards == Created(replies[..i])
    {
      sent := sent + [CreateBoard(names[i], start + i)];
      if replies[i].None? {
        return None, sent;
      }
      CreatedSnoc(replies, i);
      newBoards := newBoards + [replies[i].value];
      i := i + 1;
    }
    assert replies[..i] == replies;
    created := Some(newBoards);
  }

  lemma {:induction false} CreatedAppend(a: seq<Option<Board>>, b: seq<Option<Board>>)
    ensures Created(a + b) == Created(a) + Created(b)
  {
    if a == [] {
      assert a + b == b;
    } else {
      assert (a + b)[0] == a[0];
      assert (a + b)[1..] == a[1..] + b;
      CreatedAppend(a[1..], b);
    }
  }

  lemma CreatedSnoc(replies: seq<Option<Board>>, i: nat)
    requires i < |replies| && replies[i].Some?
    ensures Created(replies[..i + 1]) == Created(replies[..i]) + [replies[i].value]
  {
    assert replies[..i + 1] == replies[..i] + [replies[i]];
    CreatedAppend(replies[..i], [replies[i]]);
    assert Created([replies[i]]) == [replies[i].value] + Created([]);
  }
}
