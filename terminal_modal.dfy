/**
 * The modal that picks a cash box and a terminal before opening the register: the box and
 * terminal lists it loads, the first-free-terminal rule, when an initial amount is required,
 * and the guards on submitting.
 */
module TerminalModal {
  import opened Wrappers

  datatype CashBox = CashBox(id: nat, name: string)
  datatype Terminal = Terminal(id: nat, name: string)

  /** The reply to a list request: a failure, a body that is not an array, or the items. */
  datatype ListReply<T> = ListFailed | NotAnArray | Items(items: seq<T>)

  /** `Number(data.initialAmount)`: the conversion of the typed text is not modelled. */
  datatype Amount = NumberOf(input: string)

  /** The body of `POST /cash-register/open`. */
  datatype OpenRequest = OpenRequest(boxId: nat, terminalId: nat, userId: Option<nat>, initialAmount: Option<Amount>)

  /** A truthy id: present and not 0. */
  predicate Chosen(id: Option<nat>) {
    id.Some? && id.value != 0
  }

  /**
   * The terminal the loop with `break` picks: the first one, in list order, whose id is not
   * among the occupied terminal ids; none when all are occupied or the list is empty.
   */
  function FirstFree(terminals: seq<Terminal>, occupied: seq<nat>): (r: Option<nat>)
    ensures r.None? <==> forall t :: t in terminals ==> t.id in occupied
    ensures r.Some? ==>
      exists i :: 0 <= i < |terminals| && terminals[i].id == r.value &&
                  r.value !in occupied && forall j :: 0 <= j < i ==> terminals[j].id in occupied
  {
    if terminals == [] then None
    else if terminals[0].id !in occupied then Some(terminals[0].id)
    else
      var r := FirstFree(terminals[1..], occupied);
      assert forall t :: t in terminals <==> t == terminals[0] || t in terminals[1..];
      if r.Some? then
        var i :| 0 <= i < |terminals[1..]| && terminals[1..][i].id == r.value &&
          r.value !in occupied && forall j :: 0 <= j < i ==> terminals[1..][j].id in occupied;
        assert terminals[i + 1].id == r.value;
        r
      else r
  }

  /** The `for…of` loop with `break` over the terminals. */
  method FindFirstFree(terminals: seq<Terminal>, occupied: seq<nat>) returns (selected: Option<nat>)
    ensures selected == FirstFree(terminals, occupied)
  {
    selected := None;
    var i := 0;
    while i < |terminals|
      invariant 0 <= i <= |terminals|
      invariant FirstFree(terminals, occupied) == FirstFree(terminals[i..], occupied)
    {
      assert terminals[i..][1..] == terminals[i + 1..];
      if terminals[i].id !in occupied {
        selected := Some(terminals[i].id);
        break;
      }
      i := i + 1;
    }
  }

  /** The terminal list a reply leaves: `Array.isArray(terminals) ? terminals : []`. */
  function TerminalsOf(reply: ListReply<Terminal>): seq<Terminal> {
    if reply.Items? then reply.items else []
  }

  class Modal {
    /** The props `occupiedTerminals` (their `terminalId`s), `openedToday` and `openedBoxesToday` (their `boxId`s). */
    const occupied: seq<nat>
    const openedToday: bool
    const openedBoxesToday: seq<nat>
    const userId: Option<nat>

    var boxId: Option<nat>
    var terminalId: Option<nat>
    var boxList: seq<CashBox>
    var terminalList: seq<Terminal>

    constructor(occupied: seq<nat>, openedToday: bool, openedBoxesToday: seq<nat>, userId: Option<nat>)
      ensures this.occupied == occupied && this.openedToday == openedToday
      ensures this.openedBoxesToday == openedBoxesToday && this.userId == userId
      ensures boxId == None && terminalId == None && boxList == [] && terminalList == []
    {
      this.occupied := occupied;
      this.openedToday := openedToday;
      this.openedBoxesToday := openedBoxesToday;
      this.userId := userId;
      boxId := None;
      terminalId := None;
      boxList := [];
      terminalList := [];
    }

    /** `boxAlreadyOpened`: the chosen box is among the boxes opened today. */
    predicate BoxAlreadyOpened()
      reads this
    {
      Chosen(boxId) && boxId.value in openedBoxesToday
    }

    /** `requireInitialAmount`. */
    predicate RequireInitialAmount()
      reads this
      ensures RequireInitialAmount() <==>
        Chosen(boxId) && !openedToday && boxId.value !in openedBoxesToday
    {
      Chosen(boxId) && !openedToday && !BoxAlreadyOpened()
    }

    /** `showSelection`: hidden only for exactly one box with exactly one terminal. */
    predicate ShowSelection()
      reads this
      ensures !ShowSelection() <==> |boxList| == 1 && |terminalList| == 1
    {
      !(|boxList| == 1 && |terminalList| == 1)
    }

    /** The dialog's `isValid`: the form's own validity when an amount is required. */
    predicate IsValid(formValid: bool)
      reads this
      ensures !RequireInitialAmount() ==> (IsValid(formValid) <==> Chosen(boxId) && Chosen(terminalId))
      ensures RequireInitialAmount() ==> (IsValid(formValid) <==> formValid)
    {
      if RequireInitialAmount() then formValid else Chosen(boxId) && Chosen(terminalId)
    }

    /**
     * `fetchLists`, with the replies for the boxes and for the first box's terminals. Any
     * failure empties both lists and clears both choices.
     */
    method FetchLists(boxes: ListReply<CashBox>, terminals: ListReply<Terminal>)
      modifies this`boxId, this`terminalId, this`boxList, this`terminalList
      ensures boxes.ListFailed? || (boxes.Items? && boxes.items != [] && terminals.ListFailed?) ==>
        boxList == [] && boxId == None && terminalList == [] && terminalId == None
      ensures boxes.NotAnArray? || boxes == Items([]) ==>
        boxList == [] && boxId == None && terminalList == [] && terminalId == None
      ensures boxes.Items? && boxes.items != [] && !terminals.ListFailed? ==>
        boxList == boxes.items && boxId == Some(boxes.items[0].id) &&
        terminalList == TerminalsOf(terminals) && terminalId == FirstFree(TerminalsOf(terminals), occupied)
    {
      if boxes.ListFailed? {
        ResetLists();
        return;
      }
      boxList := if boxes.Items? then boxes.items else [];
      if |boxList| > 0 {
        boxId := Some(boxList[0].id);
        if terminals.ListFailed? {
          ResetLists();
          return;
        }
        terminalList := TerminalsOf(terminals);
        terminalId := FindFirstFree(terminalList, occupied);
      } else {
        boxId := None;
        terminalList := [];
        terminalId := None;
      }
    }

    /** The `catch` of `fetchLists`. */
    method ResetLists()
      modifies this`boxId, this`terminalId, this`boxList, this`terminalList
      ensures boxList == [] && boxId == None && terminalList == [] && terminalId == None
    {
      boxList := [];
      boxId := None;
      terminalList := [];
      terminalId := None;
    }

    /**
     * `handleSelectBox(id)`: the terminal is cleared, then the first-free rule is applied to
     * the box's terminals; a failed request empties the list and leaves no terminal.
     */
    method SelectBox(id: nat, terminals: ListReply<Terminal>)
      modifies this`boxId, this`terminalId, this`terminalList
      ensures boxId == Some(id)
      ensures terminals.ListFailed? ==> terminalList == [] && terminalId == None
      ensures !terminals.ListFailed? ==>
        terminalList == TerminalsOf(terminals) && terminalId == FirstFree(TerminalsOf(terminals), occupied)
    {
      boxId := Some(id);
      terminalId := None;
      if terminals.ListFailed? {
        terminalList := [];
        return;
      }
      terminalList := TerminalsOf(terminals);
      terminalId := FindFirstFree(terminalList, occupied);
    }

    /** `handleSelectTerminal(id)`. */
    method SelectTerminal(id: nat)
      modifies this`terminalId
      ensures terminalId == Some(id)
    {
      terminalId := Some(id);
    }

    /**
     * `handleSubmit(handleSubmitForm)`: the form's resolver runs first, and with an amount
     * required (the yup schema: a number, at least 0) an invalid form is never submitted;
     * `formValid` is whether the resolver accepts the typed values. Then `handleSubmitForm`
     * sends nothing without a chosen box and terminal or when the terminal is occupied; the
     * amount is sent only when it is required.
     */
    method Submit(input: string, formValid: bool) returns (request: Option<OpenRequest>)
      ensures RequireInitialAmount() && !formValid ==> request.None?
      ensures request.None? <==>
        (RequireInitialAmount() && !formValid) ||
        !Chosen(boxId) || !Chosen(terminalId) || terminalId.value in occupied
      ensures request.Some? ==>
        request.value.boxId == boxId.value && request.value.terminalId == terminalId.value &&
        request.value.userId == userId
      ensures request.Some? ==>
        (request.value.initialAmount.Some? <==> RequireInitialAmount()) &&
        (RequireInitialAmount() ==> request.value.initialAmount == Some(NumberOf(input)))
    {
      if RequireInitialAmount() && !formValid {
        return None;
      }
      if !Chosen(boxId) || !Chosen(terminalId) {
        return None;
      }
      if terminalId.value in occupied {
        return None;
      }
      var amount: Option<Amount> := None;
      if RequireInitialAmount() {
        amount := Some(NumberOf(input));
      } else if BoxAlreadyOpened() {
        amount := None;
      }
      request := Some(OpenRequest(boxId.value, terminalId.value, userId, amount));
    }
  }
}
