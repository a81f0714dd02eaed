/**
 * The board repository: one JSON document holding the array of boards
 * and the next-id counter. The document is kept in memory; each slot
 * records what a read of its path would find, so that the repository's
 * fail-soft reads (a missing or non-array `boards`, a missing `nextId`)
 * are part of the model.
 */
module Database {
  import opened Wrappers
  import opened BoardEntity

  /** What a read of the document's `/boards` path finds. */
  datatype BoardsSlot = Missing | NotAnArray | Stored(boards: seq<Board>)

  /** The index of the first board whose id is `id` (`Array.prototype.findIndex`). */
  function IndexOfId(s: seq<Board>, id: int): (r: Option<nat>)
    ensures r.Some? ==> r.value < |s| && s[r.value].id == id
    ensures r.Some? ==> forall k :: 0 <= k < r.value ==> s[k].id != id
    ensures r.None? <==> forall k :: 0 <= k < |s| ==> s[k].id != id
  {
    if |s| == 0 then None
    else if s[0].id == id then Some(0)
    else match IndexOfId(s[1..], id)
      case None => None
      case Some(k) => Some(k + 1)
  }

  /** The first board whose id is `id` (`Array.prototype.find`). */
  function FirstWithId(s: seq<Board>, id: int): (r: Option<Board>)
    ensures r.Some? ==> r.value in s && r.value.id == id
    ensures r.None? <==> forall b :: b in s ==> b.id != id
    ensures r.Some? <==> IndexOfId(s, id).Some?
    ensures r.Some? ==> r.value == s[IndexOfId(s, id).value]
  {
    match IndexOfId(s, id)
    case None => None
    case Some(k) => Some(s[k])
  }

  /**
   * The store invariant: the counter is at least 1, ids are pairwise
   * distinct, and every id lies in `[1, next)`, the ids handed out so far.
   */
  ghost predicate IdsDistinctBelow(s: seq<Board>, next: int) {
    1 <= next &&
    (forall i, j :: 0 <= i < j < |s| ==> s[i].id != s[j].id) &&
    (forall i :: 0 <= i < |s| ==> 1 <= s[i].id < next)
  }

  /** Under the invariant, an id never handed out (below 1, or not below the counter) is not stored. */
  lemma NeverIssuedIsAbsent(s: seq<Board>, next: int, id: int)
    requires IdsDistinctBelow(s, next) && (id < 1 || next <= id)
    ensures IndexOfId(s, id).None? && FirstWithId(s, id).None?
  {
  }

  /** Appending a board carrying the counter's value and advancing the counter keeps the invariant. */
  lemma AppendKeepsIdsDistinctBelow(s: seq<Board>, next: int, b: Board)
    requires IdsDistinctBelow(s, next) && b.id == next
    ensures IdsDistinctBelow(s + [b], next + 1)
  {
  }

  /** Replacing a board by one with the same id keeps the invariant. */
  lemma ReplaceKeepsIdsDistinctBelow(s: seq<Board>, next: int, i: nat, b: Board)
    requires IdsDistinctBelow(s, next) && i < |s| && b.id == s[i].id
    ensures IdsDistinctBelow(s[i := b], next)
  {
  }

  /** Removing a board keeps the invariant. */
  lemma RemoveKeepsIdsDistinctBelow(s: seq<Board>, next: int, i: nat)
    requires IdsDistinctBelow(s, next) && i < |s|
    ensures IdsDistinctBelow(s[..i] + s[i + 1..], next)
  {
  }

  /** Under the invariant, once the first match is removed no board with that id is left. */
  lemma RemovedIdIsGone(s: seq<Board>, next: int, i: nat)
    requires IdsDistinctBelow(s, next) && i < |s|
    ensures IndexOfId(s[..i] + s[i + 1..], s[i].id).None?
  {
  }

  /** After the first match is replaced by a board with the same id, a lookup finds the new board. */
  lemma {:induction false} ReplacedIsFound(s: seq<Board>, i: nat, b: Board)
    requires IndexOfId(s, b.id) == Some(i)
    ensures FirstWithId(s[i := b], b.id) == Some(b)
  {
    var t := s[i := b];
    assert t[i].id == b.id;
    assert forall k :: 0 <= k < i ==> t[k] == s[k];
  }

  class BoardDatabase {
    var boardsSlot: BoardsSlot
    var nextIdSlot: Option<int>

    /** The boards a read returns: the stored array, or none when the slot is missing or not an array. */
    function Boards(): (r: seq<Board>)
      reads this
      ensures boardsSlot.Stored? ==> r == boardsSlot.boards
      ensures !boardsSlot.Stored? ==> r == []
    {
      match boardsSlot
      case Stored(s) => s
      case _ => []
    }

    /** The id the next allocation hands out: the stored counter, or 1 when it is missing. */
    function Counter(): (r: int)
      reads this
      ensures nextIdSlot.Some? ==> r == nextIdSlot.value
      ensures nextIdSlot.None? ==> r == 1
    {
      match nextIdSlot
      case Some(n) => n
      case None => 1
    }

    ghost predicate IdsFresh()
      reads this
    {
      IdsDistinctBelow(Boards(), Counter())
    }

    /**
     * Opens a document whose slots read as given and brings it to the basic
     * shape: a `boards` slot that is not an array becomes `[]`, a missing
     * counter becomes 1. An empty document opens as `[]` and 1.
     */
    constructor Open(boards: BoardsSlot, nextId: Option<int>)
      ensures boardsSlot == (if boards.Stored? then boards else Stored([]))
      ensures nextIdSlot == (if nextId.Some? then nextId else Some(1))
      ensures boards == Missing && nextId == None ==> IdsFresh()
    {
      boardsSlot := if boards.Stored? then boards else Stored([]);
      nextIdSlot := if nextId.Some? then nextId else Some(1);
    }

    method GetNextId() returns (id: int)
      modifies this
      ensures id == old(Counter())
      ensures nextIdSlot == Some(id + 1)
      ensures old(nextIdSlot).None? ==> id == 1 && nextIdSlot == Some(2)
      ensures boardsSlot == old(boardsSlot)
    {
      match nextIdSlot
      case Some(current) =>
        nextIdSlot := Some(current + 1);
        id := current;
      case None =>
        nextIdSlot := Some(2);
        id := 1;
    }

    method FindAll() returns (r: seq<Board>)
      ensures r == Boards()
    {
      match boardsSlot
      case Stored(s) => r := s;
      case _ => r := [];
    }

    method FindById(id: int) returns (r: Option<Board>)
      ensures r == FirstWithId(Boards(), id)
    {
      var boards := FindAll();
      r := FirstWithId(boards, id);
    }

    method Save(board: Board) returns (r: Board)
      modifies this
      ensures r == board
      ensures boardsSlot == Stored(old(Boards()) + [board])
      ensures nextIdSlot == old(nextIdSlot)
    {
      var boards := FindAll();
      boards := boards + [board];
      boardsSlot := Stored(boards);
      r := board;
    }

    method Update(id: int, updatedBoard: Board) returns (r: Option<Board>)
      modifies this
      ensures match IndexOfId(old(Boards()), id)
        case None => r == None && boardsSlot == old(boardsSlot)
        case Some(i) => r == Some(updatedBoard) && boardsSlot == Stored(old(Boards())[i := updatedBoard])
      ensures nextIdSlot == old(nextIdSlot)
    {
      var boards := FindAll();
      var index := IndexOfId(boards, id);
      if index.None? {
        return None;
      }
      boards := boards[index.value := updatedBoard];
      boardsSlot := Stored(boards);
      r := Some(updatedBoard);
    }

    method Delete(id: int) returns (deleted: bool)
      modifies this
      ensures deleted == IndexOfId(old(Boards()), id).Some?
      ensures match IndexOfId(old(Boards()), id)
        case None => boardsSlot == old(boardsSlot)
        case Some(i) => boardsSlot == Stored(old(Boards())[..i] + old(Boards())[i + 1..])
      ensures nextIdSlot == old(nextIdSlot)
    {
      var boards := FindAll();
      var index := IndexOfId(boards, id);
      if index.None? {
        return false;
      }
      boards := boards[..index.value] + boards[index.value + 1..];
      boardsSlot := Stored(boards);
      deleted := true;
    }

    method Clear()
      modifies this
      ensures boardsSlot == Stored([]) && nextIdSlot == Some(1)
      ensures Boards() == [] && Counter() == 1 && IdsFresh()
    {
      boardsSlot := Stored([]);
      nextIdSlot := Some(1);
    }
  }
}
