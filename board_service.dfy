/**
 * The board service: id allocation and timestamps on create, lookup that
 * turns absence into NotFound, merge-on-update and delete, all over one
 * injected repository. The clock is the `now` argument.
 */
module Service {
  import opened Wrappers
  import opened BoardEntity
  import opened Database
  import opened Dto
  import NumberText

  /** The not-found signal; it carries the id that did not resolve. */
  datatype NotFound = NotFound(id: int) {
    /** `Board with ID ${id} not found`: a fixed prefix and suffix around the rendered id. */
    function Message(): (m: string)
      ensures |m| == 24 + |NumberText.IntToString(id)|
      ensures m[..14] == "Board with ID " && m[|m| - 10..] == " not found"
      ensures m[14..|m| - 10] == NumberText.IntToString(id)
    {
      "Board with ID " + NumberText.IntToString(id) + " not found"
    }
  }

  datatype Result<T> = Ok(value: T) | Err(error: NotFound)

  /** A partial update: each field either carries a new value or is absent. */
  datatype BoardPatch = BoardPatch(title: Option<string>, content: Option<string>, author: Option<string>)

  /** The value of a field after a patch: the patch's value if present, otherwise the old one. */
  function Overlay(field: Option<string>, current: string): string {
    if field.Some? then field.value else current
  }

  /**
   * `{...existing, ...patch, updatedAt: now}`: the merge overwrites exactly
   * the fields the patch carries, keeps every omitted field (author
   * included), never touches id or createdAt, and stamps updatedAt.
   */
  function Merge(existing: Board, patch: BoardPatch, now: nat): (r: Board)
    ensures r.id == existing.id && r.createdAt == existing.createdAt && r.updatedAt == now
    ensures patch.title.Some? ==> r.title == patch.title.value
    ensures patch.title.None? ==> r.title == existing.title
    ensures patch.content.Some? ==> r.content == patch.content.value
    ensures patch.content.None? ==> r.content == existing.content
    ensures patch.author.Some? ==> r.author == patch.author.value
    ensures patch.author.None? ==> r.author == existing.author
  {
    existing.(title := Overlay(patch.title, existing.title),
              content := Overlay(patch.content, existing.content),
              author := Overlay(patch.author, existing.author),
              updatedAt := now)
  }

  /** The patch with the effect of `p` followed by `q`: fields of `q` win. */
  function Then(p: BoardPatch, q: BoardPatch): BoardPatch {
    BoardPatch(if q.title.Some? then q.title else p.title,
               if q.content.Some? then q.content else p.content,
               if q.author.Some? then q.author else p.author)
  }

  /** The message names the id: two NotFound signals with the same message are about the same id. */
  lemma MessageNamesId(a: NotFound, b: NotFound)
    requires a.Message() == b.Message()
    ensures a == b
  {
    NumberText.IntToStringInjective(a.id, b.id);
  }

  /** The message of the unit test for a missing board. */
  lemma MessageFor999()
    ensures NotFound(999).Message() == "Board with ID 999 not found"
  {
  }

  /** An empty patch only refreshes the update time. */
  lemma MergeEmptyPatch(existing: Board, now: nat)
    ensures Merge(existing, BoardPatch(None, None, None), now) == existing.(updatedAt := now)
  {
  }

  /** Applying the same patch twice is the same as applying it once. */
  lemma MergeIdempotent(existing: Board, patch: BoardPatch, now: nat)
    ensures Merge(Merge(existing, patch, now), patch, now) == Merge(existing, patch, now)
  {
  }

  /** Two successive updates equal one update with the combined patch at the later time. */
  lemma MergeThen(existing: Board, p: BoardPatch, q: BoardPatch, t1: nat, t2: nat)
    ensures Merge(Merge(existing, p, t1), q, t2) == Merge(existing, Then(p, q), t2)
  {
  }

  /** With a clock that does not run backwards, an update never moves updatedAt back. */
  lemma MergeAdvancesUpdatedAt(existing: Board, patch: BoardPatch, now: nat)
    requires existing.updatedAt <= now
    ensures Merge(existing, patch, now).updatedAt >= existing.updatedAt
  {
  }

  class BoardService {
    const db: BoardDatabase

    constructor(db: BoardDatabase)
      ensures this.db == db
    {
      this.db := db;
    }

    method Create(dto: CreateBoardDto, now: nat) returns (board: Board)
      modifies db
      ensures board == Board(old(db.Counter()), dto.title, dto.content, dto.author, now, now)
      ensures db.boardsSlot == Stored(old(db.Boards()) + [board])
      ensures db.nextIdSlot == Some(old(db.Counter()) + 1)
      ensures old(db.IdsFresh()) ==> db.IdsFresh()
      ensures old(db.IdsFresh()) ==> forall b :: b in old(db.Boards()) ==> b.id < board.id
      ensures old(db.IdsFresh()) ==> FirstWithId(db.Boards(), board.id) == Some(board)
    {
      var id := db.GetNextId();
      board := Board(id, dto.title, dto.content, dto.author, now, now);
      var _ := db.Save(board);
      // The source then calls `updateTotalBoards`, which the repository does
      // not define; it is treated as doing nothing.
      if old(db.IdsFresh()) {
        AppendKeepsIdsDistinctBelow(old(db.Boards()), id, board);
      }
    }

    method FindAll() returns (r: seq<Board>)
      ensures r == db.Boards()
    {
      r := db.FindAll();
    }

    method FindOne(id: int) returns (r: Result<Board>)
      ensures match FirstWithId(db.Boards(), id)
        case Some(b) => r == Ok(b)
        case None => r == Err(NotFound(id))
    {
      var board := db.FindById(id);
      if board.None? {
        return Err(NotFound(id));
      }
      r := Ok(board.value);
    }

    method Update(id: int, patch: BoardPatch, now: nat) returns (r: Result<Board>)
      modifies db
      ensures match IndexOfId(old(db.Boards()), id)
        case None =>
          r == Err(NotFound(id)) && db.boardsSlot == old(db.boardsSlot)
        case Some(i) =>
          r == Ok(Merge(old(db.Boards())[i], patch, now)) &&
          db.boardsSlot == Stored(old(db.Boards())[i := r.value])
      ensures db.nextIdSlot == old(db.nextIdSlot)
      ensures r.Ok? ==> FirstWithId(db.Boards(), id) == Some(r.value)
      ensures old(db.IdsFresh()) ==> db.IdsFresh()
    {
      var found := FindOne(id);
      if found.Err? {
        return Err(found.error);
      }
      var existing := found.value;
      var updatedBoard := Merge(existing, patch, now);
      ghost var i := IndexOfId(db.Boards(), id).value;
      var saved := db.Update(id, updatedBoard);
      // The source re-checks for a missing match here; in sequential
      // execution the lookup above has just found `id`, so it cannot fail.
      assert saved.Some?;
      if saved.None? {
        return Err(NotFound(id));
      }
      r := Ok(saved.value);
      ReplacedIsFound(old(db.Boards()), i, updatedBoard);
      if old(db.IdsFresh()) {
        ReplaceKeepsIdsDistinctBelow(old(db.Boards()), old(db.Counter()), i, updatedBoard);
      }
    }

    method Remove(id: int) returns (r: Result<()>)
      modifies db
      ensures match IndexOfId(old(db.Boards()), id)
        case None =>
          r == Err(NotFound(id)) && db.boardsSlot == old(db.boardsSlot)
        case Some(i) =>
          r.Ok? && db.boardsSlot == Stored(old(db.Boards())[..i] + old(db.Boards())[i + 1..])
      ensures db.nextIdSlot == old(db.nextIdSlot)
      ensures old(db.IdsFresh()) ==> db.IdsFresh() && FirstWithId(db.Boards(), id).None?
    {
      ghost var index := IndexOfId(db.Boards(), id);
      var deleted := db.Delete(id);
      if !deleted {
        return Err(NotFound(id));
      }
      r := Ok(());
      if old(db.IdsFresh()) {
        RemoveKeepsIdsDistinctBelow(old(db.Boards()), old(db.Counter()), index.value);
        RemovedIdIsGone(old(db.Boards()), old(db.Counter()), index.value);
      }
    }
  }
}
