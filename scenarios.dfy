/**
 * Clients of the service that replay the unit and end-to-end scenarios on
 * a freshly cleared store; each postcondition is the scenario's expectation,
 * proved from the repository's and the service's contracts alone.
 */
module Scenarios {
  import opened Wrappers
  import opened BoardEntity
  import opened Database
  import opened Dto
  import opened Service

  /** Two creates on a cleared store get ids 1 and 2 and are listed in creation order. */
  method CreateTwice(t1: nat, t2: nat) returns (b1: Board, b2: Board, all: seq<Board>)
    ensures b1.id == 1 && b2.id == 2
    ensures b1.title == "Title 1" && b2.title == "Title 2"
    ensures b1.createdAt == b1.updatedAt == t1 && b2.createdAt == b2.updatedAt == t2
    ensures all == [b1, b2]
  {
    var db := new BoardDatabase.Open(Missing, None);
    var service := new BoardService(db);
    db.Clear();
    b1 := service.Create(CreateBoardDto("Title 1", "Content 1", "Author 1"), t1);
    b2 := service.Create(CreateBoardDto("Title 2", "Content 2", "Author 2"), t2);
    all := service.FindAll();
  }

  /** A board just created is found by its id. */
  method CreateThenFind(now: nat) returns (created: Board, found: Result<Board>)
    ensures created.id == 1 && created.title == "Test Title"
    ensures found == Ok(created)
  {
    var db := new BoardDatabase.Open(Missing, None);
    var service := new BoardService(db);
    db.Clear();
    created := service.Create(CreateBoardDto("Test Title", "Test Content", "Test Author"), now);
    found := service.FindOne(created.id);
  }

  /** Looking up id 999 in an empty store fails with the message naming 999. */
  method FindMissing() returns (r: Result<Board>)
    ensures r == Err(NotFound(999))
    ensures r.error.Message() == "Board with ID 999 not found"
  {
    var db := new BoardDatabase.Open(Missing, None);
    var service := new BoardService(db);
    db.Clear();
    r := service.FindOne(999);
    MessageFor999();
  }

  /** A partial update changes title only, keeps content and author, and does not move updatedAt back. */
  method PartialUpdate(t0: nat, t1: nat) returns (created: Board, r: Result<Board>)
    requires t0 <= t1
    ensures r.Ok?
    ensures r.value.id == created.id && r.value.title == "Updated Title Only"
    ensures r.value.content == "Original Content" && r.value.author == "Original Author"
    ensures r.value.createdAt == created.createdAt && r.value.updatedAt >= created.updatedAt
  {
    var db := new BoardDatabase.Open(Missing, None);
    var service := new BoardService(db);
    db.Clear();
    created := service.Create(CreateBoardDto("Original Title", "Original Content", "Original Author"), t0);
    r := service.Update(created.id, BoardPatch(Some("Updated Title Only"), None, None), t1);
  }

  /** Updating an id that was never issued fails and leaves the store as it was. */
  method UpdateMissing(now: nat) returns (r: Result<Board>, all: seq<Board>)
    ensures r == Err(NotFound(999)) && all == []
  {
    var db := new BoardDatabase.Open(Missing, None);
    var service := new BoardService(db);
    db.Clear();
    r := service.Update(999, BoardPatch(Some("Updated Title"), None, None), now);
    all := service.FindAll();
  }

  /** After removing a board, looking it up fails; removing a missing id fails. */
  method RemoveThenFind(now: nat) returns (removed: Result<()>, after: Result<Board>, again: Result<()>)
    ensures removed.Ok?
    ensures after == Err(NotFound(1))
    ensures again == Err(NotFound(1))
  {
    var db := new BoardDatabase.Open(Missing, None);
    var service := new BoardService(db);
    db.Clear();
    var created := service.Create(CreateBoardDto("Test Title", "Test Content", "Test Author"), now);
    removed := service.Remove(created.id);
    after := service.FindOne(created.id);
    again := service.Remove(created.id);
  }

  /** After a delete, the next create still gets a new id: ids are not reused. */
  method NoIdReuse(t1: nat, t2: nat) returns (first: Board, second: Board)
    ensures first.id == 1 && second.id == 2
  {
    var db := new BoardDatabase.Open(Missing, None);
    var service := new BoardService(db);
    db.Clear();
    first := service.Create(CreateBoardDto("Title 1", "Content 1", "Author 1"), t1);
    var _ := service.Remove(first.id);
    second := service.Create(CreateBoardDto("Title 2", "Content 2", "Author 2"), t2);
  }

  /** A body that passes validation becomes a board whose text fields satisfy the payload bounds. */
  method CreateFromBody(body: JsonObject, now: nat) returns (r: Option<Board>)
    ensures r.Some? <==> ValidateCreate(body).Some?
    ensures r.Some? ==> TitleOk(r.value.title) && ContentOk(r.value.content) && AuthorOk(r.value.author)
    ensures r.Some? ==> r.value.id == 1 && r.value.createdAt == r.value.updatedAt == now
  {
    var db := new BoardDatabase.Open(Missing, None);
    var service := new BoardService(db);
    var dto := ValidateCreate(body);
    if dto.None? {
      return None;
    }
    var board := service.Create(dto.value, now);
    r := Some(board);
  }
}
