# Board resource: a verified model

This project models the board (forum post) resource of a small NestJS
application. A repository keeps one JSON document `{boards, nextId}`:
an ordered array of boards and an id counter. The service on top of it
allocates ids and stamps timestamps on create. It turns a failed lookup
into a NotFound signal whose message names the id. It merges a partial
patch on update and deletes by id. A validation step accepts a create
body only when it has exactly the three required string fields, each
within its length bounds.

Modules, one per source file or concept:

- `Wrappers` (`wrappers.dfy`): `Option`, standing in for `undefined`.
- `BoardEntity` (`board_entity.dfy`): the `Board` record.
- `Database` (`board_database.dfy`): the repository. The pure searches
  `IndexOfId` (`findIndex`) and `FirstWithId` (`find`), the store
  invariant `IdsDistinctBelow` (distinct ids, all in `[1, counter)`) with the lemmas that each change keeps it,
  and the class `BoardDatabase`. Its two mutable fields are the two
  document slots.
- `Dto` (`create_board_dto.dfy`): the create payload, its length rules
  and the whitelist validation of a JSON body.
- `NumberText` (`number_text.dfy`): how `${id}` renders an integer, with
  a parse back that proves the rendering is injective.
- `Service` (`board_service.dfy`): `NotFound`, `Result`, the patch and
  its merge, and the class `BoardService` over an injected
  `BoardDatabase`.
- `Scenarios` (`scenarios.dfy`): client methods that replay the unit
  and end-to-end test scenarios on a fresh store, plus two more (no id
  reuse after a delete, and create from a validated body). Each one is
  proved from the contracts of the members it calls.

Modelling choices:

- Each document slot records what a read of its path finds, for the
  document shapes the model covers. `boards` is `Missing`, `NotAnArray`
  or `Stored(seq)`, where a stored array holds boards with integer ids. `nextId` is `None` (missing)
  or `Some(n)`. `Boards()` is the fail-soft read: the stored array, or
  `[]`. `Counter()` reads the counter as 1 when it is missing. So the
  catch paths of `findAll` and `getNextId` are part of the model.
- `update` and `delete` with no match return before writing. A slot
  that held a non-array therefore stays as it was. `save` always writes,
  so saving over a non-array slot stores `[board]`.
- Time is a `nat` argument `now`. Ids are `int`.
- The patch is a record of three optional fields: title, content and
  author. The merge copies every field the patch carries, author
  included, as the spread at `board.service.ts:58-62` does; the model
  follows the code.
- `board.service.ts:29` calls `updateTotalBoards()` on the repository.
  No such method exists in `board.database.ts`, so `Create` treats the
  call as doing nothing.
- `Update` keeps the source's re-check for a missing match after the
  write. The model also asserts that, in sequential execution, this
  re-check cannot fail: the lookup just before it has found the id.
- String length is the number of characters (`|s|`).

## Model

| member | source | states |
|---|---|---|
| `Database.IndexOfId` | src/board/database/board.database.ts:73 | the result is the first index whose board has the id; none exactly when no board has it |
| `Database.FirstWithId` | src/board/database/board.database.ts:59-62 | the result is the board at the first matching index; it is in the sequence and has the id; none exactly when no board has the id |
| `Database.AppendKeepsIdsDistinctBelow` | src/board/database/board.database.ts:39-43 | appending a board whose id is the counter and advancing the counter keeps ids distinct and within `[1, counter)` |
| `Database.ReplaceKeepsIdsDistinctBelow` | src/board/database/board.database.ts:79 | replacing a board by one with the same id keeps the invariant |
| `Database.RemoveKeepsIdsDistinctBelow` | src/board/database/board.database.ts:92 | splicing out one board keeps the invariant |
| `Database.RemovedIdIsGone` | src/board/database/board.database.ts:84-95 | under the invariant, no board with the removed id is left after the splice |
| `Database.NeverIssuedIsAbsent` | src/board/database/board.database.ts:39-48 | under the invariant (counter at least 1, distinct ids in `[1, counter)`), an id below 1 or not below the counter is in no stored board, so a lookup of it finds nothing |
| `Database.ReplacedIsFound` | src/board/database/board.database.ts:71-82 | after the first match is replaced by a board with the same id, a lookup of that id returns the new board |
| `Database.BoardDatabase.Boards` | src/board/database/board.database.ts:50-56 | the fail-soft read of the boards slot: the stored array, or `[]` when the slot is missing or not an array |
| `Database.BoardDatabase.Counter` | src/board/database/board.database.ts:41-46 | the id the next allocation hands out: the stored counter, or 1 when it is missing |
| `Database.BoardDatabase.Open` | src/board/database/board.database.ts:18-36 | a non-array or missing boards slot becomes `[]` and a missing counter becomes 1; an empty document opens as `[]` and 1 and satisfies the invariant |
| `Database.BoardDatabase.GetNextId` | src/board/database/board.database.ts:39-48 | returns the counter from before the call and stores counter+1; a missing counter returns 1 and stores 2; boards unchanged |
| `Database.BoardDatabase.FindAll` | src/board/database/board.database.ts:50-57 | returns the stored sequence in order, or `[]` when the slot is missing or not an array |
| `Database.BoardDatabase.FindById` | src/board/database/board.database.ts:59-62 | returns the first board with the id, or none; changes nothing |
| `Database.BoardDatabase.Save` | src/board/database/board.database.ts:64-69 | boards become old boards + [board]; returns the board; counter unchanged |
| `Database.BoardDatabase.Update` | src/board/database/board.database.ts:71-82 | with no match returns none and changes nothing; otherwise replaces exactly the first matching position and returns the new board; counter unchanged |
| `Database.BoardDatabase.Delete` | src/board/database/board.database.ts:84-95 | with no match returns false and changes nothing; otherwise returns true and boards become `old[..i] + old[i+1..]` for the first match `i` |
| `Database.BoardDatabase.Clear` | src/board/database/board.database.ts:97-100 | boards become `[]` and the counter 1, which satisfies the invariant |
| `Dto.TitleOk` | src/board/dto/create-board.dto.ts:4-8 | a title of 2 to 100 characters; such a title is never empty |
| `Dto.ContentOk` | src/board/dto/create-board.dto.ts:10-14 | content of 1 to 5000 characters; such content is never empty |
| `Dto.AuthorOk` | src/board/dto/create-board.dto.ts:16-20 | an author of 2 to 50 characters; such an author is never empty |
| `Dto.ValidDto` | src/board/dto/create-board.dto.ts:3-21 | a payload is valid exactly when every field of its body passes its whole decorator chain (present, a string, not empty, within its length bounds) |
| `Dto.ValidateCreate` | src/board/dto/create-board.dto.ts:3-21 | accepts a body exactly when it is the JSON of some payload within the length bounds (title 2-100, content 1-5000, author 2-50); the extra-field rule comes from test/board.e2e-spec.ts:17-23; on acceptance it returns that payload |
| `Dto.ValidateToJson` | src/board/dto/create-board.dto.ts:3-21 | validating the JSON of a payload gives the payload back when it is valid and rejects it otherwise |
| `Dto.UnknownFieldRejected` | test/board.e2e-spec.ts:17-23 | any body with a field other than title, content or author is rejected |
| `Dto.MissingFieldRejected` | src/board/dto/create-board.dto.ts:4-20 | any body missing one of the three required fields is rejected |
| `Dto.NonStringRejected` | src/board/dto/create-board.dto.ts:5 | a required field that is not a string is rejected |
| `Dto.TitleOnlyRejected` | test/board.e2e-spec.ts:59-66 | a body carrying only a title is rejected |
| `Dto.ShortTitleRejected` | test/board.e2e-spec.ts:68-77 | the title `"A"` is rejected even with valid content and author |
| `Dto.ExtraFieldRejected` | test/board.e2e-spec.ts:79-89 | a valid body plus `unknownField` is rejected |
| `Dto.ValidPayloadAccepted` | test/board.e2e-spec.ts:40-57 | the payload of the create test is accepted unchanged |
| `NumberText.NatToString` | src/board/board.service.ts:46 | the rendering is a non-empty string of digits with no leading zero, one character exactly for values below 10 |
| `NumberText.IntToString` | src/board/board.service.ts:46 | the rendering starts with `-` exactly for negative ids, the rest is digits, and those digits read back as the id's magnitude |
| `NumberText.DigitsRoundTrip` | src/board/board.service.ts:46 | reading the rendered digits back gives the number |
| `NumberText.NatToStringInjective` | src/board/board.service.ts:46 | distinct naturals render differently |
| `NumberText.IntToStringInjective` | src/board/board.service.ts:46 | distinct integers, negative ones included, render differently |
| `Service.NotFound.Message` | src/board/board.service.ts:46 | the message is the fixed prefix `Board with ID `, the rendered id, and the fixed suffix ` not found` (the same text is thrown at :67 and :77) |
| `Service.MessageNamesId` | src/board/board.service.ts:46 | two NotFound signals with the same message carry the same id |
| `Service.MessageFor999` | src/board/board.service.spec.ts:119-122 | the message for id 999 is `Board with ID 999 not found` |
| `Service.Merge` | src/board/board.service.ts:58-62 | the merge overwrites exactly the fields the patch carries, keeps every omitted field (author included), keeps id and createdAt and sets updatedAt to now |
| `Service.MergeEmptyPatch` | src/board/board.service.ts:58-62 | an empty patch only refreshes updatedAt |
| `Service.MergeIdempotent` | src/board/board.service.ts:58-62 | applying the same patch twice at the same time equals applying it once |
| `Service.MergeThen` | src/board/board.service.ts:58-62 | two successive merges equal one merge of the combined patch at the later time |
| `Service.MergeAdvancesUpdatedAt` | src/board/board.service.spec.ts:147-149 | with a clock that does not run backwards, updatedAt does not decrease |
| `Service.BoardService.constructor` | src/board/board.service.ts:9 | the service uses the repository it is given |
| `Service.BoardService.Create` | src/board/board.service.ts:11-34 | the board has the old counter as id, the payload's fields and createdAt = updatedAt = now; it is appended last; the counter advances by one; the invariant is kept, the new id exceeds every stored id, and a later lookup of the new id returns exactly the new board |
| `Service.BoardService.FindAll` | src/board/board.service.ts:36-38 | returns the repository's boards in order |
| `Service.BoardService.FindOne` | src/board/board.service.ts:40-50 | returns the first board with the id, or NotFound carrying the id; changes nothing |
| `Service.BoardService.Update` | src/board/board.service.ts:53-71 | with a missing id returns NotFound and changes nothing; otherwise returns the merge of the stored board and replaces exactly its position; a later lookup returns the merged board; the re-check at :66-68 cannot fail; the invariant is kept |
| `Service.BoardService.Remove` | src/board/board.service.ts:73-79 | with a missing id returns NotFound and changes nothing; otherwise splices out the first match; under the invariant a later lookup finds nothing; the counter is unchanged |
| `Scenarios.CreateTwice` | src/board/board.service.spec.ts:50-100 | two creates on a cleared store get ids 1 and 2, and findAll lists them in creation order |
| `Scenarios.CreateThenFind` | src/board/board.service.spec.ts:104-117 | a board just created is found by its id |
| `Scenarios.FindMissing` | src/board/board.service.spec.ts:119-122 | findOne(999) on an empty store is NotFound with message `Board with ID 999 not found` |
| `Scenarios.PartialUpdate` | test/board.e2e-spec.ts:177-199 | a title-only patch changes the title, keeps content, author, id and createdAt, and does not move updatedAt back |
| `Scenarios.UpdateMissing` | src/board/board.service.spec.ts:152-160 | updating id 999 on an empty store is NotFound and the store stays empty |
| `Scenarios.RemoveThenFind` | src/board/board.service.spec.ts:164-179 | after remove, findOne is NotFound; removing the same id again is NotFound |
| `Scenarios.NoIdReuse` | src/board/database/board.database.ts:39-48 | a create after a delete gets a fresh id (2, not 1) |
| `Scenarios.CreateFromBody` | src/board/board.service.ts:16-21 | a body that passes validation becomes a board whose title, content and author satisfy the payload bounds, with id 1 and equal timestamps |

## Left out

- File persistence. The document lives in memory. The JSON file, the
  `/boards` and `/nextId` path addressing, the save-on-push flag and
  disk failures are not modelled.
- Asynchrony. The constructor starts `initDatabase` without waiting for
  it. `BoardDatabase.Open` models the state once it has finished. No
  operation interleaves with another, so the race between the lookup
  and the write in `update` is not modelled.
- The counter slot holds an integer or is missing. A stored counter
  that is not an integer (a string, null, a boolean, an array, an
  object or a fraction) is not modelled.
- A stored `boards` array is assumed to hold boards whose ids are
  numbers. An array with a `null` element, where the `board.id`
  callbacks of `findById`, `update` and `delete` would throw, or with an
  element whose id is not a number, which `===` never matches, is not
  modelled.
- `Date` is replaced by a `nat` clock argument. `updatedAt` does not
  decrease only when the caller's clock does not run backwards.
- `updateTotalBoards` (`board.service.ts:29`) is not defined in
  `board.database.ts`. As written, the call would not type-check. A
  build that skips type checking would throw a TypeError at that call,
  after `save`: the board would be stored and the counter advanced, but
  `create` would reject. The model treats the call as doing nothing, so
  `Create` returns the board instead.
- Database.BoardDatabase.GetNextId: the counter is an unbounded integer.
  In the source it is a JavaScript number, and `currentId + 1` stops
  increasing at 2^53. So "the counter advances by one" holds only for
  counters below 2^53.
- Service.BoardService.Create: the fresh-id property (the new id exceeds
  every stored id, and the ids stay distinct) holds only while the
  counter is below 2^53. At and above that, the source hands out the
  same id again, for the reason given for GetNextId.
- `update-board.dto.ts` is not part of this model. The patch is three
  optional fields. Validation of the patch body is not modelled. A
  field sent as an explicit `undefined`, which a spread would copy, is
  treated as absent.
- `Service.Merge`, `Service.BoardService.Update`: the patch carries only
  title, content and author, so the merge keeps id and createdAt and
  the update keeps the invariant. In the source, the spread at
  `board.service.ts:58-62` puts the patch after the stored board, so a
  patch object that also carried `id` or `createdAt` would overwrite
  them. Nothing but the validation pipe stops such a patch, and a caller
  of `update` that bypasses it, as the unit tests do, could pass one.
- `NumberText.IntToString`: renders ids as their exact decimal digits.
  This equals `${id}` only for magnitudes up to 2^53. Above that, most
  integers are not JavaScript numbers at all, and for those that are,
  JavaScript prints the shortest digits that round-trip followed by
  zeros: 2^64 prints as `18446744073709552000`, while the model gives
  `18446744073709551616`. The exponent form used from 1e21 upward, and
  fractional ids, are not modelled either. So `Service.NotFound.Message`
  matches the source's text only for ids of magnitude up to 2^53.
- `Dto.TitleOk`, `Dto.ContentOk`, `Dto.AuthorOk`, `Dto.ValidateCreate`: length is counted in characters (`|s|`). This
  agrees with the validator library's count, which also counts a
  surrogate pair as one character, except in two cases. First, the
  library skips the variation selectors U+FE0E and U+FE0F, but `|s|`
  counts them, so the model accepts the title `"A\u{FE0F}"`, which the
  library rejects. Second, the library counts a lone surrogate as one
  character, but a Dafny string cannot hold one.
- The HTTP layer is not modelled: the controller (not part of this
  model), status codes 201/400/404 and Nest dependency injection
  (`board.module.ts`). Only the field-merge meaning of `Object.assign`
  in the `Board` constructor is modelled.
- The `chapter2` and `movie` modules return fixed strings. `test-db.js`
  is a scratch script. None of them is modelled.
