/**
 * The board (forum post) entity. Timestamps are clock readings supplied
 * by the caller, so they are natural numbers rather than `Date` objects.
 */
module BoardEntity {

  datatype Board = Board(
    id: int,
    title: string,
    content: string,
    author: string,
    createdAt: nat,
    updatedAt: nat)
}
