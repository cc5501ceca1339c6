/** The rows of `search_results` and the two orders in which they are listed. */
module Rows {
  import opened Text
  import opened Paging

  /** `createdAt` counts microseconds, the precision PostgreSQL stores. */
  datatype Row = Row(id: Uuid, title: string, url: string, snippet: string, createdAt: int, eventSeq: int)

  /** `ORDER BY event_seq ASC`. */
  function BySeq(r: Row): Key {
    Key(r.eventSeq, 0)
  }

  /** `ORDER BY created_at DESC, id DESC`. */
  function NewestFirst(r: Row): Key {
    Key(-r.createdAt, 0 - r.id)
  }
}
