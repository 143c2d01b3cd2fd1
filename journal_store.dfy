/**
 * The server's journal table `journal_entries (id TEXT PRIMARY KEY, text
 * TEXT NOT NULL, timestamp, summary)` and its three routes. Rows are kept
 * in insertion (rowid) order; listing sorts them by timestamp, newest first,
 * with SQL NULL below every value.
 */
module JournalStore {
  import opened Wrappers

  /** A stored row. A timestamp is an instant in milliseconds; NULL is `None`. */
  datatype Row = Row(id: string, text: string, timestamp: Option<int>, summary: Option<string>)

  /** The body of POST /api/journal; a missing field is `None`. */
  datatype InsertRequest = InsertRequest(id: string, text: Option<string>, timestamp: Option<int>, summary: Option<string>)

  /** 200 `{ success: true }` or 500 `{ error: message }`. */
  datatype Reply = Success | ServerError(message: string)

  const NotNullTextMessage: string := "NOT NULL constraint failed: journal_entries.text"
  const UniqueIdMessage: string := "UNIQUE constraint failed: journal_entries.id"

  // ---------------------------------------------------------------------
  // ORDER BY timestamp DESC
  // ---------------------------------------------------------------------

  /** `a` sorts no later than `b` under DESC, where NULL is the smallest value. */
  predicate NotOlder(a: Option<int>, b: Option<int>)
  {
    b.None? || (a.Some? && a.value >= b.value)
  }

  predicate NewestFirst(rs: seq<Row>)
  {
    forall i, j :: 0 <= i < j < |rs| ==> NotOlder(rs[i].timestamp, rs[j].timestamp)
  }

  /** Places `r` into a newest-first sequence. */
  function InsertByTime(r: Row, rs: seq<Row>): (out: seq<Row>)
    requires NewestFirst(rs)
    ensures NewestFirst(out)
    ensures multiset(out) == multiset(rs) + multiset{r}
  {
    if rs == [] || NotOlder(r.timestamp, rs[0].timestamp) then
      [r] + rs
    else
      var tail := InsertByTime(r, rs[1..]);
      assert rs == [rs[0]] + rs[1..];
      assert forall k :: 0 <= k < |tail| ==> NotOlder(rs[0].timestamp, tail[k].timestamp) by {
        forall k | 0 <= k < |tail|
          ensures NotOlder(rs[0].timestamp, tail[k].timestamp)
        {
          assert tail[k] in multiset(tail);
          assert tail[k] == r || tail[k] in multiset(rs[1..]);
        }
      }
      [rs[0]] + tail
  }

  /** The rows in the order `SELECT * ... ORDER BY timestamp DESC` returns them. */
  function NewestFirstOrder(rs: seq<Row>): (out: seq<Row>)
    ensures NewestFirst(out)
    ensures multiset(out) == multiset(rs)
  {
    if rs == [] then []
    else
      assert rs == [rs[0]] + rs[1..];
      InsertByTime(rs[0], NewestFirstOrder(rs[1..]))
  }

  // ---------------------------------------------------------------------
  // The table
  // ---------------------------------------------------------------------

  /** No two rows share an id (the PRIMARY KEY). */
  predicate UniqueIds(rs: seq<Row>)
  {
    forall i, j :: 0 <= i < j < |rs| ==> rs[i].id != rs[j].id
  }

  function Ids(rs: seq<Row>): set<string>
  {
    set r | r in rs :: r.id
  }

  class Table {
    var rows: seq<Row>

    ghost predicate Valid()
      reads this
    {
      UniqueIds(rows)
    }

    /** `CREATE TABLE IF NOT EXISTS` on a fresh database file. */
    constructor ()
      ensures Valid() && rows == []
    {
      rows := [];
    }

    /**
     * POST /api/journal. A NULL text breaks NOT NULL, an existing id breaks
     * the PRIMARY KEY; either way the table is untouched and the route
     * answers 500. Otherwise exactly the requested row is added.
     */
    method Insert(req: InsertRequest) returns (reply: Reply)
      requires Valid()
      modifies this
      ensures Valid()
      ensures req.text.None? ==> reply == ServerError(NotNullTextMessage) && rows == old(rows)
      ensures req.text.Some? && req.id in Ids(old(rows)) ==> reply == ServerError(UniqueIdMessage) && rows == old(rows)
      ensures req.text.Some? && req.id !in Ids(old(rows)) ==>
                reply == Success && rows == old(rows) + [Row(req.id, req.text.value, req.timestamp, req.summary)]
    {
      if req.text.None? {
        return ServerError(NotNullTextMessage);
      }
      if req.id in Ids(rows) {
        return ServerError(UniqueIdMessage);
      }
      var row := Row(req.id, req.text.value, req.timestamp, req.summary);
      forall i | 0 <= i < |rows| ensures rows[i].id != req.id {
        assert rows[i] in rows;
      }
      rows := rows + [row];
      reply := Success;
    }

    /** GET /api/journal: every row, newest first. */
    method List() returns (out: seq<Row>)
      requires Valid()
      ensures NewestFirst(out)
      ensures multiset(out) == multiset(rows)
      ensures |out| == |rows|
    {
      out := NewestFirstOrder(rows);
      assert |out| == |multiset(out)| == |multiset(rows)| == |rows|;
    }

    /** DELETE /api/journal: removes every row, also from an empty table. */
    method DeleteAll() returns (reply: Reply)
      requires Valid()
      modifies this
      ensures Valid() && rows == [] && reply == Success
    {
      rows := [];
      reply := Success;
    }
  }
}
