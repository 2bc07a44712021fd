/**
 * The earlier application's transcription store (the same class ships in
 * both earlier copies of the application): a `transcriptions` table with an
 * AUTOINCREMENT id, the text, a timestamp, a duration and a mode, with add,
 * lookup, recent-N and delete.
 */
module Database {
  import opened Values
  import opened Tables

  /** A row as `fetchone()` returns it: `(id, text, timestamp, duration, mode)`; the duration is opaque. */
  datatype Row = Row(id: int, text: string, timestamp: string, duration: Value, mode: string)

  function RowId(r: Row): int
  {
    r.id
  }

  function RowTimestamp(r: Row): string
  {
    r.timestamp
  }

  class DatabaseManager {
    var rows: seq<Row>
    var nextId: int

    ghost predicate Valid()
      reads this
    {
      AutoIncrement(rows, RowId, nextId)
    }

    constructor ()
      ensures Valid() && rows == [] && nextId == 1
    {
      rows := [];
      nextId := 1;
    }

    /** `add_transcription(text, duration, mode)` at time `now`: one row inserted, its fresh id returned. */
    method Add(text: string, duration: Value, mode: string, now: string) returns (id: int)
      requires Valid()
      modifies this
      ensures Valid()
      ensures id == old(nextId) && nextId == old(nextId) + 1
      ensures rows == old(rows) + [Row(id, text, now, duration, mode)]
      ensures Get(id) == Some(Row(id, text, now, duration, mode))
      ensures forall k | k != id :: Get(k) == old(Get(k))
    {
      id := nextId;
      var row := Row(id, text, now, duration, mode);
      InsertAutoIncrement(rows, RowId, nextId, row);
      forall k | k != id ensures Lookup(rows + [row], RowId, k) == Lookup(rows, RowId, k) {
        LookupAppendOther(rows, RowId, row, k);
      }
      rows := rows + [row];
      nextId := nextId + 1;
    }

    /** `get_transcription(id)`: the row, or None. */
    function Get(id: int): (r: Option<Row>)
      reads this
      ensures r.Some? ==> r.value in rows && r.value.id == id
      ensures r.None? <==> forall i | 0 <= i < |rows| :: rows[i].id != id
    {
      Lookup(rows, RowId, id)
    }

    /** `get_recent_transcriptions(limit)`: at most `limit` rows, newest timestamp first. */
    function GetRecent(limit: int): (r: seq<Row>)
      reads this
      ensures 0 <= limit ==> |r| <= limit
      ensures |r| == if 0 <= limit < |rows| then limit else |rows|
      ensures multiset(r) <= multiset(rows)
      ensures SortedDesc(r, RowTimestamp)
      ensures NoneNewer(multiset(rows) - multiset(r), r, RowTimestamp)
    {
      RecentSpec(rows, RowTimestamp, limit);
      Recent(rows, RowTimestamp, limit)
    }

    /**
     * `delete_transcription(id)`: true exactly when a row with that id
     * existed; afterwards the id is gone and every other row is untouched.
     */
    method Delete(id: int) returns (deleted: bool)
      requires Valid()
      modifies this
      ensures Valid() && nextId == old(nextId)
      ensures deleted <==> old(Get(id)).Some?
      ensures rows == Remove(old(rows), RowId, id)
      ensures Get(id) == None
      ensures forall k | k != id :: Get(k) == old(Get(k))
    {
      var rowcount := Affected(rows, RowId, id);
      AffectedIffFound(rows, RowId, id);
      RemoveKeepsAutoIncrement(rows, RowId, nextId, id);
      RemoveGone(rows, RowId, id);
      forall k | k != id ensures Lookup(Remove(rows, RowId, id), RowId, k) == Lookup(rows, RowId, k) {
        RemoveKeepsOthers(rows, RowId, id, k);
      }
      rows := Remove(rows, RowId, id);
      deleted := rowcount > 0;
    }
  }

  /** Deleting the same id twice: the second delete reports nothing deleted. */
  method DeleteTwice(db: DatabaseManager, id: int) returns (first: bool, second: bool)
    requires db.Valid()
    modifies db
    ensures !second
    ensures db.Get(id) == None
  {
    first := db.Delete(id);
    second := db.Delete(id);
  }

  /** A delete never frees an id for reuse: the next add gets a fresh id, not the deleted one. */
  method DeleteThenAdd(db: DatabaseManager, id: int, text: string, duration: Value, mode: string, now: string)
    returns (newId: int)
    requires db.Valid() && db.Get(id).Some?
    modifies db
    ensures newId != id && newId > id
  {
    var deleted := db.Delete(id);
    newId := db.Add(text, duration, mode, now);
  }
}
