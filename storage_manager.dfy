/**
 * The rewritten application's transcription store: a `transcriptions` table
 * with an AUTOINCREMENT id, a text timestamp, the text, the segment list
 * (stored as JSON and read back unchanged) and the audio path. A successful
 * save announces TRANSCRIPTION_COMPLETED on the bus.
 */
module StorageManager {
  import opened Values
  import opened Tables
  import opened EventBus

  datatype Transcription = Transcription(id: int, timestamp: string, text: string, segments: seq<Value>, audioPath: Value)

  function IdOf(t: Transcription): int
  {
    t.id
  }

  function TimestampOf(t: Transcription): string
  {
    t.timestamp
  }

  /** What `save_transcription` does: returns an id, raises ValueError, or raises RuntimeError. */
  datatype SaveResult = Saved(id: int) | InvalidArgument(message: string) | SaveFailed

  /** The argument checks, in order; None when both pass. */
  function ArgumentError(text: Value, segments: Value): (e: Option<string>)
    ensures e.None? <==> text.Str? && text.s != "" && segments.List?
    ensures !(text.Str? && text.s != "") ==> e == Some("text must be a non-empty string")
  {
    if !(text.Str? && text.s != "") then Some("text must be a non-empty string")
    else if !segments.List? then Some("segments_metadata must be a list")
    else None
  }

  /** The event payload announcing a saved row. */
  function SavedPayload(id: int, timestamp: string, text: string): Value
  {
    Dict(map["id" := Int(id), "timestamp" := Str(timestamp), "text" := Str(text)])
  }

  /** The table's contents and the id the next insert receives (SQLite's `sqlite_sequence` plus one). */
  datatype Store = Store(rows: seq<Transcription>, nextId: int)

  datatype Saving = Saving(result: SaveResult, store: Store)

  /**
   * `save_transcription` on a table in state `st`, where `completed` are
   * the TRANSCRIPTION_COMPLETED subscribers: the checks, then the insert and
   * commit, then the publish whose exception turns into RuntimeError.
   * `dbOk` says whether the database step succeeds (connecting, encoding the
   * segments as JSON, binding the parameters, inserting and committing); a
   * failure there is a RuntimeError that leaves the table as it was.
   */
  function SaveSpec(st: Store, completed: seq<Handler>, text: Value, segments: Value, audioPath: Value, now: string, dbOk: bool): Saving
  {
    match ArgumentError(text, segments)
    case Some(e) => Saving(InvalidArgument(e), st)
    case None =>
      if !dbOk then Saving(SaveFailed, st)
      else
        var row := Transcription(st.nextId, now, text.s, segments.items, audioPath);
        var after := Store(st.rows + [row], st.nextId + 1);
        if Dispatch(completed, SavedPayload(st.nextId, now, text.s)).raised then Saving(SaveFailed, after)
        else Saving(Saved(st.nextId), after)
  }

  /** Invalid arguments are rejected before the table is touched. */
  lemma InvalidLeavesTable(st: Store, completed: seq<Handler>, text: Value, segments: Value, audioPath: Value, now: string, dbOk: bool)
    requires ArgumentError(text, segments).Some?
    ensures SaveSpec(st, completed, text, segments, audioPath, now, dbOk)
      == Saving(InvalidArgument(ArgumentError(text, segments).value), st)
  {
  }

  /**
   * Valid arguments either meet a database error, which raises RuntimeError
   * with the table unchanged, or insert exactly one row with the next id,
   * whether or not the publish raises; that row reads back by its id with
   * the text, segments and audio path given, every other id reads as
   * before, and a returned id is that fresh id.
   */
  lemma SaveRoundTrip(st: Store, completed: seq<Handler>, text: Value, segments: Value, audioPath: Value, now: string, dbOk: bool, other: int)
    requires AutoIncrement(st.rows, IdOf, st.nextId)
    requires ArgumentError(text, segments).None? && other != st.nextId
    ensures var out := SaveSpec(st, completed, text, segments, audioPath, now, dbOk);
      && (!dbOk ==> out == Saving(SaveFailed, st))
      && (dbOk ==>
            && AutoIncrement(out.store.rows, IdOf, out.store.nextId)
            && out.store.nextId == st.nextId + 1
            && |out.store.rows| == |st.rows| + 1
            && Lookup(out.store.rows, IdOf, st.nextId) == Some(Transcription(st.nextId, now, text.s, segments.items, audioPath))
            && Lookup(out.store.rows, IdOf, other) == Lookup(st.rows, IdOf, other)
            && (out.result.Saved? ==> out.result.id == st.nextId))
      && !out.result.InvalidArgument?
  {
    if dbOk {
      var row := Transcription(st.nextId, now, text.s, segments.items, audioPath);
      var out := SaveSpec(st, completed, text, segments, audioPath, now, dbOk);
      assert out.store == Store(st.rows + [row], st.nextId + 1);
      InsertAutoIncrement(st.rows, IdOf, st.nextId, row);
      LookupAppendOther(st.rows, IdOf, row, other);
    }
  }

  /** Appending a row leaves every other id's lookup as it was. */
  lemma AppendKeepsOthers(rows: seq<Transcription>, row: Transcription)
    ensures forall k | k != row.id :: Lookup(rows + [row], IdOf, k) == Lookup(rows, IdOf, k)
  {
    forall k | k != row.id ensures Lookup(rows + [row], IdOf, k) == Lookup(rows, IdOf, k) {
      LookupAppendOther(rows, IdOf, row, k);
    }
  }

  class Storage {
    var rows: seq<Transcription>
    var nextId: int
    var bus: Bus

    ghost predicate Valid()
      reads this, bus
    {
      bus.Valid() && AutoIncrement(rows, IdOf, nextId)
    }

    /** `StorageManager(db_path)` on a fresh database. */
    constructor (bus: Bus)
      requires bus.Valid()
      ensures Valid() && rows == [] && nextId == 1 && this.bus == bus
    {
      rows := [];
      nextId := 1;
      this.bus := bus;
    }

    /**
     * `save_transcription(text, segments_metadata, audio_path)` at time
     * `now`. Invalid arguments raise before the table is touched, and so
     * does a failing database step (`dbOk` false). Otherwise the row is
     * inserted and committed, then the event is published; if a subscriber
     * raises, the row stays but the call raises RuntimeError.
     */
    method Save(text: Value, segments: Value, audioPath: Value, now: string, dbOk: bool) returns (r: SaveResult)
      requires Valid()
      modifies this
      ensures Valid() && bus == old(bus)
      ensures Saving(r, Store(rows, nextId))
        == SaveSpec(Store(old(rows), old(nextId)), bus.subscribers[TranscriptionCompleted], text, segments, audioPath, now, dbOk)
      ensures ArgumentError(text, segments).None? && !dbOk ==> r == SaveFailed && rows == old(rows) && nextId == old(nextId)
      ensures ArgumentError(text, segments).None? && dbOk ==>
        && Get(old(nextId)) == Some(Transcription(old(nextId), now, text.s, segments.items, audioPath))
        && (forall k | k != old(nextId) :: Get(k) == old(Get(k)))
      ensures r.Saved? ==> r.id > 0
    {
      var error := ArgumentError(text, segments);
      if error.Some? {
        return InvalidArgument(error.value);
      }
      if !dbOk {
        return SaveFailed;
      }
      var id := nextId;
      Insert(Transcription(id, now, text.s, segments.items, audioPath));
      var calls, raised := bus.Publish(TranscriptionCompleted, SavedPayload(id, now, text.s));
      r := if raised then SaveFailed else Saved(id);
    }

    /** The INSERT and COMMIT: the row is appended under the next id, and every other id reads as before. */
    method Insert(row: Transcription)
      requires Valid() && row.id == nextId
      modifies this
      ensures Valid() && bus == old(bus)
      ensures rows == old(rows) + [row] && nextId == old(nextId) + 1
      ensures Get(row.id) == Some(row)
      ensures forall k | k != row.id :: Get(k) == old(Get(k))
    {
      InsertAutoIncrement(rows, IdOf, nextId, row);
      AppendKeepsOthers(rows, row);
      rows := rows + [row];
      nextId := nextId + 1;
    }

    /** `get_transcription(id)`: the row with that id, or None. */
    function Get(id: int): (r: Option<Transcription>)
      reads this
      ensures r.Some? ==> r.value in rows && r.value.id == id
      ensures r.None? <==> forall i | 0 <= i < |rows| :: rows[i].id != id
    {
      Lookup(rows, IdOf, id)
    }

    /**
     * `get_recent_transcriptions(limit)`: at most `limit` rows (all of them
     * for a negative limit), newest timestamp first, and no row left out is
     * newer than one returned.
     */
    function GetRecent(limit: int): (r: seq<Transcription>)
      reads this
      ensures 0 <= limit ==> |r| <= limit
      ensures |r| == if 0 <= limit < |rows| then limit else |rows|
      ensures multiset(r) <= multiset(rows)
      ensures SortedDesc(r, TimestampOf)
      ensures NoneNewer(multiset(rows) - multiset(r), r, TimestampOf)
    {
      RecentSpec(rows, TimestampOf, limit);
      Recent(rows, TimestampOf, limit)
    }
  }

  /** An id that was never handed out looks up as None. */
  lemma NeverSavedIsNone(s: Storage, id: int)
    requires s.Valid() && (id >= s.nextId || id < 1)
    ensures s.Get(id) == None
  {
    LookupNeverAssigned(s.rows, IdOf, s.nextId, id);
  }

  /** Two successful saves in a row return strictly increasing ids, and both rows read back. */
  method SaveTwice(s: Storage, text1: string, text2: string, now1: string, now2: string, dbOk1: bool, dbOk2: bool)
    returns (r1: SaveResult, r2: SaveResult)
    requires s.Valid() && text1 != "" && text2 != ""
    modifies s
    ensures r1.Saved? && r2.Saved? ==> r1.id < r2.id
    ensures !r1.InvalidArgument? && !r2.InvalidArgument?
    ensures r1.Saved? ==> s.Get(r1.id) == Some(Transcription(r1.id, now1, text1, [], Nil))
    ensures r2.Saved? ==> s.Get(r2.id) == Some(Transcription(r2.id, now2, text2, [], Nil))
  {
    r1 := s.Save(Str(text1), List([]), Nil, now1, dbOk1);
    r2 := s.Save(Str(text2), List([]), Nil, now2, dbOk2);
  }
}
