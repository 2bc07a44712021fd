/**
 * The first rewrite's transcription manager: an asyncio queue of audio byte
 * strings terminated by a None sentinel, a processing flag, the last
 * transcription, a database that receives one row per transcription and an
 * optional callback that receives each text or error message.
 */
module Transcription {
  import opened Values
  import opened Text
  import opened EventBus
  import Database

  /** A queue entry: audio bytes, or the None that `stop_processing` enqueues. */
  datatype Job = Audio(data: seq<byte>) | Sentinel

  /** What the Whisper model returns for one buffer: segment texts and `info.duration` (0.0 when absent), or the exception's message. */
  datatype EngineResult = Segments(texts: seq<string>, duration: Value) | Failure(message: string)

  type Engine = seq<byte> -> EngineResult

  /** The mode stored with every row. */
  const Mode := "faster-whisper"

  /** What the callback receives when the model raises. */
  const FailurePrefix := "Error: Transcription failed - "

  /** `" ".join(segment.text for segment in segments).strip()` */
  function TextOf(texts: seq<string>): (text: string)
  {
    Strip(Join(" ", texts))
  }

  /** The text is the one the later worker builds from the same segments (each text plus a space, concatenated, stripped). */
  lemma SameTextAsWorker(texts: seq<string>)
    ensures TextOf(texts) == Strip(SpacedConcat(texts))
  {
    SpacedConcatStripsLikeJoin(texts);
  }

  /** The text never starts or ends with whitespace. */
  lemma TextTrimmed(texts: seq<string>)
    ensures var t := TextOf(texts); t == [] || (!IsSpace(t[0]) && !IsSpace(t[|t| - 1]))
  {
    StripSpec(Join(" ", texts));
  }

  /**
   * One dequeued audio job: the row it adds, the effects in order, and the
   * new last transcription.
   */
  datatype Handled = Handled(rows: seq<Database.Row>, effects: seq<Effect>, last: Option<string>)

  /**
   * The body of the processing loop for one audio job. Bytes whose length is odd cannot be read as 16-bit samples; that error
   * is caught by the outer handler and nothing happens. A model failure
   * hands the error message to the callback. A success records the text as
   * the last transcription, adds a row with mode "faster-whisper" and then
   * hands the text to the callback.
   */
  function HandleJob(engine: Engine, nextId: int, now: string, hasCallback: bool, data: seq<byte>): (h: Handled)
    ensures |h.rows| == Adds(engine, data)
  {
    if |data| % 2 != 0 then Handled([], [], None)
    else
      var r := engine(data);
      if r.Failure? then
        Handled([], if hasCallback then [Callback(FailurePrefix + r.message)] else [], None)
      else
        var text := TextOf(r.texts);
        Handled([Database.Row(nextId, text, now, r.duration, Mode)],
                [Insert(nextId)] + (if hasCallback then [Callback(text)] else []), Some(text))
  }

  /** How many rows one audio job adds: one when the bytes convert and the model returns segments. */
  function Adds(engine: Engine, data: seq<byte>): (n: nat)
    ensures n <= 1
  {
    if |data| % 2 == 0 && engine(data).Segments? then 1 else 0
  }

  /** The later of two readings of the last transcription. */
  function Later(later: Option<string>, earlier: Option<string>): Option<string>
  {
    if later.Some? then later else earlier
  }

  /** How many queue entries a run of the loop took, the rows it added, the effects, and the last transcription it set. */
  datatype Processed = Processed(taken: nat, rows: seq<Database.Row>, effects: seq<Effect>, last: Option<string>)

  /** The loop over `items` with the flag set: every job in order until the sentinel (taken too) or the end of the queue. */
  function RunSpec(engine: Engine, nextId: int, now: string, hasCallback: bool, items: seq<Job>): (p: Processed)
    ensures p.taken <= |items|
    decreases |items|
  {
    if items == [] then Processed(0, [], [], None)
    else
      if items[0].Sentinel? then Processed(1, [], [], None)
      else
        var h := HandleJob(engine, nextId, now, hasCallback, items[0].data);
        var rest := RunSpec(engine, nextId + Adds(engine, items[0].data), now, hasCallback, items[1..]);
        Processed(1 + rest.taken, h.rows + rest.rows, h.effects + rest.effects, Later(rest.last, h.last))
  }

  /** A run resumed after `done`: counts and lists add up, and the later last transcription wins. */
  function Resume(done: Processed, rest: Processed): (p: Processed)
  {
    Processed(done.taken + rest.taken, done.rows + rest.rows, done.effects + rest.effects, Later(rest.last, done.last))
  }

  /** Resuming a run before an audio job is resuming it after that job's row, effects and transcription. */
  lemma RunStep(engine: Engine, nextId: int, now: string, hasCallback: bool, items: seq<Job>, progress: Processed)
    requires items != [] && items[0].Audio?
    ensures var h := HandleJob(engine, nextId, now, hasCallback, items[0].data);
      Resume(progress, RunSpec(engine, nextId, now, hasCallback, items))
      == Resume(Processed(progress.taken + 1, progress.rows + h.rows, progress.effects + h.effects, Later(h.last, progress.last)),
                RunSpec(engine, nextId + Adds(engine, items[0].data), now, hasCallback, items[1..]))
  {
    var h := HandleJob(engine, nextId, now, hasCallback, items[0].data);
    var rest := RunSpec(engine, nextId + Adds(engine, items[0].data), now, hasCallback, items[1..]);
    AppendAssoc(progress.rows, h.rows, rest.rows);
    AppendAssoc(progress.effects, h.effects, rest.effects);
  }

  /** A run that has nothing left to do has done exactly what the whole run does. */
  lemma ResumeFinished(last: Option<string>, whole: Processed, done: Processed)
    requires Resume(Processed(0, [], [], last), whole) == Resume(done, Processed(0, [], [], None))
    ensures whole.taken == done.taken && whole.rows == done.rows && whole.effects == done.effects
    ensures Later(whole.last, last) == done.last
  {
    assert [] + whole.rows == whole.rows && done.rows + [] == done.rows;
    assert [] + whole.effects == whole.effects && done.effects + [] == done.effects;
  }

  /**
   * The loop takes every queued audio job; a sentinel behind them is taken
   * too (`task_done` runs once for it as well) and ends the run, and
   * whatever is queued after the sentinel is never looked at.
   */
  lemma {:induction false} RunStopsAtSentinel(engine: Engine, nextId: int, now: string, hasCallback: bool,
                                              jobs: seq<Job>, later: seq<Job>)
    requires forall i | 0 <= i < |jobs| :: jobs[i].Audio?
    ensures var p := RunSpec(engine, nextId, now, hasCallback, jobs);
      && p.taken == |jobs|
      && RunSpec(engine, nextId, now, hasCallback, jobs + [Sentinel] + later) == Processed(p.taken + 1, p.rows, p.effects, p.last)
    decreases |jobs|
  {
    if jobs == [] {
      assert (jobs + [Sentinel] + later)[0] == Sentinel;
    } else {
      assert (jobs + [Sentinel] + later)[1..] == jobs[1..] + [Sentinel] + later;
      RunStopsAtSentinel(engine, nextId + Adds(engine, jobs[0].data), now, hasCallback, jobs[1..], later);
    }
  }

  /**
   * With a callback set, every row insert is immediately followed by the
   * callback, so the text is stored before the callback sees it.
   */
  ghost predicate InsertsThenNotifies(effects: seq<Effect>)
  {
    forall i | 0 <= i < |effects| && effects[i].Insert? :: i + 1 < |effects| && effects[i + 1].Callback?
  }

  lemma {:induction false} RunInsertsThenNotifies(engine: Engine, nextId: int, now: string, items: seq<Job>)
    ensures InsertsThenNotifies(RunSpec(engine, nextId, now, true, items).effects)
    decreases |items|
  {
    if items != [] {
      if items[0].Audio? {
        var h := HandleJob(engine, nextId, now, true, items[0].data);
        RunInsertsThenNotifies(engine, nextId + Adds(engine, items[0].data), now, items[1..]);
        var rest := RunSpec(engine, nextId + Adds(engine, items[0].data), now, true, items[1..]);
        var e := h.effects + rest.effects;
        forall i | 0 <= i < |e| && e[i].Insert? ensures i + 1 < |e| && e[i + 1].Callback? {
          if i >= |h.effects| {
            assert e[i] == rest.effects[i - |h.effects|];
            assert e[i + 1] == rest.effects[i + 1 - |h.effects|];
          }
        }
      }
    }
  }

  /** A model failure stores nothing and keeps the last transcription; the callback gets the prefixed message. */
  lemma FailureKeepsLast(engine: Engine, nextId: int, now: string, data: seq<byte>, previous: Option<string>)
    requires |data| % 2 == 0 && engine(data).Failure?
    ensures var h := HandleJob(engine, nextId, now, true, data);
      && h.rows == [] && h.last == None && Later(h.last, previous) == previous
      && h.effects == [Callback(FailurePrefix + engine(data).message)]
  {
  }

  class TranscriptionManager {
    var queue: seq<Job>
    var isProcessing: bool
    var lastTranscription: Option<string>
    /** How many times `task_done()` ran. */
    var tasksDone: nat
    /** Whether `on_transcription_callback` is set. */
    var hasCallback: bool
    var db: Database.DatabaseManager

    ghost predicate Valid()
      reads this, db
    {
      db.Valid()
    }

    /** `TranscriptionManager(db_manager=db)` once the model has loaded. */
    constructor (db: Database.DatabaseManager, hasCallback: bool)
      requires db.Valid()
      ensures Valid() && this.db == db && this.hasCallback == hasCallback
      ensures queue == [] && !isProcessing && lastTranscription == None && tasksDone == 0
    {
      this.db := db;
      this.hasCallback := hasCallback;
      queue := [];
      isProcessing := false;
      lastTranscription := None;
      tasksDone := 0;
    }

    /** `add_audio(data)`: enqueues at the tail. */
    method AddAudio(data: seq<byte>)
      modifies this
      ensures queue == old(queue) + [Audio(data)]
      ensures isProcessing == old(isProcessing) && lastTranscription == old(lastTranscription)
      ensures tasksDone == old(tasksDone) && hasCallback == old(hasCallback) && db == old(db)
    {
      queue := queue + [Audio(data)];
    }

    /** `stop_processing()`: clears the flag, then enqueues the sentinel. */
    method StopProcessing()
      modifies this
      ensures !isProcessing && queue == old(queue) + [Sentinel]
      ensures lastTranscription == old(lastTranscription) && tasksDone == old(tasksDone)
      ensures hasCallback == old(hasCallback) && db == old(db)
    {
      isProcessing := false;
      queue := queue + [Sentinel];
    }

    /** `get_transcription()`: the last transcription, or "" before the first one. */
    function GetTranscription(): (r: string)
      reads this
      ensures lastTranscription == None ==> r == ""
      ensures lastTranscription.Some? ==> r == lastTranscription.value
    {
      if lastTranscription.Some? then lastTranscription.value else ""
    }

    /** `start_processing()`: sets the flag and runs the loop. */
    method StartProcessing(engine: Engine, now: string) returns (effects: seq<Effect>)
      requires Valid()
      modifies this, db
      ensures Valid() && isProcessing && db == old(db) && hasCallback == old(hasCallback)
      ensures Ran(RunSpec(engine, old(db.nextId), now, hasCallback, old(queue)),
                  old(queue), old(tasksDone), old(lastTranscription), old(db.rows), old(db.nextId), effects)
    {
      isProcessing := true;
      effects := Drain(engine, now);
    }

    /**
     * The state after a run `p` of the loop that began with queue `queue0`,
     * `tasksDone0` acknowledgements, last transcription `last0` and table
     * `rows0`/`nextId0`, and whose effects were `effects`.
     */
    ghost predicate Ran(p: Processed, queue0: seq<Job>, tasksDone0: nat, last0: Option<string>,
                        rows0: seq<Database.Row>, nextId0: int, effects: seq<Effect>)
      reads this, db
    {
      && p.taken <= |queue0|
      && queue == queue0[p.taken..]
      && tasksDone == tasksDone0 + p.taken
      && effects == p.effects
      && lastTranscription == Later(p.last, last0)
      && db.rows == rows0 + p.rows
      && db.nextId == nextId0 + |p.rows|
    }

    /**
     * The `while self._is_processing` loop. It takes jobs until the flag
     * reads false at the top of an iteration, the sentinel breaks out, or
     * the queue is empty (where the real loop waits in `get()`). With
     * `waiting` the loop resumes inside that `get()`, so the first job is
     * taken before the flag is looked at.
     */
    method Loop(engine: Engine, now: string, waiting: bool) returns (effects: seq<Effect>)
      requires Valid()
      modifies this, db
      ensures Valid() && isProcessing == old(isProcessing) && db == old(db) && hasCallback == old(hasCallback)
      ensures old(isProcessing) ==>
        Ran(RunSpec(engine, old(db.nextId), now, hasCallback, old(queue)),
            old(queue), old(tasksDone), old(lastTranscription), old(db.rows), old(db.nextId), effects)
      ensures !old(isProcessing) && waiting && old(queue) != [] ==>
        Ran(RunSpec(engine, old(db.nextId), now, hasCallback, old(queue)[..1]),
            old(queue), old(tasksDone), old(lastTranscription), old(db.rows), old(db.nextId), effects)
      ensures !old(isProcessing) && !(waiting && old(queue) != []) ==>
        Ran(Processed(0, [], [], None), old(queue), old(tasksDone), old(lastTranscription), old(db.rows), old(db.nextId), effects)
    {
      if isProcessing {
        effects := Drain(engine, now);
      } else if waiting && queue != [] {
        effects := ResumeGet(engine, now);
      } else {
        effects := [];
        assert old(queue)[0..] == queue && old(db.rows) + [] == db.rows;
      }
    }

    /** The loop resumed inside `get()` with the flag cleared: exactly the next job is taken. */
    method ResumeGet(engine: Engine, now: string) returns (effects: seq<Effect>)
      requires Valid() && queue != []
      modifies this, db
      ensures Valid() && isProcessing == old(isProcessing) && db == old(db) && hasCallback == old(hasCallback)
      ensures Ran(RunSpec(engine, old(db.nextId), now, hasCallback, old(queue)[..1]),
                  old(queue), old(tasksDone), old(lastTranscription), old(db.rows), old(db.nextId), effects)
    {
      var job := queue[0];
      assert queue[..1] == [job] && [job][1..] == [];
      queue := queue[1..];
      tasksDone := tasksDone + 1;
      if job.Sentinel? {
        effects := [];
        assert old(db.rows) + [] == db.rows;
        return;
      }
      var h := Handle(engine, job, now);
      effects := h.effects;
      assert h.rows + [] == h.rows && h.effects + [] == h.effects;
    }

    /** The loop with the flag set: jobs are taken until the sentinel or until the queue is empty. */
    method Drain(engine: Engine, now: string) returns (effects: seq<Effect>)
      requires Valid() && isProcessing
      modifies this, db
      ensures Valid() && isProcessing && db == old(db) && hasCallback == old(hasCallback)
      ensures Ran(RunSpec(engine, old(db.nextId), now, hasCallback, old(queue)),
                  old(queue), old(tasksDone), old(lastTranscription), old(db.rows), old(db.nextId), effects)
    {
      ghost var items := queue;
      ghost var whole := RunSpec(engine, db.nextId, now, hasCallback, items);
      ghost var taken := 0;
      ghost var added: seq<Database.Row> := [];
      effects := [];
      while queue != []
        invariant Valid() && isProcessing && db == old(db) && hasCallback == old(hasCallback)
        invariant taken <= |items| && queue == items[taken..]
        invariant tasksDone == old(tasksDone) + taken
        invariant db.nextId == old(db.nextId) + |added|
        invariant db.rows == old(db.rows) + added
        invariant Resume(Processed(0, [], [], old(lastTranscription)), whole)
               == Resume(Processed(taken, added, effects, lastTranscription), RunSpec(engine, db.nextId, now, hasCallback, items[taken..]))
        decreases |queue|
      {
        var stop, stepEffects, stepRows := TakeJob(engine, now, items[taken..], Processed(taken, added, effects, lastTranscription));
        taken := taken + 1;
        if stop {
          ResumeFinished(old(lastTranscription), whole, Processed(taken, added, effects, lastTranscription));
          return;
        }
        assert items[taken - 1..][1..] == items[taken..];
        AppendAssoc(old(db.rows), added, stepRows);
        effects := effects + stepEffects;
        added := added + stepRows;
      }
      ResumeFinished(old(lastTranscription), whole, Processed(taken, added, effects, lastTranscription));
    }

    /**
     * Takes the oldest job and runs the loop body on it: one step of
     * `RunSpec` over `items`, which the queue starts with, resumed from
     * `progress`.
     */
    method TakeJob(engine: Engine, now: string, ghost items: seq<Job>, ghost progress: Processed)
      returns (stop: bool, effects: seq<Effect>, ghost rows: seq<Database.Row>)
      requires Valid() && queue != [] && items != [] && items[0] == queue[0] && progress.last == lastTranscription
      modifies this, db
      ensures Valid() && db == old(db) && hasCallback == old(hasCallback) && isProcessing == old(isProcessing)
      ensures queue == old(queue)[1..] && tasksDone == old(tasksDone) + 1
      ensures db.nextId == old(db.nextId) + |rows|
      ensures db.rows == old(db.rows) + rows
      ensures stop ==> rows == [] && effects == [] && db.rows == old(db.rows)
      ensures stop ==>
                Resume(progress, RunSpec(engine, old(db.nextId), now, hasCallback, items))
                == Resume(Processed(progress.taken + 1, progress.rows, progress.effects, lastTranscription),
                          Processed(0, [], [], None))
      ensures !stop ==>
                Resume(progress, RunSpec(engine, old(db.nextId), now, hasCallback, items))
                == Resume(Processed(progress.taken + 1, progress.rows + rows, progress.effects + effects, lastTranscription),
                          RunSpec(engine, db.nextId, now, hasCallback, items[1..]))
    {
      var job := queue[0];
      queue := queue[1..];
      tasksDone := tasksDone + 1;
      if job.Sentinel? {
        assert progress.rows + [] == progress.rows && progress.effects + [] == progress.effects;
        return true, [], [];
      }
      RunStep(engine, db.nextId, now, hasCallback, items, progress);
      var h := Handle(engine, job, now);
      stop, effects, rows := false, h.effects, h.rows;
    }

    /** The try-block for one audio job: convert, transcribe, store, notify. */
    method Handle(engine: Engine, job: Job, now: string) returns (h: Handled)
      requires Valid() && job.Audio?
      modifies this, db
      ensures Valid() && db == old(db) && hasCallback == old(hasCallback) && isProcessing == old(isProcessing)
      ensures queue == old(queue) && tasksDone == old(tasksDone)
      ensures h == HandleJob(engine, old(db.nextId), now, hasCallback, job.data)
      ensures lastTranscription == Later(h.last, old(lastTranscription))
      ensures db.nextId == old(db.nextId) + |h.rows|
      ensures db.rows == old(db.rows) + h.rows
    {
      if |job.data| % 2 != 0 {
        return Handled([], [], None);
      }
      var outcome := engine(job.data);
      if outcome.Failure? {
        h := Handled([], if hasCallback then [Callback(FailurePrefix + outcome.message)] else [], None);
        return;
      }
      var text := TextOf(outcome.texts);
      lastTranscription := Some(text);
      var id := db.Add(text, outcome.duration, Mode, now);
      h := Handled([Database.Row(id, text, now, outcome.duration, Mode)], [Insert(id)] + (if hasCallback then [Callback(text)] else []), Some(text));
    }
  }

  /**
   * `stop_processing()` while the loop is busy with a job: at the next
   * top-of-loop check the flag reads false and the loop ends, leaving the
   * jobs still queued and the sentinel behind them untouched.
   */
  method StopWhileBusy(m: TranscriptionManager, engine: Engine, now: string) returns (effects: seq<Effect>)
    requires m.Valid()
    modifies m, m.db
    ensures m.queue == old(m.queue) + [Sentinel] && !m.isProcessing
    ensures m.tasksDone == old(m.tasksDone) && m.lastTranscription == old(m.lastTranscription) && effects == []
  {
    m.StopProcessing();
    effects := m.Loop(engine, now, false);
  }

  /** `stop_processing()` while the loop waits in `get()` on an empty queue: the sentinel is taken and the loop ends. */
  method StopWhileWaiting(m: TranscriptionManager, engine: Engine, now: string) returns (effects: seq<Effect>)
    requires m.Valid() && m.queue == []
    modifies m, m.db
    ensures m.queue == [] && !m.isProcessing && m.tasksDone == old(m.tasksDone) + 1 && effects == []
  {
    m.StopProcessing();
    effects := m.Loop(engine, now, true);
  }
}
