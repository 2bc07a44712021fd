/**
 * The transcription worker of the rewritten application: a poll loop that
 * takes audio references from the transcription queue, hands each to the
 * speech engine, folds the engine's segments into a result record, puts the
 * record on the result queue and announces it on the bus.
 *
 * The engine is an abstract function from an audio reference to a segment
 * list (with the detected language) or a failure. The two queues are value
 * sequences passed in and returned. Another process stopping the worker is
 * modelled by `stopAfter`: the number of top-of-loop checks that find the
 * stop event still clear.
 */
module TranscriberWorker {
  import opened Values
  import opened Text
  import opened EventBus

  /** One recognised segment; its id and timestamps are opaque. */
  datatype Segment = Segment(id: Value, start: Value, end: Value, text: string)

  /** What the engine returns for one file: the segments and the language information (opaque). */
  datatype Transcript = Transcript(segments: seq<Segment>, language: Value, probability: Value)

  datatype EngineOutcome = Transcribed(transcript: Transcript) | EngineFailed

  /** The speech engine: the outcome of transcribing one audio reference. */
  type Engine = Value -> EngineOutcome

  function Texts(segs: seq<Segment>): (ts: seq<string>)
  {
    seq(|segs|, i requires 0 <= i < |segs| => segs[i].text)
  }

  /** The per-segment record the worker stores in the result. */
  function SegmentRecord(s: Segment): Value
  {
    Dict(map["id" := s.id, "start" := s.start, "end" := s.end, "text" := Str(s.text)])
  }

  function SegmentRecords(segs: seq<Segment>): seq<Value>
  {
    seq(|segs|, i requires 0 <= i < |segs| => SegmentRecord(segs[i]))
  }

  /** The result record for one audio reference and its transcript. */
  function ResultOf(audioPath: Value, t: Transcript): Value
  {
    Dict(map[
      "audio_path" := audioPath,
      "text" := Str(Strip(SpacedConcat(Texts(t.segments)))),
      "segments" := List(SegmentRecords(t.segments)),
      "language" := t.language,
      "language_probability" := t.probability])
  }

  /**
   * The result names the file it came from, its text is the segment texts
   * joined by single spaces and stripped, and it holds one record per
   * segment, in engine order, copying id, start, end and text.
   */
  lemma ResultContents(audioPath: Value, t: Transcript)
    ensures var r := ResultOf(audioPath, t);
      && r.Dict?
      && r.entries.Keys == {"audio_path", "text", "segments", "language", "language_probability"}
      && r.entries["audio_path"] == audioPath
      && r.entries["text"] == Str(Strip(Join(" ", Texts(t.segments))))
      && r.entries["segments"].List?
      && |r.entries["segments"].items| == |t.segments|
      && (forall i | 0 <= i < |t.segments| ::
            r.entries["segments"].items[i]
            == Dict(map["id" := t.segments[i].id, "start" := t.segments[i].start,
                        "end" := t.segments[i].end, "text" := Str(t.segments[i].text)]))
  {
    SpacedConcatStripsLikeJoin(Texts(t.segments));
  }

  /**
   * The loop over the engine's segments: `text += segment.text + " "` and one
   * record appended per segment, then the result record.
   */
  method BuildResult(audioPath: Value, t: Transcript) returns (result: Value)
    ensures result == ResultOf(audioPath, t)
  {
    var segs := t.segments;
    var text := "";
    var segmentsData: seq<Value> := [];
    for i := 0 to |segs|
      invariant text == SpacedConcat(Texts(segs[..i]))
      invariant segmentsData == SegmentRecords(segs[..i])
    {
      assert Texts(segs[..i + 1]) == Texts(segs[..i]) + [segs[i].text];
      assert SegmentRecords(segs[..i + 1]) == SegmentRecords(segs[..i]) + [SegmentRecord(segs[i])];
      SpacedConcatSnoc(Texts(segs[..i]), segs[i].text);
      text := text + segs[i].text + " ";
      segmentsData := segmentsData + [SegmentRecord(segs[i])];
    }
    assert segs[..|segs|] == segs;
    result := Dict(map[
      "audio_path" := audioPath,
      "text" := Str(Strip(text)),
      "segments" := List(segmentsData),
      "language" := t.language,
      "language_probability" := t.probability]);
  }

  /** What handling dequeued items produced: results put, and the ordered effects. */
  datatype Outcome = Outcome(results: seq<Value>, effects: seq<Effect>)

  /**
   * The loop body for one dequeued item. None is skipped silently. Otherwise
   * TRANSCRIPTION_REQUESTED is published; if a subscriber raises or the engine
   * fails the exception is caught and the item yields nothing more. On success
   * the result is put on the result queue and then TRANSCRIPTION_COMPLETED is
   * published (a raise there is caught after the put).
   */
  function HandleJob(engine: Engine, requested: seq<Handler>, job: Value): Outcome
  {
    if job == Nil then Outcome([], [])
    else if Dispatch(requested, job).raised then Outcome([], [Publish(TranscriptionRequested, job)])
    else match engine(job)
      case EngineFailed => Outcome([], [Publish(TranscriptionRequested, job)])
      case Transcribed(t) =>
        var r := ResultOf(job, t);
        Outcome([r], [Publish(TranscriptionRequested, job), Put("result", r), Publish(TranscriptionCompleted, r)])
  }

  /** The items `jobs`, dequeued in order, handled one after the other. */
  function HandleAll(engine: Engine, requested: seq<Handler>, jobs: seq<Value>): Outcome
    decreases |jobs|
  {
    if jobs == [] then Outcome([], [])
    else
      var before := HandleAll(engine, requested, jobs[..|jobs| - 1]);
      var last := HandleJob(engine, requested, jobs[|jobs| - 1]);
      Outcome(before.results + last.results, before.effects + last.effects)
  }

  function Min(a: nat, b: nat): nat
  {
    if a <= b then a else b
  }

  /** How many iterations run: up to the stop check that finds the event set, capped by `max_loops`. */
  function Iterations(maxLoops: Option<nat>, stopSet: bool, stopAfter: nat): (n: nat)
  {
    if stopSet then 0
    else match maxLoops
      case None => stopAfter
      case Some(m) => Min(m, stopAfter)
  }

  lemma IterationsBounded(maxLoops: Option<nat>, stopSet: bool, stopAfter: nat)
    ensures Iterations(maxLoops, stopSet, stopAfter) <= stopAfter
    ensures maxLoops.Some? ==> Iterations(maxLoops, stopSet, stopAfter) <= maxLoops.value
    ensures stopSet ==> Iterations(maxLoops, stopSet, stopAfter) == 0
    ensures !stopSet && maxLoops.Some? && maxLoops.value <= stopAfter ==>
      Iterations(maxLoops, stopSet, stopAfter) == maxLoops.value
  {
  }

  /**
   * Every result is put right after its TRANSCRIPTION_REQUESTED and right
   * before its TRANSCRIPTION_COMPLETED, and names the audio reference that
   * was requested.
   */
  ghost predicate PutsAreBracketed(effects: seq<Effect>)
  {
    forall i | 0 <= i < |effects| && effects[i].Put? ::
      && 0 < i < |effects| - 1
      && effects[i].item.Dict? && "audio_path" in effects[i].item.entries
      && effects[i - 1] == Publish(TranscriptionRequested, effects[i].item.entries["audio_path"])
      && effects[i + 1] == Publish(TranscriptionCompleted, effects[i].item)
  }

  /** The three shapes one item's handling can take. */
  lemma HandleJobShape(engine: Engine, requested: seq<Handler>, job: Value)
    ensures var o := HandleJob(engine, requested, job);
      || (o.results == [] && o.effects == [])
      || (o.results == [] && o.effects == [Publish(TranscriptionRequested, job)])
      || (exists r: Value :: r.Dict? && "audio_path" in r.entries && r.entries["audio_path"] == job
            && o.results == [r]
            && o.effects == [Publish(TranscriptionRequested, job), Put("result", r), Publish(TranscriptionCompleted, r)])
  {
    if job != Nil && !Dispatch(requested, job).raised && engine(job).Transcribed? {
      var r := ResultOf(job, engine(job).transcript);
      assert r.entries["audio_path"] == job;
    }
  }

  /** Handling one more item appends its outcome. */
  lemma HandleAllSnoc(engine: Engine, requested: seq<Handler>, jobs: seq<Value>, k: nat)
    requires k < |jobs|
    ensures HandleAll(engine, requested, jobs[..k + 1])
      == Outcome(HandleAll(engine, requested, jobs[..k]).results + HandleJob(engine, requested, jobs[k]).results,
                 HandleAll(engine, requested, jobs[..k]).effects + HandleJob(engine, requested, jobs[k]).effects)
  {
    assert jobs[..k + 1][..k] == jobs[..k];
  }

  lemma {:induction false} HandleAllBracketsPuts(engine: Engine, requested: seq<Handler>, jobs: seq<Value>)
    ensures PutsAreBracketed(HandleAll(engine, requested, jobs).effects)
    ensures |HandleAll(engine, requested, jobs).results| <= |jobs|
    decreases |jobs|
  {
    if jobs != [] {
      var before := HandleAll(engine, requested, jobs[..|jobs| - 1]);
      var last := HandleJob(engine, requested, jobs[|jobs| - 1]);
      HandleAllBracketsPuts(engine, requested, jobs[..|jobs| - 1]);
      HandleJobShape(engine, requested, jobs[|jobs| - 1]);
      BracketedAppend(before.effects, last.effects, jobs[|jobs| - 1]);
    }
  }

  lemma BracketedAppend(before: seq<Effect>, last: seq<Effect>, job: Value)
    requires PutsAreBracketed(before)
    requires || last == []
             || last == [Publish(TranscriptionRequested, job)]
             || (exists r: Value :: r.Dict? && "audio_path" in r.entries && r.entries["audio_path"] == job
                   && last == [Publish(TranscriptionRequested, job), Put("result", r), Publish(TranscriptionCompleted, r)])
    ensures PutsAreBracketed(before + last)
  {
    var e := before + last;
    forall i | 0 <= i < |e| && e[i].Put?
      ensures 0 < i < |e| - 1
      ensures e[i].item.Dict? && "audio_path" in e[i].item.entries
      ensures e[i - 1] == Publish(TranscriptionRequested, e[i].item.entries["audio_path"])
      ensures e[i + 1] == Publish(TranscriptionCompleted, e[i].item)
    {
      if i < |before| {
        assert e[i] == before[i];
      } else {
        assert last[i - |before|] == e[i];
      }
    }
  }

  lemma HandleJobSucceeds(engine: Engine, requested: seq<Handler>, job: Value)
    requires NoneRaise(requested) && job != Nil && engine(job).Transcribed?
    ensures HandleJob(engine, requested, job).results == [ResultOf(job, engine(job).transcript)]
  {
    DispatchReachesAll(requested, job);
  }

  ghost predicate AllTranscribed(engine: Engine, jobs: seq<Value>)
  {
    forall i | 0 <= i < |jobs| :: jobs[i] != Nil && engine(jobs[i]).Transcribed?
  }

  /** One result per item, in order, each built from that item's transcript. */
  ghost function ExpectedResults(engine: Engine, jobs: seq<Value>): (rs: seq<Value>)
    requires AllTranscribed(engine, jobs)
    ensures |rs| == |jobs|
    decreases |jobs|
  {
    if jobs == [] then []
    else
      var k := |jobs| - 1;
      ExpectedResults(engine, jobs[..k]) + [ResultOf(jobs[k], engine(jobs[k]).transcript)]
  }

  /** The k-th expected result names the k-th item: results come out in dequeue order. */
  lemma {:induction false} ExpectedResultsInOrder(engine: Engine, jobs: seq<Value>, i: nat)
    requires AllTranscribed(engine, jobs) && i < |jobs|
    ensures ExpectedResults(engine, jobs)[i] == ResultOf(jobs[i], engine(jobs[i]).transcript)
    decreases |jobs|
  {
    var k := |jobs| - 1;
    if i < k {
      ExpectedResultsInOrder(engine, jobs[..k], i);
    }
  }

  /**
   * When no TRANSCRIPTION_REQUESTED subscriber raises, no item is None and
   * the engine succeeds on every item, there is exactly one result per
   * dequeued item, in dequeue order.
   */
  lemma {:induction false} AllSucceedOneResultEach(engine: Engine, requested: seq<Handler>, jobs: seq<Value>)
    requires NoneRaise(requested) && AllTranscribed(engine, jobs)
    ensures HandleAll(engine, requested, jobs).results == ExpectedResults(engine, jobs)
    decreases |jobs|
  {
    if jobs != [] {
      var k := |jobs| - 1;
      var init := jobs[..k];
      assert forall i | 0 <= i < |init| :: init[i] == jobs[i];
      AllSucceedOneResultEach(engine, requested, init);
      HandleJobSucceeds(engine, requested, jobs[k]);
      HandleAllSnoc(engine, requested, jobs, k);
      assert jobs[..k + 1] == jobs;
    }
  }

  /** A None item, or an empty queue, changes nothing but the iteration count. */
  lemma NoneIsSkipped(engine: Engine, requested: seq<Handler>)
    ensures HandleJob(engine, requested, Nil) == Outcome([], [])
  {
  }

  /** An engine failure is caught: the item was announced but yields no result. */
  lemma FailureYieldsNoResult(engine: Engine, requested: seq<Handler>, job: Value)
    requires job != Nil && engine(job) == EngineFailed
    ensures HandleJob(engine, requested, job).results == []
    ensures HandleJob(engine, requested, job).effects == [Publish(TranscriptionRequested, job)]
  {
  }

  class Worker {
    var maxLoops: Option<nat>
    var stopSet: bool
    var bus: Bus

    constructor (maxLoops: Option<nat>, bus: Bus)
      ensures this.maxLoops == maxLoops && this.bus == bus && !stopSet
    {
      this.maxLoops := maxLoops;
      this.bus := bus;
      stopSet := false;
    }

    /** `stop()`: sets the stop event. */
    method Stop()
      modifies this
      ensures stopSet && maxLoops == old(maxLoops) && bus == old(bus)
    {
      stopSet := true;
    }

    /** `shutdown()`: sets the stop event (joining and terminating the process is not modelled). */
    method Shutdown()
      modifies this
      ensures stopSet && maxLoops == old(maxLoops) && bus == old(bus)
    {
      stopSet := true;
    }

    /**
     * `run()`. `modelLoads` is whether constructing the engine succeeded;
     * `jobs` and `results` are the contents of the transcription and result
     * queues, returned as they are afterwards.
     */
    method Run(modelLoads: bool, engine: Engine, stopAfter: nat, jobs: seq<Value>, results: seq<Value>)
      returns (jobsLeft: seq<Value>, resultsOut: seq<Value>, effects: seq<Effect>, loops: nat)
      requires bus.Valid()
      ensures !modelLoads ==> jobsLeft == jobs && resultsOut == results && effects == [] && loops == 0
      ensures modelLoads ==> loops == Iterations(maxLoops, stopSet, stopAfter)
      ensures modelLoads ==>
        var taken := Min(loops, |jobs|);
        && jobsLeft == jobs[taken..]
        && resultsOut == results + HandleAll(engine, bus.subscribers[TranscriptionRequested], jobs[..taken]).results
        && effects == HandleAll(engine, bus.subscribers[TranscriptionRequested], jobs[..taken]).effects
    {
      jobsLeft, resultsOut, effects, loops := jobs, results, [], 0;
      if !modelLoads {
        return;
      }
      ghost var requested := bus.subscribers[TranscriptionRequested];
      ghost var n := Iterations(maxLoops, stopSet, stopAfter);
      ghost var taken := 0;
      while !(stopSet || loops >= stopAfter)
        invariant loops <= n && taken == Min(loops, |jobs|)
        invariant jobsLeft == jobs[taken..]
        invariant resultsOut == results + HandleAll(engine, requested, jobs[..taken]).results
        invariant effects == HandleAll(engine, requested, jobs[..taken]).effects
        decreases stopAfter - loops
      {
        if maxLoops.Some? && loops >= maxLoops.value {
          break;
        }
        loops := loops + 1;
        if jobsLeft != [] {
          var job := jobsLeft[0];
          assert job == jobs[taken];
          HandleAllSnoc(engine, requested, jobs, taken);
          jobsLeft := jobsLeft[1..];
          var out := HandleOne(engine, job);
          resultsOut := resultsOut + out.results;
          effects := effects + out.effects;
          taken := taken + 1;
        }
      }
    }

    /** The body of the loop for one dequeued item (the exception handler included). */
    method HandleOne(engine: Engine, job: Value) returns (out: Outcome)
      requires bus.Valid()
      ensures out == HandleJob(engine, bus.subscribers[TranscriptionRequested], job)
    {
      if job == Nil {
        return Outcome([], []);
      }
      var calls, raised := bus.Publish(TranscriptionRequested, job);
      if raised {
        return Outcome([], [Publish(TranscriptionRequested, job)]);
      }
      var outcome := engine(job);
      if outcome.EngineFailed? {
        return Outcome([], [Publish(TranscriptionRequested, job)]);
      }
      var result := BuildResult(job, outcome.transcript);
      var doneCalls, doneRaised := bus.Publish(TranscriptionCompleted, result);
      out := Outcome([result], [Publish(TranscriptionRequested, job), Put("result", result), Publish(TranscriptionCompleted, result)]);
    }
  }

  /**
   * With `max_loops=1` and a non-empty queue the worker takes exactly the
   * first item and leaves the rest queued.
   */
  method RunOnce(w: Worker, engine: Engine, stopAfter: nat, jobs: seq<Value>)
    returns (jobsLeft: seq<Value>, results: seq<Value>)
    requires w.bus.Valid() && w.maxLoops == Some(1) && !w.stopSet && stopAfter >= 1 && jobs != []
    ensures jobsLeft == jobs[1..]
    ensures results == HandleJob(engine, w.bus.subscribers[TranscriptionRequested], jobs[0]).results
  {
    var effects, loops;
    jobsLeft, results, effects, loops := w.Run(true, engine, stopAfter, jobs, []);
    assert jobs[..1][..0] == [];
  }
}
