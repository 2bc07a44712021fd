/**
 * The rewritten application's microphone recorder: a recording flag, the
 * current file path, the open stream and WAV file, and the hand-off of a
 * finished recording's path to the 'transcription' queue.
 *
 * The audio device and the file system are abstract: a start can fail at
 * one of the steps the source takes (creating the directory, opening the
 * WAV file, opening the stream), and the timestamp is a parameter.
 */
module Recorder {
  import opened Values
  import opened EventBus

  datatype RecordingMode = PushToTalk | Toggle

  /** The first step of `start_recording` that raises, if any. */
  datatype StartStep = Completes | DirectoryFails | WaveOpenFails | StreamOpenFails

  /** `recordings/recording_<timestamp>.wav` */
  function RecordingPath(stamp: string): (p: string)
    ensures |p| == |stamp| + 25
    ensures p[..21] == "recordings/recording_" && p[|p| - 4..] == ".wav"
  {
    "recordings/recording_" + stamp + ".wav"
  }

  class Recorder {
    var recording: bool
    var filePath: Option<string>
    var streamOpen: bool
    var waveOpen: bool
    var mode: RecordingMode
    var terminated: bool
    var bus: Bus

    ghost predicate Valid()
      reads this, bus
    {
      bus.Valid() && (recording ==> filePath.Some?)
    }

    constructor (bus: Bus)
      requires bus.Valid()
      ensures Valid() && this.bus == bus
      ensures !recording && filePath == None && !streamOpen && !waveOpen && mode == Toggle && !terminated
    {
      recording := false;
      filePath := None;
      streamOpen := false;
      waveOpen := false;
      mode := Toggle;
      terminated := false;
      this.bus := bus;
    }

    /**
     * `start_recording(mode)`. Already recording: only a warning. Otherwise
     * the flag is set and the steps run in order; a failing step (or a
     * raising RECORDING_STARTED subscriber) is caught and clears the flag,
     * leaving whatever the earlier steps opened.
     */
    method StartRecording(newMode: RecordingMode, stamp: string, failAt: StartStep) returns (effects: seq<Effect>)
      requires Valid()
      modifies this
      ensures Valid() && bus == old(bus) && terminated == old(terminated)
      ensures old(recording) ==>
        effects == [] && recording && filePath == old(filePath) && streamOpen == old(streamOpen)
        && waveOpen == old(waveOpen) && mode == old(mode)
      ensures !old(recording) ==> mode == newMode
      ensures !old(recording) && failAt == Completes ==>
        && filePath == Some(RecordingPath(stamp)) && waveOpen && streamOpen
        && effects == [Publish(RecordingStarted, Str(RecordingPath(stamp)))]
        && recording == !Dispatch(bus.subscribers[RecordingStarted], Str(RecordingPath(stamp))).raised
      ensures !old(recording) && failAt != Completes ==> !recording && effects == []
      ensures !old(recording) && failAt == DirectoryFails ==>
        filePath == old(filePath) && waveOpen == old(waveOpen) && streamOpen == old(streamOpen)
      ensures !old(recording) && failAt == WaveOpenFails ==>
        filePath == Some(RecordingPath(stamp)) && waveOpen == old(waveOpen) && streamOpen == old(streamOpen)
      ensures !old(recording) && failAt == StreamOpenFails ==>
        filePath == Some(RecordingPath(stamp)) && waveOpen && streamOpen == old(streamOpen)
    {
      effects := [];
      if recording {
        return;
      }
      mode := newMode;
      recording := true;
      if failAt == DirectoryFails {
        recording := false;
        return;
      }
      var path := RecordingPath(stamp);
      filePath := Some(path);
      if failAt == WaveOpenFails {
        recording := false;
        return;
      }
      waveOpen := true;
      if failAt == StreamOpenFails {
        recording := false;
        return;
      }
      streamOpen := true;
      var calls, raised := bus.Publish(RecordingStarted, Str(path));
      effects := [Publish(RecordingStarted, Str(path))];
      if raised {
        recording := false;
      }
    }

    /**
     * `stop_recording()`. Not recording: None and nothing else. Otherwise
     * the flag is cleared, stream and WAV file are closed, the path is put
     * on the 'transcription' queue and then RECORDING_STOPPED is published;
     * the path is returned unless a step raised (a missing queue, a raising
     * subscriber), in which case the call returns None.
     */
    method StopRecording() returns (path: Option<string>, effects: seq<Effect>)
      requires Valid()
      modifies this, bus
      ensures Valid() && bus == old(bus) && bus.subscribers == old(bus.subscribers)
      ensures mode == old(mode) && filePath == old(filePath) && terminated == old(terminated)
      ensures !old(recording) ==>
        path == None && effects == [] && !recording && streamOpen == old(streamOpen)
        && waveOpen == old(waveOpen) && bus.queues == old(bus.queues)
      ensures old(recording) ==> !recording && !streamOpen && !waveOpen
      ensures old(recording) && "transcription" !in old(bus.queues) ==>
        path == None && effects == [] && bus.queues == old(bus.queues)
      ensures old(recording) && "transcription" in old(bus.queues) ==>
        var p := Str(old(filePath).value);
        && bus.queues == old(bus.queues)["transcription" := old(bus.queues["transcription"]).(items := old(bus.queues["transcription"]).items + [p])]
        && effects == [Put("transcription", p), Publish(RecordingStopped, p)]
        && path == if Dispatch(bus.subscribers[RecordingStopped], p).raised then None else old(filePath)
    {
      effects := [];
      path := None;
      if !recording {
        return;
      }
      recording := false;
      streamOpen := false;
      waveOpen := false;
      var p := Str(filePath.value);
      var ok := bus.Put("transcription", p);
      if !ok {
        return;
      }
      var calls, raised := bus.Publish(RecordingStopped, p);
      effects := [Put("transcription", p), Publish(RecordingStopped, p)];
      if !raised {
        path := filePath;
      }
    }

    /** `toggle_recording()`: stop when recording, otherwise start in toggle mode. */
    method ToggleRecording(stamp: string, failAt: StartStep) returns (path: Option<string>, effects: seq<Effect>)
      requires Valid()
      modifies this, bus
      ensures Valid() && bus == old(bus) && bus.subscribers == old(bus.subscribers)
      ensures old(recording) ==> !recording && filePath == old(filePath)
      ensures old(recording) && "transcription" in old(bus.queues) ==>
        var p := Str(old(filePath).value);
        && bus.queues == old(bus.queues)["transcription" := old(bus.queues["transcription"]).(items := old(bus.queues["transcription"]).items + [p])]
        && path == if Dispatch(bus.subscribers[RecordingStopped], p).raised then None else old(filePath)
      ensures !old(recording) ==> path == None && mode == Toggle && bus.queues == old(bus.queues)
      ensures !old(recording) && failAt == Completes && !Dispatch(bus.subscribers[RecordingStarted], Str(RecordingPath(stamp))).raised ==>
        recording && filePath == Some(RecordingPath(stamp))
      ensures !old(recording) && failAt != Completes ==> !recording
    {
      if recording {
        path, effects := StopRecording();
      } else {
        effects := StartRecording(Toggle, stamp, failAt);
        path := None;
      }
    }

    /**
     * `cleanup()`: an active recording is stopped (its path handed off)
     * before the audio system is terminated. Only the flag is checked, so
     * a stream or WAV file left open by a failed start stays open.
     */
    method Cleanup() returns (effects: seq<Effect>)
      requires Valid()
      modifies this, bus
      ensures Valid() && bus == old(bus) && bus.subscribers == old(bus.subscribers)
      ensures !recording && terminated
      ensures mode == old(mode) && filePath == old(filePath)
      ensures !old(recording) ==>
        effects == [] && bus.queues == old(bus.queues) && streamOpen == old(streamOpen) && waveOpen == old(waveOpen)
      ensures old(recording) ==> !streamOpen && !waveOpen
      ensures old(recording) && "transcription" !in old(bus.queues) ==> effects == [] && bus.queues == old(bus.queues)
      ensures old(recording) && "transcription" in old(bus.queues) ==>
        var p := Str(old(filePath).value);
        && bus.queues == old(bus.queues)["transcription" := old(bus.queues["transcription"]).(items := old(bus.queues["transcription"]).items + [p])]
        && effects == [Put("transcription", p), Publish(RecordingStopped, p)]
    {
      effects := [];
      if recording {
        var path;
        path, effects := StopRecording();
      }
      terminated := true;
    }
  }

  /**
   * A start that fails at the stream step clears the flag but leaves the
   * WAV file open; `cleanup()` checks only the flag, so the file is still
   * open after the audio system is terminated.
   */
  method FailedStartLeaksWave(r: Recorder, stamp: string)
    requires r.Valid() && !r.recording
    modifies r, r.bus
    ensures r.terminated && !r.recording && r.waveOpen
    ensures r.filePath == Some(RecordingPath(stamp))
  {
    var e1 := r.StartRecording(Toggle, stamp, StreamOpenFails);
    var e2 := r.Cleanup();
  }

  /**
   * Toggling twice from idle, with every step succeeding and no raising
   * subscriber, records one file and hands exactly its path to the
   * 'transcription' queue: start, then stop.
   */
  method ToggleTwice(r: Recorder, stamp: string) returns (path: Option<string>)
    requires r.Valid() && !r.recording && "transcription" in r.bus.queues
    requires NoneRaise(r.bus.subscribers[RecordingStarted]) && NoneRaise(r.bus.subscribers[RecordingStopped])
    modifies r, r.bus
    ensures path == Some(RecordingPath(stamp)) && !r.recording
    ensures "transcription" in r.bus.queues
    ensures r.bus.queues["transcription"].items == old(r.bus.queues["transcription"].items) + [Str(RecordingPath(stamp))]
  {
    DispatchReachesAll(r.bus.subscribers[RecordingStarted], Str(RecordingPath(stamp)));
    DispatchReachesAll(r.bus.subscribers[RecordingStopped], Str(RecordingPath(stamp)));
    var e1;
    path, e1 := r.ToggleRecording(stamp, Completes);
    var e2;
    path, e2 := r.ToggleRecording(stamp, Completes);
  }
}
