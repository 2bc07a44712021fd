/**
 * The capture buffer of the first rewrite (`AudioManager`, identical in
 * both desktop copies): a recording flag, a list of chunks filled by the
 * stream callback or by `add_chunk`, and an optional per-chunk listener.
 */
module Audio {
  import opened Values

  /**
   * One captured chunk. The duration (`frame_count / sample_rate`, a float)
   * is kept as its two integer operands; the timestamp is an opaque clock reading.
   */
  datatype AudioChunk = AudioChunk(data: seq<byte>, timestamp: string, frames: nat, sampleRate: nat)

  /** The PyAudio input stream: none, running, or stopped and closed but still referenced. */
  datatype Stream = NoStream | Running | Closed

  /** `b''.join(chunk.data for chunk in chunks)` */
  function JoinChunks(chunks: seq<AudioChunk>): (r: seq<byte>)
    ensures chunks == [] ==> r == []
  {
    if chunks == [] then [] else JoinChunks(chunks[..|chunks| - 1]) + chunks[|chunks| - 1].data
  }

  /** Joining distributes over concatenation of chunk lists: the bytes come out in arrival order. */
  lemma {:induction false} JoinChunksAppend(a: seq<AudioChunk>, b: seq<AudioChunk>)
    ensures JoinChunks(a + b) == JoinChunks(a) + JoinChunks(b)
    decreases |b|
  {
    if b == [] {
      assert a + b == a;
    } else {
      var last := b[|b| - 1];
      assert (a + b)[..|a + b| - 1] == a + b[..|b| - 1];
      JoinChunksAppend(a, b[..|b| - 1]);
      assert JoinChunks(a + b) == JoinChunks(a + b[..|b| - 1]) + last.data;
    }
  }

  /** The joined audio is exactly as long as all chunks together. */
  function TotalLength(chunks: seq<AudioChunk>): nat
  {
    if chunks == [] then 0 else TotalLength(chunks[..|chunks| - 1]) + |chunks[|chunks| - 1].data|
  }

  lemma {:induction false} JoinChunksLength(chunks: seq<AudioChunk>)
    ensures |JoinChunks(chunks)| == TotalLength(chunks)
    decreases |chunks|
  {
    if chunks != [] {
      JoinChunksLength(chunks[..|chunks| - 1]);
    }
  }

  class AudioManager {
    var recording: bool
    var stream: Stream
    var chunks: seq<AudioChunk>
    /** Whether `on_chunk_callback` is set. */
    var hasListener: bool
    /** Every chunk handed to `on_chunk_callback`, in call order. */
    var delivered: seq<AudioChunk>
    var terminated: bool

    /** `AudioManager()`: idle, no stream, empty buffer, no listener. */
    constructor ()
      ensures !recording && stream == NoStream && chunks == [] && !hasListener && delivered == [] && !terminated
    {
      recording := false;
      stream := NoStream;
      chunks := [];
      hasListener := false;
      delivered := [];
      terminated := false;
    }

    method SetListener(present: bool)
      modifies this
      ensures hasListener == present
      ensures recording == old(recording) && stream == old(stream) && chunks == old(chunks)
      ensures delivered == old(delivered) && terminated == old(terminated)
    {
      hasListener := present;
    }

    /**
     * `start_recording()`: a no-op while recording; otherwise sets the flag
     * and empties the buffer, then opens the stream. When the stream cannot
     * be opened the flag is cleared again and the error propagates
     * (`raised`); the buffer stays emptied.
     */
    method StartRecording(openOk: bool) returns (raised: bool)
      modifies this
      ensures old(recording) ==>
        !raised && recording && stream == old(stream) && chunks == old(chunks)
      ensures !old(recording) && openOk ==> !raised && recording && stream == Running && chunks == []
      ensures !old(recording) && !openOk ==> raised && !recording && stream == old(stream) && chunks == []
      ensures hasListener == old(hasListener) && delivered == old(delivered) && terminated == old(terminated)
    {
      raised := false;
      if recording {
        return;
      }
      recording := true;
      chunks := [];
      if !openOk {
        recording := false;
        raised := true;
        return;
      }
      stream := Running;
    }

    /**
     * The stream callback: while recording it appends a chunk for the frames
     * just read and hands it to the listener, if any; otherwise it drops them.
     */
    method StreamCallback(data: seq<byte>, frameCount: nat, sampleRate: nat, now: string)
      modifies this
      ensures recording ==>
        && chunks == old(chunks) + [AudioChunk(data, now, frameCount, sampleRate)]
        && delivered == old(delivered) + (if hasListener then [AudioChunk(data, now, frameCount, sampleRate)] else [])
      ensures !recording ==> chunks == old(chunks) && delivered == old(delivered)
      ensures recording == old(recording) && stream == old(stream) && hasListener == old(hasListener)
      ensures terminated == old(terminated)
    {
      if recording {
        var chunk := AudioChunk(data, now, frameCount, sampleRate);
        chunks := chunks + [chunk];
        if hasListener {
          delivered := delivered + [chunk];
        }
      }
    }

    /**
     * `stop_recording()`: when idle, the empty byte string; otherwise clears
     * the flag, stops and drops the stream, and returns every buffered
     * chunk's data in arrival order. The buffer itself is kept.
     */
    method StopRecording() returns (audio: seq<byte>)
      modifies this
      ensures !recording && chunks == old(chunks)
      ensures !old(recording) ==> audio == [] && stream == old(stream)
      ensures old(recording) ==> audio == JoinChunks(chunks) && stream == NoStream
      ensures hasListener == old(hasListener) && delivered == old(delivered) && terminated == old(terminated)
    {
      if !recording {
        return [];
      }
      recording := false;
      if stream != NoStream {
        stream := NoStream;
      }
      audio := JoinChunks(chunks);
    }

    /** `add_chunk(chunk)`: appends whatever the recording state, and hands the chunk to the listener once. */
    method AddChunk(chunk: AudioChunk)
      modifies this
      ensures chunks == old(chunks) + [chunk]
      ensures delivered == old(delivered) + (if hasListener then [chunk] else [])
      ensures recording == old(recording) && stream == old(stream) && hasListener == old(hasListener)
      ensures terminated == old(terminated)
    {
      chunks := chunks + [chunk];
      if hasListener {
        delivered := delivered + [chunk];
      }
    }

    /** `cleanup()`: closes a stream that is still referenced and releases PyAudio. */
    method Cleanup()
      modifies this
      ensures terminated
      ensures old(stream) == NoStream ==> stream == NoStream
      ensures old(stream) != NoStream ==> stream == Closed
      ensures recording == old(recording) && chunks == old(chunks) && delivered == old(delivered)
    {
      if stream != NoStream {
        stream := Closed;
      }
      terminated := true;
    }
  }

  /** The data of a run of stream-callback chunks, concatenated. */
  function Concat(datas: seq<seq<byte>>): (r: seq<byte>)
  {
    if datas == [] then [] else Concat(datas[..|datas| - 1]) + datas[|datas| - 1]
  }

  /**
   * A whole session from idle: start, the stream delivers `datas` one
   * buffer at a time, stop. The returned audio is the buffers concatenated
   * in order, and the buffer holds one chunk per callback.
   */
  method RecordSession(m: AudioManager, datas: seq<seq<byte>>, now: string) returns (audio: seq<byte>)
    requires !m.recording
    modifies m
    ensures audio == Concat(datas)
    ensures |m.chunks| == |datas| && !m.recording && m.stream == NoStream
  {
    var raised := m.StartRecording(true);
    for i := 0 to |datas|
      invariant m.recording && m.stream == Running
      invariant |m.chunks| == i
      invariant JoinChunks(m.chunks) == Concat(datas[..i])
    {
      m.StreamCallback(datas[i], |datas[i]|, 16000, now);
      assert datas[..i + 1][..i] == datas[..i];
    }
    assert datas[..|datas|] == datas;
    audio := m.StopRecording();
  }
}
