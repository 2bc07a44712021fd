/**
 * The rewritten application's main window, without its widgets: a status
 * that the bus events drive and that the status label mirrors, the buttons'
 * requests to the bus, and the history dropdown filled with one preview line
 * per recent transcription.
 */
module UiController {
  import opened Values
  import opened Text
  import opened EventBus
  import StorageManager

  datatype UIStatus = Idle | Recording | Transcribing | Saved

  /** The text each status shows in the status label. */
  function Label(s: UIStatus): string
  {
    match s
    case Idle => "Ready"
    case Recording => "Recording..."
    case Transcribing => "Transcribing..."
    case Saved => "Saved!"
  }

  /** Different statuses show different labels, so the label tells the status. */
  lemma LabelsDistinct(a: UIStatus, b: UIStatus)
    ensures Label(a) == Label(b) <==> a == b
  {
    if a != b {
      assert Label(a)[0] != Label(b)[0] || |Label(a)| != |Label(b)|;
    }
  }

  /** How many words a preview shows. */
  const PreviewWords := 15

  /** `words[:15]` */
  function Take(ws: seq<string>, n: nat): (r: seq<string>)
    ensures |r| == if |ws| <= n then |ws| else n
    ensures r == ws[..|r|]
  {
    if |ws| <= n then ws else ws[..n]
  }

  /**
   * The preview of a transcription's text: its first 15 words joined by
   * single spaces, with "..." appended when it has more than 15.
   */
  function Preview(text: string): string
  {
    var ws := Split(text);
    Join(" ", Take(ws, PreviewWords)) + (if |ws| > PreviewWords then "..." else "")
  }

  /**
   * Read back as words, a preview is the text's own words when there are at
   * most 15; otherwise it is the first 15, the last of them carrying "...".
   */
  lemma PreviewSpec(text: string)
    ensures var ws := Split(text);
      Split(Preview(text)) == if |ws| <= PreviewWords then ws else ws[..PreviewWords - 1] + [ws[PreviewWords - 1] + "..."]
  {
    var ws := Split(text);
    if |ws| <= PreviewWords {
      assert Preview(text) == Join(" ", ws) + "";
      SplitJoin(ws);
      assert Join(" ", ws) + "" == Join(" ", ws);
    } else {
      assert Preview(text) == Join(" ", ws[..PreviewWords]) + "...";
      CutWords(ws, PreviewWords);
    }
  }

  /** The first `n` words joined and followed by "..." read back as those words, the last carrying "...". */
  lemma CutWords(ws: seq<string>, n: nat)
    requires 1 <= n <= |ws|
    requires forall i | 0 <= i < |ws| :: ws[i] != [] && NoSpace(ws[i])
    ensures Split(Join(" ", ws[..n]) + "...") == ws[..n - 1] + [ws[n - 1] + "..."]
  {
    var first := ws[..n];
    JoinSuffix(first, "...");
    var shown := ws[..n - 1] + [ws[n - 1] + "..."];
    assert first[..|first| - 1] + [first[|first| - 1] + "..."] == shown;
    assert forall i | 0 <= i < |shown| :: shown[i] != [] && NoSpace(shown[i]) by {
      assert NoSpace(ws[n - 1] + "...");
    }
    SplitJoin(shown);
  }

  /** A preview never shows more than 15 words, and shows them all when the text has no more. */
  lemma PreviewWordCount(text: string)
    ensures |Split(Preview(text))| == if |Split(text)| <= PreviewWords then |Split(text)| else PreviewWords
  {
    PreviewSpec(text);
  }

  /** One dropdown line: "<timestamp> - <preview>". */
  function Entry(t: StorageManager.Transcription): string
  {
    t.timestamp + " - " + Preview(t.text)
  }

  const NoHistory := "No transcription history"

  /** The dropdown's lines for the fetched transcriptions. */
  function HistoryItems(ts: seq<StorageManager.Transcription>): (items: seq<string>)
    ensures ts == [] ==> items == [NoHistory]
    ensures ts != [] ==> |items| == |ts| && forall i | 0 <= i < |ts| :: items[i] == Entry(ts[i])
  {
    if ts == [] then [NoHistory] else seq(|ts|, i requires 0 <= i < |ts| => Entry(ts[i]))
  }

  class UIController {
    var status: UIStatus
    var statusLabel: string
    var recordChecked: bool
    var dropdown: seq<string>
    var historyData: seq<StorageManager.Transcription>
    const bus: Bus
    const storage: StorageManager.Storage

    /** The label shows the current status's text. */
    ghost predicate Valid()
      reads this
    {
      statusLabel == Label(status)
    }

    /**
     * `UIController(event_bus)`: `_setup_event_handlers` subscribes the four
     * status handlers (`onStarted`, `onStopped`, `onRequested`,
     * `onCompleted`) to their tags; then the window is idle, with the label
     * set, and the history is fetched once. `fetchOk` says whether that
     * fetch succeeds.
     */
    constructor (bus: Bus, storage: StorageManager.Storage, fetchOk: bool,
                 onStarted: Handler, onStopped: Handler, onRequested: Handler, onCompleted: Handler)
      requires bus.Valid()
      modifies bus
      ensures Valid() && status == Idle && !recordChecked
      ensures this.bus == bus && this.storage == storage
      ensures historyData == (if fetchOk then storage.GetRecent(10) else [])
      ensures dropdown == HistoryItems(historyData)
      ensures bus.queues == old(bus.queues)
      ensures bus.subscribers == old(bus.subscribers)
        [RecordingStarted := old(bus.subscribers[RecordingStarted]) + [onStarted]]
        [RecordingStopped := old(bus.subscribers[RecordingStopped]) + [onStopped]]
        [TranscriptionRequested := old(bus.subscribers[TranscriptionRequested]) + [onRequested]]
        [TranscriptionCompleted := old(bus.subscribers[TranscriptionCompleted]) + [onCompleted]]
    {
      this.bus := bus;
      this.storage := storage;
      status := Idle;
      statusLabel := Label(Idle);
      recordChecked := false;
      dropdown := [];
      historyData := [];
      bus.Subscribe(RecordingStarted, onStarted);
      bus.Subscribe(RecordingStopped, onStopped);
      bus.Subscribe(TranscriptionRequested, onRequested);
      bus.Subscribe(TranscriptionCompleted, onCompleted);
      new;
      RefreshHistory(fetchOk);
    }

    /** `_update_status()` */
    method UpdateStatus()
      modifies this
      ensures Valid() && status == old(status)
      ensures recordChecked == old(recordChecked) && dropdown == old(dropdown) && historyData == old(historyData)
    {
      statusLabel := Label(status);
    }

    /** RECORDING_STARTED: recording, with the record button checked. */
    method OnRecordingStarted()
      modifies this
      ensures Valid() && status == Recording && recordChecked
      ensures dropdown == old(dropdown) && historyData == old(historyData)
    {
      status := Recording;
      recordChecked := true;
      UpdateStatus();
    }

    /** RECORDING_STOPPED: transcribing, button unchecked, and a reset scheduled after 1000 ms. */
    method OnRecordingStopped() returns (resetAfterMs: nat)
      modifies this
      ensures Valid() && status == Transcribing && !recordChecked && resetAfterMs == 1000
      ensures dropdown == old(dropdown) && historyData == old(historyData)
    {
      status := Transcribing;
      recordChecked := false;
      UpdateStatus();
      resetAfterMs := 1000;
    }

    /** TRANSCRIPTION_REQUESTED: transcribing; the button is left as it is. */
    method OnTranscriptionRequested()
      modifies this
      ensures Valid() && status == Transcribing && recordChecked == old(recordChecked)
      ensures dropdown == old(dropdown) && historyData == old(historyData)
    {
      status := Transcribing;
      UpdateStatus();
    }

    /** TRANSCRIPTION_COMPLETED: `set_status_saved()`. */
    method OnTranscriptionCompleted() returns (resetAfterMs: nat)
      modifies this
      ensures Valid() && status == Saved && recordChecked == old(recordChecked) && resetAfterMs == 3000
      ensures dropdown == old(dropdown) && historyData == old(historyData)
    {
      resetAfterMs := SetStatusSaved();
    }

    /** `set_status_saved()`: saved, and a reset scheduled after 3000 ms. */
    method SetStatusSaved() returns (resetAfterMs: nat)
      modifies this
      ensures Valid() && status == Saved && recordChecked == old(recordChecked) && resetAfterMs == 3000
      ensures dropdown == old(dropdown) && historyData == old(historyData)
    {
      status := Saved;
      UpdateStatus();
      resetAfterMs := 3000;
    }

    /** `reset_status()`: back to idle from any status. */
    method ResetStatus()
      modifies this
      ensures Valid() && status == Idle && recordChecked == old(recordChecked)
      ensures dropdown == old(dropdown) && historyData == old(historyData)
    {
      status := Idle;
      UpdateStatus();
    }

    /**
     * What the bus delivers to this window: the four subscribed events move
     * the status as the handlers above do; every other event leaves it alone.
     * The result is the delay of a scheduled reset, if one is scheduled.
     */
    method OnEvent(tag: EventType) returns (resetAfterMs: Option<nat>)
      modifies this
      requires Valid()
      ensures Valid() && dropdown == old(dropdown) && historyData == old(historyData)
      ensures status == match tag
        case RecordingStarted => Recording
        case RecordingStopped => Transcribing
        case TranscriptionRequested => Transcribing
        case TranscriptionCompleted => Saved
        case _ => old(status)
      ensures resetAfterMs == match tag
        case RecordingStopped => Some(1000)
        case TranscriptionCompleted => Some(3000)
        case _ => None
    {
      match tag
      case RecordingStarted =>
        OnRecordingStarted();
        resetAfterMs := None;
      case RecordingStopped =>
        var ms := OnRecordingStopped();
        resetAfterMs := Some(ms);
      case TranscriptionRequested =>
        OnTranscriptionRequested();
        resetAfterMs := None;
      case TranscriptionCompleted =>
        var ms := OnTranscriptionCompleted();
        resetAfterMs := Some(ms);
      case _ =>
        resetAfterMs := None;
    }

    /** The record button: checked asks to toggle recording, unchecked asks to stop. */
    method OnRecordClicked() returns (calls: seq<Call>, raised: bool)
      requires bus.Valid()
      ensures Dispatched(calls, raised)
        == Dispatch(bus.subscribers[if recordChecked then ToggleRecordingRequested else StopRecordingRequested], Nil)
    {
      if recordChecked {
        calls, raised := bus.Publish(ToggleRecordingRequested, Nil);
      } else {
        calls, raised := bus.Publish(StopRecordingRequested, Nil);
      }
    }

    /** Pressing push-to-talk asks to start recording. */
    method OnPttPressed() returns (calls: seq<Call>, raised: bool)
      requires bus.Valid()
      ensures Dispatched(calls, raised) == Dispatch(bus.subscribers[StartRecordingRequested], Nil)
    {
      calls, raised := bus.Publish(StartRecordingRequested, Nil);
    }

    /** Releasing push-to-talk asks to stop recording. */
    method OnPttReleased() returns (calls: seq<Call>, raised: bool)
      requires bus.Valid()
      ensures Dispatched(calls, raised) == Dispatch(bus.subscribers[StopRecordingRequested], Nil)
    {
      calls, raised := bus.Publish(StopRecordingRequested, Nil);
    }

    /**
     * `_refresh_history()`: the ten most recent transcriptions (none when
     * the fetch fails) become the history data, and the dropdown is refilled
     * with one line per transcription in that order, or the single
     * "No transcription history" line.
     */
    method RefreshHistory(fetchOk: bool)
      modifies this
      ensures historyData == (if fetchOk then storage.GetRecent(10) else [])
      ensures dropdown == HistoryItems(historyData)
      ensures status == old(status) && statusLabel == old(statusLabel) && recordChecked == old(recordChecked)
    {
      var transcriptions := if fetchOk then storage.GetRecent(10) else [];
      historyData := transcriptions;
      dropdown := FillHistory(transcriptions);
    }
  }

  /** The refill loop of `_refresh_history()`: the dropdown's lines, built one per transcription. */
  method FillHistory(ts: seq<StorageManager.Transcription>) returns (items: seq<string>)
    ensures items == HistoryItems(ts)
  {
    items := [];
    if ts == [] {
      items := items + [NoHistory];
      return;
    }
    for i := 0 to |ts|
      invariant |items| == i
      invariant forall j | 0 <= j < i :: items[j] == Entry(ts[j])
    {
      items := items + [Entry(ts[i])];
    }
  }
}
