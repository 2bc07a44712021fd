/**
 * The process-wide publish/subscribe bus: a table from event tag to the
 * ordered list of subscribed callbacks, and a table from name to FIFO
 * hand-off queue ('transcription' and 'result' exist from construction).
 *
 * Callbacks are abstract: a `Handler` is an identity plus whether calling it
 * raises. `Publish` returns the trace of calls it made.
 */
module EventBus {
  import opened Values

  /**
   * Every tag the code base publishes or subscribes to. The source's enum
   * declares only the first four; the others are used by the configuration
   * manager, the logger, the UI and the application controller.
   */
  datatype EventType =
    | RecordingStarted | RecordingStopped | TranscriptionRequested | TranscriptionCompleted
    | Error | ConfigChanged | ConfigReset
    | StartRecordingRequested | StopRecordingRequested | ToggleRecordingRequested
    | TextCopiedToClipboard | PasteSimulated

  function AllTags(): set<EventType>
  {
    {RecordingStarted, RecordingStopped, TranscriptionRequested, TranscriptionCompleted,
     Error, ConfigChanged, ConfigReset,
     StartRecordingRequested, StopRecordingRequested, ToggleRecordingRequested,
     TextCopiedToClipboard, PasteSimulated}
  }

  lemma TagListed(t: EventType)
    ensures t in AllTags()
  {
    match t
    case RecordingStarted =>
    case RecordingStopped =>
    case TranscriptionRequested =>
    case TranscriptionCompleted =>
    case Error =>
    case ConfigChanged =>
    case ConfigReset =>
    case StartRecordingRequested =>
    case StopRecordingRequested =>
    case ToggleRecordingRequested =>
    case TextCopiedToClipboard =>
    case PasteSimulated =>
  }

  /** A subscribed callback: its identity, and whether calling it raises. */
  datatype Handler = Handler(id: nat, raises: bool)

  /** One invocation of a callback with a payload. */
  datatype Call = Call(handler: Handler, payload: Value)

  /** The calls a publish made, and whether an exception escaped it. */
  datatype Dispatched = Dispatched(calls: seq<Call>, raised: bool)

  /** `multiprocessing.Queue` and its subclass `ResultQueue`. */
  datatype QueueKind = PlainQueue | ResultQueue
  datatype Queue = Queue(kind: QueueKind, items: seq<Value>)

  /** An outward action of a component, listed in the order it happens. */
  datatype Effect =
    | Put(queue: string, item: Value)
    | Publish(tag: EventType, payload: Value)
    | Insert(id: int)
    | RemoveFile(path: Value)
    | Callback(text: string)

  /** `list.remove(h)` guarded by `h in list`: drops the first occurrence only. */
  function RemoveFirst(s: seq<Handler>, h: Handler): (r: seq<Handler>)
    ensures h !in s ==> r == s
    ensures multiset(r) == multiset(s) - multiset{h}
  {
    if s == [] then []
    else if s[0] == h then
      assert s == [s[0]] + s[1..];
      s[1..]
    else
      assert s == [s[0]] + s[1..];
      [s[0]] + RemoveFirst(s[1..], h)
  }

  /** Calls of `hs` with `payload`, one per handler, in list order. */
  function CallsOf(hs: seq<Handler>, payload: Value): (cs: seq<Call>)
    ensures |cs| == |hs|
    ensures forall i | 0 <= i < |hs| :: cs[i] == Call(hs[i], payload)
  {
    if hs == [] then [] else [Call(hs[0], payload)] + CallsOf(hs[1..], payload)
  }

  /**
   * The dispatch loop as written: `for callback in list: callback(payload)`
   * with no exception handling, so the first raising callback ends it and the
   * exception escapes to the publisher.
   */
  function Dispatch(hs: seq<Handler>, payload: Value): Dispatched
  {
    if hs == [] then Dispatched([], false)
    else if hs[0].raises then Dispatched([Call(hs[0], payload)], true)
    else
      var rest := Dispatch(hs[1..], payload);
      Dispatched([Call(hs[0], payload)] + rest.calls, rest.raised)
  }

  /** The dispatch that isolates callbacks: a raising callback is caught and the rest still run. */
  function DispatchIsolated(hs: seq<Handler>, payload: Value): Dispatched
  {
    Dispatched(CallsOf(hs, payload), false)
  }

  predicate NoneRaise(hs: seq<Handler>)
  {
    forall i | 0 <= i < |hs| :: !hs[i].raises
  }

  /** When no callback raises, publish calls exactly the subscribed callbacks, each once, in order, with the payload. */
  lemma {:induction false} DispatchReachesAll(hs: seq<Handler>, payload: Value)
    requires NoneRaise(hs)
    ensures Dispatch(hs, payload) == Dispatched(CallsOf(hs, payload), false)
    decreases |hs|
  {
    if hs != [] {
      DispatchReachesAll(hs[1..], payload);
    }
  }

  /**
   * As written, the first raising callback at position `k` is the last one
   * called: the callbacks after it are never reached and the exception escapes.
   */
  lemma {:induction false} DispatchStopsAtFirstRaise(hs: seq<Handler>, payload: Value, k: nat)
    requires k < |hs| && hs[k].raises && NoneRaise(hs[..k])
    ensures Dispatch(hs, payload) == Dispatched(CallsOf(hs[..k + 1], payload), true)
    decreases k
  {
    if k > 0 {
      var t := hs[1..];
      forall i | 0 <= i < k - 1 ensures !t[i].raises {
        assert t[i] == hs[..k][i + 1];
      }
      assert NoneRaise(t[..k - 1]);
      assert !hs[..k][0].raises;
      DispatchStopsAtFirstRaise(t, payload, k - 1);
      assert t[..k] == hs[1..k + 1];
      assert hs[..k + 1] == [hs[0]] + hs[1..k + 1];
    }
  }

  /** A concrete run: a raising first subscriber keeps the second from being called. */
  lemma RaisingSubscriberBlocksTheNext()
    ensures Dispatch([Handler(0, true), Handler(1, false)], Nil)
         == Dispatched([Call(Handler(0, true), Nil)], true)
  {
  }

  /** With isolation, every subscribed callback is called as often as it is subscribed, raising or not. */
  lemma IsolatedCallsEachAsSubscribed(hs: seq<Handler>, payload: Value, h: Handler)
    ensures !DispatchIsolated(hs, payload).raised
    ensures h in hs ==> Call(h, payload) in DispatchIsolated(hs, payload).calls
    ensures multiset(DispatchIsolated(hs, payload).calls)[Call(h, payload)] == multiset(hs)[h]
  {
    CallCount(hs, payload, h);
    if h in hs {
      var i :| 0 <= i < |hs| && hs[i] == h;
      assert DispatchIsolated(hs, payload).calls[i] == Call(h, payload);
    }
  }

  lemma {:induction false} CallCount(hs: seq<Handler>, payload: Value, h: Handler)
    ensures multiset(CallsOf(hs, payload))[Call(h, payload)] == multiset(hs)[h]
    decreases |hs|
  {
    if hs != [] {
      CallCount(hs[1..], payload, h);
      assert hs == [hs[0]] + hs[1..];
      assert CallsOf(hs, payload) == [Call(hs[0], payload)] + CallsOf(hs[1..], payload);
    }
  }

  /**
   * Unsubscribing removes one registration: a callback subscribed once is no
   * longer called afterwards, one subscribed twice is still called once.
   */
  lemma UnsubscribeRemovesOne(hs: seq<Handler>, h: Handler, payload: Value)
    requires h in hs
    ensures multiset(RemoveFirst(hs, h))[h] == multiset(hs)[h] - 1
    ensures multiset(hs)[h] == 1 ==> Call(h, payload) !in Dispatch(RemoveFirst(hs, h), payload).calls
  {
    var r := RemoveFirst(hs, h);
    if multiset(hs)[h] == 1 {
      assert h !in multiset(r);
      DispatchCallsFrom(r, payload);
    }
  }

  /** Every call a dispatch makes is to a handler in the list. */
  lemma {:induction false} DispatchCallsFrom(hs: seq<Handler>, payload: Value)
    ensures forall c | c in Dispatch(hs, payload).calls :: c.handler in hs && c.payload == payload
    decreases |hs|
  {
    if hs != [] && !hs[0].raises {
      DispatchCallsFrom(hs[1..], payload);
    }
  }

  class Bus {
    var subscribers: map<EventType, seq<Handler>>
    var queues: map<string, Queue>

    /** Every tag has a subscriber list (the source builds one per enum member). */
    ghost predicate Valid()
      reads this
    {
      forall t: EventType :: t in subscribers
    }

    constructor ()
      ensures Valid()
      ensures forall t: EventType :: subscribers[t] == []
      ensures queues == map["transcription" := Queue(PlainQueue, []), "result" := Queue(PlainQueue, [])]
    {
      subscribers := map t | t in AllTags() :: [];
      queues := map["transcription" := Queue(PlainQueue, []), "result" := Queue(PlainQueue, [])];
      new;
      forall t: EventType ensures t in subscribers {
        TagListed(t);
      }
    }

    /** `get_queue(name)`: the queue, or None for an unknown name. */
    function GetQueue(name: string): (r: Option<Queue>)
      reads this
      ensures r.Some? <==> name in queues
      ensures r.Some? ==> r.value == queues[name]
    {
      if name in queues then Some(queues[name]) else None
    }

    method Subscribe(tag: EventType, h: Handler)
      requires Valid()
      modifies this
      ensures Valid()
      ensures subscribers == old(subscribers)[tag := old(subscribers[tag]) + [h]]
      ensures queues == old(queues)
    {
      subscribers := subscribers[tag := subscribers[tag] + [h]];
    }

    method Unsubscribe(tag: EventType, h: Handler)
      requires Valid()
      modifies this
      ensures Valid()
      ensures subscribers == old(subscribers)[tag := RemoveFirst(old(subscribers[tag]), h)]
      ensures queues == old(queues)
    {
      if h in subscribers[tag] {
        var hs := subscribers[tag];
        var i := 0;
        while hs[i] != h
          invariant 0 <= i < |hs| && h in hs[i..] && h !in hs[..i]
          decreases |hs| - i
        {
          assert hs[i..] == [hs[i]] + hs[i + 1..];
          assert hs[..i + 1] == hs[..i] + [hs[i]];
          i := i + 1;
        }
        RemoveFirstAt(hs, h, i);
        subscribers := subscribers[tag := hs[..i] + hs[i + 1..]];
      }
    }

    /** `publish(tag, payload)` as written: calls the subscribers in order until one raises. */
    method Publish(tag: EventType, payload: Value) returns (calls: seq<Call>, raised: bool)
      requires Valid()
      ensures Dispatched(calls, raised) == Dispatch(subscribers[tag], payload)
    {
      var hs := subscribers[tag];
      calls, raised := [], false;
      var i := 0;
      while i < |hs|
        invariant 0 <= i <= |hs|
        invariant Dispatch(hs, payload)
          == Dispatched(calls + Dispatch(hs[i..], payload).calls, Dispatch(hs[i..], payload).raised)
      {
        DispatchStep(hs, i, payload);
        AppendAssoc(calls, [Call(hs[i], payload)], Dispatch(hs[i + 1..], payload).calls);
        calls := calls + [Call(hs[i], payload)];
        if hs[i].raises {
          raised := true;
          return;
        }
        i := i + 1;
      }
    }

    /** The intended publish: each subscriber is called in order; a raising one is caught and logged. */
    method PublishIsolated(tag: EventType, payload: Value) returns (calls: seq<Call>)
      requires Valid()
      ensures Dispatched(calls, false) == DispatchIsolated(subscribers[tag], payload)
    {
      var hs := subscribers[tag];
      calls := [];
      for i := 0 to |hs|
        invariant calls == CallsOf(hs[..i], payload)
      {
        assert hs[..i + 1] == hs[..i] + [hs[i]];
        CallsOfAppend(hs[..i], hs[i], payload);
        calls := calls + [Call(hs[i], payload)];
      }
      assert hs[..|hs|] == hs;
    }

    /** `add_queue(name)`: creates a plain queue only when the name is new. */
    method AddQueue(name: string)
      modifies this
      ensures subscribers == old(subscribers)
      ensures queues == if name in old(queues) then old(queues) else old(queues)[name := Queue(PlainQueue, [])]
    {
      if name !in queues {
        queues := queues[name := Queue(PlainQueue, [])];
      }
    }

    /** `add_result_queue(name)`: creates a result queue only when the name is new. */
    method AddResultQueue(name: string)
      modifies this
      ensures subscribers == old(subscribers)
      ensures queues == if name in old(queues) then old(queues) else old(queues)[name := Queue(ResultQueue, [])]
    {
      if name !in queues {
        queues := queues[name := Queue(ResultQueue, [])];
      }
    }

    /** `get_queue(name).put(item)`; `ok` is false when there is no such queue (the call raises). */
    method Put(name: string, item: Value) returns (ok: bool)
      modifies this
      ensures ok <==> name in old(queues)
      ensures subscribers == old(subscribers)
      ensures queues == if ok then old(queues)[name := old(queues[name]).(items := old(queues[name]).items + [item])] else old(queues)
    {
      ok := name in queues;
      if ok {
        queues := queues[name := queues[name].(items := queues[name].items + [item])];
      }
    }

    /** `get_queue(name).get_nowait()`: the oldest item, or None when the queue is empty or missing. */
    method Take(name: string) returns (item: Option<Value>)
      modifies this
      ensures subscribers == old(subscribers)
      ensures name in old(queues) && old(queues[name]).items != [] ==>
        item == Some(old(queues[name]).items[0])
        && queues == old(queues)[name := old(queues[name]).(items := old(queues[name]).items[1..])]
      ensures !(name in old(queues) && old(queues[name]).items != []) ==> item == None && queues == old(queues)
    {
      if name in queues && queues[name].items != [] {
        item := Some(queues[name].items[0]);
        queues := queues[name := queues[name].(items := queues[name].items[1..])];
      } else {
        item := None;
      }
    }
  }

  /** Removing the first occurrence, found at `i`, keeps everything before and after it in order. */
  lemma {:induction false} RemoveFirstAt(hs: seq<Handler>, h: Handler, i: nat)
    requires i < |hs| && hs[i] == h && h !in hs[..i]
    ensures RemoveFirst(hs, h) == hs[..i] + hs[i + 1..]
    decreases i
  {
    if i > 0 {
      var t := hs[1..];
      assert hs[0] == hs[..i][0];
      assert hs[..i] == [hs[0]] + t[..i - 1];
      RemoveFirstAt(t, h, i - 1);
      assert t[i..] == hs[i + 1..];
    }
  }

  lemma DispatchStep(hs: seq<Handler>, i: nat, payload: Value)
    requires i < |hs|
    ensures Dispatch(hs[i..], payload) == if hs[i].raises then Dispatched([Call(hs[i], payload)], true)
      else Dispatched([Call(hs[i], payload)] + Dispatch(hs[i + 1..], payload).calls, Dispatch(hs[i + 1..], payload).raised)
  {
    assert hs[i..][1..] == hs[i + 1..];
  }

  lemma {:induction false} CallsOfAppend(hs: seq<Handler>, h: Handler, payload: Value)
    ensures CallsOf(hs + [h], payload) == CallsOf(hs, payload) + [Call(h, payload)]
  {
  }

  /** A put followed by a take on an otherwise empty queue returns the same item (FIFO). */
  method PutThenTake(bus: Bus, name: string, item: Value) returns (got: Option<Value>)
    requires name in bus.queues && bus.queues[name].items == []
    modifies bus
    ensures got == Some(item)
    ensures bus.queues == old(bus.queues)
  {
    var ok := bus.Put(name, item);
    got := bus.Take(name);
    assert [item][1..] == [];
    assert bus.queues[name] == old(bus.queues[name]);
    assert bus.queues == old(bus.queues);
  }

  /** `EventBus._instance`: the class-level slot behind the singleton constructor. */
  class BusSlot {
    var instance: Bus?

    constructor ()
      ensures instance == null
    {
      instance := null;
    }

    /** `EventBus()`: the existing instance, or a freshly initialised one stored for later calls. */
    method Get() returns (b: Bus)
      modifies this
      ensures instance == b
      ensures old(instance) != null ==> b == old(instance)
      ensures old(instance) == null ==>
        (fresh(b) && b.Valid()
         && (forall t: EventType :: b.subscribers[t] == [])
         && b.queues == map["transcription" := Queue(PlainQueue, []), "result" := Queue(PlainQueue, [])])
    {
      if instance == null {
        instance := new Bus();
      }
      b := instance;
    }
  }
}
