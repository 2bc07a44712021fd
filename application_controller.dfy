/**
 * The rewritten application's controller: the reconciler that drains the
 * 'result' queue into storage, deletes the audio file of a saved result and
 * re-announces it, and the handlers that route recording requests from the
 * bus to the recorder.
 */
module ApplicationController {
  import opened Values
  import opened EventBus
  import opened Tables
  import opened StorageManager
  import Recorder

  /** What handling one dequeued result did: the table afterwards, the effects, and whether an exception ended the drain. */
  datatype Step = Step(store: Store, effects: seq<Effect>, abort: bool)

  /** The payload the controller publishes for a saved result. */
  function CompletedPayload(id: int, text: Value, segments: Value): Value
  {
    Dict(map["id" := Int(id), "text" := text, "segments" := segments])
  }

  /** `result.get("text", "")` */
  function TextOf(item: Value): Value
    requires item.Dict?
  {
    Get(item.entries, "text", Str(""))
  }

  /** `result.get("segments", [])` */
  function SegmentsOf(item: Value): Value
    requires item.Dict?
  {
    Get(item.entries, "segments", List([]))
  }

  /** `result.get("audio_path")` */
  function PathOf(item: Value): Value
    requires item.Dict?
  {
    Get(item.entries, "audio_path", Nil)
  }

  /**
   * One pass of the drain loop's body. A falsy result is dropped. Anything
   * else is read with `.get` (a non-dict raises) and saved with text
   * defaulting to "", segments to [] and audio_path to None; a save that
   * raises ends the drain. After a save the audio file is removed when the
   * id and the path are truthy (a failed removal is only logged), and the
   * completion event is published. `dbOk` says, per result, whether the
   * store's database step succeeds.
   */
  function ReconcileOne(completed: seq<Handler>, now: string, dbOk: Value -> bool, st: Store, item: Value): (s: Step)
    ensures |st.rows| <= |s.store.rows| && s.store.rows[..|st.rows|] == st.rows
    ensures s.store.nextId - st.nextId == |s.store.rows| - |st.rows| <= 1
  {
    if !Truthy(item) then Step(st, [], false)
    else if !item.Dict? then Step(st, [], true)
    else
      var text := TextOf(item);
      var segments := SegmentsOf(item);
      var path := PathOf(item);
      var saving := SaveSpec(st, completed, text, segments, path, now, dbOk(item));
      if saving.result.InvalidArgument? || !dbOk(item) then Step(saving.store, [], true)
      else
        assert saving.store.rows[..|st.rows|] == st.rows;
        var saveEffects := [Insert(st.nextId), Publish(TranscriptionCompleted, SavedPayload(st.nextId, now, text.s))];
        if !saving.result.Saved? then Step(saving.store, saveEffects, true)
        else
          var id := saving.result.id;
          var payload := CompletedPayload(id, text, segments);
          var removal := if Truthy(Int(id)) && Truthy(path) then [RemoveFile(path)] else [];
          Step(saving.store, saveEffects + removal + [Publish(TranscriptionCompleted, payload)],
               Dispatch(completed, payload).raised)
  }

  /** How much of the queue a drain took, the table afterwards and the effects, in order. */
  datatype Drained = Drained(taken: nat, store: Store, effects: seq<Effect>)

  /**
   * `_check_result_queue` over the queued `items`: one step per item until
   * the queue is empty or a step raises. The table only grows: its earlier
   * rows stay in place and every added row used up one id.
   */
  function Drain(completed: seq<Handler>, now: string, dbOk: Value -> bool, st: Store, items: seq<Value>): (d: Drained)
    ensures d.taken <= |items| && (items != [] ==> 1 <= d.taken)
    ensures |st.rows| <= |d.store.rows| && d.store.rows[..|st.rows|] == st.rows
    ensures d.store.nextId - st.nextId == |d.store.rows| - |st.rows|
    decreases |items|
  {
    if items == [] then Drained(0, st, [])
    else
      var s := ReconcileOne(completed, now, dbOk, st, items[0]);
      if s.abort then Drained(1, s.store, s.effects)
      else
        var rest := Drain(completed, now, dbOk, s.store, items[1..]);
        assert rest.store.rows[..|st.rows|] == rest.store.rows[..|s.store.rows|][..|st.rows|];
        Drained(1 + rest.taken, rest.store, s.effects + rest.effects)
  }

  /** A result the save accepts: a dict with non-empty text and a list of segments. */
  predicate Saveable(item: Value)
  {
    item.Dict? && ArgumentError(TextOf(item), SegmentsOf(item)).None?
  }

  /** A result the drain handles without error: falsy (dropped), or saveable with a database step that succeeds. */
  predicate Acceptable(dbOk: Value -> bool, item: Value)
  {
    !Truthy(item) || (Saveable(item) && dbOk(item))
  }

  /** The truthy results, in queue order: the ones the drain saves. */
  function Truthies(items: seq<Value>): (t: seq<Value>)
    ensures |t| <= |items|
    ensures forall k | 0 <= k < |t| :: Truthy(t[k])
  {
    if items == [] then []
    else if Truthy(items[0]) then [items[0]] + Truthies(items[1..])
    else Truthies(items[1..])
  }

  /** The row a saveable result becomes under `id`: its text, segments and path with the `.get` defaults. */
  function SavedRow(id: int, now: string, item: Value): Transcription
    requires Saveable(item)
  {
    Transcription(id, now, TextOf(item).s, SegmentsOf(item).items, PathOf(item))
  }

  /**
   * What the drain does for a result it saves under `id`: the insert, the
   * store's own TRANSCRIPTION_COMPLETED, the removal of a truthy audio
   * path, and the controller's TRANSCRIPTION_COMPLETED {id, text, segments}.
   */
  function SaveEffects(id: int, now: string, item: Value): seq<Effect>
    requires Saveable(item)
  {
    [Insert(id), Publish(TranscriptionCompleted, SavedPayload(id, now, TextOf(item).s))]
    + (if Truthy(PathOf(item)) then [RemoveFile(PathOf(item))] else [])
    + [Publish(TranscriptionCompleted, CompletedPayload(id, TextOf(item), SegmentsOf(item)))]
  }

  /** `SaveEffects` for each saved result in turn, with consecutive ids from `id`. */
  function AllSaveEffects(id: int, now: string, t: seq<Value>): seq<Effect>
    requires forall k | 0 <= k < |t| :: Saveable(t[k])
    decreases |t|
  {
    if t == [] then [] else SaveEffects(id, now, t[0]) + AllSaveEffects(id + 1, now, t[1..])
  }

  /** The truthy results of an acceptable queue are saveable and pass the database step. */
  lemma {:induction false} TruthiesAcceptable(dbOk: Value -> bool, items: seq<Value>)
    requires forall i | 0 <= i < |items| :: Acceptable(dbOk, items[i])
    ensures forall k | 0 <= k < |Truthies(items)| :: Saveable(Truthies(items)[k]) && dbOk(Truthies(items)[k])
    decreases |items|
  {
    if items != [] {
      assert forall i | 0 <= i < |items[1..]| :: items[1..][i] == items[i + 1];
      TruthiesAcceptable(dbOk, items[1..]);
    }
  }

  lemma AllSaveEffectsCons(id: int, now: string, item: Value, t: seq<Value>)
    requires Saveable(item) && forall k | 0 <= k < |t| :: Saveable(t[k])
    ensures forall k | 0 <= k < |[item] + t| :: Saveable(([item] + t)[k])
    ensures AllSaveEffects(id, now, [item] + t) == SaveEffects(id, now, item) + AllSaveEffects(id + 1, now, t)
  {
    assert ([item] + t)[1..] == t;
  }

  /** A truthy acceptable result, with no raising subscriber, is saved under the next id and the drain goes on. */
  lemma ReconcileSaves(completed: seq<Handler>, now: string, dbOk: Value -> bool, st: Store, item: Value)
    requires 1 <= st.nextId && NoneRaise(completed)
    requires Truthy(item) && Saveable(item) && dbOk(item)
    ensures ReconcileOne(completed, now, dbOk, st, item)
      == Step(Store(st.rows + [SavedRow(st.nextId, now, item)], st.nextId + 1), SaveEffects(st.nextId, now, item), false)
  {
    DispatchReachesAll(completed, SavedPayload(st.nextId, now, TextOf(item).s));
    DispatchReachesAll(completed, CompletedPayload(st.nextId, TextOf(item), SegmentsOf(item)));
  }

  /** The rows saved for `t` with consecutive ids from `id`. */
  function SavedRows(id: int, now: string, t: seq<Value>): (rows: seq<Transcription>)
    requires forall k | 0 <= k < |t| :: Saveable(t[k])
    ensures |rows| == |t|
    decreases |t|
  {
    if t == [] then [] else [SavedRow(id, now, t[0])] + SavedRows(id + 1, now, t[1..])
  }

  /** The k-th saved row holds id `id + k` and the k-th result's text, segments and audio path. */
  lemma {:induction false} SavedRowsAt(id: int, now: string, t: seq<Value>, k: nat)
    requires forall k | 0 <= k < |t| :: Saveable(t[k])
    requires k < |t|
    ensures SavedRows(id, now, t)[k] == Transcription(id + k, now, TextOf(t[k]).s, SegmentsOf(t[k]).items, PathOf(t[k]))
    decreases k
  {
    if k > 0 {
      assert t[1..][k - 1] == t[k];
      SavedRowsAt(id + 1, now, t[1..], k - 1);
    }
  }

  /**
   * When every queued result is acceptable and no TRANSCRIPTION_COMPLETED
   * subscriber raises, the drain empties the queue and appends, after the
   * earlier rows, exactly the rows `SavedRows` gives for the truthy
   * results: one per result, in order, with consecutive ids from the next.
   */
  lemma {:induction false} DrainEmptiesQueue(completed: seq<Handler>, now: string, dbOk: Value -> bool, st: Store, items: seq<Value>)
    requires 1 <= st.nextId
    requires NoneRaise(completed)
    requires forall i | 0 <= i < |items| :: Acceptable(dbOk, items[i])
    ensures var d := Drain(completed, now, dbOk, st, items);
      var t := Truthies(items);
      && (forall k | 0 <= k < |t| :: Saveable(t[k]))
      && d.taken == |items|
      && d.store == Store(st.rows + SavedRows(st.nextId, now, t), st.nextId + |t|)
    decreases |items|
  {
    TruthiesAcceptable(dbOk, items);
    if items != [] {
      AcceptableTail(dbOk, items);
      TruthiesAcceptable(dbOk, items[1..]);
      if Truthy(items[0]) {
        var item := items[0];
        var row := SavedRow(st.nextId, now, item);
        var t' := Truthies(items[1..]);
        var st' := Store(st.rows + [row], st.nextId + 1);
        var d := Drain(completed, now, dbOk, st, items);
        var rest := Drain(completed, now, dbOk, st', items[1..]);
        assert d.taken == 1 + rest.taken && d.store == rest.store by {
          DrainSavesHead(completed, now, dbOk, st, items);
        }
        assert rest.taken == |items| - 1 && rest.store == Store(st'.rows + SavedRows(st.nextId + 1, now, t'), st.nextId + 1 + |t'|) by {
          DrainEmptiesQueue(completed, now, dbOk, st', items[1..]);
        }
        assert Truthies(items) == [item] + t';
        assert st'.rows + SavedRows(st.nextId + 1, now, t') == st.rows + SavedRows(st.nextId, now, [item] + t') by {
          SavedRowsCons(st.nextId, now, item, t');
          AppendAssoc(st.rows, [row], SavedRows(st.nextId + 1, now, t'));
        }
      } else {
        DrainEmptiesQueue(completed, now, dbOk, st, items[1..]);
        DrainRowsDropped(completed, now, dbOk, st, items);
      }
    }
  }

  lemma AcceptableTail(dbOk: Value -> bool, items: seq<Value>)
    requires items != [] && forall i | 0 <= i < |items| :: Acceptable(dbOk, items[i])
    ensures Acceptable(dbOk, items[0]) && forall i | 0 <= i < |items[1..]| :: Acceptable(dbOk, items[1..][i])
  {
    assert forall i | 0 <= i < |items[1..]| :: items[1..][i] == items[i + 1];
  }

  /** The drain step for a saved head result: its row and effects, then the drain of the rest. */
  lemma DrainSavesHead(completed: seq<Handler>, now: string, dbOk: Value -> bool, st: Store, items: seq<Value>)
    requires 1 <= st.nextId && NoneRaise(completed)
    requires items != [] && Truthy(items[0]) && Saveable(items[0]) && dbOk(items[0])
    ensures var rest := Drain(completed, now, dbOk, Store(st.rows + [SavedRow(st.nextId, now, items[0])], st.nextId + 1), items[1..]);
      Drain(completed, now, dbOk, st, items) == Drained(1 + rest.taken, rest.store, SaveEffects(st.nextId, now, items[0]) + rest.effects)
  {
    ReconcileSaves(completed, now, dbOk, st, items[0]);
    DrainUnfold(completed, now, dbOk, st, items);
  }

  lemma SavedRowsCons(id: int, now: string, item: Value, t: seq<Value>)
    requires Saveable(item) && forall k | 0 <= k < |t| :: Saveable(t[k])
    ensures forall k | 0 <= k < |[item] + t| :: Saveable(([item] + t)[k])
    ensures SavedRows(id, now, [item] + t) == [SavedRow(id, now, item)] + SavedRows(id + 1, now, t)
  {
    assert ([item] + t)[1..] == t;
  }

  /** The drain step for a dropped (falsy) head result: the rows of the rest alone. */
  lemma DrainRowsDropped(completed: seq<Handler>, now: string, dbOk: Value -> bool, st: Store, items: seq<Value>)
    requires items != [] && !Truthy(items[0])
    ensures Truthies(items) == Truthies(items[1..])
    ensures var d := Drain(completed, now, dbOk, st, items);
      var rest := Drain(completed, now, dbOk, st, items[1..]);
      d.taken == 1 + rest.taken && d.store == rest.store
  {
    DrainUnfold(completed, now, dbOk, st, items);
  }

  /**
   * Under the same conditions, the drain's effects are, for each truthy
   * result in turn, its insert, the store's announcement, the removal of
   * its audio file when the path is truthy, and the controller's
   * completion event, with consecutive ids from the next one.
   */
  lemma {:induction false} DrainEffects(completed: seq<Handler>, now: string, dbOk: Value -> bool, st: Store, items: seq<Value>)
    requires 1 <= st.nextId
    requires NoneRaise(completed)
    requires forall i | 0 <= i < |items| :: Acceptable(dbOk, items[i])
    ensures var t := Truthies(items);
      && (forall k | 0 <= k < |t| :: Saveable(t[k]))
      && Drain(completed, now, dbOk, st, items).effects == AllSaveEffects(st.nextId, now, t)
    decreases |items|
  {
    TruthiesAcceptable(dbOk, items);
    if items != [] {
      var item := items[0];
      var t' := Truthies(items[1..]);
      AcceptableTail(dbOk, items);
      TruthiesAcceptable(dbOk, items[1..]);
      if Truthy(item) {
        var st' := Store(st.rows + [SavedRow(st.nextId, now, item)], st.nextId + 1);
        DrainEffects(completed, now, dbOk, st', items[1..]);
        DrainEffectsSaved(completed, now, dbOk, st, items);
      } else {
        DrainEffects(completed, now, dbOk, st, items[1..]);
        DrainEffectsDropped(completed, now, dbOk, st, items);
      }
    }
  }

  /** The controller's own completion events in a trace: the published payloads that carry "segments". */
  function Completions(effects: seq<Effect>): (c: seq<Value>)
    ensures |c| <= |effects|
  {
    if effects == [] then []
    else
      var e := effects[0];
      (if e.Publish? && e.tag == TranscriptionCompleted && e.payload.Dict? && "segments" in e.payload.entries then [e.payload] else [])
      + Completions(effects[1..])
  }

  lemma {:induction false} CompletionsAppend(a: seq<Effect>, b: seq<Effect>)
    ensures Completions(a + b) == Completions(a) + Completions(b)
    decreases |a|
  {
    if a != [] {
      var e := a[0];
      var x := if e.Publish? && e.tag == TranscriptionCompleted && e.payload.Dict? && "segments" in e.payload.entries then [e.payload] else [];
      assert (a + b)[0] == e;
      assert (a + b)[1..] == a[1..] + b;
      CompletionsAppend(a[1..], b);
      assert Completions(a) == x + Completions(a[1..]);
      assert Completions(a + b) == x + (Completions(a[1..]) + Completions(b));
      AppendAssoc(x, Completions(a[1..]), Completions(b));
    } else {
      assert a + b == b;
    }
  }

  /** Saving one result announces exactly one controller completion: its id, text and segments. */
  lemma SaveEffectsCompletion(id: int, now: string, item: Value)
    requires Saveable(item)
    ensures Completions(SaveEffects(id, now, item)) == [CompletedPayload(id, TextOf(item), SegmentsOf(item))]
  {
    var removal := if Truthy(PathOf(item)) then [RemoveFile(PathOf(item))] else [];
    var saved := SavedPayload(id, now, TextOf(item).s);
    var head := [Insert(id), Publish(TranscriptionCompleted, saved)];
    var last := [Publish(TranscriptionCompleted, CompletedPayload(id, TextOf(item), SegmentsOf(item)))];
    assert "segments" !in saved.entries;
    assert Completions(head[1..]) == [];
    assert Completions(head) == [];
    assert Completions(removal) == [];
    assert Completions(last) == [CompletedPayload(id, TextOf(item), SegmentsOf(item))];
    CompletionsAppend(head, removal);
    CompletionsAppend(head + removal, last);
  }

  /** The drain step for a saved head result: its effects, then those of the rest. */
  lemma DrainEffectsSaved(completed: seq<Handler>, now: string, dbOk: Value -> bool, st: Store, items: seq<Value>)
    requires 1 <= st.nextId && NoneRaise(completed)
    requires items != [] && Truthy(items[0]) && Saveable(items[0]) && dbOk(items[0])
    requires forall k | 0 <= k < |Truthies(items[1..])| :: Saveable(Truthies(items[1..])[k])
    requires Drain(completed, now, dbOk, Store(st.rows + [SavedRow(st.nextId, now, items[0])], st.nextId + 1), items[1..]).effects
      == AllSaveEffects(st.nextId + 1, now, Truthies(items[1..]))
    ensures forall k | 0 <= k < |Truthies(items)| :: Saveable(Truthies(items)[k])
    ensures Drain(completed, now, dbOk, st, items).effects == AllSaveEffects(st.nextId, now, Truthies(items))
  {
    var item := items[0];
    var t' := Truthies(items[1..]);
    ReconcileSaves(completed, now, dbOk, st, item);
    DrainUnfold(completed, now, dbOk, st, items);
    assert Truthies(items) == [item] + t';
    AllSaveEffectsCons(st.nextId, now, item, t');
  }

  /** The drain step for a dropped (falsy) head result: the effects of the rest alone. */
  lemma DrainEffectsDropped(completed: seq<Handler>, now: string, dbOk: Value -> bool, st: Store, items: seq<Value>)
    requires items != [] && !Truthy(items[0])
    ensures Truthies(items) == Truthies(items[1..])
    ensures Drain(completed, now, dbOk, st, items).effects == Drain(completed, now, dbOk, st, items[1..]).effects
  {
    DrainUnfold(completed, now, dbOk, st, items);
    assert [] + Drain(completed, now, dbOk, st, items[1..]).effects == Drain(completed, now, dbOk, st, items[1..]).effects;
  }

  /** The completion payloads for `t` with consecutive ids from `id`. */
  function CompletionPayloads(id: int, t: seq<Value>): (c: seq<Value>)
    requires forall k | 0 <= k < |t| :: Saveable(t[k])
    ensures |c| == |t|
    decreases |t|
  {
    if t == [] then []
    else
      assert Saveable(t[0]);
      [CompletedPayload(id, TextOf(t[0]), SegmentsOf(t[0]))] + CompletionPayloads(id + 1, t[1..])
  }

  /** The k-th completion payload announces id `id + k` with the k-th result's text and segments. */
  lemma {:induction false} CompletionPayloadsAt(id: int, t: seq<Value>, k: nat)
    requires forall k | 0 <= k < |t| :: Saveable(t[k])
    requires k < |t|
    ensures CompletionPayloads(id, t)[k] == Dict(map["id" := Int(id + k), "text" := TextOf(t[k]), "segments" := SegmentsOf(t[k])])
    decreases k
  {
    if k > 0 {
      assert t[1..][k - 1] == t[k];
      CompletionPayloadsAt(id + 1, t[1..], k - 1);
    }
  }

  /**
   * Over the effects of saving `t` from `id` on, the controller's
   * completion events are exactly `CompletionPayloads`: one per saved
   * result, in order, announcing its id, text and segments.
   */
  lemma {:induction false} OneCompletionPerSave(id: int, now: string, t: seq<Value>)
    requires forall k | 0 <= k < |t| :: Saveable(t[k])
    ensures Completions(AllSaveEffects(id, now, t)) == CompletionPayloads(id, t)
    decreases |t|
  {
    if t != [] {
      assert forall k | 0 <= k < |t[1..]| :: t[1..][k] == t[k + 1];
      SaveEffectsCompletion(id, now, t[0]);
      OneCompletionPerSave(id + 1, now, t[1..]);
      CompletionsAppend(SaveEffects(id, now, t[0]), AllSaveEffects(id + 1, now, t[1..]));
    }
  }

  /**
   * A first result that the save rejects (empty or non-string text,
   * non-list segments) ends the drain at once: nothing saved, nothing
   * removed, nothing published, and every later result stays queued.
   */
  lemma RejectedResultStopsDrain(completed: seq<Handler>, now: string, dbOk: Value -> bool, st: Store, items: seq<Value>)
    requires items != [] && Truthy(items[0]) && items[0].Dict?
    requires ArgumentError(TextOf(items[0]), SegmentsOf(items[0])).Some? || !dbOk(items[0])
    ensures Drain(completed, now, dbOk, st, items) == Drained(1, st, [])
  {
  }

  /** A falsy result is taken off the queue and nothing else happens for it. */
  lemma FalsyResultDropped(completed: seq<Handler>, now: string, dbOk: Value -> bool, st: Store, items: seq<Value>)
    requires items != [] && !Truthy(items[0])
    ensures var d := Drain(completed, now, dbOk, st, items);
      d == (var rest := Drain(completed, now, dbOk, st, items[1..]); Drained(1 + rest.taken, rest.store, rest.effects))
  {
    assert [] + Drain(completed, now, dbOk, st, items[1..]).effects == Drain(completed, now, dbOk, st, items[1..]).effects;
  }

  /**
   * In the drain's effects, every file removal comes right after the save
   * that inserted a row (its insert and the store's own event) and right
   * before the controller's completion event, and removes a truthy path.
   */
  ghost predicate RemovalsFollowSaves(effects: seq<Effect>)
  {
    forall i | 0 <= i < |effects| && effects[i].RemoveFile? ::
      && 2 <= i < |effects| - 1
      && Truthy(effects[i].path)
      && effects[i - 2].Insert?
      && effects[i - 1].Publish? && effects[i - 1].tag == TranscriptionCompleted
      && effects[i + 1].Publish? && effects[i + 1].tag == TranscriptionCompleted
  }

  lemma ReconcileOneRemoval(completed: seq<Handler>, now: string, dbOk: Value -> bool, st: Store, item: Value)
    ensures RemovalsFollowSaves(ReconcileOne(completed, now, dbOk, st, item).effects)
  {
  }

  lemma RemovalsAppend(a: seq<Effect>, b: seq<Effect>)
    requires RemovalsFollowSaves(a) && RemovalsFollowSaves(b)
    ensures RemovalsFollowSaves(a + b)
  {
    var e := a + b;
    forall i | 0 <= i < |e| && e[i].RemoveFile?
      ensures 2 <= i < |e| - 1 && Truthy(e[i].path) && e[i - 2].Insert?
      ensures e[i - 1].Publish? && e[i - 1].tag == TranscriptionCompleted
      ensures e[i + 1].Publish? && e[i + 1].tag == TranscriptionCompleted
    {
      if i < |a| {
        assert e[i] == a[i] && e[i - 2] == a[i - 2] && e[i - 1] == a[i - 1] && e[i + 1] == a[i + 1];
      } else {
        var j := i - |a|;
        assert e[i] == b[j] && e[i - 2] == b[j - 2] && e[i - 1] == b[j - 1] && e[i + 1] == b[j + 1];
      }
    }
  }

  lemma {:induction false} DrainRemovalsFollowSaves(completed: seq<Handler>, now: string, dbOk: Value -> bool, st: Store, items: seq<Value>)
    ensures RemovalsFollowSaves(Drain(completed, now, dbOk, st, items).effects)
    decreases |items|
  {
    if items != [] {
      var s := ReconcileOne(completed, now, dbOk, st, items[0]);
      ReconcileOneRemoval(completed, now, dbOk, st, items[0]);
      if !s.abort {
        DrainRemovalsFollowSaves(completed, now, dbOk, s.store, items[1..]);
        RemovalsAppend(s.effects, Drain(completed, now, dbOk, s.store, items[1..]).effects);
      }
    }
  }

  /** One step of the drain, unfolded once. */
  lemma DrainUnfold(completed: seq<Handler>, now: string, dbOk: Value -> bool, st: Store, items: seq<Value>)
    requires items != []
    ensures var s := ReconcileOne(completed, now, dbOk, st, items[0]);
      var d := Drain(completed, now, dbOk, st, items);
      && (s.abort ==> d == Drained(1, s.store, s.effects))
      && (!s.abort ==> var rest := Drain(completed, now, dbOk, s.store, items[1..]);
                       d == Drained(1 + rest.taken, rest.store, s.effects + rest.effects))
  {
  }

  class Controller {
    var bus: Bus
    var storage: Storage
    var recorder: Recorder.Recorder

    ghost predicate Valid()
      reads this, bus, storage, recorder
    {
      bus.Valid() && storage.bus == bus && storage.Valid() && recorder.bus == bus && recorder.Valid()
    }

    /**
     * `ApplicationController()`: storage and recorder share the controller's
     * bus, and `_setup_event_handlers` subscribes the three request handlers,
     * `onStart`, `onStop` and `onToggle`, to their tags.
     */
    constructor (bus: Bus, storage: Storage, recorder: Recorder.Recorder, onStart: Handler, onStop: Handler, onToggle: Handler)
      requires bus.Valid() && storage.Valid() && storage.bus == bus && recorder.Valid() && recorder.bus == bus
      modifies bus
      ensures Valid() && this.bus == bus && this.storage == storage && this.recorder == recorder
      ensures bus.queues == old(bus.queues)
      ensures bus.subscribers == old(bus.subscribers)
        [StartRecordingRequested := old(bus.subscribers[StartRecordingRequested]) + [onStart]]
        [StopRecordingRequested := old(bus.subscribers[StopRecordingRequested]) + [onStop]]
        [ToggleRecordingRequested := old(bus.subscribers[ToggleRecordingRequested]) + [onToggle]]
    {
      this.bus := bus;
      this.storage := storage;
      this.recorder := recorder;
      new;
      bus.Subscribe(StartRecordingRequested, onStart);
      bus.Subscribe(StopRecordingRequested, onStop);
      bus.Subscribe(ToggleRecordingRequested, onToggle);
    }

    /** The body of the drain loop for one dequeued result. */
    method HandleResult(item: Value, now: string, dbOk: Value -> bool) returns (abort: bool, effects: seq<Effect>)
      requires Valid()
      modifies storage
      ensures Valid()
      ensures Step(Store(storage.rows, storage.nextId), effects, abort)
        == ReconcileOne(bus.subscribers[TranscriptionCompleted], now, dbOk, Store(old(storage.rows), old(storage.nextId)), item)
    {
      if !Truthy(item) {
        return false, [];
      }
      if !item.Dict? {
        return true, [];
      }
      var text := TextOf(item);
      var segments := SegmentsOf(item);
      var path := PathOf(item);
      var id := storage.nextId;
      var r := storage.Save(text, segments, path, now, dbOk(item));
      if r.InvalidArgument? || !dbOk(item) {
        return true, [];
      }
      assert ArgumentError(text, segments).None?;
      effects := [Insert(id), Publish(TranscriptionCompleted, SavedPayload(id, now, text.s))];
      if r.SaveFailed? {
        return true, effects;
      }
      if Truthy(Int(r.id)) && Truthy(path) {
        effects := effects + [RemoveFile(path)];
      }
      var calls, raised := bus.Publish(TranscriptionCompleted, CompletedPayload(r.id, text, segments));
      effects := effects + [Publish(TranscriptionCompleted, CompletedPayload(r.id, text, segments))];
      abort := raised;
    }

    /** Takes the oldest queued result and handles it: one step of `Drain`. */
    method TakeResult(now: string, dbOk: Value -> bool) returns (abort: bool, effects: seq<Effect>)
      requires Valid() && "result" in bus.queues && bus.queues["result"].items != []
      modifies bus, storage
      ensures Valid() && bus.subscribers == old(bus.subscribers)
      ensures bus.queues == old(bus.queues)["result" := old(bus.queues["result"]).(items := old(bus.queues["result"].items)[1..])]
      ensures var d := Drain(bus.subscribers[TranscriptionCompleted], now, dbOk, Store(old(storage.rows), old(storage.nextId)),
                             old(bus.queues["result"].items));
        && (abort ==> d == Drained(1, Store(storage.rows, storage.nextId), effects))
        && (!abort ==>
              var rest := Drain(bus.subscribers[TranscriptionCompleted], now, dbOk, Store(storage.rows, storage.nextId),
                                old(bus.queues["result"].items)[1..]);
              d == Drained(1 + rest.taken, rest.store, effects + rest.effects))
    {
      DrainUnfold(bus.subscribers[TranscriptionCompleted], now, dbOk, Store(storage.rows, storage.nextId), bus.queues["result"].items);
      var item := bus.Take("result");
      abort, effects := HandleResult(item.value, now, dbOk);
    }

    /**
     * `_check_result_queue()`: while the 'result' queue is not empty, take
     * the oldest result and handle it; an exception ends the drain and
     * leaves the remaining results queued.
     */
    method CheckResultQueue(now: string, dbOk: Value -> bool) returns (effects: seq<Effect>)
      requires Valid()
      modifies bus, storage
      ensures Valid() && bus.subscribers == old(bus.subscribers)
      ensures "result" !in old(bus.queues) ==>
        effects == [] && bus.queues == old(bus.queues) && storage.rows == old(storage.rows) && storage.nextId == old(storage.nextId)
      ensures "result" in old(bus.queues) ==>
        var d := Drain(bus.subscribers[TranscriptionCompleted], now, dbOk, Store(old(storage.rows), old(storage.nextId)),
                       old(bus.queues["result"].items));
        && bus.queues == old(bus.queues)["result" := old(bus.queues["result"]).(items := old(bus.queues["result"].items)[d.taken..])]
        && Store(storage.rows, storage.nextId) == d.store
        && effects == d.effects
    {
      effects := [];
      if "result" !in bus.queues {
        return;
      }
      ghost var items := bus.queues["result"].items;
      ghost var q := bus.queues["result"];
      ghost var st0 := Store(storage.rows, storage.nextId);
      ghost var completed := bus.subscribers[TranscriptionCompleted];
      ghost var taken := 0;
      while bus.queues["result"].items != []
        invariant Valid() && bus.subscribers == old(bus.subscribers)
        invariant taken <= |items|
        invariant bus.queues == old(bus.queues)["result" := q.(items := items[taken..])]
        invariant var rest := Drain(completed, now, dbOk, Store(storage.rows, storage.nextId), items[taken..]);
          Drain(completed, now, dbOk, st0, items) == Drained(taken + rest.taken, rest.store, effects + rest.effects)
        decreases |items| - taken
      {
        assert items[taken..][1..] == items[taken + 1..];
        var abort, stepEffects := TakeResult(now, dbOk);
        ghost var rest := Drain(completed, now, dbOk, Store(storage.rows, storage.nextId), items[taken + 1..]);
        AppendAssoc(effects, stepEffects, rest.effects);
        effects := effects + stepEffects;
        taken := taken + 1;
        if abort {
          assert Drain(completed, now, dbOk, st0, items).taken == taken;
          return;
        }
      }
      assert Drain(completed, now, dbOk, st0, items).taken == taken by {
        assert items[taken..] == [];
      }
    }

    /**
     * `_on_start_recording_requested`: `start_recording()` in its default
     * toggle mode, with the outcomes the recorder promises (it catches its
     * own failures).
     */
    method OnStartRecordingRequested(stamp: string, failAt: Recorder.StartStep) returns (effects: seq<Effect>)
      requires Valid()
      modifies recorder
      ensures Valid() && recorder.terminated == old(recorder.terminated)
      ensures old(recorder.recording) ==>
        effects == [] && recorder.recording && recorder.filePath == old(recorder.filePath)
        && recorder.streamOpen == old(recorder.streamOpen) && recorder.waveOpen == old(recorder.waveOpen)
        && recorder.mode == old(recorder.mode)
      ensures !old(recorder.recording) ==> recorder.mode == Recorder.Toggle
      ensures !old(recorder.recording) && failAt == Recorder.Completes ==>
        var p := Recorder.RecordingPath(stamp);
        && recorder.filePath == Some(p) && recorder.waveOpen && recorder.streamOpen
        && effects == [Publish(RecordingStarted, Str(p))]
        && recorder.recording == !Dispatch(bus.subscribers[RecordingStarted], Str(p)).raised
      ensures !old(recorder.recording) && failAt != Recorder.Completes ==> !recorder.recording && effects == []
    {
      effects := recorder.StartRecording(Recorder.Toggle, stamp, failAt);
    }

    /** `_on_stop_recording_requested`: stops the recording, handing its path to the 'transcription' queue. */
    method OnStopRecordingRequested() returns (effects: seq<Effect>)
      requires Valid()
      modifies recorder, bus
      ensures Valid() && !recorder.recording && bus.subscribers == old(bus.subscribers)
      ensures recorder.mode == old(recorder.mode) && recorder.filePath == old(recorder.filePath)
      ensures !old(recorder.recording) ==> effects == [] && bus.queues == old(bus.queues)
      ensures old(recorder.recording) ==> !recorder.streamOpen && !recorder.waveOpen
      ensures old(recorder.recording) && "transcription" !in old(bus.queues) ==> effects == [] && bus.queues == old(bus.queues)
      ensures old(recorder.recording) && "transcription" in old(bus.queues) ==>
        var p := Str(old(recorder.filePath).value);
        && bus.queues == old(bus.queues)["transcription" := old(bus.queues["transcription"]).(items := old(bus.queues["transcription"].items) + [p])]
        && effects == [Put("transcription", p), Publish(RecordingStopped, p)]
    {
      var path;
      path, effects := recorder.StopRecording();
    }

    /**
     * `_on_toggle_recording_requested`: when recording, the recording stops
     * and its path is appended to the 'transcription' queue; otherwise a
     * recording starts in toggle mode and the queues are left alone.
     */
    method OnToggleRecordingRequested(stamp: string, failAt: Recorder.StartStep) returns (effects: seq<Effect>)
      requires Valid()
      modifies recorder, bus
      ensures Valid() && bus.subscribers == old(bus.subscribers)
      ensures old(recorder.recording) ==> !recorder.recording && recorder.filePath == old(recorder.filePath)
      ensures old(recorder.recording) && "transcription" in old(bus.queues) ==>
        bus.queues == old(bus.queues)["transcription" := old(bus.queues["transcription"]).(items := old(bus.queues["transcription"].items) + [Str(old(recorder.filePath).value)])]
      ensures !old(recorder.recording) ==> recorder.mode == Recorder.Toggle && bus.queues == old(bus.queues)
      ensures !old(recorder.recording) && failAt == Recorder.Completes
              && !Dispatch(bus.subscribers[RecordingStarted], Str(Recorder.RecordingPath(stamp))).raised ==>
        recorder.recording && recorder.filePath == Some(Recorder.RecordingPath(stamp))
      ensures !old(recorder.recording) && failAt != Recorder.Completes ==> !recorder.recording
    {
      var path;
      path, effects := recorder.ToggleRecording(stamp, failAt);
    }
  }
}
