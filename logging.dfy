/**
 * The two logging modules of the rewritten application: the error reporter
 * that files every ERROR event, the payloads the logger publishes, the
 * logger singletons, and the start-up housekeeping that archives rotated
 * logs and deletes archives past their retention.
 *
 * The log records themselves (console and file handlers, formats, levels)
 * and the critical-error dialog's widget are not modelled; the dialog is a
 * flag saying whether one is shown.
 */
module Logging {
  import opened Values
  import opened EventBus

  datatype Severity = ErrorSeverity | Critical

  /** One filed error: {timestamp, message, severity, traceback}. */
  datatype ErrorRecord = ErrorRecord(timestamp: string, message: Value, severity: Severity, traceback: Value)

  /** The record `_on_error_event` files for a dictionary payload received at `now`. */
  function RecordOf(data: map<string, Value>, now: string): ErrorRecord
  {
    ErrorRecord(
      now,
      Get(data, "message", Str("")),
      if Truthy(Get(data, "critical", Nil)) then Critical else ErrorSeverity,
      Get(data, "traceback", Nil))
  }

  /**
   * `lst[start:]` for a Python list: a negative start counts from the end
   * and is clipped at the front; a start past the end gives the empty list.
   */
  function PySliceFrom<T>(s: seq<T>, start: int): (r: seq<T>)
    ensures 0 <= start ==> r == s[if start <= |s| then start else |s|..]
    ensures start < 0 ==> r == s[if |s| + start < 0 then 0 else |s| + start..]
  {
    if start < 0 then (if |s| + start < 0 then s else s[|s| + start..])
    else if start <= |s| then s[start..] else []
  }

  /** What `get_recent_errors(limit)`, that is `_errors[-limit:]`, hands back. */
  function RecentErrors(errors: seq<ErrorRecord>, limit: int): (r: seq<ErrorRecord>)
    ensures limit == 0 ==> r == errors
    ensures 0 < limit ==> |r| == (if limit <= |errors| then limit else |errors|) && r == errors[|errors| - |r|..]
    ensures limit < 0 ==> r == errors[if -limit <= |errors| then -limit else |errors|..]
  {
    PySliceFrom(errors, -limit)
  }

  class ErrorReporter {
    var errors: seq<ErrorRecord>

    /** `ErrorReporter(event_bus)`: no errors yet. */
    constructor ()
      ensures errors == []
    {
      errors := [];
    }

    /**
     * `_on_error_event(data)`: a dictionary payload appends exactly one
     * record, and a dialog is shown when it is critical and a GUI is there
     * to show it; any other payload has no `.get` and raises, filing nothing.
     */
    method OnErrorEvent(data: Value, now: string, guiAvailable: bool) returns (raised: bool, dialog: bool)
      modifies this
      ensures raised <==> !data.Dict?
      ensures raised ==> errors == old(errors) && !dialog
      ensures !raised ==> errors == old(errors) + [RecordOf(data.entries, now)]
      ensures !raised ==> (dialog <==> Truthy(Get(data.entries, "critical", Nil)) && guiAvailable)
    {
      if !data.Dict? {
        return true, false;
      }
      var record := RecordOf(data.entries, now);
      errors := errors + [record];
      raised := false;
      dialog := Truthy(Get(data.entries, "critical", Nil)) && guiAvailable;
    }

    /** `get_recent_errors(limit)` */
    function GetRecentErrors(limit: int): (r: seq<ErrorRecord>)
      reads this
      ensures limit == 0 ==> r == errors
      ensures 0 < limit ==> |r| == (if limit <= |errors| then limit else |errors|) && r == errors[|errors| - |r|..]
    {
      RecentErrors(errors, limit)
    }
  }

  /** The payload `error(message)` publishes. */
  function ErrorPayload(message: string): Value
  {
    Dict(map["message" := Str(message)])
  }

  /** The payload `critical(message)` publishes. */
  function CriticalPayload(message: string): Value
  {
    Dict(map["message" := Str(message), "critical" := Bool(true)])
  }

  /** The payload `exception(message)` publishes, with the formatted traceback. */
  function ExceptionPayload(message: string, traceback: string): Value
  {
    Dict(map["message" := Str(message), "traceback" := Str(traceback)])
  }

  /**
   * What the reporter files for each of the logger's payloads: the message,
   * CRITICAL only for `critical`, and a traceback only for `exception`.
   */
  lemma ReporterFilesLoggedErrors(message: string, traceback: string, now: string)
    ensures RecordOf(ErrorPayload(message).entries, now) == ErrorRecord(now, Str(message), ErrorSeverity, Nil)
    ensures RecordOf(CriticalPayload(message).entries, now) == ErrorRecord(now, Str(message), Critical, Nil)
    ensures RecordOf(ExceptionPayload(message, traceback).entries, now) == ErrorRecord(now, Str(message), ErrorSeverity, Str(traceback))
  {
    assert "critical" !in ErrorPayload(message).entries;
    assert "traceback" !in CriticalPayload(message).entries;
    assert "critical" !in ExceptionPayload(message, traceback).entries;
  }

  /** The logger of src/utils/logger.py: it publishes ERROR events when an event bus is there. */
  class Logger {
    var bus: Bus?
    var reporter: ErrorReporter?

    constructor ()
      ensures bus == null && reporter == null
    {
      bus := null;
      reporter := null;
    }

    /** `error(message)` */
    method LogError(message: string) returns (calls: seq<Call>, raised: bool)
      requires bus != null ==> bus.Valid()
      ensures bus == null ==> calls == [] && !raised
      ensures bus != null ==> Dispatched(calls, raised) == Dispatch(bus.subscribers[Error], ErrorPayload(message))
    {
      calls, raised := [], false;
      if bus != null {
        calls, raised := bus.Publish(Error, ErrorPayload(message));
      }
    }

    /** `critical(message)` */
    method LogCritical(message: string) returns (calls: seq<Call>, raised: bool)
      requires bus != null ==> bus.Valid()
      ensures bus == null ==> calls == [] && !raised
      ensures bus != null ==> Dispatched(calls, raised) == Dispatch(bus.subscribers[Error], CriticalPayload(message))
    {
      calls, raised := [], false;
      if bus != null {
        calls, raised := bus.Publish(Error, CriticalPayload(message));
      }
    }

    /** `exception(message)`, with the traceback of the exception being handled. */
    method LogException(message: string, traceback: string) returns (calls: seq<Call>, raised: bool)
      requires bus != null ==> bus.Valid()
      ensures bus == null ==> calls == [] && !raised
      ensures bus != null ==> Dispatched(calls, raised) == Dispatch(bus.subscribers[Error], ExceptionPayload(message, traceback))
    {
      calls, raised := [], false;
      if bus != null {
        calls, raised := bus.Publish(Error, ExceptionPayload(message, traceback));
      }
    }
  }

  /**
   * The class attributes behind `Logger()` in src/utils/logger.py: `__new__`
   * creates the one instance, and `__init__` runs its body only while
   * `_initialized` is unset.
   */
  class LoggerClass {
    var instance: Logger?
    var initialized: bool
    ghost var initCount: nat

    ghost predicate Valid()
      reads this
    {
      && (initialized ==> instance != null)
      && initCount == if initialized then 1 else 0
    }

    constructor ()
      ensures Valid() && instance == null && !initialized
    {
      instance := null;
      initialized := false;
      initCount := 0;
    }

    /** `Logger()`: the same instance every time; the first call also sets it up with `eventBus`. */
    method Construct(eventBus: Bus?) returns (l: Logger)
      requires Valid()
      modifies this, instance
      ensures Valid() && initialized && instance == l
      ensures old(instance) != null ==> l == old(instance)
      ensures old(instance) == null ==> fresh(l)
      ensures old(initialized) ==> initCount == old(initCount) && l.bus == old(l.bus) && l.reporter == old(l.reporter)
      ensures !old(initialized) ==> l.bus == eventBus && l.reporter != null && fresh(l.reporter) && l.reporter.errors == []
    {
      if instance == null {
        instance := new Logger();
      }
      l := instance;
      if initialized {
        return;
      }
      initialized := true;
      initCount := initCount + 1;
      l.bus := eventBus;
      var reporter := new ErrorReporter();
      l.reporter := reporter;
    }
  }

  /** However often `Logger()` is called, there is one instance, set up once. */
  method ConstructTwice(c: LoggerClass, bus1: Bus?, bus2: Bus?) returns (l1: Logger, l2: Logger)
    requires c.Valid()
    modifies c, c.instance
    ensures l1 == l2 && c.initCount == 1
  {
    l1 := c.Construct(bus1);
    l2 := c.Construct(bus2);
  }

  /**
   * The class attributes behind `Logger()` in
   * src/whisperdesktop/utils/logger.py: `__new__` creates the instance and
   * initialises it only when there is none yet.
   */
  class PackageLoggerClass {
    var instance: object?
    ghost var initCount: nat

    ghost predicate Valid()
      reads this
    {
      initCount == if instance == null then 0 else 1
    }

    constructor ()
      ensures Valid() && instance == null
    {
      instance := null;
      initCount := 0;
    }

    /** `Logger()` */
    method Construct() returns (l: object)
      requires Valid()
      modifies this
      ensures Valid() && instance == l
      ensures old(instance) != null ==> l == old(instance) && initCount == old(initCount)
      ensures old(instance) == null ==> fresh(l) && initCount == 1
    {
      if instance == null {
        var created := new object;
        instance := created;
        initCount := initCount + 1;   // `_initialize_logger()`
      }
      l := instance;
    }
  }

  /** Microseconds in a day: the resolution of `datetime` arithmetic. */
  const MicrosPerDay: int := 86_400_000_000

  /** The defaults of the environment-configurable settings. */
  const DefaultBackupCount := 5
  const DefaultRetentionDays := 30

  /** `(now - mtime).days`: whole days, rounded down (Dafny's `/` floors for a positive divisor). */
  function AgeInDays(now: int, mtime: int): int
  {
    (now - mtime) / MicrosPerDay
  }

  /** An archived log is deleted when its age in whole days exceeds the retention. */
  predicate Expired(now: int, mtime: int, retentionDays: int)
  {
    AgeInDays(now, mtime) > retentionDays
  }

  /** Expired exactly when at least retention + 1 full days have passed. */
  lemma ExpiredIff(now: int, mtime: int, retentionDays: int)
    ensures Expired(now, mtime, retentionDays) <==> now - mtime >= (retentionDays + 1) * MicrosPerDay
  {
    var d := now - mtime;
    var q := d / MicrosPerDay;
    assert d == q * MicrosPerDay + d % MicrosPerDay;
    if q > retentionDays {
      assert q * MicrosPerDay >= (retentionDays + 1) * MicrosPerDay;
    } else {
      assert q * MicrosPerDay <= retentionDays * MicrosPerDay;
    }
  }

  /** An older file than an expired one is expired too. */
  lemma ExpiredMonotone(now: int, mtime: int, older: int, retentionDays: int)
    requires older <= mtime && Expired(now, mtime, retentionDays)
    ensures Expired(now, older, retentionDays)
  {
    ExpiredIff(now, mtime, retentionDays);
    ExpiredIff(now, older, retentionDays);
  }

  /** The rotated indices `archive_old_logs` moves: those of 1..n whose file exists, in increasing order. */
  function RotatedPresent(rotated: set<int>, n: int): seq<int>
    decreases n
  {
    if n <= 0 then []
    else RotatedPresent(rotated, n - 1) + (if n in rotated then [n] else [])
  }

  predicate Increasing(r: seq<int>)
  {
    forall i, j | 0 <= i < j < |r| :: r[i] < r[j]
  }

  /** The indices are visited in increasing order, each at most once. */
  lemma {:induction false} RotatedPresentIncreasing(rotated: set<int>, n: int)
    ensures Increasing(RotatedPresent(rotated, n))
    decreases n
  {
    if n > 0 {
      var prev := RotatedPresent(rotated, n - 1);
      RotatedPresentIncreasing(rotated, n - 1);
      forall m | 0 <= m < |prev|
        ensures prev[m] < n
      {
        RotatedPresentComplete(rotated, n - 1, prev[m]);
      }
      var r := RotatedPresent(rotated, n);
      assert r == prev + (if n in rotated then [n] else []);
      forall i, j | 0 <= i < j < |r|
        ensures r[i] < r[j]
      {
        if j < |prev| {
          assert r[i] == prev[i] && r[j] == prev[j];
          assert prev[i] < prev[j];
        } else {
          assert r[i] == prev[i] && r[j] == n;
          assert prev[i] < n;
        }
      }
    }
  }

  /** Every existing rotated log with an index in 1..n is visited, and nothing else is. */
  lemma {:induction false} RotatedPresentComplete(rotated: set<int>, n: int, k: int)
    ensures k in RotatedPresent(rotated, n) <==> 1 <= k <= n && k in rotated
    decreases n
  {
    if n > 0 {
      RotatedPresentComplete(rotated, n - 1, k);
    }
  }

  /**
   * `archive_old_logs()` over the indices 1..backup_count: each rotated log
   * that exists is moved (`moveOk` says whether the move succeeds; a failed
   * move is logged and the loop goes on).
   */
  method ArchiveOldLogs(rotated: set<int>, backupCount: int, moveOk: int -> bool) returns (visited: seq<int>, moved: seq<int>)
    ensures visited == RotatedPresent(rotated, backupCount)
    ensures moved == Succeeded(visited, moveOk)
  {
    visited, moved := [], [];
    var n := if backupCount < 0 then 0 else backupCount;
    for i := 1 to n + 1
      invariant visited == RotatedPresent(rotated, i - 1)
      invariant moved == Succeeded(visited, moveOk)
    {
      if i in rotated {
        SucceededSnoc(visited, i, moveOk);
        visited := visited + [i];
        if moveOk(i) {
          moved := moved + [i];
        }
      }
    }
  }

  /** The members of `xs` for which `ok` holds, in order. */
  function Succeeded<T>(xs: seq<T>, ok: T -> bool): seq<T>
  {
    if xs == [] then [] else (if ok(xs[0]) then [xs[0]] else []) + Succeeded(xs[1..], ok)
  }

  lemma {:induction false} SucceededSnoc<T>(xs: seq<T>, x: T, ok: T -> bool)
    ensures Succeeded(xs + [x], ok) == Succeeded(xs, ok) + (if ok(x) then [x] else [])
    decreases |xs|
  {
    if xs == [] {
      assert [x][1..] == [];
    } else {
      var head := if ok(xs[0]) then [xs[0]] else [];
      var last := if ok(x) then [x] else [];
      assert (xs + [x])[0] == xs[0] && (xs + [x])[1..] == xs[1..] + [x];
      SucceededSnoc(xs[1..], x, ok);
      assert Succeeded(xs + [x], ok) == head + (Succeeded(xs[1..], ok) + last);
      AppendAssoc(head, Succeeded(xs[1..], ok), last);
    }
  }

  /** An archived log as the glob finds it: its path and, when it can be read, its modification time. */
  datatype Archived = Archived(path: string, mtime: Option<int>)

  /** The logs `cleanup_old_logs()` deletes: those whose time was read, past retention, whose removal succeeds. */
  function Deleted(files: seq<Archived>, now: int, retentionDays: int, removeOk: string -> bool): (r: seq<string>)
    ensures |r| <= |files|
    decreases |files|
  {
    if files == [] then []
    else
      var f := files[|files| - 1];
      Deleted(files[..|files| - 1], now, retentionDays, removeOk)
      + (if f.mtime.Some? && Expired(now, f.mtime.value, retentionDays) && removeOk(f.path) then [f.path] else [])
  }

  /** A file is deleted only if it is past retention: nothing younger is ever removed. */
  lemma {:induction false} DeletedAreExpired(files: seq<Archived>, now: int, retentionDays: int, removeOk: string -> bool, p: string)
    requires p in Deleted(files, now, retentionDays, removeOk)
    ensures exists i | 0 <= i < |files| :: files[i].path == p && files[i].mtime.Some? && Expired(now, files[i].mtime.value, retentionDays)
    decreases |files|
  {
    var init := files[..|files| - 1];
    var f := files[|files| - 1];
    if p in Deleted(init, now, retentionDays, removeOk) {
      DeletedAreExpired(init, now, retentionDays, removeOk, p);
      var i :| 0 <= i < |init| && init[i].path == p && init[i].mtime.Some? && Expired(now, init[i].mtime.value, retentionDays);
      assert files[i] == init[i];
    } else {
      assert files[|files| - 1] == f && f.path == p;
    }
  }

  /**
   * `cleanup_old_logs()` over the globbed archive: each log whose time can
   * be read and whose age exceeds the retention is removed; a failure to
   * read or remove is logged and the loop goes on.
   */
  method CleanupOldLogs(files: seq<Archived>, now: int, retentionDays: int, removeOk: string -> bool) returns (removed: seq<string>)
    ensures removed == Deleted(files, now, retentionDays, removeOk)
  {
    removed := [];
    for i := 0 to |files|
      invariant removed == Deleted(files[..i], now, retentionDays, removeOk)
    {
      var f := files[i];
      assert files[..i + 1][..i] == files[..i];
      if f.mtime.Some? && Expired(now, f.mtime.value, retentionDays) && removeOk(f.path) {
        removed := removed + [f.path];
      }
    }
    assert files[..|files|] == files;
  }
}
