/**
 * The per-project file-watch registry of the acemcp tool (`WatcherManager`):
 * a global auto-index switch and a map from a normalized project key to the
 * watch that feeds that project's re-index task.
 *
 * The filesystem is not modelled. Resolving a path to its canonical form is a
 * parameter `canon` of every operation that needs it (the state of the disk
 * when the call is made), and whether the OS watch can be created and attached
 * is given by the `createError`/`watchError` parameters of `StartWatching`.
 */
module AcemcpWatcher {
  import opened Wrappers

  /** Resolution of a path on disk (`canonicalize()`): None when it fails. */
  type Canonicalizer = string -> Option<string>

  /** Debounce delay used when the caller gives none (3 minutes). */
  const DefaultDebounceMs: nat := 180_000

  /** Capacity of the signal channel between the debouncer and the re-index task. */
  const SignalCapacity: nat := 100

  // ---------------------------------------------------------------------------
  // Project keys
  // ---------------------------------------------------------------------------

  /** Rewrites every `\` to `/` and leaves every other character as it is. */
  function ToForwardSlashes(s: string): (r: string)
    ensures |r| == |s|
    ensures forall i :: 0 <= i < |s| ==> r[i] == (if s[i] == '\\' then '/' else s[i])
    ensures '\\' !in r
  {
    if s == [] then [] else [if s[0] == '\\' then '/' else s[0]] + ToForwardSlashes(s[1..])
  }

  /** Rewriting separators twice is rewriting them once. */
  lemma ToForwardSlashesIdempotent(s: string)
    ensures ToForwardSlashes(ToForwardSlashes(s)) == ToForwardSlashes(s)
  {
    var r := ToForwardSlashes(s);
    assert forall i :: 0 <= i < |r| ==> r[i] != '\\';
  }

  /** The path the OS watch is attached to: the canonical path, or the literal input when resolution fails. */
  function WatchPath(canon: Canonicalizer, projectRoot: string): (path: string)
    ensures canon(projectRoot).None? ==> path == projectRoot
    ensures canon(projectRoot).Some? ==> path == canon(projectRoot).value
  {
    canon(projectRoot).GetOr(projectRoot)
  }

  /** The registry key of a project: its watch path with every `\` rewritten to `/`. */
  function NormalizeKey(canon: Canonicalizer, projectRoot: string): (key: string)
    ensures '\\' !in key
    ensures ToForwardSlashes(key) == key
    ensures |key| == |WatchPath(canon, projectRoot)|
    ensures forall i :: 0 <= i < |key| ==>
      key[i] == WatchPath(canon, projectRoot)[i] || (WatchPath(canon, projectRoot)[i] == '\\' && key[i] == '/')
  {
    ToForwardSlashesIdempotent(WatchPath(canon, projectRoot));
    ToForwardSlashes(WatchPath(canon, projectRoot))
  }

  /**
   * Normalizing a key again gives the same key whenever the key itself does
   * not resolve on disk (for instance a project that does not exist yet).
   */
  lemma {:induction false} NormalizeKeyStableWhenUnresolved(canon: Canonicalizer, projectRoot: string)
    requires canon(NormalizeKey(canon, projectRoot)).None?
    ensures NormalizeKey(canon, NormalizeKey(canon, projectRoot)) == NormalizeKey(canon, projectRoot)
  {
    ToForwardSlashesIdempotent(WatchPath(canon, projectRoot));
  }

  /** A disk on which `a\b` does not exist but `a/b` resolves to `/home/a/b`. */
  function ResolvesOnlyForwardSpelling(path: string): Option<string> {
    if path == "a/b" then Some("/home/a/b") else None
  }

  /**
   * Normalization is not idempotent in general: `a\b` fails to resolve and
   * becomes `a/b`, which does resolve, to a different key.
   */
  lemma NormalizeKeyNotIdempotent()
    ensures NormalizeKey(ResolvesOnlyForwardSpelling, "a\\b") == "a/b"
    ensures NormalizeKey(ResolvesOnlyForwardSpelling, "a/b") == "/home/a/b"
  {
    assert ResolvesOnlyForwardSpelling("a\\b") == None;
    var r := ToForwardSlashes("a\\b");
    assert r[0] == 'a' && r[1] == '/' && r[2] == 'b';
    assert r == "a/b";
    NoBackslashUnchanged("/home/a/b");
  }

  /** A path without `\` is left as it is. */
  lemma NoBackslashUnchanged(s: string)
    requires '\\' !in s
    ensures ToForwardSlashes(s) == s
  {
    var r := ToForwardSlashes(s);
    assert forall i :: 0 <= i < |s| ==> r[i] == s[i];
  }

  // ---------------------------------------------------------------------------
  // Defaults and per-trigger rules
  // ---------------------------------------------------------------------------

  /**
   * The auto-index switch at start-up, from the result of loading the stored
   * configuration projected to its `acemcp_auto_index_enabled` field.
   */
  function InitialAutoIndexEnabled(loaded: Result<Option<bool>, string>): (enabled: bool)
    ensures !enabled <==> loaded == Ok(Some(false))
  {
    match loaded
    case Ok(Some(b)) => b
    case _ => true
  }

  function DebounceDelay(debounceMs: Option<nat>): (ms: nat)
    ensures debounceMs.None? ==> ms == DefaultDebounceMs
    ensures debounceMs.Some? ==> ms == debounceMs.value
  {
    debounceMs.GetOr(DefaultDebounceMs)
  }

  /** A filesystem change reported by the debouncer, by the paths it touched. */
  datatype FileEvent = FileEvent(paths: seq<string>)

  /** What the debouncer hands its callback after a quiet period. */
  datatype DebounceEventResult = Events(events: seq<FileEvent>) | Errors(errors: seq<string>)

  /** The callback asks for a re-index exactly for a non-empty batch of events; errors are only logged. */
  function RequestsIndex(result: DebounceEventResult): (signal: bool)
    ensures signal <==> result.Events? && result.events != []
  {
    match result
    case Events(events) => |events| > 0
    case Errors(_) => false
  }

  /**
   * Signals waiting in the channel after one callback. `try_send` never
   * blocks and its failure is discarded: when the channel is full the signal
   * is dropped and nothing reports an error.
   */
  function PendingAfterCallback(pending: nat, result: DebounceEventResult): (after: nat)
    ensures after == pending || after == pending + 1
    ensures after == pending + 1 <==> RequestsIndex(result) && pending < SignalCapacity
    ensures pending <= SignalCapacity ==> after <= SignalCapacity
  {
    if RequestsIndex(result) && pending < SignalCapacity then pending + 1 else pending
  }

  /** The configuration one trigger indexes with: a fresh read when it succeeds, the one captured at start otherwise. */
  function TriggerConfig<C>(latest: Result<C, string>, fallback: C): (config: C)
    ensures latest.Ok? ==> config == latest.value
    ensures latest.Err? ==> config == fallback
  {
    match latest
    case Ok(c) => c
    case Err(_) => fallback
  }

  /** The re-index task of one watch: the project key it indexes and the configuration captured at start. */
  datatype TriggerTask<C> = TriggerTask(projectRoot: string, fallbackConfig: C)

  /** One call of the external `update_index(config, project_root)`. */
  datatype IndexCall<C> = IndexCall(config: C, projectRoot: string)

  /** How many of the index calls failed. */
  function CountFailures(outcomes: seq<Result<nat, string>>): (n: nat)
    ensures n <= |outcomes|
  {
    if outcomes == [] then 0
    else CountFailures(outcomes[..|outcomes| - 1]) + (if outcomes[|outcomes| - 1].Err? then 1 else 0)
  }

  /**
   * The task's loop over the signals it receives, the i-th signal finding
   * `latestReads[i]` when it re-reads the configuration and its index call
   * ending with `outcomes[i]` (the number of blobs, or an error). Each signal
   * makes exactly one indexing call, in arrival order; a failed call is only
   * counted (the source logs it), so it never stops the loop.
   */
  method ProcessSignals<C>(task: TriggerTask<C>, latestReads: seq<Result<C, string>>, outcomes: seq<Result<nat, string>>)
    returns (calls: seq<IndexCall<C>>, failures: nat)
    requires |outcomes| == |latestReads|
    ensures |calls| == |latestReads|
    ensures forall i :: 0 <= i < |calls| ==>
      calls[i] == IndexCall(TriggerConfig(latestReads[i], task.fallbackConfig), task.projectRoot)
    ensures failures == CountFailures(outcomes)
  {
    calls := [];
    failures := 0;
    var i := 0;
    while i < |latestReads|
      invariant 0 <= i <= |latestReads|
      invariant |calls| == i
      invariant forall j :: 0 <= j < i ==>
        calls[j] == IndexCall(TriggerConfig(latestReads[j], task.fallbackConfig), task.projectRoot)
      invariant failures == CountFailures(outcomes[..i])
    {
      var config := TriggerConfig(latestReads[i], task.fallbackConfig);
      calls := calls + [IndexCall(config, task.projectRoot)];
      assert outcomes[..i + 1][..i] == outcomes[..i];
      if outcomes[i].Err? {
        failures := failures + 1;
      }
      i := i + 1;
    }
    assert outcomes[..i] == outcomes;
  }

  // ---------------------------------------------------------------------------
  // The registry
  // ---------------------------------------------------------------------------

  /**
   * What the registry holds per project: the debouncer (the path it watches
   * and its delay) together with the re-index task it signals. Dropping the
   * entry drops the channel's sender, which ends the task.
   */
  datatype WatchEntry<C> = WatchEntry(watchPath: string, delayMs: nat, task: TriggerTask<C>)

  class WatcherManager<C> {
    var watchers: map<string, WatchEntry<C>>
    var autoIndexEnabled: bool

    /** Every key is the normalized form of its watch path, and its task indexes that key. */
    ghost predicate Valid()
      reads this
    {
      forall key :: key in watchers ==>
        ToForwardSlashes(watchers[key].watchPath) == key && watchers[key].task.projectRoot == key
    }

    /** `new`: an empty registry; auto-index is on unless the stored configuration turns it off. */
    constructor (loaded: Result<Option<bool>, string>)
      ensures Valid()
      ensures watchers == map[]
      ensures autoIndexEnabled == InitialAutoIndexEnabled(loaded)
    {
      watchers := map[];
      autoIndexEnabled := InitialAutoIndexEnabled(loaded);
    }

    method IsAutoIndexEnabled() returns (enabled: bool)
      ensures enabled == autoIndexEnabled
    {
      enabled := autoIndexEnabled;
    }

    /** Changes the switch only: running watches are neither started nor stopped. */
    method SetAutoIndexEnabled(enabled: bool)
      requires Valid()
      modifies this`autoIndexEnabled
      ensures Valid()
      ensures autoIndexEnabled == enabled
      ensures watchers == old(watchers)
    {
      autoIndexEnabled := enabled;
    }

    /**
     * Starts watching a project unless auto-index is off or the project's key
     * is already watched (both succeed and change nothing). Otherwise the
     * debouncer is created and attached; if either step fails the error is
     * returned and nothing is registered.
     */
    method StartWatching(projectRoot: string, config: C, debounceMs: Option<nat>, canon: Canonicalizer,
                         createError: Option<string>, watchError: Option<string>)
      returns (r: Result<Unit, string>)
      requires Valid()
      modifies this`watchers
      ensures Valid()
      ensures !old(autoIndexEnabled) ==> r == Ok(Unit) && watchers == old(watchers)
      ensures NormalizeKey(canon, projectRoot) in old(watchers) ==> r == Ok(Unit) && watchers == old(watchers)
      ensures r.Err? <==>
        old(autoIndexEnabled) && NormalizeKey(canon, projectRoot) !in old(watchers)
        && (createError.Some? || watchError.Some?)
      ensures r.Err? ==>
        && watchers == old(watchers)
        && r.error == (if createError.Some? then createError.value else watchError.value)
      ensures old(autoIndexEnabled) && NormalizeKey(canon, projectRoot) !in old(watchers) && r.Ok? ==>
        var key := NormalizeKey(canon, projectRoot);
        watchers == old(watchers)[key := WatchEntry(WatchPath(canon, projectRoot), DebounceDelay(debounceMs),
                                                    TriggerTask(key, config))]
    {
      if !autoIndexEnabled {
        return Ok(Unit);
      }
      var watchPath := WatchPath(canon, projectRoot);
      var key := NormalizeKey(canon, projectRoot);
      if key in watchers {
        return Ok(Unit);
      }
      var delayMs := DebounceDelay(debounceMs);
      if createError.Some? {
        return Err(createError.value);
      }
      if watchError.Some? {
        return Err(watchError.value);
      }
      watchers := watchers[key := WatchEntry(watchPath, delayMs, TriggerTask(key, config))];
      r := Ok(Unit);
    }

    /** Stops watching a project; succeeds whether or not it was watched. */
    method StopWatching(projectRoot: string, canon: Canonicalizer) returns (r: Result<Unit, string>)
      requires Valid()
      modifies this`watchers
      ensures Valid()
      ensures r == Ok(Unit)
      ensures watchers == old(watchers) - {NormalizeKey(canon, projectRoot)}
    {
      var key := NormalizeKey(canon, projectRoot);
      watchers := watchers - {key};
      r := Ok(Unit);
    }

    method StopAll()
      requires Valid()
      modifies this`watchers
      ensures Valid()
      ensures watchers == map[]
    {
      watchers := map[];
    }

    /** The watched project keys, each once, in no particular order. */
    method GetWatchingProjects() returns (projects: seq<string>)
      requires Valid()
      ensures forall p :: p in projects <==> p in watchers
      ensures forall p :: p in projects ==> '\\' !in p && ToForwardSlashes(p) == p
      ensures forall i, j :: 0 <= i < j < |projects| ==> projects[i] != projects[j]
      ensures |projects| == |watchers|
    {
      projects := [];
      var rest := watchers.Keys;
      while rest != {}
        invariant rest <= watchers.Keys
        invariant forall p :: p in projects <==> p in watchers && p !in rest
        invariant forall i, j :: 0 <= i < j < |projects| ==> projects[i] != projects[j]
        invariant |projects| + |rest| == |watchers.Keys|
        decreases rest
      {
        var p :| p in rest;
        ToForwardSlashesIdempotent(watchers[p].watchPath);
        projects := projects + [p];
        rest := rest - {p};
      }
    }

    method IsWatching(projectRoot: string, canon: Canonicalizer) returns (watching: bool)
      ensures watching <==> NormalizeKey(canon, projectRoot) in watchers
    {
      var key := NormalizeKey(canon, projectRoot);
      watching := key in watchers;
    }
  }

  // ---------------------------------------------------------------------------
  // Whole-manager scenarios
  // ---------------------------------------------------------------------------

  /**
   * Starting the same project twice, with the disk unchanged in between and
   * the watch attaching, leaves exactly one watch, and the second call succeeds.
   */
  method StartTwiceWatchesOnce<C>(projectRoot: string, config: C, canon: Canonicalizer)
    returns (first: Result<Unit, string>, second: Result<Unit, string>, projects: seq<string>)
    ensures first == Ok(Unit)
    ensures second == Ok(Unit)
    ensures projects == [NormalizeKey(canon, projectRoot)]
  {
    var m := new WatcherManager<C>(Err("no stored configuration"));
    first := m.StartWatching(projectRoot, config, None, canon, None, None);
    assert first.Ok? && first.value.Unit?;
    ghost var key := NormalizeKey(canon, projectRoot);
    assert key in m.watchers;
    second := m.StartWatching(projectRoot, config, None, canon, None, None);
    projects := m.GetWatchingProjects();
    assert m.watchers.Keys == {NormalizeKey(canon, projectRoot)};
  }

  /** With auto-index switched off, starting a project succeeds and watches nothing. */
  method StartWhileDisabledWatchesNothing<C>(projectRoot: string, config: C, canon: Canonicalizer)
    returns (r: Result<Unit, string>, watching: bool)
    ensures r == Ok(Unit)
    ensures !watching
  {
    var m := new WatcherManager<C>(Ok(None));
    m.SetAutoIndexEnabled(false);
    r := m.StartWatching(projectRoot, config, None, canon, None, None);
    watching := m.IsWatching(projectRoot, canon);
  }
}
