/** The run history (`log_manager.py`): a JSON list of run entries kept in one file,
    newest first and at most fifty long. The file is a field of `HistoryFile`; whether
    it exists, whether it reads and parses, and whether a write fails are part of that
    state or parameters, and the clock is the `timestamp` parameter. */
module LogManager {
  import opened Wrappers
  import opened Json

  /** `len(logs) > 50` keeps the first fifty. */
  const MaxEntries: nat := 50

  /** What `sync_history.json` holds: no file, a file that cannot be read or is not
      JSON, or a parsed JSON value. */
  datatype StoredFile = Missing | Unreadable | Contents(value: Json)

  /** `load_logs()`: the parsed value, or the empty list for a missing, unreadable or
      corrupt file. */
  function LoadLogs(file: StoredFile): (r: Json)
    ensures file.Contents? ==> r == file.value
    ensures !file.Contents? ==> r == JArr([])
  {
    match file
    case Missing => JArr([])
    case Unreadable => JArr([])
    case Contents(v) => v
  }

  /** The entry `save_log` builds: the run's `stats` (default `{}`) and `details`
      (default `[]`) under the timestamp of the run. */
  function NewEntry(results: Dict, timestamp: string): (r: Dict)
    ensures r.Keys == {"timestamp", "stats", "details"}
    ensures r["timestamp"] == JStr(timestamp)
    ensures "stats" in results ==> r["stats"] == results["stats"]
    ensures "details" in results ==> r["details"] == results["details"]
    ensures "stats" !in results ==> r["stats"] == JObj(map[])
    ensures "details" !in results ==> r["details"] == JArr([])
  {
    map["timestamp" := JStr(timestamp),
        "stats" := Get(results, "stats", JObj(map[])),
        "details" := Get(results, "details", JArr([]))]
  }

  /** The history after one save: the new entry first, then the earlier entries in
      their order, cut at fifty. */
  function Saved(logs: seq<Json>, entry: Json): (r: seq<Json>)
    ensures |r| == if |logs| + 1 > MaxEntries then MaxEntries else |logs| + 1
    ensures r[0] == entry
    ensures forall i :: 1 <= i < |r| ==> r[i] == logs[i - 1]
  {
    var inserted := [entry] + logs;
    if |inserted| > MaxEntries then inserted[..MaxEntries] else inserted
  }

  /** Saving `entries` one after the other, first to last. */
  function SavedAll(logs: seq<Json>, entries: seq<Json>): (r: seq<Json>)
    decreases |entries|
  {
    if entries == [] then logs
    else Saved(SavedAll(logs, entries[..|entries| - 1]), entries[|entries| - 1])
  }

  function Reversed<T>(s: seq<T>): (r: seq<T>)
    ensures |r| == |s|
    ensures forall i :: 0 <= i < |s| ==> r[i] == s[|s| - 1 - i]
  {
    if s == [] then [] else [s[|s| - 1]] + Reversed(s[..|s| - 1])
  }

  function Take<T>(s: seq<T>, n: nat): (r: seq<T>)
    ensures |r| == if |s| < n then |s| else n
    ensures forall i :: 0 <= i < |r| ==> r[i] == s[i]
  {
    if |s| <= n then s else s[..n]
  }

  /** Saving several entries leaves the newest first, the older ones after it and
      the earlier history behind them, all cut at fifty: only the fifty most recent
      runs survive, in reverse order of saving. */
  lemma {:induction false} SavedAllSpec(logs: seq<Json>, entries: seq<Json>)
    requires |entries| > 0
    ensures SavedAll(logs, entries) == Take(Reversed(entries) + logs, MaxEntries)
  {
    var n := |entries| - 1;
    var before := SavedAll(logs, entries[..n]);
    var rest := Reversed(entries[..n]) + logs;
    if n == 0 {
      assert before == logs;
      assert Reversed(entries) + logs == [entries[n]] + rest;
    } else {
      SavedAllSpec(logs, entries[..n]);
      assert before == Take(rest, MaxEntries);
      assert Reversed(entries) + logs == [entries[n]] + rest;
    }
  }

  /** What a call of `save_log` ends in. `NotAList` is the exception raised when the
      stored JSON is not a list (`insert` is a list method); a failed write is caught
      and only printed, so it ends in `SavedLog(false)`. */
  datatype SaveOutcome = SavedLog(written: bool) | NotAList

  /** The history file; `save_log` replaces its contents. */
  class HistoryFile {
    var stored: StoredFile

    constructor(initial: StoredFile)
      ensures stored == initial
    {
      stored := initial;
    }

    /** `load_logs()` on the current file. */
    method Load() returns (logs: Json)
      ensures logs == LoadLogs(stored)
      ensures stored.Contents? && stored.value.JArr? ==> logs == stored.value
      ensures !stored.Contents? ==> logs == JArr([])
    {
      if stored.Contents? {
        logs := stored.value;
      } else {
        logs := JArr([]);
      }
    }

    /** `save_log(sync_results)` at `timestamp`; `writeFails` is the `IOError` of the
        write, after which the file is left as it was. */
    method SaveLog(results: Dict, timestamp: string, writeFails: bool) returns (outcome: SaveOutcome)
      modifies this
      ensures !LoadLogs(old(stored)).JArr? ==> outcome == NotAList && stored == old(stored)
      ensures LoadLogs(old(stored)).JArr? ==> outcome == SavedLog(!writeFails)
      ensures LoadLogs(old(stored)).JArr? && !writeFails ==>
        stored == Contents(JArr(Saved(LoadLogs(old(stored)).items, JObj(NewEntry(results, timestamp)))))
      ensures outcome == SavedLog(true) ==>
        LoadLogs(stored) == JArr(Saved(LoadLogs(old(stored)).items, JObj(NewEntry(results, timestamp))))
        && 1 <= |LoadLogs(stored).items| <= MaxEntries
      ensures writeFails ==> stored == old(stored)
    {
      var loaded := Load();
      if !loaded.JArr? {
        return NotAList;
      }
      var logs := loaded.items;
      var entry := JObj(NewEntry(results, timestamp));
      logs := [entry] + logs;
      if |logs| > MaxEntries {
        logs := logs[..MaxEntries];
      }
      if !writeFails {
        stored := Contents(JArr(logs));
      }
      outcome := SavedLog(!writeFails);
    }
  }
}
