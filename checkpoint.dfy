/** The progress log (`progress_log.json`) the content runners write after
    every batch, in the three shapes of `save_progress_log`, and the search
    of the resumable runner for the newest unfinished run
    (`load_progress_log`).  The clock reading is a parameter, the file read
    back is a `LogFile` value and the working directory a list of entries
    with the log file found in each. */
module Checkpoint {
  import opened Common
  import opened Text

  /** The `is_completed` entry of a progress log: absent (the basic runner
      does not write it), a JSON `null`, or a boolean. */
  datatype CompletedFlag = NoFlag | NullFlag | Flag(value: bool)

  /** `not progress_data.get("is_completed", True)`: an absent entry reads
      as `True`, so the run counts as finished; a `null` is falsy, so the
      run counts as unfinished. */
  predicate NotCompleted(f: CompletedFlag) {
    match f
    case NoFlag => false
    case NullFlag => true
    case Flag(b) => !b
  }

  /** The dictionary written to `progress_log.json`.  `None` is a JSON
      `null` or, for `outputDirName`, a key the writer does not emit; the
      duration fields are not modelled. */
  datatype ProgressLog = ProgressLog(
    startTime: Option<string>,
    endTime: Option<string>,
    lastUpdate: string,
    processedCount: nat,
    totalCount: nat,
    successfulCount: nat,
    failedCount: nat,
    percentage: Rate,
    isCompleted: CompletedFlag,
    outputDirName: Option<string>)

  /** The log file as a writer or the loader finds it: absent, present but
      not loadable, or loaded. */
  datatype LogFile = NoLog | Unreadable | Stored(log: ProgressLog)

  /** `existing_data.get("start_time")`: an absent or unreadable file reads as `{}`. */
  function PriorStartTime(existing: LogFile): Option<string> {
    if existing.Stored? then existing.log.startTime else None
  }

  /** `existing_data.get("output_dir_name")`. */
  function PriorDirName(existing: LogFile): Option<string> {
    if existing.Stored? then existing.log.outputDirName else None
  }

  /** `save_progress_log(output_dir, processed, total, successful, failed)` of
      the basic runner: no times, no completion flag. */
  function BasicProgressLog(processed: nat, total: nat, successful: nat, failed: nat, now: string): (p: ProgressLog)
    ensures p.processedCount == processed && p.totalCount == total
    ensures p.successfulCount == successful && p.failedCount == failed
    ensures p.percentage == NoTotal <==> total == 0
    ensures p.isCompleted == NoFlag && p.startTime == None && p.outputDirName == None
  {
    ProgressLog(None, None, now, processed, total, successful, failed, Percentage(processed, total), NoFlag, None)
  }

  /** `save_progress_log(..., start_time, end_time)` of the checkpointed runner. */
  function TimedProgressLog(existing: LogFile, processed: nat, total: nat, successful: nat, failed: nat,
                            startTime: Option<string>, endTime: Option<string>, now: string): (p: ProgressLog)
    ensures p.processedCount == processed && p.totalCount == total
    ensures p.successfulCount == successful && p.failedCount == failed
    ensures p.percentage == NoTotal <==> total == 0
    ensures p.isCompleted == Flag(processed >= total)
    ensures p.endTime == endTime && p.outputDirName == None
    ensures Truthy(startTime) ==> p.startTime == startTime
    ensures !Truthy(startTime) ==> p.startTime == PriorStartTime(existing)
  {
    ProgressLog(PyOr(startTime, PriorStartTime(existing)), endTime, now, processed, total, successful, failed,
                Percentage(processed, total), Flag(processed >= total), None)
  }

  /** `save_progress_log(..., start_time, end_time, output_dir_name)` of the resumable runner. */
  function NamedProgressLog(existing: LogFile, processed: nat, total: nat, successful: nat, failed: nat,
                            startTime: Option<string>, endTime: Option<string>, dirName: Option<string>,
                            now: string): (p: ProgressLog)
    ensures p.processedCount == processed && p.totalCount == total
    ensures p.successfulCount == successful && p.failedCount == failed
    ensures p.percentage == NoTotal <==> total == 0
    ensures p.isCompleted == Flag(processed >= total)
    ensures p.endTime == endTime
    ensures Truthy(startTime) ==> p.startTime == startTime
    ensures !Truthy(startTime) ==> p.startTime == PriorStartTime(existing)
    ensures Truthy(dirName) ==> p.outputDirName == dirName
    ensures !Truthy(dirName) ==> p.outputDirName == PriorDirName(existing)
  {
    ProgressLog(PyOr(startTime, PriorStartTime(existing)), endTime, now, processed, total, successful, failed,
                Percentage(processed, total), Flag(processed >= total), PyOr(dirName, PriorDirName(existing)))
  }

  /** The log file of directory `dir`; a directory `logs` lacks has none. */
  function LogAt(logs: map<string, LogFile>, dir: string): LogFile {
    if dir in logs then logs[dir] else NoLog
  }

  /** An unreadable log is overwritten exactly as if there were none. */
  lemma UnreadableIsFresh(processed: nat, total: nat, successful: nat, failed: nat,
                          startTime: Option<string>, endTime: Option<string>, dirName: Option<string>, now: string)
    ensures NamedProgressLog(Unreadable, processed, total, successful, failed, startTime, endTime, dirName, now)
         == NamedProgressLog(NoLog, processed, total, successful, failed, startTime, endTime, dirName, now)
    ensures TimedProgressLog(Unreadable, processed, total, successful, failed, startTime, endTime, now)
         == TimedProgressLog(NoLog, processed, total, successful, failed, startTime, endTime, now)
  {
  }

  // ---------------------------------------------------------------------
  // load_progress_log
  // ---------------------------------------------------------------------

  /** One entry of `os.listdir('.')`. */
  datatype DirEntry = DirEntry(name: string, isDir: bool)

  /** `output_dir_prefix`. */
  const RunPrefix: string := "crawl_results_"

  /** `os.path.isdir(d) and d.startswith(output_dir_prefix)`. */
  predicate RunDir(e: DirEntry) {
    e.isDir && RunPrefix <= e.name
  }

  /** The run directory holds a loadable log whose `is_completed` is false
      or `null`; a log without the key counts as completed. */
  predicate Unfinished(logs: map<string, LogFile>, name: string) {
    name in logs && logs[name].Stored? && NotCompleted(logs[name].log.isCompleted)
  }

  /** `[d for d in os.listdir('.') if os.path.isdir(d) and d.startswith(output_dir_prefix)]`. */
  function RunDirNames(dirs: seq<DirEntry>): (names: seq<string>)
    ensures forall e :: e in dirs && RunDir(e) ==> e.name in names
    ensures forall n :: n in names ==> exists e :: e in dirs && RunDir(e) && e.name == n
    decreases |dirs|
  {
    if dirs == [] then []
    else if RunDir(dirs[0]) then [dirs[0].name] + RunDirNames(dirs[1..])
    else RunDirNames(dirs[1..])
  }

  /** `load_progress_log()`: the log and name of the run directory whose name
      is greatest among those with an unfinished log, or nothing when no run
      directory has one.  `logs` maps a directory name to its
      `progress_log.json`; a name it lacks has no log file. */
  method LoadProgressLog(dirs: seq<DirEntry>, logs: map<string, LogFile>) returns (r: Option<(ProgressLog, string)>)
    ensures r.Some? ==> (exists e :: e in dirs && RunDir(e) && e.name == r.value.1)
    ensures r.Some? ==> Unfinished(logs, r.value.1) && logs[r.value.1] == Stored(r.value.0)
    ensures r.Some? ==> forall e :: e in dirs && RunDir(e) && Unfinished(logs, e.name) ==> LexLe(e.name, r.value.1)
    ensures r.None? <==> forall e :: e in dirs && RunDir(e) ==> !Unfinished(logs, e.name)
  {
    var names := RunDirNames(dirs);
    if names == [] {
      return None;
    }
    var sorted := SortNames(names);
    var i := |sorted|;
    while i > 0
      invariant 0 <= i <= |sorted|
      invariant forall j :: i <= j < |sorted| ==> !Unfinished(logs, sorted[j])
    {
      i := i - 1;
      var name := sorted[i];
      if name in logs {
        match logs[name] {
          case Stored(log) =>
            if NotCompleted(log.isCompleted) {
              SortedIsRunDir(dirs, names, sorted, i);
              SortedMaximum(dirs, logs, names, sorted, i);
              return Some((log, name));
            }
          case _ =>
        }
      }
    }
    NoneUnfinished(dirs, logs, names, sorted);
    r := None;
  }

  /** Every name of the sorted list is that of a run directory. */
  lemma SortedIsRunDir(dirs: seq<DirEntry>, names: seq<string>, sorted: seq<string>, i: nat)
    requires names == RunDirNames(dirs) && multiset(sorted) == multiset(names)
    requires i < |sorted|
    ensures exists e :: e in dirs && RunDir(e) && e.name == sorted[i]
  {
    assert sorted[i] in multiset(sorted);
    assert sorted[i] in names;
  }

  /** When no name of the sorted list has an unfinished log, no run directory has one. */
  lemma NoneUnfinished(dirs: seq<DirEntry>, logs: map<string, LogFile>, names: seq<string>, sorted: seq<string>)
    requires names == RunDirNames(dirs) && multiset(sorted) == multiset(names)
    requires forall j :: 0 <= j < |sorted| ==> !Unfinished(logs, sorted[j])
    ensures forall e :: e in dirs && RunDir(e) ==> !Unfinished(logs, e.name)
  {
    forall e | e in dirs && RunDir(e) ensures !Unfinished(logs, e.name) {
      assert e.name in multiset(sorted);
    }
  }

  /** In a sorted permutation of the run directory names with no unfinished
      log after position `i`, an unfinished name at `i` is the greatest. */
  lemma SortedMaximum(dirs: seq<DirEntry>, logs: map<string, LogFile>, names: seq<string>, sorted: seq<string>, i: nat)
    requires names == RunDirNames(dirs)
    requires SortedNames(sorted) && multiset(sorted) == multiset(names)
    requires i < |sorted| && forall j :: i < j < |sorted| ==> !Unfinished(logs, sorted[j])
    ensures forall e :: e in dirs && RunDir(e) && Unfinished(logs, e.name) ==> LexLe(e.name, sorted[i])
  {
    forall e | e in dirs && RunDir(e) && Unfinished(logs, e.name) ensures LexLe(e.name, sorted[i]) {
      assert e.name in multiset(sorted);
      var k :| 0 <= k < |sorted| && sorted[k] == e.name;
      if k == i {
        LexLeReflexive(sorted[i]);
      }
    }
  }
}
