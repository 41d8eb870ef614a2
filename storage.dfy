/** The `data` directory that `FileSystem` reads and writes, as abstract state: the progress
    file, the two JSON logs and the per-canvas records under `projects/`. A file that has never
    been written (or that cannot be read back) is `None`. */
module Storage {
  import opened Common
  import opened Types

  /** Everything the harvester keeps between runs. `projects` maps the directory triple
      `projects/<projectId>/<manifestId>/<canvasId>.json` to the record written there. */
  datatype Store = Store(
    progress: Option<Progress>,
    errorLog: Option<seq<ErrorLog>>,
    emptyModelsLog: Option<seq<EmptyModelLog>>,
    projects: map<CanvasKey, CanvasData>)

  /** The contents of a log file, or `[]` when there is none (`loadErrorLog`, `loadEmptyModelsLog`). */
  function OrEmpty<T>(log: Option<seq<T>>): seq<T> {
    if log.Some? then log.value else []
  }

  /** A log after appending `records` one `load`/`push`/`save` at a time: no append, no write. */
  function AppendAll<T>(log: Option<seq<T>>, records: seq<T>): (r: Option<seq<T>>)
    ensures records != [] ==> r.Some?
    ensures r.Some? ==> |r.value| == |OrEmpty(log)| + |records|
    ensures r.Some? ==> r.value[..|OrEmpty(log)|] == OrEmpty(log) && r.value[|OrEmpty(log)|..] == records
    ensures records == [] ==> r == log
  {
    if records == [] then log else Some(OrEmpty(log) + records)
  }

  /** Appending in two steps is appending the concatenation. */
  lemma AppendAllTwice<T>(log: Option<seq<T>>, a: seq<T>, b: seq<T>)
    ensures AppendAll(AppendAll(log, a), b) == AppendAll(log, a + b)
  {
    if a != [] && b != [] {
      assert OrEmpty(log) + a + b == OrEmpty(log) + (a + b);
    } else if a == [] {
      assert a + b == b;
    } else {
      assert a + b == a;
    }
  }

  /** The record `loadProgress` yields when there is no progress file. */
  function DefaultProgress(now: string): Progress {
    Progress(None, [], now)
  }

  /** `loadProgress`: the stored record, or the default one stamped `now`. */
  function LoadedProgress(file: Option<Progress>, now: string): (p: Progress)
    ensures file.None? ==> p.lastProcessedManifest.None? && p.processedCanvases == []
    ensures file.Some? ==> p == file.value
  {
    if file.Some? then file.value else DefaultProgress(now)
  }

  /** The `FileSystem` instance shared by the trackers, loggers and processors. */
  class FileSystem {
    var progressFile: Option<Progress>
    var errorLogFile: Option<seq<ErrorLog>>
    var emptyModelsLogFile: Option<seq<EmptyModelLog>>
    var projects: map<CanvasKey, CanvasData>

    function State(): Store
      reads this
    {
      Store(progressFile, errorLogFile, emptyModelsLogFile, projects)
    }

    /** Opening the data directory of an earlier run finds that run's files unchanged. */
    constructor(initial: Store)
      ensures State() == initial
    {
      progressFile := initial.progress;
      errorLogFile := initial.errorLog;
      emptyModelsLogFile := initial.emptyModelsLog;
      projects := initial.projects;
    }

    /** `saveCanvasData`: writes (or overwrites) one canvas record and nothing else. */
    method SaveCanvasData(projectId: int, manifestId: string, canvasId: string, data: CanvasData)
      modifies this
      ensures State() == old(State()).(projects := old(projects)[(projectId, manifestId, canvasId) := data])
    {
      projects := projects[(projectId, manifestId, canvasId) := data];
    }

    method SaveErrorLog(errors: seq<ErrorLog>)
      modifies this
      ensures State() == old(State()).(errorLog := Some(errors))
    {
      errorLogFile := Some(errors);
    }

    method LoadErrorLog() returns (errors: seq<ErrorLog>)
      ensures errors == OrEmpty(errorLogFile)
    {
      errors := OrEmpty(errorLogFile);
    }

    method SaveEmptyModelsLog(logs: seq<EmptyModelLog>)
      modifies this
      ensures State() == old(State()).(emptyModelsLog := Some(logs))
    {
      emptyModelsLogFile := Some(logs);
    }

    method LoadEmptyModelsLog() returns (logs: seq<EmptyModelLog>)
      ensures logs == OrEmpty(emptyModelsLogFile)
    {
      logs := OrEmpty(emptyModelsLogFile);
    }

    method SaveProgress(progress: Progress)
      modifies this
      ensures State() == old(State()).(progress := Some(progress))
    {
      progressFile := Some(progress);
    }

    method LoadProgress(now: string) returns (progress: Progress)
      ensures progress == LoadedProgress(progressFile, now)
    {
      progress := LoadedProgress(progressFile, now);
    }
  }
}
