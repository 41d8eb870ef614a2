/** `CanvasProcessor`: ingests one canvas of a manifest. It reads the legacy identifiers,
    fetches the canvas's dataset, classifies its models, logs the empty ones, stores a record
    when valid models remain, and marks the canvas processed; any failure on the way is logged
    as one error and leaves the canvas unmarked. */
module CanvasProcessing {
  import opened Common
  import opened Json
  import opened Types
  import opened ModelProcessor
  import opened UrlUtils
  import opened Storage
  import opened ProgressTracking
  import opened ErrorLogging
  import opened EmptyModelLogging
  import opened CanvasUrls
  import Discovery

  // ---------------------------------------------------------------------------------------
  // `determineEmptyReason`.

  const OnlyBooleanFields := "Contains only boolean fields"
  const EmptyArrays := "Contains empty arrays"
  const NoSubstance := "All fields empty or contain no substantive content"

  /** Some field holds `[]`. */
  predicate HasEmptyArray(fields: seq<(string, JValue)>) {
    exists i :: 0 <= i < |fields| && fields[i].1 == Arr([])
  }

  /** `determineEmptyReason`: the first of three checks on the non-identity fields that holds. */
  function DetermineEmptyReason(model: JValue): (r: string)
    ensures r == OnlyBooleanFields <==> HasBooleanField(Fields(model))
    ensures r == EmptyArrays <==> !HasBooleanField(Fields(model)) && HasEmptyArray(Fields(model))
    ensures r == NoSubstance <==> !HasBooleanField(Fields(model)) && !HasEmptyArray(Fields(model))
  {
    var fields := Fields(model);
    if HasBooleanField(fields) then OnlyBooleanFields
    else if HasEmptyArray(fields) then EmptyArrays
    else NoSubstance
  }

  /** For a model the classifier calls empty the boolean reason never comes up, and the reason
      is 'Contains empty arrays' exactly when some non-identity field of the model is `[]`. */
  lemma EmptyReasonConsistent(entries: seq<(string, JValue)>)
    requires IsEmptyModel(Obj(entries))
    ensures DetermineEmptyReason(Obj(entries)) != OnlyBooleanFields
    ensures DetermineEmptyReason(Obj(entries)) == EmptyArrays <==>
      exists i :: 0 <= i < |entries| && !IsIdentityKey(entries[i].0) && entries[i].1 == Arr([])
  {
    var fields := Fields(Obj(entries));
    if HasEmptyArray(fields) {
      var j :| 0 <= j < |fields| && fields[j].1 == Arr([]);
      FilterMembership(entries, IsFieldEntry, fields[j]);
    }
    if exists i :: 0 <= i < |entries| && !IsIdentityKey(entries[i].0) && entries[i].1 == Arr([]) {
      var i :| 0 <= i < |entries| && !IsIdentityKey(entries[i].0) && entries[i].1 == Arr([]);
      FilterMembership(entries, IsFieldEntry, entries[i]);
    }
  }

  // ---------------------------------------------------------------------------------------
  // The dataset and the record built from it.

  const DefaultProjectId := 21
  const NoSeeAlso := "No seeAlso dataset link found"
  const DatasetFetchFailed := "Failed to fetch dataset: "
  const ModelsNotArray := "TypeError: dataset.models is not an array"

  /** The responses of the dataset server, keyed by the `seeAlso[0].id` they answer. */
  type Datasets = map<string, Discovery.Attempt<JValue>>

  function DatasetAttempt(datasets: Datasets, link: string): Discovery.Attempt<JValue> {
    if link in datasets then datasets[link] else Discovery.Transport(Discovery.Unreachable)
  }

  /** `fetchDataset`: a single call; a non-ok status throws with the status in the message. */
  function DatasetResult(a: Discovery.Attempt<JValue>): (r: Result<JValue>)
    ensures a.Transport? ==> r == Failure(a.message)
    ensures a.Answer? && !Discovery.IsOk(a) ==> r == Failure(DatasetFetchFailed + NatToString(a.response.status))
    ensures Discovery.IsOk(a) ==> r == a.response.body
  {
    match a
    case Transport(message) => Failure(message)
    case Answer(response) =>
      if !Discovery.IsOk(a) then Failure(DatasetFetchFailed + NatToString(response.status))
      else response.body
  }

  /** `const { models } = dataset` followed by `filter`/`reduce`: only an array gets through. */
  function ModelsOf(dataset: JValue): (r: Result<seq<JValue>>)
    ensures r.Success? <==> Get(dataset, "models").Arr?
    ensures r.Success? ==> dataset.Obj? && r.value == Get(dataset, "models").items
  {
    match Get(dataset, "models")
    case Arr(items) => Success(items)
    case _ => Failure(ModelsNotArray)
  }

  /** `{ ...dataset, models: validModels }`. */
  function WithModels(dataset: JValue, valid: seq<JValue>): JValue {
    match dataset
    case Obj(entries) => Obj(SetEntry(entries, "models", Arr(valid)))
    case _ => dataset
  }

  /** The stored dataset is the fetched one with `models` replaced and every other field kept. */
  lemma WithModelsSpec(dataset: JValue, valid: seq<JValue>, key: string)
    requires ModelsOf(dataset).Success?
    ensures WithModels(dataset, valid).Obj?
    ensures Get(WithModels(dataset, valid), key) == if key == "models" then Arr(valid) else Get(dataset, key)
    ensures |WithModels(dataset, valid).entries| == |dataset.entries|
  {
    var entries := dataset.entries;
    assert Lookup(entries, "models") != Undef;
    LookupSetEntry(entries, "models", Arr(valid), key);
  }

  /** `this.targetProjectId || 21`. */
  function ProjectKey(targetProjectId: Option<int>): int {
    if FilterIsActive(targetProjectId) then targetProjectId.value else DefaultProjectId
  }

  /** The store key of a canvas record. */
  function StoreKey(targetProjectId: Option<int>, ids: CanvasIds): CanvasKey {
    (ProjectKey(targetProjectId), ids.manifestId, ids.canvasId)
  }

  /** The empty-model record of one model. */
  function EmptyLog(manifestId: string, canvasId: string, model: JValue, now: string): EmptyModelLog {
    EmptyModelLog(manifestId, canvasId, Get(model, "id"), Get(model, "projectId"), DetermineEmptyReason(model), now)
  }

  function EmptyLogs(manifestId: string, canvasId: string, models: seq<JValue>, now: string): seq<EmptyModelLog> {
    seq(|models|, i requires 0 <= i < |models| => EmptyLog(manifestId, canvasId, models[i], now))
  }

  // ---------------------------------------------------------------------------------------
  // The try block and the catch boundary of `processCanvas`.

  /** What the `try` block of `processCanvas` does: the dataset it requests, the empty-model
      records it writes, the canvas record it saves, and the message of the error it throws. */
  datatype CanvasRun = CanvasRun(
    fetched: Option<string>,
    emptyLogs: seq<EmptyModelLog>,
    saved: Option<(CanvasKey, CanvasData)>,
    error: Option<string>)

  /** The `try` block, step by step, as a function of the canvas and the dataset server. */
  function Run(targetProjectId: Option<int>, manifestId: string, canvas: Canvas, datasets: Datasets, now: string): CanvasRun {
    match ExtractOriginalIds(canvas)
    case Failure(e) => CanvasRun(None, [], None, Some(e))
    case Success(original) =>
      if canvas.seeAlso.None? || |canvas.seeAlso.value| == 0 then CanvasRun(None, [], None, Some(NoSeeAlso))
      else
        var link := canvas.seeAlso.value[0].id;
        match DatasetResult(DatasetAttempt(datasets, link))
        case Failure(e) => CanvasRun(Some(link), [], None, Some(e))
        case Success(dataset) =>
          match ModelsOf(dataset)
          case Failure(e) => CanvasRun(Some(link), [], None, Some(e))
          case Success(models) =>
            match ProcessModels(targetProjectId, models)
            case Failure(e) => CanvasRun(Some(link), [], None, Some(e))
            case Success(processed) =>
              var logs := EmptyLogs(manifestId, canvas.id, processed.emptyModels, now);
              if |processed.validModels| == 0 then CanvasRun(Some(link), logs, None, None)
              else
                match ExtractIds(canvas.id)
                case Failure(e) => CanvasRun(Some(link), logs, None, Some(e))
                case Success(ids) =>
                  var data := CanvasData(canvas.id, manifestId, original.originalCanvasId,
                                         original.originalManifestId, WithModels(dataset, processed.validModels));
                  CanvasRun(Some(link), logs, Some((StoreKey(targetProjectId, ids), data)), None)
  }

  /** The files after the `try` block's writes. */
  function Written(store: Store, run: CanvasRun): Store {
    store.(
      emptyModelsLog := AppendAll(store.emptyModelsLog, run.emptyLogs),
      projects := if run.saved.Some? then store.projects[run.saved.value.0 := run.saved.value.1] else store.projects)
  }

  /** The end of `processCanvas`: mark the canvas, or log the one error in the `catch`. */
  function Concluded(store: Store, manifestId: string, canvasId: string, error: Option<string>, now: string): Store {
    if error.Some? then store.(errorLog := AppendAll(store.errorLog, [ErrorLog(manifestId, canvasId, error.value, now)]))
    else store.(progress := WithCanvas(store.progress, canvasId, now))
  }

  predicate AlreadyProcessed(store: Store, canvasId: string, now: string) {
    canvasId in LoadedProgress(store.progress, now).processedCanvases
  }

  /** `processCanvas` as a function of the files before the call. */
  function CanvasStep(targetProjectId: Option<int>, store: Store, manifestId: string, canvas: Canvas, datasets: Datasets, now: string): Store {
    if AlreadyProcessed(store, canvas.id, now) then store
    else
      var run := Run(targetProjectId, manifestId, canvas, datasets, now);
      Concluded(Written(store, run), manifestId, canvas.id, run.error, now)
  }

  function FetchedList(run: CanvasRun): seq<string> {
    if run.fetched.Some? then [run.fetched.value] else []
  }

  /** The dataset requests `processCanvas` makes. */
  function Requests(targetProjectId: Option<int>, store: Store, manifestId: string, canvas: Canvas, datasets: Datasets, now: string): seq<string> {
    if AlreadyProcessed(store, canvas.id, now) then []
    else FetchedList(Run(targetProjectId, manifestId, canvas, datasets, now))
  }

  /** A canvas already in the processed list is skipped: no request, no log, no write. */
  lemma ProcessedCanvasIsSkipped(targetProjectId: Option<int>, store: Store, manifestId: string, canvas: Canvas, datasets: Datasets, now: string)
    requires AlreadyProcessed(store, canvas.id, now)
    ensures CanvasStep(targetProjectId, store, manifestId, canvas, datasets, now) == store
    ensures Requests(targetProjectId, store, manifestId, canvas, datasets, now) == []
  {
  }

  /** The catch boundary: a run that throws appends exactly one error record, tagged with the
      manifest and the canvas, and leaves the progress file alone; a run that completes marks
      the canvas and leaves the error log alone. Either way the empty-model records and the
      canvas record the run wrote stay written. */
  lemma CatchBoundary(targetProjectId: Option<int>, store: Store, manifestId: string, canvas: Canvas, datasets: Datasets, now: string)
    requires !AlreadyProcessed(store, canvas.id, now)
    ensures var run := Run(targetProjectId, manifestId, canvas, datasets, now);
      var after := CanvasStep(targetProjectId, store, manifestId, canvas, datasets, now);
      && after.emptyModelsLog == AppendAll(store.emptyModelsLog, run.emptyLogs)
      && (run.saved.Some? ==> after.projects == store.projects[run.saved.value.0 := run.saved.value.1])
      && (run.saved.None? ==> after.projects == store.projects)
      && (run.error.Some? ==>
            && after.progress == store.progress
            && after.errorLog.Some?
            && after.errorLog.value == OrEmpty(store.errorLog) + [ErrorLog(manifestId, canvas.id, run.error.value, now)])
      && (run.error.None? ==> after.errorLog == store.errorLog && AlreadyProcessed(after, canvas.id, now))
  {
  }

  /** After the call the canvas is marked exactly when it was marked before or the run
      completed without throwing. */
  lemma MarkedOnlyOnSuccess(targetProjectId: Option<int>, store: Store, manifestId: string, canvas: Canvas, datasets: Datasets, now: string)
    ensures AlreadyProcessed(CanvasStep(targetProjectId, store, manifestId, canvas, datasets, now), canvas.id, now) <==>
      AlreadyProcessed(store, canvas.id, now) || Run(targetProjectId, manifestId, canvas, datasets, now).error.None?
  {
    if !AlreadyProcessed(store, canvas.id, now) {
      CatchBoundary(targetProjectId, store, manifestId, canvas, datasets, now);
    }
  }

  /** A canvas without a `seeAlso` link fails before any dataset request. */
  lemma NoSeeAlsoFails(targetProjectId: Option<int>, manifestId: string, canvas: Canvas, datasets: Datasets, now: string)
    requires ExtractOriginalIds(canvas).Success?
    requires canvas.seeAlso.None? || canvas.seeAlso.value == []
    ensures Run(targetProjectId, manifestId, canvas, datasets, now) == CanvasRun(None, [], None, Some(NoSeeAlso))
  {
  }

  /** Once the models are classified: one empty-model record per empty model, in order,
      written whatever happens next; a record is saved exactly when valid models remain and
      the canvas id parses; the canvas fails exactly when valid models remain and it does not.
      With no valid model the run completes and nothing is saved. */
  lemma ClassifiedRun(targetProjectId: Option<int>, manifestId: string, canvas: Canvas, datasets: Datasets, now: string)
    requires ExtractOriginalIds(canvas).Success?
    requires canvas.seeAlso.Some? && |canvas.seeAlso.value| > 0
    requires var d := DatasetResult(DatasetAttempt(datasets, canvas.seeAlso.value[0].id));
      d.Success? && ModelsOf(d.value).Success? && ProcessModels(targetProjectId, ModelsOf(d.value).value).Success?
    ensures var dataset := DatasetResult(DatasetAttempt(datasets, canvas.seeAlso.value[0].id)).value;
      var processed := ProcessModels(targetProjectId, ModelsOf(dataset).value).value;
      var run := Run(targetProjectId, manifestId, canvas, datasets, now);
      var ids := ExtractIds(canvas.id);
      && run.fetched == Some(canvas.seeAlso.value[0].id)
      && |run.emptyLogs| == |processed.emptyModels|
      && (forall i :: 0 <= i < |run.emptyLogs| ==>
            var m := processed.emptyModels[i];
            run.emptyLogs[i] == EmptyModelLog(manifestId, canvas.id, Get(m, "id"), Get(m, "projectId"), DetermineEmptyReason(m), now))
      && (run.saved.Some? <==> |processed.validModels| > 0 && ids.Success?)
      && (run.error.Some? <==> |processed.validModels| > 0 && ids.Failure?)
      && (run.error.Some? ==> run.error.value == UnmatchedUrl + canvas.id)
      && (run.saved.Some? ==>
            && run.saved.value.0 == (ProjectKey(targetProjectId), ids.value.manifestId, ids.value.canvasId)
            && run.saved.value.1.canvasId == canvas.id
            && run.saved.value.1.manifestId == manifestId
            && run.saved.value.1.originalCanvasId == ExtractOriginalIds(canvas).value.originalCanvasId
            && run.saved.value.1.originalManifestId == ExtractOriginalIds(canvas).value.originalManifestId
            && run.saved.value.1.dataset == WithModels(dataset, processed.validModels))
  {
  }

  /** Every logged reason is one the classifier agrees with. */
  lemma LoggedReasonsAreConsistent(targetProjectId: Option<int>, manifestId: string, canvas: Canvas, datasets: Datasets, now: string, i: nat)
    requires i < |Run(targetProjectId, manifestId, canvas, datasets, now).emptyLogs|
    ensures Run(targetProjectId, manifestId, canvas, datasets, now).emptyLogs[i].reason != OnlyBooleanFields
  {
    var link := canvas.seeAlso.value[0].id;
    var dataset := DatasetResult(DatasetAttempt(datasets, link)).value;
    var processed := ProcessModels(targetProjectId, ModelsOf(dataset).value).value;
    var filtered := FilterByProject(targetProjectId, ModelsOf(dataset).value);
    ProcessModelsPartition(targetProjectId, ModelsOf(dataset).value);
    var m := processed.emptyModels[i];
    assert m in processed.emptyModels;
    assert IsEmptyModel(m);
  }

  /** The processor of one run of the harvester. `datasetRequests` records the dataset URLs
      the run has requested, in order. */
  class CanvasProcessor {
    const fs: FileSystem
    const errorLogger: ErrorLogger
    const emptyModelLogger: EmptyModelLogger
    const progressTracker: ProgressTracker
    const targetProjectId: Option<int>
    ghost var datasetRequests: seq<string>

    /** The loggers and the tracker write to the processor's own `FileSystem`. */
    predicate Valid() {
      errorLogger.fs == fs && emptyModelLogger.fs == fs && progressTracker.fs == fs
    }

    constructor(fs: FileSystem, errorLogger: ErrorLogger, emptyModelLogger: EmptyModelLogger,
                progressTracker: ProgressTracker, targetProjectId: Option<int>)
      requires errorLogger.fs == fs && emptyModelLogger.fs == fs && progressTracker.fs == fs
      ensures Valid() && this.fs == fs && this.targetProjectId == targetProjectId
      ensures datasetRequests == []
    {
      this.fs := fs;
      this.errorLogger := errorLogger;
      this.emptyModelLogger := emptyModelLogger;
      this.progressTracker := progressTracker;
      this.targetProjectId := targetProjectId;
      datasetRequests := [];
    }

    /** `fetchDataset`: one call to the dataset server. */
    method FetchDataset(datasets: Datasets, link: string) returns (r: Result<JValue>)
      modifies this`datasetRequests
      ensures r == DatasetResult(DatasetAttempt(datasets, link))
      ensures datasetRequests == old(datasetRequests) + [link]
    {
      datasetRequests := datasetRequests + [link];
      r := DatasetResult(DatasetAttempt(datasets, link));
    }

    /** The `for` loop over the empty models. */
    method LogEmptyModels(logs: seq<EmptyModelLog>)
      requires Valid()
      modifies fs
      ensures fs.State() == old(fs.State()).(emptyModelsLog := AppendAll(old(fs.emptyModelsLogFile), logs))
    {
      var i := 0;
      while i < |logs|
        invariant 0 <= i <= |logs|
        invariant fs.State() == old(fs.State()).(emptyModelsLog := AppendAll(old(fs.emptyModelsLogFile), logs[..i]))
      {
        emptyModelLogger.LogEmptyModel(logs[i]);
        AppendAllTwice(old(fs.emptyModelsLogFile), logs[..i], [logs[i]]);
        assert logs[..i] + [logs[i]] == logs[..i + 1];
        i := i + 1;
      }
      assert logs[..i] == logs;
    }

    /** The `try` block of `processCanvas`; `error` is the message it throws, if it throws. */
    method Ingest(manifestId: string, canvas: Canvas, datasets: Datasets, now: string) returns (error: Option<string>)
      requires Valid()
      modifies fs, this`datasetRequests
      ensures var run := Run(targetProjectId, manifestId, canvas, datasets, now);
        && error == run.error
        && fs.State() == Written(old(fs.State()), run)
        && datasetRequests == old(datasetRequests) + FetchedList(run)
    {
      var original := ExtractOriginalIds(canvas);
      if original.Failure? {
        return Some(original.error);
      }
      if canvas.seeAlso.None? || |canvas.seeAlso.value| == 0 {
        return Some(NoSeeAlso);
      }
      var link := canvas.seeAlso.value[0].id;
      var dataset := FetchDataset(datasets, link);
      if dataset.Failure? {
        return Some(dataset.error);
      }
      var models := ModelsOf(dataset.value);
      if models.Failure? {
        return Some(models.error);
      }
      var processed := ProcessModels(targetProjectId, models.value);
      if processed.Failure? {
        return Some(processed.error);
      }
      var logs := EmptyLogs(manifestId, canvas.id, processed.value.emptyModels, now);
      LogEmptyModels(logs);
      if |processed.value.validModels| > 0 {
        var ids := ExtractIds(canvas.id);
        if ids.Failure? {
          return Some(ids.error);
        }
        var data := CanvasData(canvas.id, manifestId, original.value.originalCanvasId,
                               original.value.originalManifestId, WithModels(dataset.value, processed.value.validModels));
        fs.SaveCanvasData(ProjectKey(targetProjectId), ids.value.manifestId, ids.value.canvasId, data);
      }
      error := None;
    }

    /** `processCanvas`: it never throws; every failure of the `try` block ends in the error log. */
    method ProcessCanvas(manifestId: string, canvas: Canvas, datasets: Datasets, now: string)
      requires Valid()
      modifies fs, this`datasetRequests
      ensures fs.State() == CanvasStep(targetProjectId, old(fs.State()), manifestId, canvas, datasets, now)
      ensures datasetRequests == old(datasetRequests) + Requests(targetProjectId, old(fs.State()), manifestId, canvas, datasets, now)
    {
      var progress := progressTracker.GetProgress(now);
      if canvas.id in progress.processedCanvases {
        return;
      }
      var error := Ingest(manifestId, canvas, datasets, now);
      if error.Some? {
        errorLogger.LogError(ErrorLog(manifestId, canvas.id, error.value, now));
      } else {
        progressTracker.AddProcessedCanvas(canvas.id, now);
      }
    }
  }
}
