/** `ManifestProcessor`: one harvesting run. It discovers the manifest URLs, fetches the first
    manifest only, and ingests the next batch of at most 100 of its canvases that the progress
    file does not list yet, one after the other. */
module ManifestProcessing {
  import opened Common
  import opened Types
  import opened Storage
  import opened ProgressTracking
  import opened ErrorLogging
  import opened CanvasProcessing
  import Discovery

  const BatchSize := 100
  const NoManifests := "No manifests found"
  /** The message of the `TypeError` that `manifest.items.filter` throws when a manifest has no
      canvas list; the engine's exact wording is not part of this model. */
  const ItemsMissing := "TypeError: manifest.items is undefined"

  /** The ids in the progress file. */
  function Processed(store: Store, now: string): seq<string> {
    LoadedProgress(store.progress, now).processedCanvases
  }

  function NotIn(processed: seq<string>): Canvas -> bool {
    (c: Canvas) => c.id !in processed
  }

  /** `manifest.items.filter(canvas => !processedCanvasIds.has(canvas.id))`. */
  function Remaining(items: seq<Canvas>, processed: seq<string>): seq<Canvas> {
    Filter(items, NotIn(processed))
  }

  /** `remainingCanvases.slice(0, BATCH_SIZE)`. */
  function Batch(items: seq<Canvas>, processed: seq<string>): seq<Canvas> {
    var remaining := Remaining(items, processed);
    remaining[..Min(BatchSize, |remaining|)]
  }

  /** The batch is the first (at most) 100 canvases of the manifest that are not listed as
      processed, in manifest order: all of them when there are at most 100, otherwise exactly
      100. Every canvas of the batch is in the manifest and unlisted, and an unlisted canvas of
      the manifest is left out only when the batch is full. */
  lemma BatchSpec(items: seq<Canvas>, processed: seq<string>)
    ensures var batch := Batch(items, processed);
      var remaining := Remaining(items, processed);
      && |batch| <= BatchSize
      && batch <= remaining
      && (|remaining| <= BatchSize ==> batch == remaining)
      && (|remaining| > BatchSize ==> |batch| == BatchSize)
      && (forall i :: 0 <= i < |batch| ==> batch[i] in items && batch[i].id !in processed)
      && (forall c :: c in items && c.id !in processed && c !in batch ==> |batch| == BatchSize)
  {
    var batch := Batch(items, processed);
    var remaining := Remaining(items, processed);
    forall i | 0 <= i < |batch| ensures batch[i] in items && batch[i].id !in processed {
      assert batch[i] == remaining[i];
      FilterMembership(items, NotIn(processed), batch[i]);
    }
    forall c | c in items && c.id !in processed && c !in batch ensures |batch| == BatchSize {
      FilterMembership(items, NotIn(processed), c);
      if |remaining| <= BatchSize {
        assert batch == remaining;
      }
    }
  }

  /** The files after the `for` loop of `processManifest` and the dataset requests it made. */
  datatype Trace = Trace(store: Store, requests: seq<string>)

  /** The `for` loop of `processManifest`: `processCanvas` on each canvas in turn. */
  function Steps(targetProjectId: Option<int>, store: Store, manifestId: string, canvases: seq<Canvas>,
                 datasets: Datasets, now: string): Trace
    decreases |canvases|
  {
    if canvases == [] then Trace(store, [])
    else
      var before := Steps(targetProjectId, store, manifestId, canvases[..|canvases| - 1], datasets, now);
      var last := canvases[|canvases| - 1];
      Trace(CanvasStep(targetProjectId, before.store, manifestId, last, datasets, now),
            before.requests + Requests(targetProjectId, before.store, manifestId, last, datasets, now))
  }

  /** One `processCanvas` appends its canvas's id to the progress file when the canvas was not
      listed and its ingestion completed, and leaves the list as it was otherwise. */
  lemma StepProcessed(targetProjectId: Option<int>, store: Store, manifestId: string, canvas: Canvas, datasets: Datasets, now: string)
    ensures Processed(CanvasStep(targetProjectId, store, manifestId, canvas, datasets, now), now) ==
      if AlreadyProcessed(store, canvas.id, now) || Run(targetProjectId, manifestId, canvas, datasets, now).error.Some?
      then Processed(store, now)
      else Processed(store, now) + [canvas.id]
  {
  }

  /** Whether a canvas's ingestion completes without an error (it does not depend on the files). */
  function Completes(targetProjectId: Option<int>, manifestId: string, datasets: Datasets, now: string): Canvas -> bool {
    (c: Canvas) => Run(targetProjectId, manifestId, c, datasets, now).error.None?
  }

  /** The ids of the canvases that satisfy `ok`. */
  function IdsWhere(canvases: seq<Canvas>, ok: Canvas -> bool): set<string>
    decreases |canvases|
  {
    if canvases == [] then {}
    else
      var last := canvases[|canvases| - 1];
      IdsWhere(canvases[..|canvases| - 1], ok) + if ok(last) then {last.id} else {}
  }

  lemma {:induction false} IdsWhereSpec(canvases: seq<Canvas>, ok: Canvas -> bool, id: string)
    ensures id in IdsWhere(canvases, ok) <==> exists i :: 0 <= i < |canvases| && canvases[i].id == id && ok(canvases[i])
    decreases |canvases|
  {
    if canvases != [] {
      var n := |canvases| - 1;
      var init := canvases[..n];
      IdsWhereSpec(init, ok, id);
      if exists i :: 0 <= i < |init| && init[i].id == id && ok(init[i]) {
        var i :| 0 <= i < |init| && init[i].id == id && ok(init[i]);
        assert canvases[i] == init[i];
      }
      if exists i :: 0 <= i < |canvases| && canvases[i].id == id && ok(canvases[i]) {
        var i :| 0 <= i < |canvases| && canvases[i].id == id && ok(canvases[i]);
        if i < n {
          assert init[i] == canvases[i];
        }
      }
    }
  }

  /** After a sequence of `processCanvas` calls the progress file lists an id exactly when it
      listed it before or a canvas with that id was ingested without an error; and the old list
      is a prefix of the new one. */
  lemma {:induction false} StepsProcessed(targetProjectId: Option<int>, store: Store, manifestId: string, canvases: seq<Canvas>,
                                          datasets: Datasets, now: string)
    ensures var after := Processed(Steps(targetProjectId, store, manifestId, canvases, datasets, now).store, now);
      && Processed(store, now) <= after
      && forall id :: id in after <==>
           id in Processed(store, now) || id in IdsWhere(canvases, Completes(targetProjectId, manifestId, datasets, now))
    decreases |canvases|
  {
    if canvases != [] {
      var n := |canvases| - 1;
      var init := canvases[..n];
      StepsProcessed(targetProjectId, store, manifestId, init, datasets, now);
      var before := Steps(targetProjectId, store, manifestId, init, datasets, now).store;
      StepProcessed(targetProjectId, before, manifestId, canvases[n], datasets, now);
    }
  }

  /** The same, with the completed canvases named. */
  lemma StepsProcessedIff(targetProjectId: Option<int>, store: Store, manifestId: string, canvases: seq<Canvas>,
                          datasets: Datasets, now: string, id: string)
    ensures var after := Processed(Steps(targetProjectId, store, manifestId, canvases, datasets, now).store, now);
      && Processed(store, now) <= after
      && (id in after <==>
            id in Processed(store, now) ||
            exists i :: 0 <= i < |canvases| && canvases[i].id == id && Completes(targetProjectId, manifestId, datasets, now)(canvases[i]))
  {
    StepsProcessed(targetProjectId, store, manifestId, canvases, datasets, now);
    IdsWhereSpec(canvases, Completes(targetProjectId, manifestId, datasets, now), id);
  }

  /** One more canvas of the batch is one more `processCanvas`. */
  lemma StepsNext(targetProjectId: Option<int>, store: Store, manifestId: string, batch: seq<Canvas>, i: nat,
                  datasets: Datasets, now: string)
    requires i < |batch|
    ensures var before := Steps(targetProjectId, store, manifestId, batch[..i], datasets, now).store;
      && Steps(targetProjectId, store, manifestId, batch[..i + 1], datasets, now).store ==
           CanvasStep(targetProjectId, before, manifestId, batch[i], datasets, now)
      && Steps(targetProjectId, store, manifestId, batch[..i + 1], datasets, now).requests ==
           Steps(targetProjectId, store, manifestId, batch[..i], datasets, now).requests
             + Requests(targetProjectId, before, manifestId, batch[i], datasets, now)
  {
    assert batch[..i + 1][..i] == batch[..i];
  }

  /** Sequential processing handles a repeated canvas once: when an earlier canvas with the
      same id was ingested without an error, the later `processCanvas` changes nothing and
      requests nothing. */
  lemma CompletedCanvasIsNotRepeated(targetProjectId: Option<int>, store: Store, manifestId: string, canvases: seq<Canvas>,
                                     datasets: Datasets, now: string, i: nat, j: nat)
    requires i < j < |canvases| && canvases[i].id == canvases[j].id
    requires Run(targetProjectId, manifestId, canvases[i], datasets, now).error.None?
    ensures var before := Steps(targetProjectId, store, manifestId, canvases[..j], datasets, now).store;
      && Steps(targetProjectId, store, manifestId, canvases[..j + 1], datasets, now).store == before
      && Requests(targetProjectId, before, manifestId, canvases[j], datasets, now) == []
  {
    var init := canvases[..j];
    assert init[i] == canvases[i];
    assert Completes(targetProjectId, manifestId, datasets, now)(init[i]);
    StepsProcessedIff(targetProjectId, store, manifestId, init, datasets, now, canvases[j].id);
    assert canvases[..j + 1][..j] == init;
    var before := Steps(targetProjectId, store, manifestId, init, datasets, now).store;
    ProcessedCanvasIsSkipped(targetProjectId, before, manifestId, canvases[j], datasets, now);
  }

  /** `url` is the first `seeAlso` link of one of the canvases. */
  predicate IsLinkOf(url: string, canvases: seq<Canvas>) {
    exists i :: 0 <= i < |canvases| && canvases[i].seeAlso.Some? && |canvases[i].seeAlso.value| > 0
                && url == canvases[i].seeAlso.value[0].id
  }

  /** One `processCanvas` requests at most its canvas's first `seeAlso` link. */
  lemma StepRequests(targetProjectId: Option<int>, store: Store, manifestId: string, canvas: Canvas, datasets: Datasets, now: string)
    ensures var r := Requests(targetProjectId, store, manifestId, canvas, datasets, now);
      && |r| <= 1
      && (|r| == 1 ==> canvas.seeAlso.Some? && |canvas.seeAlso.value| > 0 && r[0] == canvas.seeAlso.value[0].id)
  {
  }

  lemma LinksExtend(earlier: seq<string>, step: seq<string>, canvases: seq<Canvas>)
    requires canvases != []
    requires forall k :: 0 <= k < |earlier| ==> IsLinkOf(earlier[k], canvases[..|canvases| - 1])
    requires var last := canvases[|canvases| - 1];
      |step| <= 1 && (|step| == 1 ==> last.seeAlso.Some? && |last.seeAlso.value| > 0 && step[0] == last.seeAlso.value[0].id)
    ensures forall k :: 0 <= k < |earlier + step| ==> IsLinkOf((earlier + step)[k], canvases)
  {
    var n := |canvases| - 1;
    forall k | 0 <= k < |earlier + step| ensures IsLinkOf((earlier + step)[k], canvases) {
      if k < |earlier| {
        var i :| 0 <= i < n && canvases[..n][i].seeAlso.Some? && |canvases[..n][i].seeAlso.value| > 0
                 && earlier[k] == canvases[..n][i].seeAlso.value[0].id;
        assert canvases[..n][i] == canvases[i];
        assert (earlier + step)[k] == earlier[k];
      } else {
        assert (earlier + step)[k] == step[0];
        assert canvases[n].seeAlso.Some? && |canvases[n].seeAlso.value| > 0 && (earlier + step)[k] == canvases[n].seeAlso.value[0].id;
      }
    }
  }

  /** At most one dataset request per canvas, and only for a canvas's first `seeAlso` link. */
  lemma {:induction false} StepsRequestsBound(targetProjectId: Option<int>, store: Store, manifestId: string, canvases: seq<Canvas>,
                                              datasets: Datasets, now: string)
    ensures var requests := Steps(targetProjectId, store, manifestId, canvases, datasets, now).requests;
      && |requests| <= |canvases|
      && forall k :: 0 <= k < |requests| ==> IsLinkOf(requests[k], canvases)
    decreases |canvases|
  {
    if canvases != [] {
      var n := |canvases| - 1;
      StepsRequestsBound(targetProjectId, store, manifestId, canvases[..n], datasets, now);
      var before := Steps(targetProjectId, store, manifestId, canvases[..n], datasets, now);
      StepRequests(targetProjectId, before.store, manifestId, canvases[n], datasets, now);
      LinksExtend(before.requests, Requests(targetProjectId, before.store, manifestId, canvases[n], datasets, now), canvases);
    }
  }

  /** `processManifest` as a function of the files before the call: a manifest without a
      canvas list throws; otherwise the batch is processed. */
  function ManifestOutcome(targetProjectId: Option<int>, store: Store, manifest: Manifest, datasets: Datasets, now: string): Result<Store> {
    if manifest.items.None? then Failure(ItemsMissing)
    else Success(Steps(targetProjectId, store, manifest.id, Batch(manifest.items.value, Processed(store, now)), datasets, now).store)
  }

  function ManifestRequests(targetProjectId: Option<int>, store: Store, manifest: Manifest, datasets: Datasets, now: string): seq<string> {
    if manifest.items.None? then []
    else Steps(targetProjectId, store, manifest.id, Batch(manifest.items.value, Processed(store, now)), datasets, now).requests
  }

  /** What `processManifests` returns (or throws) and the files it leaves. */
  datatype Harvest = Harvest(outcome: Outcome, store: Store)

  /** `processManifests`. Discovery errors and an empty manifest list are rethrown; every
      failure with the first manifest is logged once, with an empty canvas id, and swallowed. */
  function HarvestRun(targetProjectId: Option<int>, store: Store, collection: seq<Discovery.Attempt<Collection>>,
                      pages: Discovery.Server<Page>, manifests: Discovery.Server<Manifest>, datasets: Datasets, now: string): Harvest {
    match Discovery.ManifestUrls(collection, pages)
    case Failure(e) => Harvest(Fail(e), store)
    case Success(urls) =>
      if |urls| == 0 || urls[0] == "" then Harvest(Fail(NoManifests), store)
      else
        var first := urls[0];
        var processed :=
          match Discovery.ManifestResult(Discovery.AttemptsFor(manifests, first))
          case Failure(e) => Failure(e)
          case Success(manifest) => ManifestOutcome(targetProjectId, store, manifest, datasets, now);
        match processed
        case Failure(e) => Harvest(Pass, store.(errorLog := AppendAll(store.errorLog, [ErrorLog(first, "", e, now)])))
        case Success(after) => Harvest(Pass, after.(progress := WithLastManifest(after.progress, first, now)))
  }

  function HarvestRequests(targetProjectId: Option<int>, store: Store, collection: seq<Discovery.Attempt<Collection>>,
                           pages: Discovery.Server<Page>, manifests: Discovery.Server<Manifest>, datasets: Datasets, now: string): seq<string> {
    match Discovery.ManifestUrls(collection, pages)
    case Failure(_) => []
    case Success(urls) =>
      if |urls| == 0 || urls[0] == "" then []
      else
        match Discovery.ManifestResult(Discovery.AttemptsFor(manifests, urls[0]))
        case Failure(_) => []
        case Success(manifest) => ManifestRequests(targetProjectId, store, manifest, datasets, now)
  }

  /** The run fails exactly when discovery fails or finds no usable first URL, and then it
      writes nothing. */
  lemma HarvestFails(targetProjectId: Option<int>, store: Store, collection: seq<Discovery.Attempt<Collection>>,
                     pages: Discovery.Server<Page>, manifests: Discovery.Server<Manifest>, datasets: Datasets, now: string)
    ensures var h := HarvestRun(targetProjectId, store, collection, pages, manifests, datasets, now);
      var urls := Discovery.ManifestUrls(collection, pages);
      && (h.outcome.Fail? <==> urls.Failure? || |urls.value| == 0 || urls.value[0] == "")
      && (h.outcome.Fail? ==> h.store == store)
      && (urls.Success? && (|urls.value| == 0 || urls.value[0] == "") ==> h.outcome == Fail(NoManifests))
  {
  }

  /** Only the first discovered URL is fetched: manifest servers that agree on it give the same run. */
  lemma OnlyFirstManifestMatters(targetProjectId: Option<int>, store: Store, collection: seq<Discovery.Attempt<Collection>>,
                                 pages: Discovery.Server<Page>, manifests: Discovery.Server<Manifest>,
                                 others: Discovery.Server<Manifest>, datasets: Datasets, now: string)
    requires var urls := Discovery.ManifestUrls(collection, pages);
      urls.Success? && |urls.value| > 0 ==>
        Discovery.AttemptsFor(manifests, urls.value[0]) == Discovery.AttemptsFor(others, urls.value[0])
    ensures HarvestRun(targetProjectId, store, collection, pages, manifests, datasets, now) ==
            HarvestRun(targetProjectId, store, collection, pages, others, datasets, now)
    ensures HarvestRequests(targetProjectId, store, collection, pages, manifests, datasets, now) ==
            HarvestRequests(targetProjectId, store, collection, pages, others, datasets, now)
  {
  }

  /** A failure with the first manifest (its fetch, or its missing canvas list) appends one
      error record for that URL with an empty canvas id and changes nothing else. */
  lemma ManifestFailureLogged(targetProjectId: Option<int>, store: Store, collection: seq<Discovery.Attempt<Collection>>,
                              pages: Discovery.Server<Page>, manifests: Discovery.Server<Manifest>, datasets: Datasets, now: string)
    requires var urls := Discovery.ManifestUrls(collection, pages);
      urls.Success? && |urls.value| > 0 && urls.value[0] != ""
    requires var m := Discovery.ManifestResult(Discovery.AttemptsFor(manifests, Discovery.ManifestUrls(collection, pages).value[0]));
      m.Failure? || m.value.items.None?
    ensures var first := Discovery.ManifestUrls(collection, pages).value[0];
      var m := Discovery.ManifestResult(Discovery.AttemptsFor(manifests, first));
      var h := HarvestRun(targetProjectId, store, collection, pages, manifests, datasets, now);
      var error := if m.Failure? then m.error else ItemsMissing;
      && h.outcome == Pass
      && h.store == store.(errorLog := Some(OrEmpty(store.errorLog) + [ErrorLog(first, "", error, now)]))
  {
  }

  /** A manifest with a canvas list is processed batch-wise and then recorded as the last
      processed manifest; the error log gains only the canvases' own records. */
  lemma ManifestSuccessRecorded(targetProjectId: Option<int>, store: Store, collection: seq<Discovery.Attempt<Collection>>,
                                pages: Discovery.Server<Page>, manifests: Discovery.Server<Manifest>, datasets: Datasets, now: string)
    requires var urls := Discovery.ManifestUrls(collection, pages);
      urls.Success? && |urls.value| > 0 && urls.value[0] != ""
    requires var m := Discovery.ManifestResult(Discovery.AttemptsFor(manifests, Discovery.ManifestUrls(collection, pages).value[0]));
      m.Success? && m.value.items.Some?
    ensures var first := Discovery.ManifestUrls(collection, pages).value[0];
      var manifest := Discovery.ManifestResult(Discovery.AttemptsFor(manifests, first)).value;
      var batch := Batch(manifest.items.value, Processed(store, now));
      var after := Steps(targetProjectId, store, manifest.id, batch, datasets, now).store;
      var h := HarvestRun(targetProjectId, store, collection, pages, manifests, datasets, now);
      && h.outcome == Pass
      && h.store.progress.Some?
      && h.store.progress.value.lastProcessedManifest == Some(first)
      && h.store.progress.value.processedCanvases == Processed(after, now)
      && h.store.errorLog == after.errorLog
  {
  }

  class ManifestProcessor {
    const canvasProcessor: CanvasProcessor
    const progressTracker: ProgressTracker
    const errorLogger: ErrorLogger

    /** All collaborators write to the canvas processor's `FileSystem`. */
    predicate Valid() {
      canvasProcessor.Valid() && progressTracker.fs == canvasProcessor.fs && errorLogger.fs == canvasProcessor.fs
    }

    constructor(canvasProcessor: CanvasProcessor, progressTracker: ProgressTracker, errorLogger: ErrorLogger)
      requires canvasProcessor.Valid()
      requires progressTracker.fs == canvasProcessor.fs && errorLogger.fs == canvasProcessor.fs
      ensures Valid()
      ensures this.canvasProcessor == canvasProcessor && this.progressTracker == progressTracker && this.errorLogger == errorLogger
    {
      this.canvasProcessor := canvasProcessor;
      this.progressTracker := progressTracker;
      this.errorLogger := errorLogger;
    }

    /** `processManifest`. */
    method ProcessManifest(manifest: Manifest, datasets: Datasets, now: string) returns (r: Outcome)
      requires Valid()
      modifies canvasProcessor.fs, canvasProcessor`datasetRequests
      ensures var expected := ManifestOutcome(canvasProcessor.targetProjectId, old(canvasProcessor.fs.State()), manifest, datasets, now);
        && (expected.Failure? ==> r == Fail(expected.error) && canvasProcessor.fs.State() == old(canvasProcessor.fs.State()))
        && (expected.Success? ==> r == Pass && canvasProcessor.fs.State() == expected.value)
      ensures canvasProcessor.datasetRequests ==
        old(canvasProcessor.datasetRequests) + ManifestRequests(canvasProcessor.targetProjectId, old(canvasProcessor.fs.State()), manifest, datasets, now)
    {
      var progress := progressTracker.GetProgress(now);
      if manifest.items.None? {
        return Fail(ItemsMissing);
      }
      var batch := Batch(manifest.items.value, progress.processedCanvases);
      ProcessBatch(manifest.id, batch, datasets, now);
      r := Pass;
    }

    /** The `for` loop of `processManifest`: the canvases one after the other. */
    method ProcessBatch(manifestId: string, batch: seq<Canvas>, datasets: Datasets, now: string)
      requires Valid()
      modifies canvasProcessor.fs, canvasProcessor`datasetRequests
      ensures canvasProcessor.fs.State() ==
        Steps(canvasProcessor.targetProjectId, old(canvasProcessor.fs.State()), manifestId, batch, datasets, now).store
      ensures canvasProcessor.datasetRequests == old(canvasProcessor.datasetRequests) +
        Steps(canvasProcessor.targetProjectId, old(canvasProcessor.fs.State()), manifestId, batch, datasets, now).requests
    {
      ghost var start := canvasProcessor.fs.State();
      ghost var requests := canvasProcessor.datasetRequests;
      var i := 0;
      while i < |batch|
        invariant 0 <= i <= |batch|
        invariant canvasProcessor.fs.State() == Steps(canvasProcessor.targetProjectId, start, manifestId, batch[..i], datasets, now).store
        invariant canvasProcessor.datasetRequests ==
          requests + Steps(canvasProcessor.targetProjectId, start, manifestId, batch[..i], datasets, now).requests
      {
        canvasProcessor.ProcessCanvas(manifestId, batch[i], datasets, now);
        StepsNext(canvasProcessor.targetProjectId, start, manifestId, batch, i, datasets, now);
        i := i + 1;
      }
      assert batch[..i] == batch;
    }

    /** `processManifests`; `Fail` stands for the rethrown error. */
    method ProcessManifests(collection: seq<Discovery.Attempt<Collection>>, pages: Discovery.Server<Page>,
                            manifests: Discovery.Server<Manifest>, datasets: Datasets, now: string) returns (r: Outcome)
      requires Valid()
      modifies canvasProcessor.fs, canvasProcessor`datasetRequests
      ensures var h := HarvestRun(canvasProcessor.targetProjectId, old(canvasProcessor.fs.State()), collection, pages, manifests, datasets, now);
        r == h.outcome && canvasProcessor.fs.State() == h.store
      ensures canvasProcessor.datasetRequests == old(canvasProcessor.datasetRequests) +
        HarvestRequests(canvasProcessor.targetProjectId, old(canvasProcessor.fs.State()), collection, pages, manifests, datasets, now)
    {
      var urls := Discovery.GetManifestUrls(collection, pages);
      if urls.Failure? {
        return Fail(urls.error);
      }
      // The source reads the progress record here and never uses it.
      var progress := progressTracker.GetProgress(now);
      if |urls.value| == 0 || urls.value[0] == "" {
        return Fail(NoManifests);
      }
      var first := urls.value[0];
      var manifest := Discovery.FetchManifest(Discovery.AttemptsFor(manifests, first));
      var error: Option<string> := None;
      if manifest.Failure? {
        error := Some(manifest.error);
      } else {
        var done := ProcessManifest(manifest.value, datasets, now);
        if done.Fail? {
          error := Some(done.error);
        } else {
          progressTracker.UpdateLastProcessedManifest(first, now);
        }
      }
      if error.Some? {
        errorLogger.LogError(ErrorLog(first, "", error.value, now));
      }
      r := Pass;
    }
  }
}
