# IIIF activity-stream harvester, modelled in Dafny

The harvester reads an IIIF Change Discovery activity stream page by page and collects the
manifest URLs of its `Update` activities. It fetches the first manifest and processes the next
batch of at most 100 of its canvases that the progress file does not list yet. For each canvas
it:

- reads the legacy IIIF 2.0 identifiers from the canvas's painting annotation;
- fetches the dataset the canvas's first `seeAlso` link names;
- splits the dataset's models into valid and empty ones;
- logs every empty model with a reason;
- stores a record of the valid models under `projects/<project>/<manifest>/<canvas>`;
- marks the canvas as processed.

Any failure along the way ends in the error log, and the canvas stays unmarked.

The model covers this pipeline module by module, following the TypeScript sources:

- `Common`: `Option`, `Result`, `Outcome`, `Filter` and digit strings.
- `Json`: JavaScript values and the property access the sources use.
- `Types`: the documents and records of `types/index.ts`.
- `ModelProcessor`: the model classifier.
- `UrlUtils`: `extractOriginalIds`.
- `CanvasUrls`: `extractIds`, the canvas URL pattern.
- `Storage`: the `FileSystem` class, holding the data directory as abstract state.
- `ProgressTracking`, `ErrorLogging`, `EmptyModelLogging`: three classes that share one `FileSystem`.
- `Discovery`: `fetchWithRetry`, the page loop and `fetchManifest`.
- `CanvasProcessing`: `processCanvas`.
- `ManifestProcessing`: `processManifest` and `processManifests`.

Pure code is modelled as functions with lemmas. Code that updates objects is modelled as
classes, and their methods are proved against specification functions. For example:

- `ProcessCanvas` ends in `CanvasStep(...)` of the old files.
- `ProcessBatch` ends in the fold `Steps(...)`.
- `ProcessManifests` ends in `HarvestRun(...)`.

Lemmas then state what those functions promise: resumption, the catch boundary, the batch, and
the request bounds.

Network servers are modelled as values. A `Discovery.Attempt` is the outcome of one `fetch`:
it either rejects with a message or yields a response. A `Discovery.Server` maps each URL to the
outcomes of the successive calls one `fetchWithRetry` makes to it; a URL fetched again is
answered the same way again. The dataset server maps a `seeAlso` link to one attempt. The
clock is a `now` parameter.

## Model

| member | source | states |
|---|---|---|
| ModelProcessor.ReduceIsPartition | src/utils/modelProcessor.ts:11-21 | the accumulating `reduce` appends exactly the models the predicate calls valid to one list and the ones it calls empty to the other, each in input order |
| ModelProcessor.ProcessModelsPartition | src/utils/modelProcessor.ts:6-22 | with no null model, `processModels` succeeds; `validModels` and `emptyModels` are the non-empty and the empty filtered models in input order; together they are a permutation of the filtered list |
| ModelProcessor.ProjectFilterKeepsTarget | src/utils/modelProcessor.ts:7-9 | with a truthy target project only models of that project survive (both directions); with an undefined or zero target the list is unchanged |
| ModelProcessor.ProcessModelsRejectsNull | src/utils/modelProcessor.ts:24-26 | a `null` or `undefined` model makes `processModels` throw a `TypeError` |
| ModelProcessor.ProcessNoModels | src/utils/modelProcessor.ts:11-21 | no models give two empty lists |
| ModelProcessor.BooleanFieldMakesValid | src/utils/modelProcessor.ts:28-35 | a non-identity boolean field, `true` or `false`, makes the model valid |
| ModelProcessor.OnlyIdentityIsEmpty | src/utils/modelProcessor.ts:24-38 | a model with only `id`, `projectId` and `derivedFrom` fields is empty |
| ModelProcessor.IdentityFieldIrrelevant | src/utils/modelProcessor.ts:26 | inserting an identity field anywhere never changes the classification |
| ModelProcessor.EmptyModelIff | src/utils/modelProcessor.ts:37-38 | without boolean fields a model is empty exactly when every non-identity field is an empty value |
| ModelProcessor.SubstancePath | src/utils/modelProcessor.ts:41-55 | a value that is not empty holds a boolean, a number or a non-empty string at some path |
| ModelProcessor.EmptyHasNoSubstance | src/utils/modelProcessor.ts:41-55 | an empty value holds no boolean, number or non-empty string at any path |
| ModelProcessor.EmptyValueIffNoSubstance | src/utils/modelProcessor.ts:41-55 | `isEmptyValue(v)` holds exactly when nothing inside `v`, at any depth, is a boolean, a number or a non-empty string |
| UrlUtils.FirstPainting | src/utils/urlUtils.ts:3-5 | `find` returns the first annotation whose motivation is `painting`, and none when there is none |
| UrlUtils.LegacyParts | src/utils/urlUtils.ts:11-12 | a captured manifest number comes with a target of the shape `…/iiif/2.0/<digits>/canvas/<digits>.json` |
| UrlUtils.LegacyManifestNumberSound | src/utils/urlUtils.ts:11-12 | whatever the pattern captures is the manifest number of a target of the `…/iiif/2.0/<digits>/canvas/<digits>.json` shape |
| UrlUtils.LegacyManifestNumberComplete | src/utils/urlUtils.ts:11-12 | every target of that shape matches, and the capture is its manifest number |
| UrlUtils.ExtractOriginalIdsSpec | src/utils/urlUtils.ts:1-24 | fails with the 'No painting annotation' message exactly when there is no first annotation page, it has no `painting` annotation, or the first `painting` annotation's target is missing or empty; on success the canvas id is that target and the manifest id is the legacy manifest URL built from the captured number |
| UrlUtils.ExtractOriginalIdsComplete | src/utils/urlUtils.ts:1-24 | conversely, a painting target of the legacy shape always succeeds, with that target as the canvas id and the legacy manifest URL of its number as the manifest id |
| CanvasUrls.CanvasSegmentStart | src/services/canvasProcessor.ts:120 | the anchored final segment found is `/c` followed by digits running to the end of the URL |
| CanvasUrls.FirstMatch | src/services/canvasProcessor.ts:120 | the start position found is the leftmost from which the pattern matches, and none means no position matches |
| CanvasUrls.ExtractIdsSound | src/services/canvasProcessor.ts:118-130 | a successful `extractIds` splits its URL as `…/manifests/<digits>/<text without line terminator>/c<digits>`; the canvas id is that final `c<digits>` and the manifest id is the digit run after a `/manifests/` |
| CanvasUrls.ExtractIdsComplete | src/services/canvasProcessor.ts:118-130 | every URL of that shape is matched; the canvas id is its final segment, and the manifest id is its digit run when no `/manifests/` occurs earlier |
| CanvasProcessing.DetermineEmptyReason | src/services/canvasProcessor.ts:95-116 | the boolean reason exactly when a non-identity field is boolean; the empty-array reason exactly when none is and one is `[]`; the fallback reason otherwise |
| CanvasProcessing.EmptyReasonConsistent | src/services/canvasProcessor.ts:95-116 | for a model the classifier calls empty, the boolean reason never comes up, and the empty-array reason comes up exactly when a non-identity field is `[]` |
| CanvasProcessing.DatasetResult | src/services/canvasProcessor.ts:139-151 | one call: a rejection keeps its message, a non-ok status throws 'Failed to fetch dataset: <status>', an ok response gives its parsed body |
| CanvasProcessing.ModelsOf | src/services/canvasProcessor.ts:45-46 | the models are read only when `dataset.models` is an array, and they are exactly that array |
| CanvasProcessing.WithModelsSpec | src/services/canvasProcessor.ts:69-72 | the stored dataset is the fetched one with `models` replaced by the valid models and every other field kept |
| Json.SetEntry | src/services/canvasProcessor.ts:69-72 | overriding an existing key by spread keeps every key in its place and every other value |
| Json.LookupSetEntry | src/services/canvasProcessor.ts:69-72 | after the override, reading the key gives the new value and any other key reads as before |
| Json.LookupSetEntryOther | src/services/canvasProcessor.ts:69-72 | overriding one key never changes what another key reads |
| CanvasProcessing.ProcessedCanvasIsSkipped | src/services/canvasProcessor.ts:26-31 | a canvas already listed as processed makes no request, no log entry and no write |
| CanvasProcessing.CatchBoundary | src/services/canvasProcessor.ts:33-92 | a run that throws appends exactly one error record, tagged with manifest and canvas, and leaves progress alone; a run that finishes marks the canvas and leaves the error log alone; the logs and record written before the throw stay |
| CanvasProcessing.MarkedOnlyOnSuccess | src/services/canvasProcessor.ts:84 | after the call the canvas is listed exactly when it was listed before or its run did not throw |
| CanvasProcessing.NoSeeAlsoFails | src/services/canvasProcessor.ts:37-39 | a canvas without a `seeAlso` link fails with 'No seeAlso dataset link found' before any request |
| CanvasProcessing.ClassifiedRun | src/services/canvasProcessor.ts:46-82 | once the models are classified: one empty-model record per empty model, in order and with its reason; a record is saved exactly when valid models remain and the canvas URL parses, under the project/manifest/canvas key, with the canvas and legacy ids and the rewritten dataset; the run throws exactly when valid models remain and the URL does not parse |
| CanvasProcessing.LoggedReasonsAreConsistent | src/services/canvasProcessor.ts:49-57 | no logged empty model is given the boolean reason |
| CanvasProcessing.CanvasProcessor.constructor | src/services/canvasProcessor.ts:16-24 | the processor keeps its collaborators, which share one `FileSystem`, and its target project |
| CanvasProcessing.CanvasProcessor.FetchDataset | src/services/canvasProcessor.ts:139-151 | one request for the link, with the result `DatasetResult` gives |
| CanvasProcessing.CanvasProcessor.LogEmptyModels | src/services/canvasProcessor.ts:49-58 | the loop leaves the empty-model log extended by exactly the given records, in order, and no other file changed |
| CanvasProcessing.CanvasProcessor.Ingest | src/services/canvasProcessor.ts:33-84 | the `try` block writes exactly what `Run` says, requests at most the dataset `Run` names, and reports `Run`'s error |
| CanvasProcessing.CanvasProcessor.ProcessCanvas | src/services/canvasProcessor.ts:26-93 | `processCanvas` leaves the files as `CanvasStep` of the old files says and requests exactly `Requests` |
| Storage.AppendAll | src/utils/errorLogger.ts:7-11 | appending records to a log, a missing log reading as `[]`, keeps the old entries as a prefix and the new records as the suffix |
| Storage.AppendAllTwice | src/services/canvasProcessor.ts:49-58 | appending in two steps is appending the concatenation |
| Storage.LoadedProgress | src/utils/fileSystem.ts:63-73 | with no progress file: no last manifest and no processed canvas; otherwise the stored record |
| Storage.FileSystem.constructor | src/utils/fileSystem.ts:12-19 | the data directory of an earlier run is found as it was left |
| Storage.FileSystem.SaveCanvasData | src/utils/fileSystem.ts:21-33 | writes one canvas record under its key and nothing else |
| Storage.FileSystem.SaveErrorLog | src/utils/fileSystem.ts:35-37 | replaces the error log and nothing else |
| Storage.FileSystem.LoadErrorLog | src/utils/fileSystem.ts:39-45 | the error log, or `[]` when there is none |
| Storage.FileSystem.SaveEmptyModelsLog | src/utils/fileSystem.ts:47-49 | replaces the empty-model log and nothing else |
| Storage.FileSystem.LoadEmptyModelsLog | src/utils/fileSystem.ts:51-57 | the empty-model log, or `[]` when there is none |
| Storage.FileSystem.SaveProgress | src/utils/fileSystem.ts:59-61 | replaces the progress file and nothing else |
| Storage.FileSystem.LoadProgress | src/utils/fileSystem.ts:63-73 | the progress record, or the default one stamped `now` |
| ProgressTracking.WithCanvas | src/utils/progressTracker.ts:18-25 | the canvas is listed afterwards; an id already listed leaves the file untouched; a new id is appended and the record is re-stamped; the last manifest is kept |
| ProgressTracking.WithLastManifest | src/utils/progressTracker.ts:11-16 | the record names the manifest, carries the new time stamp, and keeps the processed list |
| ProgressTracking.WithCanvasKeepsNoDuplicates | src/utils/progressTracker.ts:18-25 | marking a canvas keeps the processed list free of repetitions |
| ProgressTracking.WithCanvasIdempotent | src/utils/progressTracker.ts:18-25 | marking the same canvas twice is marking it once |
| ProgressTracking.ProcessedListOnlyGrows | src/utils/progressTracker.ts:11-25 | neither update removes or reorders processed ids |
| ProgressTracking.ProgressTracker.constructor | src/utils/progressTracker.ts:5 | the tracker works on the given `FileSystem` |
| ProgressTracking.ProgressTracker.GetProgress | src/utils/progressTracker.ts:7-9 | the loaded progress record |
| ProgressTracking.ProgressTracker.UpdateLastProcessedManifest | src/utils/progressTracker.ts:11-16 | the progress file becomes `WithLastManifest` of the old one, and nothing else changes |
| ProgressTracking.ProgressTracker.AddProcessedCanvas | src/utils/progressTracker.ts:18-25 | the progress file becomes `WithCanvas` of the old one, and nothing else changes |
| ErrorLogging.ErrorLogger.constructor | src/utils/errorLogger.ts:5 | the logger works on the given `FileSystem` |
| ErrorLogging.ErrorLogger.LogError | src/utils/errorLogger.ts:7-11 | the error log grows by exactly the given record at its end, and nothing else changes |
| EmptyModelLogging.EmptyModelLogger.constructor | src/utils/emptyModelLogger.ts:5 | the logger works on the given `FileSystem` |
| EmptyModelLogging.EmptyModelLogger.LogEmptyModel | src/utils/emptyModelLogger.ts:7-11 | the empty-model log grows by exactly the given record at its end, and nothing else changes |
| Discovery.AttemptError | src/services/iiifDiscovery.ts:20-29 | a rejection rethrows its message; a non-ok response throws 'HTTP error! status: <status>, message: <body text>' |
| Discovery.RetryFromSpec | src/services/iiifDiscovery.ts:11-39 | from any attempt on, the result is the first ok response among the remaining attempts, or the last attempt's error when none is ok |
| Discovery.RetrySpec | src/services/iiifDiscovery.ts:11-39 | `fetchWithRetry` succeeds exactly when one of its at most four attempts is ok; it then returns the first ok response; otherwise it throws the fourth attempt's error |
| Discovery.MainErrorIsMostFrequent | src/services/iiifDiscovery.ts:11-39 | the error `pRetry` releases built on the `retry` package throw after the last attempt, `mainError()`, is one of the failures' messages and no message occurs more often |
| Discovery.LastIsMainWhenMostFrequent | src/services/iiifDiscovery.ts:11-39 | `mainError()` is the last failure's message whenever that message is among the most frequent |
| Discovery.RetryErrorIsMainWhenLastIsMostFrequent | src/services/iiifDiscovery.ts:11-39 | when every attempt fails and the last message is among the most frequent, the model's error and `mainError()` are the same |
| Discovery.MainErrorCanDiffer | src/services/iiifDiscovery.ts:11-39 | failures `x`, `x`, a network error, `y` make `mainError()` throw `x`, where the model throws `y` |
| Discovery.RetryIgnoresLaterAttempts | src/services/iiifDiscovery.ts:33 | what a server would answer after the fourth call never changes the result |
| Discovery.NoAttemptsFail | src/services/iiifDiscovery.ts:11-39 | a URL no server answers fails with the transport error |
| Discovery.FetchWithRetry | src/services/iiifDiscovery.ts:10-40 | the retry loop returns `Retry`'s result after 1 to 4 calls; the last call is the first ok one when the loop succeeds, and all earlier calls failed |
| Discovery.PageResult | src/services/iiifDiscovery.ts:42-57 | a page is returned exactly when the fetch and parse succeed and `orderedItems` is an array; a parsed page without one fails with 'Invalid page structure' |
| Discovery.FetchCollectionPage | src/services/iiifDiscovery.ts:42-57 | the page fetch returns `PageResult` of its attempts |
| Discovery.ServedPageIsKnown | src/services/iiifDiscovery.ts:42-52 | only a URL the server answers can yield a page |
| Discovery.UpdateIds | src/services/iiifDiscovery.ts:85-87 | a page yields at most one id per activity |
| Discovery.UpdateIdsMembership | src/services/iiifDiscovery.ts:85-87 | an id is collected exactly when some `Update` activity carries it |
| Discovery.UpdateIdsAppend | src/services/iiifDiscovery.ts:85-89 | ids keep the order of their activities |
| Discovery.NextUrl | src/services/iiifDiscovery.ts:93 | the loop stops exactly when `next.id` is missing or empty |
| Discovery.WalkStep | src/services/iiifDiscovery.ts:81-94 | one turn of the loop: a page failure ends the traversal with its error; a page without `next` ends it with its ids; otherwise its ids come before the rest of the traversal |
| Discovery.MissingFirstFailsFirst | src/services/iiifDiscovery.ts:64-69 | a collection without `first.id` fails with 'Invalid collection' whatever the pages would say |
| Discovery.GetManifestUrls | src/services/iiifDiscovery.ts:59-103 | `getManifestUrls` returns `ManifestUrls` of the collection's and the pages' responses |
| Discovery.FollowPages | src/services/iiifDiscovery.ts:77-94 | the page loop computes the guarded traversal from the first page |
| Discovery.ChainPagesAreServed | src/services/iiifDiscovery.ts:81-94 | every page of a chain holds an `orderedItems` array and no URL of a chain repeats |
| Discovery.ChainIsWalked | src/services/iiifDiscovery.ts:81-94 | along a chain of pages linked by `next`, the traversal returns the `Update` ids of every page, page by page, in order |
| Discovery.WalkFollowsChain | src/services/iiifDiscovery.ts:81-94 | conversely, every successful traversal follows such a chain and returns what it collects |
| Discovery.AsWrittenSelfLinkNeverEnds | src/services/iiifDiscovery.ts:81-94 | the loop as written never stops on a page whose `next` is itself |
| Discovery.SelfLinkReported | src/services/iiifDiscovery.ts:81-94 | the guarded traversal reports the revisit after one fetch |
| Discovery.GuardIsTransparentOnChains | src/services/iiifDiscovery.ts:81-94 | along every chain of served pages that ends without `next`, the loop as written, given one fetch per page, returns what the guarded traversal returns |
| Discovery.Hop | src/services/iiifDiscovery.ts:81-93 | the loop moves on only from a served page with a non-empty `next.id`, and then to that id |
| Discovery.ReachAdd | src/services/iiifDiscovery.ts:81-93 | `k + m` turns of the loop are `k` turns followed by `m` more |
| Discovery.StoppedLoopTurnsLess | src/services/iiifDiscovery.ts:81-94 | a loop that stops within `fuel` fetches makes fewer than `fuel` turns |
| Discovery.CycleTurnsForEver | src/services/iiifDiscovery.ts:81-94 | a loop that comes back to a page it left makes any number of turns |
| Discovery.GuardIsTransparentFrom | src/services/iiifDiscovery.ts:81-94 | from a page every visited page leads to, the guarded traversal returns whatever the loop as written returns when it stops, a revisited page being answered as on its first visit |
| Discovery.GuardIsTransparent | src/services/iiifDiscovery.ts:42-94 | whenever the loop as written stops, whether it collects every page or throws on a failed or malformed page, the guarded traversal returns the same result, a revisited page being answered as on its first visit; the guard only changes a loop that never ends |
| Discovery.ManifestResult | src/services/iiifDiscovery.ts:105-115 | a manifest is returned exactly when the fetch with retries and the parse succeed |
| Discovery.FetchManifest | src/services/iiifDiscovery.ts:105-115 | `fetchManifest` returns `ManifestResult` of its attempts |
| ManifestProcessing.BatchSpec | src/services/manifestProcessor.ts:47-54 | the batch is made of the first at most 100 unlisted canvases of the manifest, in order: all of them when there are at most 100, exactly 100 otherwise; an unlisted canvas is left out only when the batch is full |
| ManifestProcessing.StepProcessed | src/services/manifestProcessor.ts:59-61 | one `processCanvas` appends its canvas id to the processed list exactly when the canvas was unlisted and its run did not throw |
| ManifestProcessing.StepsProcessed | src/services/manifestProcessor.ts:59-61 | after the loop the old processed list is a prefix of the new one; an id is listed exactly when it was listed before or some canvas with that id completed |
| ManifestProcessing.StepsProcessedIff | src/services/manifestProcessor.ts:59-61 | the same, with the completed canvas named by its index |
| ManifestProcessing.StepsNext | src/services/manifestProcessor.ts:59-61 | one more canvas of the batch is one more `processCanvas` on the files the earlier ones left |
| ManifestProcessing.CompletedCanvasIsNotRepeated | src/services/manifestProcessor.ts:59-61 | a canvas whose id an earlier canvas of the loop completed is skipped: no request, no write |
| ManifestProcessing.StepRequests | src/services/canvasProcessor.ts:37-42 | one `processCanvas` requests at most one dataset, its canvas's first `seeAlso` link |
| ManifestProcessing.StepsRequestsBound | src/services/manifestProcessor.ts:59-61 | the loop makes at most one dataset request per canvas, and only for a canvas's first `seeAlso` link |
| ManifestProcessing.HarvestFails | src/services/manifestProcessor.ts:17-44 | the run throws exactly when discovery fails or finds no first URL ('No manifests found'), and then writes nothing |
| ManifestProcessing.OnlyFirstManifestMatters | src/services/manifestProcessor.ts:22-29 | only the first discovered manifest is fetched: servers that agree on it give the same run and the same requests |
| ManifestProcessing.ManifestFailureLogged | src/services/manifestProcessor.ts:28-39 | a failure to fetch the first manifest, or a missing canvas list, appends one error record with an empty canvas id; the run does not throw and writes nothing else |
| ManifestProcessing.ManifestSuccessRecorded | src/services/manifestProcessor.ts:28-31 | a manifest with canvases is processed batch-wise and then recorded as the last processed manifest; the processed list and the error log are the ones the batch left |
| ManifestProcessing.ManifestProcessor.constructor | src/services/manifestProcessor.ts:10-15 | the processor keeps its collaborators, which share one `FileSystem` |
| ManifestProcessing.ManifestProcessor.ProcessManifest | src/services/manifestProcessor.ts:46-70 | `processManifest` throws on a manifest without a canvas list and changes nothing; otherwise it leaves the files the batch fold leaves and makes its requests |
| ManifestProcessing.ManifestProcessor.ProcessBatch | src/services/manifestProcessor.ts:59-61 | the sequential `for` loop leaves the files and the requests of the fold `Steps` |
| ManifestProcessing.ManifestProcessor.ProcessManifests | src/services/manifestProcessor.ts:17-44 | `processManifests` returns (or throws) what `HarvestRun` says, leaves its files, and makes `HarvestRequests` |

## Left out

- The page loop's guard against revisits: the source has none. The corrected loop, `Discovery.Walk`, is what the model uses; the loop as written is under Findings, and `Discovery.GuardIsTransparent` shows that the two agree whenever the loop as written stops.
- GuardIsTransparent (`Discovery.GuardIsTransparent`): a page the loop as written fetches again is answered as on its first visit, as a `Discovery.Server` answers every fetch of a URL. A server whose answers change between visits is not covered: on A → B → A, where A's second answer has no `next`, the loop as written stops with A's items twice, while the guarded traversal reports the revisit.
- GuardIsTransparentFrom (`Discovery.GuardIsTransparentFrom`): the same assumption as `Discovery.GuardIsTransparent`, on which it rests: a revisited page is answered as on its first visit, and a server that answers it otherwise is not covered.
- AsWrittenSelfLinkNeverEnds (`Discovery.AsWrittenSelfLinkNeverEnds`): stated for a server that answers the self-linked page the same way on every visit.
- RetryFrom (`Discovery.RetryFrom`): after the last failed attempt the model throws the last attempt's error. `p-retry` releases built on the `retry` package throw its `mainError()` instead: the most frequent message, the latest on a tie. That is `Discovery.MainError`. The two agree when the last message is among the most frequent (`Discovery.RetryErrorIsMainWhenLastIsMostFrequent`) and can differ otherwise (`Discovery.MainErrorCanDiffer`). The `p-retry` release is not pinned in the source.
- RetryFromSpec (`Discovery.RetryFromSpec`): its failure case names the last attempt's error, as `Discovery.RetryFrom` does; see there for the releases that throw `mainError()`.
- RetrySpec (`Discovery.RetrySpec`): its failure case names the fourth attempt's error, as `Discovery.RetryFrom` does; see there for the releases that throw `mainError()`.
- `fetchWithRetry`'s number of attempts: `retries: 3` gives four attempts in total, one call and three retries, and the model makes four.
- `fetchDataset` calls `fetch` once, without `fetchWithRetry`, and the model makes a single attempt.
- Concurrency limits (`p-limit` pools of 5 and 3): every call is awaited in sequence, so the model runs the calls one after the other.
- `p-retry`'s back-off delays and `onFailedAttempt` logging: timing is not modelled. Its refusal to retry an abort or a non-network `TypeError` is not modelled either: every failed attempt is retried.
- The `constructDatasetUrl` URL rewrite (`format=json`, `version=3.0`): the dataset server is indexed by the `seeAlso` link itself. A link that `new URL` rejects is not modelled as a failure.
- Console output of every module: it does not affect state.
- Clock: `new Date().toISOString()` is the `now` parameter. A `processManifests` call passes one value to everything it does, and an operation called on its own takes its own.
- Numbers: JSON numbers are integers, so project ids are compared as integers. Fractional ids are not modelled.
- JavaScript's wording of the messages of engine `TypeError`s: `NullModelError`, `ModelsNotArray` and `ItemsMissing` stand in for them. The 'Unknown error' branch is not modelled: every failure is an `Error` with a message.
- The documents of the activity stream and the manifests are typed as the harvester's types declare them. An activity without `object`, or a page body that is `null`, is not modelled apart from a failed parse.
- `FileSystem`: directory creation, JSON formatting and write failures are not modelled. A log or progress file that cannot be read counts as missing, as its `catch` makes it.
- `migrateExistingData`, the `FileSystem`'s own `extractIds` and the `index.ts` start-up are not part of this model.
- `processManifests` reads the progress record at `src/services/manifestProcessor.ts:20` and never uses it: `ManifestProcessing.ManifestProcessor.ProcessManifests` reads it through `GetProgress` and discards it, as the source does, and `HarvestRun` omits the read because it changes no file.

## Findings

| source | as written | input that shows it | evidently intended | confidence | as-written member | corrected member |
|---|---|---|---|---|---|---|
| src/services/iiifDiscovery.ts:81-94 | the page loop follows `next.id` with no record of the pages it has fetched | a served page whose `next.id` is its own URL (`Discovery.SelfLinked`) | the traversal ends, reporting the revisited page | not executed | Discovery.AsWrittenSelfLinkNeverEnds | Discovery.SelfLinkReported |
