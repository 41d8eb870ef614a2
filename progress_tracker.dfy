/** `ProgressTracker`: the resumption record, read and written through the shared `FileSystem`. */
module ProgressTracking {
  import opened Common
  import opened Types
  import opened Storage

  /** The progress file after `addProcessedCanvas(canvasId)`: an id already listed leaves the
      file as it was (nothing is saved); a new id is appended and the record re-stamped. */
  function WithCanvas(file: Option<Progress>, canvasId: string, now: string): (r: Option<Progress>)
    ensures r.Some? && canvasId in r.value.processedCanvases
    ensures var before := LoadedProgress(file, now).processedCanvases;
      && r.value.lastProcessedManifest == LoadedProgress(file, now).lastProcessedManifest
      && (canvasId in before ==> r == file)
      && (canvasId !in before ==> r.value.processedCanvases == before + [canvasId] && r.value.timestamp == now)
  {
    var progress := LoadedProgress(file, now);
    if canvasId in progress.processedCanvases then file
    else Some(progress.(processedCanvases := progress.processedCanvases + [canvasId], timestamp := now))
  }

  /** The progress file after `updateLastProcessedManifest(manifestId)`. */
  function WithLastManifest(file: Option<Progress>, manifestId: string, now: string): (r: Option<Progress>)
    ensures r.Some? && r.value.lastProcessedManifest == Some(manifestId) && r.value.timestamp == now
    ensures r.value.processedCanvases == LoadedProgress(file, now).processedCanvases
  {
    var progress := LoadedProgress(file, now);
    Some(progress.(lastProcessedManifest := Some(manifestId), timestamp := now))
  }

  /** Marking a canvas keeps the list free of repetitions. */
  lemma WithCanvasKeepsNoDuplicates(file: Option<Progress>, canvasId: string, now: string)
    requires NoDuplicates(LoadedProgress(file, now).processedCanvases)
    ensures NoDuplicates(WithCanvas(file, canvasId, now).value.processedCanvases)
  {
    var before := LoadedProgress(file, now).processedCanvases;
    if canvasId !in before {
      var after := before + [canvasId];
      forall i, j | 0 <= i < j < |after| ensures after[i] != after[j] {
        if j == |before| {
          assert after[i] == before[i];
        }
      }
    }
  }

  /** Marking the same canvas twice is marking it once. */
  lemma WithCanvasIdempotent(file: Option<Progress>, canvasId: string, now: string, later: string)
    ensures WithCanvas(WithCanvas(file, canvasId, now), canvasId, later) == WithCanvas(file, canvasId, now)
  {
  }

  /** Neither update removes or reorders entries: the old list is a prefix of the new one. */
  lemma ProcessedListOnlyGrows(file: Option<Progress>, id: string, manifestId: string, now: string)
    ensures LoadedProgress(file, now).processedCanvases <= WithCanvas(file, id, now).value.processedCanvases
    ensures LoadedProgress(file, now).processedCanvases == WithLastManifest(file, manifestId, now).value.processedCanvases
  {
  }

  class ProgressTracker {
    const fs: FileSystem

    constructor(fs: FileSystem)
      ensures this.fs == fs
    {
      this.fs := fs;
    }

    /** `getProgress`; with no progress file: no last manifest and no processed canvas. */
    method GetProgress(now: string) returns (progress: Progress)
      ensures progress == LoadedProgress(fs.progressFile, now)
    {
      progress := fs.LoadProgress(now);
    }

    method UpdateLastProcessedManifest(manifestId: string, now: string)
      modifies fs
      ensures fs.State() == old(fs.State()).(progress := WithLastManifest(old(fs.progressFile), manifestId, now))
    {
      var progress := GetProgress(now);
      progress := progress.(lastProcessedManifest := Some(manifestId), timestamp := now);
      fs.SaveProgress(progress);
    }

    method AddProcessedCanvas(canvasId: string, now: string)
      modifies fs
      ensures fs.State() == old(fs.State()).(progress := WithCanvas(old(fs.progressFile), canvasId, now))
    {
      var progress := GetProgress(now);
      if canvasId !in progress.processedCanvases {
        progress := progress.(processedCanvases := progress.processedCanvases + [canvasId], timestamp := now);
        fs.SaveProgress(progress);
      }
    }
  }
}
