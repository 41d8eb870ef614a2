/** `EmptyModelLogger`: appends one record to `empty-models.log.json`. */
module EmptyModelLogging {
  import opened Types
  import opened Storage

  class EmptyModelLogger {
    const fs: FileSystem

    constructor(fs: FileSystem)
      ensures this.fs == fs
    {
      this.fs := fs;
    }

    /** `logEmptyModel`: load (a missing log reads as `[]`), push, save; no other file changes. */
    method LogEmptyModel(log: EmptyModelLog)
      modifies fs
      ensures fs.State() == old(fs.State()).(emptyModelsLog := AppendAll(old(fs.emptyModelsLogFile), [log]))
    {
      var logs := fs.LoadEmptyModelsLog();
      logs := logs + [log];
      fs.SaveEmptyModelsLog(logs);
    }
  }
}
