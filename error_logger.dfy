/** `ErrorLogger`: appends one record to `error.log.json`. */
module ErrorLogging {
  import opened Types
  import opened Storage

  class ErrorLogger {
    const fs: FileSystem

    constructor(fs: FileSystem)
      ensures this.fs == fs
    {
      this.fs := fs;
    }

    /** `logError`: load (a missing log reads as `[]`), push, save; no other file changes. */
    method LogError(error: ErrorLog)
      modifies fs
      ensures fs.State() == old(fs.State()).(errorLog := AppendAll(old(fs.errorLogFile), [error]))
    {
      var errors := fs.LoadErrorLog();
      errors := errors + [error];
      fs.SaveErrorLog(errors);
    }
  }
}
