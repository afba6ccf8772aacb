/**
 * The single-instance guard: a pid file whose existence at start-up means
 * another instance owns the configured path. The file system is a map from
 * existing paths to their contents.
 */
module PidFile {
  import opened Wrappers

  type Path = string
  type Files = map<Path, string>

  datatype Guard = Acquired | Conflict

  /** Checks the configured pid file and, when it is free, writes `pid` there.
      An existing file is never read or changed. */
  function Acquire(pidFile: Option<Path>, files: Files, pid: string): (r: (Guard, Files))
    ensures r.0 == Conflict <==> pidFile.Some? && pidFile.value in files
    ensures forall p :: p in files ==> p in r.1 && r.1[p] == files[p]
    ensures r.0 == Conflict ==> r.1 == files
    ensures r.0 == Acquired && pidFile.Some? ==> r.1.Keys == files.Keys + {pidFile.value} && r.1[pidFile.value] == pid
    ensures pidFile.None? ==> r.1 == files
  {
    match pidFile
    case None => (Acquired, files)
    case Some(path) =>
      if path in files then (Conflict, files) else (Acquired, files[path := pid])
  }

  /** The clean-up on process end: the pid file is removed. */
  function Release(pidFile: Option<Path>, files: Files): (r: Files)
    ensures pidFile.Some? ==> r.Keys == files.Keys - {pidFile.value}
    ensures forall p :: p in r ==> p in files && r[p] == files[p]
    ensures pidFile.None? ==> r == files
  {
    match pidFile
    case None => files
    case Some(path) => files - {path}
  }

  /** Acquiring and later releasing leaves the file system as it was. */
  lemma {:induction false} ReleaseUndoesAcquire(pidFile: Option<Path>, files: Files, pid: string)
    requires Acquire(pidFile, files, pid).0 == Acquired
    ensures Release(pidFile, Acquire(pidFile, files, pid).1) == files
  {
  }
}
