/**
 * The workspace temp-file manager (deepseek_python_20251121_c6bb2e.py):
 * paths are registered as intermediates and removed from the file system on
 * cleanup unless intermediates are kept. The file system is the set of
 * paths that exist.
 */
module Workspace {

  /** The file system: which paths exist. */
  class FileSystem {
    var paths: set<string>

    constructor(paths: set<string>)
      ensures this.paths == paths
    {
      this.paths := paths;
    }

    /** `os.path.exists`. */
    method Exists(path: string) returns (b: bool)
      ensures b <==> path in paths
    {
      b := path in paths;
    }

    /** `os.remove` of a path that exists (the caller checks first). */
    method Remove(path: string)
      requires path in paths
      modifies this
      ensures paths == old(paths) - {path}
    {
      paths := paths - {path};
    }
  }

  /** The paths left after removing, in order, each listed path that exists. */
  function Removed(paths: set<string>, temps: seq<string>): set<string> {
    if temps == [] then paths
    else
      var before := Removed(paths, temps[..|temps| - 1]);
      var path := temps[|temps| - 1];
      if path in before then before - {path} else before
  }

  /** The paths left by `cleanup`: all of them when intermediates are kept. */
  function AfterCleanup(paths: set<string>, temps: seq<string>, keep: bool): set<string> {
    if keep then paths else Removed(paths, temps)
  }

  /** Removal takes out exactly the registered paths and leaves every other path as it was. */
  lemma {:induction false} RemovedExactly(paths: set<string>, temps: seq<string>, p: string)
    ensures p in Removed(paths, temps) <==> p in paths && p !in temps
  {
    if temps != [] {
      var init := temps[..|temps| - 1];
      RemovedExactly(paths, init, p);
      assert temps == init + [temps[|temps| - 1]];
    }
  }

  /** Cleaning up twice leaves what cleaning up once left. */
  lemma CleanupIdempotent(paths: set<string>, temps: seq<string>, keep: bool)
    ensures AfterCleanup(AfterCleanup(paths, temps, keep), temps, keep) == AfterCleanup(paths, temps, keep)
  {
    if !keep {
      forall p | true
        ensures p in Removed(Removed(paths, temps), temps) <==> p in Removed(paths, temps)
      {
        RemovedExactly(paths, temps, p);
        RemovedExactly(Removed(paths, temps), temps, p);
      }
    }
  }

  /**
   * What `cleanup` guarantees: with intermediates kept nothing changes;
   * otherwise no registered path exists afterwards, and every unregistered
   * path exists exactly when it did before.
   */
  lemma AfterCleanupProperties(paths: set<string>, temps: seq<string>, keep: bool)
    ensures keep ==> AfterCleanup(paths, temps, keep) == paths
    ensures !keep ==> forall p :: p in temps ==> p !in AfterCleanup(paths, temps, keep)
    ensures forall p :: p !in temps ==> (p in AfterCleanup(paths, temps, keep) <==> p in paths)
    ensures AfterCleanup(paths, temps, keep) <= paths
  {
    forall p
      ensures p in Removed(paths, temps) <==> p in paths && p !in temps
    {
      RemovedExactly(paths, temps, p);
    }
  }

  /** The manager of one run's intermediate files. */
  class WorkspaceManager {
    const keepIntermediates: bool
    var tempFiles: seq<string>

    /** `__init__`: nothing registered yet; the output directory is not stored. */
    constructor(outputDir: string, keepIntermediates: bool)
      ensures this.keepIntermediates == keepIntermediates
      ensures tempFiles == []
    {
      this.keepIntermediates := keepIntermediates;
      tempFiles := [];
    }

    /** `register_temp_file`: the path goes at the end, duplicates included. */
    method RegisterTempFile(path: string)
      modifies this
      ensures tempFiles == old(tempFiles) + [path]
    {
      tempFiles := tempFiles + [path];
    }

    /**
     * `cleanup`: unless intermediates are kept, each registered path that
     * exists is removed, in registration order. Missing paths are skipped,
     * and the registration list itself is left as it is.
     */
    method Cleanup(fs: FileSystem)
      modifies fs
      ensures fs.paths == AfterCleanup(old(fs.paths), tempFiles, keepIntermediates)
    {
      if !keepIntermediates {
        ghost var start := fs.paths;
        for i := 0 to |tempFiles|
          invariant fs.paths == Removed(start, tempFiles[..i])
        {
          assert tempFiles[..i + 1][..i] == tempFiles[..i];
          var tempFile := tempFiles[i];
          var present := fs.Exists(tempFile);
          if present {
            fs.Remove(tempFile);
          }
        }
        assert tempFiles[..|tempFiles|] == tempFiles;
      }
    }
  }
}
