/**
  The kubeconfig file on disk and the directory that holds it. Reading, parsing,
  serialising and file-system calls are not modelled one by one: whether each kind
  of access succeeds is a constant of the store, and what a successful write leaves
  behind is the document value itself.
 */
module Persistence {
  import opened Errors
  import opened Api

  /** One entry of a directory listing (`os.DirEntry`): its name and whether it is a directory. */
  datatype DirEntry = DirEntry(name: string, isDir: bool)

  /** A backup written by a command: the backup file's path and the document it holds. */
  datatype BackupFile = BackupFile(path: string, snapshot: Document)

  /** Whether loading and writing the kubeconfig file succeed. */
  datatype Io = Io(canLoad: bool, canWrite: bool)

  class Store {
    /** The kubeconfig path the default loading rules resolve ("" when none). */
    const path: string
    /** Reading and parsing the file succeed. */
    const readable: bool
    /** Writing the kubeconfig file succeeds. */
    const writable: bool
    /** Creating the backup directory and writing a backup file succeed. */
    const backupWritable: bool
    /** Paths that `os.Remove` fails on. */
    const undeletable: set<string>

    /** The document the kubeconfig file holds (a fresh empty one when the file is absent). */
    var saved: Document
    /** The number of successful writes of the kubeconfig file. */
    var writes: nat
    /** Every backup written, oldest first. */
    var backupLog: seq<BackupFile>
    /** The listing of the directory that holds the kubeconfig file. */
    var dir: seq<DirEntry>

    constructor (path: string, readable: bool, writable: bool, backupWritable: bool,
                 undeletable: set<string>, saved: Document, dir: seq<DirEntry>)
      ensures this.path == path && this.readable == readable && this.writable == writable
      ensures this.backupWritable == backupWritable && this.undeletable == undeletable
      ensures this.saved == saved && this.dir == dir
      ensures writes == 0 && backupLog == []
    {
      this.path := path;
      this.readable := readable;
      this.writable := writable;
      this.backupWritable := backupWritable;
      this.undeletable := undeletable;
      this.saved := saved;
      this.dir := dir;
      writes := 0;
      backupLog := [];
    }

    function Access(): Io
    {
      Io(path != "" && readable, writable)
    }

    /**
      `GetKubeConfig`: a fresh in-memory copy of the stored document; fails when no
      default path can be determined or the file cannot be read or parsed.
     */
    method GetKubeConfig() returns (config: Config?, err: Outcome)
      ensures err.Pass? <==> Access().canLoad
      ensures err.Fail? ==> config == null && err == Fail(LoadFailed)
      ensures err.Pass? ==> config != null && fresh(config) && config.Doc() == saved
    {
      if path == "" || !readable {
        return null, Fail(LoadFailed);
      }
      config := new Config(saved);
      err := Pass;
    }

    /**
      `SafeWriteConfig`: write to a temporary file, then rename it over the kubeconfig.
      A failure at any step leaves the stored document as it was.
     */
    method SafeWriteConfig(config: Config) returns (err: Outcome)
      modifies this
      ensures err == (if writable then Pass else Fail(WriteFailed))
      ensures saved == (if writable then config.Doc() else old(saved))
      ensures writes == old(writes) + (if writable then 1 else 0)
      ensures backupLog == old(backupLog) && dir == old(dir)
    {
      if !writable {
        return Fail(WriteFailed);
      }
      saved := config.Doc();
      writes := writes + 1;
      err := Pass;
    }

    /**
      `clientcmd.WriteToFile`: writes the kubeconfig in place, not atomically, so after a
      failure nothing is promised about the file's contents.
     */
    method WriteToFile(config: Config) returns (err: Outcome)
      modifies this
      ensures err == (if writable then Pass else Fail(WriteFailed))
      ensures writable ==> saved == config.Doc()
      ensures writes == old(writes) + (if writable then 1 else 0)
      ensures backupLog == old(backupLog) && dir == old(dir)
    {
      if !writable {
        return Fail(WriteFailed);
      }
      saved := config.Doc();
      writes := writes + 1;
      err := Pass;
    }
  }
}
