/**
  Backups of the kubeconfig file: a timestamped copy next to the file, after which
  only the five newest backups are kept.
 */
module Backup {
  import opened Errors
  import opened Api
  import opened Strings
  import opened Paths
  import opened Timestamps
  import opened Persistence

  /** How many backups retention keeps. */
  const MaxBackups := 5

  const BackupInfix := ".backup-"

  /** The path of the backup of `kubeconfigPath` taken at `timestamp`. */
  function BackupPath(kubeconfigPath: string, timestamp: string): string
  {
    kubeconfigPath + BackupInfix + timestamp
  }

  /** The name every backup file of `kubeconfigPath` starts with. */
  function BackupPrefix(kubeconfigPath: string): string
  {
    Base(kubeconfigPath) + BackupInfix
  }

  /** A directory entry that retention treats as a backup of `kubeconfigPath`. */
  predicate IsBackupOf(e: DirEntry, kubeconfigPath: string)
  {
    !e.isDir && BackupPrefix(kubeconfigPath) <= e.name
  }

  /** The paths of the backups among `entries`, in listing order. */
  function Candidates(entries: seq<DirEntry>, backupDir: string, kubeconfigPath: string): seq<string>
    decreases |entries|
  {
    if entries == [] then []
    else
      var e := entries[|entries| - 1];
      Candidates(entries[..|entries| - 1], backupDir, kubeconfigPath)
        + (if IsBackupOf(e, kubeconfigPath) then [Join(backupDir, e.name)] else [])
  }

  lemma {:induction false} CandidatesAreBackups(entries: seq<DirEntry>, backupDir: string, kubeconfigPath: string)
    ensures forall x :: x in Candidates(entries, backupDir, kubeconfigPath) <==>
      exists e :: e in entries && IsBackupOf(e, kubeconfigPath) && x == Join(backupDir, e.name)
    decreases |entries|
  {
    if entries != [] {
      var init := entries[..|entries| - 1];
      CandidatesAreBackups(init, backupDir, kubeconfigPath);
      assert entries == init + [entries[|entries| - 1]];
    }
  }

  /** The filtering loop of `cleanupOldBackups`. */
  method SelectBackups(entries: seq<DirEntry>, backupDir: string, kubeconfigPath: string) returns (backups: seq<string>)
    ensures backups == Candidates(entries, backupDir, kubeconfigPath)
  {
    backups := [];
    var prefix := BackupPrefix(kubeconfigPath);
    for i := 0 to |entries|
      invariant backups == Candidates(entries[..i], backupDir, kubeconfigPath)
    {
      assert entries[..i + 1][..i] == entries[..i];
      if !entries[i].isDir && prefix <= entries[i].name {
        backups := backups + [Join(backupDir, entries[i].name)];
      }
    }
    assert entries[..|entries|] == entries;
  }

  /** The backups retention deletes: all but the newest five, oldest first. */
  function Expired(backups: seq<string>): seq<string>
  {
    var s := SortStrings(backups);
    if |s| > MaxBackups then s[..|s| - MaxBackups] else []
  }

  /** The backups retention keeps. */
  function Retained(backups: seq<string>): seq<string>
  {
    var s := SortStrings(backups);
    if |s| > MaxBackups then s[|s| - MaxBackups..] else s
  }

  /** In a sorted sequence everything before a cut sorts before everything after it. */
  lemma SortedCut(s: seq<string>, k: nat)
    requires Sorted(s) && k <= |s|
    ensures forall x, y :: x in s[..k] && y in s[k..] ==> LessEq(x, y)
  {
    forall x, y | x in s[..k] && y in s[k..] ensures LessEq(x, y) {
      var i :| 0 <= i < k && s[..k][i] == x;
      var j :| 0 <= j < |s| - k && s[k..][j] == y;
      assert s[i] == x && s[k + j] == y;
    }
  }

  /**
    Retention splits the sorted backups: at most five are kept, the rest are deleted,
    every deleted one sorts before every kept one, and none is lost or invented.
   */
  lemma RetentionSplit(backups: seq<string>)
    ensures Expired(backups) + Retained(backups) == SortStrings(backups)
    ensures multiset(Expired(backups)) + multiset(Retained(backups)) == multiset(backups)
    ensures |Retained(backups)| == if |backups| > MaxBackups then MaxBackups else |backups|
    ensures |Expired(backups)| == if |backups| > MaxBackups then |backups| - MaxBackups else 0
    ensures forall x, y :: x in Expired(backups) && y in Retained(backups) ==> LessEq(x, y)
  {
    var s := SortStrings(backups);
    var k := RetentionCut(backups);
    SplitAt(s, k);
    SortedCut(s, k);
  }

  /** Where retention cuts the sorted backups. */
  lemma RetentionCut(backups: seq<string>) returns (k: nat)
    ensures k <= |SortStrings(backups)|
    ensures k == if |backups| > MaxBackups then |backups| - MaxBackups else 0
    ensures Expired(backups) == SortStrings(backups)[..k]
    ensures Retained(backups) == SortStrings(backups)[k..]
    ensures |SortStrings(backups)| == |backups|
  {
    SortedLength(backups);
    k := if |backups| > MaxBackups then |backups| - MaxBackups else 0;
  }

  /** Sorting keeps the number of backups. */
  lemma SortedLength(backups: seq<string>)
    ensures |SortStrings(backups)| == |backups|
  {
    var s := SortStrings(backups);
    assert |s| == |multiset(s)| == |multiset(backups)| == |backups|;
  }

  /** Cutting a sequence loses and invents nothing. */
  lemma SplitAt(s: seq<string>, k: nat)
    requires k <= |s|
    ensures s[..k] + s[k..] == s
    ensures multiset(s[..k]) + multiset(s[k..]) == multiset(s)
  {
    assert s == s[..k] + s[k..];
  }

  lemma ExpiredAreCandidates(backups: seq<string>, k: nat)
    requires k <= |Expired(backups)|
    ensures forall x :: x in Expired(backups)[..k] ==> x in backups
  {
    var s := SortStrings(backups);
    forall x | x in Expired(backups)[..k] ensures x in backups {
      var i :| 0 <= i < k && Expired(backups)[..k][i] == x;
      assert s[i] == x;
      assert x in multiset(s);
    }
  }

  /** Joining with the same directory keeps the order of the names. */
  lemma JoinKeepsOrder(backupDir: string, a: string, b: string)
    requires a != "" && b != ""
    ensures LessEq(Join(backupDir, a), Join(backupDir, b)) <==> LessEq(a, b)
  {
    if backupDir == "" || backupDir == "." {
    } else if backupDir == "/" {
      LessEqAfterCommonPrefix("/", a, b);
    } else {
      assert backupDir + "/" + a == (backupDir + "/") + a;
      LessEqAfterCommonPrefix(backupDir + "/", a, b);
    }
  }

  /**
    Two backups of the same kubeconfig sort in the order of their timestamps, and so
    retention deletes the oldest.
   */
  lemma BackupOrderIsChronological(kubeconfigPath: string, t1: string, t2: string)
    requires IsTimestamp(t1) && IsTimestamp(t2)
    ensures LessEq(BackupPath(kubeconfigPath, t1), BackupPath(kubeconfigPath, t2)) <==> Value(t1) <= Value(t2)
  {
    LessEqAfterCommonPrefix(kubeconfigPath + BackupInfix, t1, t2);
    TimestampOrderIsChronological(t1, t2);
  }

  /** The index of the first path in `paths` that cannot be removed, or `|paths|`. */
  function FirstBlocked(paths: seq<string>, undeletable: set<string>): (k: nat)
    ensures k <= |paths|
    ensures forall j :: 0 <= j < k ==> paths[j] !in undeletable
    ensures k < |paths| ==> paths[k] in undeletable
    decreases |paths|
  {
    if paths == [] || paths[0] in undeletable then 0 else 1 + FirstBlocked(paths[1..], undeletable)
  }

  /** The listing after `os.Remove(path)`. */
  function Unlink(entries: seq<DirEntry>, backupDir: string, path: string): seq<DirEntry>
    decreases |entries|
  {
    if entries == [] then []
    else
      var init := entries[..|entries| - 1];
      var e := entries[|entries| - 1];
      Unlink(init, backupDir, path) + (if Join(backupDir, e.name) == path then [] else [e])
  }

  /** The listing after removing each of `paths` in turn. */
  function UnlinkAll(entries: seq<DirEntry>, backupDir: string, paths: seq<string>): seq<DirEntry>
    decreases |paths|
  {
    if paths == [] then entries
    else Unlink(UnlinkAll(entries, backupDir, paths[..|paths| - 1]), backupDir, paths[|paths| - 1])
  }

  /** Removing a path removes exactly the entries at that path. */
  lemma {:induction false} UnlinkSpec(entries: seq<DirEntry>, backupDir: string, path: string)
    ensures forall e :: e in Unlink(entries, backupDir, path) <==> e in entries && Join(backupDir, e.name) != path
    decreases |entries|
  {
    if entries != [] {
      var init := entries[..|entries| - 1];
      UnlinkSpec(init, backupDir, path);
      assert entries == init + [entries[|entries| - 1]];
    }
  }

  /** Removing several paths removes exactly the entries at those paths. */
  lemma {:induction false} UnlinkAllSpec(entries: seq<DirEntry>, backupDir: string, paths: seq<string>)
    ensures forall e :: e in UnlinkAll(entries, backupDir, paths) <==> e in entries && Join(backupDir, e.name) !in paths
    decreases |paths|
  {
    if paths != [] {
      var init := paths[..|paths| - 1];
      UnlinkAllSpec(entries, backupDir, init);
      UnlinkSpec(UnlinkAll(entries, backupDir, init), backupDir, paths[|paths| - 1]);
      assert paths == init + [paths[|paths| - 1]];
    }
  }

  /** The listing after retention ran over `entries`. */
  function AfterRetention(entries: seq<DirEntry>, kubeconfigPath: string, undeletable: set<string>): seq<DirEntry>
  {
    var backupDir := Dir(kubeconfigPath);
    var expired := Expired(Candidates(entries, backupDir, kubeconfigPath));
    UnlinkAll(entries, backupDir, expired[..FirstBlocked(expired, undeletable)])
  }

  /** Whether retention over `entries` reaches its end without a failed removal. */
  predicate RetentionSucceeds(entries: seq<DirEntry>, kubeconfigPath: string, undeletable: set<string>)
  {
    var expired := Expired(Candidates(entries, Dir(kubeconfigPath), kubeconfigPath));
    FirstBlocked(expired, undeletable) == |expired|
  }

  /** A directory listing as `os.ReadDir` returns it: names are non-empty and distinct. */
  predicate WellFormedListing(entries: seq<DirEntry>)
  {
    (forall e :: e in entries ==> e.name != "")
    && forall i, j :: 0 <= i < j < |entries| ==> entries[i].name != entries[j].name
  }

  lemma JoinInjective(backupDir: string, a: string, b: string)
    requires a != "" && b != "" && Join(backupDir, a) == Join(backupDir, b)
    ensures a == b
  {
    if backupDir == "" || backupDir == "." {
    } else if backupDir == "/" {
      assert a == ("/" + a)[1..];
    } else {
      var p := backupDir + "/";
      assert backupDir + "/" + a == p + a && backupDir + "/" + b == p + b;
      assert a == (p + a)[|p|..] && b == (p + b)[|p|..];
    }
  }

  /** A non-backup entry of a well-formed listing never has the path of a backup. */
  lemma NonBackupNotCandidate(entries: seq<DirEntry>, kubeconfigPath: string, e: DirEntry)
    requires WellFormedListing(entries)
    requires e in entries && !IsBackupOf(e, kubeconfigPath)
    ensures Join(Dir(kubeconfigPath), e.name) !in Candidates(entries, Dir(kubeconfigPath), kubeconfigPath)
  {
    var backupDir := Dir(kubeconfigPath);
    CandidatesAreBackups(entries, backupDir, kubeconfigPath);
    if Join(backupDir, e.name) in Candidates(entries, backupDir, kubeconfigPath) {
      var f :| f in entries && IsBackupOf(f, kubeconfigPath) && Join(backupDir, e.name) == Join(backupDir, f.name);
      JoinInjective(backupDir, e.name, f.name);
      assert false;
    }
  }

  /**
    Retention removes nothing but backups of the kubeconfig: every other entry of the
    listing stays, and when retention succeeds no expired backup remains.
   */
  lemma AfterRetentionSpec(entries: seq<DirEntry>, kubeconfigPath: string, undeletable: set<string>)
    requires WellFormedListing(entries)
    ensures forall e :: e in AfterRetention(entries, kubeconfigPath, undeletable) ==> e in entries
    ensures forall e :: e in entries && !IsBackupOf(e, kubeconfigPath) ==> e in AfterRetention(entries, kubeconfigPath, undeletable)
    ensures RetentionSucceeds(entries, kubeconfigPath, undeletable) ==>
      forall e :: e in AfterRetention(entries, kubeconfigPath, undeletable) ==>
        Join(Dir(kubeconfigPath), e.name) !in Expired(Candidates(entries, Dir(kubeconfigPath), kubeconfigPath))
  {
    var backupDir := Dir(kubeconfigPath);
    var cands := Candidates(entries, backupDir, kubeconfigPath);
    var expired := Expired(cands);
    var removed := expired[..FirstBlocked(expired, undeletable)];
    UnlinkAllSpec(entries, backupDir, removed);
    forall e | e in entries && !IsBackupOf(e, kubeconfigPath)
      ensures Join(backupDir, e.name) !in removed
    {
      NonBackupNotCandidate(entries, kubeconfigPath, e);
      ExpiredAreCandidates(cands, FirstBlocked(expired, undeletable));
    }
    if RetentionSucceeds(entries, kubeconfigPath, undeletable) {
      assert removed == expired;
    }
  }

  /** The removal loop of `cleanupOldBackups`: stops at the first failing `os.Remove`. */
  method RemoveOldBackups(store: Store, backupDir: string, paths: seq<string>) returns (err: Outcome)
    modifies store`dir
    ensures store.dir == UnlinkAll(old(store.dir), backupDir, paths[..FirstBlocked(paths, store.undeletable)])
    ensures err.Pass? <==> FirstBlocked(paths, store.undeletable) == |paths|
    ensures err.Fail? ==> err == Fail(RemoveFailed(paths[FirstBlocked(paths, store.undeletable)]))
    ensures store.saved == old(store.saved) && store.writes == old(store.writes)
    ensures store.backupLog == old(store.backupLog)
  {
    for i := 0 to |paths|
      invariant store.dir == UnlinkAll(old(store.dir), backupDir, paths[..i])
      invariant i <= FirstBlocked(paths, store.undeletable)
    {
      if paths[i] in store.undeletable {
        return Fail(RemoveFailed(paths[i]));
      }
      UnlinkAllStep(old(store.dir), backupDir, paths, i);
      store.dir := Unlink(store.dir, backupDir, paths[i]);
    }
    assert paths[..|paths|] == paths;
    err := Pass;
  }

  lemma UnlinkAllStep(entries: seq<DirEntry>, backupDir: string, paths: seq<string>, i: nat)
    requires i < |paths|
    ensures UnlinkAll(entries, backupDir, paths[..i + 1]) == Unlink(UnlinkAll(entries, backupDir, paths[..i]), backupDir, paths[i])
  {
    assert paths[..i + 1][..i] == paths[..i];
  }

  /** `cleanupOldBackups`: delete all but the five newest backups of the store's kubeconfig. */
  method CleanupOldBackups(store: Store) returns (err: Outcome)
    modifies store
    ensures store.dir == AfterRetention(old(store.dir), store.path, store.undeletable)
    ensures err.Pass? <==> RetentionSucceeds(old(store.dir), store.path, store.undeletable)
    ensures store.saved == old(store.saved) && store.writes == old(store.writes)
    ensures store.backupLog == old(store.backupLog)
  {
    var backupDir := Dir(store.path);
    var backups := SelectBackups(store.dir, backupDir, store.path);
    var sorted := SortStrings(backups);
    if |sorted| > MaxBackups {
      assert sorted[..|sorted| - MaxBackups] == Expired(backups);
      err := RemoveOldBackups(store, backupDir, sorted[..|sorted| - MaxBackups]);
    } else {
      assert Expired(backups) == [];
      assert UnlinkAll(store.dir, backupDir, []) == store.dir;
      err := Pass;
    }
  }

  /** The listing after a file `name` was written (an existing file of that name is replaced). */
  function AddFile(entries: seq<DirEntry>, name: string): (r: seq<DirEntry>)
    ensures DirEntry(name, false) in r
    ensures forall e :: e in entries ==> e in r
    ensures forall e :: e in r ==> e in entries || e == DirEntry(name, false)
  {
    if DirEntry(name, false) in entries then entries else entries + [DirEntry(name, false)]
  }

  /** The name of the backup file within the directory. */
  function BackupFileName(kubeconfigPath: string, timestamp: string): string
  {
    Base(BackupPath(kubeconfigPath, timestamp))
  }

  /** Whether writing the backup file succeeds: a path is known, the disk accepts it, no directory is in the way. */
  predicate CanWriteBackup(kubeconfigPath: string, backupWritable: bool, entries: seq<DirEntry>, timestamp: string)
  {
    kubeconfigPath != "" && backupWritable && DirEntry(BackupFileName(kubeconfigPath, timestamp), true) !in entries
  }

  /** The listing after a successful backup: the new file added, then retention. */
  function DirAfterBackup(entries: seq<DirEntry>, kubeconfigPath: string, timestamp: string, undeletable: set<string>): seq<DirEntry>
  {
    AfterRetention(AddFile(entries, BackupFileName(kubeconfigPath, timestamp)), kubeconfigPath, undeletable)
  }

  /**
    `BackupKubeConfig`: write `config` to a backup file named after `timestamp`, then
    apply retention, whose failure is only a warning. Any failure before the backup is
    written leaves the store untouched.
   */
  method BackupKubeConfig(store: Store, config: Config?, timestamp: string) returns (backupPath: string, err: Outcome)
    modifies store
    ensures config == null ==> err == Fail(NilConfig)
    ensures config != null && store.path == "" ==> err == Fail(EmptyPath)
    ensures config != null && store.path != "" && err.Fail? ==> err == Fail(BackupFailed)
    ensures err.Pass? <==> config != null && CanWriteBackup(store.path, store.backupWritable, old(store.dir), timestamp)
    ensures err.Fail? ==> backupPath == "" && store.dir == old(store.dir) && store.backupLog == old(store.backupLog)
    ensures err.Pass? ==> backupPath == BackupPath(store.path, timestamp)
    ensures err.Pass? ==> store.backupLog == old(store.backupLog) + [BackupFile(backupPath, config.Doc())]
    ensures err.Pass? ==> store.dir == DirAfterBackup(old(store.dir), store.path, timestamp, store.undeletable)
    ensures store.saved == old(store.saved) && store.writes == old(store.writes)
  {
    if config == null {
      return "", Fail(NilConfig);
    }
    if store.path == "" {
      return "", Fail(EmptyPath);
    }
    var name := BackupFileName(store.path, timestamp);
    if !store.backupWritable || DirEntry(name, true) in store.dir {
      return "", Fail(BackupFailed);
    }
    backupPath := BackupPath(store.path, timestamp);
    store.backupLog := store.backupLog + [BackupFile(backupPath, config.Doc())];
    store.dir := AddFile(store.dir, name);
    var _ := CleanupOldBackups(store);
    err := Pass;
  }
}
