/**
  The clean command (`cmd/cmd_clean.go`): remove every context whose cluster or user is
  missing or whose cluster does not answer with the stored token, clear a current
  context that is dangling or removed, reconcile orphans, and save when anything
  changed. A backup is taken only when contexts are removed or the current context is
  cleared.
 */
module CleanCmd {
  import opened Errors
  import opened Api
  import opened Integrity
  import opened Common
  import opened Persistence
  import opened Strings
  import opened Backup
  import opened Core

  /**
    A context survives clean: its cluster and user exist and the cluster answers with
    the user's token (empty servers and tokens are rejected without asking).
   */
  predicate ContextValid(d: Document, n: string, reachable: (string, string) -> bool)
    requires n in d.contexts
  {
    var c := d.contexts[n];
    c.cluster in d.clusters && c.authInfo in d.authInfos
    && ValidateClusterAccess(d.clusters[c.cluster].server, d.authInfos[c.authInfo].token, reachable).Pass?
  }

  /** The contexts clean removes. */
  function InvalidContexts(d: Document, reachable: (string, string) -> bool): set<string>
  {
    set n | n in d.contexts && !ContextValid(d, n, reachable)
  }

  /** Clean clears the current context: it is set but names no context, or an invalid one. */
  predicate ResetNeeded(d: Document, reachable: (string, string) -> bool)
  {
    d.currentContext != "" && (d.currentContext !in d.contexts || d.currentContext in InvalidContexts(d, reachable))
  }

  /** The document after the invalid contexts were removed and the current context handled. */
  function Pruned(d: Document, reachable: (string, string) -> bool): Document
  {
    d.(contexts := d.contexts - InvalidContexts(d, reachable),
       currentContext := if ResetNeeded(d, reachable) then "" else d.currentContext)
  }

  /** The document clean leaves. */
  function Cleaned(d: Document, reachable: (string, string) -> bool): Document
  {
    RemoveOrphans(Pruned(d, reachable))
  }

  /** Clean writes a backup first. */
  predicate NeedsBackup(d: Document, reachable: (string, string) -> bool)
  {
    InvalidContexts(d, reachable) != {} || ResetNeeded(d, reachable)
  }

  /** Clean writes the kubeconfig. */
  predicate CleanWrites(d: Document, reachable: (string, string) -> bool)
  {
    NeedsBackup(d, reachable) || OrphanClusters(Pruned(d, reachable)) != {} || OrphanUsers(Pruned(d, reachable)) != {}
  }

  /**
    What clean leaves is a healthy document: exactly the valid contexts, with their
    values, every reference resolving, no orphan, and a current context that is unset
    or names a remaining context.
   */
  lemma CleanedSpec(d: Document, reachable: (string, string) -> bool)
    ensures Cleaned(d, reachable).contexts.Keys == d.contexts.Keys - InvalidContexts(d, reachable)
    ensures forall n :: n in Cleaned(d, reachable).contexts ==>
      Cleaned(d, reachable).contexts[n] == d.contexts[n] && ContextValid(d, n, reachable)
    ensures RefsResolve(Cleaned(d, reachable))
    ensures NoOrphans(Cleaned(d, reachable))
    ensures CurrentValid(Cleaned(d, reachable))
  {
    var p := Pruned(d, reachable);
    PrunedSpec(d, reachable);
    RemoveOrphansSpec(p);
    RemoveOrphansKeepsIntegrity(p);
  }

  /** Removing the invalid contexts keeps exactly the valid ones, and their references resolve. */
  lemma PrunedSpec(d: Document, reachable: (string, string) -> bool)
    ensures Pruned(d, reachable).contexts.Keys == d.contexts.Keys - InvalidContexts(d, reachable)
    ensures forall n :: n in Pruned(d, reachable).contexts ==>
      Pruned(d, reachable).contexts[n] == d.contexts[n] && ContextValid(d, n, reachable)
    ensures RefsResolve(Pruned(d, reachable))
    ensures CurrentValid(Pruned(d, reachable))
  {
  }

  /** Every context left by clean is valid with the same oracle. */
  lemma CleanedContextsValid(d: Document, reachable: (string, string) -> bool)
    ensures InvalidContexts(Cleaned(d, reachable), reachable) == {}
    ensures !ResetNeeded(Cleaned(d, reachable), reachable)
  {
    var c := Cleaned(d, reachable);
    PrunedSpec(d, reachable);
    RemoveOrphansSpec(Pruned(d, reachable));
    forall n | n in c.contexts ensures ContextValid(c, n, reachable) {
      var x := c.contexts[n];
      assert x == d.contexts[n];
      assert x.cluster in c.clusters && c.clusters[x.cluster] == d.clusters[x.cluster];
      assert x.authInfo in c.authInfos && c.authInfos[x.authInfo] == d.authInfos[x.authInfo];
    }
  }

  /** Clean writes the kubeconfig exactly when it has something to change. */
  lemma CleanWritesIffChanged(d: Document, reachable: (string, string) -> bool)
    ensures CleanWrites(d, reachable) <==> Cleaned(d, reachable) != d
  {
    if InvalidContexts(d, reachable) != {} {
      var n :| n in InvalidContexts(d, reachable);
      assert n !in Cleaned(d, reachable).contexts;
    } else if ResetNeeded(d, reachable) {
      assert Cleaned(d, reachable).currentContext != d.currentContext;
    } else {
      assert d.contexts - {} == d.contexts;
      assert Pruned(d, reachable) == d;
      RemoveOrphansUnchangedIff(d);
    }
  }

  /** Running clean again, against the same clusters, changes nothing and writes nothing. */
  lemma CleanIdempotent(d: Document, reachable: (string, string) -> bool)
    ensures !CleanWrites(Cleaned(d, reachable), reachable)
    ensures Cleaned(Cleaned(d, reachable), reachable) == Cleaned(d, reachable)
  {
    var c := Cleaned(d, reachable);
    CleanedContextsValid(d, reachable);
    RemoveOrphansIdempotent(Pruned(d, reachable));
    assert c.contexts - {} == c.contexts;
    assert Pruned(c, reachable) == c;
  }

  /** What `CleanContextCmd` returns on the stored document `d`. */
  function CleanOutcome(d: Document, io: Io, backupOk: bool, reachable: (string, string) -> bool): Outcome
  {
    if !io.canLoad then Fail(LoadFailed)
    else if NeedsBackup(d, reachable) && !backupOk then Fail(BackupFailed)
    else if CleanWrites(d, reachable) && !io.canWrite then Fail(WriteFailed)
    else Pass
  }

  /** Visiting context `n` adds it to the invalid ones seen exactly when it is invalid. */
  lemma InvalidStep(d: Document, reachable: (string, string) -> bool, pending: set<string>, n: string)
    requires n in pending && n in d.contexts
    ensures !ContextValid(d, n, reachable) ==>
      n !in InvalidContexts(d, reachable) - pending
      && InvalidContexts(d, reachable) - (pending - {n}) == (InvalidContexts(d, reachable) - pending) + {n}
    ensures ContextValid(d, n, reachable) ==>
      InvalidContexts(d, reachable) - (pending - {n}) == InvalidContexts(d, reachable) - pending
  {
  }

  /** Phase 1 of `CleanContextCmd`: the invalid contexts, over the contexts in map order. */
  method FindInvalidContexts(d: Document, reachable: (string, string) -> bool) returns (invalid: seq<string>)
    ensures multiset(invalid) == multiset(InvalidContexts(d, reachable))
  {
    invalid := [];
    var pending := d.contexts.Keys;
    while pending != {}
      invariant pending <= d.contexts.Keys
      invariant multiset(invalid) == multiset(InvalidContexts(d, reachable) - pending)
      decreases pending
    {
      var n :| n in pending;
      var ctx := d.contexts[n];
      var drop: bool;
      if ctx.cluster !in d.clusters {
        drop := true;
      } else if ctx.authInfo !in d.authInfos {
        drop := true;
      } else {
        drop := ValidateClusterAccess(d.clusters[ctx.cluster].server, d.authInfos[ctx.authInfo].token, reachable).Fail?;
      }
      assert drop == !ContextValid(d, n, reachable);
      InvalidStep(d, reachable, pending, n);
      if drop {
        MultisetOfSetAdd(InvalidContexts(d, reachable) - pending, n);
        invalid := invalid + [n];
      }
      pending := pending - {n};
    }
  }

  /** Phase 4 of `CleanContextCmd`: delete each listed context. */
  method DropContexts(config: Config, names: seq<string>)
    modifies config
    ensures config.contexts == old(config.contexts) - (set k | 0 <= k < |names| :: names[k])
    ensures config.clusters == old(config.clusters) && config.authInfos == old(config.authInfos)
    ensures config.currentContext == old(config.currentContext)
  {
    for i := 0 to |names|
      invariant config.contexts == old(config.contexts) - (set k | 0 <= k < i :: names[k])
      invariant config.clusters == old(config.clusters) && config.authInfos == old(config.authInfos)
      invariant config.currentContext == old(config.currentContext)
    {
      assert (set k | 0 <= k < i + 1 :: names[k]) == (set k | 0 <= k < i :: names[k]) + {names[i]};
      config.contexts := config.contexts - {names[i]};
    }
  }

  /** Phase 2 of `CleanContextCmd`: the current context is set and either dangling or to be removed. */
  method CurrentNeedsReset(d: Document, contextsToRemove: seq<string>) returns (currentModified: bool)
    ensures currentModified <==> d.currentContext != "" && (d.currentContext !in d.contexts || d.currentContext in contextsToRemove)
  {
    currentModified := false;
    if d.currentContext != "" {
      var listed := Contains(contextsToRemove, d.currentContext);
      if d.currentContext !in d.contexts || listed {
        currentModified := true;
      }
    }
  }

  /**
    The command's own tests, on the lists it built, decide what the specification says:
    a backup is needed and the pruned document is what the removal loop leaves.
   */
  lemma CleanDecisions(d: Document, reachable: (string, string) -> bool, contextsToRemove: seq<string>, currentModified: bool)
    requires multiset(contextsToRemove) == multiset(InvalidContexts(d, reachable))
    requires currentModified <==> d.currentContext != "" && (d.currentContext !in d.contexts || d.currentContext in contextsToRemove)
    ensures currentModified == ResetNeeded(d, reachable)
    ensures (|contextsToRemove| > 0 || currentModified) == NeedsBackup(d, reachable)
    ensures Pruned(d, reachable) ==
      d.(contexts := d.contexts - (set k | 0 <= k < |contextsToRemove| :: contextsToRemove[k]),
         currentContext := if currentModified then "" else d.currentContext)
  {
    SameElements(contextsToRemove, InvalidContexts(d, reachable));
  }

  /** The write test on the removed orphans is the specification's, and no write means no change. */
  lemma CleanWriteDecision(d: Document, reachable: (string, string) -> bool, removedClusters: seq<string>, removedUsers: seq<string>)
    requires multiset(removedClusters) == multiset(OrphanClusters(Pruned(d, reachable)))
    requires multiset(removedUsers) == multiset(OrphanUsers(Pruned(d, reachable)))
    ensures (NeedsBackup(d, reachable) || |removedClusters| > 0 || |removedUsers| > 0) == CleanWrites(d, reachable)
    ensures !CleanWrites(d, reachable) ==> Cleaned(d, reachable) == d
  {
    SameElements(removedClusters, OrphanClusters(Pruned(d, reachable)));
    SameElements(removedUsers, OrphanUsers(Pruned(d, reachable)));
    CleanWritesIffChanged(d, reachable);
  }

  /**
    Phases 4 to 6 of `CleanContextCmd`: remove the invalid contexts, clear the current
    context if needed, reconcile orphans, and write the kubeconfig if anything changed.
   */
  method PruneAndSave(store: Store, config: Config, ghost d: Document, reachable: (string, string) -> bool,
                      contextsToRemove: seq<string>, currentModified: bool)
    returns (removedClusters: seq<string>, removedUsers: seq<string>, err: Outcome)
    requires config.Doc() == d && store.saved == d
    requires multiset(contextsToRemove) == multiset(InvalidContexts(d, reachable))
    requires currentModified == ResetNeeded(d, reachable)
    modifies store, config
    ensures err == if CleanWrites(d, reachable) && !store.writable then Fail(WriteFailed) else Pass
    ensures err.Pass? ==> store.saved == Cleaned(d, reachable)
    ensures store.writes == old(store.writes) + (if err.Pass? && CleanWrites(d, reachable) then 1 else 0)
    ensures !CleanWrites(d, reachable) ==> store.saved == old(store.saved)
    ensures store.backupLog == old(store.backupLog) && store.dir == old(store.dir)
    ensures multiset(removedClusters) == multiset(OrphanClusters(Pruned(d, reachable)))
    ensures multiset(removedUsers) == multiset(OrphanUsers(Pruned(d, reachable)))
  {
    SameElements(contextsToRemove, InvalidContexts(d, reachable));
    DropContexts(config, contextsToRemove);
    if currentModified {
      config.currentContext := "";
    }
    assert config.Doc() == Pruned(d, reachable);

    // CleanContext never fails.
    var cleanErr;
    removedClusters, removedUsers, cleanErr := CleanContext(config);
    CleanWriteDecision(d, reachable, removedClusters, removedUsers);

    err := Pass;
    if |contextsToRemove| > 0 || |removedClusters| > 0 || |removedUsers| > 0 || currentModified {
      err := store.WriteToFile(config);
    }
  }

  /** What a successful clean reports. */
  datatype CleanSummary = CleanSummary(
    removedContexts: seq<string>,
    currentReset: bool,
    removedClusters: seq<string>,
    removedUsers: seq<string>,
    backupPath: string)

  /**
    `CleanContextCmd`. Failures before the backup leave the store untouched; the backup is
    written only when contexts are removed or the current context is cleared; the
    kubeconfig is written with `clientcmd.WriteToFile` only when something changed.
   */
  method CleanContextCmd(store: Store, timestamp: string, remote: Remote) returns (r: Result<CleanSummary>)
    modifies store
    ensures var o := CleanOutcome(old(store.saved), store.Access(),
                                  CanWriteBackup(store.path, store.backupWritable, old(store.dir), timestamp), remote.reachable);
      (r.Err? <==> o.Fail?) && (r.Err? ==> r.error == o.error)
    ensures r.Err? && r.error != WriteFailed ==>
      store.saved == old(store.saved) && store.writes == old(store.writes)
      && store.backupLog == old(store.backupLog) && store.dir == old(store.dir)
    ensures (r.Ok? || r == Err(WriteFailed)) && NeedsBackup(old(store.saved), remote.reachable) ==>
      store.backupLog == old(store.backupLog) + [BackupFile(BackupPath(store.path, timestamp), old(store.saved))]
      && store.dir == DirAfterBackup(old(store.dir), store.path, timestamp, store.undeletable)
    ensures !NeedsBackup(old(store.saved), remote.reachable) ==>
      store.backupLog == old(store.backupLog) && store.dir == old(store.dir)
    ensures r.Ok? ==>
      && store.saved == Cleaned(old(store.saved), remote.reachable)
      && store.writes == old(store.writes) + (if CleanWrites(old(store.saved), remote.reachable) then 1 else 0)
      && multiset(r.value.removedContexts) == multiset(InvalidContexts(old(store.saved), remote.reachable))
      && r.value.currentReset == ResetNeeded(old(store.saved), remote.reachable)
      && multiset(r.value.removedClusters) == multiset(OrphanClusters(Pruned(old(store.saved), remote.reachable)))
      && multiset(r.value.removedUsers) == multiset(OrphanUsers(Pruned(old(store.saved), remote.reachable)))
      && r.value.backupPath == (if NeedsBackup(old(store.saved), remote.reachable) then BackupPath(store.path, timestamp) else "")
  {
    var config, loadErr := store.GetKubeConfig();
    if loadErr.Fail? {
      return Err(LoadFailed);
    }
    ghost var before := config.Doc();
    var contextsToRemove := FindInvalidContexts(config.Doc(), remote.reachable);
    var currentModified := CurrentNeedsReset(config.Doc(), contextsToRemove);
    CleanDecisions(before, remote.reachable, contextsToRemove, currentModified);

    var backupPath := "";
    if |contextsToRemove| > 0 || currentModified {
      var backupErr;
      backupPath, backupErr := BackupKubeConfig(store, config, timestamp);
      if backupErr.Fail? {
        return Err(backupErr.error);
      }
    }

    var removedClusters, removedUsers, writeErr := PruneAndSave(store, config, before, remote.reachable, contextsToRemove, currentModified);
    if writeErr.Fail? {
      return Err(WriteFailed);
    }
    r := Ok(CleanSummary(contextsToRemove, currentModified, removedClusters, removedUsers, backupPath));
  }
}
