/**
  The delete command (`cmd/cmd_delete.go`): remove the contexts a name or a wildcard
  pattern selects, reset the current context when it was among them, reconcile
  orphans, back up first and save last.
 */
module DeleteCmd {
  import opened Wrappers
  import opened Errors
  import opened Api
  import opened Integrity
  import opened Persistence
  import opened Strings
  import opened Backup
  import opened Core

  /** A pattern with a `*` anywhere is a wildcard. */
  predicate IsWildcard(pattern: string)
  {
    '*' in pattern
  }

  /** The prefix a wildcard stands for: the pattern with every `*` deleted. */
  function WildcardPrefix(pattern: string): string
  {
    RemoveChar(pattern, '*')
  }

  /** The contexts whose name starts with `prefix`. */
  function PrefixMatches(contexts: map<string, Context>, prefix: string): set<string>
  {
    set n | n in contexts && prefix <= n
  }

  /**
    The contexts `pattern` selects, or why it selects none: a wildcard selects every
    context whose name starts with its prefix, any other pattern the one context of
    that name.
   */
  function Selection(contexts: map<string, Context>, pattern: string): (r: Result<set<string>>)
    ensures r.Ok? ==> r.value != {} && r.value <= contexts.Keys && "" !in r.value
    ensures pattern == "" ==> r == Err(EmptyPattern)
    ensures pattern != "" && !IsWildcard(pattern) ==>
      r == if pattern in contexts then Ok({pattern}) else Err(NoSuchContext(pattern))
    ensures IsWildcard(pattern) && WildcardPrefix(pattern) == "" ==> r == Err(EmptyWildcardPrefix)
    ensures IsWildcard(pattern) && WildcardPrefix(pattern) != "" ==>
      r == if PrefixMatches(contexts, WildcardPrefix(pattern)) == {} then Err(NoMatch(pattern))
           else Ok(PrefixMatches(contexts, WildcardPrefix(pattern)))
  {
    if pattern == "" then Err(EmptyPattern)
    else if IsWildcard(pattern) then
      var prefix := WildcardPrefix(pattern);
      if prefix == "" then Err(EmptyWildcardPrefix)
      else
        var m := PrefixMatches(contexts, prefix);
        if m == {} then Err(NoMatch(pattern)) else Ok(m)
    else if pattern in contexts then Ok({pattern})
    else Err(NoSuchContext(pattern))
  }

  /** A pattern ending in its only `*` selects the contexts that start with the rest of it. */
  lemma TrailingStarSelectsPrefix(contexts: map<string, Context>, prefix: string)
    requires prefix != "" && '*' !in prefix
    ensures Selection(contexts, prefix + "*") ==
      if PrefixMatches(contexts, prefix) == {} then Err(NoMatch(prefix + "*")) else Ok(PrefixMatches(contexts, prefix))
  {
    assert (prefix + "*")[|prefix|] == '*';
    RemoveTrailingChar(prefix, '*');
  }

  /** The document once the selected contexts are gone and the current one is reset, before orphan removal. */
  function Detached(d: Document, selected: set<string>): Document
  {
    d.(contexts := d.contexts - selected,
       currentContext := if d.currentContext in selected then "" else d.currentContext)
  }

  /**
    The document after the selected contexts were deleted: the contexts gone, the current
    context cleared if it was one of them, then orphans reconciled.
   */
  function AfterDelete(d: Document, selected: set<string>): Document
  {
    RemoveOrphans(Detached(d, selected))
  }

  /**
    Deleting removes exactly the selected contexts and keeps the others with their
    values; the current context is cleared exactly when it was selected; no orphan is
    left; resolvable references and a valid current context stay so.
   */
  lemma AfterDeleteSpec(d: Document, selected: set<string>)
    ensures AfterDelete(d, selected).contexts.Keys == d.contexts.Keys - selected
    ensures forall n :: n in AfterDelete(d, selected).contexts ==> AfterDelete(d, selected).contexts[n] == d.contexts[n]
    ensures AfterDelete(d, selected).currentContext == if d.currentContext in selected then "" else d.currentContext
    ensures NoOrphans(AfterDelete(d, selected))
    ensures RefsResolve(d) ==> RefsResolve(AfterDelete(d, selected))
    ensures CurrentValid(d) ==> CurrentValid(AfterDelete(d, selected))
  {
    var e := d.(contexts := d.contexts - selected,
                currentContext := if d.currentContext in selected then "" else d.currentContext);
    RemoveOrphansSpec(e);
    RemoveOrphansKeepsIntegrity(e);
  }

  /**
    Deleting a context that was just created, on a document without orphans or dangling
    references and with no current context, gives back the document as it was.
   */
  lemma DeleteUndoesCreate(d: Document, name: string, server: string, token: string)
    requires NoOrphans(d) && RefsResolve(d) && d.currentContext == ""
    requires Common.CheckNameConflicts(Some(d), name).Pass?
    ensures AfterDelete(Created(d, name, server, token), {name}) == d
  {
    var c := Created(d, name, server, token);
    var e := c.(contexts := c.contexts - {name}, currentContext := "");
    assert e.contexts == d.contexts;
    FreshNameIsOrphan(d.clusters, d.contexts, name, Cluster(server, true), true);
    FreshNameIsOrphan(d.authInfos, d.contexts, name, AuthInfo(token, "", None), false);
    assert OrphanClusters(e) == {name};
    assert OrphanUsers(e) == {name};
    assert e.clusters - {name} == d.clusters;
    assert e.authInfos - {name} == d.authInfos;
  }

  /**
    Adding an entry under a name no context refers to, to a map whose every key is
    referred to and which holds every referred name, makes that name the only orphan.
   */
  lemma FreshNameIsOrphan<V>(m: map<string, V>, contexts: map<string, Context>, name: string, v: V, clusters: bool)
    requires name !in m
    requires var used := if clusters then UsedClusters(contexts) else UsedUsers(contexts);
      m.Keys - used == {} && used <= m.Keys
    ensures var used := if clusters then UsedClusters(contexts) else UsedUsers(contexts);
      m[name := v].Keys - used == {name}
  {
  }

  /** Deleting a context by name a second time finds nothing to delete. */
  lemma DeleteTwiceFails(d: Document, name: string)
    requires name != "" && !IsWildcard(name) && Selection(d.contexts, name).Ok?
    ensures Selection(AfterDelete(d, Selection(d.contexts, name).value).contexts, name) == Err(NoSuchContext(name))
  {
    AfterDeleteSpec(d, {name});
  }

  /** The matching loop of `DeleteContext`, over the contexts in map order. */
  method FindMatches(contexts: map<string, Context>, prefix: string) returns (matched: seq<string>)
    ensures multiset(matched) == multiset(PrefixMatches(contexts, prefix))
  {
    matched := [];
    var pending := contexts.Keys;
    while pending != {}
      invariant pending <= contexts.Keys
      invariant multiset(matched) == multiset(PrefixMatches(contexts, prefix) - pending)
      decreases pending
    {
      var n :| n in pending;
      if prefix <= n {
        MultisetOfSetAdd(PrefixMatches(contexts, prefix) - pending, n);
        assert PrefixMatches(contexts, prefix) - (pending - {n}) == (PrefixMatches(contexts, prefix) - pending) + {n};
        matched := matched + [n];
      } else {
        assert PrefixMatches(contexts, prefix) - (pending - {n}) == PrefixMatches(contexts, prefix) - pending;
      }
      pending := pending - {n};
    }
  }

  /**
    What `DeleteContext` decides on the stored document `d`: the contexts to delete, or
    the error, in the order the command meets them.
   */
  function DeleteOutcome(d: Document, io: Io, backupOk: bool, pattern: string): Result<set<string>>
  {
    if pattern == "" then Err(EmptyPattern)
    else if !io.canLoad then Err(LoadFailed)
    else match Selection(d.contexts, pattern)
      case Err(e) => Err(e)
      case Ok(m) => if !backupOk then Err(BackupFailed) else if !io.canWrite then Err(WriteFailed) else Ok(m)
  }

  /** What a successful delete reports. */
  datatype DeleteSummary = DeleteSummary(
    removedContexts: seq<string>,
    currentReset: bool,
    removedClusters: seq<string>,
    removedUsers: seq<string>,
    backupPath: string)

  /** The matching block of `DeleteContext`, reached once the pattern is known to be non-empty. */
  method MatchContexts(contexts: map<string, Context>, pattern: string) returns (r: Result<seq<string>>)
    requires pattern != ""
    ensures r.Err? <==> Selection(contexts, pattern).Err?
    ensures r.Err? ==> r.error == Selection(contexts, pattern).error
    ensures r.Ok? ==> multiset(r.value) == multiset(Selection(contexts, pattern).value)
  {
    if '*' in pattern {
      var prefix := RemoveChar(pattern, '*');
      if prefix == "" {
        return Err(EmptyWildcardPrefix);
      }
      var matched := FindMatches(contexts, prefix);
      if |matched| == 0 {
        assert PrefixMatches(contexts, prefix) == {};
        return Err(NoMatch(pattern));
      }
      assert matched[0] in multiset(matched);
      r := Ok(matched);
    } else {
      if pattern !in contexts {
        return Err(NoSuchContext(pattern));
      }
      r := Ok([pattern]);
    }
  }

  /** The loop that decides whether the current context is among the matched ones. */
  method CurrentAmong(current: string, matched: seq<string>) returns (found: bool)
    ensures found <==> current in matched
  {
    found := false;
    for i := 0 to |matched|
      invariant found <==> current in matched[..i]
    {
      assert matched[..i + 1] == matched[..i] + [matched[i]];
      if current == matched[i] {
        found := true;
      }
    }
    assert matched[..|matched|] == matched;
  }

  /** The deletion loop of `DeleteContext`: each matched context goes, and the current one is cleared. */
  method RemoveContexts(config: Config, matched: seq<string>)
    modifies config
    ensures config.contexts == old(config.contexts) - (set k | 0 <= k < |matched| :: matched[k])
    ensures config.currentContext == if old(config.currentContext) in matched then "" else old(config.currentContext)
    ensures config.clusters == old(config.clusters) && config.authInfos == old(config.authInfos)
  {
    for i := 0 to |matched|
      invariant config.contexts == old(config.contexts) - (set k | 0 <= k < i :: matched[k])
      invariant config.currentContext == if old(config.currentContext) in matched[..i] then "" else old(config.currentContext)
      invariant config.clusters == old(config.clusters) && config.authInfos == old(config.authInfos)
    {
      assert (set k | 0 <= k < i + 1 :: matched[k]) == (set k | 0 <= k < i :: matched[k]) + {matched[i]};
      assert matched[..i + 1] == matched[..i] + [matched[i]];
      config.contexts := config.contexts - {matched[i]};
      if config.currentContext == matched[i] {
        config.currentContext := "";
      }
    }
    assert matched[..|matched|] == matched;
  }

  /**
    `DeleteContext`. Every failure before the backup leaves the store untouched; once the
    backup is written, the document is saved with `clientcmd.WriteToFile`.
   */
  method DeleteContext(store: Store, pattern: string, timestamp: string) returns (r: Result<DeleteSummary>)
    modifies store
    ensures var o := DeleteOutcome(old(store.saved), store.Access(),
                                   CanWriteBackup(store.path, store.backupWritable, old(store.dir), timestamp), pattern);
      (r.Err? <==> o.Err?) && (r.Err? ==> r.error == o.error)
    ensures r.Err? && r.error != WriteFailed ==>
      store.saved == old(store.saved) && store.writes == old(store.writes)
      && store.backupLog == old(store.backupLog) && store.dir == old(store.dir)
    ensures r.Ok? || r == Err(WriteFailed) ==>
      store.backupLog == old(store.backupLog) + [BackupFile(BackupPath(store.path, timestamp), old(store.saved))]
      && store.dir == DirAfterBackup(old(store.dir), store.path, timestamp, store.undeletable)
    ensures r.Ok? ==>
      var m := Selection(old(store.saved).contexts, pattern).value;
      && multiset(r.value.removedContexts) == multiset(m)
      && r.value.currentReset == (old(store.saved).currentContext in m)
      && store.saved == AfterDelete(old(store.saved), m)
      && store.writes == old(store.writes) + 1
      && r.value.backupPath == BackupPath(store.path, timestamp)
      && multiset(r.value.removedClusters) == multiset(OrphanClusters(Detached(old(store.saved), m)))
      && multiset(r.value.removedUsers) == multiset(OrphanUsers(Detached(old(store.saved), m)))
  {
    if pattern == "" {
      return Err(EmptyPattern);
    }
    var config, loadErr := store.GetKubeConfig();
    if loadErr.Fail? {
      return Err(LoadFailed);
    }
    ghost var before := config.Doc();
    var matching := MatchContexts(config.contexts, pattern);
    if matching.Err? {
      return Err(matching.error);
    }
    var matched := matching.value;
    ghost var selected := Selection(before.contexts, pattern).value;
    SameElements(matched, selected);

    var currentModified := CurrentAmong(config.currentContext, matched);

    var backupPath := "";
    if |matched| > 0 || currentModified {
      var backupErr;
      backupPath, backupErr := BackupKubeConfig(store, config, timestamp);
      if backupErr.Fail? {
        return Err(backupErr.error);
      }
    }

    RemoveContexts(config, matched);
    assert config.Doc() == Detached(before, selected);

    // CleanContext never fails.
    var removedClusters, removedUsers, _ := CleanContext(config);

    if |matched| > 0 || |removedClusters| > 0 || |removedUsers| > 0 || currentModified {
      var writeErr := store.WriteToFile(config);
      if writeErr.Fail? {
        return Err(WriteFailed);
      }
    }
    r := Ok(DeleteSummary(matched, currentModified, removedClusters, removedUsers, backupPath));
  }
}
