/**
  The add command (`cmd/cmd_add.go`): after the argument guards and a reachability
  probe, the requested context and, when a platform type is given, its discovered
  sub-clusters are created one by one; a failed creation is counted, not fatal.
 */
module AddCmd {
  import opened Wrappers
  import opened Errors
  import opened Api
  import opened Common
  import opened Persistence
  import opened Core
  import opened ScanCmd

  /** The two counts of the summary. */
  datatype AddSummary = AddSummary(added: nat, failed: nat)

  /**
    The contexts the command proposes, or the error that aborts it before anything
    is created: the requested context first, then the scanned ones.
   */
  function AddBatch(name: string, server: string, token: string, scan: Option<string>, remote: Remote): (r: Result<seq<ContextConfig>>)
    ensures r.Ok? <==>
      && name != "" && server != "" && token != "" && remote.reachable(server, token)
      && (scan.Some? ==> ScanOutcome(name, server, token, scan.value, remote).Ok?)
    ensures name == "" ==> r == Err(EmptyName)
    ensures name != "" && server == "" ==> r == Err(EmptyServer)
    ensures name != "" && server != "" && token == "" ==> r == Err(EmptyToken)
    ensures name != "" && server != "" && token != "" && !remote.reachable(server, token) ==> r == Err(Unreachable(server))
    ensures r.Ok? ==> |r.value| >= 1 && r.value[0] == ContextConfig(name, server, token)
    ensures r.Ok? && scan.None? ==> r.value == [ContextConfig(name, server, token)]
    ensures r.Ok? ==> forall k :: 1 <= k < |r.value| ==> r.value[k].token == token
  {
    if name == "" then Err(EmptyName)
    else if server == "" then Err(EmptyServer)
    else if token == "" then Err(EmptyToken)
    else if ValidateClusterAccess(server, token, remote.reachable).Fail? then Err(ValidateClusterAccess(server, token, remote.reachable).error)
    else
      var primary := [ContextConfig(name, server, token)];
      match scan
      case None => Ok(primary)
      case Some(clusterType) =>
        var scanned := ScanOutcome(name, server, token, clusterType, remote);
        if scanned.Err? then Err(scanned.error)
        else
          ScannedTokens(name, server, token, clusterType, remote);
          Ok(primary + scanned.value)
  }

  /** Every context a successful scan proposes carries the parent's token. */
  lemma ScannedTokens(name: string, server: string, token: string, clusterType: string, remote: Remote)
    requires ScanOutcome(name, server, token, clusterType, remote).Ok?
    ensures forall c :: c in ScanOutcome(name, server, token, clusterType, remote).value ==> c.token == token
  {
    if name != "" && server != "" && token != "" && clusterType == AlaudaType {
      var discovery := remote.discover(server, token);
      if discovery.Discovered? && ClusterResource in discovery.resources {
        SubContextsSound(name, server, token, discovery.listing.items);
      }
    }
  }

  /**
    `AddContext`: an aborted command changes nothing; otherwise the store holds the
    batch created in order, one write per created context, and the summary counts
    the created and the failed ones.
   */
  method AddContext(store: Store, name: string, server: string, token: string, scan: Option<string>, remote: Remote)
    returns (r: Result<AddSummary>)
    modifies store
    ensures var batch := AddBatch(name, server, token, scan, remote);
      batch.Err? ==> r == Err(batch.error) && store.saved == old(store.saved) && store.writes == old(store.writes)
    ensures var batch := AddBatch(name, server, token, scan, remote);
      batch.Ok? ==>
        var created := CreateAll(old(store.saved), store.Access(), batch.value);
        && created.added <= |batch.value|
        && r == Ok(AddSummary(created.added, |batch.value| - created.added))
        && store.saved == created.doc
        && store.writes == old(store.writes) + created.added
    ensures r.Ok? ==> r.value.added + r.value.failed == |AddBatch(name, server, token, scan, remote).value|
    ensures store.backupLog == old(store.backupLog) && store.dir == old(store.dir)
  {
    var proposed := ProposeContexts(name, server, token, scan, remote);
    if proposed.Err? {
      return Err(proposed.error);
    }
    var contexts := proposed.value;
    ghost var d := old(store.saved);
    assert [] + contexts == contexts;
    var successCount := CreateContexts(store, contexts, d, []);
    CreateAllPreserves(d, store.Access(), contexts);
    r := Ok(AddSummary(successCount, |contexts| - successCount));
  }

  /** The guards, the reachability probe and the optional scan of `AddContext`. */
  method ProposeContexts(name: string, server: string, token: string, scan: Option<string>, remote: Remote)
    returns (r: Result<seq<ContextConfig>>)
    ensures r == AddBatch(name, server, token, scan, remote)
  {
    if name == "" {
      return Err(EmptyName);
    }
    if server == "" {
      return Err(EmptyServer);
    }
    if token == "" {
      return Err(EmptyToken);
    }
    var access := ValidateClusterAccess(server, token, remote.reachable);
    if access.Fail? {
      return Err(access.error);
    }
    var contexts := [ContextConfig(name, server, token)];
    if scan.Some? {
      var scanned := Scan(name, server, token, scan.value, remote);
      if scanned.Err? {
        return Err(scanned.error);
      }
      contexts := contexts + scanned.value;
    }
    r := Ok(contexts);
  }

  /** On a writable, loadable store the requested context is created when its name is free. */
  lemma AddCreatesRequested(d: Document, io: Io, name: string, server: string, token: string, rest: seq<ContextConfig>)
    requires io.canLoad && io.canWrite
    requires name != "" && server != "" && token != ""
    requires CheckNameConflicts(Some(d), name).Pass?
    ensures var created := CreateAll(d, io, [ContextConfig(name, server, token)] + rest).doc;
      name in created.contexts && created.contexts[name] == Context(name, name)
      && name in created.clusters && created.clusters[name] == Cluster(server, true)
      && name in created.authInfos && created.authInfos[name] == AuthInfo(token, "", None)
  {
    var first := [ContextConfig(name, server, token)];
    assert first[..0] == [];
    assert CreateAll(d, io, first).doc == Created(d, name, server, token);
    CreateAllAppend(d, io, first, rest);
    CreateAllPreserves(Created(d, name, server, token), io, rest);
  }
}
