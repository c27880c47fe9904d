/**
  The merge command (`cmd/cmd_merge.go`): the token-based contexts of an external
  kubeconfig are imported under a prefixed name, after a whole-batch check that no
  imported name is already a context, each optionally followed by its discovered
  sub-clusters, and created one by one as the add command does.

  The external file is the value it parses to (`None` when it cannot be loaded), and
  Go's map iteration order over its contexts is the ghost `order`.
 */
module MergeCmd {
  import opened Wrappers
  import opened Errors
  import opened Api
  import opened Strings
  import opened Paths
  import opened Common
  import opened Persistence
  import opened Core
  import opened ScanCmd

  /** The counts the summary prints. */
  datatype MergeSummary = MergeSummary(added: nat, skippedCertificates: nat, failed: nat)

  /** Context `n` of `ext` names a cluster and a user that `ext` holds. */
  predicate Resolvable(ext: Document, n: string)
  {
    n in ext.contexts && ext.contexts[n].cluster in ext.clusters && ext.contexts[n].authInfo in ext.authInfos
  }

  /** A user that authenticates with a client certificate (a file or inline data). */
  predicate CertificateBased(a: AuthInfo)
  {
    a.clientCertificateData.Some? || a.clientCertificate != ""
  }

  /** A resolvable context whose user is certificate-based: skipped and counted. */
  predicate CertificateSkipped(ext: Document, n: string)
  {
    Resolvable(ext, n) && CertificateBased(ext.authInfos[ext.contexts[n].authInfo])
  }

  /** A resolvable token-based context: imported. */
  predicate Importable(ext: Document, n: string)
  {
    Resolvable(ext, n) && !CertificateBased(ext.authInfos[ext.contexts[n].authInfo])
  }

  /** The imported name: the prefix, or else the file name without extension, then "-" and the original name. */
  function ImportName(filePath: string, namePrefix: string, n: string): string
  {
    (if namePrefix != "" then namePrefix else Stem(filePath)) + "-" + n
  }

  /** The proposed context for an importable context: its cluster's server, its user's token. */
  function ImportOf(ext: Document, filePath: string, namePrefix: string, n: string): ContextConfig
    requires Importable(ext, n)
  {
    var ctx := ext.contexts[n];
    ContextConfig(ImportName(filePath, namePrefix, n), ext.clusters[ctx.cluster].server, ext.authInfos[ctx.authInfo].token)
  }

  /** The contexts proposed for import, visiting the names in `order`. */
  function Imports(ext: Document, filePath: string, namePrefix: string, order: seq<string>): seq<ContextConfig>
    decreases |order|
  {
    if order == [] then []
    else
      var rest := Imports(ext, filePath, namePrefix, order[..|order| - 1]);
      var n := order[|order| - 1];
      if Importable(ext, n) then rest + [ImportOf(ext, filePath, namePrefix, n)] else rest
  }

  /** The certificate-based contexts skipped, visiting the names in `order`. */
  function CertificateNames(ext: Document, order: seq<string>): seq<string>
    decreases |order|
  {
    if order == [] then []
    else
      var rest := CertificateNames(ext, order[..|order| - 1]);
      var n := order[|order| - 1];
      if CertificateSkipped(ext, n) then rest + [n] else rest
  }

  /** The certificate-based contexts of `ext`. */
  function CertificateSet(ext: Document): set<string>
  {
    set n | n in ext.contexts && CertificateSkipped(ext, n)
  }

  /** What a merge of `ext` proposes, as a set: each importable context under its generated name. */
  function ImportSet(ext: Document, filePath: string, namePrefix: string): set<ContextConfig>
  {
    set n | n in ext.contexts && Importable(ext, n) :: ImportOf(ext, filePath, namePrefix, n)
  }

  /** Each name once. */
  predicate Distinct(s: seq<string>)
  {
    forall i, j :: 0 <= i < j < |s| ==> s[i] != s[j]
  }

  /** The first proposed name that already is a context of the current document. */
  function FirstConflict(existing: map<string, Context>, configs: seq<ContextConfig>): (r: Option<string>)
    ensures r.None? <==> forall k :: 0 <= k < |configs| ==> configs[k].name !in existing
    ensures r.Some? ==>
      && r.value in existing
      && exists k :: 0 <= k < |configs| && configs[k].name == r.value &&
           forall j :: 0 <= j < k ==> configs[j].name !in existing
    decreases |configs|
  {
    if configs == [] then None
    else if configs[0].name in existing then Some(configs[0].name)
    else
      var r := FirstConflict(existing, configs[1..]);
      if r.Some? then
        var k :| 0 <= k < |configs[1..]| && configs[1..][k].name == r.value &&
          forall j :: 0 <= j < k ==> configs[1..][j].name !in existing;
        assert configs[k + 1].name == r.value;
        r
      else r
  }

  /**
    What one imported context contributes to the creation batch: itself, followed by
    its sub-clusters when a platform type is given, or nothing at all when that scan
    fails.
   */
  function Expansion(cfg: ContextConfig, scan: Option<string>, remote: Remote): seq<ContextConfig>
  {
    match scan
    case None => [cfg]
    case Some(clusterType) =>
      var scanned := ScanOutcome(cfg.name, cfg.server, cfg.token, clusterType, remote);
      if scanned.Err? then [] else [cfg] + scanned.value
  }

  function Expand(configs: seq<ContextConfig>, scan: Option<string>, remote: Remote): seq<ContextConfig>
    decreases |configs|
  {
    if configs == [] then []
    else Expand(configs[..|configs| - 1], scan, remote) + Expansion(configs[|configs| - 1], scan, remote)
  }

  /** The contexts the merge tries to create, in order. */
  function MergeBatch(ext: Document, filePath: string, namePrefix: string, scan: Option<string>, remote: Remote, order: seq<string>): seq<ContextConfig>
  {
    Expand(Imports(ext, filePath, namePrefix, order), scan, remote)
  }

  /**
    What `MergeContext` returns on the stored document `d`: the path guard, the two
    loads, the whole-batch conflict check, then the creation counts. A creation that
    fails is counted as failed.
   */
  function MergeOutcome(d: Document, io: Io, filePath: string, namePrefix: string, scan: Option<string>,
                        external: Option<Document>, remote: Remote, order: seq<string>): (r: Result<MergeSummary>)
    ensures filePath == "" ==> r == Err(EmptyPath)
    ensures filePath != "" && !io.canLoad ==> r == Err(LoadFailed)
    ensures filePath != "" && io.canLoad && external.None? ==> r == Err(ExternalUnreadable(filePath))
    ensures r.Ok? <==>
      && filePath != "" && io.canLoad && external.Some?
      && forall c :: c in Imports(external.value, filePath, namePrefix, order) ==> c.name !in d.contexts
    ensures r.Err? && filePath != "" && io.canLoad && external.Some? ==>
      exists c :: c in Imports(external.value, filePath, namePrefix, order) && r == Err(MergeConflict(c.name)) && c.name in d.contexts
    ensures r.Ok? ==>
      var batch := MergeBatch(external.value, filePath, namePrefix, scan, remote, order);
      && r.value.added == CreateAll(d, io, batch).added
      && r.value.added + r.value.failed == |batch|
      && r.value.skippedCertificates == |CertificateNames(external.value, order)|
  {
    if filePath == "" then Err(EmptyPath)
    else if !io.canLoad then Err(LoadFailed)
    else if external.None? then Err(ExternalUnreadable(filePath))
    else
      var imports := Imports(external.value, filePath, namePrefix, order);
      var conflict := FirstConflict(d.contexts, imports);
      if conflict.Some? then Err(MergeConflict(conflict.value))
      else
        var batch := Expand(imports, scan, remote);
        CreateAllPreserves(d, io, batch);
        var added := CreateAll(d, io, batch).added;
        Ok(MergeSummary(added, |CertificateNames(external.value, order)|, |batch| - added))
  }

  /** The outcome of a merge whose conflict check passed. */
  lemma MergeOutcomeWhenFree(d: Document, io: Io, filePath: string, namePrefix: string, scan: Option<string>,
                             ext: Document, remote: Remote, order: seq<string>)
    requires filePath != "" && io.canLoad
    requires FirstConflict(d.contexts, Imports(ext, filePath, namePrefix, order)).None?
    ensures var batch := MergeBatch(ext, filePath, namePrefix, scan, remote, order);
      CreateAll(d, io, batch).added <= |batch| &&
      MergeOutcome(d, io, filePath, namePrefix, scan, Some(ext), remote, order)
        == Ok(MergeSummary(CreateAll(d, io, batch).added, |CertificateNames(ext, order)|, |batch| - CreateAll(d, io, batch).added))
  {
    CreateAllPreserves(d, io, MergeBatch(ext, filePath, namePrefix, scan, remote, order));
  }

  /** The outcome of a merge whose conflict check found a name. */
  lemma MergeOutcomeWhenTaken(d: Document, io: Io, filePath: string, namePrefix: string, scan: Option<string>,
                              ext: Document, remote: Remote, order: seq<string>)
    requires filePath != "" && io.canLoad
    requires FirstConflict(d.contexts, Imports(ext, filePath, namePrefix, order)).Some?
    ensures MergeOutcome(d, io, filePath, namePrefix, scan, Some(ext), remote, order)
      == Err(MergeConflict(FirstConflict(d.contexts, Imports(ext, filePath, namePrefix, order)).value))
  {
  }

  /**
    The certificate-skipping and name-generating loop over the external contexts,
    in map order: the order it took is returned as a ghost value.
   */
  method CollectImports(ext: Document, filePath: string, namePrefix: string)
    returns (configs: seq<ContextConfig>, certificateContexts: seq<string>, ghost order: seq<string>)
    ensures Distinct(order) && forall n :: n in order <==> n in ext.contexts
    ensures configs == Imports(ext, filePath, namePrefix, order)
    ensures certificateContexts == CertificateNames(ext, order)
    ensures forall c :: c in configs <==> c in ImportSet(ext, filePath, namePrefix)
    ensures |certificateContexts| == |CertificateSet(ext)|
  {
    configs, certificateContexts, order := [], [], [];
    var pending := ext.contexts.Keys;
    while pending != {}
      invariant pending <= ext.contexts.Keys
      invariant Distinct(order)
      invariant forall n :: n in order <==> n in ext.contexts.Keys - pending
      invariant configs == Imports(ext, filePath, namePrefix, order)
      invariant certificateContexts == CertificateNames(ext, order)
      decreases pending
    {
      var ctxName :| ctxName in pending;
      var ctx := ext.contexts[ctxName];
      CollectStep(ext, filePath, namePrefix, order, ctxName);
      if ctx.cluster in ext.clusters && ctx.authInfo in ext.authInfos {
        var authInfo := ext.authInfos[ctx.authInfo];
        if authInfo.clientCertificateData.Some? || authInfo.clientCertificate != "" {
          certificateContexts := certificateContexts + [ctxName];
        } else {
          var finalCtxName := if namePrefix != "" then namePrefix + "-" + ctxName
            else TrimSuffix(Base(filePath), Ext(filePath)) + "-" + ctxName;
          configs := configs + [ContextConfig(finalCtxName, ext.clusters[ctx.cluster].server, authInfo.token)];
        }
      }
      order := order + [ctxName];
      pending := pending - {ctxName};
    }
    CollectedOnce(ext, filePath, namePrefix, order);
  }

  /** One more name visited: its import or its skipped certificate is appended, and the names stay distinct. */
  lemma CollectStep(ext: Document, filePath: string, namePrefix: string, order: seq<string>, n: string)
    requires Distinct(order) && n !in order
    ensures Distinct(order + [n])
    ensures Imports(ext, filePath, namePrefix, order + [n]) ==
      if Importable(ext, n) then Imports(ext, filePath, namePrefix, order) + [ImportOf(ext, filePath, namePrefix, n)]
      else Imports(ext, filePath, namePrefix, order)
    ensures CertificateNames(ext, order + [n]) ==
      if CertificateSkipped(ext, n) then CertificateNames(ext, order) + [n] else CertificateNames(ext, order)
  {
    assert (order + [n])[..|order|] == order;
    forall k | 0 <= k < |order| ensures order[k] != n {
      assert order[k] in order;
    }
  }

  /** A visit of every context once proposes exactly the import set and skips every certificate-based context. */
  lemma CollectedOnce(ext: Document, filePath: string, namePrefix: string, order: seq<string>)
    requires Distinct(order) && forall n :: n in order <==> n in ext.contexts
    ensures forall c :: c in Imports(ext, filePath, namePrefix, order) <==> c in ImportSet(ext, filePath, namePrefix)
    ensures |CertificateNames(ext, order)| == |CertificateSet(ext)|
  {
    ImportsSpec(ext, filePath, namePrefix, order);
    CertificateCountIsSetSize(ext, order);
  }

  /** The conflict loop: the first proposed name that already is a context. */
  method FindConflict(existing: map<string, Context>, configs: seq<ContextConfig>) returns (conflict: Option<string>)
    ensures conflict == FirstConflict(existing, configs)
  {
    for i := 0 to |configs|
      invariant FirstConflict(existing, configs) == FirstConflict(existing, configs[i..])
    {
      assert configs[i..][1..] == configs[i + 1..];
      if configs[i].name in existing {
        return Some(configs[i].name);
      }
    }
    return None;
  }

  /**
    The processing loop: each imported context, with its sub-clusters when asked,
    created in order on the store. `attempted` counts the creations tried.
   */
  method ImportAll(store: Store, configs: seq<ContextConfig>, scan: Option<string>, remote: Remote)
    returns (added: nat, attempted: nat)
    modifies store
    ensures var batch := Expand(configs, scan, remote);
      && store.saved == CreateAll(old(store.saved), store.Access(), batch).doc
      && added == CreateAll(old(store.saved), store.Access(), batch).added
      && attempted == |batch|
    ensures store.writes == old(store.writes) + added
    ensures store.backupLog == old(store.backupLog) && store.dir == old(store.dir)
  {
    added, attempted := 0, 0;
    ghost var d := store.saved;
    assert configs[..0] == [];
    for i := 0 to |configs|
      invariant store.saved == CreateAll(d, store.Access(), Expand(configs[..i], scan, remote)).doc
      invariant added == CreateAll(d, store.Access(), Expand(configs[..i], scan, remote)).added
      invariant attempted == |Expand(configs[..i], scan, remote)|
      invariant store.writes == old(store.writes) + added
      invariant store.backupLog == old(store.backupLog) && store.dir == old(store.dir)
    {
      assert configs[..i + 1][..i] == configs[..i];
      ghost var done := Expand(configs[..i], scan, remote);
      var cfg := configs[i];
      var contexts := [cfg];
      if scan.Some? {
        var scanned := Scan(cfg.name, cfg.server, cfg.token, scan.value, remote);
        if scanned.Err? {
          assert done + [] == done;
          continue;
        }
        contexts := contexts + scanned.value;
      }
      assert contexts == Expansion(cfg, scan, remote);
      var n := CreateContexts(store, contexts, d, done);
      added := added + n;
      attempted := attempted + |contexts|;
    }
    assert configs[..|configs|] == configs;
  }

  /**
    `MergeContext`. Everything up to the conflict check changes nothing; after it the
    store holds the batch created in order. The summary's failed count is the number
    of creations that failed.
   */
  method MergeContext(store: Store, filePath: string, namePrefix: string, scan: Option<string>,
                      external: Option<Document>, remote: Remote)
    returns (r: Result<MergeSummary>, ghost order: seq<string>)
    modifies store
    ensures filePath != "" && store.Access().canLoad && external.Some? ==>
      Distinct(order) && forall n :: n in order <==> n in external.value.contexts
    ensures r == MergeOutcome(old(store.saved), store.Access(), filePath, namePrefix, scan, external, remote, order)
    ensures r.Err? ==> store.saved == old(store.saved) && store.writes == old(store.writes)
    ensures r.Ok? ==>
      && store.saved == CreateAll(old(store.saved), store.Access(),
                                  MergeBatch(external.value, filePath, namePrefix, scan, remote, order)).doc
      && store.writes == old(store.writes) + r.value.added
      && r.value.skippedCertificates == |CertificateSet(external.value)|
    ensures store.backupLog == old(store.backupLog) && store.dir == old(store.dir)
  {
    order := [];
    if filePath == "" {
      return Err(EmptyPath), order;
    }
    var currentConfig, loadErr := store.GetKubeConfig();
    if loadErr.Fail? {
      return Err(LoadFailed), order;
    }
    if external.None? {
      return Err(ExternalUnreadable(filePath)), order;
    }
    r, order := MergeLoaded(store, currentConfig.contexts, filePath, namePrefix, scan, external.value, remote);
  }

  /** `MergeContext` once both files are loaded: collect, check for conflicts, import. */
  method MergeLoaded(store: Store, existing: map<string, Context>, filePath: string, namePrefix: string,
                     scan: Option<string>, ext: Document, remote: Remote)
    returns (r: Result<MergeSummary>, ghost order: seq<string>)
    requires filePath != "" && store.Access().canLoad && existing == store.saved.contexts
    modifies store
    ensures Distinct(order) && forall n :: n in order <==> n in ext.contexts
    ensures r == MergeOutcome(old(store.saved), store.Access(), filePath, namePrefix, scan, Some(ext), remote, order)
    ensures r.Err? ==> store.saved == old(store.saved) && store.writes == old(store.writes)
    ensures r.Ok? ==>
      && store.saved == CreateAll(old(store.saved), store.Access(), MergeBatch(ext, filePath, namePrefix, scan, remote, order)).doc
      && store.writes == old(store.writes) + r.value.added
      && r.value.skippedCertificates == |CertificateSet(ext)|
    ensures store.backupLog == old(store.backupLog) && store.dir == old(store.dir)
  {
    var configs, certificateContexts;
    configs, certificateContexts, order := CollectImports(ext, filePath, namePrefix);
    var conflict := FindConflict(existing, configs);
    if conflict.Some? {
      MergeOutcomeWhenTaken(old(store.saved), store.Access(), filePath, namePrefix, scan, ext, remote, order);
      return Err(MergeConflict(conflict.value)), order;
    }
    r := ImportFree(store, configs, |certificateContexts|, filePath, namePrefix, scan, ext, remote, order);
  }

  /** The import step of `MergeLoaded`, once no proposed name is taken. */
  method ImportFree(store: Store, configs: seq<ContextConfig>, skipped: nat, filePath: string, namePrefix: string,
                    scan: Option<string>, ext: Document, remote: Remote, ghost order: seq<string>)
    returns (r: Result<MergeSummary>)
    requires filePath != "" && store.Access().canLoad
    requires configs == Imports(ext, filePath, namePrefix, order) && skipped == |CertificateNames(ext, order)|
    requires FirstConflict(store.saved.contexts, configs).None?
    modifies store
    ensures r.Ok? && r == MergeOutcome(old(store.saved), store.Access(), filePath, namePrefix, scan, Some(ext), remote, order)
    ensures store.saved == CreateAll(old(store.saved), store.Access(), MergeBatch(ext, filePath, namePrefix, scan, remote, order)).doc
    ensures store.writes == old(store.writes) + r.value.added
    ensures store.backupLog == old(store.backupLog) && store.dir == old(store.dir)
  {
    MergeOutcomeWhenFree(store.saved, store.Access(), filePath, namePrefix, scan, ext, remote, order);
    var added, attempted := ImportAll(store, configs, scan, remote);
    r := Ok(MergeSummary(added, skipped, attempted - added));
  }

  /**
    The imports are the importable contexts of the file, each exactly once, under
    their generated names: every proposed context comes from an importable context
    visited, and every importable context visited is proposed.
   */
  lemma {:induction false} ImportsSpec(ext: Document, filePath: string, namePrefix: string, order: seq<string>)
    ensures forall c :: c in Imports(ext, filePath, namePrefix, order) ==>
      exists n :: n in order && Importable(ext, n) && c == ImportOf(ext, filePath, namePrefix, n)
    ensures forall n :: n in order && Importable(ext, n) ==>
      ImportOf(ext, filePath, namePrefix, n) in Imports(ext, filePath, namePrefix, order)
    decreases |order|
  {
    if order != [] {
      var init := order[..|order| - 1];
      ImportsSpec(ext, filePath, namePrefix, init);
      forall n | n in order && Importable(ext, n)
        ensures ImportOf(ext, filePath, namePrefix, n) in Imports(ext, filePath, namePrefix, order)
      {
        if n != order[|order| - 1] {
          var k :| 0 <= k < |order| && order[k] == n;
          assert init[k] == n;
        }
      }
      forall c | c in Imports(ext, filePath, namePrefix, order)
        ensures exists n :: n in order && Importable(ext, n) && c == ImportOf(ext, filePath, namePrefix, n)
      {
        if c in Imports(ext, filePath, namePrefix, init) {
          var n :| n in init && Importable(ext, n) && c == ImportOf(ext, filePath, namePrefix, n);
          var k :| 0 <= k < |init| && init[k] == n;
          assert order[k] == n;
        } else {
          assert order[|order| - 1] in order;
        }
      }
    }
  }

  /** Distinct original names give distinct imported names: the batch has no duplicate from the file itself. */
  lemma ImportNameInjective(filePath: string, namePrefix: string, a: string, b: string)
    requires ImportName(filePath, namePrefix, a) == ImportName(filePath, namePrefix, b)
    ensures a == b
  {
    var p := (if namePrefix != "" then namePrefix else Stem(filePath)) + "-";
    assert ImportName(filePath, namePrefix, a) == p + a;
    assert ImportName(filePath, namePrefix, b) == p + b;
    assert (p + a)[|p|..] == a;
    assert (p + b)[|p|..] == b;
  }

  /** Visiting each context once, the skipped-certificate count is the number of certificate-based contexts. */
  lemma {:induction false} CertificateNamesCount(ext: Document, order: seq<string>)
    requires Distinct(order)
    ensures multiset(CertificateNames(ext, order)) == multiset(set n | n in order && CertificateSkipped(ext, n))
    decreases |order|
  {
    if order != [] {
      var init := order[..|order| - 1];
      var n := order[|order| - 1];
      CertificateNamesCount(ext, init);
      var before := set m | m in init && CertificateSkipped(ext, m);
      assert n !in init by {
        forall k | 0 <= k < |init| ensures init[k] != n {
          assert order[k] == init[k];
        }
      }
      if CertificateSkipped(ext, n) {
        assert (set m | m in order && CertificateSkipped(ext, m)) == before + {n};
        MultisetOfSetAdd(before, n);
      } else {
        assert (set m | m in order && CertificateSkipped(ext, m)) == before;
      }
    }
  }

  /** The summary's certificate count is the number of certificate-based contexts of the file. */
  lemma CertificateCountIsSetSize(ext: Document, order: seq<string>)
    requires Distinct(order) && forall n :: n in order <==> n in ext.contexts
    ensures |CertificateNames(ext, order)| == |CertificateSet(ext)|
  {
    CertificateNamesCount(ext, order);
    assert (set n | n in order && CertificateSkipped(ext, n)) == CertificateSet(ext);
    assert |multiset(CertificateNames(ext, order))| == |multiset(CertificateSet(ext))|;
  }

  /** A merge that passed its conflict check proposes no name the current document has as a context. */
  lemma MergeProposesFreshNames(d: Document, io: Io, filePath: string, namePrefix: string, scan: Option<string>,
                                ext: Document, remote: Remote, order: seq<string>)
    requires MergeOutcome(d, io, filePath, namePrefix, scan, Some(ext), remote, order).Ok?
    ensures forall n :: n in order && Importable(ext, n) ==> ImportName(filePath, namePrefix, n) !in d.contexts
  {
    ImportsSpec(ext, filePath, namePrefix, order);
  }

  /**
    As written, the failed count is the length of the list of contexts that were
    added minus the number added: the successfully created contexts of the batch.
   */
  function AddedContexts(d: Document, io: Io, batch: seq<ContextConfig>): seq<ContextConfig>
    decreases |batch|
  {
    if batch == [] then []
    else
      var init := batch[..|batch| - 1];
      var c := batch[|batch| - 1];
      if NewContextOutcome(CreateAll(d, io, init).doc, io, c.name, c.server, c.token).Pass? then
        AddedContexts(d, io, init) + [c]
      else AddedContexts(d, io, init)
  }

  /** The summary as the code computes it: `len(allConfigs) - successCount` as the failed count. */
  function MergeOutcomeAsWritten(d: Document, io: Io, filePath: string, namePrefix: string, scan: Option<string>,
                                 external: Option<Document>, remote: Remote, order: seq<string>): Result<(nat, nat, int)>
  {
    var r := MergeOutcome(d, io, filePath, namePrefix, scan, external, remote, order);
    if r.Err? then Err(r.error)
    else
      var batch := MergeBatch(external.value, filePath, namePrefix, scan, remote, order);
      Ok((r.value.added, r.value.skippedCertificates, |AddedContexts(d, io, batch)| - CreateAll(d, io, batch).added))
  }

  lemma {:induction false} AddedContextsCount(d: Document, io: Io, batch: seq<ContextConfig>)
    ensures |AddedContexts(d, io, batch)| == CreateAll(d, io, batch).added
    decreases |batch|
  {
    if batch != [] {
      AddedContextsCount(d, io, batch[..|batch| - 1]);
    }
  }

  /** As written, the failed count is zero on every merge. */
  lemma MergeFailedCountAsWritten(d: Document, io: Io, filePath: string, namePrefix: string, scan: Option<string>,
                                  external: Option<Document>, remote: Remote, order: seq<string>)
    requires MergeOutcomeAsWritten(d, io, filePath, namePrefix, scan, external, remote, order).Ok?
    ensures MergeOutcomeAsWritten(d, io, filePath, namePrefix, scan, external, remote, order).value.2 == 0
  {
    AddedContextsCount(d, io, MergeBatch(external.value, filePath, namePrefix, scan, remote, order));
  }

  /**
    A merge of one token context into a store that cannot be written: the creation
    fails, the code reports no failure, the corrected count reports one.
   */
  lemma MergeFailedCountExample(remote: Remote)
    ensures var ext := Document(map["a" := Cluster("https://h", false)], map["a" := AuthInfo("t", "", None)],
                                map["a" := Context("a", "a")], "a");
      var io := Io(true, false);
      && MergeOutcomeAsWritten(EmptyDocument, io, "f.yaml", "p", None, Some(ext), remote, ["a"]) == Ok((0, 0, 0))
      && MergeOutcome(EmptyDocument, io, "f.yaml", "p", None, Some(ext), remote, ["a"]) == Ok(MergeSummary(0, 0, 1))
  {
    var ext := Document(map["a" := Cluster("https://h", false)], map["a" := AuthInfo("t", "", None)],
                        map["a" := Context("a", "a")], "a");
    var io := Io(true, false);
    var order := ["a"];
    assert order[..0] == [];
    assert Importable(ext, "a");
    assert ImportName("f.yaml", "p", "a") == "p-a";
    assert ImportOf(ext, "f.yaml", "p", "a") == ContextConfig("p-a", "https://h", "t");
    var imports := Imports(ext, "f.yaml", "p", order);
    assert imports == Imports(ext, "f.yaml", "p", []) + [ImportOf(ext, "f.yaml", "p", "a")];
    var batch := Expand(imports, None, remote);
    assert imports[..0] == [];
    assert batch == Expand([], None, remote) + Expansion(imports[0], None, remote);
    assert batch == [ContextConfig("p-a", "https://h", "t")];
    assert batch[..0] == [];
    assert CreateAll(EmptyDocument, io, batch) == Batch(EmptyDocument, 0);
    assert AddedContexts(EmptyDocument, io, batch) == [];
    assert CertificateNames(ext, order) == [];
  }
}
