/**
  The list command (`cmd/cmd_list.go`): every context in name order with its cluster's
  server (or a missing mark) and its user (with a missing mark), then the orphaned
  clusters and users in name order. The terminal output is modelled as the report
  value it prints.
 */
module ListCmd {
  import opened Wrappers
  import opened Errors
  import opened Api
  import opened Integrity
  import opened Persistence
  import opened Strings
  import opened Core

  /** One context line: its cluster and that cluster's server (`None` for "(missing)"), its user. */
  datatype ContextLine = ContextLine(name: string, cluster: string, server: Option<string>, user: string, userMissing: bool)

  /** One unused-cluster line. */
  datatype OrphanLine = OrphanLine(name: string, server: string)

  /** What the command prints: the context count, the context lines, the unused clusters and users. */
  datatype ListReport = ListReport(
    contextCount: nat,
    contexts: seq<ContextLine>,
    orphanClusters: seq<OrphanLine>,
    orphanUsers: seq<string>)

  /** The line printed for context `n` of `d`. */
  function LineFor(d: Document, n: string): ContextLine
    requires n in d.contexts
  {
    var c := d.contexts[n];
    ContextLine(n, c.cluster,
                if c.cluster in d.clusters then Some(d.clusters[c.cluster].server) else None,
                c.authInfo, c.authInfo !in d.authInfos)
  }

  function ContextNames(lines: seq<ContextLine>): seq<string>
  {
    seq(|lines|, i requires 0 <= i < |lines| => lines[i].name)
  }

  function OrphanNames(lines: seq<OrphanLine>): seq<string>
  {
    seq(|lines|, i requires 0 <= i < |lines| => lines[i].name)
  }

  /** Each context once, in name order, with its own line. */
  predicate DescribesContexts(lines: seq<ContextLine>, d: Document)
  {
    && Sorted(ContextNames(lines))
    && multiset(ContextNames(lines)) == multiset(d.contexts.Keys)
    && forall i :: 0 <= i < |lines| ==> lines[i].name in d.contexts && lines[i] == LineFor(d, lines[i].name)
  }

  /** Each orphaned cluster once, in name order, with its server; each orphaned user once, in name order. */
  predicate DescribesOrphans(clusters: seq<OrphanLine>, users: seq<string>, d: Document)
  {
    && Sorted(OrphanNames(clusters))
    && multiset(OrphanNames(clusters)) == multiset(OrphanClusters(d))
    && (forall i :: 0 <= i < |clusters| ==>
          clusters[i].name in d.clusters && clusters[i].server == d.clusters[clusters[i].name].server)
    && Sorted(users)
    && multiset(users) == multiset(OrphanUsers(d))
  }

  /** `report` is what the command prints for `d`. */
  predicate Describes(report: ListReport, d: Document)
  {
    && report.contextCount == |d.contexts|
    && DescribesContexts(report.contexts, d)
    && DescribesOrphans(report.orphanClusters, report.orphanUsers, d)
  }

  /** The output does not depend on map iteration order: a document has one report. */
  lemma ReportDeterministic(d: Document, r1: ListReport, r2: ListReport)
    requires Describes(r1, d) && Describes(r2, d)
    ensures r1 == r2
  {
    SortedUnique(ContextNames(r1.contexts), ContextNames(r2.contexts));
    assert |r1.contexts| == |ContextNames(r1.contexts)| == |ContextNames(r2.contexts)| == |r2.contexts|;
    forall i | 0 <= i < |r1.contexts| ensures r1.contexts[i] == r2.contexts[i] {
      assert r1.contexts[i].name == ContextNames(r1.contexts)[i] == ContextNames(r2.contexts)[i] == r2.contexts[i].name;
    }
    SortedUnique(OrphanNames(r1.orphanClusters), OrphanNames(r2.orphanClusters));
    assert |r1.orphanClusters| == |OrphanNames(r1.orphanClusters)| == |OrphanNames(r2.orphanClusters)| == |r2.orphanClusters|;
    forall i | 0 <= i < |r1.orphanClusters| ensures r1.orphanClusters[i] == r2.orphanClusters[i] {
      assert r1.orphanClusters[i].name == OrphanNames(r1.orphanClusters)[i] == OrphanNames(r2.orphanClusters)[i] == r2.orphanClusters[i].name;
    }
    SortedUnique(r1.orphanUsers, r2.orphanUsers);
  }

  /** The orphan section is printed exactly when the document has orphans. */
  lemma ReportShowsOrphansIff(d: Document, report: ListReport)
    requires Describes(report, d)
    ensures (report.orphanClusters != [] || report.orphanUsers != []) <==> !NoOrphans(d)
  {
    SameElements(OrphanNames(report.orphanClusters), OrphanClusters(d));
    SameElements(report.orphanUsers, OrphanUsers(d));
  }

  /** The context lines of a sorted list of the context names. */
  method ContextLines(d: Document, names: seq<string>) returns (lines: seq<ContextLine>)
    requires forall k :: 0 <= k < |names| ==> names[k] in d.contexts
    ensures ContextNames(lines) == names
    ensures forall i :: 0 <= i < |lines| ==> lines[i].name in d.contexts && lines[i] == LineFor(d, lines[i].name)
  {
    lines := [];
    for k := 0 to |names|
      invariant |lines| == k
      invariant forall i :: 0 <= i < k ==> lines[i] == LineFor(d, names[i])
    {
      var ctx := d.contexts[names[k]];
      var server := if ctx.cluster in d.clusters then Some(d.clusters[ctx.cluster].server) else None;
      lines := lines + [ContextLine(names[k], ctx.cluster, server, ctx.authInfo, ctx.authInfo !in d.authInfos)];
    }
  }

  /** The unused-cluster lines of a sorted list of orphaned cluster names. */
  method OrphanLines(d: Document, names: seq<string>) returns (lines: seq<OrphanLine>)
    requires forall k :: 0 <= k < |names| ==> names[k] in d.clusters
    ensures OrphanNames(lines) == names
    ensures forall i :: 0 <= i < |lines| ==> lines[i].name in d.clusters && lines[i].server == d.clusters[lines[i].name].server
  {
    lines := [];
    for k := 0 to |names|
      invariant |lines| == k
      invariant forall i :: 0 <= i < k ==> lines[i] == OrphanLine(names[i], d.clusters[names[i]].server)
    {
      lines := lines + [OrphanLine(names[k], d.clusters[names[k]].server)];
    }
  }

  /** The name-collecting loop of `ListContexts`, over the contexts in map order. */
  method CollectNames(contexts: map<string, Context>) returns (names: seq<string>)
    ensures multiset(names) == multiset(contexts.Keys)
  {
    names := [];
    var pending := contexts.Keys;
    while pending != {}
      invariant pending <= contexts.Keys
      invariant multiset(names) == multiset(contexts.Keys - pending)
      decreases pending
    {
      var n :| n in pending;
      MultisetOfSetAdd(contexts.Keys - pending, n);
      assert contexts.Keys - (pending - {n}) == (contexts.Keys - pending) + {n};
      names := names + [n];
      pending := pending - {n};
    }
  }

  /** The active-contexts section: names collected, sorted, one line each. */
  method ContextSection(d: Document) returns (lines: seq<ContextLine>)
    ensures DescribesContexts(lines, d)
  {
    var contextNames := CollectNames(d.contexts);
    contextNames := SortStrings(contextNames);
    SameElements(contextNames, d.contexts.Keys);
    lines := ContextLines(d, contextNames);
  }

  /** The orphaned-resources section: unreferenced names collected, then sorted. */
  method OrphanSection(d: Document) returns (clusters: seq<OrphanLine>, users: seq<string>)
    ensures DescribesOrphans(clusters, users, d)
  {
    var usedClusters, usedUsers := CollectReferences(d.contexts);
    var orphanClusters := Unused(d.clusters.Keys, usedClusters);
    var orphanUsers := Unused(d.authInfos.Keys, usedUsers);
    orphanClusters := SortStrings(orphanClusters);
    users := SortStrings(orphanUsers);
    assert multiset(users) == multiset(OrphanUsers(d));
    assert multiset(orphanClusters) == multiset(OrphanClusters(d));
    SameElements(orphanClusters, OrphanClusters(d));
    forall k | 0 <= k < |orphanClusters| ensures orphanClusters[k] in d.clusters {
      assert orphanClusters[k] in orphanClusters;
      assert orphanClusters[k] in OrphanClusters(d);
    }
    clusters := OrphanLines(d, orphanClusters);
  }

  /** The body of `ListContexts` after loading. */
  method BuildReport(d: Document) returns (report: ListReport)
    ensures Describes(report, d)
  {
    var lines := ContextSection(d);
    var orphanClusters, orphanUsers := OrphanSection(d);
    report := ListReport(|d.contexts|, lines, orphanClusters, orphanUsers);
  }

  /** `ListContexts`: fails only when the kubeconfig cannot be loaded, and changes nothing. */
  method ListContexts(store: Store) returns (r: Result<ListReport>)
    ensures r.Ok? <==> store.Access().canLoad
    ensures r.Err? ==> r.error == LoadFailed
    ensures r.Ok? ==> Describes(r.value, store.saved)
  {
    var config, loadErr := store.GetKubeConfig();
    if loadErr.Fail? {
      return Err(LoadFailed);
    }
    var report := BuildReport(config.Doc());
    r := Ok(report);
  }
}
