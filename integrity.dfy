/**
  Reference integrity of a kubeconfig document: which clusters and users the
  contexts refer to, which are orphaned, and the document with the orphans removed.
 */
module Integrity {
  import opened Api

  /** The cluster names some context refers to. */
  function UsedClusters(contexts: map<string, Context>): set<string>
  {
    set n | n in contexts :: contexts[n].cluster
  }

  /** The user names some context refers to. */
  function UsedUsers(contexts: map<string, Context>): set<string>
  {
    set n | n in contexts :: contexts[n].authInfo
  }

  /** Clusters that no context refers to. */
  function OrphanClusters(d: Document): set<string>
  {
    d.clusters.Keys - UsedClusters(d.contexts)
  }

  /** Users that no context refers to. */
  function OrphanUsers(d: Document): set<string>
  {
    d.authInfos.Keys - UsedUsers(d.contexts)
  }

  predicate NoOrphans(d: Document)
  {
    OrphanClusters(d) == {} && OrphanUsers(d) == {}
  }

  /** Every context's cluster and user name an existing entry. */
  predicate RefsResolve(d: Document)
  {
    forall n :: n in d.contexts ==> d.contexts[n].cluster in d.clusters && d.contexts[n].authInfo in d.authInfos
  }

  /** The current context is unset or names an existing context. */
  predicate CurrentValid(d: Document)
  {
    d.currentContext == "" || d.currentContext in d.contexts
  }

  /** The document left by orphan reconciliation. */
  function RemoveOrphans(d: Document): Document
  {
    d.(clusters := d.clusters - OrphanClusters(d), authInfos := d.authInfos - OrphanUsers(d))
  }

  /**
    Reconciliation removes exactly the orphans: every referenced entry stays with its
    value, nothing unreferenced stays, and contexts and the current context are untouched.
   */
  lemma RemoveOrphansSpec(d: Document)
    ensures RemoveOrphans(d).contexts == d.contexts
    ensures RemoveOrphans(d).currentContext == d.currentContext
    ensures RemoveOrphans(d).clusters.Keys == d.clusters.Keys * UsedClusters(d.contexts)
    ensures RemoveOrphans(d).authInfos.Keys == d.authInfos.Keys * UsedUsers(d.contexts)
    ensures forall n :: n in RemoveOrphans(d).clusters ==> RemoveOrphans(d).clusters[n] == d.clusters[n]
    ensures forall n :: n in RemoveOrphans(d).authInfos ==> RemoveOrphans(d).authInfos[n] == d.authInfos[n]
    ensures NoOrphans(RemoveOrphans(d))
  {
  }

  /** A second reconciliation removes nothing. */
  lemma RemoveOrphansIdempotent(d: Document)
    ensures OrphanClusters(RemoveOrphans(d)) == {} && OrphanUsers(RemoveOrphans(d)) == {}
    ensures RemoveOrphans(RemoveOrphans(d)) == RemoveOrphans(d)
  {
    RemoveOrphansSpec(d);
    var r := RemoveOrphans(d);
    assert r.clusters - OrphanClusters(r) == r.clusters;
    assert r.authInfos - OrphanUsers(r) == r.authInfos;
  }

  /** Reconciliation is the identity exactly on documents without orphans. */
  lemma RemoveOrphansUnchangedIff(d: Document)
    ensures RemoveOrphans(d) == d <==> NoOrphans(d)
  {
    if RemoveOrphans(d) == d {
      RemoveOrphansSpec(d);
    } else {
      assert d.clusters - {} == d.clusters && d.authInfos - {} == d.authInfos;
    }
  }

  /** Reconciliation keeps every reference resolvable and the current context valid. */
  lemma RemoveOrphansKeepsIntegrity(d: Document)
    ensures RefsResolve(d) ==> RefsResolve(RemoveOrphans(d))
    ensures CurrentValid(d) ==> CurrentValid(RemoveOrphans(d))
  {
    RemoveOrphansSpec(d);
  }
}
