/**
  Context creation and orphan reconciliation (`cmd/core.go`), and creation of a batch
  of proposed contexts one at a time, as the add and merge commands do it.
 */
module Core {
  import opened Wrappers
  import opened Errors
  import opened Api
  import opened Integrity
  import opened Common
  import opened Persistence
  import opened Strings

  /**
    The document after `NewContext` created `name`: a cluster with TLS verification
    skipped, a token user and a context binding them, all three keyed by `name`, and
    `name` made current.
   */
  function Created(d: Document, name: string, server: string, token: string): Document
  {
    d.(clusters := d.clusters[name := Cluster(server, true)],
       authInfos := d.authInfos[name := AuthInfo(token, "", None)],
       contexts := d.contexts[name := Context(name, name)],
       currentContext := name)
  }

  /**
    The error `NewContext` returns on the stored document `d`: the argument guards come
    before loading, the conflict check after it, the write last.
   */
  function NewContextOutcome(d: Document, io: Io, name: string, server: string, token: string): (r: Outcome)
    ensures r.Pass? <==>
      name != "" && server != "" && token != "" && io.canLoad && io.canWrite
      && name !in d.clusters && name !in d.authInfos && name !in d.contexts
    ensures name == "" ==> r == Fail(EmptyName)
    ensures name != "" && server == "" ==> r == Fail(EmptyServer)
    ensures name != "" && server != "" && token == "" ==> r == Fail(EmptyToken)
    ensures name != "" && server != "" && token != "" && !io.canLoad ==> r == Fail(LoadFailed)
    ensures io.canLoad && name != "" && server != "" && token != "" ==>
      && (name in d.clusters ==> r == Fail(ClusterExists(name)))
      && (name !in d.clusters && name in d.authInfos ==> r == Fail(UserExists(name)))
      && (name !in d.clusters && name !in d.authInfos && name in d.contexts ==> r == Fail(ContextExists(name)))
      && (name !in d.clusters && name !in d.authInfos && name !in d.contexts && !io.canWrite ==> r == Fail(WriteFailed))
  {
    if name == "" then Fail(EmptyName)
    else if server == "" then Fail(EmptyServer)
    else if token == "" then Fail(EmptyToken)
    else if !io.canLoad then Fail(LoadFailed)
    else if CheckNameConflicts(Some(d), name).Fail? then CheckNameConflicts(Some(d), name)
    else if !io.canWrite then Fail(WriteFailed)
    else Pass
  }

  /**
    `NewContext`: load, check the name, add the three entries, make the context current
    and save atomically. Nothing is written unless every step before the write passed.
   */
  method NewContext(store: Store, name: string, server: string, token: string) returns (err: Outcome)
    modifies store
    ensures err == NewContextOutcome(old(store.saved), store.Access(), name, server, token)
    ensures store.saved == if err.Pass? then Created(old(store.saved), name, server, token) else old(store.saved)
    ensures store.writes == old(store.writes) + if err.Pass? then 1 else 0
    ensures store.backupLog == old(store.backupLog) && store.dir == old(store.dir)
  {
    if name == "" {
      return Fail(EmptyName);
    }
    if server == "" {
      return Fail(EmptyServer);
    }
    if token == "" {
      return Fail(EmptyToken);
    }
    var config, loadErr := store.GetKubeConfig();
    if loadErr.Fail? {
      return Fail(LoadFailed);
    }
    var conflict := CheckNameConflicts(Some(config.Doc()), name);
    if conflict.Fail? {
      return conflict;
    }
    config.clusters := config.clusters[name := Cluster(server, true)];
    config.authInfos := config.authInfos[name := AuthInfo(token, "", None)];
    config.contexts := config.contexts[name := Context(name, name)];
    config.currentContext := name;
    err := store.SafeWriteConfig(config);
  }

  /**
    A creation that passed the conflict check adds one fresh entry to each map and
    overwrites nothing.
   */
  lemma CreatedAddsFresh(d: Document, name: string, server: string, token: string)
    requires CheckNameConflicts(Some(d), name).Pass?
    ensures var r := Created(d, name, server, token);
      |r.clusters| == |d.clusters| + 1 && |r.authInfos| == |d.authInfos| + 1 && |r.contexts| == |d.contexts| + 1
    ensures var r := Created(d, name, server, token);
      (forall n :: n in d.clusters ==> n in r.clusters && r.clusters[n] == d.clusters[n])
      && (forall n :: n in d.authInfos ==> n in r.authInfos && r.authInfos[n] == d.authInfos[n])
      && (forall n :: n in d.contexts ==> n in r.contexts && r.contexts[n] == d.contexts[n])
  {
    MapAddFresh(d.clusters, name, Cluster(server, true));
    MapAddFresh(d.authInfos, name, AuthInfo(token, "", None));
    MapAddFresh(d.contexts, name, Context(name, name));
  }

  lemma MapAddFresh<V>(m: map<string, V>, k: string, v: V)
    requires k !in m
    ensures |m[k := v]| == |m| + 1
    ensures forall n :: n in m ==> n in m[k := v] && m[k := v][n] == m[n]
  {
    assert m[k := v].Keys == m.Keys + {k};
  }

  /**
    A creation that passed the conflict check keeps every reference resolvable, leaves
    no orphan that was not there before, and makes an existing context current.
   */
  lemma CreatedKeepsIntegrity(d: Document, name: string, server: string, token: string)
    requires CheckNameConflicts(Some(d), name).Pass?
    ensures RefsResolve(d) ==> RefsResolve(Created(d, name, server, token))
    ensures NoOrphans(d) ==> NoOrphans(Created(d, name, server, token))
    ensures CurrentValid(Created(d, name, server, token))
  {
    var r := Created(d, name, server, token);
    forall c | c in UsedClusters(r.contexts) ensures c in UsedClusters(d.contexts) || c == name {
      var n :| n in r.contexts && r.contexts[n].cluster == c;
      if n != name {
        assert n in d.contexts && d.contexts[n].cluster == c;
      }
    }
    forall u | u in UsedUsers(r.contexts) ensures u in UsedUsers(d.contexts) || u == name {
      var n :| n in r.contexts && r.contexts[n].authInfo == u;
      if n != name {
        assert n in d.contexts && d.contexts[n].authInfo == u;
      }
    }
    forall c | c in UsedClusters(d.contexts) ensures c in UsedClusters(r.contexts) {
      var n :| n in d.contexts && d.contexts[n].cluster == c;
      assert n in r.contexts && r.contexts[n].cluster == c;
    }
    forall u | u in UsedUsers(d.contexts) ensures u in UsedUsers(r.contexts) {
      var n :| n in d.contexts && d.contexts[n].authInfo == u;
      assert n in r.contexts && r.contexts[n].authInfo == u;
    }
    assert name in r.contexts && r.contexts[name].cluster == name && r.contexts[name].authInfo == name;
  }

  /**
    `CleanContext`: collect the names the contexts refer to, list the clusters and users
    no context refers to, delete them, and return what was deleted. Go's map iteration
    order is unspecified, so each loop takes the next key in any order.
   */
  method CleanContext(config: Config) returns (removedClusters: seq<string>, removedUsers: seq<string>, err: Outcome)
    modifies config
    ensures config.Doc() == RemoveOrphans(old(config.Doc()))
    ensures multiset(removedClusters) == multiset(OrphanClusters(old(config.Doc())))
    ensures multiset(removedUsers) == multiset(OrphanUsers(old(config.Doc())))
    ensures err == Pass
  {
    var usedClusters, usedUsers := CollectReferences(config.contexts);
    removedClusters := Unused(config.clusters.Keys, usedClusters);
    removedUsers := Unused(config.authInfos.Keys, usedUsers);
    ghost var before := config.Doc();
    for i := 0 to |removedClusters|
      invariant config.clusters == before.clusters - (set k | 0 <= k < i :: removedClusters[k])
      invariant config.authInfos == before.authInfos && config.contexts == before.contexts
      invariant config.currentContext == before.currentContext
    {
      assert (set k | 0 <= k < i + 1 :: removedClusters[k]) == (set k | 0 <= k < i :: removedClusters[k]) + {removedClusters[i]};
      config.clusters := config.clusters - {removedClusters[i]};
    }
    for i := 0 to |removedUsers|
      invariant config.authInfos == before.authInfos - (set k | 0 <= k < i :: removedUsers[k])
      invariant config.clusters == before.clusters - (set k | 0 <= k < |removedClusters| :: removedClusters[k])
      invariant config.contexts == before.contexts && config.currentContext == before.currentContext
    {
      assert (set k | 0 <= k < i + 1 :: removedUsers[k]) == (set k | 0 <= k < i :: removedUsers[k]) + {removedUsers[i]};
      config.authInfos := config.authInfos - {removedUsers[i]};
    }
    SeqOfSet(removedClusters, OrphanClusters(before));
    SeqOfSet(removedUsers, OrphanUsers(before));
    err := Pass;
  }

  /** The indices of a sequence whose multiset is a set's range over exactly that set. */
  lemma SeqOfSet(s: seq<string>, a: set<string>)
    requires multiset(s) == multiset(a)
    ensures (set k | 0 <= k < |s| :: s[k]) == a
  {
    forall x | x in a ensures x in (set k | 0 <= k < |s| :: s[k]) {
      assert x in multiset(s);
      var k :| 0 <= k < |s| && s[k] == x;
    }
    forall x | x in (set k | 0 <= k < |s| :: s[k]) ensures x in a {
      var k :| 0 <= k < |s| && s[k] == x;
      assert x in multiset(s);
    }
  }

  /** A sequence and a set with the same multiset hold the same elements. */
  lemma SameElements(s: seq<string>, a: set<string>)
    requires multiset(s) == multiset(a)
    ensures (set k | 0 <= k < |s| :: s[k]) == a
    ensures forall x :: x in s <==> x in a
    ensures |s| == |a|
  {
    assert |multiset(s)| == |s| && |multiset(a)| == |a|;
    SeqOfSet(s, a);
    forall x ensures x in s <==> x in a {
      assert x in s <==> x in multiset(s);
    }
  }

  /** Adding a context adds its cluster and user to the referenced names. */
  lemma UsedAfterAdd(contexts: map<string, Context>, n: string, c: Context)
    ensures UsedClusters(contexts[n := c]) == UsedClusters(contexts - {n}) + {c.cluster}
    ensures UsedUsers(contexts[n := c]) == UsedUsers(contexts - {n}) + {c.authInfo}
  {
    var m := contexts[n := c];
    var rest := contexts - {n};
    forall x | x in UsedClusters(m) ensures x in UsedClusters(rest) + {c.cluster} {
      var k :| k in m && m[k].cluster == x;
      if k != n {
        assert k in rest && rest[k] == m[k];
      }
    }
    forall x | x in UsedUsers(m) ensures x in UsedUsers(rest) + {c.authInfo} {
      var k :| k in m && m[k].authInfo == x;
      if k != n {
        assert k in rest && rest[k] == m[k];
      }
    }
    forall k | k in rest ensures rest[k].cluster in UsedClusters(m) && rest[k].authInfo in UsedUsers(m) {
      assert k in m && m[k] == rest[k];
    }
    assert n in m && m[n] == c;
  }

  /** The first loop of `CleanContext`: the cluster and user names the contexts use. */
  method CollectReferences(contexts: map<string, Context>) returns (usedClusters: set<string>, usedUsers: set<string>)
    ensures usedClusters == UsedClusters(contexts) && usedUsers == UsedUsers(contexts)
  {
    usedClusters, usedUsers := {}, {};
    var pending := contexts.Keys;
    while pending != {}
      invariant pending <= contexts.Keys
      invariant usedClusters == UsedClusters(contexts - pending)
      invariant usedUsers == UsedUsers(contexts - pending)
      decreases pending
    {
      var n :| n in pending;
      assert contexts - (pending - {n}) == (contexts - pending)[n := contexts[n]];
      assert (contexts - pending) - {n} == contexts - pending;
      UsedAfterAdd(contexts - pending, n, contexts[n]);
      usedClusters := usedClusters + {contexts[n].cluster};
      usedUsers := usedUsers + {contexts[n].authInfo};
      pending := pending - {n};
    }
    assert contexts - {} == contexts;
  }

  /** The second loop of `CleanContext`: the names not in `used`, each listed once. */
  method Unused(names: set<string>, used: set<string>) returns (unused: seq<string>)
    ensures multiset(unused) == multiset(names - used)
  {
    unused := [];
    var pending := names;
    while pending != {}
      invariant pending <= names
      invariant multiset(unused) == multiset((names - pending) - used)
      decreases pending
    {
      var n :| n in pending;
      if n !in used {
        MultisetOfSetAdd((names - pending) - used, n);
        assert ((names - (pending - {n})) - used) == ((names - pending) - used) + {n};
        unused := unused + [n];
      } else {
        assert ((names - (pending - {n})) - used) == ((names - pending) - used);
      }
      pending := pending - {n};
    }
  }

  /** The document and the count of successful creations after a batch. */
  datatype Batch = Batch(doc: Document, added: nat)

  /**
    Creating each proposed context in order with `NewContext`, as add and merge do:
    a failed creation is counted out and the next one is tried.
   */
  function CreateAll(d: Document, io: Io, batch: seq<ContextConfig>): Batch
    decreases |batch|
  {
    if batch == [] then Batch(d, 0)
    else
      var prev := CreateAll(d, io, batch[..|batch| - 1]);
      var c := batch[|batch| - 1];
      if NewContextOutcome(prev.doc, io, c.name, c.server, c.token).Pass? then
        Batch(Created(prev.doc, c.name, c.server, c.token), prev.added + 1)
      else prev
  }

  /** Whether the `k`-th creation of the batch succeeds. */
  predicate CreationPasses(d: Document, io: Io, batch: seq<ContextConfig>, k: nat)
    requires k < |batch|
  {
    NewContextOutcome(CreateAll(d, io, batch[..k]).doc, io, batch[k].name, batch[k].server, batch[k].token).Pass?
  }

  /**
    The creation loop of the add and merge commands: `NewContext` for each proposed
    context, a failure counted out and the next one tried. `done` is what was already
    proposed to the same store since it held `d`.
   */
  method CreateContexts(store: Store, contexts: seq<ContextConfig>, ghost d: Document, ghost done: seq<ContextConfig>)
    returns (added: nat)
    modifies store
    requires store.saved == CreateAll(d, store.Access(), done).doc
    ensures store.saved == CreateAll(d, store.Access(), done + contexts).doc
    ensures CreateAll(d, store.Access(), done + contexts).added == CreateAll(d, store.Access(), done).added + added
    ensures store.writes == old(store.writes) + added
    ensures store.backupLog == old(store.backupLog) && store.dir == old(store.dir)
  {
    added := 0;
    assert done + contexts[..0] == done;
    for j := 0 to |contexts|
      invariant store.saved == CreateAll(d, store.Access(), done + contexts[..j]).doc
      invariant CreateAll(d, store.Access(), done + contexts[..j]).added == CreateAll(d, store.Access(), done).added + added
      invariant store.writes == old(store.writes) + added
      invariant store.backupLog == old(store.backupLog) && store.dir == old(store.dir)
    {
      assert done + contexts[..j + 1] == (done + contexts[..j]) + [contexts[j]];
      var ctx := contexts[j];
      var err := NewContext(store, ctx.name, ctx.server, ctx.token);
      if err.Pass? {
        added := added + 1;
      }
    }
    assert contexts[..|contexts|] == contexts;
  }

  /** Creating `a` and then `b` is creating `b` on the document `a` left. */
  lemma {:induction false} CreateAllAppend(d: Document, io: Io, a: seq<ContextConfig>, b: seq<ContextConfig>)
    ensures var p := CreateAll(d, io, a);
      var q := CreateAll(p.doc, io, b);
      CreateAll(d, io, a + b) == Batch(q.doc, p.added + q.added)
    decreases |b|
  {
    if b == [] {
      assert a + b == a;
    } else {
      var init := b[..|b| - 1];
      CreateAllAppend(d, io, a, init);
      assert (a + b)[..|a + b| - 1] == a + init;
    }
  }

  /**
    A batch adds at most one context per item and one context per success, never
    overwrites an existing entry, and preserves reference integrity.
   */
  lemma {:induction false} CreateAllPreserves(d: Document, io: Io, batch: seq<ContextConfig>)
    ensures var r := CreateAll(d, io, batch);
      r.added <= |batch| && |r.doc.contexts| == |d.contexts| + r.added
    ensures var r := CreateAll(d, io, batch).doc;
      (forall n :: n in d.clusters ==> n in r.clusters && r.clusters[n] == d.clusters[n])
      && (forall n :: n in d.authInfos ==> n in r.authInfos && r.authInfos[n] == d.authInfos[n])
      && (forall n :: n in d.contexts ==> n in r.contexts && r.contexts[n] == d.contexts[n])
    ensures RefsResolve(d) ==> RefsResolve(CreateAll(d, io, batch).doc)
    ensures NoOrphans(d) ==> NoOrphans(CreateAll(d, io, batch).doc)
    ensures CurrentValid(d) ==> CurrentValid(CreateAll(d, io, batch).doc)
    ensures !io.canWrite ==> CreateAll(d, io, batch) == Batch(d, 0)
    decreases |batch|
  {
    if batch != [] {
      var init := batch[..|batch| - 1];
      CreateAllPreserves(d, io, init);
      var prev := CreateAll(d, io, init);
      var c := batch[|batch| - 1];
      if NewContextOutcome(prev.doc, io, c.name, c.server, c.token).Pass? {
        CreatedAddsFresh(prev.doc, c.name, c.server, c.token);
        CreatedKeepsIntegrity(prev.doc, c.name, c.server, c.token);
      }
    }
  }

  /**
    After a batch with at least one success the current context is the name of the
    last successful item: no item after it adds a context. With none the document is
    unchanged.
   */
  lemma {:induction false} CreateAllCurrent(d: Document, io: Io, batch: seq<ContextConfig>)
    ensures CreateAll(d, io, batch).added == 0 ==> CreateAll(d, io, batch).doc == d
    ensures CreateAll(d, io, batch).added > 0 ==>
      exists k :: 0 <= k < |batch| && CreationPasses(d, io, batch, k)
        && CreateAll(d, io, batch).doc.currentContext == batch[k].name
        && CreateAll(d, io, batch[..k + 1]).added == CreateAll(d, io, batch).added
    decreases |batch|
  {
    if batch != [] {
      var init := batch[..|batch| - 1];
      var last := |batch| - 1;
      CreateAllCurrent(d, io, init);
      CreateAllStep(d, io, batch);
      var all := CreateAll(d, io, batch);
      if CreationPasses(d, io, batch, last) {
        assert batch[..last + 1] == batch;
        assert all.doc.currentContext == batch[last].name;
        assert CreationPasses(d, io, batch, last) && CreateAll(d, io, batch[..last + 1]).added == all.added;
      } else if CreateAll(d, io, init).added > 0 {
        var k :| 0 <= k < |init| && CreationPasses(d, io, init, k)
          && CreateAll(d, io, init).doc.currentContext == init[k].name
          && CreateAll(d, io, init[..k + 1]).added == CreateAll(d, io, init).added;
        CurrentAfterFailure(d, io, batch, k);
      }
    }
  }

  /** A failing last item leaves the last success of the rest where it was. */
  lemma CurrentAfterFailure(d: Document, io: Io, batch: seq<ContextConfig>, k: nat)
    requires k < |batch| - 1 && !CreationPasses(d, io, batch, |batch| - 1)
    requires var init := batch[..|batch| - 1];
      && CreationPasses(d, io, init, k)
      && CreateAll(d, io, init).doc.currentContext == init[k].name
      && CreateAll(d, io, init[..k + 1]).added == CreateAll(d, io, init).added
    ensures CreationPasses(d, io, batch, k)
    ensures CreateAll(d, io, batch).doc.currentContext == batch[k].name
    ensures CreateAll(d, io, batch[..k + 1]).added == CreateAll(d, io, batch).added
  {
    var init := batch[..|batch| - 1];
    CreateAllStep(d, io, batch);
    CreationPassesPrefix(d, io, batch, |batch| - 1, k);
    assert init[..k + 1] == batch[..k + 1];
  }

  /** One step of `CreateAll`: the last item is created exactly when its creation passes. */
  lemma CreateAllStep(d: Document, io: Io, batch: seq<ContextConfig>)
    requires batch != []
    ensures var prev := CreateAll(d, io, batch[..|batch| - 1]);
      var c := batch[|batch| - 1];
      CreateAll(d, io, batch) ==
        if CreationPasses(d, io, batch, |batch| - 1) then Batch(Created(prev.doc, c.name, c.server, c.token), prev.added + 1)
        else prev
  {
    assert batch[..|batch| - 1] == batch[..|batch| - 1];
  }


  /** Whether a creation passes depends only on the items before it. */
  lemma CreationPassesPrefix(d: Document, io: Io, batch: seq<ContextConfig>, n: nat, k: nat)
    requires k < n <= |batch|
    ensures CreationPasses(d, io, batch[..n], k) == CreationPasses(d, io, batch, k)
  {
    assert batch[..n][..k] == batch[..k];
  }


  /** Every context a batch adds is named by some item of the batch. */
  lemma {:induction false} CreateAllNames(d: Document, io: Io, batch: seq<ContextConfig>)
    ensures forall n :: n in CreateAll(d, io, batch).doc.contexts ==>
      n in d.contexts || exists k :: 0 <= k < |batch| && batch[k].name == n
    decreases |batch|
  {
    if batch != [] {
      var init := batch[..|batch| - 1];
      CreateAllNames(d, io, init);
      forall n | n in CreateAll(d, io, batch).doc.contexts && n !in d.contexts
        ensures exists k :: 0 <= k < |batch| && batch[k].name == n
      {
        if n == batch[|batch| - 1].name {
        } else {
          assert n in CreateAll(d, io, init).doc.contexts;
          var k :| 0 <= k < |init| && init[k].name == n;
          assert batch[k] == init[k];
        }
      }
    }
  }
}
