/**
  Sub-cluster discovery (`cmd/scan.go`): on an "alauda" platform the cluster
  resources of the `platform.tkestack.io/v1` group are listed, and every listed
  cluster except the administrative "global" one becomes a context whose server is
  the parent's server with its last path segment replaced by the cluster name.
  The cluster API is the `discover` oracle of `Remote`.
 */
module ScanCmd {
  import opened Errors
  import opened Api
  import opened Strings
  import opened Paths
  import opened Common

  /** The only platform type that dispatches to a scanner. */
  const AlaudaType := "alauda"

  /** The resource name that must be served by the group before it is listed. */
  const ClusterResource := "clusters"

  /** The administrative parent cluster, matched without regard to case. */
  predicate IsGlobal(clusterName: string)
  {
    ToLower(clusterName) == "global"
  }

  /** The scheme kept for the derived servers ("https://" when none is given) and the rest. */
  function SchemeAndPath(server: string): (string, string)
  {
    if "https://" <= server then ("https://", server[|"https://"|..])
    else if "http://" <= server then ("http://", server[|"http://"|..])
    else ("https://", server)
  }

  /** The server of sub-cluster `clusterName`: the parent's last path segment replaced. */
  function SubClusterServer(server: string, clusterName: string): (r: string)
    ensures "http://" <= server ==> "http://" <= r
    ensures !("http://" <= server) ==> "https://" <= r
  {
    var sp := SchemeAndPath(server);
    sp.0 + TrimLeftChar(Join(Dir(sp.1), clusterName), '/')
  }

  /** The context derived for sub-cluster `clusterName` of parent context `name`. */
  function SubContext(name: string, server: string, token: string, clusterName: string): ContextConfig
  {
    ContextConfig(name + "-" + clusterName, SubClusterServer(server, clusterName), token)
  }

  /** The contexts derived from the listed cluster names, in listing order. */
  function SubContexts(name: string, server: string, token: string, items: seq<string>): seq<ContextConfig>
    decreases |items|
  {
    if items == [] then []
    else
      var rest := SubContexts(name, server, token, items[..|items| - 1]);
      var last := items[|items| - 1];
      if IsGlobal(last) then rest else rest + [SubContext(name, server, token, last)]
  }

  /** What `ScanAlauda` returns for what the cluster API answers. */
  function AlaudaOutcome(name: string, server: string, token: string, discovery: Discovery): (r: Result<seq<ContextConfig>>)
    ensures r.Err? <==>
      !discovery.Discovered? || (ClusterResource in discovery.resources && !discovery.listing.Listed?)
    ensures discovery.Discovered? && ClusterResource !in discovery.resources ==> r == Ok([])
  {
    match discovery
    case ClientFailed => Err(ScanClientFailed)
    case DiscoveryFailed => Err(ScanDiscoveryFailed)
    case Discovered(resources, listing) =>
      if ClusterResource !in resources then Ok([])
      else
        match listing
        case ListFailed => Err(ScanListFailed)
        case Unparsable => Err(ScanParseFailed)
        case Listed(items) => Ok(SubContexts(name, server, token, items))
  }

  /** What `Scan` returns: the three guards, then the dispatch on the platform type. */
  function ScanOutcome(name: string, server: string, token: string, clusterType: string, remote: Remote): (r: Result<seq<ContextConfig>>)
    ensures name == "" ==> r == Err(EmptyName)
    ensures name != "" && server == "" ==> r == Err(EmptyServer)
    ensures name != "" && server != "" && token == "" ==> r == Err(EmptyToken)
    ensures name != "" && server != "" && token != "" && clusterType != AlaudaType ==> r == Ok([])
  {
    if name == "" then Err(EmptyName)
    else if server == "" then Err(EmptyServer)
    else if token == "" then Err(EmptyToken)
    else if clusterType == AlaudaType then AlaudaOutcome(name, server, token, remote.discover(server, token))
    else Ok([])
  }

  /** `ScanAlauda`: discovery, the resource check, the listing and the derivation loop. */
  method ScanAlauda(name: string, server: string, token: string, remote: Remote) returns (r: Result<seq<ContextConfig>>)
    ensures r == AlaudaOutcome(name, server, token, remote.discover(server, token))
  {
    var discovery := remote.discover(server, token);
    if discovery.ClientFailed? {
      return Err(ScanClientFailed);
    }
    if discovery.DiscoveryFailed? {
      return Err(ScanDiscoveryFailed);
    }
    var hasClusterResource := Contains(discovery.resources, ClusterResource);
    if !hasClusterResource {
      return Ok([]);
    }
    match discovery.listing
    case ListFailed =>
      return Err(ScanListFailed);
    case Unparsable =>
      return Err(ScanParseFailed);
    case Listed(items) =>
      var configs := [];
      for i := 0 to |items|
        invariant configs == SubContexts(name, server, token, items[..i])
      {
        assert items[..i + 1][..i] == items[..i];
        var clusterName := items[i];
        if ToLower(clusterName) == "global" {
          continue;
        }
        var newContextName := name + "-" + clusterName;
        var protocol := "https://";
        var serverPath := server;
        if "https://" <= server {
          serverPath := server[|"https://"|..];
        } else if "http://" <= server {
          protocol := "http://";
          serverPath := server[|"http://"|..];
        }
        var newServerPath := Join(Dir(serverPath), clusterName);
        var newServer := protocol + TrimLeftChar(newServerPath, '/');
        configs := configs + [ContextConfig(newContextName, newServer, token)];
      }
      assert items[..|items|] == items;
      r := Ok(configs);
  }

  /** `Scan`: rejects empty arguments, then scans an "alauda" platform and skips any other type. */
  method Scan(name: string, server: string, token: string, clusterType: string, remote: Remote) returns (r: Result<seq<ContextConfig>>)
    ensures r == ScanOutcome(name, server, token, clusterType, remote)
  {
    if name == "" {
      return Err(EmptyName);
    }
    if server == "" {
      return Err(EmptyServer);
    }
    if token == "" {
      return Err(EmptyToken);
    }
    if clusterType == AlaudaType {
      r := ScanAlauda(name, server, token, remote);
    } else {
      r := Ok([]);
    }
  }

  /** Every derived context carries the parent's token and comes from a listed non-global cluster. */
  lemma {:induction false} SubContextsSound(name: string, server: string, token: string, items: seq<string>)
    ensures forall c :: c in SubContexts(name, server, token, items) ==>
      c.token == token &&
      exists k :: 0 <= k < |items| && !IsGlobal(items[k]) && c == SubContext(name, server, token, items[k])
    decreases |items|
  {
    if items != [] {
      var init := items[..|items| - 1];
      SubContextsSound(name, server, token, init);
      forall c | c in SubContexts(name, server, token, items)
        ensures c.token == token
        ensures exists k :: 0 <= k < |items| && !IsGlobal(items[k]) && c == SubContext(name, server, token, items[k])
      {
        if c in SubContexts(name, server, token, init) {
          var k :| 0 <= k < |init| && !IsGlobal(init[k]) && c == SubContext(name, server, token, init[k]);
          assert items[k] == init[k];
        } else {
          assert c == SubContext(name, server, token, items[|items| - 1]);
        }
      }
    }
  }

  /** Every listed non-global cluster yields its context. */
  lemma SubContextsComplete(name: string, server: string, token: string, items: seq<string>)
    ensures forall k :: 0 <= k < |items| && !IsGlobal(items[k]) ==>
      SubContext(name, server, token, items[k]) in SubContexts(name, server, token, items)
  {
    forall k | 0 <= k < |items| && !IsGlobal(items[k])
      ensures SubContext(name, server, token, items[k]) in SubContexts(name, server, token, items)
    {
      SubContextListed(name, server, token, items, k);
    }
  }

  /** The non-global cluster at position `k` yields its context. */
  lemma {:induction false} SubContextListed(name: string, server: string, token: string, items: seq<string>, k: nat)
    requires k < |items| && !IsGlobal(items[k])
    ensures SubContext(name, server, token, items[k]) in SubContexts(name, server, token, items)
    decreases |items|
  {
    var init := items[..|items| - 1];
    var last := items[|items| - 1];
    var before := SubContexts(name, server, token, init);
    assert SubContexts(name, server, token, items)
      == if IsGlobal(last) then before else before + [SubContext(name, server, token, last)];
    if k < |init| {
      assert init[k] == items[k];
      SubContextListed(name, server, token, init, k);
    }
  }

  /** At most one context per listed cluster, and exactly one each when none is "global". */
  lemma {:induction false} SubContextsCount(name: string, server: string, token: string, items: seq<string>)
    ensures |SubContexts(name, server, token, items)| <= |items|
    ensures (forall k :: 0 <= k < |items| ==> !IsGlobal(items[k])) ==>
      |SubContexts(name, server, token, items)| == |items|
    decreases |items|
  {
    if items != [] {
      var init := items[..|items| - 1];
      SubContextsCount(name, server, token, init);
      if forall k :: 0 <= k < |items| ==> !IsGlobal(items[k]) {
        assert forall k :: 0 <= k < |init| ==> init[k] == items[k];
        assert !IsGlobal(items[|items| - 1]);
      }
    }
  }

  /** No derived context is named after the "global" cluster, in any spelling. */
  lemma GlobalNeverScanned(name: string, server: string, token: string, items: seq<string>, g: string)
    requires IsGlobal(g)
    ensures forall c :: c in SubContexts(name, server, token, items) ==> c.name != name + "-" + g
  {
    SubContextsSound(name, server, token, items);
    forall c | c in SubContexts(name, server, token, items)
      ensures c.name != name + "-" + g
    {
      var k :| 0 <= k < |items| && !IsGlobal(items[k]) && c == SubContext(name, server, token, items[k]);
      var p := name + "-";
      assert c.name[|p|..] == items[k] != g;
      assert (p + g)[|p|..] == g;
    }
  }

  /** A server with a path gets its last segment replaced, its scheme and the rest kept. */
  lemma SubServerReplacesLastSegment(scheme: string, p: string, last: string, clusterName: string)
    requires scheme == "https://" || scheme == "http://"
    requires p != "" && p[0] != '/' && p != "."
    requires '/' !in last
    requires clusterName != ""
    ensures SubClusterServer(scheme + p + "/" + last, clusterName) == scheme + p + "/" + clusterName
  {
    var rest := p + "/" + last;
    calc {
      SubClusterServer(scheme + p + "/" + last, clusterName);
      { assert scheme + p + "/" + last == scheme + rest; }
      SubClusterServer(scheme + rest, clusterName);
      { SchemeSplit(scheme, rest); }
      scheme + TrimLeftChar(Join(Dir(rest), clusterName), '/');
      { DirBeforeLast(p, last); }
      scheme + TrimLeftChar(Join(p, clusterName), '/');
      { JoinTrimmed(p, clusterName); }
      scheme + (p + "/" + clusterName);
      scheme + p + "/" + clusterName;
    }
  }

  /** Joining a relative clean directory and a name gives `dir/name`, with no slash to trim. */
  lemma JoinTrimmed(dir: string, clusterName: string)
    requires dir != "" && dir[0] != '/' && dir != "."
    requires clusterName != ""
    ensures TrimLeftChar(Join(dir, clusterName), '/') == dir + "/" + clusterName
  {
    var j := dir + "/" + clusterName;
    assert j[0] == dir[0];
  }

  /** The scheme is split off a server that starts with it. */
  lemma SchemeSplit(scheme: string, rest: string)
    requires scheme == "https://" || scheme == "http://"
    ensures SchemeAndPath(scheme + rest) == (scheme, rest)
  {
    var server := scheme + rest;
    assert server[..|scheme|] == scheme;
    assert server[4] == scheme[4];
  }

  /** The directory of `p/last` is `p` when `last` has no slash. */
  lemma DirBeforeLast(p: string, last: string)
    requires p != "" && '/' !in last
    ensures Dir(p + "/" + last) == p
  {
    var s := p + "/" + last;
    assert s == p + ['/'] + last;
    LastIndexAfter(p, '/', last);
    assert s[..|p|] == p;
  }

  /** A server with no path (a bare host) gets the cluster name in place of its host. */
  lemma SubServerOfBareHost(scheme: string, host: string, clusterName: string)
    requires scheme == "https://" || scheme == "http://"
    requires '/' !in host
    requires clusterName != "" && '/' !in clusterName
    ensures SubClusterServer(scheme + host, clusterName) == scheme + clusterName
  {
    SchemeSplit(scheme, host);
    assert Dir(host) == ".";
    assert clusterName[0] in clusterName;
  }
}
