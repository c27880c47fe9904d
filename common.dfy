/**
  The shared checks of the commands: the three-way name conflict check and the
  input guards of the reachability probe, with the live cluster API as an oracle.
 */
module Common {
  import opened Wrappers
  import opened Errors
  import opened Api

  /** What the API resource list of a cluster returns. */
  datatype Listing = ListFailed | Unparsable | Listed(items: seq<string>)

  /**
    What sub-cluster discovery sees on a cluster: the client could not be built, the
    discovery query for the extension group failed, or the group's resource names and
    the listing of its cluster resources.
   */
  datatype Discovery = ClientFailed | DiscoveryFailed | Discovered(resources: seq<string>, listing: Listing)

  /**
    The live cluster API as seen from the engine: whether a namespace listing with the
    given server and token succeeds within the timeout, and what discovery returns.
   */
  datatype Remote = Remote(reachable: (string, string) -> bool, discover: (string, string) -> Discovery)

  /**
    `CheckNameConflicts`: a new name must be unused as a cluster, a user and a context
    name at once. `None` stands for a nil configuration.
   */
  function CheckNameConflicts(config: Option<Document>, name: string): (r: Outcome)
    ensures r.Fail? <==>
      config.None? || name == "" ||
      name in config.value.clusters || name in config.value.authInfos || name in config.value.contexts
    ensures config.None? ==> r == Fail(NilConfig)
    ensures config.Some? && name == "" ==> r == Fail(EmptyName)
    ensures config.Some? && name != "" && name in config.value.clusters ==> r == Fail(ClusterExists(name))
    ensures config.Some? && name != "" && name !in config.value.clusters && name in config.value.authInfos ==>
      r == Fail(UserExists(name))
    ensures (config.Some? && name != "" && name !in config.value.clusters && name !in config.value.authInfos
             && name in config.value.contexts) ==> r == Fail(ContextExists(name))
  {
    if config.None? then Fail(NilConfig)
    else if name == "" then Fail(EmptyName)
    else if name in config.value.clusters then Fail(ClusterExists(name))
    else if name in config.value.authInfos then Fail(UserExists(name))
    else if name in config.value.contexts then Fail(ContextExists(name))
    else Pass
  }

  /**
    `ValidateClusterAccess`: empty arguments are rejected before the cluster is asked;
    otherwise the probe's answer decides.
   */
  function ValidateClusterAccess(server: string, token: string, reachable: (string, string) -> bool): (r: Outcome)
    ensures r.Pass? <==> server != "" && token != "" && reachable(server, token)
    ensures server == "" ==> r == Fail(EmptyServer)
    ensures server != "" && token == "" ==> r == Fail(EmptyToken)
  {
    if server == "" then Fail(EmptyServer)
    else if token == "" then Fail(EmptyToken)
    else if !reachable(server, token) then Fail(Unreachable(server))
    else Pass
  }
}
