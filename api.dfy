/**
  The kubeconfig document (client-go's `api.Config`) restricted to the fields the
  engine reads or writes, and the `Config` object the commands mutate in place.
 */
module Api {
  import opened Wrappers

  newtype byte = x: int | 0 <= x < 256

  /** A cluster entry: its API server address and whether TLS verification is skipped. */
  datatype Cluster = Cluster(server: string, insecureSkipTlsVerify: bool)

  /**
    A user entry: its bearer token and the two client-certificate fields that mark it
    certificate-based (`ClientCertificate` is a file name, `ClientCertificateData` a
    possibly nil byte slice).
   */
  datatype AuthInfo = AuthInfo(token: string, clientCertificate: string, clientCertificateData: Option<seq<byte>>)

  /** A context entry: the names of the cluster and of the user it binds. */
  datatype Context = Context(cluster: string, authInfo: string)

  /** The three name-keyed maps and the current context name ("" when unset). */
  datatype Document = Document(
    clusters: map<string, Cluster>,
    authInfos: map<string, AuthInfo>,
    contexts: map<string, Context>,
    currentContext: string)

  /** `api.NewConfig()`. */
  const EmptyDocument: Document := Document(map[], map[], map[], "")

  /** A proposed context passed from merge and sub-cluster discovery to creation. */
  datatype ContextConfig = ContextConfig(name: string, server: string, token: string)

  /** An `*api.Config` held in memory while a command edits it. */
  class Config {
    var clusters: map<string, Cluster>
    var authInfos: map<string, AuthInfo>
    var contexts: map<string, Context>
    var currentContext: string

    constructor (d: Document)
      ensures Doc() == d
    {
      clusters := d.clusters;
      authInfos := d.authInfos;
      contexts := d.contexts;
      currentContext := d.currentContext;
    }

    /** The document this object currently holds. */
    function Doc(): Document
      reads this
    {
      Document(clusters, authInfos, contexts, currentContext)
    }
  }
}
