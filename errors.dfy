/**
  The error kinds the commands return. Go returns a formatted `error`; the model keeps
  one constructor per distinct error return and drops the message text and the wrapping
  prefixes.
 */
module Errors {

  datatype Error =
    | EmptyName                  // a context name is ""
    | EmptyServer                // a server address is ""
    | EmptyToken                 // a token is ""
    | EmptyPattern               // delete called with ""
    | EmptyPath                  // a file path is ""
    | EmptyHost                  // the CLI host flag is ""
    | NameTooLong                // the CLI name flag is over 255 bytes
    | NilConfig                  // a nil *api.Config
    | LoadFailed                 // the kubeconfig could not be located, read or parsed
    | WriteFailed                // the kubeconfig could not be written
    | BackupFailed               // the backup file could not be written
    | RemoveFailed(path: string) // an old backup could not be removed
    | ClusterExists(name: string)
    | UserExists(name: string)
    | ContextExists(name: string)
    | Unreachable(server: string)
    | EmptyWildcardPrefix        // a wildcard pattern made only of '*'
    | NoMatch(pattern: string)   // a wildcard that matches no context
    | NoSuchContext(name: string)
    | ExternalUnreadable(path: string)
    | MergeConflict(name: string)
    | ScanClientFailed
    | ScanDiscoveryFailed
    | ScanListFailed
    | ScanParseFailed

  /** Go's `error` result: nil or an error. */
  datatype Outcome = Pass | Fail(error: Error)

  /** A value together with Go's `error` result. */
  datatype Result<+T> = Ok(value: T) | Err(error: Error)
}
