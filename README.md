# kontext kubeconfig engine in Dafny

This project models the kubeconfig reconciliation engine of `kontext`, a command-line
tool that adds, merges, lists, deletes and cleans entries of a Kubernetes client
configuration. A kubeconfig document holds three maps keyed by name: clusters (a
server address and an insecure-TLS flag), users (`AuthInfos`: a bearer token and the
client-certificate fields) and contexts (a cluster name and a user name). It also
holds the current-context name.

The model covers:

- **Creation** (`Core.NewContext`): a three-way name-conflict check (`Common.CheckNameConflicts`),
  then a cluster, a user and a context all under the new name, which becomes current.
- **Orphan reconciliation** (`Integrity.RemoveOrphans`, `Core.CleanContext`): every cluster
  and user that no context refers to is removed.
- **Delete** (`DeleteCmd`): selection by exact name or `*` pattern, then backup, deletion,
  reset of the current context and orphan removal.
- **Clean** (`CleanCmd`): a context is invalid when its cluster or user is missing or its
  server is not reachable. Then come the reset decision, the backup decision, removal,
  orphan removal and the write decision.
- **List** (`ListCmd`): the report as a value: sorted context lines with their missing
  markers, and sorted orphan lists.
- **Merge** (`MergeCmd`): import of the token-based contexts of another kubeconfig under
  prefixed names. The whole batch aborts when any imported name is already a context.
- **Add** (`AddCmd`): the requested context plus its discovered sub-clusters, created one
  by one and counted.
- **Sub-cluster discovery** (`ScanCmd`): derived names and servers, with "global" skipped.
- **Backups** (`Backup`): the backup file name, and retention of the five newest
  `<base>.backup-*` files.
- **Command-line validators** (`Cli`).

The document is a value (`Api.Document`). The in-memory `*api.Config` that a command
edits in place is the class `Api.Config`. The file on disk is the class
`Persistence.Store`. The store holds the saved document, a write counter, the log of
backup files written and the directory listing that backup retention reads and prunes.
A store's I/O failures are constant flags on the store (readable, writable, backup
writable, undeletable paths). The live cluster API is `Common.Remote`. It has two
oracles: `reachable(server, token)` stands for the namespace listing, and
`discover(server, token)` stands for sub-cluster discovery. The clock is a `timestamp`
parameter. Go's map iteration order is a nondeterministic choice (`:|`). Results built
in map order are stated as multisets. For merge, the order taken is returned as a
ghost value, because the outcome depends on it.

Behaviours of the code that the model keeps, and that a reader might not expect:

- A delete pattern is a wildcard when it contains `*` anywhere, and its prefix is the
  pattern with every `*` removed. It is not only a trailing `prefix*`
  (`cmd/cmd_delete.go:27-32`). For a trailing star the two agree
  (`DeleteCmd.TrailingStarSelectsPrefix`).
- A backup failure aborts delete and clean before anything changes
  (`cmd/cmd_delete.go:62-65`, `cmd/cmd_clean.go:51-54`). Only a failure of backup
  retention is non-fatal (`cmd/backup.go:48-51`).
- Delete and clean save with `clientcmd.WriteToFile`, which is not the atomic
  temp-file-and-rename write that creation uses (`cmd/cmd_delete.go:97`,
  `cmd/cmd_clean.go:86`). `Persistence.Store.WriteToFile` promises nothing about the
  file after a failed write.
- Delete always writes once after a successful selection, because a selection is never
  empty (`cmd/cmd_delete.go:96`).
- Clean takes a backup only when it removes contexts or resets the current context. A
  clean that removes only orphans writes without a backup (`cmd/cmd_clean.go:50`,
  `cmd/cmd_clean.go:85`).
- In clean, a context whose server or token is empty is invalid, because the
  reachability check rejects empty arguments (`cmd/cmd_clean.go:35`,
  `cmd/common.go:61-66`).
- A scan error aborts the whole add (`cmd/cmd_add.go:39-42`). In merge, the same error
  drops that imported context, primary included, and the merge continues
  (`cmd/cmd_merge.go:100-104`).
- The backup timestamp has the form `YYYYMMDD-HHMMSS`, with a dash
  (`cmd/backup.go:41`). `Timestamps.LessEqIsNumericOrder` proves that name order on such
  strings is still chronological.
- The "(corrupted)" branch of the list command cannot be reached
  (`cmd/cmd_list.go:83-87`). Every orphan cluster name is a key of the cluster map, and
  `ListCmd.DescribesOrphans` states the server of each one.

## Model

| member | source | states |
|---|---|---|
| Common.CheckNameConflicts | cmd/common.go:93-116 | fails exactly for a nil config, an empty name, or a name already used as a cluster, a user or a context; the error names the first map that has it; the document is a value and is not changed |
| Common.ValidateClusterAccess | cmd/common.go:57-90 | passes exactly when server and token are non-empty and the cluster answers; empty server, then empty token, are rejected before the cluster is asked |
| Persistence.Store.GetKubeConfig | cmd/common.go:18-53 | loading succeeds exactly when the store is readable; on success a fresh config holding the saved document, otherwise no config and a load error |
| Persistence.Store.SafeWriteConfig | cmd/core.go:113-134 | atomic write: on success the saved document is the config's and one write is counted; on failure the saved document is unchanged |
| Persistence.Store.WriteToFile | cmd/cmd_delete.go:97-99 | non-atomic write: on success the saved document is the config's; on failure nothing is promised about it |
| Core.NewContextOutcome | cmd/core.go:14-66 | creation succeeds exactly when the three arguments are non-empty, the file loads and writes, and the name is in none of the three maps; the argument errors come first, then the load error, then the conflict (naming the first map that has the name), and only then the write failure |
| Core.NewContext | cmd/core.go:14-66 | returns that outcome; on success the store holds the document with the cluster (server, TLS check skipped), the token user and the context under `name`, made current, in one write; on any failure the store is unchanged and not written |
| Core.CreatedAddsFresh | cmd/core.go:39-58 | a creation that passed the conflict check adds one entry to each map and keeps every other entry's value |
| Core.CreatedKeepsIntegrity | cmd/core.go:39-58 | creation keeps every reference resolvable, adds no orphan, and leaves the current context naming an existing context |
| Core.CleanContext | cmd/core.go:70-110 | the config becomes the document with its orphans removed; the returned lists hold each unreferenced cluster and user exactly once; never fails |
| Core.CollectReferences | cmd/core.go:78-82 | the two collected sets are exactly the cluster and user names the contexts refer to |
| Core.Unused | cmd/core.go:90-99 | the collected names are exactly the unreferenced keys, each once |
| Core.CreateContexts | cmd/cmd_add.go:53-60 | one `NewContext` per proposed context in order, each failure counted out; the store ends as the in-order creation of the batch, with one write per context created |
| Core.CreateAllAppend | cmd/cmd_merge.go:93-121 | creating two batches one after the other is creating their concatenation; the counts add up |
| Core.CreateAllPreserves | cmd/cmd_add.go:53-60 | a batch adds at most one context per item, overwrites no entry, keeps references resolvable, adds no orphans, and changes nothing when the file cannot be written |
| Core.CreateAllCurrent | cmd/core.go:58 | after a batch with a success the current context is the name of a created item after which no item adds a context, that is the last one created; when none was created the document is unchanged |
| Core.CurrentAfterFailure | cmd/core.go:58-63 | a creation that fails leaves the current context at the last one created before it |
| Core.CreateAllNames | cmd/cmd_add.go:53-60 | every context after a batch existed before or is named by an item of the batch |
| Integrity.RemoveOrphansSpec | cmd/core.go:79-107 | reconciliation keeps exactly the referenced clusters and users with their values, leaves contexts and the current context alone, and leaves no orphan |
| Integrity.RemoveOrphansIdempotent | cmd/core.go:79-107 | a second reconciliation finds no orphan and changes nothing |
| Integrity.RemoveOrphansUnchangedIff | cmd/core.go:84-107 | reconciliation changes the document exactly when it has an orphan |
| Integrity.RemoveOrphansKeepsIntegrity | cmd/core.go:101-107 | reconciliation keeps every context's references resolvable and the current context valid |
| Strings.SortStrings | cmd/cmd_list.go:41 | the result is sorted and a permutation of the input |
| Strings.SortedUnique | cmd/cmd_list.go:37-43 | two sorted permutations of the same names are equal, so the sorted output does not depend on map order |
| Strings.LessEqTotal | cmd/backup.go:76 | the byte-wise string order used for sorting is total (with reflexivity, antisymmetry and transitivity proved beside it) |
| Strings.Contains | cmd/cmd_clean.go:110-117 | true exactly when the value occurs in the slice |
| Strings.RemoveChar | cmd/cmd_delete.go:32 | the result holds every character of the pattern except the removed one, and no other |
| Strings.RemoveTrailingChar | cmd/cmd_delete.go:27-32 | removing every `*` from `prefix*`, where the prefix has no star, gives back the prefix |
| Strings.TrimLeftChar | cmd/scan.go:124 | the result is a suffix of the input and does not start with the trimmed character |
| Strings.Utf8LenBounds | main.go:156 | Go's byte length of a string lies between its character count and four times that |
| Timestamps.LessEqIsNumericOrder | cmd/backup.go:75-76 | for two strings of the same digit-and-dash shape, name order is the order of the numbers their digits spell |
| Timestamps.TimestampOrderIsChronological | cmd/backup.go:41 | two `YYYYMMDD-HHMMSS` timestamps sort by name exactly as they sort in time |
| Backup.CandidatesAreBackups | cmd/backup.go:66-73 | the candidates are exactly the joined paths of the non-directory entries whose name starts with `<base>.backup-` |
| Backup.SelectBackups | cmd/backup.go:66-73 | the filtering loop produces those candidates in listing order |
| Backup.RetentionSplit | cmd/backup.go:75-86 | the sorted candidates split into the expired ones and the kept ones; at most five are kept (all when five or fewer), exactly `n-5` expire otherwise, and every expired one sorts before every kept one |
| Backup.ExpiredAreCandidates | cmd/backup.go:79-80 | every expired path is one of the candidates |
| Backup.JoinKeepsOrder | cmd/backup.go:71-76 | sorting the joined paths sorts the file names |
| Backup.BackupOrderIsChronological | cmd/backup.go:41 | backup paths of one kubeconfig sort by name exactly as their timestamps sort in time |
| Backup.FirstBlocked | cmd/backup.go:80-83 | the index of the first path that cannot be removed: all before it can be, it cannot |
| Backup.UnlinkSpec | cmd/backup.go:81 | removing a path removes exactly the entries at that path |
| Backup.UnlinkAllSpec | cmd/backup.go:80-83 | removing several paths removes exactly the entries at those paths |
| Backup.JoinInjective | cmd/backup.go:71 | different non-empty names in the backup directory have different paths |
| Backup.NonBackupNotCandidate | cmd/backup.go:70 | an entry that is a directory or lacks the backup prefix is never a candidate |
| Backup.AfterRetentionSpec | cmd/backup.go:57-89 | retention only removes entries, never removes one that is not a backup of this kubeconfig, and on success leaves no expired backup |
| Backup.RemoveOldBackups | cmd/backup.go:79-86 | removes the expired paths in order up to the first one that cannot be removed, and fails naming that path |
| Backup.CleanupOldBackups | cmd/backup.go:57-89 | the directory becomes the retained listing; succeeds exactly when every expired backup can be removed; the document is untouched |
| Backup.AddFile | cmd/backup.go:42 | writing a file adds its entry and keeps every other entry |
| Backup.BackupKubeConfig | cmd/backup.go:17-54 | rejects a nil config, then an empty path; a failed write returns no path and changes nothing; on success the snapshot is logged under `<path>.backup-<timestamp>` and retention runs, and a retention failure does not fail the backup |
| DeleteCmd.Selection | cmd/cmd_delete.go:15-49 | empty pattern rejected; a starless pattern selects itself when it is a context and fails otherwise; a starred pattern with an empty prefix is rejected; otherwise it selects exactly the contexts starting with the prefix, and selecting none is an error |
| DeleteCmd.TrailingStarSelectsPrefix | cmd/cmd_delete.go:27-43 | `prefix*` selects exactly the contexts whose name starts with the prefix |
| DeleteCmd.AfterDeleteSpec | cmd/cmd_delete.go:68-85 | after deletion exactly the unselected contexts remain, unchanged; the current context is cleared exactly when it was selected; no orphans remain; integrity is kept |
| DeleteCmd.DeleteUndoesCreate | cmd/cmd_delete.go:68-85 | on a document with no orphans, no dangling references and no current context, deleting a context just created restores the document |
| DeleteCmd.DeleteTwiceFails | cmd/cmd_delete.go:44-47 | once a context is deleted, deleting it again by name fails with "does not exist" |
| DeleteCmd.FindMatches | cmd/cmd_delete.go:36-40 | the matching loop collects each context with the prefix exactly once |
| DeleteCmd.MatchContexts | cmd/cmd_delete.go:26-49 | matching fails exactly as the selection does, and otherwise collects the selection, each once |
| DeleteCmd.CurrentAmong | cmd/cmd_delete.go:52-57 | the reset flag is set exactly when the current context was matched |
| DeleteCmd.RemoveContexts | cmd/cmd_delete.go:70-79 | the deletion loop removes exactly the matched contexts and clears the current context exactly when it was matched |
| DeleteCmd.DeleteContext | cmd/cmd_delete.go:12-116 | the command fails as the selection, load and backup dictate; a failure before the write changes nothing; on success the backup is logged, the store holds the document with the selection deleted and orphans removed, in one write, and the summary reports the selection, the reset, and exactly the clusters and users that became orphans once the selection was deleted |
| CleanCmd.CleanedSpec | cmd/cmd_clean.go:21-71 | after clean exactly the valid contexts remain, unchanged; every reference resolves; no orphan remains; the current context is valid |
| CleanCmd.CleanedContextsValid | cmd/cmd_clean.go:21-71 | after clean no context is invalid and no reset is needed |
| CleanCmd.CleanWritesIffChanged | cmd/cmd_clean.go:84-91 | clean writes exactly when the cleaned document differs from the loaded one |
| CleanCmd.CleanIdempotent | cmd/cmd_clean.go:21-91 | a second clean finds nothing to do and writes nothing |
| CleanCmd.FindInvalidContexts | cmd/cmd_clean.go:21-38 | the phase-1 loop marks each context exactly once when its cluster or user is missing or its server is unreachable |
| CleanCmd.DropContexts | cmd/cmd_clean.go:57-62 | the removal loop deletes exactly the marked contexts and nothing else |
| CleanCmd.CurrentNeedsReset | cmd/cmd_clean.go:40-46 | the reset flag holds exactly when the current context is set and is missing or marked |
| CleanCmd.CleanDecisions | cmd/cmd_clean.go:40-68 | the flag computed by the code is the reset decision, the backup is taken exactly when contexts are marked or a reset is needed, and phase 4 yields the pruned document |
| CleanCmd.CleanWriteDecision | cmd/cmd_clean.go:84-91 | the code's write condition is exactly the write decision, and when it is false the document is already clean |
| CleanCmd.PruneAndSave | cmd/cmd_clean.go:57-91 | phases 4-6: the store ends with the cleaned document, written once exactly when something changed; the orphan lists are exactly the orphans of the pruned document |
| CleanCmd.CleanContextCmd | cmd/cmd_clean.go:12-107 | the command fails as load, backup and write dictate; a failure before the write changes nothing; a backup is logged exactly when one is needed; on success the store holds the cleaned document, written once exactly when it changed, and the summary counts match, and the reported backup path is the new backup's when one was needed and empty otherwise |
| ListCmd.ReportDeterministic | cmd/cmd_list.go:36-75 | a document has exactly one report: the sorted output does not depend on map order |
| ListCmd.ReportShowsOrphansIff | cmd/cmd_list.go:77-99 | the orphan section is printed exactly when the document has an orphan |
| ListCmd.ContextLines | cmd/cmd_list.go:43-57 | each context line carries its cluster, that cluster's server or a missing mark, its user and whether the user is missing |
| ListCmd.OrphanLines | cmd/cmd_list.go:82-88 | each unused-cluster line carries that cluster's server |
| ListCmd.CollectNames | cmd/cmd_list.go:37-40 | the collected names are the context names, each once |
| ListCmd.ContextSection | cmd/cmd_list.go:36-57 | the context lines are sorted by name, one per context, each describing its own context |
| ListCmd.OrphanSection | cmd/cmd_list.go:60-75 | the unused clusters and users are exactly the orphans, each once, sorted |
| ListCmd.BuildReport | cmd/cmd_list.go:19-99 | the report describes the document: its count, its contexts and its orphans |
| ListCmd.ListContexts | cmd/cmd_list.go:10-102 | fails exactly when the file cannot be loaded; otherwise returns the report of the saved document; changes nothing |
| ScanCmd.SubClusterServer | cmd/scan.go:112-124 | a derived server keeps `http://` when the parent has it and otherwise starts with `https://` |
| ScanCmd.AlaudaOutcome | cmd/scan.go:43-138 | discovery fails on client, discovery, list or parse failure; a group without the `clusters` resource gives no contexts and no error |
| ScanCmd.ScanOutcome | cmd/scan.go:17-39 | empty name, server, then token are rejected; a type other than "alauda" gives no contexts and no error |
| ScanCmd.ScanAlauda | cmd/scan.go:43-139 | the derivation loop returns that outcome, with one context per non-global listed cluster in listing order |
| ScanCmd.Scan | cmd/scan.go:17-39 | the guards and the dispatch return the scan outcome |
| ScanCmd.SubContextsSound | cmd/scan.go:101-131 | every derived context carries the parent's token and is `parent-item` with that item's server, for a listed non-global item |
| ScanCmd.SubContextsComplete | cmd/scan.go:101-131 | every listed non-global cluster yields its context |
| ScanCmd.SubContextsCount | cmd/scan.go:101-131 | at most one context per listed cluster, and exactly one each when none is "global" |
| ScanCmd.GlobalNeverScanned | cmd/scan.go:104-110 | no derived context is named after a cluster called "global" in any letter case |
| ScanCmd.SubServerReplacesLastSegment | cmd/scan.go:112-124 | for a clean server path, the derived server is the parent's with its last segment replaced and its scheme kept |
| ScanCmd.SubServerOfBareHost | cmd/scan.go:123-124 | a server without a path gets the cluster name in place of its host |
| AddCmd.AddBatch | cmd/cmd_add.go:13-48 | the command aborts on an empty argument, an unreachable cluster or a scan error; otherwise the batch is the requested context first, then the scanned contexts with the same token |
| AddCmd.ScannedTokens | cmd/scan.go:126-130 | every context of a successful scan carries the parent's token |
| AddCmd.ProposeContexts | cmd/cmd_add.go:13-48 | the guards, the probe and the optional scan produce that batch |
| AddCmd.AddContext | cmd/cmd_add.go:10-69 | an aborted add changes nothing; otherwise the store holds the batch created in order, one write per created context, and added plus failed is the batch length |
| AddCmd.AddCreatesRequested | cmd/cmd_add.go:29-60 | on a writable file, a requested name used nowhere ends up as a context with its cluster and token user, whatever the scanned contexts do |
| MergeCmd.FirstConflict | cmd/cmd_merge.go:82-87 | no conflict exactly when no imported name is a context; otherwise the first imported name that is one |
| MergeCmd.MergeOutcome | cmd/cmd_merge.go:20-132 | empty path, load failure and an unreadable file are rejected first; the merge succeeds exactly when no imported name is already a context, else it fails naming one that is; on success added plus failed is the batch length and the certificate count is reported |
| MergeCmd.CollectImports | cmd/cmd_merge.go:40-74 | visiting each external context once, it proposes exactly the importable ones under their generated names and collects the certificate-based ones |
| MergeCmd.CollectStep | cmd/cmd_merge.go:44-74 | visiting one more context appends its import, or its name to the certificate list, or nothing, and visits no name twice |
| MergeCmd.CollectedOnce | cmd/cmd_merge.go:44-80 | once every context is visited, the proposals are exactly the importable contexts under their generated names and the certificate count is the number of certificate-based contexts |
| MergeCmd.FindConflict | cmd/cmd_merge.go:82-87 | the conflict loop stops at the first imported name that already is a context |
| MergeCmd.ImportAll | cmd/cmd_merge.go:89-122 | each imported context, followed by its sub-clusters or skipped entirely when its scan fails, is created in order; the store ends with that batch created |
| MergeCmd.MergeContext | cmd/cmd_merge.go:20-132 | returns the merge outcome for the iteration order taken, whose failed count is the corrected one of the cmd/cmd_merge.go:128 finding below (the code's own value, always 0, is `MergeCmd.MergeOutcomeAsWritten`); a failure changes nothing; on success the store holds the batch created in order, one write per created context, and the certificate count is the number of certificate-based contexts |
| MergeCmd.MergeLoaded | cmd/cmd_merge.go:44-132 | with both files loaded: the merge outcome, nothing changed on a conflict, the batch created in order otherwise |
| MergeCmd.ImportFree | cmd/cmd_merge.go:89-132 | after a passed conflict check, the store holds the batch created in order and the summary is the successful merge outcome |
| MergeCmd.ImportsSpec | cmd/cmd_merge.go:44-74 | the proposed contexts are exactly the importable contexts, with the prefixed name, the cluster's server and the user's token |
| MergeCmd.ImportNameInjective | cmd/cmd_merge.go:60-67 | two different external contexts never get the same imported name |
| MergeCmd.CertificateNamesCount | cmd/cmd_merge.go:54-58 | each certificate-based context is collected exactly once |
| MergeCmd.CertificateCountIsSetSize | cmd/cmd_merge.go:76-80 | the skipped-certificate count is the number of certificate-based contexts of the file |
| MergeCmd.MergeProposesFreshNames | cmd/cmd_merge.go:82-87 | after the conflict check passes, no imported name is a context of the current document |
| MergeCmd.AddedContextsCount | cmd/cmd_merge.go:113-121 | the list of added contexts is exactly as long as the success count |
| MergeCmd.MergeFailedCountAsWritten | cmd/cmd_merge.go:125-128 | the failed count as written is zero on every merge |
| MergeCmd.MergeFailedCountExample | cmd/cmd_merge.go:125-128 | a merge whose one creation fails reports zero failures as written and one in the corrected outcome |
| Cli.ValidateName | main.go:152-160 | a name is accepted exactly when it is non-empty and at most 255 bytes long in UTF-8 |
| Cli.ValidateHost | main.go:163-169 | only the empty host is rejected |
| Cli.AsciiByteLength | main.go:156 | an ASCII name is as long in bytes as in characters |
| Cli.ValidateNameByCharacters | main.go:152-160 | more than 255 characters is always too long, 1 to 63 characters is always accepted, and an ASCII name is accepted exactly when it has 1 to 255 characters |
| Cli.MultiByteNameTooLong | main.go:156-158 | 128 two-byte characters (256 bytes) are too long, so the limit is on bytes and not on characters |

## Left out

- YAML parsing and serialisation (`clientcmd.Load`, `LoadFromFile`, `Write`): a document is its parsed maps, and a merged file is the document it parses to, or `None` when it cannot be loaded.
- Fields of the client-go types that the engine neither reads nor writes (extensions, certificate authorities, namespaces, preferences).
- File-system failures are constant flags of the store, not per-call events. Failures of `os.Stat`, `MkdirAll` and of serialisation are folded into "cannot load", "cannot write" or "cannot write the backup". The backup directory listing is always readable, so the path where `os.ReadDir` fails during retention (`cmd/backup.go:61-64`: retention is skipped and the backup is kept) is not modelled. A missing kubeconfig file that `GetKubeConfig` turns into an empty config is a store whose saved document is `Api.EmptyDocument`.
- Persistence.Store.WriteToFile: a failed non-atomic write is modelled as leaving the saved document unspecified, not as the particular partial file it might leave.
- The network: reachability and discovery are oracles of `Common.Remote`. Timeouts, TLS settings and the REST requests are not modelled. The parsed cluster list is the sequence of item names.
- The clock: the backup timestamp is a parameter. `Timestamps.IsTimestamp` states its shape, but the commands accept any string.
- Backup.AfterRetentionSpec: requires a directory listing of distinct non-empty names, as `os.ReadDir` returns.
- `path.Clean`: `Paths.Dir` and `Paths.Join` follow Go only for clean paths (no empty, `.` or `..` element) joined with an element that has no slash. Sub-cluster servers whose path or cluster name is not clean are derived without Go's normalisation.
- Unicode case folding: `Strings.ToLower` lower-cases ASCII letters only, where Go's `strings.ToLower` also maps other letters; it is used only to recognise the "global" cluster.
- Terminal output, colours and error texts: the commands return summary values and error kinds instead of printing.
- Cobra command wiring and flag parsing in `main.go`.
- `GetKubeConfig`'s choice of the default kubeconfig path: the path is a constant of the store.
- Concurrency between processes: each command runs alone against the store.

## Findings

| source | as written | input that shows it | evidently intended | confidence | as-written member | corrected member |
|---|---|---|---|---|---|---|
| cmd/cmd_merge.go:128 | the failed count is `len(allConfigs) - successCount`, but `allConfigs` grows only when a creation succeeds, so it is always 0 | a file `f.yaml` with one token context `a`, prefix `p`, merged into an empty kubeconfig that cannot be written: the creation of `p-a` fails and the summary reports 0 failed | the number of creations that failed, i.e. the batch length minus the number added, as the add command reports it | not executed; high | MergeCmd.MergeFailedCountExample | MergeCmd.MergeOutcome |
