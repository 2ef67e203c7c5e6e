# goproxie, modelled in Dafny

goproxie is a command-line tool and web console that opens Kubernetes
port-forwards and Cloud SQL proxies, and remembers them in a command history.
This project models its logic in Dafny and proves properties of it. The I/O is
replaced by parameters: the output of `kubectl` and `gcloud`, the instances the
SQL Admin API lists, whether a listener could be opened, and the contents of
the configuration file.

- The listener reconciler of the Cloud SQL proxy (`watchInstancesLoop` and
  `WatchInstances`). It appears twice, in `internal/sqlproxy/proxy.go` and in
  `internal/sqlproxy/sqlproxy.go`. The two copies are the same code, line for
  line, six lines apart. It is modelled once, in `sqlproxy.dfy`, and cited
  from `proxy.go`. Listeners are handles `Listener(id)` taken from a counter.
  Opening one is an oracle `listenOk`. Closing them is recorded in the
  sequences that the methods return.
- The Cloud SQL instance classification and listing (`cloudsql.dfy`).
- The history store: `deduplicate` and `AppendHistoryCommand` (`fsconfig.dfy`),
  the capped `Append` of the key-value store (`store.dfy`), and the history
  records with their parser (`history.dfy`).
- The parsers of `kubectl` and `gcloud` output, and the command lines built for
  them (`kubectl.dfy`, `gcloudcli.dfy`).
- The project cache (`gcloudprojects.dfy`), the option filter
  (`filterstrings.dfy`), and the web console's table of running history
  commands (`webuistate.dfy`).
- Go's `strings.Fields`, `Split`, `Join`, `Contains`, `ToLower` and `ReplaceAll`
  are modelled in `gostrings.dfy`. Go's 64-bit `int`, `%v`/`Itoa` and `Atoi` are
  modelled in `gostrconv.dfy`.

## Model

| member | source | states |
|---|---|---|
| SqlProxy.CloseAll | internal/sqlproxy/proxy.go:108-111 | the keys are gone through in some order, each key of the map exactly once, and the listener of each is closed; nothing else is closed |
| SqlProxy.UpdateStep | internal/sqlproxy/proxy.go:78-113 | one update: the new dynamic map, the open attempts and the handle counter are those of `Reconcile` over the list; the listeners closed are exactly the old dynamic entries not claimed by the list (`Vanished`) |
| SqlProxy.ReconcileUnclaimed | internal/sqlproxy/proxy.go:82-111 | the dynamic entries left unclaimed after the pass are exactly those whose instance is not in the list or is static |
| SqlProxy.ReconcileKeys | internal/sqlproxy/proxy.go:81-103 | the new dynamic map only has desired, non-static instances |
| SqlProxy.ReconcileCarries | internal/sqlproxy/proxy.go:91-95 | a desired, non-static instance that was dynamic stays open |
| SqlProxy.ReconcileHandles | internal/sqlproxy/proxy.go:91-102 | every handle kept is the one the dynamic map had, or a fresh one opened in this step; at most one handle per attempt |
| SqlProxy.ReconcileKeepsHandles | internal/sqlproxy/proxy.go:91-95 | with each instance listed once, a carried instance keeps its very handle |
| SqlProxy.ReconcileOpens | internal/sqlproxy/proxy.go:97-102 | a desired instance in neither map is open afterwards iff one of its listeners could be opened |
| SqlProxy.ReconcileAttempts | internal/sqlproxy/proxy.go:87-101 | each open attempt is for a listed, non-static instance; with each instance listed once, the attempts are exactly the new configurations, in order |
| SqlProxy.AllStaticStep | internal/sqlproxy/proxy.go:79-113 | because the loop always uses `cfgs`, and every cfg is static, a step from an empty dynamic map opens nothing, closes nothing and keeps it empty |
| SqlProxy.Shutdown | internal/sqlproxy/proxy.go:116-125 | the listener of every static key is closed, then that of every dynamic key, each key once |
| SqlProxy.WatchInstancesLoop | internal/sqlproxy/proxy.go:76-126 | over any number of updates the dynamic keys stay desired and non-static; shutdown closes all static and dynamic listeners; when every cfg is static, no step closes anything, the dynamic map stays empty and no handle is used |
| SqlProxy.WatchInstances | internal/sqlproxy/proxy.go:132-151 | it starts iff every listener opens; then it holds one static listener per instance and starts the loop iff there is an update channel; otherwise it fails at the first failed open and leaves the earlier listeners open |
| SqlProxy.FirstFailure | internal/sqlproxy/proxy.go:139-143 | the index of the first configuration whose listener fails, or the length when none fails |
| SqlProxy.FirstFailureAt | internal/sqlproxy/proxy.go:139-143 | an index before which everything opens and at which opening fails is the first failure |
| SqlProxy.CreateProxyConfigs | internal/sqlproxy/proxy.go:159-161 | one tcp configuration named by the connection name, on `0.0.0.0:<port>`, whose port reads back as the local port |
| SqlProxy.GetInstanceConfigs | internal/sqlproxy/sqlproxy.go:163-165 | one configuration `<name>=tcp:3306`, network tcp, address `127.0.0.1:3306` |
| CloudSql.DefaultPortOfType | internal/sqlproxy/cloudsql.go:54-65 | the default port is non-zero iff the type is POSTGRES, MYSQL or SQLSERVER, and the three ports differ |
| CloudSql.SqlInstanceTypeCases | internal/sqlproxy/cloudsql.go:67-78 | UNKNOWN iff the version mentions none of the three names, iff the default port is 0; POSTGRES wins over the others; MYSQL only when SQLSERVER is not mentioned |
| CloudSql.PostgresVersion | internal/sqlproxy/cloudsql.go:67-78 | a version starting with POSTGRES (as `POSTGRES_13`) is POSTGRES, port 5432 |
| CloudSql.MySqlVersion | internal/sqlproxy/cloudsql.go:67-78 | a version starting with MYSQL and otherwise free of 'P' and 'E' (as `MYSQL_5_7`) is MYSQL, port 3306 |
| CloudSql.SqlServerVersion | internal/sqlproxy/cloudsql.go:67-78 | a version starting with SQLSERVER and otherwise free of 'P' (as `SQLSERVER_2017_STANDARD`) is SQLSERVER, port 1433 |
| CloudSql.ConnectionNameParts | internal/sqlproxy/cloudsql.go:107-109 | the connection name splits on ':' into project, region and name; the default port is that of the type |
| CloudSql.SecondGenMembers | internal/sqlproxy/cloudsql.go:104-110 | an instance is emitted iff it is SECOND_GEN, described by its connection name, type and port |
| CloudSql.CollectedMembers | internal/sqlproxy/cloudsql.go:100-127 | the collected instances are exactly the emitted instances of the listed projects |
| CloudSql.GetInstancesList | internal/sqlproxy/cloudsql.go:81-132 | the result, including the client-creation error passed on, is `InstancesList` |
| CloudSql.InstancesListOutcome | internal/sqlproxy/cloudsql.go:84-131 | no projects gives an empty success; otherwise a client-creation error is returned as it is, and the result is an error iff the client failed or no project has a SECOND_GEN instance; a success holds exactly the emitted instances |
| FsConfig.Deduplicate | internal/fsconfig/fsconfig.go:114-125 | the map loop computes `Dedup` |
| FsConfig.DedupSubsequence | internal/fsconfig/fsconfig.go:114-125 | the output is a subsequence of the input, so never longer |
| FsConfig.DedupSameStrings | internal/fsconfig/fsconfig.go:114-125 | the output holds exactly the strings of the input |
| FsConfig.DedupNoRepeats | internal/fsconfig/fsconfig.go:118-123 | no non-empty string occurs twice in the output |
| FsConfig.DedupKeepsEmpty | internal/fsconfig/fsconfig.go:119-122 | every `""` of the input survives |
| FsConfig.DedupOfNoRepeats | internal/fsconfig/fsconfig.go:114-125 | a list without repeats is returned unchanged |
| FsConfig.DedupIdempotent | internal/fsconfig/fsconfig.go:114-125 | deduplicating twice is deduplicating once |
| FsConfig.AppendHistoryCommand | internal/fsconfig/fsconfig.go:104-112 | the stored history is `Dedup(old ++ [command])`; the truncation is lost |
| FsConfig.AppendPresent | internal/fsconfig/fsconfig.go:106-110 | appending a present non-empty command leaves a repeat-free history unchanged |
| FsConfig.AppendNew | internal/fsconfig/fsconfig.go:106-110 | appending a new command to a repeat-free history puts it last, one longer |
| FsConfig.HistoryExceedsCap | internal/fsconfig/fsconfig.go:107-110 | 100 distinct commands and a new one are stored as 101 |
| FsConfig.UncappedExample | internal/fsconfig/fsconfig.go:107-110 | a concrete 100-command history grows to 101 |
| FsConfig.EmptyHoleExample | internal/fsconfig/fsconfig.go:119-122 | `["", "x", "", "x"]` deduplicates to `["", "x", ""]` |
| FsConfig.KeepLast | internal/fsconfig/fsconfig.go:107-108 | the last 100 commands, or all of them when there are fewer |
| FsConfig.AppendHistoryCommandCapped | internal/fsconfig/fsconfig.go:104-112 | the corrected append deduplicates strictly, then keeps the last 100 commands |
| FsConfig.CappedHistoryBounded | internal/fsconfig/fsconfig.go:104-112 | the corrected history holds at most 100 commands, no repeats and nothing new but the command; a new command ends up last; a repeated one leaves a history of at most 100 distinct commands unchanged |
| FsConfig.DedupStrictOfDistinct | internal/fsconfig/fsconfig.go:114-125 | the corrected deduplication leaves a list without repeats unchanged |
| FsConfig.DeduplicateStrict | internal/fsconfig/fsconfig.go:114-125 | the corrected loop, with a set of the strings seen, computes `DedupStrict` |
| FsConfig.DedupStrictDistinct | internal/fsconfig/fsconfig.go:114-125 | the corrected deduplication keeps every string of the input exactly once, `""` included |
| FsConfig.Initialize | internal/fsconfig/fsconfig.go:127-132 | an empty configuration is written only when there is no file |
| Store.Appended | internal/store/store.go:66-73 | the new list has length min(old + 1, 100), ends with the value and is a suffix of old ++ [value] |
| Store.AppendedOfLast | internal/store/store.go:70-73 | appending to the last 100 entries keeps the last 100 of everything |
| Store.AppendedAllKeepsLast | internal/store/store.go:62-73 | FIFO: after any run of appends the list is the last 100 values, oldest first |
| Store.Store.Set | internal/store/store.go:52-55 | Get of the key returns the value; every other key keeps its value |
| Store.Store.Append | internal/store/store.go:65-75 | an unset key gets `[value]`, a list gets `Appended`; a non-list value is outside the precondition, as the type assertion panics |
| Kubectl.Cli.SetKubectlPath | internal/kubectl/cli.go:19-21 | later kubectl command lines start with the new path |
| Kubectl.NamespacesList | internal/kubectl/cli.go:32-34 | the namespaces are non-empty, space-free fields of the output |
| Kubectl.NamespacesOfLines | internal/kubectl/cli.go:32-34 | namespaces printed one per line are read back in order |
| Kubectl.NamespacesOfTestOutput | internal/kubectl/cli_test.go:27-44 | the package test's output gives its three namespaces in order |
| Kubectl.PodsList | internal/kubectl/cli.go:37-59 | the nested loops compute `Pods`: lines with fewer than 3 fields are skipped, others give one pod each, in order |
| Kubectl.PodLineRoundTrip | internal/kubectl/cli.go:42-57 | a printed pod line parses back to the same pod |
| Kubectl.ContainersColumn | internal/kubectl/cli.go:47 | the containers column splits on ',' into the containers |
| Kubectl.ParsePortsOfColumn | internal/kubectl/cli.go:48-55 | the ports column reads back as the ports |
| Kubectl.ParsePortsOfItoa | internal/kubectl/cli.go:50-55 | formatted ports are all kept by Atoi, in order |
| Kubectl.NoPorts | internal/kubectl/cli.go:48-55 | `<none>` gives no ports |
| Kubectl.ThreeColumnLine | internal/kubectl/cli.go:44-56 | a line of exactly three fields is outside PodsList's precondition, as it reads field 3 |
| Kubectl.PortForwardArgs | internal/kubectl/cli.go:64 | seven arguments: port-forward, pod, `L:R`, --namespace, ns, --address, 0.0.0.0; `L:R` splits back into the two ports |
| Kubectl.PortsSplit | internal/kubectl/cli.go:64 | `L:R` splits on ':' into two numbers that Atoi reads back |
| GcloudCli.Cli.SetGcloudPath | internal/gcloud/cli.go:12-14 | later gcloud command lines start with the new path |
| GcloudCli.ProjectsList | internal/gcloud/cli.go:16-22 | the project IDs are non-empty, space-free fields of the output |
| GcloudCli.ContainerClustersList | internal/gcloud/cli.go:29-44 | the loop computes `Clusters` over the lines |
| GcloudCli.ClustersOfLines | internal/gcloud/cli.go:34-41 | clusters printed one per line read back as the same clusters, in order |
| GcloudCli.ClustersAppend | internal/gcloud/cli.go:36-41 | the clusters of two runs of lines are those of each run, in order |
| GcloudCli.ClustersIgnoreEmptyLine | internal/gcloud/cli.go:38 | the trailing empty line gives no cluster |
| GcloudCli.ClustersOfTestOutput | internal/gcloud/cli_test.go:45-63 | the package test's output gives its one cluster |
| GcloudCli.GetClusterCredentialsArgs | internal/gcloud/cli.go:47 | eight arguments in the order of the source |
| GcloudCli.CredentialsFlags | internal/gcloud/cli.go:47 | the --project and --zone flags read back as the project and the location |
| GcloudProjects.ProjectMetadata.WarmupCache | internal/gcloud/projects.go:20-45 | nothing changes when the cache is filled or a warm-up is running; otherwise the cache holds one project per row, in order, from columns 0-2, and the flag is cleared |
| GcloudProjects.ProjectMetadata.GetProjectById | internal/gcloud/projects.go:47-55 | a cold cache gives nil; otherwise the lookup over the cache |
| GcloudProjects.FindProjectFirst | internal/gcloud/projects.go:49-54 | the lookup returns the first project with the ID, and nil iff none has it |
| GcloudProjects.WarmedLookup | internal/gcloud/projects.go:33-54 | after a warm-up, an ID gives the project of the first row with that ID |
| History.StorePodProxy | internal/history/history.go:26-30 | the stored history is `Dedup(old ++ [record])` of the as-written append: the record is in it, and so is every earlier command and nothing else; no cap applies |
| History.StoreCloudSqlProxy | internal/history/history.go:33-36 | the stored history is `Dedup(old ++ [record])` of the as-written append: the record is in it, and so is every earlier command and nothing else; no cap applies |
| History.ApplyTokens | internal/history/history.go:60-82 | the flags never change the ID or the raw string |
| History.Parse | internal/history/history.go:55-59 | ID is the raw string without its ASCII spaces (other white space stays), Raw is the raw string |
| History.ParseRaw | internal/history/history.go:55-84 | the token loop computes `Parse` |
| History.List | internal/history/history.go:86-95 | one parsed item per stored command, in order |
| History.LastValueWins | internal/history/history.go:60-82 | a repeated text flag keeps its last value; a missing one leaves the field empty |
| History.LastPortWins | internal/history/history.go:71-74 | a repeated port flag keeps the Atoi value of its last text |
| History.NonNumericPort | internal/history/history.go:71-74 | a port value Atoi rejects as a syntax error (no digits after the sign, or a non-digit among them before 64 bits overflow) reads as 0 |
| GoStrconv.AtoiSyntaxError | internal/history/history.go:72 | Atoi gives 0 with an error for `""`, a lone sign, and a non-digit met before the digits outgrow 64 bits |
| History.ValueStopsAtEquals | internal/history/history.go:61-63 | a value holding '=' is cut at it |
| History.CloudSqlRoundTrip | internal/history/history.go:34-84 | a Cloud SQL record of plain values parses to its project, connection name and port, type "sql", remote port 0 |
| History.PodRoundTrip | internal/history/history.go:28-84 | a pod record parses to project, cluster, namespace, app label and port, type "pod", remote port 0 |
| FilterStrings.FilterStrings | internal/util/filterstrings.go:8-24 | an empty filter gives the options unchanged; otherwise the matching options, with their multiplicities, shortest first, each containing the filter case-insensitively |
| FilterStrings.SortByLength | internal/util/filterstrings.go:22-36 | the array ends sorted by byte length and is a permutation of what it was; no order among equal lengths |
| FilterStrings.Swap | internal/util/filterstrings.go:31-33 | two entries exchanged, the multiset kept |
| FilterStrings.MatchingCount | internal/util/filterstrings.go:17-21 | an option occurs among the matches as often as among the options when it matches, otherwise never |
| FilterStrings.MatchingMembers | internal/util/filterstrings.go:17-21 | the matches are exactly the options that match |
| WebUiState.UIState.constructor | internal/web-ui/state.go:38-43 | both maps start empty |
| WebUiState.UIState.StartHistoryCommandWithRaw | internal/web-ui/state.go:16-17 | the command is marked active at once, with no handle yet; nothing else changes |
| WebUiState.UIState.RecordSpawned | internal/web-ui/state.go:18-23 | the deferred step stores the handle under the command; nothing else changes |
| WebUiState.UIState.StopHistoryCommandWithRaw | internal/web-ui/state.go:27-34 | the command is marked inactive; its handle, if any, is called and kept; nothing else changes |
| WebUiState.StopTwice | internal/web-ui/state.go:27-34 | a second stop calls the same handle again |
| WebUiState.StartThenStop | internal/web-ui/state.go:16-34 | start, spawn and stop leave the command inactive with its handle called once |
| GoStrconv.AtoiOfItoa | internal/history/history.go:72 | Atoi reads back every int that `%v` formats |

## Left out

- The listener accept loop, keep-alive and `net.Listen` (`listenInstance`). Opening a listener is the oracle `listenOk`, and each open takes a fresh handle from a counter. The oracle is a function of the configuration alone: a configuration listed twice in one update is modelled as opening twice when it opens once, whereas a second `net.Listen` on an address still bound would fail. Addresses and ports held by other listeners are not modelled.
- Closing order within a map is Go's random map order. `CloseAll` picks the keys in an arbitrary order and returns that order. Close errors and logging are not modelled.
- The goroutine and channel of `watchInstancesLoop` are modelled as a sequence of updates. The contents of an update are ignored, as in the source.
- `CreateProxy` and `GetInstance` are modelled only up to the configurations they build. The HTTP and OAuth clients, `proxyClient.Run` and the signal handling are foreign calls. In `CreateProxy`, the `updates` channel is never fed, so the loop only shuts down.
- `GetInstancesList`: the SQL Admin API paging, and the WaitGroup and channel fan-in. The instances each project's listing delivers are an input, and a listing error is only logged, so it shows as the instances delivered before it. The error of `sqladmin.New` is the input `clientErr`. Results are collected project by project; the source's interleaving across projects is not modelled.
- `ProjectsListAllInfo` is not part of this model. Its rows are an input to `WarmupCache`. The locks, the background warm-up started by `GetProjectById` and the unlocked read are not modelled; each operation runs on its own.
- `ExecHistoryItem`, `Browse`, `ListRaw` and the web console's server, WebSocket and page code. They are processes, prompts and presentation. `state.go` stores a `*SpawnedHistoryCommand` in a map of cancel functions; the handle is modelled as an opaque value.
- Reading, writing and backing up the configuration file, viper persistence, and the config path helpers. The configuration is a value passed in and out, and a missing file is `None`.
- FilterStrings.SortByLength: `sort.Sort`'s own algorithm is replaced by an exchange sort with the same contract: sorted by `byLength.Less` and a permutation. No order of equal-length strings is promised, as `sort.Sort` is not stable.
- FilterStrings.FilterStrings: case folding is ASCII only; Go's `strings.ToLower` folds all of Unicode.
- Kubectl.PodsList: the precondition excludes lines of exactly three fields, on which the source indexes out of range. The three mock lines of `internal/kubectl/cli_test.go:8-10` are such lines, so that test would panic. The test also expects `[0]` for `<none>`, while the code gives `[]`; the model follows the code.
- History.ParseRaw: the precondition excludes tokens without '=', on which the source indexes out of range.
- Store.Store.Append: the precondition excludes a key holding a non-list value, on which the type assertion panics.
- The gcloud test file calls `runCommand`, which `internal/gcloud/cli.go` does not define, so it does not compile. Its `TestProjectsList` also fails unconditionally. The history test calls `extractPodBaseName`, which does not exist, and is skipped.
- `proxy.go` and `sqlproxy.go` declare the same identifiers in one package, so they do not compile together. The reconciler is modelled once.
- `internal/util/commands.go`, `availableports.go`, `internal/version`, `main.go` and `main_test.go`: exec, OS port probing, version strings and interactive prompts.

## Findings

| source | as written | input that shows it | evidently intended | confidence | as-written member | corrected member |
|---|---|---|---|---|---|---|
| internal/fsconfig/fsconfig.go:107-110 | the truncated list is assigned, then overwritten by `deduplicate(commands)` of the full list | a history of 100 distinct commands and one new command is stored with 101 entries | keep at most the last 100 commands | not executed | FsConfig.HistoryExceedsCap | FsConfig.CappedHistoryBounded |
| internal/fsconfig/fsconfig.go:119-122 | the seen-marker of `""` is `""`, the map's zero value, so `""` always looks unseen | `["", "x", "", "x"]` deduplicates to `["", "x", ""]` | each string kept once | not executed | FsConfig.EmptyHoleExample | FsConfig.DedupStrictDistinct |
