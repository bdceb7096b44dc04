# magicAgent replication-role controller, modelled in Dafny

magicAgent runs on every node of a two-node cluster. It keeps the node's
MariaDB instance in the role the cluster designation file names: master on
the node whose address is the designation's `Master`, slave of the peer
elsewhere. The model is built from these parts:

* **the designation** (`Config`): role comparison, snapshot, temporary path,
  node port, and the package-wide record that start-up and reloads install;
* **the kernel** (`Kernel`, `KernelMariadb`): the per-tick reconciler, which
  stats and reloads the designation file and enqueues a batch of services
  when the roles change. It also holds the retry queue, which keeps only
  the services whose switch failed and drops a batch after thirty minutes,
  the registry fed by service notifications, the health and readiness
  aggregates, and the role switch itself. That switch promotes, or verifies
  the peer, resynchronises from it when the saved position is older than
  three days, and demotes;
* **the MariaDB module** (`MariadbModule`, `StatusParser`): the statement
  sequences of `ToMaster`, `ToSlave`, `Restore` and `Backup`, the readers of
  the `show master status\G` and `show slave status\G` reports, and the
  `mysql` and `mariabackup` command lines;
* **the drivers**:
  * the Kubernetes driver's service cache, catalog listing, lookup guard,
    environment reading and pod command (`K8sDriver`);
  * the docker-compose driver's default service, file layout, label parser
    and command lines (`DockerDriver`);
  * the rsync command lines (`RsyncDriver`);
* **shared records** (`Common`): `ServiceInfo`, `Labels.String`, the
  cluster, master and slave status predicates, and `MasterInfo.Dump`.

Every effect the agent has is a `Call` recorded by one `Effects.Hub`. That
covers events sent to other modules, HTTP requests to the peer, Kubernetes
and docker operations, file reads and writes, and processes. The hub answers
each call from an oracle `reply(position, call)`. Each protocol is a
function `XRun(reply, position, …)` that returns the calls it makes and its
result. The method that performs it ensures that the hub's trace grows by
exactly those calls and that it returns that result. The lemmas about
`XRun` state what the source promises: step order, early exits, and which
error is returned. Clocks are `now` parameters in milliseconds. File
contents, decoded YAML and Kubernetes objects are inputs.

Integers keep the source's widths: `int32` and `int64` subset types, with
`WrapInt32`/`WrapInt64` where Go converts and truncates. `ParseInt` follows
`strconv.ParseInt`, which saturates on overflow. The source ignores that
function's error (`iVal, _ :=`), so an out-of-range decimal reads as the
bound, not as 0.

## Model

| member | source | states |
|---|---|---|
| Config.IsSameIffRolesEqual | internal/config/config.go:129-131 | two statuses are the same exactly when master and slave agree; the update time never matters |
| Config.StatusChangeIffRolesDiffer | internal/config/config.go:146-156 | when at least one side has a status, a change is reported exactly when the (master, slave) roles differ, and the relation is symmetric |
| Config.RestampIsNoChange | internal/config/config.go:129-131 | a re-stamped designation with the same master and slave is never a change, whatever its timestamps |
| Config.Dump | internal/config/config.go:158-178 | the snapshot equals the original in every field, including an absent status or data path |
| Config.TmpPathOf | internal/config/config.go:115-117 | the result is the configured path with every trailing '/' removed: a prefix, not ending in '/', followed only by '/' in the original |
| Config.TmpPathIdempotent | internal/config/config.go:115-117 | trimming the trimmed path again changes nothing |
| Config.NodePort | internal/config/config.go:63-71 | `NODEPORT` from the environment when it is set, the listen port otherwise |
| Config.PathJoinSplits | internal/config/config.go:72-87 | a join of two non-empty sides is the directory, exactly one '/', then the name, and splits back into them at that '/'; an empty side yields the other side unchanged |
| Config.Store.Init | internal/config/config.go:43-54 | start-up installs the loaded designation, or the built-in default when loading fails, and records the working directory |
| Config.Store.SetListenPort | internal/config/config.go:55-58 | sets the listen port and leaves the designation alone |
| Config.Store.Reload | internal/config/config.go:92-102 | a failed load returns nothing and keeps the current designation; a successful one installs and returns the new record |
| Common.ServiceKeyInjective | pkg/common/base.go:85-87 | `catalog:name` identifies a service's catalog and name when catalogs contain no ':' |
| Common.Pairs | pkg/common/base.go:27-38 | one `k=v` item per key, in the visiting order |
| Common.IterationOrder | pkg/common/base.go:28 | the key order of a map range visits every key exactly once |
| Common.LabelsString | pkg/common/base.go:27-38 | the loop's accumulator is the `k=v` items of the visiting order joined by ',' |
| Common.LabelsTextEmpty | pkg/common/base.go:27-38 | an empty map renders as "" |
| Common.LabelsTextSingle | pkg/common/base.go:34-35 | a single pair renders as `k=v` |
| Common.PairSplits | pkg/common/base.go:34-35 | an item splits back at '=' into its key and value |
| Common.LabelsTextRecoverable | pkg/common/base.go:28-36 | for n pairs without ',' or '=', the text splits into exactly n items, item i being the i-th visited key and its value; every pair appears once |
| Common.DistinctCard | pkg/common/base.go:28 | a visiting order has exactly as many entries as the map has keys |
| Common.IsNormalStates | pkg/common/mariadb.go:43-55 | the cluster is normal exactly for Primary, Joining, Joined, Synced, Donor and Desynced; Non-Primary, Undefined and every other string are abnormal |
| Common.MasterInfoDumpFields | internal/core/module/mariadb/pkg/mariadb.go:31-33 | the dump lists host, port, log file and position in that order, and the two numbers parse back to the values |
| Common.NoCommaInNumber | internal/core/module/mariadb/pkg/mariadb.go:31-33 | numbers in the dump contain no ',' |
| Common.MasterIsOKIff | internal/core/module/mariadb/pkg/mariadb.go:44-46 | a master status is OK exactly when its log file is non-empty and its position positive |
| Common.SlaveIsOKDisabled | internal/core/module/mariadb/pkg/mariadb.go:57-60 | a disabled slave status is always OK (and healthy) |
| Common.SlaveIsOKAsWritten | internal/core/module/mariadb/pkg/mariadb.go:62 | as written, a running slave with no lag is not OK, and a running slave that lags is |
| Common.SlaveIsOKInverted | internal/core/module/mariadb/pkg/mariadb.go:57-63 | for every enabled, running slave the written `IsOK` holds exactly when the slave lags, that is exactly when the corrected test fails |
| LagRules.HealthyAgreesWithLagRules | internal/core/module/mariadb/pkg/mariadb.go:57-63 | the corrected test (`IsHealthy`) implies both lag rules of the agent, readiness (`ServiceReady`) and the promotion guard (`Lagging`); for a running slave it is equivalent to each; an enabled, stopped slave is unhealthy, yet neither rule blocks on it |
| Text.ToLower | internal/core/module/mariadb/biz/biz.go:176-227 | lower-casing keeps the length and maps each character |
| Text.IndexOf | internal/core/module/docker/biz/docker.go:166 | the first index of a character, or -1 exactly when it is absent |
| Text.Split | internal/core/module/mariadb/biz/biz.go:241 | `strings.Split`: at least one part, none containing the separator |
| Text.JoinSplit | internal/core/module/mariadb/biz/biz.go:241 | joining the parts of a split with the separator gives the text back |
| Text.SplitJoin | internal/core/module/k8s/biz/k8s.go:114-129 | splitting a join of separator-free parts gives the parts back |
| Text.TrimRight | internal/config/config.go:115-117 | `strings.TrimRight` with one character: the longest prefix not ending in it |
| Text.ScanLines | internal/core/module/mariadb/biz/biz.go:101-111 | the scanner's lines contain no line break |
| Text.ScanLinesOfJoin | internal/core/module/mariadb/biz/biz.go:101-111 | scanning lines joined by newlines gives those lines back |
| Text.WrapInt32 | internal/core/module/docker/biz/docker.go:201-202 | `int32(x)`: x itself when in range, otherwise x modulo 2^32 |
| Text.WrapInt64 | internal/core/kernel/base/biz/mariadb.go:166-173 | `int64(x)`: x itself when in range, otherwise x modulo 2^64 |
| Text.ParseInt | internal/core/module/mariadb/biz/biz.go:113-130 | a value exactly for decimal syntax within the width, and then the decimal's value |
| Text.ParseIntValue | internal/core/kernel/base/biz/mariadb.go:306-307 | `strconv.ParseInt` with its error ignored: the value, 0 on a syntax error, the bound on overflow |
| Text.ParseIntOrZero | internal/core/module/mariadb/biz/biz.go:220-227 | a successful parse gives its value; a failed one, such as "NULL" or an out-of-range number, gives 0; the result is always within the width |
| Text.DecimalOfNat | internal/core/module/mariadb/biz/biz.go:56-66 | decimal digits read back to the number |
| Text.ParseFormatInt | internal/core/module/mariadb/biz/biz.go:56-66 | formatting then parsing an in-range integer gives it back |
| StatusParser.FindFromSpec | internal/core/module/mariadb/biz/biz.go:87-89 | the search from i finds the leftmost match of `Key:\s*(\S+)` at or after i and its capture, or nothing exactly when there is none |
| StatusParser.FindTokenSpec | internal/core/module/mariadb/biz/biz.go:87-89 | a token is found exactly when the expression matches somewhere, and it is the capture of the leftmost match |
| StatusParser.FindTokenOfRow | internal/core/module/mariadb/biz/biz.go:136-146 | in a padded report row the key's token is the row's value |
| StatusParser.MissingCharNoMatch | internal/core/module/mariadb/biz/biz.go:87-89 | a line lacking a character of the key never matches |
| StatusParser.ParseMasterOutput | internal/core/module/mariadb/biz/biz.go:101-130 | the scanner loop computes the line-by-line master scan of the output |
| StatusParser.ScanMasterEnable | internal/core/module/mariadb/biz/biz.go:101-111 | the master status is enabled exactly when some line has a `File:` token |
| StatusParser.ScanMasterLastFile | internal/core/module/mariadb/biz/biz.go:101-111 | the log file is the token of the last `File:` line |
| StatusParser.MasterStepPos | internal/core/module/mariadb/biz/biz.go:113-125 | a line changes the position exactly when it is a `Position:` row whose token parses as int64 |
| StatusParser.ScanMasterNoPos | internal/core/module/mariadb/biz/biz.go:113-130 | with no parsable `Position:` row the position is 0 |
| StatusParser.ScanMasterLastPos | internal/core/module/mariadb/biz/biz.go:113-125 | the position is the value of the last parsable `Position:` row; unparsable ones keep the earlier value |
| StatusParser.ScanMasterFilePos | internal/core/module/mariadb/biz/biz.go:101-125 | a `File:` row then a `Position:` row give an enabled scan with that file and position |
| StatusParser.MasterReportRoundTrip | internal/core/module/mariadb/biz/biz.go:91-130 | reading a rendered master report gives back its log file and position, enabled |
| StatusParser.ParseSlaveOutput | internal/core/module/mariadb/biz/biz.go:168-205 | the scanner loop computes the line-by-line slave scan: per line the six expressions in their fixed order, first match wins, other lines ignored |
| StatusParser.SlaveStatusOf | internal/core/module/mariadb/biz/biz.go:207-227 | not enabled gives all-zero fields; otherwise the host, `RunningOK` exactly when both lower-cased running tokens are "yes", and port and lag parsed as 32-bit values, 0 when unparsable |
| StatusParser.ScanSlaveEnable | internal/core/module/mariadb/biz/biz.go:170-174 | the slave status is enabled exactly when some line has a `Slave_IO_State:` token |
| StatusParser.SlaveRowsScan | internal/core/module/mariadb/biz/biz.go:168-205 | the six rows of a slave report scan to its host, port, running flags and lag |
| StatusParser.SlaveReportRoundTrip | internal/core/module/mariadb/biz/biz.go:148-236 | reading a rendered slave report gives back the status it shows |
| StatusParser.DatabaseArgvWords | internal/core/module/mariadb/biz/biz.go:237-243 | with space-free credentials the argv is `mysql`, `-u<root>`, `-p<password>`, `-e`, then the quoted statement, and joining it rebuilds the command line |
| StatusParser.MariabackupSplits | internal/core/module/mariadb/biz/biz.go:257-269 | for a space-free host and credentials a mariabackup line splits into exactly eight words: the program, `--<mode>`, `--host=<svc host>`, `--port=<svc port>`, the two fixed directories, `--user=<root>`, `--password=<password>` |
| StatusParser.BackupJobCommands | internal/core/module/mariadb/biz/biz.go:257-289 | the back-up job has three commands: it cleans /backup, then runs mariabackup with `--backup` and then with `--prepare`, each against the service's own host and port with its user and password |
| StatusParser.RestoreJobCommands | internal/core/module/mariadb/biz/biz.go:290-319 | the restore job has three commands: it empties the data directory, runs mariabackup with `--copy-back` against the same endpoint and credentials, and restores ownership |
| StatusParser.ModeWordOnly | internal/core/module/mariadb/biz/biz.go:257-296 | two mariabackup lines for one service agree word for word except the mode word |
| StatusParser.RestoreDiffersInMode | internal/core/module/mariadb/biz/biz.go:257-296 | the restore's mariabackup line differs from the back-up's only in its mode word |
| MariadbModule.ExecCallsDiffer | internal/core/module/mariadb/biz/biz.go:237-256 | different statements make different calls |
| MariadbModule.MasterStatementsDiffer | internal/core/module/mariadb/biz/master.go:27-71 | stop-slave is neither the grant nor the slave probe, so its presence in a trace is meaningful |
| MariadbModule.ToMasterGrantFirst | internal/core/module/mariadb/biz/master.go:27-34 | the grant is issued first, and a grant failure ends the run with that error |
| MariadbModule.ToMasterStopIff | internal/core/module/mariadb/biz/master.go:37-71 | stop-slave is issued exactly when the grant and the probe succeed and the slave is enabled without lag |
| MariadbModule.ToMasterOutcome | internal/core/module/mariadb/biz/master.go:37-71 | a probe error is returned, a lagging slave is an error, a disabled slave succeeds, otherwise the result is stop-slave's error |
| MariadbModule.ToSlaveEarlyExits | internal/core/module/mariadb/biz/slave.go:33-49 | a probe failure returns its error after the probe alone; a slave already following the requested master succeeds with no further statement |
| MariadbModule.ToSlaveRepoints | internal/core/module/mariadb/biz/slave.go:33-74 | a slave that is probed successfully and does not follow the requested master yet gets the probe followed by the repoint of `RepointSteps`, for the enable flag the probe reported |
| MariadbModule.RepointSteps | internal/core/module/mariadb/biz/slave.go:51-74 | an enabled slave is stopped first, and change-master follows whatever the stop answered; a failed change-master is the result, otherwise start-slave follows and its error is the result |
| MariadbModule.PointAtSteps | internal/core/module/mariadb/biz/slave.go:58-74 | a failed change-master is the result and no start-slave follows; after a successful one, start-slave is issued and its error is the result |
| MariadbModule.RestoreAlwaysRestarts | internal/core/module/mariadb/biz/slave.go:116-137 | the service is stopped first; a stop failure ends the run; otherwise start is always issued after the restore and the restore's error is the result |
| MariadbModule.Mariadb.ExecDatabaseCmd | internal/core/module/mariadb/biz/biz.go:237-256 | sends one command event and returns its output or error |
| MariadbModule.Mariadb.ShowMasterStatus | internal/core/module/mariadb/biz/biz.go:91-135 | probe then scan; a probe error gives no status; host and port come from the service |
| MariadbModule.Mariadb.ShowSlaveStatus | internal/core/module/mariadb/biz/biz.go:148-236 | probe then scan; a probe error gives no status |
| MariadbModule.Mariadb.ToMaster | internal/core/module/mariadb/biz/master.go:12-73 | performs the grant, probe, stop-slave protocol of the lemmas above |
| MariadbModule.Mariadb.CheckMaster | internal/core/module/mariadb/biz/master.go:74-102 | forwards the master probe's status or error unchanged |
| MariadbModule.Mariadb.Backup | internal/core/module/mariadb/biz/master.go:103-130 | runs the back-up job and returns the service's back-up path on success, the job's error otherwise |
| MariadbModule.Mariadb.ToSlave | internal/core/module/mariadb/biz/slave.go:11-76 | performs the probe, stop, change-master, start protocol of the lemmas above |
| MariadbModule.Mariadb.Repoint | internal/core/module/mariadb/biz/slave.go:51-74 | performs the stop, change-master, start tail of `ToSlave` |
| MariadbModule.Mariadb.AfterProbe | internal/core/module/mariadb/biz/slave.go:34-74 | the rest of `ToSlave` after the probe: a failed probe is returned with no statement, a slave already following the master succeeds with none, any other gets the repoint |
| MariadbModule.Mariadb.PointAt | internal/core/module/mariadb/biz/slave.go:58-74 | performs the change-master, start-slave pair of `PointAtSteps` |
| MariadbModule.Mariadb.CheckSlave | internal/core/module/mariadb/biz/slave.go:77-99 | forwards the slave probe's status or error unchanged |
| MariadbModule.Mariadb.Restore | internal/core/module/mariadb/biz/slave.go:100-139 | performs stop, restore job, start as in `RestoreAlwaysRestarts` |
| KernelMariadb.BackupFilesDistinct | internal/core/kernel/base/biz/mariadb.go:315-363 | master.json, slave.json and the binlog marker are three different files |
| KernelMariadb.ProbeSteps | internal/core/kernel/base/biz/mariadb.go:110-140 | query the service, then the master probe, then the slave probe; the first failure is the error, and success pairs both statuses |
| KernelMariadb.FreshIff | internal/core/kernel/base/biz/mariadb.go:166-173 | the saved position is fresh exactly when it is less than three days old; exactly three days is stale |
| KernelMariadb.VerifyRejects | internal/core/kernel/base/biz/mariadb.go:141-161 | a failed remote query, a missing or disabled remote master, or an enabled remote slave rejects the peer after one request |
| KernelMariadb.VerifyFresh | internal/core/kernel/base/biz/mariadb.go:162-173 | an eligible peer with a fresh saved master.json is accepted with the peer's master status, without a resync |
| KernelMariadb.FullSyncOutcome | internal/core/kernel/base/biz/mariadb.go:175-198 | a restore or marker failure aborts; otherwise log file and position are replaced by the marker's and saved, and a save failure is not an error |
| KernelMariadb.SyncInfoRelative | internal/core/kernel/base/biz/mariadb.go:245-256 | the sync request names the back-up and remote paths relative to the temporary directory |
| KernelMariadb.RestoreInternalOrder | internal/core/kernel/base/biz/mariadb.go:258-285 | back up on the peer, sync to local, restore, each only after the previous succeeded; the result is the first failure |
| KernelMariadb.BinlogRoundTrip | internal/core/kernel/base/biz/mariadb.go:286-314 | a marker whose first line is file, position and GTID separated by tabs reads back as that file and position |
| KernelMariadb.ParseBinlogOf | internal/core/kernel/base/biz/mariadb.go:298-309 | a three-field first line gives field 0 and field 1 read as a 64-bit decimal |
| KernelMariadb.BinlogErrors | internal/core/kernel/base/biz/mariadb.go:286-314 | an empty marker and a first line without exactly three fields are errors; an unparsable position reads as 0 |
| KernelMariadb.SwitchPromotes | internal/core/kernel/base/biz/mariadb.go:24-42 | on the master node: switch to master, then restore endpoints only if that succeeded, whose error is the result; no demotion call is made |
| KernelMariadb.SwitchDemotes | internal/core/kernel/base/biz/mariadb.go:24-69 | on a node that is not the designated master, once the local service is found, the switch is that look-up followed by the slave branch of `DemoteShape` |
| KernelMariadb.DemoteShape | internal/core/kernel/base/biz/mariadb.go:46-69 | the slave branch alone: a failed verification is its whole result; otherwise switch-to-slave, carrying the verified master's host, port, log file and position, comes right after the verification, and only its success leads to the peer query and the endpoint change; nothing is promoted or restored |
| KernelMariadb.ThenSlaveShape | internal/core/kernel/base/biz/mariadb.go:46-69 | what follows the verification: nothing after a failed one; otherwise switch-to-slave first, and the peer query next only when it succeeded; nothing is promoted or restored |
| KernelMariadb.VerifyCallsKinds | internal/core/kernel/base/biz/mariadb.go:141-200 | verification never switches roles or touches endpoints |
| KernelMariadb.RestoreMariadbFromPeer | internal/core/kernel/base/biz/mariadb.go:93-109 | query the local service, then restore it from the configured peer |
| Kernel.FailedKeepsOrder | internal/core/kernel/base/biz/biz.go:243-275 | the failed services keep their original relative order |
| Kernel.FailedIff | internal/core/kernel/base/biz/biz.go:243-275 | a service is in the failed list exactly when its switch failed |
| Kernel.FailedNone | internal/core/kernel/base/biz/biz.go:243-275 | the failed list is empty exactly when every switch succeeded |
| Kernel.RedoKeepsFailed | internal/core/kernel/base/biz/biz.go:243-275 | no Mariadb entry: nothing retried; otherwise nothing left when all succeed, else one Mariadb list of the failed services in order, with the same snapshot and start time and the count plus one |
| Kernel.DrainOne | internal/core/kernel/base/biz/biz.go:210-241 | a batch survives a drain exactly when failures remain and at most thirty minutes have passed since it started |
| Kernel.DrainSurvivors | internal/core/kernel/base/biz/biz.go:210-241 | every survivor is unexpired, holds only failed Mariadb services and descends from a queued batch with the same snapshot and start time |
| Kernel.RedoIgnoresLoopCount | internal/core/kernel/base/biz/biz.go:243-275 | the retry count never changes what a retry does |
| Kernel.DrainIgnoresLoopCount | internal/core/kernel/base/biz/biz.go:210-241 | queues differing only in retry counts drain with the same calls and survivors |
| Kernel.ReloadIdle | internal/core/kernel/base/biz/biz.go:112-121 | a failed stat, or an unchanged modification time, reloads nothing and enqueues nothing |
| Kernel.ReloadWithoutRoles | internal/core/kernel/base/biz/biz.go:123-132 | when the new or the cached designation has no roles, both cache fields are replaced and a batch is enqueued only when the new one has roles |
| Kernel.ReloadRoles | internal/core/kernel/base/biz/biz.go:134-141 | a role-equal reload leaves the cache and queue alone; a role-different one replaces both cache fields and enqueues one batch with count 0 |
| Kernel.ReloadSwitchable | internal/core/kernel/base/biz/biz.go:182-209 | every enqueued batch carries a designation with roles |
| Kernel.ReloadLeavesSwitchable | internal/core/kernel/base/biz/biz.go:112-146 | after a reload the queue still holds only batches with roles, and the answers suit the temporary directory of the designation then in force |
| Kernel.RegistryUpdates | internal/core/kernel/base/biz/biz.go:96-111 | only Mariadb services are stored or deleted, and other names are untouched |
| Kernel.NotifyEffects | internal/core/kernel/base/biz/biz.go:147-181 | ignored without a cached designation; a deletion unregisters; otherwise the service is registered and an available one enqueues one single-service batch of a snapshot of the designation |
| Kernel.ReadyIff | internal/core/kernel/base/biz/biz.go:72-95 | ready exactly when every probe succeeds and no enabled slave lags; an empty registry is ready without a request |
| Kernel.Base.constructor | internal/core/kernel/base/biz/biz.go:43-57 | an empty cache, queue and registry |
| Kernel.Base.Healthy | internal/core/kernel/base/biz/biz.go:58-71 | healthy exactly when every registered service has an available status; an empty registry is healthy |
| Kernel.Base.Ready | internal/core/kernel/base/biz/biz.go:72-95 | probes the registry in map order and returns the readiness of `ReadyIff` |
| Kernel.Base.QueryLocalServiceInfo | internal/core/kernel/base/biz/biz.go:276-295 | one query event; its service or error |
| Kernel.Base.QueryLocalMariadbStatus | internal/core/kernel/base/biz/mariadb.go:110-140 | performs the probe of `ProbeSteps` |
| Kernel.Base.SwitchMariadb | internal/core/kernel/base/biz/mariadb.go:24-71 | performs the switch of `SwitchPromotes` and `SwitchDemotes` |
| Kernel.Base.Promote | internal/core/kernel/base/biz/mariadb.go:32-42 | switch to master, then restore endpoints |
| Kernel.Base.Demote | internal/core/kernel/base/biz/mariadb.go:46-69 | verify the peer, switch to slave of it, then change endpoints |
| Kernel.Base.AfterVerify | internal/core/kernel/base/biz/mariadb.go:47-69 | the rest of `Demote` after the verification: a failed one is returned with no request; otherwise switch-to-slave with the verified coordinates, and only on its success the endpoint change |
| Kernel.Base.ChangeServiceEndpoint | internal/core/kernel/base/biz/biz.go:317-336 | one endpoint event pointing the service at the peer |
| Kernel.Base.VerifyRemoteMaster | internal/core/kernel/base/biz/mariadb.go:141-200 | performs the verification of `VerifyRejects`, `VerifyFresh` and `FullSyncOutcome` |
| Kernel.Base.FullSync | internal/core/kernel/base/biz/mariadb.go:175-198 | performs the resync of `FullSyncOutcome` |
| Kernel.Base.RestoreInternal | internal/core/kernel/base/biz/mariadb.go:258-285 | performs the steps of `RestoreInternalOrder` |
| Kernel.Base.ExtractBinlog | internal/core/kernel/base/biz/mariadb.go:286-314 | reads the marker file and parses it as `ParseBinlog` does |
| Kernel.Base.BackupMariadb | internal/core/kernel/base/biz/mariadb.go:72-92 | query the service, then its back-up; the back-up path or the first error |
| Kernel.Base.RestoreMariadb | internal/core/kernel/base/biz/mariadb.go:93-109 | performs the restore of `RestoreMariadbFromPeer` |
| Kernel.Base.RedoStatusChange | internal/core/kernel/base/biz/biz.go:243-275 | performs the retry of `RedoKeepsFailed` |
| Kernel.Base.SwitchAll | internal/core/kernel/base/biz/biz.go:248-254 | switches each listed service in order and collects the failed ones, as `FailedIff` describes |
| Kernel.Base.RedoAll | internal/core/kernel/base/biz/biz.go:219-231 | retries each queued batch in order and keeps the survivors of `DrainSurvivors` |
| Kernel.Base.CheckStatusRedo | internal/core/kernel/base/biz/biz.go:210-241 | the new queue is the drain's survivors; nothing else in the kernel changes |
| Kernel.Base.StatusChange | internal/core/kernel/base/biz/biz.go:182-209 | appends one batch of the listed services when the designation has roles and the listing succeeds |
| Kernel.Base.CheckConfig | internal/core/kernel/base/biz/biz.go:112-141 | the reload half of a tick: the cache, installed designation and enqueued batches of the reload lemmas |
| Kernel.Base.Tick | internal/core/kernel/base/biz/biz.go:112-146 | a reload, then a drain of the whole queue, on every tick, including a tick whose stat fails |
| Kernel.Base.Notify | internal/core/kernel/base/biz/biz.go:147-181 | the registry and queue change as `NotifyEffects` describes |
| K8sDriver.ServiceName | internal/core/module/k8s/biz/biz.go:191-202 | (name, Mariadb) exactly when the deployment name contains the Mariadb catalog, ("", "") otherwise |
| K8sDriver.LastValueIsLast | internal/core/module/k8s/biz/biz.go:358-376 | the value found for a variable is that of an entry with the name, and no later entry has that name |
| K8sDriver.LastValueAbsent | internal/core/module/k8s/biz/biz.go:358-376 | no value is found exactly when no entry has the name |
| K8sDriver.GetEnv | internal/core/module/k8s/biz/biz.go:358-376 | the root is always the default; the password is the last `MYSQL_ROOT_PASSWORD` of the first container, empty without containers |
| K8sDriver.Grouped | internal/core/module/k8s/biz/k8s.go:338-355 | only known catalogs with a non-empty list become keys |
| K8sDriver.InOrder | internal/core/module/k8s/biz/k8s.go:320 | the cached services in the visiting order |
| K8sDriver.NamesOfMembers | internal/core/module/k8s/biz/k8s.go:320-337 | a name is in a catalog's list exactly when some service of that catalog has it |
| K8sDriver.ListingIsGrouped | internal/core/module/k8s/biz/k8s.go:311-359 | the six appends and conditional inserts compute the grouping |
| K8sDriver.NamesOfDistinct | internal/core/module/k8s/biz/k8s.go:320-337 | distinct cached names give duplicate-free lists |
| K8sDriver.GroupedPlacement | internal/core/module/k8s/biz/k8s.go:320-337 | a service of a known catalog is listed under it, and any listed name comes from a service of that catalog |
| K8sDriver.GroupedExactlyOnce | internal/core/module/k8s/biz/k8s.go:320-337 | each cached service of a known catalog appears exactly once, in the list of its own catalog only |
| K8sDriver.CacheNamesDistinct | internal/core/module/k8s/biz/k8s.go:320-337 | a cache keyed by name lists each name once |
| K8sDriver.Lookup | internal/core/module/k8s/biz/biz.go:448-462 | "not exist" for an uncached name, a mismatch error for another catalog, otherwise the cached entry |
| K8sDriver.LookupAfterPut | internal/core/module/k8s/biz/biz.go:139-174 | after an add or modify the service is found, and other names are unaffected |
| K8sDriver.LookupAfterRemove | internal/core/module/k8s/biz/biz.go:175-190 | after a delete the name is not found, and other names are unaffected |
| K8sDriver.ExecTargetsFirstPod | internal/core/module/k8s/biz/k8s.go:114-129 | a failed listing or no pods makes no exec, and no pods is an error; otherwise one exec in the first pod's first container of the space-joined command; the deployment `Get`, its label selector and the pod `List` are one `ListPods` request here |
| K8sDriver.CommandLineSplits | internal/core/module/k8s/biz/k8s.go:114-129 | the joined command splits back into its words |
| K8sDriver.Driver.constructor | internal/core/module/k8s/biz/biz.go:56-89 | an empty cache |
| K8sDriver.Driver.PutService | internal/core/module/k8s/biz/biz.go:139-174 | a managed deployment is broadcast and cached under its name; otherwise nothing changes and nothing is broadcast |
| K8sDriver.Driver.DelService | internal/core/module/k8s/biz/biz.go:175-190 | a non-Mariadb name changes nothing; otherwise the deletion is broadcast, the HA port cleaned and the name removed |
| K8sDriver.Driver.EnumService | internal/core/module/k8s/biz/k8s.go:311-359 | the grouping of the cache in its visiting order |
| K8sDriver.Driver.ListService | internal/core/module/k8s/biz/k8s.go:304-310 | all catalogs whatever catalog is asked for |
| K8sDriver.Driver.ExecuteCommand | internal/core/module/k8s/biz/k8s.go:72-135 | performs the exec of `ExecTargetsFirstPod` |
| K8sDriver.Driver.Control | internal/core/module/k8s/biz/biz.go:415-447 | `Destroy`, `Start` and `Stop` return the lookup's error without acting; a found service of a catalog other than Mariadb gets no call and no error (k8s.go:394-419); a Mariadb service gets one call whose error is the result |
| DockerDriver.DefaultIgnoresCatalog | internal/core/module/docker/biz/docker.go:25-63 | the catalog is always Mariadb with one replica; labels get app=name and catalog=argument over the defaults; the argument changes nothing else |
| DockerDriver.PathJoinApart | internal/core/module/docker/biz/docker.go:25-63 | different names below one directory are different paths |
| DockerDriver.DefaultPathsApart | internal/core/module/docker/biz/docker.go:25-63 | two services get different data and back-up directories |
| DockerDriver.YamlFileLayout | internal/core/module/docker/biz/docker.go:64-76 | the compose file is workspace/catalog/service.yml |
| DockerDriver.CommandFileReuse | internal/core/module/docker/biz/docker.go:77-127 | success returns the compose file; an existing file is reused without writing; a missing one is rendered from the template with the commands joined by " && " and written, and a failed render or write is the error |
| DockerDriver.ExecArgv | internal/core/module/docker/biz/docker.go:243-245 | the exec argv is `-f file exec -u root service` then the command |
| DockerDriver.JobDownOnlyAfterUp | internal/core/module/docker/biz/docker.go:393-408 | the job runs `up -d` after getting the file; a failed `up -d` is the result; otherwise `down` follows right after it and its error is the result |
| DockerDriver.ApplyLabel | internal/core/module/docker/biz/docker.go:164-203 | a malformed label or an unknown key leaves the service unchanged; the name and the present parts stay |
| DockerDriver.ApplyLabels | internal/core/module/docker/biz/docker.go:164-205 | the name and the present parts survive all labels |
| DockerDriver.SetFieldText | internal/core/module/docker/biz/docker.go:171-203 | a label sets the catalog, image, root, password or host exactly when its key names that field, and leaves the others as they were |
| DockerDriver.SetFieldPort | internal/core/module/docker/biz/docker.go:171-203 | a `service.port` label sets the port to its 64-bit parse truncated to 32 bits; any other label leaves the port |
| DockerDriver.SetFieldPaths | internal/core/module/docker/biz/docker.go:171-203 | a path key sets that path, as a path inside the container, and leaves the other two |
| DockerDriver.LabelsSetText | internal/core/module/docker/biz/docker.go:164-203 | catalog, image, root, password and host are the values of the last label with their key |
| DockerDriver.LabelsSetPort | internal/core/module/docker/biz/docker.go:200-202 | the port is the last `service.port` label's value, 0 when unparsable |
| DockerDriver.LabelsSetPaths | internal/core/module/docker/biz/docker.go:176-193 | the three paths are inner paths named config, dataPath and backPath with the last label's value |
| DockerDriver.LabelSets | internal/core/module/docker/biz/docker.go:165-169 | a `k=v` label with no '=' in v sets k to v |
| DockerDriver.LabelWithEqualsDropped | internal/core/module/docker/biz/docker.go:165-169 | a label whose value contains '=' is skipped |
| DockerDriver.ServiceEntriesShape | internal/core/module/docker/biz/docker.go:153-210 | every service read is named by its key with volumes, environment and endpoint present, and came from a `labels` list |
| DockerDriver.LoadedShape | internal/core/module/docker/biz/docker.go:150-216 | every loaded service comes from a service entry with a `labels` list |
| DockerDriver.LoadedAll | internal/core/module/docker/biz/docker.go:150-216 | every service entry with a `labels` list yields a loaded service |
| DockerDriver.LabelledYields | internal/core/module/docker/biz/docker.go:153-210 | an entry with a `labels` list yields at least one service |
| DockerDriver.Docker.GetYamlFile | internal/core/module/docker/biz/docker.go:64-76 | makes the catalog directory and returns the compose file path |
| DockerDriver.Docker.GetCommandFile | internal/core/module/docker/biz/docker.go:77-127 | performs the steps of `CommandFileReuse` |
| DockerDriver.Docker.RunCompose | internal/core/module/docker/biz/docker.go:221-252 | gets the compose file as `CommandFileRun` does, then runs docker-compose with the arguments |
| DockerDriver.Docker.ExecuteCommand | internal/core/module/docker/biz/docker.go:221-252 | runs the argv of `ExecArgv` |
| DockerDriver.Docker.JobService | internal/core/module/docker/biz/docker.go:371-411 | performs the steps of `JobDownOnlyAfterUp` |
| DockerDriver.Docker.LoadCommandFile | internal/core/module/docker/biz/docker.go:128-220 | a decoding error is returned; otherwise the services of the decoded document |
| DockerDriver.Docker.ParseService | internal/core/module/docker/biz/docker.go:153-211 | the loop over one service's entries computes its services |
| DockerDriver.Docker.ParseLabels | internal/core/module/docker/biz/docker.go:156-206 | the loop over the labels computes the labelled service |
| RsyncDriver.SyncArgsSwap | internal/core/module/rsync/biz/rsync.go:26-30 | both directions use `-avz` and the password file; the source of one is the destination of the other |
| RsyncDriver.RemoteEndInjective | internal/core/module/rsync/biz/rsync.go:27 | with no '/' in host and secret, the rsync URL determines peer, module and directory |
| RsyncDriver.LocalEndInjective | internal/core/module/rsync/biz/rsync.go:26 | below one temporary directory, different names are different local ends |
| RsyncDriver.LocalEndIsBackPath | internal/core/module/rsync/biz/rsync.go:26 | for the kernel's request the local end is the service's own back-up directory |
| RsyncDriver.Rsync.SyncFilesToRemote | internal/core/module/rsync/biz/rsync.go:13-38 | one rsync from tmp/local/ to rsync://host/secret/remote/; its error is the result |
| RsyncDriver.Rsync.SyncFilesToLocal | internal/core/module/rsync/biz/rsync.go:39-63 | the same run with source and destination exchanged |

## Left out

- Catalog names: the values of the catalog constants are not part of this model. The model uses six distinct lower-case names, and only their distinctness matters.
- Compose templates are represented by their names. Rendering happens through the hub, and the template text is not modelled.
- YAML decoding, JSON loading of the designation and of master.json/slave.json, and Kubernetes deployment decoding (`getServiceInfoFromDeployment` and the port, path and HA lookups) are inputs: a decoded value or an oracle answer.
- The event bus, HTTP requests to the peer, the Kubernetes and docker clients, files and process execution are hub calls answered by an oracle. The HTTP handlers and module wiring are not modelled.
- Concurrency is not modelled. Queue and registry updates are sequential, and each drain is atomic. The lock that `checkStatusRedo` takes and releases at once (biz.go:213-214 and 237-238) protects nothing, and this model does not capture the races it leaves open.
- The wall clock is a `now` parameter in milliseconds.
- `Effects.Typed`, `KernelMariadb.Sound`, `KernelMariadb.Answers` and `Kernel.Loads` are assumptions about the oracle. They say that each answer has the kind its call expects, that the designation file loads when stat succeeds, and that peers report paths longer than the temporary directory. Without them the source dereferences nil or slices out of range.
- Kernel.Base.Valid requires every queued batch to carry a designation with roles, because `SwitchMariadb` dereferences the status. `Kernel.Base.Notify` therefore requires that a cached designation without roles never meets an available service (biz.go:171 feeds mariadb.go:32).
- K8sDriver.Driver.DelService requires a managed name to be cached, because the source broadcasts the cached entry.
- Config.Dump and the other records are values, so pointer identity, fresh allocation and aliasing are not modelled. The default labels map that `getDefaultServiceInfo` writes into, and so shares between calls, is not modelled for the same reason.
- Config.PathJoin does not clean `..` and repeated '/' as `path.Join` does.
- Text.ToLower folds ASCII letters only, while Go's `strings.ToLower` folds all of Unicode and can change the byte length. Its one use compares the result with "yes", as biz.go:216-217 does, and no non-ASCII text lowers to that.
- MariadbModule.Mariadb.Backup and MariadbModule.Mariadb.Restore require the service's endpoint and credentials to be present (`Complete`). Without them the source dereferences nil (biz.go:259-262, 266-269, 292-296) and panics. The back-up panics before any job is sent; the restore panics after the stop. The panic is not modelled.
- Effects.Pod and DockerDriver.Yaml exclude by their types two inputs on which the source panics: a pod without containers (`Spec.Containers[0]` at k8s.go:127) and a non-string key inside a service mapping (`ssk.(string)` at docker.go:155).
- StatusParser.FindToken models only the single-key patterns `Key:\s*(\S+)`; general regular expressions are not modelled.
- Logging, `ServiceInfo.String`'s use in log lines and the alarm and syncthing modules are not modelled.
- The docker driver's `enumService`, `QueryService`, `CreateService`, `DestroyService`, `StartService` and `StopService` are left out, because they are filesystem walks and process runs with no decision logic. Its compose `ExecuteCommand` and `JobService` are modelled.
- The rsync handlers' checks for a missing or ill-typed event parameter are not modelled. The model takes the typed `SyncInfo`.

## Findings

| source | as written | input that shows it | evidently intended | confidence | as-written member | corrected member |
|---|---|---|---|---|---|---|
| internal/core/module/mariadb/pkg/mariadb.go:62 | an enabled slave is OK when `RunningOK && BehindSecond > 0` | a running slave with `BehindSecond == 0` is not OK, and one with 5 s lag is | OK exactly when running and not behind the master, the lag rule `ToMaster` and readiness apply | not executed | Common.SlaveIsOKInverted | LagRules.HealthyAgreesWithLagRules |

`SlaveStatus.IsOK` has no caller in the files this model covers: readiness
and `ToMaster` each test the lag themselves. The inversion therefore has no
visible effect on the agent's behaviour today. `Common.SlaveIsOKAsWritten`
also shows it on two concrete statuses.

In two places the code does not do what a summary of it would suggest, and
the model follows the code. `extractBinlog` keeps `strconv.ParseInt`'s value when it ignores the
error. An out-of-range position therefore reads as the 64-bit bound, not
as 0. `syncRemoteMariadbToLocal` slices at `len(tmp)+1`, so a path exactly
one character longer than the temporary directory gives an empty name
rather than a panic.
