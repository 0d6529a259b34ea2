# scylla-stress-orchestrator core, modelled in Dafny

This project models the orchestration core of scylla-stress-orchestrator.
The orchestrator drives load generators and disk benchmarks over SSH on a
fleet of hosts, fetches their results and aggregates the HdrHistogram logs
locally. The model covers:

- the `Ssh` wrapper of `bin/common.py`. Before its first call it probes the
  host until a probe exits 0 or 1, with at most 299 attempts. It then latches.
  Its `run`, `scp_from_remote`, `scp_to_remote`, `update`, `install` and
  `install_one` calls are modelled (modules `Connection` and `Packages`);
- the decision each remote package script takes on a host. `install` uses the
  first of apt-get, yum and dnf that the host has. `update` uses apt-get or
  yum. `install_one` scans its candidate list (module `Packages`);
- the fan-out `run_parallel`, which applies a per-host method to
  `[(ip, arg) for ip in ips]` (module `Fleet`);
- the tool adapters `DiskExplorer`, `Fio` and `CassandraStress` of
  `bin/common.py` (module `Adapters`), and the `Fio` of `src/sso/fio.py`
  (module `SsoFio`);
- the local aggregation. `HdrLogMerging.merge_logs` groups the per-host logs
  by name and runs one `union` per group (module `Merging`).
  `HdrLogProcessor.process` runs one extraction per distinct tag of each log,
  then one summary (module `Processing`).

Every process the orchestrator starts becomes one event of a single trace
held by `Effects.Env`. This covers ssh probes, remote commands, scp
transfers and local `os.system` calls. Every `time.sleep` is an event too.
Exit statuses come from an oracle, `Env.exitCode`. It is indexed by the
length of the trace at the moment the process starts, so any behaviour of the
hosts can be expressed.

Pure functions say what each call does to the trace. `Connect`, `Perform`
and `RunSession` cover one `Ssh` object. `RunSessions` covers a per-host plan
of several objects. `RunFleet` covers a fan-out. The classes `Ssh`,
`DiskExplorer`, `Fio`, `CassandraStress`, `HdrLogMerging` and
`HdrLogProcessor` are proved to leave exactly that trace. Lemmas then state
what the traces contain: which commands are issued, in which order, and under
which conditions, and which exceptions can be raised. The working directory
changed by `os.chdir` is a ghost field of `Env`.

## Model

| member | source | states |
|---|---|---|
| `Effects.Env.Spawn` | bin/common.py:155-157 | starting a process appends exactly its event and returns the oracle's exit status for that position |
| `Effects.Env.Pause` | bin/common.py:162 | a sleep appends one sleep event and changes nothing else |
| `Effects.Env.ChangeDir` | bin/common.py:100 | changing directory changes the working directory only, never the trace |
| `Effects.LocalEvents` | bin/common.py:77 | running commands locally adds one local event per command, in order, holding that command |
| `Effects.LocalIssuesNoCommand` | bin/common.py:473-474 | local work asks no remote host to do anything |
| `Paths.Join` | bin/common.py:330 | an absolute name replaces the directory; otherwise the result starts with the directory and ends with the name, with one slash between them exactly when the directory is non-empty and does not already end with a slash |
| `Paths.Dirname` | bin/common.py:99 | the directory part is the path up to and including its last slash, less trailing slashes: it is empty only when the path has no slash, stays whole when that head is all slashes, and otherwise ends in a non-slash |
| `Paths.DirnameOfJoin` | bin/common.py:99 | `dirname` undoes `join` of a slash-free name onto a directory that does not end with a slash |
| `Paths.Basename` | bin/common.py:95 | the base name has no slash and is a suffix of the path |
| `Paths.ExtRoot` | bin/common.py:96 | the root is the whole path, or the prefix before a dot after which the path has no further dot and no slash |
| `Paths.StemOf` | bin/common.py:61 | the grouping key of a log has no slash |
| `Paths.ExtRootOfHdr` | bin/common.py:96 | for a single component that is not all dots, `splitext(name + '.hdr')` gives back `name`, so `{filename_no_ext}.hdr` names the log that was processed |
| `Paths.StemOfHdr` | bin/common.py:61-75 | the grouping key of `dir/name.hdr` is `name`: a merged log `{dir}/{name}.hdr` is keyed by the name of its group |
| `Paths.JoinEndsWith` | bin/common.py:330 | `join(dir, ip)` ends with `ip`, and its last component is `ip` when `ip` has no slash |
| `Paths.JoinInjective` | src/sso/fio.py:56 | distinct relative names get distinct destination directories under the same `dir` |
| `Connection.Probing` | bin/common.py:152-164 | the probe loop always adds to the trace; success and clearing the wait flag coincide; it fails only by a connection timeout for its own host |
| `Connection.Connect` | bin/common.py:147-164 | connecting never shortens the trace; afterwards the wait flag is clear exactly when it succeeded; it fails only when it had to probe, by a connection timeout for its host |
| `Connection.Copy` | bin/common.py:175-181 | a transfer adds to the trace and raises only a connection timeout; when it returns, its copy is the last event and the wait flag is clear |
| `Connection.Perform` | bin/common.py:167-206 | every call adds to the trace; only `run` can raise a command failure, any call can raise a connection timeout, nothing else is raised |
| `Connection.RunSession` | bin/common.py:292-304 | consecutive calls on one object add at least one event per call when none raised, and raise only a connection timeout or a command failure |
| `Connection.RunSessions` | bin/common.py:329-337 | a per-host plan over fresh objects never shortens the trace and raises only a connection timeout or a command failure |
| `Connection.Ssh.constructor` | bin/common.py:139-145 | the object keeps its host, user, options, quiet window and latch as given |
| `Connection.Ssh.WaitForConnect` | bin/common.py:147-164 | the probe loop leaves the trace, latch and outcome that `Connect` gives: nothing once the wait flag is cleared, otherwise probes from attempt 1 |
| `Connection.Ssh.Scp` | bin/common.py:175-181 | connect, then one transfer whose exit status is ignored |
| `Connection.Ssh.ScpFromRemote` | bin/common.py:167-169 | a fetch `scp <options> -q user@ip:src dst` as one call |
| `Connection.Ssh.ScpToRemote` | bin/common.py:171-173 | a push `scp <options> -q src user@ip:dst` as one call |
| `Connection.Ssh.Run` | bin/common.py:194-206 | connect, then `ssh <options> user@ip '<command>'`, raising for any exit status other than 0 and 1 |
| `Connection.Ssh.Update` | bin/common.py:208-219 | `run` of the update script |
| `Connection.Ssh.InstallOne` | bin/common.py:221-248 | `run` of the candidate-scanning script for the given list |
| `Connection.Ssh.Install` | bin/common.py:250-262 | `run` of the install script for the given package |
| `Connection.ProbingShape` | bin/common.py:152-162 | the probe loop only appends, at most two events per attempt, alternating a probe and a one-second sleep; a probe is shown exactly when its attempt number exceeds the quiet window |
| `Connection.ProbingGrowth` | bin/common.py:152-162 | the probe loop keeps the earlier trace and adds at least one event and at most two per remaining attempt |
| `Connection.ProbingSteps` | bin/common.py:152-162 | every added event is the probe or the sleep of its attempt |
| `Connection.ProbingStopsAtFirstAccepted` | bin/common.py:152-164 | the loop stops at the first probe that exits 0 or 1 and at no other; it clears the wait flag exactly when it succeeds; otherwise it raises after the last attempt and its sleep, with the last probe's exit status |
| `Connection.ProbingOutcome` | bin/common.py:159-164 | success clears the wait flag and ends on a probe; failure comes after all attempts, reporting the last probe's status |
| `Connection.ProbingTimeout` | bin/common.py:152-164 | a failed loop has run every attempt and names the host and the last exit status |
| `Connection.ProbingParity` | bin/common.py:159-161 | a successful loop ends right after its accepted probe |
| `Connection.ProbingFirstAccepted` | bin/common.py:155-161 | a probe is accepted exactly when it is the last event of a successful loop |
| `Connection.ProbingCount` | bin/common.py:152-164 | at least one and at most 299 probes; exactly 299 when the connection times out |
| `Connection.ConnectLatch` | bin/common.py:147-164 | once the wait flag is cleared nothing is probed; while it is set, success and clearing it coincide, and a timeout comes after exactly 299 probes |
| `Connection.RunAcceptsZeroAndOne` | bin/common.py:194-206 | `run` connects first, then issues exactly its command; it returns normally exactly when that command exits 0 or 1 |
| `Connection.TransferIgnoresExitCode` | bin/common.py:175-181 | a transfer connects first, then copies, and never raises for the copy's exit status |
| `Connection.InstallWithoutManagerReturns` | bin/common.py:259-261 | on a host with none of apt-get, yum and dnf the install script exits 1, so `install` returns normally |
| `Connection.UpdateWithoutManagerReturns` | bin/common.py:215-217 | on a host with neither apt-get nor yum the update script exits 1, so `update` returns normally |
| `Connection.InstallOneNotFoundReturns` | bin/common.py:239-247 | when no candidate is offered or no manager is present, `install_one` exits 1 and returns normally |
| `Connection.TransferSessionOnlyTimesOut` | bin/common.py:175-181 | calls on one object that are all transfers raise only a connection timeout |
| `Connection.TransferPlanOnlyTimesOut` | bin/common.py:175-181 | a per-host plan of transfers raises only a connection timeout |
| `Connection.ProbingIssuesNoCommand` | bin/common.py:151-157 | probing asks the host to do nothing |
| `Connection.PerformIssues` | bin/common.py:194-206 | one call adds its own command to the issued commands if it connected, and nothing otherwise |
| `Connection.SessionIssuesPlanPrefix` | bin/common.py:194-206 | calls on one object issue an initial part of their commands in order, and all of them when none raised |
| `Connection.SessionsIssuePlanPrefix` | bin/common.py:194-206 | the same for a per-host plan over several objects |
| `Connection.PerformExtends` | bin/common.py:175-206 | one call only appends remote work to the trace |
| `Connection.SessionExtends` | bin/common.py:175-206 | calls on one object only append remote work |
| `Connection.SessionsExtend` | bin/common.py:175-206 | a per-host plan only appends remote work |
| `Fleet.ArgTuples` | bin/common.py:326 | one argument tuple per ip, in `ips` order, each carrying the same shared argument |
| `Fleet.FleetExtends` | bin/common.py:127-134 | the fan-out only appends remote work to the trace, whichever hosts raise |
| `Fleet.FleetIssuesAllPlans` | bin/common.py:127-134 | when no host raises, every host's whole plan is issued, host by host in argument order |
| `Packages.UpdateRun` | bin/common.py:208-218 | `update` only detects managers before its last step; that step refreshes the first of apt-get and yum present and the script ends with its status, or, with neither present, it exits 1 |
| `Packages.InstallRun` | bin/common.py:250-262 | `install` only detects managers before its last step; that step installs the package with the first of apt-get, yum and dnf present and the script ends with its status, or, with none present, it exits 1 |
| `Packages.InstallOneRun` | bin/common.py:221-248 | `install_one` installs at most one package, one of the candidates, as its very last step; it exits 1 unless it ended on that install, with the manager's status |
| `Packages.FirstPresent` | bin/common.py:253-262 | the chosen manager is present and sits at a position of the order before which no manager is present; none is chosen only when the host has none of them |
| `Packages.FirstOffered` | bin/common.py:224-238 | the chosen candidate is offered and every earlier one is not; none is chosen only when no candidate is offered |
| `Packages.InstallUsesFirstPresentManager` | bin/common.py:250-262 | `install` runs only the install of the first of apt-get, yum, dnf present, with that tool's status, and exits 1 when none is present |
| `Packages.InstallWithAptNeverProbesYum` | bin/common.py:253-254 | a host with apt-get gets the apt-get install and is never probed for yum or dnf |
| `Packages.UpdateIgnoresDnf` | bin/common.py:208-218 | `update` never uses dnf, uses apt-get when present, and exits 1 when neither apt-get nor yum is present |
| `Packages.InstallOnePicksFirstOffered` | bin/common.py:221-248 | `install_one` queries the candidates in list order with apt-get, else yum, installs the first one offered and stops; it exits 1 when none is offered or neither manager exists |
| `Packages.InstallOneWith` | bin/common.py:224-247 | the same once the manager is known |
| `Packages.InstallOneFirstCandidate` | bin/common.py:227-238 | an offered first candidate is the only one queried and installed |
| `Packages.InstallOneLaterCandidate` | bin/common.py:224-245 | a first candidate that is not offered is queried, skipped, and the scan goes on with the rest |
| `Merging.GroupByStem` | bin/common.py:57-66 | the dictionary's keys in insertion order are the distinct stems in discovery order, and each key holds exactly the logs with that stem, in discovery order |
| `Merging.GroupOfAbsentKey` | bin/common.py:62-65 | a stem no log has has no group |
| `Merging.StemsDistinct` | bin/common.py:57-66 | each stem is one key |
| `Merging.StemsAreStemSet` | bin/common.py:57-66 | the keys are exactly the stems of the found logs, so there are as many groups as distinct stems |
| `Merging.GroupMembers` | bin/common.py:59-66 | every found log lands, as often as it was found, in the group of its own stem and in no other |
| `Merging.GroupsPartition` | bin/common.py:57-66 | the group sizes add up to the number of logs found |
| `Merging.IfpFlagsAppend` | bin/common.py:72-74 | the flags of a list are the flags of its parts, one ` -ifp <file>` per member |
| `Merging.UnionInput` | bin/common.py:72-74 | the loop builds one ` -ifp <file>` per member, in group order |
| `Merging.UnionCommands` | bin/common.py:71-77 | one union command per group |
| `Merging.MergePlan` | bin/common.py:71-77 | as many local commands as distinct stems |
| `Merging.UnionCommandsAt` | bin/common.py:71-77 | the k-th command merges exactly the k-th group into `{dir}/{stem}.hdr` |
| `Merging.MergedPathInjective` | bin/common.py:75 | distinct stems are written to distinct files |
| `Merging.MergeOutputsDistinct` | bin/common.py:71-77 | no two union commands of one call write the same file |
| `Merging.MergedIsNotAHostLog` | bin/common.py:59-75 | a merged log sits directly in `dir`, so it never has the shape `dir/x/y` of an input |
| `Merging.MergeOutputsAreNotHostLogs` | bin/common.py:59-77 | no output of `merge_logs` has the shape of a per-host log |
| `Merging.HdrLogMerging.constructor` | bin/common.py:48-49 | the merger keeps the JVM path and the tool home |
| `Merging.HdrLogMerging.MergeLogs` | bin/common.py:53-79 | the trace gains exactly the union commands of the merge plan, one per group in key order, and the working directory is unchanged |
| `Processing.TagOf` | bin/common.py:110-111 | the tag is what follows the first four characters of the first field, and is empty for a field of at most four characters |
| `Processing.TagSet` | bin/common.py:103-112 | a log of at most five rows has no tags, and the tag of every non-empty data row is in the set |
| `Processing.CollectTags` | bin/common.py:103-112 | reading stops at the first empty data row; otherwise every data row has a field and the result is the tag set of the log |
| `Processing.TagSetIgnoresOrder` | bin/common.py:103-112 | the tags depend only on which data rows occur, not on their order or repetition |
| `Processing.TagSetOfData` | bin/common.py:107-112 | the tags are exactly those of the rows after the five header rows |
| `Processing.ExtractDistinct` | bin/common.py:116-118 | distinct tags are extracted by distinct commands into distinct outputs |
| `Processing.Extracts` | bin/common.py:116-118 | one extraction command per tag taken |
| `Processing.FilePlan` | bin/common.py:116-121 | one command per tag, plus the summary |
| `Processing.FilePlanEvents` | bin/common.py:116-121 | a file's events are its extractions, then its summary |
| `Processing.FilePlanOnePerTag` | bin/common.py:116-121 | exactly one extraction per distinct tag, writing `<stem>_<tag>`, followed by exactly one summary writing `<stem>-summary.txt` |
| `Processing.DistinctCard` | bin/common.py:116 | iterating a set visits as many tags as the set has |
| `Processing.ProcessPlanStep` | bin/common.py:89-91 | processing one more log appends its file plan |
| `Processing.ProcessPlanSize` | bin/common.py:87-121 | over well-formed logs, one command per distinct tag of each log plus one summary per log |
| `Processing.HdrLogProcessor.constructor` | bin/common.py:84-85 | the processor keeps the JVM path and the tool home |
| `Processing.HdrLogProcessor.RunExtractions` | bin/common.py:116-118 | each tag of the set is visited once, in some order, and its extraction command is run |
| `Processing.HdrLogProcessor.ProcessFile` | bin/common.py:93-124 | it raises exactly when a data row is empty, at the first such row; on raising it stays in the log's directory; otherwise it runs the file plan there and restores the working directory |
| `Processing.HdrLogProcessor.Process` | bin/common.py:87-91 | the logs are processed in the order found until the first one that raises; the trace gains their file plans; normal return restores the working directory |
| `Adapters.Pad` | bin/common.py:351 | a zero-padded field has exactly its width, in decimal digits |
| `Adapters.PadValue` | bin/common.py:351 | the padded digits spell the number modulo 10 to the width: its last `width` decimal digits |
| `Adapters.PadInjective` | bin/common.py:351 | numbers below the field's range have distinct padded forms |
| `Adapters.Stamp` | bin/common.py:351 | `%d-%m-%Y_%H-%M-%S` is 19 characters long |
| `Adapters.FioDirName` | bin/common.py:351 | the run directory is `fio-` and the stamp, 23 characters, with no slash |
| `Adapters.StampInjective` | bin/common.py:351 | the stamp determines the moment it was taken at |
| `Adapters.FioDirNameInjective` | src/sso/fio.py:13 | adapters built at different seconds use different remote directories |
| `Adapters.DiskInstallIssues` | bin/common.py:292-303 | update, then git, fio, python3, python3-pip, then matplotlib, the removal of the old clone and a fresh clone, in that order, stopping at the first failure |
| `Adapters.DiskRunIssues` | bin/common.py:311-321 | rm of the plots, rm of the test file, `lsblk` only when asked for, diskplorer with the caller's arguments, then rm of the test file, in that order |
| `Adapters.DiskDownloadIssues` | bin/common.py:329-337 | the plots and CSV files, then `lsblk.out` only when captured, into `dest`; only a connection timeout raises |
| `Adapters.FioInstallIssues` | bin/common.py:365-370 | `update`, then `install('fio')`, in that order |
| `Adapters.FioRunIssues` | bin/common.py:377-385 | `lsblk` first and only when asked for, then `mkdir -p` of the run directory strictly before fio runs in it with the options unchanged |
| `Adapters.FioDownloadIssues` | src/sso/fio.py:55-65 | the run directory's files first, then `lsblk.out` only when captured, into `dest`; only a connection timeout raises |
| `Adapters.StressInstallIssues` | bin/common.py:422-431 | update, a JDK from the candidates, wget, then the download and unpacking of the configured Cassandra version, in that order |
| `Adapters.PrepareIssues` | bin/common.py:477-483 | the old results are removed, then any stray load generator is killed |
| `Adapters.StressDownloadIssues` | bin/common.py:463-468 | the HTML reports and histogram logs into `dest`; only a connection timeout raises |
| `Adapters.FioDownloadAsWrittenLosesResults` | bin/common.py:393-403 | as written, the download transfers nothing and raises, while the intended one fetches the run directory first |
| `Adapters.ResultsAfterDownloads` | bin/common.py:470-475 | the downloads only append remote work; everything after them is local and asks no host to do anything |
| `Adapters.DiskExplorer.constructor` | bin/common.py:283-287 | the adapter keeps its hosts, user, options and `capture_lsblk` |
| `Adapters.DiskExplorer.InstallHost` | bin/common.py:292-304 | the trace and outcome of the install plan on a fresh connection, whose commands `DiskInstallIssues` lists |
| `Adapters.DiskExplorer.InstallTools` | bin/common.py:295-299 | the package-manager calls of the install, stopping at the first failure |
| `Adapters.DiskExplorer.Install` | bin/common.py:306-309 | the install plan on every host, in `ips` order |
| `Adapters.DiskExplorer.RunHost` | bin/common.py:311-321 | the trace and outcome of the run plan, whose commands `DiskRunIssues` lists |
| `Adapters.DiskExplorer.Run` | bin/common.py:323-327 | the run plan on every host with the shared command |
| `Adapters.DiskExplorer.DownloadHost` | bin/common.py:329-337 | the download plan into `join(dir, ip)`, one fresh connection per transfer |
| `Adapters.DiskExplorer.Download` | bin/common.py:339-342 | the download plan on every host into its own directory |
| `Adapters.Fio.constructor` | bin/common.py:347-352 | the run directory is named once, from the moment of construction |
| `Adapters.Fio.UploadHost` | bin/common.py:357-358 | the file is pushed into the run directory |
| `Adapters.Fio.Upload` | bin/common.py:360-363 | the upload on every host, in `ips` order |
| `Adapters.Fio.InstallHost` | bin/common.py:365-370 | the trace and outcome of `update` then `install('fio')` |
| `Adapters.Fio.Install` | bin/common.py:372-375 | the install on every host |
| `Adapters.Fio.RunHost` | bin/common.py:377-385 | the trace and outcome of the run plan in the shared run directory |
| `Adapters.Fio.Run` | bin/common.py:387-391 | the run plan on every host with the shared options |
| `Adapters.Fio.DownloadHostAsWritten` | bin/common.py:393-403 | the download as written ends with the outcome of `FioDownloadAsWritten`: a name error before any transfer |
| `Adapters.Fio.DownloadHost` | bin/common.py:393-403 | the intended download into `join(dir, ip)`: the run directory, then `lsblk.out` over a second connection when captured |
| `Adapters.Fio.Download` | bin/common.py:405-408 | the intended download on every host into its own directory |
| `Adapters.CassandraStress.constructor` | bin/common.py:413-420 | the version and user come from the properties, and so do the SSH options |
| `Adapters.CassandraStress.InstallHost` | bin/common.py:422-431 | the trace and outcome of the install plan on a fresh connection, whose commands `StressInstallIssues` lists |
| `Adapters.CassandraStress.InstallJava` | bin/common.py:425-427 | update, a JDK, then wget, stopping at the first failure |
| `Adapters.CassandraStress.Install` | bin/common.py:433-436 | the install plan on every host |
| `Adapters.CassandraStress.StressHost` | bin/common.py:438-442 | one `run` of cassandra-stress of the configured version with the caller's arguments |
| `Adapters.CassandraStress.Stress` | bin/common.py:444-447 | the stress run on every host with the shared arguments |
| `Adapters.CassandraStress.SshHost` | bin/common.py:449-450 | one `run` of the caller's command |
| `Adapters.CassandraStress.SshAll` | bin/common.py:452-453 | the command on every host |
| `Adapters.CassandraStress.UploadHost` | bin/common.py:455-456 | the file is pushed to the home directory |
| `Adapters.CassandraStress.Upload` | bin/common.py:458-461 | the upload on every host |
| `Adapters.CassandraStress.DownloadHost` | bin/common.py:463-468 | the reports and logs are fetched into `join(dir, ip)` |
| `Adapters.CassandraStress.GetResults` | bin/common.py:470-475 | every host's download, then the merge, then the processing, in that order; a missing `jvm_path` raises before any local command; when processing raises, the working directory stays in the failing log's directory |
| `Adapters.CassandraStress.PrepareHost` | bin/common.py:477-483 | the trace and outcome of the prepare plan, whose commands `PrepareIssues` lists |
| `Adapters.CassandraStress.Prepare` | bin/common.py:485-487 | the prepare plan on every host |
| `SsoFio.Fio.constructor` | src/sso/fio.py:9-14 | the run directory is `fio-` and the stamp of the moment of construction |
| `SsoFio.Fio.UploadHost` | src/sso/fio.py:19-20 | the file is pushed into the run directory |
| `SsoFio.Fio.Upload` | src/sso/fio.py:22-25 | the upload on every host, one tuple per ip |
| `SsoFio.Fio.InstallHost` | src/sso/fio.py:27-32 | `update`, then `install('fio')` |
| `SsoFio.Fio.Install` | src/sso/fio.py:34-37 | the install on every host |
| `SsoFio.Fio.RunHost` | src/sso/fio.py:39-47 | `lsblk` only when asked for, then `mkdir -p` and fio in the shared run directory |
| `SsoFio.Fio.Run` | src/sso/fio.py:49-53 | the run on every host with the shared options |
| `SsoFio.Fio.DownloadHost` | src/sso/fio.py:55-65 | the run directory's files, then `lsblk.out` when captured, into `join(dir, ip)` |
| `SsoFio.Fio.Download` | src/sso/fio.py:67-70 | the download on every host into its own directory |

## Left out

- Console output (`print`) is not modelled. The probe output is modelled only
  as whether a probe shows its output.
- `run_parallel` starts one thread per host and joins them all. The model runs
  the per-host plans one after another on the shared trace. Interleaving
  between hosts is not modelled. The exception a thread raises is dropped, as
  the joined threads drop it.
- `subprocess.call` and `os.system` are not executed. Their exit statuses come
  from the oracle `Env.exitCode`. The remote hosts, ssh, scp and the Java tools
  (processor.jar and HdrHistogram) are outside the model.
- Packages.UpdateScript, Packages.InstallScript and Packages.InstallOneScript
  keep the lines of the source's f-strings in order, but drop their leading
  indentation, trailing blanks, the blank line of `install_one` and its final
  newline with indentation. The commands quoted in the `*Issues` lemmas and in
  `RunCommand` are these normalised texts, not the exact strings handed to
  `subprocess.call`.
- The bash syntax of the remote scripts is not modelled. Only their decisions
  are: which manager is detected, queried, refreshed or used, and the exit
  status.
- `glob.iglob` is not modelled. The logs found are a parameter, in the order
  the glob yields them. `os.path.realpath` and the CSV split of a log are
  fields of `Processing.LogFile`.
- `os.environ['SSO']` is a parameter (`ssoHome`). A missing variable is not
  modelled.
- `os.makedirs` of the local destination directories is not modelled. Neither
  is a log that cannot be opened.
- `datetime.now()` is a parameter of the `Fio` constructors.
- `Ssh.log_ssh` is never read, so it is not modelled.
- `Iteration`, `load_yaml` and `collect_ec2_metadata` are not part of this
  model. Neither are the scenario scripts: filesystem, YAML and HTTP wiring.
- src/sso/ssh.py and src/sso/util.py are not part of this model. `SsoFio.Fio`
  assumes their `SSH` and `run_parallel` behave as those of bin/common.py,
  with `exec` as `run`, and the same default quiet window.
- Merging.HdrLogMerging.constructor and Processing.HdrLogProcessor.constructor
  take `properties['jvm_path']` rather than the dictionary. A missing key is
  modelled only in `Adapters.CassandraStress.GetResults`.
- Adapters.CassandraStress.constructor requires `ssh_options` among the
  properties. The source reads it only when a connection is made, so a
  dictionary without it fails there rather than at construction.
- Processing.HdrLogProcessor.Process does not fix the order in which a Python
  set yields its tags. The order taken is returned as a ghost value.

## Findings

| source | as written | input that shows it | evidently intended | confidence | as-written member | corrected member |
|---|---|---|---|---|---|---|
| bin/common.py:398 | `Fio.__download` calls the factory as a bare name, without `self.`. Inside the class body Python mangles it to the global `_Fio__new_ssh`, which does not exist, so every call raises a name error before any transfer | `download(dir)` with any ip whose host answers the first probe: nothing is fetched | fetch `{dir_name}/*` through `self.__new_ssh(ip)`, as src/sso/fio.py:60 does | not executed | `Adapters.FioDownloadAsWrittenLosesResults` | `Adapters.Fio.DownloadHost` |
