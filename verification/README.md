# deber container driver — a Dafny model

This project models the decision logic of deber's container driver (`pkg/docker/container.go`) and two of its build steps, `stop` and `package` (`pkg/walking/`). deber builds Debian packages inside a Docker container. The Docker daemon itself is not modelled. It is an abstract value (`Engine.Daemon`) that holds:

- the container list (names and state of each container);
- what `inspect` reports per container (attached networks and mounts);
- the set of endpoints that answer with an error;
- the exit code that the next exec session reports.

The host (`Engine.Host`) holds the files that exist, whether creating a file fails, and whether standard input is a terminal whose raw-mode switch or size query fails. Every call to the daemon or the host file system is appended to a trace (`Engine.Call`). A failed call is recorded too. So "which calls happen, in what order, and which are skipped" can be stated as properties of the trace.

Modules:

- `Engine`: the data model. Container records, mounts, exec configuration, errors, the daemon, the host, calls and effects.
- `Probes`: `IsContainerCreated`, `IsContainerStarted` and `IsContainerStopped`. Each returns Go's `(bool, error)` pair as `Probe(value, err)`.
- `Listing`: `ContainerList` (listing by prefix) and `ContainerMounts`, both written as loops like the source.
- `Lifecycle`: create, start, stop and remove, each a single daemon call.
- `Network`: the bridge-network toggle `ContainerNetwork`.
- `Exec`: building the exec configuration, and the `ContainerExec` flow.
- `Walking`: the `stop` and `package` steps. Each returns `Done`, `Skipped` or `Failed(error)` together with its trace.

How the daemon reacts to a call is an assumption of this model, not something the source code decides:

- stop marks every container of that name `exited`;
- start marks it `running`;
- create adds a `created` container attached to `bridge` with the requested mounts, and is refused for a name already in use;
- remove deletes it, and is refused while it is running;
- disable and enable network detach the container from `bridge` and attach it again;
- `inspect` of an unknown container fails.

The steps call methods on a `docker.Docker` value that `pkg/docker` does not define (`IsContainerStopped`, `ContainerStop`, `ContainerDisableNetwork`, `ContainerEnableNetwork`, `ContainerExec`). They are modelled by the functions of the same name in this project. `Walking.ContainerDisableNetwork` and `Walking.ContainerEnableNetwork` are abstract daemon calls that may fail. The flags appended to `dpkg-buildpackage` come from an environment variable, read once when the program starts. Here they are the `flags` parameter of `Walking.Package`. The error of the deferred network enable in `package` is discarded, as in the source.

## Model

| member | source | states |
|---|---|---|
| `Probes.Named` | pkg/docker/container.go:78-84 | the name scan is true iff some listed container carries exactly that name |
| `Probes.NamedRunning` | pkg/docker/container.go:97-105 | the scan is true iff some container with that exact name is in state "running" |
| `Probes.NoneNamedRunning` | pkg/docker/container.go:118-126 | the scan is true iff no container with that exact name is running; this includes the case where none has the name |
| `Probes.IsContainerCreated` | pkg/docker/container.go:72-87 | a list error yields (false, error); otherwise the value is true iff some container is named exactly "/"+name |
| `Probes.IsContainerStarted` | pkg/docker/container.go:91-108 | a list error yields (false, error); otherwise the value is true iff some container named "/"+name is running |
| `Probes.IsContainerStopped` | pkg/docker/container.go:112-129 | a list error yields (false, error), not true; otherwise the value is true iff no container named "/"+name is running |
| `Probes.StoppedIsNotStarted` | pkg/docker/container.go:91-129 | after a successful list, stopped is exactly not-started, and started implies created |
| `Probes.AbsentIsStopped` | pkg/docker/container.go:112-129 | after a successful list, an absent container is not started and counts as stopped |
| `Listing.TrimSlash` | pkg/docker/container.go:354 | at most one leading "/" is removed, and one is always removed when present |
| `Listing.Trimmed` | pkg/docker/container.go:353-354 | every name of a container is trimmed, keeping count and order |
| `Listing.ContainerList` | pkg/docker/container.go:341-363 | a list error is returned as is; otherwise the nested loop returns exactly the trimmed names, container by container, that start with the prefix |
| `Listing.KeepPrefixedMembers` | pkg/docker/container.go:356-358 | the prefix filter keeps exactly the names that start with the prefix and adds none |
| `Listing.AllNamesMembers` | pkg/docker/container.go:352-354 | a name is in the flattened list iff it is a trimmed name of some container |
| `Listing.ContainerListMembers` | pkg/docker/container.go:352-360 | a name is listed iff it is, after trimming one "/", the name of some container and starts with the prefix |
| `Listing.ContainerMounts` | pkg/docker/container.go:174-193 | inspect errors are returned; otherwise one mount per inspected mount, in the same order, with source, target (from destination) and type copied and ReadOnly == !RW |
| `Lifecycle.ContainerCreate` | pkg/docker/container.go:134-149 | one create call, which fails on a fault or a name in use; on success the container is listed, not running, attached to bridge, with the requested mounts (RW == !ReadOnly) |
| `Lifecycle.ContainerStart` | pkg/docker/container.go:152-156 | one start call; on success a container of that name is running |
| `Lifecycle.ContainerStop` | pkg/docker/container.go:161-165 | one stop call; on success no container of that name runs, it is still listed, and containers with other names are untouched |
| `Lifecycle.ContainerRemove` | pkg/docker/container.go:168-172 | one remove call, refused while running; on success the name is gone and every other container is kept |
| `Lifecycle.StopThenStopped` | pkg/docker/container.go:161-165 | after a successful stop, the stopped probe answers (true, no error) and the container still exists |
| `Lifecycle.StartThenStarted` | pkg/docker/container.go:152-156 | after a successful start, the started probe answers true and the stopped probe false |
| `Network.ContainerNetwork` | pkg/docker/container.go:314-338 | inspect first; a connect call iff want and not attached, a disconnect call iff not want and attached, otherwise no call; on success the attachment equals want; nothing else changes; a failing inspect, connect or disconnect returns that endpoint's error unchanged |
| `Network.NetworkIdempotent` | pkg/docker/container.go:329-337 | a second call with the same want, after a successful first one and under any set of failing endpoints, makes only its inspect call, succeeds iff that inspect does and then changes nothing; the pair makes at most one connect or disconnect |
| `Network.NetworkTogglesAtMostOnce` | pkg/docker/container.go:329-337 | one call never makes more than one connect or disconnect request |
| `Exec.BuildConfig` | pkg/docker/container.go:205-228 | the command is ["bash"] iff Cmd is empty, else ["bash","-c",Cmd]; user "root" iff AsRoot; AttachStdin == Interactive; stdout, stderr and Tty always on |
| `Exec.ConfigRoundTrip` | pkg/docker/container.go:222-228 | the shell command, the root flag and the interactivity can be read back from the built configuration |
| `Exec.Session` | pkg/docker/container.go:235-279 | exec create, then attach only if create succeeded, then (batch mode only) inspect; success iff these succeed and, in batch mode, the exit code is 0; a failing create, attach or inspect returns that endpoint's error unchanged |
| `Exec.ContainerExec` | pkg/docker/container.go:204-280 | with Skip set: success, no call, no change; otherwise the network toggle comes first, and a toggle error ends the exec before it is created and is returned unchanged; on success the attachment equals Network |
| `Exec.ExecOrder` | pkg/docker/container.go:230-243 | an exec is created only right after a successful toggle, and attached only right after a successful creation |
| `Exec.ExecCalls` | pkg/docker/container.go:226-238 | every call is the inspect, a toggle of that container, or an exec-session call; the exec is created with the built configuration; no toggle when the attachment already matches |
| `Exec.BatchExitCode` | pkg/docker/container.go:268-279 | in batch mode, with all calls succeeding, the result is success iff the exit code is 0, and a non-zero code gives the command-failure error |
| `Exec.InteractiveIgnoresExitCode` | pkg/docker/container.go:268-277 | in interactive mode the session is never inspected, and the exit code does not affect the result |
| `Walking.ContainerDisableNetwork` | pkg/walking/package.go:42 | one disable call; on success the container is detached; nothing else changes |
| `Walking.ContainerEnableNetwork` | pkg/walking/package.go:46 | one enable call; on success the container is attached; nothing else changes |
| `Walking.Stop` | pkg/walking/stop.go:22-39 | a probe error gives Failed with no stop call; stopped or absent gives Skipped with no stop call; otherwise exactly one stop call, with Done iff it succeeds |
| `Walking.StopRerunSkips` | pkg/walking/stop.go:25-38 | after a stop step that is Done, running it again over the container list it left makes no second stop call, whatever endpoints fail by then; it is Skipped iff its listing succeeds, and otherwise Failed with the listing error |
| `Walking.StopRequestIff` | pkg/walking/stop.go:25-33 | a stop call is made iff the probe succeeded and saw the container running; Skipped iff it succeeded and did not |
| `Walking.PackageArgs` | pkg/walking/package.go:50-53 | the exec goes to the container; the command is "dpkg-buildpackage" + " " + flags; batch mode, not root, not skipped, network off |
| `Walking.PackagesFile` | pkg/walking/package.go:33 | the Packages file is the file named "Packages" directly inside the archive directory |
| `Walking.Package` | pkg/walking/package.go:29-60 | the step first stats the Packages file and creates it only when stat reports it absent; unless the step fails, the file exists afterwards |
| `Walking.PackageCreateFailure` | pkg/walking/package.go:33-40 | if creating the Packages file fails, the step is Failed after stat and create only, and nothing changes |
| `Walking.PackageDisableFailure` | pkg/walking/package.go:42-45 | if the network disable fails, the step is Failed, with no exec and no enable call |
| `Walking.PackageTraceShape` | pkg/walking/package.go:42-59 | once disable succeeds, the calls are: file calls, disable, the exec's calls, enable; the step is Done iff the exec succeeded |
| `Walking.PackageCallAt` | pkg/walking/package.go:42-59 | once disable succeeds, each call is, in this order: a file call, the disable, an inspect or exec-session call of the container (never a connect or disconnect; the exec carries the packaging configuration), and finally the enable |
| `Walking.PackageReattachesLast` | pkg/walking/package.go:42-59 | once disable succeeds, the enable call is made exactly once and last, after every exec call, whatever the exec result; disable precedes every exec call |
| `Walking.PackageExecRequest` | pkg/walking/package.go:50-54 | the exec created runs ["bash","-c","dpkg-buildpackage " + flags] in the container, as the default user and without standard input |
| `Walking.PackageStaysDetached` | pkg/walking/package.go:42-54 | the step makes no connect or disconnect call, because the exec's toggle to "off" is a no-op after the disable; the container is detached while the command runs |
| `Walking.PackageOutcome` | pkg/walking/package.go:54-59 | once disable succeeds, the step is Done iff the exec's daemon calls succeed and the exit code is 0; a non-zero code gives Failed with the command-failure error; never Skipped |

## Left out

- `pkg/docker/docker.go`: client construction and the minimum API version. This is a wrapper over the Docker SDK that sets a global client.
- `pkg/walking/check.go`: a file-system stat followed by `os.Exit(0)`. It is process-level I/O, and its only logic is a single branch.
- The interactive terminal phase of `ContainerExec` (pkg/docker/container.go:245-263): raw mode and its restoration, the first resize, the SIGWINCH resize listener (`resizeIfChanged`, `ContainerExecResize`) and the stdin-copy goroutine. These involve signals, concurrency and terminal I/O. They are collapsed into one outcome: on a real terminal, the session either fails with a terminal error or runs.
- Copying the session's output to standard output (pkg/docker/container.go:265-266). The source ignores its error. The exec session is identified by its container's name, not by the exec ID.
- `Listing.ContainerList` and `Listing.ContainerMounts` return their result but do not record their single list or inspect call in a trace. No step uses them.
- The logging calls (`log.Info`, `FailE`, `SkipE`, `DoneE`, `Drop`), beyond the outcome each one denotes.
- `ContainerStopTimeout` as a duration, and the `Description` strings of the steps.
- The pipeline runner that calls the steps in order. It lives in the `stepping` package, which is not part of this model.
- `os.Stat` errors other than "absent". Like any stat failure in the source, they lead to creating the Packages file. The host records only whether the file exists.
- The set of failing endpoints is fixed within one world: every call made from that world sees the same faults, so an endpoint that answered once keeps answering within the same step. A daemon whose endpoints start failing between two steps is expressed by running the second step on a world with another fault set, as `Walking.StopRerunSkips` and `Network.NetworkIdempotent` do.
- `Lifecycle.ContainerCreate`: the image and the user in `CreateArgs` are handed to the daemon as they are (pkg/docker/container.go:138-141). The daemon's use of them (pulling the image, running as that user) is not modelled, so no contract mentions them.
