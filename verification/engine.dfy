/** The abstract Docker Engine the container driver talks to, the host it
    runs on, and the effect trace every driver call appends to.

    The daemon is not simulated: it is a value holding what a `list` or an
    `inspect` call would report, the set of endpoints that answer with an
    error, and the exit status the next exec session reports. Every call the
    driver issues is recorded in a trace, whether it succeeds or not. */
module Engine {

  /** Container states as the daemon reports them (pkg/docker/container.go:22-33). */
  const Running := "running"
  const Created := "created"
  const Exited := "exited"

  /** The one network the toggle inspects and flips. */
  const Bridge := "bridge"

  datatype Option<+T> = None | Some(value: T)

  /** Daemon endpoints the driver calls; a fault set names those that fail. */
  datatype Op =
    | List
    | Inspect
    | Connect
    | Disconnect
    | Create
    | Start
    | Stop
    | Remove
    | ExecCreate
    | ExecAttach
    | ExecInspect
    | DisableNetwork
    | EnableNetwork

  datatype Error =
    | DaemonError(op: Op)          // the endpoint answered with an error
    | NoSuchContainer(name: string)
    | NameInUse(name: string)
    | NonZeroExit                  // "command exited with non-zero status"
    | TerminalError                // raw mode or the first resize failed
    | FileError(path: string)

  datatype Result<+T> = Ok(value: T) | Err(error: Error)

  /** One entry of the list call: every name of the container, each with a
      leading "/", and its state. */
  datatype Container = Container(names: seq<string>, state: string)

  /** One mount as `inspect` reports it. */
  datatype MountPoint = MountPoint(source: string, destination: string, kind: string, rw: bool)

  /** One mount as the rest of the program describes it. */
  datatype Mount = Mount(source: string, target: string, kind: string, readOnly: bool)

  /** What `inspect` reports about one container. */
  datatype Inspection = Inspection(networks: set<string>, mounts: seq<MountPoint>)

  datatype Daemon = Daemon(
    containers: seq<Container>,
    inspections: map<string, Inspection>,
    faults: set<Op>,
    exitCode: int)

  /** The host side: files that exist, whether creating a file fails, and
      whether standard input is a terminal whose raw-mode switch or size
      query fails. */
  datatype Host = Host(files: set<string>, createFault: bool, isTerminal: bool, terminalFault: bool)

  datatype World = World(daemon: Daemon, host: Host)

  /** The configuration an exec session is created with. */
  datatype ExecConfig = ExecConfig(
    cmd: seq<string>,
    workingDir: string,
    user: string,
    attachStdin: bool,
    attachStdout: bool,
    attachStderr: bool,
    tty: bool)

  datatype Call =
    | ListAll                                  // list with the all-states filter
    | Request(op: Op, name: string)            // a call addressed to one container
    | ExecRequest(name: string, config: ExecConfig)  // exec creation
    | StatFile(path: string)
    | CreateFile(path: string)

  /** The result of a sequence of calls: what they returned, the calls made,
      and the world they left behind. */
  datatype Effect<+T> = Effect(result: Result<T>, trace: seq<Call>, world: World)

  predicate Fails(w: World, op: Op) {
    op in w.daemon.faults
  }

  /** `inspect` on `name` would succeed. */
  predicate Inspectable(w: World, name: string) {
    !Fails(w, Inspect) && name in w.daemon.inspections
  }

  /** The container is attached to the bridge network. */
  predicate Attached(w: World, name: string) {
    name in w.daemon.inspections && Bridge in w.daemon.inspections[name].networks
  }

  /** Some listed container carries exactly the name `full`. */
  ghost predicate Listed(list: seq<Container>, full: string) {
    exists i :: 0 <= i < |list| && full in list[i].names
  }

  /** Some listed container named `full` is running. */
  ghost predicate ListedRunning(list: seq<Container>, full: string) {
    exists i :: 0 <= i < |list| && full in list[i].names && list[i].state == Running
  }

  /** The same world with the inspection of `name` replaced. */
  function WithNetworks(w: World, name: string, networks: set<string>): World
    requires name in w.daemon.inspections
  {
    var ins := w.daemon.inspections[name];
    w.(daemon := w.daemon.(inspections := w.daemon.inspections[name := ins.(networks := networks)]))
  }

  /** Everything about the world except the attachment of `name` is equal. */
  ghost predicate SameBesidesNetworks(w: World, w': World, name: string) {
    && w'.host == w.host
    && w'.daemon.containers == w.daemon.containers
    && w'.daemon.faults == w.daemon.faults
    && w'.daemon.exitCode == w.daemon.exitCode
    && w'.daemon.inspections.Keys == w.daemon.inspections.Keys
    && (forall n :: n in w.daemon.inspections && n != name ==>
          w'.daemon.inspections[n] == w.daemon.inspections[n])
    && (name in w.daemon.inspections ==>
          w'.daemon.inspections[name].mounts == w.daemon.inspections[name].mounts)
  }

  /** Is `c` a connect or disconnect request? */
  predicate IsToggle(c: Call) {
    c.Request? && (c.op == Connect || c.op == Disconnect)
  }

  /** Is `c` one of the calls that create, attach or inspect an exec session? */
  predicate IsExecCall(c: Call) {
    c.ExecRequest? || (c.Request? && (c.op == ExecAttach || c.op == ExecInspect))
  }

  /** Number of connect and disconnect requests in a trace. */
  function Toggles(t: seq<Call>): nat {
    if t == [] then 0 else (if IsToggle(t[0]) then 1 else 0) + Toggles(t[1..])
  }

  lemma {:induction false} TogglesAppend(a: seq<Call>, b: seq<Call>)
    ensures Toggles(a + b) == Toggles(a) + Toggles(b)
    decreases |a|
  {
    if a == [] {
      assert a + b == b;
    } else {
      assert (a + b)[1..] == a[1..] + b;
      TogglesAppend(a[1..], b);
    }
  }

  lemma {:induction false} TogglesNone(t: seq<Call>)
    ensures Toggles(t) == 0 <==> forall k :: 0 <= k < |t| ==> !IsToggle(t[k])
    decreases |t|
  {
    if t != [] {
      TogglesNone(t[1..]);
      assert forall k :: 1 <= k < |t| ==> t[k] == t[1..][k - 1];
    }
  }
}
