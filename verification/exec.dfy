/** Running a command inside a container (pkg/docker/container.go:195-280).

    The stream phase between attaching and inspecting the session (copying
    output, forwarding standard input, raw mode and window resizing) is not
    modelled call by call: in interactive mode on a real terminal it either
    fails with a terminal error or lets the session run, and a batch session
    simply ends with the daemon's exit code. */
module Exec {
  import opened Engine
  import Network

  datatype ExecArgs = ExecArgs(
    interactive: bool,
    name: string,
    cmd: string,
    workDir: string,
    asRoot: bool,
    skip: bool,
    network: bool)

  /** The exec configuration: bash, or `bash -c <cmd>` for a non-empty
      command; root only when asked; standard input attached only in
      interactive mode; output always attached and a terminal always
      allocated. */
  function BuildConfig(args: ExecArgs): (c: ExecConfig)
    ensures c.cmd == ["bash"] <==> args.cmd == ""
    ensures args.cmd != "" ==> c.cmd == ["bash", "-c", args.cmd]
    ensures c.user == "root" <==> args.asRoot
    ensures !args.asRoot ==> c.user == ""
    ensures c.attachStdin == args.interactive
    ensures c.attachStdout && c.attachStderr && c.tty
    ensures c.workingDir == args.workDir
  {
    var base := ExecConfig(["bash"], args.workDir, "", args.interactive, true, true, true);
    var withUser := if args.asRoot then base.(user := "root") else base;
    if args.cmd != "" then withUser.(cmd := withUser.cmd + ["-c", args.cmd]) else withUser
  }

  /** The command line a configuration hands to the shell; empty for a bare
      interactive shell. */
  function ShellCommand(c: ExecConfig): string {
    if |c.cmd| == 3 && c.cmd[0] == "bash" && c.cmd[1] == "-c" then c.cmd[2] else ""
  }

  /** The configuration loses nothing of the request: the shell runs exactly
      the requested command, as root exactly when requested. */
  lemma ConfigRoundTrip(args: ExecArgs)
    ensures ShellCommand(BuildConfig(args)) == args.cmd
    ensures (BuildConfig(args).user == "root") == args.asRoot
    ensures BuildConfig(args).attachStdin == args.interactive
  {
  }

  /** The calls after a successful network toggle, as far as the session
      gets: create, attach and (batch mode only) inspect. */
  function Session(w: World, args: ExecArgs, t: seq<Call>): (e: Effect<()>)
    ensures e.world == w
    ensures |e.trace| >= |t| + 1 && e.trace[..|t|] == t
    ensures e.trace[|t|] == ExecRequest(args.name, BuildConfig(args))
    ensures forall k :: |t| <= k < |e.trace| ==> IsExecCall(e.trace[k])
    ensures forall k :: |t| <= k < |e.trace| && e.trace[k].ExecRequest? ==>
      e.trace[k] == ExecRequest(args.name, BuildConfig(args))
    ensures Request(ExecAttach, args.name) in e.trace[|t|..] <==> !Fails(w, ExecCreate)
    ensures Request(ExecInspect, args.name) in e.trace[|t|..] <==>
      !args.interactive && !Fails(w, ExecCreate) && !Fails(w, ExecAttach)
    ensures e.result.Ok? <==>
      && !Fails(w, ExecCreate)
      && !Fails(w, ExecAttach)
      && (if args.interactive then !(w.host.isTerminal && w.host.terminalFault)
          else !Fails(w, ExecInspect) && w.daemon.exitCode == 0)
    ensures (!args.interactive && !Fails(w, ExecCreate) && !Fails(w, ExecAttach)
             && !Fails(w, ExecInspect) && w.daemon.exitCode != 0) ==> e.result == Err(NonZeroExit)
    ensures Fails(w, ExecCreate) ==> e.result == Err(DaemonError(ExecCreate))
    ensures !Fails(w, ExecCreate) && Fails(w, ExecAttach) ==> e.result == Err(DaemonError(ExecAttach))
    ensures (!args.interactive && !Fails(w, ExecCreate) && !Fails(w, ExecAttach)
             && Fails(w, ExecInspect)) ==> e.result == Err(DaemonError(ExecInspect))
    ensures (args.interactive && !Fails(w, ExecCreate) && !Fails(w, ExecAttach)
             && w.host.isTerminal && w.host.terminalFault) ==> e.result == Err(TerminalError)
  {
    var t1 := t + [ExecRequest(args.name, BuildConfig(args))];
    if Fails(w, ExecCreate) then Effect(Err(DaemonError(ExecCreate)), t1, w)
    else
      var t2 := t1 + [Request(ExecAttach, args.name)];
      assert t2[|t|..] == [ExecRequest(args.name, BuildConfig(args)), Request(ExecAttach, args.name)];
      if Fails(w, ExecAttach) then Effect(Err(DaemonError(ExecAttach)), t2, w)
      else if args.interactive then
        if w.host.isTerminal && w.host.terminalFault then Effect(Err(TerminalError), t2, w)
        else Effect(Ok(()), t2, w)
      else
        var t3 := t2 + [Request(ExecInspect, args.name)];
        assert t3[|t|..] == t2[|t|..] + [Request(ExecInspect, args.name)];
        if Fails(w, ExecInspect) then Effect(Err(DaemonError(ExecInspect)), t3, w)
        else if w.daemon.exitCode != 0 then Effect(Err(NonZeroExit), t3, w)
        else Effect(Ok(()), t3, w)
  }

  /** Runs `args.cmd` in the container. A skipped exec succeeds without any
      call; otherwise the network toggle runs first and its failure aborts
      before the exec is created. */
  function ContainerExec(w: World, args: ExecArgs): (e: Effect<()>)
    ensures args.skip ==> e.result.Ok? && e.trace == [] && e.world == w
    ensures !args.skip ==> |e.trace| >= 1 && e.trace[0] == Request(Inspect, args.name)
    ensures !args.skip ==>
      var net := Network.ContainerNetwork(w, args.name, args.network);
      && (net.result.Err? ==> e.trace == net.trace && e.result == net.result && e.world == net.world)
      && (net.result.Ok? ==>
            && |e.trace| > |net.trace|
            && e.trace[..|net.trace|] == net.trace
            && e.trace[|net.trace|] == ExecRequest(args.name, BuildConfig(args))
            && e.world == net.world)
    ensures SameBesidesNetworks(w, e.world, args.name)
    ensures e.result.Ok? && !args.skip ==> Attached(e.world, args.name) == args.network
  {
    if args.skip then Effect(Ok(()), [], w)
    else
      var net := Network.ContainerNetwork(w, args.name, args.network);
      if net.result.Err? then Effect(Err(net.result.error), net.trace, net.world)
      else Session(net.world, args, net.trace)
  }

  /** The exec is created only after a successful network toggle, and
      attached only after a successful creation. */
  lemma ExecOrder(w: World, args: ExecArgs, k: nat)
    requires k < |ContainerExec(w, args).trace|
    ensures var e := ContainerExec(w, args);
      var net := Network.ContainerNetwork(w, args.name, args.network);
      && (e.trace[k].ExecRequest? ==> net.result.Ok? && k == |net.trace|)
      && (e.trace[k] == Request(ExecAttach, args.name) ==>
            net.result.Ok? && !Fails(w, ExecCreate) && k == |net.trace| + 1)
  {
    var e := ContainerExec(w, args);
    var net := Network.ContainerNetwork(w, args.name, args.network);
    if !args.skip && net.result.Ok? {
      var s := Session(net.world, args, net.trace);
      assert e == s;
      if k < |net.trace| {
        assert e.trace[k] == net.trace[k];
      } else if k > |net.trace| {
        assert e.trace[k] == e.trace[|net.trace|..][k - |net.trace|];
      }
    }
  }

  /** Every call an exec makes is the inspection of its container, a
      connect or disconnect of that container, or an exec-session call; the
      exec is created with the configuration built from the request; and
      when the container already has the wanted attachment no connect or
      disconnect is made. */
  lemma ExecCalls(w: World, args: ExecArgs, k: nat)
    requires k < |ContainerExec(w, args).trace|
    ensures var c := ContainerExec(w, args).trace[k];
      && (c in {Request(Inspect, args.name), Request(Connect, args.name), Request(Disconnect, args.name)}
          || IsExecCall(c))
      && (c.ExecRequest? ==> c == ExecRequest(args.name, BuildConfig(args)))
      && (Inspectable(w, args.name) && Attached(w, args.name) == args.network ==> !IsToggle(c))
  {
    var e := ContainerExec(w, args);
    var net := Network.ContainerNetwork(w, args.name, args.network);
    if !args.skip && net.result.Ok? && k < |net.trace| {
      assert e.trace[k] == net.trace[k];
    }
  }

  /** Batch mode: once the session has run, success is decided by the exit
      code alone; a non-zero code is the command-failure error. */
  lemma BatchExitCode(w: World, args: ExecArgs)
    requires !args.skip && !args.interactive
    requires Network.ContainerNetwork(w, args.name, args.network).result.Ok?
    requires !Fails(w, ExecCreate) && !Fails(w, ExecAttach) && !Fails(w, ExecInspect)
    ensures ContainerExec(w, args).result.Ok? <==> w.daemon.exitCode == 0
    ensures w.daemon.exitCode != 0 ==> ContainerExec(w, args).result == Err(NonZeroExit)
    ensures Request(ExecInspect, args.name) in ContainerExec(w, args).trace
  {
    var net := Network.ContainerNetwork(w, args.name, args.network);
    var e := ContainerExec(w, args);
    assert e.trace[|net.trace|..] == Session(net.world, args, net.trace).trace[|net.trace|..];
  }

  /** Interactive mode never inspects the session, so the exit code has no
      bearing on the outcome. */
  lemma InteractiveIgnoresExitCode(w: World, args: ExecArgs, code: int)
    requires args.interactive
    ensures Request(ExecInspect, args.name) !in ContainerExec(w, args).trace
    ensures ContainerExec(w.(daemon := w.daemon.(exitCode := code)), args).result
         == ContainerExec(w, args).result
  {
    var w' := w.(daemon := w.daemon.(exitCode := code));
    var e := ContainerExec(w, args);
    var net := Network.ContainerNetwork(w, args.name, args.network);
    if !args.skip {
      if net.result.Ok? {
        assert e.trace[..|net.trace|] == net.trace;
        assert Request(ExecInspect, args.name) !in net.trace;
        assert e.trace == e.trace[..|net.trace|] + e.trace[|net.trace|..];
      }
      var net' := Network.ContainerNetwork(w', args.name, args.network);
      assert net'.result == net.result;
    }
  }
}
