/** The `stop` and `package` steps of the build pipeline (pkg/walking/).
    A step returns one of three outcomes together with the calls it made. */
module Walking {
  import opened Engine
  import Probes
  import Lifecycle
  import Exec
  import Network

  /** The names a step works with: the container and the host archive
      directory. */
  datatype Naming = Naming(container: string, archiveDir: string)

  datatype Outcome = Done | Skipped | Failed(error: Error)

  datatype Run = Run(outcome: Outcome, trace: seq<Call>, world: World)

  const PackageCommand := "dpkg-buildpackage"

  /** Detaches the container from the network. The daemon refuses a
      container it does not know. */
  function ContainerDisableNetwork(w: World, name: string): (e: Effect<()>)
    ensures e.trace == [Request(DisableNetwork, name)]
    ensures e.result.Ok? <==> !Fails(w, DisableNetwork) && name in w.daemon.inspections
    ensures e.result.Ok? ==> !Attached(e.world, name)
    ensures e.result.Err? ==> e.world == w
    ensures SameBesidesNetworks(w, e.world, name)
  {
    var t := [Request(DisableNetwork, name)];
    if Fails(w, DisableNetwork) then Effect(Err(DaemonError(DisableNetwork)), t, w)
    else if name !in w.daemon.inspections then Effect(Err(NoSuchContainer(name)), t, w)
    else Effect(Ok(()), t, WithNetworks(w, name, w.daemon.inspections[name].networks - {Bridge}))
  }

  /** Attaches the container to the network again. */
  function ContainerEnableNetwork(w: World, name: string): (e: Effect<()>)
    ensures e.trace == [Request(EnableNetwork, name)]
    ensures e.result.Ok? <==> !Fails(w, EnableNetwork) && name in w.daemon.inspections
    ensures e.result.Ok? ==> Attached(e.world, name)
    ensures e.result.Err? ==> e.world == w
    ensures SameBesidesNetworks(w, e.world, name)
  {
    var t := [Request(EnableNetwork, name)];
    if Fails(w, EnableNetwork) then Effect(Err(DaemonError(EnableNetwork)), t, w)
    else if name !in w.daemon.inspections then Effect(Err(NoSuchContainer(name)), t, w)
    else Effect(Ok(()), t, WithNetworks(w, name, w.daemon.inspections[name].networks + {Bridge}))
  }

  /** The `stop` step: probe, then skip when the container is already
      stopped (or absent), otherwise ask the daemon to stop it. */
  function Stop(w: World, name: Naming): (r: Run)
    ensures |r.trace| >= 1 && r.trace[0] == ListAll
    ensures List in w.daemon.faults ==>
      r.outcome == Failed(DaemonError(List)) && r.trace == [ListAll] && r.world == w
    ensures List !in w.daemon.faults && !ListedRunning(w.daemon.containers, "/" + name.container) ==>
      r.outcome == Skipped && r.trace == [ListAll] && r.world == w
    ensures List !in w.daemon.faults && ListedRunning(w.daemon.containers, "/" + name.container) ==>
      && r.trace == [ListAll, Request(Op.Stop, name.container)]
      && (r.outcome == Done <==> !Fails(w, Op.Stop))
      && (Fails(w, Op.Stop) ==> r.outcome == Failed(DaemonError(Op.Stop)) && r.world == w)
  {
    var t := [ListAll];
    var stopped := Probes.IsContainerStopped(w.daemon, name.container);
    if stopped.err.Some? then Run(Failed(stopped.err.value), t, w)
    else if stopped.value then Run(Skipped, t, w)
    else
      var e := Lifecycle.ContainerStop(w, name.container);
      Run(if e.result.Err? then Failed(e.result.error) else Done, t + e.trace, e.world)
  }

  /** Re-running `stop` after it stopped the container makes no second stop
      request, whatever else has changed in between as long as the
      container list is the one the first run left: the re-run skips when
      its listing succeeds and fails with the listing error when it does
      not. */
  lemma StopRerunSkips(w: World, w2: World, name: Naming)
    requires Stop(w, name).outcome == Done
    requires w2.daemon.containers == Stop(w, name).world.daemon.containers
    ensures Stop(w2, name).trace == [ListAll]
    ensures Stop(w2, name).outcome == Skipped <==> List !in w2.daemon.faults
    ensures List in w2.daemon.faults ==> Stop(w2, name).outcome == Failed(DaemonError(List))
  {
    var e := Lifecycle.ContainerStop(w, name.container);
    assert Stop(w, name).world == e.world;
  }

  /** A stop request is issued exactly when the probe succeeded and saw the
      container running. */
  lemma StopRequestIff(w: World, name: Naming)
    ensures Request(Op.Stop, name.container) in Stop(w, name).trace <==>
      List !in w.daemon.faults && ListedRunning(w.daemon.containers, "/" + name.container)
    ensures Stop(w, name).outcome == Skipped <==>
      List !in w.daemon.faults && !ListedRunning(w.daemon.containers, "/" + name.container)
  {
  }

  /** The packaging command: dpkg-buildpackage followed by the flags taken
      from the environment. */
  function PackageArgs(name: Naming, flags: string): (a: Exec.ExecArgs)
    ensures a.name == name.container && a.cmd == PackageCommand + " " + flags
    ensures !a.interactive && !a.asRoot && !a.skip && !a.network
  {
    Exec.ExecArgs(false, name.container, PackageCommand + " " + flags, "", false, false, false)
  }

  /** The archive's package index: the file "Packages" directly inside the
      archive directory. */
  function PackagesFile(name: Naming): (p: string)
    ensures |p| == |name.archiveDir| + 9
    ensures p[..|name.archiveDir|] == name.archiveDir
    ensures p[|name.archiveDir|..] == "/Packages"
  {
    name.archiveDir + "/" + "Packages"
  }

  /** The `package` step: make sure the archive has a Packages file, cut the
      container off the network, run the packaging command, and reattach
      the container whatever the command did. */
  function Package(w: World, name: Naming, flags: string): (r: Run)
    ensures |r.trace| >= 1 && r.trace[0] == StatFile(PackagesFile(name))
    ensures CreateFile(PackagesFile(name)) in r.trace <==> PackagesFile(name) !in w.host.files
    ensures r.outcome.Failed? || PackagesFile(name) in r.world.host.files
  {
    var file := PackagesFile(name);
    var t0 := [StatFile(file)];
    if file !in w.host.files && w.host.createFault then
      Run(Failed(FileError(file)), t0 + [CreateFile(file)], w)
    else
      var t1 := if file in w.host.files then t0 else t0 + [CreateFile(file)];
      var w1 := w.(host := w.host.(files := w.host.files + {file}));
      var dis := ContainerDisableNetwork(w1, name.container);
      if dis.result.Err? then
        Run(Failed(dis.result.error), t1 + dis.trace, dis.world)
      else
        var ex := Exec.ContainerExec(dis.world, PackageArgs(name, flags));
        var en := ContainerEnableNetwork(ex.world, name.container);
        Run(if ex.result.Err? then Failed(ex.result.error) else Done,
            t1 + dis.trace + ex.trace + en.trace, en.world)
  }

  /** The Packages file can be had: it exists or creating it succeeds. */
  predicate PackagesFileReady(w: World, name: Naming) {
    PackagesFile(name) in w.host.files || !w.host.createFault
  }

  /** Disabling the network of the container would succeed. */
  predicate CanDisable(w: World, name: Naming) {
    !Fails(w, DisableNetwork) && name.container in w.daemon.inspections
  }

  ghost predicate NoExecRequest(t: seq<Call>) {
    forall k :: 0 <= k < |t| ==> !t[k].ExecRequest?
  }

  /** A failure to create the Packages file ends the step before any
      daemon call. */
  lemma PackageCreateFailure(w: World, name: Naming, flags: string)
    requires PackagesFile(name) !in w.host.files && w.host.createFault
    ensures Package(w, name, flags).outcome == Failed(FileError(PackagesFile(name)))
    ensures Package(w, name, flags).trace == [StatFile(PackagesFile(name)), CreateFile(PackagesFile(name))]
    ensures Package(w, name, flags).world == w
  {
  }

  /** A failure to disable the network ends the step: no exec is created
      and, since the deferred reattachment is not yet registered, no enable
      request is made either. */
  lemma PackageDisableFailure(w: World, name: Naming, flags: string)
    requires PackagesFileReady(w, name) && !CanDisable(w, name)
    ensures Package(w, name, flags).outcome.Failed?
    ensures NoExecRequest(Package(w, name, flags).trace)
    ensures Request(EnableNetwork, name.container) !in Package(w, name, flags).trace
    ensures var t := Package(w, name, flags).trace; t[|t| - 1] == Request(DisableNetwork, name.container)
  {
    var t := Package(w, name, flags).trace;
    var file := PackagesFile(name);
    var t1 := if file in w.host.files then [StatFile(file)] else [StatFile(file), CreateFile(file)];
    assert t == t1 + [Request(DisableNetwork, name.container)];
  }

  /** The trace of a step whose network disable succeeded: the file calls,
      the disable request, the exec's calls, then the enable request. */
  lemma PackageTraceShape(w: World, name: Naming, flags: string)
    requires PackagesFileReady(w, name) && CanDisable(w, name)
    ensures var file := PackagesFile(name);
      var t1 := if file in w.host.files then [StatFile(file)] else [StatFile(file), CreateFile(file)];
      var w1 := w.(host := w.host.(files := w.host.files + {file}));
      var dis := ContainerDisableNetwork(w1, name.container);
      var ex := Exec.ContainerExec(dis.world, PackageArgs(name, flags));
      && dis.result.Ok?
      && Package(w, name, flags).trace
           == t1 + [Request(DisableNetwork, name.container)] + ex.trace + [Request(EnableNetwork, name.container)]
      && (Package(w, name, flags).outcome == Done <==> ex.result.Ok?)
  {
  }

  /** Position of the disable request: after the stat, and after the
      create when the Packages file was absent. */
  function DisableIndex(w: World, name: Naming): nat {
    if PackagesFile(name) in w.host.files then 1 else 2
  }

  /** What the call at position `k` is, once the network disable succeeds:
      file calls, then the disable, then the exec's calls on the container
      (none of them a connect or disconnect), then the enable. */
  lemma PackageCallAt(w: World, name: Naming, flags: string, k: nat)
    requires PackagesFileReady(w, name) && CanDisable(w, name)
    requires k < |Package(w, name, flags).trace|
    ensures var t := Package(w, name, flags).trace;
      var d := DisableIndex(w, name);
      && d < |t| - 1
      && (k < d ==> t[k].StatFile? || t[k].CreateFile?)
      && (k == d ==> t[k] == Request(DisableNetwork, name.container))
      && (d < k < |t| - 1 ==>
            && (t[k] in {Request(Inspect, name.container)} || IsExecCall(t[k]))
            && (t[k].ExecRequest? ==> t[k] == ExecRequest(name.container, Exec.BuildConfig(PackageArgs(name, flags)))))
      && (k == |t| - 1 ==> t[k] == Request(EnableNetwork, name.container))
  {
    PackageTraceShape(w, name, flags);
    var t := Package(w, name, flags).trace;
    var file := PackagesFile(name);
    var w1 := w.(host := w.host.(files := w.host.files + {file}));
    var dis := ContainerDisableNetwork(w1, name.container);
    var args := PackageArgs(name, flags);
    var ex := Exec.ContainerExec(dis.world, args);
    var d := DisableIndex(w, name);
    if d < k < |t| - 1 {
      assert t[k] == ex.trace[k - d - 1];
      assert Inspectable(dis.world, name.container) ==> !Attached(dis.world, name.container);
      Exec.ExecCalls(dis.world, args, k - d - 1);
    }
  }

  /** Once the network is disabled the step always reattaches it, exactly
      once and as its last call, on success and on failure of the command
      alike; the disable request comes before every exec call. */
  lemma PackageReattachesLast(w: World, name: Naming, flags: string)
    requires PackagesFileReady(w, name) && CanDisable(w, name)
    ensures var t := Package(w, name, flags).trace;
      var d := DisableIndex(w, name);
      && d < |t| - 1
      && t[|t| - 1] == Request(EnableNetwork, name.container)
      && (forall k :: 0 <= k < |t| - 1 ==> t[k] != Request(EnableNetwork, name.container))
      && t[d] == Request(DisableNetwork, name.container)
      && (forall k :: 0 <= k < |t| && IsExecCall(t[k]) ==> d < k < |t| - 1)
  {
    var t := Package(w, name, flags).trace;
    PackageCallAt(w, name, flags, |t| - 1);
    PackageCallAt(w, name, flags, DisableIndex(w, name));
    forall k | 0 <= k < |t|
      ensures k < |t| - 1 ==> t[k] != Request(EnableNetwork, name.container)
      ensures IsExecCall(t[k]) ==> DisableIndex(w, name) < k < |t| - 1
    {
      PackageCallAt(w, name, flags, k);
    }
  }

  /** The only exec the step creates runs `bash -c "dpkg-buildpackage
      <flags>"` in the container, non-interactively and not as root. */
  lemma PackageExecRequest(w: World, name: Naming, flags: string, k: nat)
    requires k < |Package(w, name, flags).trace|
    requires Package(w, name, flags).trace[k].ExecRequest?
    ensures var c := Package(w, name, flags).trace[k];
      && c.name == name.container
      && c.config.cmd == ["bash", "-c", PackageCommand + " " + flags]
      && c.config.user == ""
      && !c.config.attachStdin
  {
    if !PackagesFileReady(w, name) {
      PackageCreateFailure(w, name, flags);
    } else if !CanDisable(w, name) {
      PackageDisableFailure(w, name, flags);
    } else {
      PackageCallAt(w, name, flags, k);
    }
  }

  /** While the packaging command runs the container stays off the
      network: the exec's own toggle finds it detached and makes no
      connect or disconnect request. */
  lemma PackageStaysDetached(w: World, name: Naming, flags: string)
    requires PackagesFileReady(w, name) && CanDisable(w, name)
    ensures Toggles(Package(w, name, flags).trace) == 0
    ensures var file := PackagesFile(name);
      var w1 := w.(host := w.host.(files := w.host.files + {file}));
      var dis := ContainerDisableNetwork(w1, name.container);
      !Attached(Exec.ContainerExec(dis.world, PackageArgs(name, flags)).world, name.container)
  {
    var t := Package(w, name, flags).trace;
    forall k | 0 <= k < |t| ensures !IsToggle(t[k]) {
      PackageCallAt(w, name, flags, k);
    }
    TogglesNone(t);
  }

  /** Once the network is disabled, the step is Done exactly when the
      exec's inspection, creation, attachment and final inspection succeed
      and the command exits with status 0; a non-zero status fails it with
      the command-failure error. It never skips. */
  lemma PackageOutcome(w: World, name: Naming, flags: string)
    requires PackagesFileReady(w, name) && CanDisable(w, name)
    ensures Package(w, name, flags).outcome != Skipped
    ensures Package(w, name, flags).outcome == Done <==>
      && !Fails(w, Inspect) && !Fails(w, ExecCreate) && !Fails(w, ExecAttach) && !Fails(w, ExecInspect)
      && w.daemon.exitCode == 0
    ensures (!Fails(w, Inspect) && !Fails(w, ExecCreate) && !Fails(w, ExecAttach) && !Fails(w, ExecInspect)
             && w.daemon.exitCode != 0) ==> Package(w, name, flags).outcome == Failed(NonZeroExit)
  {
    PackageTraceShape(w, name, flags);
    var file := PackagesFile(name);
    var w1 := w.(host := w.host.(files := w.host.files + {file}));
    var dis := ContainerDisableNetwork(w1, name.container);
    var args := PackageArgs(name, flags);
    var net := Network.ContainerNetwork(dis.world, name.container, false);
    assert !Attached(dis.world, name.container);
    if !Fails(w, Inspect) {
      assert Inspectable(dis.world, name.container);
      assert net.result.Ok?;
      if !Fails(w, ExecCreate) && !Fails(w, ExecAttach) && !Fails(w, ExecInspect) {
        Exec.BatchExitCode(dis.world, args);
      }
    }
  }
}
