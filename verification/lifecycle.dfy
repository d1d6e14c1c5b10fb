/** Create, start, stop and remove (pkg/docker/container.go:131-172). In the
    source each is a single pass-through call to the daemon; here each is one
    trace entry that fails when its endpoint is in the fault set, together
    with the daemon-side effect the rest of the program relies on. */
module Lifecycle {
  import opened Engine
  import Probes

  datatype CreateArgs = CreateArgs(mounts: seq<Mount>, image: string, name: string, user: string)

  /** `list` with the state of every container named `full` set to `state`. */
  function SetState(list: seq<Container>, full: string, state: string): (r: seq<Container>)
    ensures |r| == |list|
    ensures forall i :: 0 <= i < |list| ==>
      r[i].names == list[i].names && (full in list[i].names ==> r[i].state == state)
    ensures forall i :: 0 <= i < |list| && full !in list[i].names ==> r[i] == list[i]
  {
    seq(|list|, i requires 0 <= i < |list| =>
      if full in list[i].names then list[i].(state := state) else list[i])
  }

  /** `list` without the containers named `full`, order kept. */
  function Without(list: seq<Container>, full: string): (r: seq<Container>)
    ensures forall c :: c in r <==> c in list && full !in c.names
    ensures |r| <= |list|
  {
    if list == [] then []
    else (if full in list[0].names then [] else [list[0]]) + Without(list[1..], full)
  }

  /** The inspected form of a mount the container is created with. */
  function PointOf(m: Mount): MountPoint {
    MountPoint(m.source, m.target, m.kind, !m.readOnly)
  }

  /** Creates the container; the daemon refuses a name already in use. On
      success the container is listed in state "created", attached to the
      default bridge network, with the requested mounts. */
  function ContainerCreate(w: World, args: CreateArgs): (e: Effect<()>)
    ensures e.trace == [Request(Op.Create, args.name)]
    ensures e.result.Ok? <==> !Fails(w, Op.Create) && !Listed(w.daemon.containers, "/" + args.name)
    ensures e.result.Err? ==> e.world == w
    ensures e.result.Ok? ==>
      && e.world.host == w.host
      && Listed(e.world.daemon.containers, "/" + args.name)
      && !ListedRunning(e.world.daemon.containers, "/" + args.name)
      && args.name in e.world.daemon.inspections
      && Attached(e.world, args.name)
      && |e.world.daemon.inspections[args.name].mounts| == |args.mounts|
      && (forall k :: 0 <= k < |args.mounts| ==>
            var p := e.world.daemon.inspections[args.name].mounts[k];
            p.source == args.mounts[k].source && p.destination == args.mounts[k].target
            && p.kind == args.mounts[k].kind && p.rw == !args.mounts[k].readOnly)
  {
    var t := [Request(Op.Create, args.name)];
    var full := "/" + args.name;
    if Fails(w, Op.Create) then Effect(Err(DaemonError(Op.Create)), t, w)
    else if Probes.Named(w.daemon.containers, full) then Effect(Err(NameInUse(args.name)), t, w)
    else
      var c := Container([full], Created);
      var ins := Inspection({Bridge}, seq(|args.mounts|, k requires 0 <= k < |args.mounts| => PointOf(args.mounts[k])));
      var list := w.daemon.containers + [c];
      assert list[|list| - 1] == c;
      Effect(Ok(()), t, w.(daemon := w.daemon.(containers := list,
                                              inspections := w.daemon.inspections[args.name := ins])))
  }

  /** Starts the container: every container with that name is running. */
  function ContainerStart(w: World, name: string): (e: Effect<()>)
    ensures e.trace == [Request(Op.Start, name)]
    ensures e.result.Ok? <==> !Fails(w, Op.Start) && Listed(w.daemon.containers, "/" + name)
    ensures e.result.Err? ==> e.world == w
    ensures e.result.Ok? ==>
      && e.world.host == w.host
      && e.world.daemon.inspections == w.daemon.inspections
      && ListedRunning(e.world.daemon.containers, "/" + name)
  {
    var t := [Request(Op.Start, name)];
    var full := "/" + name;
    if Fails(w, Op.Start) then Effect(Err(DaemonError(Op.Start)), t, w)
    else if !Probes.Named(w.daemon.containers, full) then Effect(Err(NoSuchContainer(name)), t, w)
    else
      var list := SetState(w.daemon.containers, full, Running);
      var i :| 0 <= i < |w.daemon.containers| && full in w.daemon.containers[i].names;
      assert full in list[i].names && list[i].state == Running;
      Effect(Ok(()), t, w.(daemon := w.daemon.(containers := list)))
  }

  /** Stops the container: afterwards no container with that name is
      running, and containers with other names are untouched. */
  function ContainerStop(w: World, name: string): (e: Effect<()>)
    ensures e.trace == [Request(Op.Stop, name)]
    ensures e.result.Ok? <==> !Fails(w, Op.Stop) && Listed(w.daemon.containers, "/" + name)
    ensures e.result.Err? ==> e.world == w
    ensures e.result.Ok? ==>
      && e.world.host == w.host
      && e.world.daemon.inspections == w.daemon.inspections
      && e.world.daemon.faults == w.daemon.faults
      && |e.world.daemon.containers| == |w.daemon.containers|
      && Listed(e.world.daemon.containers, "/" + name)
      && !ListedRunning(e.world.daemon.containers, "/" + name)
      && (forall i :: 0 <= i < |w.daemon.containers| && "/" + name !in w.daemon.containers[i].names ==>
            e.world.daemon.containers[i] == w.daemon.containers[i])
  {
    var t := [Request(Op.Stop, name)];
    var full := "/" + name;
    if Fails(w, Op.Stop) then Effect(Err(DaemonError(Op.Stop)), t, w)
    else if !Probes.Named(w.daemon.containers, full) then Effect(Err(NoSuchContainer(name)), t, w)
    else
      var list := SetState(w.daemon.containers, full, Exited);
      var i :| 0 <= i < |w.daemon.containers| && full in w.daemon.containers[i].names;
      assert full in list[i].names;
      Effect(Ok(()), t, w.(daemon := w.daemon.(containers := list)))
  }

  /** Removes the container; the daemon refuses to remove a running one. */
  function ContainerRemove(w: World, name: string): (e: Effect<()>)
    ensures e.trace == [Request(Op.Remove, name)]
    ensures e.result.Ok? <==>
      !Fails(w, Op.Remove) && Listed(w.daemon.containers, "/" + name)
      && !ListedRunning(w.daemon.containers, "/" + name)
    ensures e.result.Err? ==> e.world == w
    ensures e.result.Ok? ==>
      && e.world.host == w.host
      && !Listed(e.world.daemon.containers, "/" + name)
      && name !in e.world.daemon.inspections
      && (forall c :: c in w.daemon.containers && "/" + name !in c.names ==> c in e.world.daemon.containers)
  {
    var t := [Request(Op.Remove, name)];
    var full := "/" + name;
    if Fails(w, Op.Remove) then Effect(Err(DaemonError(Op.Remove)), t, w)
    else if !Probes.Named(w.daemon.containers, full) then Effect(Err(NoSuchContainer(name)), t, w)
    else if Probes.NamedRunning(w.daemon.containers, full) then Effect(Err(DaemonError(Op.Remove)), t, w)
    else
      var list := Without(w.daemon.containers, full);
      assert !Listed(list, full) by {
        forall i | 0 <= i < |list| ensures full !in list[i].names {
          assert list[i] in list;
        }
      }
      Effect(Ok(()), t, w.(daemon := w.daemon.(containers := list,
                                              inspections := w.daemon.inspections - {name})))
  }

  /** Once a stop succeeds, the stopped-probe answers true. */
  lemma StopThenStopped(w: World, name: string)
    requires ContainerStop(w, name).result.Ok?
    requires List !in w.daemon.faults
    ensures Probes.IsContainerStopped(ContainerStop(w, name).world.daemon, name) == Probes.Probe(true, None)
    ensures Probes.IsContainerCreated(ContainerStop(w, name).world.daemon, name) == Probes.Probe(true, None)
  {
  }

  /** Once a start succeeds, the started-probe answers true. */
  lemma StartThenStarted(w: World, name: string)
    requires ContainerStart(w, name).result.Ok?
    requires List !in w.daemon.faults
    ensures Probes.IsContainerStarted(ContainerStart(w, name).world.daemon, name) == Probes.Probe(true, None)
    ensures Probes.IsContainerStopped(ContainerStart(w, name).world.daemon, name) == Probes.Probe(false, None)
  {
  }
}
