/** The network toggle (pkg/docker/container.go:312-338): inspect the
    container, then connect it to "bridge", disconnect it, or do nothing,
    so that afterwards its attachment is the one wanted. */
module Network {
  import opened Engine

  /** Inspects `name` and connects or disconnects it from the bridge network
      so that it is attached exactly when `want` holds. */
  function ContainerNetwork(w: World, name: string, want: bool): (e: Effect<()>)
    ensures 1 <= |e.trace| <= 2 && e.trace[0] == Request(Inspect, name)
    ensures Request(Connect, name) in e.trace <==> Inspectable(w, name) && want && !Attached(w, name)
    ensures Request(Disconnect, name) in e.trace <==> Inspectable(w, name) && !want && Attached(w, name)
    ensures forall k :: 0 <= k < |e.trace| ==>
      e.trace[k] in {Request(Inspect, name), Request(Connect, name), Request(Disconnect, name)}
    ensures !Inspectable(w, name) ==> e.result.Err? && e.world == w
    ensures Inspectable(w, name) && Attached(w, name) == want ==> e.result.Ok? && e.world == w
    ensures e.result.Ok? <==>
      Inspectable(w, name)
      && (Attached(w, name) == want || !Fails(w, if want then Connect else Disconnect))
    ensures e.result.Ok? ==> Attached(e.world, name) == want
    ensures e.result.Err? ==> e.world == w
    ensures Fails(w, Inspect) ==> e.result == Err(DaemonError(Inspect))
    ensures !Fails(w, Inspect) && name !in w.daemon.inspections ==> e.result == Err(NoSuchContainer(name))
    ensures Inspectable(w, name) && want && !Attached(w, name) && Fails(w, Connect) ==>
      e.result == Err(DaemonError(Connect))
    ensures Inspectable(w, name) && !want && Attached(w, name) && Fails(w, Disconnect) ==>
      e.result == Err(DaemonError(Disconnect))
    ensures SameBesidesNetworks(w, e.world, name)
  {
    var t := [Request(Inspect, name)];
    if Fails(w, Inspect) then Effect(Err(DaemonError(Inspect)), t, w)
    else if name !in w.daemon.inspections then Effect(Err(NoSuchContainer(name)), t, w)
    else
      var got := Bridge in w.daemon.inspections[name].networks;
      if want && !got then
        var t' := t + [Request(Connect, name)];
        if Fails(w, Connect) then Effect(Err(DaemonError(Connect)), t', w)
        else Effect(Ok(()), t', WithNetworks(w, name, w.daemon.inspections[name].networks + {Bridge}))
      else if !want && got then
        var t' := t + [Request(Disconnect, name)];
        if Fails(w, Disconnect) then Effect(Err(DaemonError(Disconnect)), t', w)
        else Effect(Ok(()), t', WithNetworks(w, name, w.daemon.inspections[name].networks - {Bridge}))
      else
        Effect(Ok(()), t, w)
  }

  /** Calling the toggle twice with the same wish, the second time against
      the world the first left behind under any set of failing endpoints:
      the second call makes only its inspection, changes nothing when it
      succeeds, and succeeds exactly when that inspection does; the pair
      makes at most one connect or disconnect request. */
  lemma NetworkIdempotent(w: World, name: string, want: bool, faults: set<Op>)
    requires ContainerNetwork(w, name, want).result.Ok?
    ensures var e1 := ContainerNetwork(w, name, want);
      var w2 := e1.world.(daemon := e1.world.daemon.(faults := faults));
      var e2 := ContainerNetwork(w2, name, want);
      && e2.trace == [Request(Inspect, name)]
      && (e2.result.Ok? <==> Inspect !in faults)
      && (e2.result.Ok? ==> e2.world == w2)
      && (faults == w.daemon.faults ==> e2.result.Ok? && e2.world == e1.world)
      && Toggles(e1.trace + e2.trace) <= 1
  {
    var e1 := ContainerNetwork(w, name, want);
    var w2 := e1.world.(daemon := e1.world.daemon.(faults := faults));
    var e2 := ContainerNetwork(w2, name, want);
    assert name in w2.daemon.inspections && Attached(w2, name) == want;
    TogglesAppend(e1.trace, e2.trace);
    assert Toggles(e2.trace) == 0;
    NetworkTogglesAtMostOnce(w, name, want);
  }

  /** Whatever the wish, the toggle issues at most one connect or
      disconnect request. */
  lemma NetworkTogglesAtMostOnce(w: World, name: string, want: bool)
    ensures Toggles(ContainerNetwork(w, name, want).trace) <= 1
  {
    var t := ContainerNetwork(w, name, want).trace;
    assert !IsToggle(t[0]);
    assert Toggles(t) == Toggles(t[1..]);
    if |t| == 2 {
      assert t[1..][1..] == [];
      assert Toggles(t[1..]) == (if IsToggle(t[1]) then 1 else 0) + Toggles([]);
    } else {
      assert t[1..] == [];
    }
  }
}
