/** The state probes of pkg/docker/container.go: each lists every container
    the daemon knows (all states) and matches names exactly against
    "/" + name. Each returns the Go pair (value, error): on a list error the
    value is false, whatever the daemon holds. */
module Probes {
  import opened Engine

  datatype Probe = Probe(value: bool, err: Option<Error>)

  /** Scan for a container carrying the name `full`. */
  function Named(list: seq<Container>, full: string): (r: bool)
    ensures r <==> Listed(list, full)
  {
    if list == [] then false
    else if full in list[0].names then true
    else
      var r := Named(list[1..], full);
      assert forall i :: 1 <= i < |list| ==> list[i] == list[1..][i - 1];
      r
  }

  /** Scan for a running container carrying the name `full`; stops at the
      first such container. */
  function NamedRunning(list: seq<Container>, full: string): (r: bool)
    ensures r <==> ListedRunning(list, full)
  {
    if list == [] then false
    else if full in list[0].names && list[0].state == Running then true
    else
      var r := NamedRunning(list[1..], full);
      assert forall i :: 1 <= i < |list| ==> list[i] == list[1..][i - 1];
      r
  }

  /** Scan that answers false at the first running container carrying the
      name `full` and true when there is none. */
  function NoneNamedRunning(list: seq<Container>, full: string): (r: bool)
    ensures r <==> forall i :: 0 <= i < |list| && full in list[i].names ==> list[i].state != Running
  {
    if list == [] then true
    else if full in list[0].names && list[0].state == Running then false
    else
      var r := NoneNamedRunning(list[1..], full);
      assert forall i :: 1 <= i < |list| ==> list[i] == list[1..][i - 1];
      r
  }

  function ListError(d: Daemon): Option<Error> {
    if List in d.faults then Some(DaemonError(List)) else None
  }

  /** Whether a container called `name` exists, in any state. */
  function IsContainerCreated(d: Daemon, name: string): (r: Probe)
    ensures r.err.Some? <==> List in d.faults
    ensures r.err.Some? ==> !r.value && r.err.value == DaemonError(List)
    ensures r.err.None? ==> (r.value <==> Listed(d.containers, "/" + name))
  {
    if List in d.faults then Probe(false, ListError(d))
    else Probe(Named(d.containers, "/" + name), None)
  }

  /** Whether a container called `name` is running. */
  function IsContainerStarted(d: Daemon, name: string): (r: Probe)
    ensures r.err.Some? <==> List in d.faults
    ensures r.err.Some? ==> !r.value && r.err.value == DaemonError(List)
    ensures r.err.None? ==> (r.value <==> ListedRunning(d.containers, "/" + name))
  {
    if List in d.faults then Probe(false, ListError(d))
    else Probe(NamedRunning(d.containers, "/" + name), None)
  }

  /** Whether no container called `name` is running; an absent container
      counts as stopped, a failed listing does not. */
  function IsContainerStopped(d: Daemon, name: string): (r: Probe)
    ensures r.err.Some? <==> List in d.faults
    ensures r.err.Some? ==> !r.value && r.err.value == DaemonError(List)
    ensures r.err.None? ==> (r.value <==> !ListedRunning(d.containers, "/" + name))
  {
    if List in d.faults then Probe(false, ListError(d))
    else Probe(NoneNamedRunning(d.containers, "/" + name), None)
  }

  /** On a successful listing the stopped probe is the negation of the
      started probe, and a running container is also a created one. */
  lemma StoppedIsNotStarted(d: Daemon, name: string)
    requires List !in d.faults
    ensures IsContainerStopped(d, name).value == !IsContainerStarted(d, name).value
    ensures IsContainerStarted(d, name).value ==> IsContainerCreated(d, name).value
  {
  }

  /** An absent container is not started and counts as stopped. */
  lemma AbsentIsStopped(d: Daemon, name: string)
    requires List !in d.faults
    requires !IsContainerCreated(d, name).value
    ensures !IsContainerStarted(d, name).value
    ensures IsContainerStopped(d, name) == Probe(true, None)
  {
  }
}
