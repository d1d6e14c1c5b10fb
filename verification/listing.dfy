/** Listing by name prefix and mount reflection (pkg/docker/container.go). */
module Listing {
  import opened Engine

  /** Removes one leading "/" if present, as strings.TrimPrefix does. */
  function TrimSlash(s: string): (r: string)
    ensures s == r || s == "/" + r
    ensures |s| > 0 && s[0] == '/' ==> s == "/" + r
  {
    if |s| > 0 && s[0] == '/' then s[1..] else s
  }

  /** Every name of a container with its leading "/" trimmed. */
  function Trimmed(names: seq<string>): (r: seq<string>)
    ensures |r| == |names|
    ensures forall k :: 0 <= k < |names| ==> r[k] == TrimSlash(names[k])
  {
    seq(|names|, k requires 0 <= k < |names| => TrimSlash(names[k]))
  }

  /** All trimmed names of all containers, container by container and,
      within one container, in the order the daemon lists them. */
  function AllNames(list: seq<Container>): seq<string>
  {
    if list == [] then [] else AllNames(list[..|list| - 1]) + Trimmed(list[|list| - 1].names)
  }

  /** The names of `names` that start with `prefix`, in order. */
  function KeepPrefixed(names: seq<string>, prefix: string): seq<string>
  {
    if names == [] then []
    else
      var last := names[|names| - 1];
      KeepPrefixed(names[..|names| - 1], prefix) + (if prefix <= last then [last] else [])
  }

  lemma KeepPrefixedSnoc(names: seq<string>, x: string, prefix: string)
    ensures KeepPrefixed(names + [x], prefix) == KeepPrefixed(names, prefix) + (if prefix <= x then [x] else [])
  {
    assert (names + [x])[..|names|] == names;
  }

  lemma {:induction false} KeepPrefixedMembers(names: seq<string>, prefix: string)
    ensures forall x :: x in KeepPrefixed(names, prefix) <==> x in names && prefix <= x
    ensures |KeepPrefixed(names, prefix)| <= |names|
    decreases |names|
  {
    if names != [] {
      var init := names[..|names| - 1];
      KeepPrefixedMembers(init, prefix);
      assert names == init + [names[|names| - 1]];
    }
  }

  lemma {:induction false} AllNamesMembers(list: seq<Container>, x: string)
    ensures x in AllNames(list) <==> exists i :: 0 <= i < |list| && x in Trimmed(list[i].names)
    decreases |list|
  {
    if list != [] {
      var n := |list| - 1;
      var init := list[..n];
      AllNamesMembers(init, x);
      assert AllNames(list) == AllNames(init) + Trimmed(list[n].names);
      if x in AllNames(init) {
        var i :| 0 <= i < |init| && x in Trimmed(init[i].names);
        assert list[i] == init[i];
      }
      if exists i :: 0 <= i < |list| && x in Trimmed(list[i].names) {
        var i :| 0 <= i < |list| && x in Trimmed(list[i].names);
        if i < n {
          assert init[i] == list[i];
        }
      }
    }
  }

  lemma AllNamesStep(list: seq<Container>, i: nat)
    requires i < |list|
    ensures AllNames(list[..i + 1]) == AllNames(list[..i]) + Trimmed(list[i].names)
  {
    assert list[..i + 1][..i] == list[..i];
  }

  lemma KeepPrefixedStep(done: seq<string>, names: seq<string>, j: nat, prefix: string)
    requires j < |names|
    ensures var x := TrimSlash(names[j]);
      KeepPrefixed(done + Trimmed(names[..j + 1]), prefix)
        == KeepPrefixed(done + Trimmed(names[..j]), prefix) + (if prefix <= x then [x] else [])
  {
    var x := TrimSlash(names[j]);
    assert Trimmed(names[..j + 1]) == Trimmed(names[..j]) + [x];
    assert done + Trimmed(names[..j + 1]) == (done + Trimmed(names[..j])) + [x];
    KeepPrefixedSnoc(done + Trimmed(names[..j]), x, prefix);
  }

  /** Names of all containers, with one leading "/" stripped, that start
      with `prefix`. */
  method ContainerList(d: Daemon, prefix: string) returns (r: Result<seq<string>>)
    ensures r.Err? <==> List in d.faults
    ensures r.Err? ==> r.error == DaemonError(List)
    ensures r.Ok? ==> r.value == KeepPrefixed(AllNames(d.containers), prefix)
  {
    if List in d.faults {
      return Err(DaemonError(List));
    }
    var list := d.containers;
    var containers: seq<string> := [];
    var i := 0;
    while i < |list|
      invariant 0 <= i <= |list|
      invariant containers == KeepPrefixed(AllNames(list[..i]), prefix)
    {
      var names := list[i].names;
      ghost var done := AllNames(list[..i]);
      var j := 0;
      assert done + Trimmed(names[..0]) == done;
      while j < |names|
        invariant 0 <= j <= |names|
        invariant containers == KeepPrefixed(done + Trimmed(names[..j]), prefix)
      {
        var name := TrimSlash(names[j]);
        KeepPrefixedStep(done, names, j, prefix);
        if prefix <= name {
          containers := containers + [name];
        }
        j := j + 1;
      }
      assert names[..j] == names;
      AllNamesStep(list, i);
      i := i + 1;
    }
    assert list[..i] == list;
    return Ok(containers);
  }

  /** What the listing promises: a name is returned iff it is, after
      trimming one "/", a name of some container and starts with the
      prefix; nothing else is returned. */
  lemma ContainerListMembers(list: seq<Container>, prefix: string, x: string)
    ensures x in KeepPrefixed(AllNames(list), prefix) <==>
      prefix <= x && exists i, j :: 0 <= i < |list| && 0 <= j < |list[i].names| && x == TrimSlash(list[i].names[j])
  {
    KeepPrefixedMembers(AllNames(list), prefix);
    AllNamesMembers(list, x);
    if x in AllNames(list) {
      var i :| 0 <= i < |list| && x in Trimmed(list[i].names);
      var j :| 0 <= j < |list[i].names| && Trimmed(list[i].names)[j] == x;
    }
    if exists i, j :: 0 <= i < |list| && 0 <= j < |list[i].names| && x == TrimSlash(list[i].names[j]) {
      var i, j :| 0 <= i < |list| && 0 <= j < |list[i].names| && x == TrimSlash(list[i].names[j]);
      assert Trimmed(list[i].names)[j] == x;
    }
  }

  /** The mounts of a container as the rest of the program describes them:
      one per inspected mount, same order, read-only exactly when the
      daemon does not report it read-write. */
  method ContainerMounts(d: Daemon, name: string) returns (r: Result<seq<Mount>>)
    ensures r.Err? <==> Inspect in d.faults || name !in d.inspections
    ensures r.Err? && Inspect in d.faults ==> r.error == DaemonError(Inspect)
    ensures r.Err? && Inspect !in d.faults ==> r.error == NoSuchContainer(name)
    ensures r.Ok? ==>
      var points := d.inspections[name].mounts;
      && |r.value| == |points|
      && forall k :: 0 <= k < |points| ==>
           && r.value[k].source == points[k].source
           && r.value[k].target == points[k].destination
           && r.value[k].kind == points[k].kind
           && r.value[k].readOnly == !points[k].rw
  {
    if Inspect in d.faults {
      return Err(DaemonError(Inspect));
    }
    if name !in d.inspections {
      return Err(NoSuchContainer(name));
    }
    var points := d.inspections[name].mounts;
    var mounts: seq<Mount> := [];
    var k := 0;
    while k < |points|
      invariant 0 <= k <= |points|
      invariant |mounts| == k
      invariant forall m :: 0 <= m < k ==>
        mounts[m] == Mount(points[m].source, points[m].destination, points[m].kind, !points[m].rw)
    {
      var v := points[k];
      mounts := mounts + [Mount(v.source, v.destination, v.kind, !v.rw)];
      k := k + 1;
    }
    return Ok(mounts);
  }
}
