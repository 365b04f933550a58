/**
  The memory totals of scripts/bench/mem_aggregate.py: process sizes by class, the runtime's process groups,
  and container sizes by control group.
 */
module MemAggregate {
  import opened Options
  import opened Text

  // Processes

  // names are the lower-case base names of the command and of its first argument word (_proc_names), comm and args
  // the lower-case command and command line.
  datatype Proc = Proc(names: seq<string>, comm: string, args: string, rss: Option<nat>, pss: Option<nat>, uss: Option<nat>)

  datatype Class = Ignore | Controller | Ingress | Runtime | ControlPlane | Containerd | Dns | Other

  datatype Group = ContainerdGroup | ShimGroup | Conmon | Podman | Passt | Slirp | Dockerd | OtherRuntime

  predicate Contains(s: string, part: string) {
    exists i :: 0 <= i <= |s| && StartsWith(s[i..], part)
  }

  predicate AnyNamed(p: Proc, name: string) {
    name in p.names
  }

  predicate IsShim(name: string) {
    StartsWith(name, "containerd-shim")
  }

  predicate AnyShim(p: Proc) {
    exists i :: 0 <= i < |p.names| && IsShim(p.names[i])
  }

  function GroupOfName(name: string): Option<Group> {
    if IsShim(name) then Some(ShimGroup)
    else if name == "containerd" then Some(ContainerdGroup)
    else if name == "conmon" then Some(Conmon)
    else if name == "podman" then Some(Podman)
    else if StartsWith(name, "passt") || name == "pasta" then Some(Passt)
    else if name == "slirp4netns" then Some(Slirp)
    else if name == "dockerd" then Some(Dockerd)
    else None
  }

  // _runtime_group_key: the group of the first name that has one
  function GroupOfNames(names: seq<string>): Option<Group> {
    if names == [] then None
    else if GroupOfName(names[0]).Some? then GroupOfName(names[0])
    else GroupOfNames(names[1..])
  }

  // _runtime_lane_groups
  function Lane(mode: string, engine: string): set<Group> {
    if Lower(mode) == "k3s" then {ContainerdGroup, Dockerd}
    else if engine == "cri" then {ContainerdGroup, ShimGroup}
    else if engine == "docker" then {ContainerdGroup, Dockerd}
    else if engine == "podman" || engine == "oci" then {Podman, Conmon, Passt, Slirp}
    else {ContainerdGroup, ShimGroup, Conmon, Podman, Passt, Slirp, Dockerd}
  }

  // The names of each group; a shim is told by how its name begins.
  lemma NamesOfGroups(name: string)
    ensures var g := GroupOfName(name);
      && (g == Some(ShimGroup) <==> "containerd-shim" <= name)
      && (g == Some(ContainerdGroup) <==> name == "containerd")
      && (g == Some(Conmon) <==> name == "conmon")
      && (g == Some(Podman) <==> name == "podman")
      && (g == Some(Passt) <==> "passt" <= name || name == "pasta")
      && (g == Some(Slirp) <==> name == "slirp4netns")
      && (g == Some(Dockerd) <==> name == "dockerd")
      && g != Some(OtherRuntime)
  {
    assert "containerd-shim" <= name ==> name[0] == 'c' && name[1] == 'o' && name[9] == 'd' && |name| >= 15;
    assert "passt" <= name ==> name[0] == 'p' && name[1] == 'a';
    assert |"containerd"| == 10 && |"conmon"| == 6 && "podman"[1] == 'o' && "slirp4netns"[0] == 's' && "dockerd"[0] == 'd'
        && "pasta"[0] == 'p';
  }

  // A process has the group of the first of its names that has one.
  lemma {:induction false} GroupIsFirst(names: seq<string>, g: Group)
    ensures GroupOfNames(names) == Some(g) <==>
              exists i :: 0 <= i < |names| && GroupOfName(names[i]) == Some(g)
                          && forall j :: 0 <= j < i ==> GroupOfName(names[j]).None?
  {
    hide GroupOfName;
    if names != [] && GroupOfName(names[0]).None? {
      GroupIsFirst(names[1..], g);
      if i :| 0 <= i < |names| && GroupOfName(names[i]) == Some(g) && forall j :: 0 <= j < i ==> GroupOfName(names[j]).None? {
        assert names[1..][i - 1] == names[i];
        assert forall j :: 0 <= j < i - 1 ==> names[1..][j] == names[j + 1];
      }
      if i :| 0 <= i < |names| - 1 && GroupOfName(names[1..][i]) == Some(g)
              && forall j :: 0 <= j < i ==> GroupOfName(names[1..][j]).None? {
        assert names[i + 1] == names[1..][i];
        assert forall j :: 0 < j < i + 1 ==> names[j] == names[1..][j - 1];
      }
    }
  }

  // Which lanes admit each group
  lemma LanesOfGroups(mode: string, engine: string)
    ensures var lane, k3s := Lane(mode, engine), Lower(mode) == "k3s";
      && (ContainerdGroup in lane <==> k3s || engine !in {"podman", "oci"})
      && (Dockerd in lane <==> k3s || engine !in {"cri", "podman", "oci"})
      && (ShimGroup in lane <==> !k3s && engine !in {"docker", "podman", "oci"})
      && (forall g :: g in {Podman, Conmon, Passt, Slirp} ==> (g in lane <==> !k3s && engine !in {"cri", "docker"}))
      && OtherRuntime !in lane
  {
    hide Lower;
  }

  predicate IsController(p: Proc) {
    Contains(p.comm, "ae.controller") || Contains(p.args, "ae.controller")
  }

  predicate IsIngress(p: Proc) {
    AnyNamed(p, "caddy") || Contains(p.args, " caddy")
  }

  // _classify_proc
  function Classify(p: Proc, mode: string, lane: set<Group>): Class {
    if AnyShim(p) then Ignore
    else if mode == "k3s" then
      if AnyNamed(p, "k3s") then ControlPlane
      else if AnyNamed(p, "containerd") then Containerd
      else if AnyNamed(p, "coredns") then Dns
      else if AnyNamed(p, "traefik") then Ingress
      else Other
    else if IsController(p) then Controller
    else if IsIngress(p) then Ingress
    else if GroupOfNames(p.names).Some? then
      if GroupOfNames(p.names).value in lane then Runtime else Ignore
    else if AnyNamed(p, "netavark") || AnyNamed(p, "aardvark-dns") then Runtime
    else Other
  }

  // A runtime process: the group of its names is one of the lane's, or it has none and is a network helper.
  predicate InRuntime(p: Proc, lane: set<Group>) {
    if GroupOfNames(p.names).Some? then GroupOfNames(p.names).value in lane
    else "netavark" in p.names || "aardvark-dns" in p.names
  }

  // The class of a process in k3s: that of the first of four names that it has
  lemma ClassInK3s(p: Proc, lane: set<Group>)
    requires !AnyShim(p)
    ensures var c := Classify(p, "k3s", lane);
      && (c == ControlPlane <==> "k3s" in p.names)
      && (c == Containerd <==> "containerd" in p.names && "k3s" !in p.names)
      && (c == Dns <==> "coredns" in p.names && "containerd" !in p.names && "k3s" !in p.names)
      && (c == Ingress <==> "traefik" in p.names && forall n :: n in ["coredns", "containerd", "k3s"] ==> n !in p.names)
      && (c == Other <==> forall n :: n in ["k3s", "containerd", "coredns", "traefik"] ==> n !in p.names)
  {
  }

  // Its class elsewhere: controller, ingress, runtime and other, in that order; what has a group outside the lane is
  // ignored, and so are shims everywhere.
  lemma ClassElsewhere(p: Proc, mode: string, lane: set<Group>)
    requires mode != "k3s"
    ensures var c := Classify(p, mode, lane);
      var controls := Contains(p.comm, "ae.controller") || Contains(p.args, "ae.controller");
      var serves := "caddy" in p.names || Contains(p.args, " caddy");
      && (c == Controller <==> !AnyShim(p) && controls)
      && (c == Ingress <==> !AnyShim(p) && !controls && serves)
      && (c == Runtime <==> !AnyShim(p) && !controls && !serves && InRuntime(p, lane))
      && (c == Other <==> !AnyShim(p) && !controls && !serves && !InRuntime(p, lane) && GroupOfNames(p.names).None?)
      && c != ControlPlane && c != Containerd && c != Dns
  {
    hide Contains, AnyShim, GroupOfNames;
  }

  lemma ShimsAreIgnored(p: Proc, mode: string, lane: set<Group>)
    requires exists i :: 0 <= i < |p.names| && "containerd-shim" <= p.names[i]
    ensures Classify(p, mode, lane) == Ignore
  {
    var i :| 0 <= i < |p.names| && "containerd-shim" <= p.names[i];
    assert IsShim(p.names[i]);
  }

  function Kb(size: Option<nat>): nat {
    if size.Some? then size.value else 0
  }

  // Sizes by class

  datatype Bucket = Bucket(rss: nat, pss: nat, uss: nat)

  const EMPTY := Bucket(0, 0, 0)

  function SizeOf(p: Proc): Bucket {
    Bucket(Kb(p.rss), Kb(p.pss), Kb(p.uss))
  }

  function At(buckets: map<Class, Bucket>, c: Class): Bucket {
    if c in buckets then buckets[c] else EMPTY
  }

  // The size of the processes of one class
  function ClassTotal(procs: seq<Proc>, mode: string, lane: set<Group>, c: Class): Bucket {
    if procs == [] then EMPTY
    else
      var p, before := procs[|procs| - 1], ClassTotal(procs[..|procs| - 1], mode, lane, c);
      if Classify(p, mode, lane) == c then Add(before, SizeOf(p)) else before
  }

  function Add(a: Bucket, b: Bucket): (r: Bucket)
    ensures r.rss == a.rss + b.rss && r.pss == a.pss + b.pss && r.uss == a.uss + b.uss
  {
    Bucket(a.rss + b.rss, a.pss + b.pss, a.uss + b.uss)
  }

  // The buckets have this order in a sum.
  function Place(c: Class): nat {
    match c
    case Controller => 0
    case Ingress => 1
    case Runtime => 2
    case ControlPlane => 3
    case Containerd => 4
    case Dns => 5
    case Other => 6
    case Ignore => 7
  }

  function ClassAt(i: nat): (c: Class)
    requires i < 8
    ensures Place(c) == i
  {
    if i == 0 then Controller else if i == 1 then Ingress else if i == 2 then Runtime else if i == 3 then ControlPlane
    else if i == 4 then Containerd else if i == 5 then Dns else if i == 6 then Other else Ignore
  }

  lemma PlacedAt(c: Class, i: nat)
    requires i < 8
    ensures ClassAt(i) == c <==> Place(c) == i
  {
  }

  // The buckets of the first n classes
  function SumOf(buckets: map<Class, Bucket>, n: nat): Bucket
    requires n <= 7
  {
    if n == 0 then EMPTY else Add(SumOf(buckets, n - 1), At(buckets, ClassAt(n - 1)))
  }

  // All buckets but the one for other processes
  function Overhead(buckets: map<Class, Bucket>): Bucket {
    SumOf(buckets, 6)
  }

  // The totals are the buckets' sum.
  predicate Conserved(totals: Bucket, buckets: map<Class, Bucket>) {
    Ignore !in buckets && totals == SumOf(buckets, 7)
  }

  lemma {:induction false} SumOfMore(buckets: map<Class, Bucket>, c: Class, more: Bucket, n: nat)
    requires n <= 7
    ensures SumOf(buckets[c := Add(At(buckets, c), more)], n)
         == if Place(c) < n then Add(SumOf(buckets, n), more) else SumOf(buckets, n)
  {
    hide At, ClassAt, Place;
    if n > 0 {
      SumOfMore(buckets, c, more, n - 1);
      PlacedAt(c, n - 1);
      AtUpdated(buckets, c, Add(At(buckets, c), more), ClassAt(n - 1));
    }
  }

  lemma AtUpdated(buckets: map<Class, Bucket>, c: Class, b: Bucket, d: Class)
    ensures At(buckets[c := b], d) == if c == d then b else At(buckets, d)
  {
  }

  lemma AllClasses(c: Class)
    ensures c != Ignore ==> Place(c) < 7
  {
  }

  lemma AddedIsConserved(totals: Bucket, buckets: map<Class, Bucket>, c: Class, more: Bucket)
    requires Conserved(totals, buckets) && c != Ignore
    ensures Conserved(Add(totals, more), buckets[c := Add(At(buckets, c), more)])
  {
    hide SumOf, At, Place;
    SumOfMore(buckets, c, more, 7);
    AllClasses(c);
  }

  // The buckets hold the sizes of the processes by class.
  ghost predicate Sorted(procs: seq<Proc>, mode: string, lane: set<Group>, buckets: map<Class, Bucket>) {
    forall c :: c != Ignore ==> At(buckets, c) == ClassTotal(procs, mode, lane, c)
  }

  lemma NothingIsSorted(mode: string, lane: set<Group>)
    ensures Sorted([], mode, lane, map[]) && Conserved(EMPTY, map[])
  {
    hide Classify, SumOf;
    SumOfNothing(map[], 7);
  }

  lemma {:induction false} SumOfNothing(buckets: map<Class, Bucket>, n: nat)
    requires n <= 7 && buckets.Keys == {}
    ensures SumOf(buckets, n) == EMPTY
  {
    hide ClassAt, Place, At, Add;
    if n > 0 {
      SumOfNothing(buckets, n - 1);
      NothingAt(buckets, ClassAt(n - 1));
      var b := SumOf(buckets, n);
      assert b.rss == 0 && b.pss == 0 && b.uss == 0;
    }
  }

  lemma NothingAt(buckets: map<Class, Bucket>, c: Class)
    requires buckets.Keys == {}
    ensures At(buckets, c) == EMPTY
  {
  }

  lemma SortedMore(procs: seq<Proc>, p: Proc, mode: string, lane: set<Group>, buckets: map<Class, Bucket>)
    requires Sorted(procs, mode, lane, buckets)
    ensures var c := Classify(p, mode, lane);
      if c == Ignore then Sorted(procs + [p], mode, lane, buckets)
      else Sorted(procs + [p], mode, lane, buckets[c := Add(At(buckets, c), SizeOf(p))])
  {
    hide Classify, At;
    assert (procs + [p])[..|procs|] == procs;
    forall d | d != Ignore
      ensures ClassTotal(procs + [p], mode, lane, d)
           == if Classify(p, mode, lane) == d then Add(ClassTotal(procs, mode, lane, d), SizeOf(p))
              else ClassTotal(procs, mode, lane, d)
    {
    }
    hide ClassTotal, SizeOf;
    forall d | d != Ignore
      ensures At(buckets[Classify(p, mode, lane) := Add(At(buckets, Classify(p, mode, lane)), SizeOf(p))], d)
           == if Classify(p, mode, lane) == d then Add(At(buckets, d), SizeOf(p)) else At(buckets, d)
    {
      AtUpdated(buckets, Classify(p, mode, lane), Add(At(buckets, Classify(p, mode, lane)), SizeOf(p)), d);
    }
  }

  // The loop over the processes
  method AddProcs(procs: seq<Proc>, mode: string, lane: set<Group>) returns (totals: Bucket, buckets: map<Class, Bucket>)
    ensures Conserved(totals, buckets) && Sorted(procs, mode, lane, buckets)
  {
    hide *;
    totals, buckets := EMPTY, map[];
    NothingIsSorted(mode, lane);
    assert procs[..0] == [];
    for i := 0 to |procs|
      invariant Conserved(totals, buckets) && Sorted(procs[..i], mode, lane, buckets)
    {
      var p := procs[i];
      assert procs[..i + 1] == procs[..i] + [p];
      SortedMore(procs[..i], p, mode, lane, buckets);
      var c := Classify(p, mode, lane);
      if c == Ignore {
        continue;
      }
      AddedIsConserved(totals, buckets, c, SizeOf(p));
      totals := Add(totals, SizeOf(p));
      buckets := buckets[c := Add(At(buckets, c), SizeOf(p))];
    }
    assert procs[..|procs|] == procs;
  }

  // What docker-exec measured inside the containers; absent or unreadable files give None.
  datatype Extras = Extras(controlPlane: Option<int>, k1nd: Option<(int, int, int)>)

  // The measurement that may fill the gap of a class
  function Measured(mode: string, extras: Extras, c: Class): int {
    if mode == "k3s" && extras.controlPlane.Some? && c == ControlPlane then extras.controlPlane.value
    else if mode == "k1s" && extras.k1nd.Some? && c == Controller then extras.k1nd.value.0 + extras.k1nd.value.1
    else if mode == "k1s" && extras.k1nd.Some? && c == Ingress then extras.k1nd.value.2
    else 0
  }

  function Filled(b: Bucket, size: int): Bucket {
    if size > 0 && b.pss == 0 then Bucket(b.rss, size, b.uss) else b
  }

  // Fills a gap: the measurement counts when the processes gave no size.
  method Fill(totals: Bucket, buckets: map<Class, Bucket>, c: Class, size: int)
    returns (totals': Bucket, buckets': map<Class, Bucket>)
    requires Conserved(totals, buckets) && c != Ignore
    ensures Conserved(totals', buckets')
    ensures forall d :: At(buckets', d) == if d == c then Filled(At(buckets, d), size) else At(buckets, d)
  {
    hide Conserved, At;
    totals', buckets' := totals, buckets;
    if size > 0 {
      var gap := if At(buckets, c).pss == 0 then size else 0;
      var more := Bucket(0, gap, 0);
      AddedIsConserved(totals, buckets, c, more);
      forall d
        ensures At(buckets[c := Add(At(buckets, c), more)], d) == if c == d then Add(At(buckets, c), more) else At(buckets, d)
      {
        AtUpdated(buckets, c, Add(At(buckets, c), more), d);
      }
      buckets' := buckets'[c := Add(At(buckets, c), more)];
      totals' := Add(totals, more);
    }
  }

  // The process part of aggregate: memory is conserved through every fill-in.
  method AggregateProcs(procs: seq<Proc>, mode: string, lane: set<Group>, extras: Extras)
    returns (totals: Bucket, buckets: map<Class, Bucket>)
    ensures Conserved(totals, buckets)
    ensures totals.pss == Overhead(buckets).pss + At(buckets, Other).pss
    ensures forall c :: c != Ignore ==>
              At(buckets, c) == Filled(ClassTotal(procs, mode, lane, c), Measured(mode, extras, c))
  {
    hide Conserved, At, ClassTotal, Overhead;
    totals, buckets := AddProcs(procs, mode, lane);
    if mode == "k3s" && extras.controlPlane.Some? {
      totals, buckets := Fill(totals, buckets, ControlPlane, extras.controlPlane.value);
    }
    if mode == "k1s" && extras.k1nd.Some? {
      var (controller, apishim, ingress) := extras.k1nd.value;
      totals, buckets := Fill(totals, buckets, Controller, controller + apishim);
      totals, buckets := Fill(totals, buckets, Ingress, ingress);
    }
    OverheadAndOther(totals, buckets);
  }

  lemma OverheadAndOther(totals: Bucket, buckets: map<Class, Bucket>)
    requires Conserved(totals, buckets)
    ensures totals == Add(Overhead(buckets), At(buckets, Other))
  {
    hide At;
  }

  // Sizes by runtime group

  // The group that _runtime_process_group_stats counts a process in
  function CountedIn(p: Proc, mode: string, lane: set<Group>): Option<Group> {
    var group := GroupOfNames(p.names);
    if group.None? then if Classify(p, mode, lane) == Runtime then Some(OtherRuntime) else None
    else if group.value in lane then group
    else None
  }

  function GroupTotal(procs: seq<Proc>, mode: string, lane: set<Group>, g: Group): nat {
    if procs == [] then 0
    else
      var p := procs[|procs| - 1];
      GroupTotal(procs[..|procs| - 1], mode, lane, g) + if CountedIn(p, mode, lane) == Some(g) then Kb(p.pss) else 0
  }

  // The processes that count in any group
  function GroupedTotal(procs: seq<Proc>, mode: string, lane: set<Group>): nat {
    if procs == [] then 0
    else
      var p := procs[|procs| - 1];
      GroupedTotal(procs[..|procs| - 1], mode, lane) + if CountedIn(p, mode, lane).Some? then Kb(p.pss) else 0
  }

  function PlaceOf(g: Group): nat {
    match g
    case ContainerdGroup => 0
    case ShimGroup => 1
    case Conmon => 2
    case Podman => 3
    case Passt => 4
    case Slirp => 5
    case Dockerd => 6
    case OtherRuntime => 7
  }

  function GroupAt(i: nat): (g: Group)
    requires i < 8
    ensures PlaceOf(g) == i
  {
    if i == 0 then ContainerdGroup else if i == 1 then ShimGroup else if i == 2 then Conmon else if i == 3 then Podman
    else if i == 4 then Passt else if i == 5 then Slirp else if i == 6 then Dockerd else OtherRuntime
  }

  lemma GroupPlacedAt(g: Group, i: nat)
    requires i < 8
    ensures GroupAt(i) == g <==> PlaceOf(g) == i
    ensures PlaceOf(g) < 8
  {
  }

  // The sizes of the first n groups
  function SumOfGroups(stats: map<Group, nat>, n: nat): nat
    requires n <= 8 && forall g :: g in stats
  {
    if n == 0 then 0 else SumOfGroups(stats, n - 1) + stats[GroupAt(n - 1)]
  }

  lemma {:induction false} SumOfGroupsMore(stats: map<Group, nat>, g: Group, more: nat, n: nat)
    requires n <= 8 && forall h :: h in stats
    ensures SumOfGroups(stats[g := stats[g] + more], n) == SumOfGroups(stats, n) + if PlaceOf(g) < n then more else 0
  {
    hide GroupAt, PlaceOf;
    if n > 0 {
      SumOfGroupsMore(stats, g, more, n - 1);
      GroupPlacedAt(g, n - 1);
    }
  }

  // stats holds the sizes of the processes by group.
  ghost predicate Tallied(procs: seq<Proc>, mode: string, lane: set<Group>, stats: map<Group, nat>) {
    && (forall g :: g in stats && stats[g] == GroupTotal(procs, mode, lane, g))
    && SumOfGroups(stats, 8) == GroupedTotal(procs, mode, lane)
  }

  const NONE: map<Group, nat> := map[ContainerdGroup := 0, ShimGroup := 0, Conmon := 0, Podman := 0, Passt := 0,
                                     Slirp := 0, Dockerd := 0, OtherRuntime := 0]

  lemma NothingTallied(mode: string, lane: set<Group>)
    ensures Tallied([], mode, lane, NONE)
  {
    hide SumOfGroups;
    forall g: Group
      ensures g in NONE && NONE[g] == 0
    {
      match g {
        case ContainerdGroup =>
        case ShimGroup =>
        case Conmon =>
        case Podman =>
        case Passt =>
        case Slirp =>
        case Dockerd =>
        case OtherRuntime =>
      }
    }
    assert SumOfGroups(NONE, 8) == 0 by {
      SumOfNone(8);
    }
  }

  lemma {:induction false} SumOfNone(n: nat)
    requires n <= 8 && forall g :: g in NONE && NONE[g] == 0
    ensures SumOfGroups(NONE, n) == 0
  {
    hide GroupAt;
    if n > 0 {
      SumOfNone(n - 1);
    }
  }

  lemma TalliedMore(procs: seq<Proc>, p: Proc, mode: string, lane: set<Group>, stats: map<Group, nat>)
    requires Tallied(procs, mode, lane, stats)
    ensures match CountedIn(p, mode, lane)
            case None => Tallied(procs + [p], mode, lane, stats)
            case Some(g) => g in stats && Tallied(procs + [p], mode, lane, stats[g := stats[g] + Kb(p.pss)])
  {
    hide CountedIn, SumOfGroups, PlaceOf, GroupAt;
    assert (procs + [p])[..|procs|] == procs;
    match CountedIn(p, mode, lane)
    case None =>
    case Some(g) =>
      GroupPlacedAt(g, 0);
      SumOfGroupsMore(stats, g, Kb(p.pss), 8);
  }

  // The loop of _runtime_process_group_stats
  method GroupStats(procs: seq<Proc>, mode: string, lane: set<Group>) returns (stats: map<Group, nat>)
    ensures forall g :: g in stats && stats[g] == GroupTotal(procs, mode, lane, g)
    ensures SumOfGroups(stats, 8) == GroupedTotal(procs, mode, lane)
  {
    hide Classify, GroupOfNames, GroupTotal, GroupedTotal, SumOfGroups;
    stats := NONE;
    NothingTallied(mode, lane);
    assert procs[..0] == [];
    for i := 0 to |procs|
      invariant Tallied(procs[..i], mode, lane, stats)
    {
      var p := procs[i];
      assert procs[..i + 1] == procs[..i] + [p];
      TalliedMore(procs[..i], p, mode, lane, stats);
      var group := GroupOfNames(p.names);
      if group.None? {
        if Classify(p, mode, lane) == Runtime {
          group := Some(OtherRuntime);
        } else {
          continue;
        }
      } else if group.value !in lane {
        continue;
      }
      stats := stats[group.value := stats[group.value] + Kb(p.pss)];
    }
    assert procs[..|procs|] == procs;
  }

  // The two passes

  // The process belongs to a group of the lane, but the other pass files it elsewhere, and not because it is a shim.
  predicate Conflicting(p: Proc, lane: set<Group>) {
    var group := GroupOfNames(p.names);
    && group.Some? && group.value in lane && group.value != ShimGroup
    && (AnyShim(p) || IsController(p) || IsIngress(p))
  }

  function ConflictTotal(procs: seq<Proc>, lane: set<Group>): nat {
    if procs == [] then 0
    else
      var p := procs[|procs| - 1];
      ConflictTotal(procs[..|procs| - 1], lane) + if Conflicting(p, lane) then Kb(p.pss) else 0
  }

  // The size of the processes whose group is that of the shims
  function ShimTotal(procs: seq<Proc>): nat {
    if procs == [] then 0
    else
      var p := procs[|procs| - 1];
      ShimTotal(procs[..|procs| - 1]) + if GroupOfNames(p.names) == Some(ShimGroup) then Kb(p.pss) else 0
  }

  lemma {:induction false} ShimGroupHasShim(names: seq<string>)
    ensures GroupOfNames(names) == Some(ShimGroup) ==> exists i :: 0 <= i < |names| && IsShim(names[i])
  {
    if names != [] && GroupOfName(names[0]).None? {
      ShimGroupHasShim(names[1..]);
      if GroupOfNames(names) == Some(ShimGroup) {
        var i :| 0 <= i < |names[1..]| && IsShim(names[1..][i]);
        assert IsShim(names[i + 1]);
      }
    }
  }

  // Outside k3s the first pass counts a process as runtime, or ignores it as a shim, or the passes conflict,
  // whenever the second counts it.
  lemma OneProcess(p: Proc, mode: string, lane: set<Group>)
    requires mode != "k3s" && OtherRuntime !in lane
    ensures (if CountedIn(p, mode, lane).Some? then 1 else 0)
         == (if Classify(p, mode, lane) == Runtime then 1 else 0)
            + (if GroupOfNames(p.names) == Some(ShimGroup) && ShimGroup in lane then 1 else 0)
            + (if Conflicting(p, lane) then 1 else 0)
  {
    hide GroupOfNames, IsController, IsIngress;
    ShimGroupHasShim(p.names);
  }

  // The two passes differ by the shims, where the lane admits them, and by the conflicting processes.
  lemma {:induction false} PassesReconcile(procs: seq<Proc>, mode: string, lane: set<Group>)
    requires mode != "k3s" && OtherRuntime !in lane
    ensures GroupedTotal(procs, mode, lane)
         == ClassTotal(procs, mode, lane, Runtime).pss
            + (if ShimGroup in lane then ShimTotal(procs) else 0)
            + ConflictTotal(procs, lane)
  {
    hide Classify, CountedIn, Conflicting, GroupOfNames;
    if procs != [] {
      PassesReconcile(procs[..|procs| - 1], mode, lane);
      OneProcess(procs[|procs| - 1], mode, lane);
    }
  }

  lemma {:induction false} NoConflictNoTotal(procs: seq<Proc>, lane: set<Group>)
    ensures ConflictTotal(procs, lane) == 0 <==>
              forall i :: 0 <= i < |procs| && Conflicting(procs[i], lane) ==> Kb(procs[i].pss) == 0
  {
    hide Conflicting;
    if procs != [] {
      var n := |procs| - 1;
      NoConflictNoTotal(procs[..n], lane);
      assert forall i :: 0 <= i < n ==> procs[..n][i] == procs[i];
    }
  }

  lemma LaneHasNoOther(mode: string, engine: string)
    ensures OtherRuntime !in Lane(mode, engine)
  {
  }

  // The runtime groups add up to the runtime bucket and the shims that the lane admits just when no process with
  // memory matches two conflicting classes.
  lemma RuntimeReconciles(procs: seq<Proc>, mode: string, engine: string)
    requires mode != "k3s"
    ensures var lane := Lane(mode, engine);
      GroupedTotal(procs, mode, lane)
        == ClassTotal(procs, mode, lane, Runtime).pss + (if ShimGroup in lane then ShimTotal(procs) else 0)
      <==> forall i :: 0 <= i < |procs| && Conflicting(procs[i], lane) ==> Kb(procs[i].pss) == 0
  {
    hide Lane, Conflicting, GroupedTotal, ClassTotal, ShimTotal, ConflictTotal;
    LaneHasNoOther(mode, engine);
    PassesReconcile(procs, mode, Lane(mode, engine));
    NoConflictNoTotal(procs, Lane(mode, engine));
  }

  // A process that belongs to a group of the lane and is a controller counts in the group but not as runtime.
  lemma ControllerInGroup(p: Proc, mode: string, lane: set<Group>, g: Group)
    requires mode != "k3s" && GroupOfNames(p.names) == Some(g) && g in lane && g != ShimGroup
    requires !AnyShim(p) && IsController(p)
    ensures Conflicting(p, lane)
    ensures GroupedTotal([p], mode, lane) == Kb(p.pss)
    ensures ClassTotal([p], mode, lane, Runtime).pss == 0 && ClassTotal([p], mode, lane, Controller).pss == Kb(p.pss)
  {
    hide GroupOfNames, AnyShim, IsController, IsIngress;
    assert [p][..0] == [];
    assert Classify(p, mode, lane) == Controller;
    assert CountedIn(p, mode, lane) == Some(g);
    hide Classify, CountedIn;
    assert GroupedTotal([], mode, lane) == 0;
    assert ClassTotal([], mode, lane, Runtime).pss == 0 && ClassTotal([], mode, lane, Controller).pss == 0;
  }

  // A containerd whose command line names the controller is such a process.
  lemma PassesCanDisagree(p: Proc)
    requires p == Proc(["containerd"], "containerd", "containerd ae.controller", None, Some(7), None)
    ensures var lane := Lane("k1s", "docker");
      && Conflicting(p, lane)
      && GroupedTotal([p], "k1s", lane) == 7
      && ClassTotal([p], "k1s", lane, Runtime).pss == 0
      && ShimGroup !in lane
  {
    hide GroupedTotal, ClassTotal, Classify, Conflicting;
    DockerLane();
    assert p.args[11..] == "ae.controller";
    ControllerInGroup(p, "k1s", Lane("k1s", "docker"), ContainerdGroup);
  }

  lemma DockerLane()
    ensures Lane("k1s", "docker") == {ContainerdGroup, Dockerd}
  {
    assert Lower("k1s")[1] == '1' && "k3s"[1] == '3';
  }
}
