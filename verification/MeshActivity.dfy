/**
  Distances in the mesh and the paths along which build_scene in tools/zone_mesh_anim.py animates
  queries, inference and chunks.
 */
module MeshActivity {
  import opened Corridor
  import opened Numbers
  import opened Options
  import opened Sequences
  import opened ShortestPath
  import opened MeshScene
  import opened MeshRanking
  import opened MeshBuilder
  import opened MeshLinks

  type Adjacency = Graph<nat>

  lemma AdjacencyIsSound(adj: Adjacency, nodes: seq<Node>, edges: set<Edge>)
    requires AdjacencyOf(adj, |nodes|, edges) && Proper(edges, |nodes|)
    ensures Closed(adj)
    ensures forall u, v :: u in adj && v in adj[u] ==> v in adj && u in adj[v]
    ensures forall u :: u in adj ==> u !in adj[u]
  {
  }

  // There is a walk from u to v with at most k edges.
  ghost predicate Within(adj: Adjacency, u: nat, v: nat, k: nat) {
    exists p :: WalkBetween(adj, u, v, p) && |p| <= k + 1
  }

  lemma WithinSelf(adj: Adjacency, u: nat)
    ensures Within(adj, u, u, 0)
  {
    assert WalkBetween(adj, u, u, [u]);
  }

  lemma WithinEdge(adj: Adjacency, nodes: seq<Node>, edges: set<Edge>, u: nat, v: nat)
    requires AdjacencyOf(adj, |nodes|, edges) && Proper(edges, |nodes|) && HasEdge(edges, u, v)
    ensures Within(adj, u, v, 1) && Within(adj, v, u, 1)
  {
    assert WalkBetween(adj, u, v, [u, v]) && WalkBetween(adj, v, u, [v, u]);
  }

  lemma WithinTrans(adj: Adjacency, u: nat, v: nat, w: nat, j: nat, k: nat)
    requires Within(adj, u, v, j) && Within(adj, v, w, k)
    ensures Within(adj, u, w, j + k)
  {
    var p :| WalkBetween(adj, u, v, p) && |p| <= j + 1;
    var q :| WalkBetween(adj, v, w, q) && |q| <= k + 1;
    var r := p + q[1..];
    forall i | 0 <= i < |r| - 1
      ensures r[i] in adj && r[i + 1] in adj[r[i]]
    {
      if i < |p| - 1 {
        assert r[i] == p[i] && r[i + 1] == p[i + 1];
      } else {
        assert r[i] == q[i - |p| + 1] && r[i + 1] == q[i - |p| + 1 + 1];
      }
    }
    assert WalkBetween(adj, u, w, r);
  }

  lemma WithinMore(adj: Adjacency, u: nat, v: nat, j: nat, k: nat)
    requires Within(adj, u, v, j) && j <= k
    ensures Within(adj, u, v, k)
  {
  }

  // The mesh: its nodes, links and adjacency fit together.
  ghost predicate MeshOf(nodes: seq<Node>, edges: set<Edge>, adj: Adjacency) {
    Placed(nodes) && Backboned(nodes, edges) && AdjacencyOf(adj, |nodes|, edges)
  }

  lemma DcsAreLinked(nodes: seq<Node>, edges: set<Edge>, adj: Adjacency)
    requires MeshOf(nodes, edges, adj)
    ensures Within(adj, DC_WEST, DC_EAST, 1) && Within(adj, DC_EAST, DC_WEST, 1)
  {
    WithinEdge(adj, nodes, edges, DC_WEST, DC_EAST);
  }

  // A node other than a residence is, or neighbours, a data centre; in a city it is its own city's.
  lemma NearDc(nodes: seq<Node>, edges: set<Edge>, adj: Adjacency, u: nat) returns (dc: nat)
    requires MeshOf(nodes, edges, adj) && u < |nodes| && !nodes[u].kind.Residence?
    ensures dc == DC_WEST || dc == DC_EAST
    ensures !nodes[u].city.Between? ==> dc == HomeDc(nodes[u])
    ensures Within(adj, u, dc, 1) && Within(adj, dc, u, 1)
  {
    assert Homed(nodes, edges, u);
    hide Proper, AdjacencyOf, Within;
    if u < 2 {
      dc := u;
      WithinSelf(adj, u);
      WithinMore(adj, u, u, 0, 1);
    } else {
      dc := if HasEdge(edges, u, HomeDc(nodes[u])) then HomeDc(nodes[u]) else DC_EAST;
      WithinEdge(adj, nodes, edges, u, dc);
    }
  }

  // Every node is within two edges of a data centre; a city node of its own city's.
  lemma ReachDc(nodes: seq<Node>, edges: set<Edge>, adj: Adjacency, u: nat) returns (dc: nat)
    requires MeshOf(nodes, edges, adj) && u < |nodes|
    ensures dc == DC_WEST || dc == DC_EAST
    ensures !nodes[u].city.Between? ==> dc == HomeDc(nodes[u])
    ensures Within(adj, u, dc, 2) && Within(adj, dc, u, 2)
    ensures nodes[u].city.Between? ==> Within(adj, u, dc, 1) && Within(adj, dc, u, 1)
  {
    assert Homed(nodes, edges, u);
    if nodes[u].kind.Residence? {
      var v: nat :| v < |nodes| && HasEdge(edges, u, v) && CityAnchor(nodes[v], nodes[u].city);
      hide Within;
      dc := NearDc(nodes, edges, adj, v);
      WithinEdge(adj, nodes, edges, u, v);
      WithinTrans(adj, u, v, dc, 1, 1);
      WithinTrans(adj, dc, v, u, 1, 1);
    } else {
      hide Within;
      dc := NearDc(nodes, edges, adj, u);
      WithinMore(adj, u, dc, 1, 2);
      WithinMore(adj, dc, u, 1, 2);
    }
  }

  // The mesh is connected and no two nodes are more than five edges apart.
  lemma Diameter(nodes: seq<Node>, edges: set<Edge>, adj: Adjacency, u: nat, v: nat)
    requires MeshOf(nodes, edges, adj) && u < |nodes| && v < |nodes|
    ensures Within(adj, u, v, 5)
  {
    hide Within, MeshOf;
    var a := ReachDc(nodes, edges, adj, u);
    var b := ReachDc(nodes, edges, adj, v);
    DcsAreLinked(nodes, edges, adj);
    if a == b {
      WithinTrans(adj, u, a, v, 2, 2);
      WithinMore(adj, u, v, 4, 5);
    } else {
      WithinTrans(adj, u, a, b, 2, 1);
      WithinTrans(adj, u, b, v, 3, 2);
    }
  }

  // A node of the west city or of the corridor is within two edges of the western data centre.
  lemma WestSide(nodes: seq<Node>, edges: set<Edge>, adj: Adjacency, v: nat)
    requires MeshOf(nodes, edges, adj) && v < |nodes| && !nodes[v].city.East?
    ensures Within(adj, DC_WEST, v, 2)
  {
    hide Within, MeshOf;
    var dc := ReachDc(nodes, edges, adj, v);
    DcsAreLinked(nodes, edges, adj);
    if dc == DC_EAST {
      WithinTrans(adj, DC_WEST, DC_EAST, v, 1, 1);
    }
  }

  // An eastern node other than a residence is within two edges of the western data centre.
  lemma EastSide(nodes: seq<Node>, edges: set<Edge>, adj: Adjacency, v: nat)
    requires MeshOf(nodes, edges, adj) && v < |nodes| && nodes[v].city.East? && !nodes[v].kind.Residence?
    ensures Within(adj, DC_WEST, v, 2) && Within(adj, v, DC_EAST, 1)
  {
    hide Within, MeshOf;
    var dc := NearDc(nodes, edges, adj, v);
    DcsAreLinked(nodes, edges, adj);
    WithinTrans(adj, DC_WEST, DC_EAST, v, 1, 1);
  }

  // A path that the search returns, between nodes within k edges, has at most k edges and is not
  // the fallback.
  lemma PathFits(adj: Adjacency, u: nat, v: nat, k: nat, p: seq<nat>)
    requires Within(adj, u, v, k)
    requires Reachable(adj, u, v) ==> IsShortestPath(adj, u, v, p)
    ensures IsShortestPath(adj, u, v, p) && |p| <= k + 1
  {
    var q :| WalkBetween(adj, u, v, q) && |q| <= k + 1;
  }

  // Choosing targets

  // What a list holds beyond `start` are candidates, in their order, and none was left out before a later one.
  ghost predicate InOrder(start: seq<nat>, candidates: seq<nat>, list: seq<nat>) {
    && start <= list
    && forall i :: |start| <= i < |list| ==> FollowsOthers(candidates, list, i)
  }

  ghost predicate FollowsOthers(candidates: seq<nat>, list: seq<nat>, i: int)
    requires 0 <= i < |list|
  {
    && list[i] in candidates
    && forall k :: 0 <= k < FirstIndex(candidates, list[i]) ==> candidates[k] in list[..i]
  }

  lemma InOrderMore(start: seq<nat>, candidates: seq<nat>, list: seq<nat>, k: nat)
    requires InOrder(start, candidates, list) && k < |candidates| && candidates[k] !in list
    requires forall j :: 0 <= j < k ==> candidates[j] in list
    ensures InOrder(start, candidates, list + [candidates[k]])
  {
    var longer := list + [candidates[k]];
    assert FirstIndex(candidates, candidates[k]) == k;
    forall i | |start| <= i < |longer|
      ensures FollowsOthers(candidates, longer, i)
    {
      if i < |list| {
        assert FollowsOthers(candidates, list, i) && longer[i] == list[i] && longer[..i] == list[..i];
      } else {
        assert longer[i] == candidates[k] && longer[..i] == list;
      }
    }
  }

  // The loops that extend a target list from ranked candidates.  With `eager` the limit is checked
  // after every candidate, otherwise only after one was added.
  method Extend(start: seq<nat>, candidates: seq<nat>, limit: int, eager: bool) returns (targets: seq<nat>)
    ensures start <= targets && InOrder(start, candidates, targets)
    ensures forall x: nat :: x in targets ==> x in start || x in candidates
    ensures NoRepeat(start) ==> NoRepeat(targets)
    ensures |targets| <= Max(limit, |start| + 1)
    ensures |targets| >= limit || forall x: nat :: x in candidates ==> x in targets
  {
    hide FollowsOthers;
    targets := start;
    var i := 0;
    while i < |candidates|
      invariant InOrder(start, candidates, targets)
      invariant forall x: nat :: x in targets ==> x in start || x in candidates
      invariant NoRepeat(start) ==> NoRepeat(targets)
      invariant |targets| == |start| || |targets| < limit
      invariant 0 <= i <= |candidates| && forall k :: 0 <= k < i ==> candidates[k] in targets
    {
      var v := candidates[i];
      var added := v !in targets;
      if added {
        InOrderMore(start, candidates, targets, i);
        targets := targets + [v];
      }
      if (added || eager) && |targets| >= limit {
        break;
      }
      i := i + 1;
    }
  }

  // From its k-th element on, a list holds candidates in the order of their rank, and none that is left out ranks
  // before one that is taken.
  ghost predicate RankedFrom(nodes: seq<Node>, site: Site, order: Order, candidates: seq<nat>, list: seq<nat>, k: nat) {
    && (forall i :: k <= i < |list| ==> list[i] in candidates)
    && (forall i, j :: k <= i < j < |list| ==> Precedes(nodes, site, order, list[i], list[j]))
    && (forall i, v: nat :: k <= i < |list| && v in candidates && v !in list ==> Precedes(nodes, site, order, list[i], v))
  }

  lemma TakenRanks(nodes: seq<Node>, site: Site, order: Order, start: seq<nat>, candidates: seq<nat>, list: seq<nat>)
    requires InOrder(start, candidates, list) && InRank(nodes, site, order, candidates) && NoRepeat(list)
    ensures RankedFrom(nodes, site, order, candidates, list, |start|)
  {
    hide Precedes;
    forall i, v: nat | |start| <= i < |list| && v in candidates && v !in list[..i] && v != list[i]
      ensures Precedes(nodes, site, order, list[i], v)
    {
      assert FollowsOthers(candidates, list, i);
      var f, g := FirstIndex(candidates, list[i]), FirstIndex(candidates, v);
      assert candidates[f] == list[i] && candidates[g] == v && f < g;
    }
    forall i, j | |start| <= i < j < |list|
      ensures Precedes(nodes, site, order, list[i], list[j])
    {
      assert FollowsOthers(candidates, list, j);
      assert list[j] !in list[..i];
    }
    forall i | |start| <= i < |list|
      ensures list[i] in candidates
    {
      assert FollowsOthers(candidates, list, i);
    }
  }

  // One entry per target: the path the search finds from u.
  method PathsFrom(adj: Adjacency, u: nat, targets: seq<nat>, ghost k: nat) returns (paths: map<nat, seq<nat>>)
    requires Closed(adj) && u in adj
    requires forall v: nat :: v in targets ==> Within(adj, u, v, k)
    ensures paths.Keys == Members(targets)
    ensures forall v :: v in paths ==> Fits(adj, u, v, paths[v], k)
  {
    paths := map[];
    var i := 0;
    while i < |targets|
      invariant 0 <= i <= |targets|
      invariant paths.Keys == Members(targets[..i])
      invariant forall v :: v in paths ==> Fits(adj, u, v, paths[v], k)
    {
      var v := targets[i];
      assert v in targets;
      var p := Search(adj, u, v);
      PathFits(adj, u, v, k, p);
      assert targets[..i + 1] == targets[..i] + [v];
      paths := paths[v := p];
      i := i + 1;
    }
    assert targets[..i] == targets;
  }

  /** The numbers of the profile's "activity" section. */
  datatype Limits = Limits(query: int, remote: int, warm: int, inference: int, chunks: int)

  datatype Chunk = Chunk(source: nat, target: nat, remotePath: seq<nat>, localPath: seq<nat>)

  datatype Targets = Targets(origin: nat, query: seq<nat>, remote: seq<nat>, warm: seq<nat>, inference: seq<nat>)

  datatype Plan = Plan(targets: Targets, queryPaths: map<nat, seq<nat>>, inferencePaths: map<nat, seq<nat>>,
                       summary: seq<nat>, chunks: seq<Chunk>)

  ghost predicate Fits(adj: Adjacency, u: nat, v: nat, p: seq<nat>, k: nat) {
    IsShortestPath(adj, u, v, p) && |p| <= k + 1
  }

  // The plan has a path for every target and the wanted number of chunks, which take turns over their targets.
  predicate PlanIsFull(limits: Limits, plan: Plan) {
    && plan.queryPaths.Keys == Members(plan.targets.query)
    && plan.inferencePaths.Keys == Members(plan.targets.inference)
    && |plan.chunks| == Max(limits.chunks, 0)
    && forall i :: 0 <= i < |plan.chunks| ==>
         && plan.chunks[i].source == InTurn(RemoteCycle(plan.targets), i)
         && plan.chunks[i].target == InTurn(WarmCycle(plan.targets), i)
  }

  function InTurn(cycle: seq<nat>, i: nat): (v: nat)
    requires cycle != []
    ensures v in cycle
  {
    cycle[i % |cycle|]
  }

  function RemoteCycle(t: Targets): (r: seq<nat>)
    ensures r != []
  {
    Others(t.remote, DC_EAST, DC_EAST)
  }

  function WarmCycle(t: Targets): (r: seq<nat>)
    ensures r != []
  {
    Others(t.warm, t.origin, DC_WEST)
  }

  // All activity paths are real paths of the mesh within their bounds.
  ghost predicate PlanFits(adj: Adjacency, plan: Plan) {
    && (forall v :: v in plan.queryPaths ==> Fits(adj, plan.targets.origin, v, plan.queryPaths[v], 3))
    && (forall v :: v in plan.inferencePaths ==> Fits(adj, DC_WEST, v, plan.inferencePaths[v], 2))
    && plan.summary == [DC_WEST, DC_EAST]
    && (forall i {:trigger plan.chunks[i]} :: 0 <= i < |plan.chunks| ==>
          && Fits(adj, plan.chunks[i].source, DC_EAST, plan.chunks[i].remotePath, 1)
          && Fits(adj, DC_WEST, plan.chunks[i].target, plan.chunks[i].localPath, 2))
  }

  predicate WestOrBetween(nodes: seq<Node>, v: nat) {
    v < |nodes| && !nodes[v].city.East?
  }

  predicate EastTarget(nodes: seq<Node>, v: nat) {
    v < |nodes| && nodes[v].city.East? && !nodes[v].kind.Residence?
  }

  predicate TargetsFit(nodes: seq<Node>, t: Targets) {
    && t.origin < |nodes| && nodes[t.origin] == Node(Business, West)
    && (forall v: nat :: v in t.query ==> WestOrBetween(nodes, v))
    && (forall v: nat :: v in t.warm ==> WestOrBetween(nodes, v))
    && (forall v: nat :: v in t.remote ==> EastTarget(nodes, v))
    && (forall v: nat :: v in t.inference ==> WestOrBetween(nodes, v) || EastTarget(nodes, v))
  }

  function WestCandidates(nodes: seq<Node>, site: Site, but: nat, order: Order): (r: seq<nat>)
    ensures forall v: nat :: v in r <==> WestOrBetween(nodes, v) && v != but
    ensures InRank(nodes, site, order, r)
  {
    var all := Select(nodes, (v: nat, n: Node) => !n.city.East? && v != but);
    RankedIsInRank(nodes, site, order, all);
    Ranked(nodes, site, order, all)
  }

  function EastCandidates(nodes: seq<Node>, site: Site): (r: seq<nat>)
    ensures forall v: nat :: v in r <==> EastTarget(nodes, v)
    ensures InRank(nodes, site, ForRemotes, r)
  {
    var all := Select(nodes, (_, n: Node) => n.city.East? && !n.kind.Residence?);
    RankedIsInRank(nodes, site, ForRemotes, all);
    Ranked(nodes, site, ForRemotes, all)
  }

  // The origin is the western business nearest the city.
  predicate IsOrigin(nodes: seq<Node>, site: Site, origin: nat) {
    && origin < |nodes| && nodes[origin] == Node(Business, West)
    && forall b: nat :: b < |nodes| && nodes[b] == Node(Business, West) && b != origin ==>
         site.toCity(origin) < site.toCity(b) || (site.toCity(origin) == site.toCity(b) && origin < b)
  }

  // The lists begin with the origin and the data centres, repeat nothing, go on in the order of the candidates'
  // ranks, and end only when their limits are reached or there is no candidate left.
  ghost predicate TargetsChosen(nodes: seq<Node>, limits: Limits, site: Site, t: Targets) {
    var west, east := WestCandidates(nodes, site, t.origin, ForQueries(t.origin)), EastCandidates(nodes, site);
    && IsOrigin(nodes, site, t.origin)
    && NoRepeat(t.query) && NoRepeat(t.remote) && NoRepeat(t.warm) && NoRepeat(t.inference)
    && [DC_WEST] <= t.query && [DC_EAST] <= t.remote && [t.origin] <= t.warm && t.warm <= t.inference
    && RankedFrom(nodes, site, ForQueries(t.origin), west, t.query, 1)
    && RankedFrom(nodes, site, ForRemotes, east, t.remote, 1)
    && InOrder([t.origin], t.query, t.warm)
    && |t.query| <= Max(limits.query, 2) && |t.remote| <= Max(limits.remote, 2) && |t.warm| <= Max(limits.warm, 2)
    && (|t.query| >= limits.query || forall v :: v in west ==> v in t.query)
    && (|t.remote| >= limits.remote || forall v :: v in east ==> v in t.remote)
    && (|t.warm| >= limits.warm || forall v :: v in t.query ==> v in t.warm)
    && InferenceChosen(nodes, limits, site, t)
  }

  // The warm targets and the first seven tenths of the query targets
  function InferenceStart(query: seq<nat>, warm: seq<nat>): seq<nat> {
    Distinct(warm + query[..7 * |query| / 10])
  }

  // The inference list begins with those, goes on with candidates by rank to its limit or their end, and closes with
  // a remote target.
  ghost predicate InferenceChosen(nodes: seq<Node>, limits: Limits, site: Site, t: Targets) {
    && t.inference != [] && t.remote != []
    && t.inference[|t.inference| - 1] == t.remote[Min(1, |t.remote| - 1)]
    && LocalChosen(nodes, limits.inference, site, t.query, t.warm, t.inference[..|t.inference| - 1])
  }

  ghost predicate LocalChosen(nodes: seq<Node>, limit: int, site: Site, query: seq<nat>, warm: seq<nat>, local: seq<nat>) {
    var start, candidates := InferenceStart(query, warm), WestCandidates(nodes, site, |nodes|, ForInference);
    && start <= local && |local| <= Max(limit, |start| + 1)
    && RankedFrom(nodes, site, ForInference, candidates, local, |start|)
    && (|local| >= limit || forall v :: v in candidates ==> v in local)
  }

  // The western business nearest the city; without one, min() fails.
  method ChooseOrigin(nodes: seq<Node>, site: Site) returns (origin: Option<nat>)
    ensures origin.Some? <==> Node(Business, West) in nodes
    ensures origin.Some? ==> IsOrigin(nodes, site, origin.value)
  {
    hide IsOrigin, Ranked;
    var businesses := Select(nodes, (_, n: Node) => n == Node(Business, West));
    if businesses == [] {
      assert forall b: nat :: b < |nodes| ==> b !in businesses;
      return None;
    }
    assert businesses[0] in businesses;
    var ranked := Ranked(nodes, site, NearCity, businesses);
    LeastIsOrigin(nodes, site, businesses);
    origin := Some(ranked[0]);
  }

  lemma LeastIsOrigin(nodes: seq<Node>, site: Site, businesses: seq<nat>)
    requires businesses != [] && Increasing(businesses)
    requires forall b: nat :: b in businesses <==> b < |nodes| && nodes[b] == Node(Business, West)
    ensures IsOrigin(nodes, site, Ranked(nodes, site, NearCity, businesses)[0])
  {
    hide Ranked;
    var r := Ranked(nodes, site, NearCity, businesses);
    RankedIsInRank(nodes, site, NearCity, businesses);
    assert r[0] in r;
    forall b: nat | b < |nodes| && nodes[b] == Node(Business, West) && b != r[0]
      ensures Precedes(nodes, site, NearCity, r[0], b)
    {
      assert b in r;
    }
  }

  // The first of dict.fromkeys: what is repeated is dropped, and a list without repetitions is kept in front.
  lemma {:induction false} DistinctKeepsFront(warm: seq<nat>, rest: seq<nat>)
    requires NoRepeat(warm)
    ensures warm <= Distinct(warm + rest)
    decreases |rest|
  {
    hide Distinct;
    if rest == [] {
      assert warm + rest == warm;
      DistinctOfDistinct(warm);
    } else {
      var n := |rest| - 1;
      DistinctKeepsFront(warm, rest[..n]);
      assert warm + rest == (warm + rest[..n]) + [rest[n]];
      DistinctSnoc(warm + rest[..n], rest[n]);
    }
  }

  lemma NoRepeatSnoc(s: seq<nat>, x: nat)
    requires NoRepeat(s) && x !in s
    ensures NoRepeat(s + [x])
  {
  }

  lemma DistinctDoesNotRepeat(s: seq<nat>)
    ensures NoRepeat(Distinct(s)) && forall x: nat :: x in Distinct(s) <==> x in s
  {
    DistinctIsDistinct(s);
  }

  method ChooseInference(nodes: seq<Node>, site: Site, query: seq<nat>, warm: seq<nat>, extra: nat, limit: int)
    returns (local: seq<nat>)
    requires NoRepeat(warm) && forall v: nat :: v in query || v in warm ==> WestOrBetween(nodes, v)
    requires EastTarget(nodes, extra)
    ensures forall v: nat :: v in local ==> WestOrBetween(nodes, v)
    ensures NoRepeat(local + [extra]) && warm <= local
    ensures LocalChosen(nodes, limit, site, query, warm, local)
  {
    hide NoRepeat, Distinct, WestCandidates, RankedFrom;
    var prefix := query[..7 * |query| / 10];
    assert forall v: nat :: v in prefix ==> v in query;
    var start := InferenceStart(query, warm);
    DistinctDoesNotRepeat(warm + prefix);
    DistinctKeepsFront(warm, prefix);
    assert forall v: nat :: v in start ==> v in warm || v in prefix;
    var candidates := WestCandidates(nodes, site, |nodes|, ForInference);
    local := Extend(start, candidates, limit, true);
    TakenRanks(nodes, site, ForInference, start, candidates, local);
    assert forall v: nat :: v in local ==> WestOrBetween(nodes, v);
    NoRepeatSnoc(local, extra);
  }

  // The target lists of build_scene.
  method ChooseTargets(nodes: seq<Node>, limits: Limits, site: Site) returns (t: Option<Targets>)
    requires Placed(nodes)
    ensures t.Some? <==> Node(Business, West) in nodes
    ensures t.Some? ==> TargetsFit(nodes, t.value) && TargetsChosen(nodes, limits, site, t.value)
  {
    hide Distinct, WestCandidates, EastCandidates, InferenceStart, LocalChosen, RankedFrom, InOrder, InRank;
    var found := ChooseOrigin(nodes, site);
    if found.None? {
      return None;
    }
    var origin := found.value;
    var west, east := WestCandidates(nodes, site, origin, ForQueries(origin)), EastCandidates(nodes, site);
    var query := Extend([DC_WEST], west, limits.query, false);
    TakenRanks(nodes, site, ForQueries(origin), [DC_WEST], west, query);
    var remote := Extend([DC_EAST], east, limits.remote, false);
    TakenRanks(nodes, site, ForRemotes, [DC_EAST], east, remote);
    var warm := Extend([origin], query, limits.warm, true);
    var extra := remote[Min(1, |remote| - 1)];
    assert extra in remote;
    assert DC_WEST == query[0] && DC_EAST == remote[0] && origin == warm[0];
    var local := ChooseInference(nodes, site, query, warm, extra, limits.inference);
    t := Some(Targets(origin, query, remote, warm, local + [extra]));
    assert t.value.inference[..|local|] == local;
  }

  lemma TargetDistances(nodes: seq<Node>, edges: set<Edge>, adj: Adjacency, t: Targets)
    requires MeshOf(nodes, edges, adj) && TargetsFit(nodes, t)
    ensures forall v: nat :: v in t.query ==> Within(adj, t.origin, v, 3)
    ensures forall v: nat :: v in t.inference ==> Within(adj, DC_WEST, v, 2)
    ensures forall v: nat :: WestOrBetween(nodes, v) ==> Within(adj, DC_WEST, v, 2)
    ensures forall v: nat :: EastTarget(nodes, v) ==> Within(adj, v, DC_EAST, 1)
  {
    hide Within, MeshOf;
    var dc := NearDc(nodes, edges, adj, t.origin);
    forall v: nat | WestOrBetween(nodes, v)
      ensures Within(adj, DC_WEST, v, 2) && Within(adj, t.origin, v, 3)
    {
      WestSide(nodes, edges, adj, v);
      WithinTrans(adj, t.origin, DC_WEST, v, 1, 2);
    }
    forall v: nat | EastTarget(nodes, v)
      ensures Within(adj, DC_WEST, v, 2) && Within(adj, v, DC_EAST, 1)
    {
      EastSide(nodes, edges, adj, v);
    }
  }

  // The path of one chunk leg.
  method Leg(adj: Adjacency, u: nat, v: nat, ghost k: nat) returns (p: seq<nat>)
    requires Closed(adj) && u in adj && Within(adj, u, v, k)
    ensures Fits(adj, u, v, p, k)
  {
    p := Search(adj, u, v);
    PathFits(adj, u, v, k, p);
  }

  function Others(s: seq<nat>, v: nat, fallback: nat): (r: seq<nat>)
    ensures r != [] && forall x: nat :: x in r ==> x in s || x == fallback
  {
    var rest := Without(s, v);
    if rest == [] then [fallback] else rest
  }

  function Without(s: seq<nat>, v: nat): (r: seq<nat>)
    ensures forall x: nat :: x in r ==> x in s
  {
    if s == [] then [] else (if s[0] == v then [] else [s[0]]) + Without(s[1..], v)
  }

  lemma {:induction false} WithoutAbsent(s: seq<nat>, v: nat)
    requires v !in s
    ensures Without(s, v) == s
  {
    if s != [] {
      assert s == [s[0]] + s[1..];
      WithoutAbsent(s[1..], v);
    }
  }

  lemma OthersOfFirst(s: seq<nat>, fallback: nat)
    requires s != [] && NoRepeat(s)
    ensures Others(s, s[0], fallback) == if |s| == 1 then [fallback] else s[1..]
  {
    forall x | x in s[1..]
      ensures x != s[0]
    {
      var i :| 0 <= i < |s| - 1 && s[1..][i] == x;
      assert s[i + 1] == x;
    }
    WithoutAbsent(s[1..], s[0]);
  }

  lemma TurnOfOthers(s: seq<nat>, v: nat, fallback: nat, i: nat)
    requires [v] <= s && NoRepeat(s)
    ensures InTurn(Others(s, v, fallback), i) == if |s| == 1 then fallback else s[1 + i % (|s| - 1)]
  {
    hide NoRepeat, Others;
    OthersOfFirst(s, fallback);
  }

  // The chunks go round the remote targets other than the eastern data centre and round the warm targets other than the
  // origin; without any, they run between the data centres.
  lemma ChunksTakeTurns(nodes: seq<Node>, limits: Limits, site: Site, plan: Plan, i: nat)
    requires TargetsChosen(nodes, limits, site, plan.targets) && PlanIsFull(limits, plan) && i < |plan.chunks|
    ensures var r := plan.targets.remote;
      r != [] && plan.chunks[i].source == if |r| == 1 then DC_EAST else r[1 + i % (|r| - 1)]
    ensures var w := plan.targets.warm;
      w != [] && plan.chunks[i].target == if |w| == 1 then DC_WEST else w[1 + i % (|w| - 1)]
  {
    hide RankedFrom, InferenceChosen, InOrder, WestCandidates, EastCandidates, NoRepeat, Others, InTurn, IsOrigin;
    TurnOfOthers(plan.targets.remote, DC_EAST, DC_EAST, i);
    TurnOfOthers(plan.targets.warm, plan.targets.origin, DC_WEST, i);
  }

  lemma SummaryIsTheLink(adj: Adjacency, p: seq<nat>)
    requires Fits(adj, DC_WEST, DC_EAST, p, 1)
    ensures p == [DC_WEST, DC_EAST]
  {
  }

  // The targets that the chunks take turns over have short legs.
  lemma CyclesFit(nodes: seq<Node>, edges: set<Edge>, adj: Adjacency, t: Targets)
    requires MeshOf(nodes, edges, adj) && TargetsFit(nodes, t)
    ensures Closed(adj) && DC_WEST in adj
    ensures forall v: nat :: v in RemoteCycle(t) ==> v in adj && Within(adj, v, DC_EAST, 1)
    ensures forall v: nat :: v in WarmCycle(t) ==> Within(adj, DC_WEST, v, 2)
  {
    hide Within;
    TargetDistances(nodes, edges, adj, t);
    AdjacencyIsSound(adj, nodes, edges);
    assert forall v: nat :: v in RemoteCycle(t) ==> EastTarget(nodes, v);
    assert forall v: nat :: v in WarmCycle(t) ==> WestOrBetween(nodes, v);
  }

  method BuildChunks(nodes: seq<Node>, ghost edges: set<Edge>, adj: Adjacency, t: Targets, count: int)
    returns (chunks: seq<Chunk>)
    requires MeshOf(nodes, edges, adj) && TargetsFit(nodes, t)
    ensures |chunks| == Max(count, 0)
    ensures forall i {:trigger chunks[i]} :: 0 <= i < |chunks| ==>
              && chunks[i].source == InTurn(RemoteCycle(t), i) && chunks[i].target == InTurn(WarmCycle(t), i)
              && Fits(adj, chunks[i].source, DC_EAST, chunks[i].remotePath, 1)
              && Fits(adj, DC_WEST, chunks[i].target, chunks[i].localPath, 2)
  {
    hide Within, Fits, MeshOf, Closed, TargetsFit, RemoteCycle, WarmCycle, InTurn;
    var sources, targets := RemoteCycle(t), WarmCycle(t);
    CyclesFit(nodes, edges, adj, t);
    chunks := [];
    var index := 0;
    while index < count
      invariant 0 <= index <= Max(count, 0) && |chunks| == index
      invariant forall i {:trigger chunks[i]} :: 0 <= i < |chunks| ==>
                  && chunks[i].source == InTurn(sources, i) && chunks[i].target == InTurn(targets, i)
                  && Fits(adj, chunks[i].source, DC_EAST, chunks[i].remotePath, 1)
                  && Fits(adj, DC_WEST, chunks[i].target, chunks[i].localPath, 2)
    {
      var source, target := InTurn(sources, index), InTurn(targets, index);
      var remotePath := Leg(adj, source, DC_EAST, 1);
      var localPath := Leg(adj, DC_WEST, target, 2);
      chunks := chunks + [Chunk(source, target, remotePath, localPath)];
      index := index + 1;
    }
  }

  // The plan; without a western business there is none.
  method BuildPlan(nodes: seq<Node>, ghost edges: set<Edge>, adj: Adjacency, limits: Limits, site: Site)
    returns (plan: Option<Plan>)
    requires MeshOf(nodes, edges, adj)
    ensures plan.Some? <==> Node(Business, West) in nodes
    ensures plan.Some? ==>
              && TargetsFit(nodes, plan.value.targets) && TargetsChosen(nodes, limits, site, plan.value.targets)
              && PlanFits(adj, plan.value) && PlanIsFull(limits, plan.value)
  {
    hide TargetsChosen, Fits, RemoteCycle, WarmCycle, InTurn;
    var chosen := ChooseTargets(nodes, limits, site);
    if chosen.None? {
      return None;
    }
    var t := chosen.value;
    TargetDistances(nodes, edges, adj, t);
    AdjacencyIsSound(adj, nodes, edges);
    DcsAreLinked(nodes, edges, adj);
    var chunks := BuildChunks(nodes, edges, adj, t, limits.chunks);
    var queryPaths := PathsFrom(adj, t.origin, t.query, 3);
    var inferencePaths := PathsFrom(adj, DC_WEST, t.inference, 2);
    var summary := Leg(adj, DC_WEST, DC_EAST, 1);
    SummaryIsTheLink(adj, summary);
    plan := Some(Plan(t, queryPaths, inferencePaths, summary, chunks));
  }

  // The whole scene

  /** The numbers of a profile; cityLinks is its cross_city_budget. */
  datatype Profile = Profile(residence: int, business: int, colo: int, pop: int, mixed: int,
                             corridorNodes: int, perNode: nat, cityLinks: int, limits: Limits)

  // The kinds that share the corridor, in the order in which they are served.
  function CorridorCounts(p: Profile): seq<int> {
    [p.pop, p.colo, p.mixed]
  }

  ghost predicate IsAllocation(p: Profile, shares: seq<int>) {
    && IsWaterFill(shares, Caps(CorridorCounts(p)))
    && Sum(shares) == Min(Max(p.corridorNodes, 0), Sum(Caps(CorridorCounts(p))))
  }

  function CountsOf(p: Profile, shares: seq<int>): seq<Count>
    requires |shares| == 3
  {
    [Count(Residence, p.residence, 0), Count(Business, p.business, 0), Count(Colo, p.colo, shares[1]),
     Count(Pop, p.pop, shares[0]), Count(Mixed, p.mixed, shares[2])]
  }

  lemma AllocationFacts(p: Profile, shares: seq<int>)
    requires IsAllocation(p, shares)
    ensures |shares| == 3 && shares[0] >= 0 && shares[1] >= 0 && shares[2] >= 0
    ensures forall i :: 0 <= i < 5 ==> GoodCount(CountsOf(p, shares)[i])
    ensures Totals(CountsOf(p, shares)) == Max(p.residence, 0) + Max(p.business, 0) + Max(p.colo, shares[1])
                                           + Max(p.pop, shares[0]) + Max(p.mixed, shares[2])
  {
    TotalsSnoc([], Count(Residence, p.residence, 0));
    var c1 := [Count(Residence, p.residence, 0)];
    TotalsSnoc(c1, Count(Business, p.business, 0));
    var c2 := c1 + [Count(Business, p.business, 0)];
    TotalsSnoc(c2, Count(Colo, p.colo, shares[1]));
    var c3 := c2 + [Count(Colo, p.colo, shares[1])];
    TotalsSnoc(c3, Count(Pop, p.pop, shares[0]));
    var c4 := c3 + [Count(Pop, p.pop, shares[0])];
    TotalsSnoc(c4, Count(Mixed, p.mixed, shares[2]));
    assert CountsOf(p, shares) == c4 + [Count(Mixed, p.mixed, shares[2])];
    assert [] + c1 == c1;
  }

  // What the profile must provide: an anchor kind in each city with a residence, a western business, and ends on
  // both sides of the cross-city links, if any are wanted.
  predicate Buildable(counts: seq<Count>, cityLinks: int) {
    && (forall city :: Provided(counts, Node(Residence, city)) ==> ProvidesAnchor(counts, city))
    && Provided(counts, Node(Business, West))
    && (cityLinks > 0 ==> HasCrossEnd(counts, West) && HasCrossEnd(counts, East))
  }

  predicate ProvidesAnchor(counts: seq<Count>, city: City) {
    exists kind :: IsAnchor(Node(kind, city)) && Provided(counts, Node(kind, city))
  }

  predicate HasCrossEnd(counts: seq<Count>, city: City) {
    exists kind, place :: CrossEnd(Node(kind, place), city) && Provided(counts, Node(kind, place))
  }

  // The nodes are the data centres and those that the counts provide.
  ghost predicate Registered(nodes: seq<Node>, counts: seq<Count>) {
    forall n :: n in nodes <==> n == Node(Dc, West) || n == Node(Dc, East) || Provided(counts, n)
  }

  lemma AnchorIsProvided(counts: seq<Count>, nodes: seq<Node>, city: City)
    requires Registered(nodes, counts)
    ensures HasAnchor(nodes, city) <==> ProvidesAnchor(counts, city)
  {
    hide Provided;
    if HasAnchor(nodes, city) {
      var v :| 0 <= v < |nodes| && CityAnchor(nodes[v], city);
      assert nodes[v] in nodes && nodes[v] == Node(nodes[v].kind, city);
    }
    if ProvidesAnchor(counts, city) {
      var kind :| IsAnchor(Node(kind, city)) && Provided(counts, Node(kind, city));
      assert Node(kind, city) in nodes;
    }
  }

  lemma AnchorsAreProvided(counts: seq<Count>, nodes: seq<Node>)
    requires Registered(nodes, counts)
    ensures AnchorsExist(nodes) <==> forall city :: Provided(counts, Node(Residence, city)) ==> ProvidesAnchor(counts, city)
  {
    hide Provided, HasAnchor, ProvidesAnchor;
    forall city
      ensures HasAnchor(nodes, city) <==> ProvidesAnchor(counts, city)
    {
      AnchorIsProvided(counts, nodes, city);
    }
    if AnchorsExist(nodes) {
      forall city | Provided(counts, Node(Residence, city))
        ensures ProvidesAnchor(counts, city)
      {
        assert Node(Residence, city) in nodes;
        var u :| 0 <= u < |nodes| && nodes[u] == Node(Residence, city);
      }
    }
    forall u | 0 <= u < |nodes| && nodes[u].kind.Residence?
      ensures Provided(counts, Node(Residence, nodes[u].city))
    {
      assert nodes[u] in nodes && nodes[u] == Node(Residence, nodes[u].city);
    }
  }

  lemma CrossEndIsProvided(counts: seq<Count>, nodes: seq<Node>, site: Site, city: City)
    requires Registered(nodes, counts)
    ensures CrossEnds(nodes, site, city) != [] <==> HasCrossEnd(counts, city)
  {
    hide Provided;
    var ends := CrossEnds(nodes, site, city);
    if ends != [] {
      assert ends[0] in ends;
      var n := nodes[ends[0]];
      assert n in nodes && CrossEnd(Node(n.kind, n.city), city);
    }
    if HasCrossEnd(counts, city) {
      var kind, place :| CrossEnd(Node(kind, place), city) && Provided(counts, Node(kind, place));
      assert Node(kind, place) in nodes;
      var u :| 0 <= u < |nodes| && nodes[u] == Node(kind, place);
      assert u in ends;
    }
  }

  // What the linking and the choice of the origin need, seen from the counts.
  lemma BuildableIff(counts: seq<Count>, nodes: seq<Node>, site: Site, cityLinks: int)
    requires Registered(nodes, counts)
    ensures Buildable(counts, cityLinks) <==>
              && AnchorsExist(nodes) && Node(Business, West) in nodes && CrossEndsExist(nodes, site, cityLinks)
  {
    hide AnchorsExist, ProvidesAnchor, HasCrossEnd, Provided;
    AnchorsAreProvided(counts, nodes);
    CrossEndIsProvided(counts, nodes, site, West);
    CrossEndIsProvided(counts, nodes, site, East);
  }

  datatype Scene = Scene(nodes: seq<Node>, adj: Adjacency, plan: Plan)

  // Every node has an entry, and the mesh is symmetric, free of loops and connected with diameter at most five.
  ghost predicate MeshIsSound(n: nat, adj: Adjacency) {
    && adj.Keys == Indices(n)
    && (forall u, v :: u in adj && v in adj[u] ==> v in adj && u in adj[v] && u != v)
    && (forall u, v :: u in adj && v in adj ==> Within(adj, u, v, 5))
  }

  lemma BuiltMeshIsSound(nodes: seq<Node>, edges: set<Edge>, adj: Adjacency)
    requires MeshOf(nodes, edges, adj) && Proper(edges, |nodes|)
    ensures MeshIsSound(|nodes|, adj)
  {
    hide Within, Backboned, Placed, Proper;
    AdjacencyIsSound(adj, nodes, edges);
    forall u, v | u in adj && v in adj
      ensures Within(adj, u, v, 5)
    {
      Diameter(nodes, edges, adj, u, v);
    }
  }

  // Two nodes are neighbours if and only if one of them asks for the other.
  ghost predicate LinkedAsWanted(p: Profile, site: Site, nodes: seq<Node>, adj: Adjacency) {
    forall u, v :: u in adj && v in adj && u != v ==>
      (v in adj[u] <==> Wants(nodes, site, p.perNode, p.cityLinks, u, v) || Wants(nodes, site, p.perNode, p.cityLinks, v, u))
  }

  lemma WantedAreLinked(p: Profile, site: Site, nodes: seq<Node>, adj: Adjacency)
    requires Placed(nodes) && CrossEndsExist(nodes, site, p.cityLinks)
    requires AdjacencyOf(adj, |nodes|, WantedLinks(nodes, site, p.perNode, p.cityLinks))
    ensures LinkedAsWanted(p, site, nodes, adj)
  {
    hide WantedLinks, Wants, Placed, CrossEndsExist, HasEdge;
    forall u, v | u in adj && v in adj && u != v
      ensures v in adj[u] <==> Wants(nodes, site, p.perNode, p.cityLinks, u, v) || Wants(nodes, site, p.perNode, p.cityLinks, v, u)
    {
      LinkedIffWanted(nodes, site, p.perNode, p.cityLinks, u, v);
    }
  }

  // The mesh is sound and as wanted, and the plan is full and has a shortest path within its bound for every activity.
  ghost predicate SceneIsSound(p: Profile, site: Site, scene: Scene) {
    var adj := scene.adj;
    && MeshIsSound(|scene.nodes|, adj) && LinkedAsWanted(p, site, scene.nodes, adj)
    && TargetsFit(scene.nodes, scene.plan.targets) && TargetsChosen(scene.nodes, p.limits, site, scene.plan.targets)
    && PlanFits(adj, scene.plan) && PlanIsFull(p.limits, scene.plan)
  }

  ghost predicate HasCounts(nodes: seq<Node>, counts: seq<Count>) {
    && |nodes| == 2 + Totals(counts)
    && forall kind :: OfKind(nodes, kind) == (if kind.Dc? then 2 else 0) + KindTotal(counts, kind)
  }

  // The corridor's allocation is determined by the profile.
  lemma AllocationIsUnique(p: Profile, a: seq<int>, b: seq<int>)
    requires IsAllocation(p, a) && IsAllocation(p, b)
    ensures a == b
  {
    WaterFillIsUnique(a, b, Caps(CorridorCounts(p)));
  }

  // build_scene from the profile to the activity plan.  One of its steps fails exactly for the profiles that do not
  // provide a node it needs; for all others the scene is sound, whatever the positions.
  method BuildScene(profile: Profile, site: Site) returns (scene: Option<Scene>)
    ensures exists shares :: IsAllocation(profile, shares) && |shares| == 3
              && (scene.Some? <==> Buildable(CountsOf(profile, shares), profile.cityLinks))
              && (scene.Some? ==> HasCounts(scene.value.nodes, CountsOf(profile, shares)))
    ensures scene.Some? ==> SceneIsSound(profile, site, scene.value)
  {
    hide Totals, KindTotal, OfKind, PlanFits, PlanIsFull, TargetsFit, TargetsChosen, MeshIsSound, LinkedAsWanted, Placed,
      Backboned, AdjacencyOf, GoodCount, Proper, AnchorsExist, CrossEndsExist, Buildable, Provided, WantedLinks;
    var shares := Allocate(profile.corridorNodes, CorridorCounts(profile));
    assert IsAllocation(profile, shares);
    AllocationFacts(profile, shares);
    var counts := CountsOf(profile, shares);
    var nodes := RegisterNodes(counts);
    assert HasCounts(nodes, counts);
    var builder := new Builder(nodes, site);
    BuildableIff(counts, nodes, site, profile.cityLinks);
    var linked := builder.BuildLinks(profile.perNode, profile.cityLinks);
    if !linked {
      return None;
    }
    WantedIsBackboned(nodes, site, profile.perNode, profile.cityLinks);
    var adj := builder.Adjacency();
    ghost var edges := builder.links.Keys;
    WantedAreLinked(profile, site, nodes, adj);
    var plan := BuildPlan(nodes, edges, adj, profile.limits, site);
    if plan.None? {
      return None;
    }
    BuiltMeshIsSound(nodes, edges, adj);
    scene := Some(Scene(nodes, adj, plan.value));
  }
}
