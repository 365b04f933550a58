/**
  Which nodes build_scene in tools/zone_mesh_anim.py links: two nodes are linked if and only if one of them asks for the
  other for one of the script's reasons.
 */
module MeshLinks {
  import opened MeshScene
  import opened MeshRanking
  import opened MeshBuilder
  import opened Numbers

  predicate InCorridor(nodes: seq<Node>, u: nat) {
    u < |nodes| && nodes[u].city.Between?
  }

  // u lies west of v
  predicate WestOf(nodes: seq<Node>, site: Site, u: nat, v: nat) {
    site.x(u) < site.x(v) || (site.x(u) == site.x(v) && u < v)
  }

  // From a to b eastward through the corridor, whose ends are the data centres, without another node in between
  ghost predicate NextEast(nodes: seq<Node>, site: Site, a: nat, b: nat) {
    && (a == DC_WEST || InCorridor(nodes, a)) && (b == DC_EAST || InCorridor(nodes, b))
    && (InCorridor(nodes, a) && InCorridor(nodes, b) ==> WestOf(nodes, site, a, b))
    && forall c: nat :: InCorridor(nodes, c) ==>
         || (InCorridor(nodes, a) && !WestOf(nodes, site, a, c))
         || (InCorridor(nodes, b) && !WestOf(nodes, site, c, b))
  }

  // b is one of the k nodes of a list that are nearest to a.
  predicate AmongNearest(site: Site, a: nat, b: nat, k: nat, candidates: seq<nat>) {
    b in candidates && |set w | w in candidates && Nearer(site, a, w, b)| < k
  }

  // What a node of the corridor or of a city asks for
  predicate WantsAtHome(nodes: seq<Node>, site: Site, a: nat, b: nat)
    requires a < |nodes|
  {
    var n := nodes[a];
    if n.kind.Dc? then false
    else if n.city.Between? then
      || (b == DC_WEST && (site.dist(a, DC_WEST) < site.dist(a, DC_EAST) || n.kind in {Colo, Pop}))
      || (b == DC_EAST && (site.dist(a, DC_WEST) >= site.dist(a, DC_EAST) || n.kind in {Colo, Pop}))
    else if n.kind.Residence? then AmongNearest(site, a, b, 1, Anchors(nodes, a, n.city))
    else
      || b == (if n.city.West? then DC_WEST else DC_EAST)
      || AmongNearest(site, a, b, if n.kind in {Colo, Pop} then 2 else 1, SameCity(nodes, a))
  }

  // The local mesh: the nearest anchors of an anchor's city
  predicate WantsInMesh(nodes: seq<Node>, site: Site, perNode: nat, a: nat, b: nat)
    requires a < |nodes|
  {
    IsAnchor(nodes[a]) && !nodes[a].city.Between? && AmongNearest(site, a, b, perNode, Anchors(nodes, a, nodes[a].city))
  }

  // The ends of both sides of a cross-city link take turns.
  ghost predicate Crosses(nodes: seq<Node>, site: Site, budget: int, a: nat, b: nat) {
    var left, right := CrossEnds(nodes, site, West), CrossEnds(nodes, site, East);
    exists i: nat :: i < budget && left != [] && right != [] && a == left[i % |left|] && b == right[i % |right|]
  }

  ghost predicate Wants(nodes: seq<Node>, site: Site, perNode: nat, budget: int, a: nat, b: nat) {
    || (a == DC_WEST && b == DC_EAST)
    || NextEast(nodes, site, a, b)
    || (a < |nodes| && (WantsAtHome(nodes, site, a, b) || WantsInMesh(nodes, site, perNode, a, b)))
    || Crosses(nodes, site, budget, a, b)
  }

  // The chain

  ghost predicate Consecutive(s: seq<nat>, a: nat, b: nat) {
    exists i :: 0 <= i < |s| - 1 && s[i] == a && s[i + 1] == b
  }

  lemma ConsecutiveSnoc(s: seq<nat>, x: nat, a: nat, b: nat)
    requires s != []
    ensures Consecutive(s + [x], a, b) <==> Consecutive(s, a, b) || (a == s[|s| - 1] && b == x)
  {
    var t := s + [x];
    if Consecutive(s, a, b) {
      var i :| 0 <= i < |s| - 1 && s[i] == a && s[i + 1] == b;
      assert t[i] == a && t[i + 1] == b;
    }
    if a == s[|s| - 1] && b == x {
      assert t[|s| - 1] == a && t[|s| - 1 + 1] == b;
    }
  }

  lemma SpokesIff(u: nat, s: seq<nat>, a: nat, b: nat)
    requires a != b
    ensures HasEdge(Spokes(u, s), a, b) <==> (a == u && b in s) || (b == u && a in s)
  {
    if a == u && b in s {
      assert NodeKey(u, b) in Spokes(u, s);
    }
    if b == u && a in s {
      assert NodeKey(u, a) in Spokes(u, s);
    }
  }

  lemma {:induction false} ChainLinksIff(s: seq<nat>, a: nat, b: nat)
    requires a != b
    ensures HasEdge(ChainLinks(s), a, b) <==> Consecutive(s, a, b) || Consecutive(s, b, a)
  {
    hide Spokes;
    if |s| >= 2 {
      var n := |s| - 1;
      ChainLinksIff(s[..n], a, b);
      SpokesIff(s[n - 1], [s[n]], a, b);
      assert s == s[..n] + [s[n]];
      ConsecutiveSnoc(s[..n], s[n], a, b);
      ConsecutiveSnoc(s[..n], s[n], b, a);
    }
  }

  lemma WestOfIsEastward(nodes: seq<Node>, site: Site, u: nat, v: nat)
    ensures WestOf(nodes, site, u, v) == Precedes(nodes, site, Eastward, u, v)
  {
  }

  // The corridor's list goes eastward.
  lemma CorridorGoesEast(nodes: seq<Node>, site: Site, i: nat, j: nat)
    requires i < |CorridorChain(nodes, site)| && j < |CorridorChain(nodes, site)|
    ensures var r := CorridorChain(nodes, site); WestOf(nodes, site, r[i], r[j]) <==> i < j
  {
    hide WestOf, Precedes, Ranked;
    var r := CorridorChain(nodes, site);
    RankedIsInRank(nodes, site, Eastward, Select(nodes, (_, n: Node) => n.city.Between?));
    WestOfIsEastward(nodes, site, r[i], r[j]);
    PrecedesIsTotal(nodes, site, Eastward, r[i], r[j]);
  }

  lemma NeighboursAreNext(nodes: seq<Node>, site: Site, i: nat)
    requires Placed(nodes)
    requires var chain := [DC_WEST] + CorridorChain(nodes, site) + [DC_EAST]; i < |chain| - 1
    ensures var chain := [DC_WEST] + CorridorChain(nodes, site) + [DC_EAST]; NextEast(nodes, site, chain[i], chain[i + 1])
  {
    hide WestOf, CorridorChain;
    var r := CorridorChain(nodes, site);
    var a, b := ([DC_WEST] + r + [DC_EAST])[i], ([DC_WEST] + r + [DC_EAST])[i + 1];
    assert i > 0 ==> a == r[i - 1] && a in r;
    assert i < |r| ==> b == r[i] && b in r;
    if 0 < i < |r| {
      CorridorGoesEast(nodes, site, i - 1, i);
    }
    forall c: nat | InCorridor(nodes, c)
      ensures (InCorridor(nodes, a) && !WestOf(nodes, site, a, c)) || (InCorridor(nodes, b) && !WestOf(nodes, site, c, b))
    {
      assert c in r;
      var j :| 0 <= j < |r| && r[j] == c;
      if i > 0 {
        CorridorGoesEast(nodes, site, i - 1, j);
      }
      if i < |r| {
        CorridorGoesEast(nodes, site, j, i);
      }
    }
  }

  lemma NextAreNeighbours(nodes: seq<Node>, site: Site, a: nat, b: nat)
    requires Placed(nodes) && NextEast(nodes, site, a, b)
    ensures Consecutive([DC_WEST] + CorridorChain(nodes, site) + [DC_EAST], a, b)
  {
    hide WestOf, CorridorChain;
    var r := CorridorChain(nodes, site);
    var chain := [DC_WEST] + r + [DC_EAST];
    assert forall i :: 0 <= i < |r| ==> r[i] in r;
    var i, j := -1, |r|;
    if InCorridor(nodes, a) {
      i :| 0 <= i < |r| && r[i] == a;
    }
    if InCorridor(nodes, b) {
      j :| 0 <= j < |r| && r[j] == b;
    }
    if 0 <= i && j < |r| {
      CorridorGoesEast(nodes, site, i, j);
    }
    if i + 1 < j {
      var c := r[i + 1];
      assert c in r && InCorridor(nodes, c);
      if 0 <= i {
        CorridorGoesEast(nodes, site, i, i + 1);
      }
      if j < |r| {
        CorridorGoesEast(nodes, site, i + 1, j);
      }
    }
    assert i + 1 == j;
    assert chain[j] == a && chain[j + 1] == b;
  }

  lemma ChainIff(nodes: seq<Node>, site: Site, a: nat, b: nat)
    requires Placed(nodes)
    ensures Consecutive([DC_WEST] + CorridorChain(nodes, site) + [DC_EAST], a, b) <==> NextEast(nodes, site, a, b)
  {
    hide CorridorChain, NextEast;
    var chain := [DC_WEST] + CorridorChain(nodes, site) + [DC_EAST];
    if Consecutive(chain, a, b) {
      var i :| 0 <= i < |chain| - 1 && chain[i] == a && chain[i + 1] == b;
      NeighboursAreNext(nodes, site, i);
    }
    if NextEast(nodes, site, a, b) {
      NextAreNeighbours(nodes, site, a, b);
    }
  }

  // Homes

  lemma NearestSpokesIff(nodes: seq<Node>, site: Site, u: nat, candidates: seq<nat>, k: nat, a: nat, b: nat)
    requires Increasing(candidates) && a != b
    ensures HasEdge(Spokes(u, NearestNodes(nodes, site, u, candidates, k)), a, b) <==>
              (a == u && AmongNearest(site, u, b, k, candidates)) || (b == u && AmongNearest(site, u, a, k, candidates))
  {
    hide Spokes, NearestNodes, Increasing;
    SpokesIff(u, NearestNodes(nodes, site, u, candidates, k), a, b);
    NearestAreNearest(nodes, site, u, candidates, k, a);
    NearestAreNearest(nodes, site, u, candidates, k, b);
  }

  lemma HomeLinksIff(nodes: seq<Node>, site: Site, u: nat, a: nat, b: nat)
    requires u < |nodes| && a != b
    ensures HasEdge(HomeLinks(nodes, site, u), a, b) <==>
              (a == u && WantsAtHome(nodes, site, u, b)) || (b == u && WantsAtHome(nodes, site, u, a))
  {
    hide Spokes, NearestNodes, Anchors, SameCity, AmongNearest;
    var n := nodes[u];
    var k := if n.kind.Colo? || n.kind.Pop? then 2 else 1;
    if n.city.Between? {
      SpokesIff(u, [DC_WEST, DC_EAST], a, b);
      SpokesIff(u, [NearDc(site, u)], a, b);
    } else if n.kind.Residence? {
      NearestSpokesIff(nodes, site, u, Anchors(nodes, u, n.city), 1, a, b);
    } else {
      SpokesIff(u, [HomeDc(n)], a, b);
      NearestSpokesIff(nodes, site, u, SameCity(nodes, u), k, a, b);
    }
  }

  lemma {:induction false} AllHomeLinksIff(nodes: seq<Node>, site: Site, n: nat, a: nat, b: nat)
    requires n <= |nodes| && a != b
    ensures HasEdge(AllHomeLinks(nodes, site, n), a, b) <==>
              (a < n && WantsAtHome(nodes, site, a, b)) || (b < n && WantsAtHome(nodes, site, b, a))
  {
    hide HomeLinks, WantsAtHome;
    if n > 0 {
      AllHomeLinksIff(nodes, site, n - 1, a, b);
      HomeLinksIff(nodes, site, n - 1, a, b);
    }
  }

  // Meshes

  lemma {:induction false} MeshLinksIff(nodes: seq<Node>, site: Site, city: City, perNode: nat, members: seq<nat>,
                                        a: nat, b: nat)
    requires a != b
    ensures HasEdge(MeshLinks(nodes, site, city, perNode, members), a, b) <==>
              || (a in members && AmongNearest(site, a, b, perNode, Anchors(nodes, a, city)))
              || (b in members && AmongNearest(site, b, a, perNode, Anchors(nodes, b, city)))
  {
    hide Spokes, NearestNodes, Anchors, AmongNearest;
    if members != [] {
      var n := |members| - 1;
      var u := members[n];
      assert members == members[..n] + [u];
      MeshLinksIff(nodes, site, city, perNode, members[..n], a, b);
      NearestSpokesIff(nodes, site, u, Anchors(nodes, u, city), perNode, a, b);
    }
  }

  lemma BothMeshesIff(nodes: seq<Node>, site: Site, perNode: nat, a: nat, b: nat)
    requires a != b
    ensures HasEdge(MeshLinks(nodes, site, West, perNode, Anchors(nodes, |nodes|, West))
                      + MeshLinks(nodes, site, East, perNode, Anchors(nodes, |nodes|, East)), a, b) <==>
              || (a < |nodes| && WantsInMesh(nodes, site, perNode, a, b))
              || (b < |nodes| && WantsInMesh(nodes, site, perNode, b, a))
  {
    hide MeshLinks, AmongNearest;
    MeshLinksIff(nodes, site, West, perNode, Anchors(nodes, |nodes|, West), a, b);
    MeshLinksIff(nodes, site, East, perNode, Anchors(nodes, |nodes|, East), a, b);
  }

  // Cross-city links

  lemma CrossLinksIff(left: seq<nat>, right: seq<nat>, n: nat, a: nat, b: nat)
    requires (n > 0 ==> left != [] && right != []) && a != b
    ensures HasEdge(CrossLinks(left, right, n), a, b) <==>
              exists i: nat :: i < n && ((a == left[i % |left|] && b == right[i % |right|])
                                         || (b == left[i % |left|] && a == right[i % |right|]))
  {
    if HasEdge(CrossLinks(left, right, n), a, b) {
      var i: nat :| i < n && left[i % |left|] != right[i % |right|] && NodeKey(a, b) == NodeKey(left[i % |left|], right[i % |right|]);
    }
  }

  lemma CrossIff(nodes: seq<Node>, site: Site, budget: int, a: nat, b: nat)
    requires CrossEndsExist(nodes, site, budget) && a != b
    ensures HasEdge(CrossLinks(CrossEnds(nodes, site, West), CrossEnds(nodes, site, East), Max(budget, 0)), a, b) <==>
              Crosses(nodes, site, budget, a, b) || Crosses(nodes, site, budget, b, a)
  {
    hide CrossEnds, CrossLinks;
    var left, right := CrossEnds(nodes, site, West), CrossEnds(nodes, site, East);
    CrossLinksIff(left, right, Max(budget, 0), a, b);
  }

  // The ends of a side come by their distance from that side's coordinate.
  lemma CrossEndsByDistance(nodes: seq<Node>, site: Site, i: nat, j: nat)
    ensures i < j < |CrossEnds(nodes, site, West)| ==>
              Abs(site.x(CrossEnds(nodes, site, West)[i]) - 780.0) <= Abs(site.x(CrossEnds(nodes, site, West)[j]) - 780.0)
    ensures i < j < |CrossEnds(nodes, site, East)| ==>
              Abs(site.x(CrossEnds(nodes, site, East)[i]) - 880.0) <= Abs(site.x(CrossEnds(nodes, site, East)[j]) - 880.0)
  {
    hide Ranked, Abs;
    RankedIsInRank(nodes, site, NearX(780.0), Select(nodes, (_, n: Node) => CrossEnd(n, West)));
    RankedIsInRank(nodes, site, NearX(880.0), Select(nodes, (_, n: Node) => CrossEnd(n, East)));
  }

  // Two nodes are linked if and only if one of them asks for the other.
  lemma LinkedIffWanted(nodes: seq<Node>, site: Site, perNode: nat, budget: int, a: nat, b: nat)
    requires Placed(nodes) && CrossEndsExist(nodes, site, budget) && a != b
    ensures HasEdge(WantedLinks(nodes, site, perNode, budget), a, b) <==>
              Wants(nodes, site, perNode, budget, a, b) || Wants(nodes, site, perNode, budget, b, a)
  {
    hide Placed, ChainLinks, CorridorChain, Spokes, AllHomeLinks, MeshLinks, CrossLinks, CrossEnds, Anchors, NextEast, WantsAtHome,
      WantsInMesh, Crosses, Consecutive, CrossEndsExist;
    ChainLinksIff([DC_WEST] + CorridorChain(nodes, site) + [DC_EAST], a, b);
    ChainIff(nodes, site, a, b);
    ChainIff(nodes, site, b, a);
    SpokesIff(DC_WEST, [DC_EAST], a, b);
    AllHomeLinksIff(nodes, site, |nodes|, a, b);
    BothMeshesIff(nodes, site, perNode, a, b);
    CrossIff(nodes, site, budget, a, b);
  }

  // The backbone

  lemma NearestAnchor(nodes: seq<Node>, site: Site, u: nat) returns (v: nat)
    requires Placed(nodes) && u < |nodes| && nodes[u].kind.Residence? && HasAnchor(nodes, nodes[u].city)
    ensures v < |nodes| && v != u && CityAnchor(nodes[v], nodes[u].city) && WantsAtHome(nodes, site, u, v)
  {
    hide NearestNodes, AmongNearest;
    var anchors := Anchors(nodes, u, nodes[u].city);
    var w :| 0 <= w < |nodes| && CityAnchor(nodes[w], nodes[u].city);
    assert w in anchors;
    v := FirstOfNearest(nodes, site, u, anchors);
  }

  lemma FirstOfNearest(nodes: seq<Node>, site: Site, u: nat, candidates: seq<nat>) returns (v: nat)
    requires candidates != [] && Increasing(candidates)
    ensures v in candidates && AmongNearest(site, u, v, 1, candidates)
  {
    hide Ranked, Increasing;
    v := Ranked(nodes, site, From(u), candidates)[0];
    assert v in NearestNodes(nodes, site, u, candidates, 1);
    NearestAreNearest(nodes, site, u, candidates, 1, v);
  }

  lemma WantedIsHomed(nodes: seq<Node>, site: Site, perNode: nat, budget: int, u: nat)
    requires Placed(nodes) && CrossEndsExist(nodes, site, budget) && AnchorsExist(nodes) && u < |nodes|
    ensures Homed(nodes, WantedLinks(nodes, site, perNode, budget), u)
  {
    hide WantedLinks, HasAnchor, NextEast, WantsInMesh, Crosses, CrossEndsExist, AmongNearest;
    var n := nodes[u];
    if n.kind.Dc? {
    } else if n.kind.Residence? {
      var v := NearestAnchor(nodes, site, u);
      LinkedIffWanted(nodes, site, perNode, budget, u, v);
    } else {
      var v := if n.city.Between? then NearDc(site, u) else HomeDc(n);
      LinkedIffWanted(nodes, site, perNode, budget, u, v);
    }
  }

  // The data centres are linked, and every node is attached to one or, a residence, to an anchor of its city.
  lemma WantedIsBackboned(nodes: seq<Node>, site: Site, perNode: nat, budget: int)
    requires Placed(nodes) && CrossEndsExist(nodes, site, budget) && AnchorsExist(nodes)
    requires Proper(WantedLinks(nodes, site, perNode, budget), |nodes|)
    ensures Backboned(nodes, WantedLinks(nodes, site, perNode, budget))
  {
    hide WantedLinks, Homed, NextEast, WantsAtHome, WantsInMesh, Crosses, CrossEndsExist;
    LinkedIffWanted(nodes, site, perNode, budget, DC_WEST, DC_EAST);
    forall u: nat | u < |nodes|
      ensures Homed(nodes, WantedLinks(nodes, site, perNode, budget), u)
    {
      WantedIsHomed(nodes, site, perNode, budget, u);
    }
  }
}
