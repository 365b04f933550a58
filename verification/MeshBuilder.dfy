/**
  The linking loops of build_scene in tools/zone_mesh_anim.py: they fill one dictionary of links,
  keyed by unordered pairs, through add_link.
 */
module MeshBuilder {
  import opened MeshScene
  import opened MeshRanking
  import opened Numbers

  function Indices(n: nat): (r: set<nat>)
    ensures forall u: nat :: u in r <==> u < n
  {
    if n == 0 then {} else Indices(n - 1) + {n - 1}
  }

  // The wanted links

  // The links from u to all of a list
  function Spokes(u: nat, targets: seq<nat>): set<Edge> {
    set v | v in targets && v != u :: NodeKey(u, v)
  }

  // The corridor from west to east
  function CorridorChain(nodes: seq<Node>, site: Site): (r: seq<nat>)
    ensures forall u: nat :: u in r <==> u < |nodes| && nodes[u].city.Between?
  {
    Ranked(nodes, site, Eastward, Select(nodes, (_, n: Node) => n.city.Between?))
  }

  // The links between neighbours of a list
  function ChainLinks(s: seq<nat>): set<Edge> {
    if |s| < 2 then {} else ChainLinks(s[..|s| - 1]) + Spokes(s[|s| - 2], [s[|s| - 1]])
  }

  function SameCity(nodes: seq<Node>, u: nat): (r: seq<nat>)
    ensures forall v: nat :: v in r <==> v < |nodes| && u < |nodes| && v != u && nodes[v].city == nodes[u].city && !nodes[v].kind.Dc?
    ensures Increasing(r)
  {
    if u < |nodes| then Select(nodes, (v: nat, n: Node) => v != u && n.city == nodes[u].city && !n.kind.Dc?) else []
  }

  function Anchors(nodes: seq<Node>, u: nat, city: City): (r: seq<nat>)
    ensures forall v: nat :: v in r <==> v < |nodes| && v != u && CityAnchor(nodes[v], city)
    ensures Increasing(r)
  {
    Select(nodes, (v: nat, n: Node) => v != u && CityAnchor(n, city))
  }

  function NearDc(site: Site, u: nat): nat {
    if site.dist(u, DC_WEST) < site.dist(u, DC_EAST) then DC_WEST else DC_EAST
  }

  // The links that a node asks for on its own account
  function HomeLinks(nodes: seq<Node>, site: Site, u: nat): set<Edge>
    requires u < |nodes|
  {
    var n := nodes[u];
    if n.kind.Dc? then {}
    else if n.city.Between? then
      if n.kind.Colo? || n.kind.Pop? then Spokes(u, [DC_WEST, DC_EAST]) else Spokes(u, [NearDc(site, u)])
    else if n.kind.Residence? then Spokes(u, NearestNodes(nodes, site, u, Anchors(nodes, u, n.city), 1))
    else
      Spokes(u, [HomeDc(n)])
      + Spokes(u, NearestNodes(nodes, site, u, SameCity(nodes, u), if n.kind.Colo? || n.kind.Pop? then 2 else 1))
  }

  function AllHomeLinks(nodes: seq<Node>, site: Site, n: nat): set<Edge>
    requires n <= |nodes|
  {
    if n == 0 then {} else AllHomeLinks(nodes, site, n - 1) + HomeLinks(nodes, site, n - 1)
  }

  // The local mesh of one city, up to the first n of a list
  function MeshLinks(nodes: seq<Node>, site: Site, city: City, perNode: nat, members: seq<nat>): set<Edge> {
    if members == [] then {}
    else
      var u := members[|members| - 1];
      MeshLinks(nodes, site, city, perNode, members[..|members| - 1])
      + Spokes(u, NearestNodes(nodes, site, u, Anchors(nodes, u, city), perNode))
  }

  // The ends of the cross-city links on one side, by their distance from a coordinate of that side
  function CrossEnds(nodes: seq<Node>, site: Site, city: City): (r: seq<nat>)
    ensures forall u: nat :: u in r <==> u < |nodes| && CrossEnd(nodes[u], city)
  {
    Ranked(nodes, site, NearX(if city.East? then 880.0 else 780.0), Select(nodes, (_, n: Node) => CrossEnd(n, city)))
  }

  // The first n cross-city links: the ends of both sides take turns.
  function CrossLinks(left: seq<nat>, right: seq<nat>, n: nat): set<Edge>
    requires n > 0 ==> left != [] && right != []
  {
    set i | 0 <= i < n && left[i % |left|] != right[i % |right|] :: NodeKey(left[i % |left|], right[i % |right|])
  }

  predicate CrossEndsExist(nodes: seq<Node>, site: Site, budget: int) {
    budget > 0 ==> CrossEnds(nodes, site, West) != [] && CrossEnds(nodes, site, East) != []
  }

  // All links that build_scene adds
  function WantedLinks(nodes: seq<Node>, site: Site, perNode: nat, budget: int): set<Edge>
    requires CrossEndsExist(nodes, site, budget)
  {
    ChainLinks([DC_WEST] + CorridorChain(nodes, site) + [DC_EAST]) + Spokes(DC_WEST, [DC_EAST])
    + AllHomeLinks(nodes, site, |nodes|)
    + MeshLinks(nodes, site, West, perNode, Anchors(nodes, |nodes|, West))
    + MeshLinks(nodes, site, East, perNode, Anchors(nodes, |nodes|, East))
    + CrossLinks(CrossEnds(nodes, site, West), CrossEnds(nodes, site, East), Max(budget, 0))
  }

  lemma SpokesMore(u: nat, s: seq<nat>, t: seq<nat>)
    ensures Spokes(u, s + t) == Spokes(u, s) + Spokes(u, t)
  {
    assert forall v: nat :: v in s + t <==> v in s || v in t;
  }

  lemma ChainMore(s: seq<nat>, x: nat)
    requires s != []
    ensures ChainLinks(s + [x]) == ChainLinks(s) + Spokes(s[|s| - 1], [x])
  {
    assert (s + [x])[..|s|] == s;
  }

  lemma ChainOfOne(x: nat)
    ensures ChainLinks([x]) == {}
  {
  }

  lemma {:induction false} ChainCons(a: nat, s: seq<nat>)
    requires s != []
    ensures ChainLinks([a] + s) == Spokes(a, [s[0]]) + ChainLinks(s)
  {
    hide ChainLinks, Spokes;
    var n := |s| - 1;
    if n == 0 {
      assert s == [s[0]];
      ChainOfOne(a);
      ChainOfOne(s[0]);
      ChainMore([a], s[0]);
    } else {
      ChainCons(a, s[..n]);
      ChainMore([a] + s[..n], s[n]);
      ChainMore(s[..n], s[n]);
      assert s[..n] + [s[n]] == s && ([a] + s[..n]) + [s[n]] == [a] + s;
    }
  }

  // The chain with both ends
  lemma ChainEnds(s: seq<nat>, a: nat, b: nat)
    ensures ChainLinks([a] + s + [b]) ==
              if s == [] then Spokes(a, [b]) else Spokes(a, [s[0]]) + Spokes(s[|s| - 1], [b]) + ChainLinks(s)
  {
    hide ChainLinks, Spokes;
    if s == [] {
      ChainOfOne(a);
      ChainMore([a], b);
      assert [a] + s + [b] == [a] + [b];
    } else {
      ChainMore([a] + s, b);
      ChainCons(a, s);
    }
  }

  lemma MeshStart(nodes: seq<Node>, site: Site, city: City, perNode: nat)
    ensures MeshLinks(nodes, site, city, perNode, []) == {}
  {
  }

  lemma MeshMore(nodes: seq<Node>, site: Site, city: City, perNode: nat, members: seq<nat>, u: nat)
    ensures MeshLinks(nodes, site, city, perNode, members + [u]) ==
              MeshLinks(nodes, site, city, perNode, members)
              + Spokes(u, NearestNodes(nodes, site, u, Anchors(nodes, u, city), perNode))
  {
    hide Spokes, NearestNodes, Anchors;
    assert (members + [u])[..|members|] == members;
  }

  lemma CrossMore(left: seq<nat>, right: seq<nat>, n: nat)
    requires left != [] && right != []
    ensures CrossLinks(left, right, n + 1) == CrossLinks(left, right, n) + Spokes(left[n % |left|], [right[n % |right|]])
  {
  }

  lemma DcWantsNothing(nodes: seq<Node>, site: Site, u: nat)
    requires u < |nodes| && nodes[u].kind.Dc?
    ensures HomeLinks(nodes, site, u) == {}
  {
  }

  class Builder {
    const nodes: seq<Node>
    const site: Site
    var links: map<Edge, LinkKind>

    constructor (nodes: seq<Node>, site: Site)
      ensures this.nodes == nodes && this.site == site && links == map[]
    {
      this.nodes, this.site, links := nodes, site, map[];
    }

    ghost predicate Sound()
      reads this
    {
      Placed(nodes) && Proper(links.Keys, |nodes|)
    }

    // add_link: no loops, and the first link between two nodes stays.
    method AddLink(a: nat, b: nat, kind: LinkKind)
      requires Sound() && a < |nodes| && b < |nodes|
      modifies this
      ensures Sound() && links.Keys == old(links.Keys) + Spokes(a, [b])
      ensures links == if a == b || NodeKey(a, b) in old(links) then old(links) else old(links)[NodeKey(a, b) := kind]
      ensures a != b ==> HasEdge(links.Keys, a, b)
    {
      if a == b {
        return;
      }
      var key := NodeKey(a, b);
      assert b in [b];
      if key in links {
        return;
      }
      links := links[key := kind];
    }

    method LinkAll(u: nat, targets: seq<nat>, kind: LinkKind)
      requires Sound() && u < |nodes| && forall v: nat :: v in targets ==> v < |nodes|
      modifies this
      ensures Sound() && links.Keys == old(links.Keys) + Spokes(u, targets)
    {
      var i := 0;
      while i < |targets|
        invariant 0 <= i <= |targets|
        invariant Sound() && links.Keys == old(links.Keys) + Spokes(u, targets[..i])
      {
        assert targets[i] in targets;
        assert targets[..i + 1] == targets[..i] + [targets[i]];
        SpokesMore(u, targets[..i], [targets[i]]);
        AddLink(u, targets[i], kind);
        i := i + 1;
      }
      assert targets[..i] == targets;
    }

    // The chain through the corridor and the direct link between the data centres.
    method LinkCorridor()
      requires Sound()
      modifies this
      ensures Sound()
      ensures links.Keys == old(links.Keys) + ChainLinks([DC_WEST] + CorridorChain(nodes, site) + [DC_EAST])
                            + Spokes(DC_WEST, [DC_EAST])
    {
      hide CorridorChain, ChainLinks, Spokes, Proper;
      var corridor := CorridorChain(nodes, site);
      ChainEnds(corridor, DC_WEST, DC_EAST);
      if corridor != [] {
        assert forall i :: 0 <= i < |corridor| ==> corridor[i] in corridor;
        AddLink(DC_WEST, corridor[0], Backbone);
        AddLink(corridor[|corridor| - 1], DC_EAST, Backbone);
        LinkNeighbours(corridor);
      }
      AddLink(DC_WEST, DC_EAST, Backbone);
    }

    method LinkNeighbours(corridor: seq<nat>)
      requires Sound() && corridor != [] && forall i :: 0 <= i < |corridor| ==> corridor[i] < |nodes|
      modifies this
      ensures Sound() && links.Keys == old(links.Keys) + ChainLinks(corridor)
    {
      hide ChainLinks, Spokes, Proper, Placed;
      var i := 0;
      ChainOfOne(corridor[0]);
      assert corridor[..1] == [corridor[0]];
      while i + 1 < |corridor|
        invariant 0 <= i < |corridor|
        invariant Sound() && links.Keys == old(links.Keys) + ChainLinks(corridor[..i + 1])
      {
        ChainMore(corridor[..i + 1], corridor[i + 1]);
        assert corridor[..i + 2] == corridor[..i + 1] + [corridor[i + 1]];
        AddLink(corridor[i], corridor[i + 1], Backbone);
        i := i + 1;
      }
      assert corridor[..i + 1] == corridor;
    }

    method LinkCorridorNode(u: nat)
      requires Sound() && 2 <= u < |nodes| && nodes[u].city.Between?
      modifies this
      ensures Sound() && links.Keys == old(links.Keys) + HomeLinks(nodes, site, u)
    {
      var near, far := DC_EAST, DC_WEST;
      if site.dist(u, DC_WEST) < site.dist(u, DC_EAST) {
        near, far := DC_WEST, DC_EAST;
      }
      AddLink(u, near, Backbone);
      if nodes[u].kind.Colo? || nodes[u].kind.Pop? {
        AddLink(u, far, Backbone);
      }
    }

    // A residence links to the nearest anchor of its city; without one min() fails.
    method LinkResidence(u: nat) returns (ok: bool)
      requires Sound() && 2 <= u < |nodes| && nodes[u].kind.Residence? && !nodes[u].city.Between?
      modifies this
      ensures Sound()
      ensures ok <==> HasAnchor(nodes, nodes[u].city)
      ensures ok ==> links.Keys == old(links.Keys) + HomeLinks(nodes, site, u)
    {
      var anchors := Anchors(nodes, u, nodes[u].city);
      if anchors == [] {
        return false;
      }
      assert anchors[0] in anchors;
      var ranked := Ranked(nodes, site, From(u), anchors);
      assert ranked[0] in ranked;
      assert NearestNodes(nodes, site, u, anchors, 1) == [ranked[0]];
      AddLink(u, ranked[0], Access);
      ok := true;
    }

    method LinkCityNode(u: nat) returns (ok: bool)
      requires Sound() && 2 <= u < |nodes| && !nodes[u].city.Between?
      modifies this
      ensures Sound()
      ensures ok <==> (nodes[u].kind.Residence? ==> HasAnchor(nodes, nodes[u].city))
      ensures ok ==> links.Keys == old(links.Keys) + HomeLinks(nodes, site, u)
    {
      hide HasAnchor, Proper, NearestNodes, Spokes;
      if nodes[u].kind.Residence? {
        ok := LinkResidence(u);
      } else {
        AddLink(u, HomeDc(nodes[u]), Metro);
        var limit := if nodes[u].kind.Business? || nodes[u].kind.Mixed? then 1 else 2;
        LinkAll(u, NearestNodes(nodes, site, u, SameCity(nodes, u), limit), Metro);
        ok := true;
      }
    }

    // It fails at the first residence that has no anchor.
    method LinkHomes() returns (ok: bool)
      requires Sound()
      modifies this
      ensures Sound()
      ensures ok <==> AnchorsExist(nodes)
      ensures ok ==> links.Keys == old(links.Keys) + AllHomeLinks(nodes, site, |nodes|)
    {
      hide HasAnchor, Proper, HomeLinks;
      var u := 0;
      while u < |nodes|
        invariant 0 <= u <= |nodes|
        invariant Sound() && links.Keys == old(links.Keys) + AllHomeLinks(nodes, site, u)
        invariant forall v :: 0 <= v < u && nodes[v].kind.Residence? ==> HasAnchor(nodes, nodes[v].city)
      {
        if nodes[u].kind.Dc? {
          DcWantsNothing(nodes, site, u);
        } else if nodes[u].city.Between? {
          LinkCorridorNode(u);
        } else {
          var linked := LinkCityNode(u);
          if !linked {
            return false;
          }
        }
        u := u + 1;
      }
      ok := true;
    }

    // The local mesh of one city.
    method LinkMesh(city: City, perNode: nat)
      requires Sound()
      modifies this
      ensures Sound()
      ensures links.Keys == old(links.Keys) + MeshLinks(nodes, site, city, perNode, Anchors(nodes, |nodes|, city))
    {
      hide Placed, Proper, Spokes, NearestNodes, Anchors, MeshLinks;
      var candidates := Anchors(nodes, |nodes|, city);
      MeshStart(nodes, site, city, perNode);
      var i := 0;
      while i < |candidates|
        invariant 0 <= i <= |candidates|
        invariant Sound() && links.Keys == old(links.Keys) + MeshLinks(nodes, site, city, perNode, candidates[..i])
      {
        var u := candidates[i];
        assert u in candidates;
        MeshMore(nodes, site, city, perNode, candidates[..i], u);
        assert candidates[..i + 1] == candidates[..i] + [u];
        LinkAll(u, NearestNodes(nodes, site, u, Anchors(nodes, u, city), perNode), Mesh);
        i := i + 1;
      }
      assert candidates[..i] == candidates;
    }

    // The cross-city links; with an empty side and a positive budget the script divides by zero.
    method LinkCross(budget: int, left: seq<nat>, right: seq<nat>) returns (ok: bool)
      requires Sound()
      requires forall v: nat :: v in left || v in right ==> v < |nodes|
      modifies this
      ensures Sound()
      ensures ok <==> budget <= 0 || (left != [] && right != [])
      ensures ok ==> links.Keys == old(links.Keys) + CrossLinks(left, right, Max(budget, 0))
    {
      hide Placed, Proper;
      var index := 0;
      while index < budget
        invariant 0 <= index <= Max(budget, 0)
        invariant index > 0 ==> left != [] && right != []
        invariant Sound() && links.Keys == old(links.Keys) + CrossLinks(left, right, index)
      {
        if left == [] || right == [] {
          return false;
        }
        var a, b := left[index % |left|], right[index % |right|];
        assert a in left && b in right;
        CrossMore(left, right, index);
        AddLink(a, b, Backbone);
        index := index + 1;
      }
      ok := true;
    }

    // All links; it fails where a residence finds no anchor or a cross-city link no end.
    method BuildLinks(perNode: nat, budget: int) returns (ok: bool)
      requires Placed(nodes) && links == map[]
      modifies this
      ensures Sound()
      ensures ok <==> AnchorsExist(nodes) && CrossEndsExist(nodes, site, budget)
      ensures ok ==> links.Keys == WantedLinks(nodes, site, perNode, budget)
    {
      hide AnchorsExist, Spokes, ChainLinks, AllHomeLinks, MeshLinks, CrossLinks, Placed;
      LinkCorridor();
      ok := LinkHomes();
      if !ok {
        return;
      }
      LinkMesh(West, perNode);
      LinkMesh(East, perNode);
      ok := LinkCross(budget, CrossEnds(nodes, site, West), CrossEnds(nodes, site, East));
    }

    // The adjacency dictionary: every node, and both directions of every link.
    method Adjacency() returns (adjacency: map<nat, set<nat>>)
      requires Sound()
      ensures AdjacencyOf(adjacency, |nodes|, links.Keys)
    {
      hide AdjacencyOf, Placed, HasEdge;
      adjacency := map u | u in Indices(|nodes|) :: {};
      var todo := links.Keys;
      NoLinksYet(adjacency, |nodes|);
      assert links.Keys - todo == {};
      while todo != {}
        invariant todo <= links.Keys
        invariant AdjacencyOf(adjacency, |nodes|, links.Keys - todo)
        decreases todo
      {
        var e :| e in todo;
        AddBothWays(adjacency, |nodes|, links.Keys - todo, e);
        assert links.Keys - todo + {e} == links.Keys - (todo - {e});
        todo := todo - {e};
        adjacency := adjacency[e.0 := adjacency[e.0] + {e.1}];
        adjacency := adjacency[e.1 := adjacency[e.1] + {e.0}];
      }
      assert links.Keys - todo == links.Keys;
    }
  }

  // The adjacency of a set of links: an entry for every node, both directions of every link.
  ghost predicate AdjacencyOf(adj: map<nat, set<nat>>, n: nat, edges: set<Edge>) {
    && adj.Keys == Indices(n)
    && forall u, v :: u in adj ==> (v in adj[u] <==> HasEdge(edges, u, v))
  }

  lemma NoLinksYet(adj: map<nat, set<nat>>, n: nat)
    requires adj.Keys == Indices(n) && forall u :: u in adj ==> adj[u] == {}
    ensures AdjacencyOf(adj, n, {})
  {
  }

  lemma AddBothWays(adj: map<nat, set<nat>>, n: nat, edges: set<Edge>, e: Edge)
    requires AdjacencyOf(adj, n, edges) && e.0 < e.1 < n
    ensures e.0 in adj && e.1 in adj
    ensures var adj' := adj[e.0 := adj[e.0] + {e.1}];
      AdjacencyOf(adj'[e.1 := adj'[e.1] + {e.0}], n, edges + {e})
  {
    var adj' := adj[e.0 := adj[e.0] + {e.1}];
    var adj'' := adj'[e.1 := adj'[e.1] + {e.0}];
    assert adj''.Keys == adj.Keys;
    forall u, v | u in adj''
      ensures v in adj''[u] <==> HasEdge(edges + {e}, u, v)
    {
      assert v in adj[u] <==> HasEdge(edges, u, v);
    }
  }

  predicate CrossEnd(n: Node, city: City) {
    (n.city == city || n.city.Between?) && (n.kind.Pop? || n.kind.Colo? || n.kind.Mixed?)
  }
}
