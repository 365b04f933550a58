/**
  The graph that tools/zone_mesh_anim.py draws: two data centres, the nodes of two cities and of the
  corridor between them, and the links that build_scene adds.

  Positions are arbitrary.  They enter only through `dist`, an arbitrary real-valued function on
  nodes, and through the orders that the sorting keys induce.
 */
module MeshScene {
  import opened Corridor
  import opened Numbers

  datatype Kind = Dc | Residence | Business | Colo | Pop | Mixed

  datatype City = West | East | Between

  /** A node's identifier is its index in registration order; 0 and 1 are the data centres. */
  datatype Node = Node(kind: Kind, city: City)

  datatype LinkKind = Backbone | Metro | Access | Mesh

  type Edge = (nat, nat)

  const DC_WEST: nat := 0
  const DC_EAST: nat := 1

  predicate IsAnchor(n: Node) {
    n.kind.Business? || n.kind.Mixed? || n.kind.Pop? || n.kind.Colo?
  }

  // Registration puts the data centres first and only pops, colos and mixed nodes in the corridor.
  predicate Placed(nodes: seq<Node>) {
    && |nodes| >= 2
    && nodes[DC_WEST] == Node(Dc, West) && nodes[DC_EAST] == Node(Dc, East)
    && forall u :: 2 <= u < |nodes| ==>
         !nodes[u].kind.Dc? && (nodes[u].city.Between? ==> nodes[u].kind in {Colo, Pop, Mixed})
  }

  // The city has a node a residence can attach to.
  ghost predicate HasAnchor(nodes: seq<Node>, city: City) {
    exists v :: 0 <= v < |nodes| && CityAnchor(nodes[v], city)
  }

  // Each city with a residence has one; otherwise build_scene fails.
  ghost predicate AnchorsExist(nodes: seq<Node>) {
    forall u :: 0 <= u < |nodes| && nodes[u].kind.Residence? ==> HasAnchor(nodes, nodes[u].city)
  }

  predicate CityAnchor(n: Node, city: City) {
    IsAnchor(n) && n.city == city
  }

  function HomeDc(n: Node): nat {
    if n.city.East? then DC_EAST else DC_WEST
  }

  function NodeKey(a: nat, b: nat): Edge {
    if a < b then (a, b) else (b, a)
  }

  predicate HasEdge(edges: set<Edge>, a: nat, b: nat) {
    a != b && NodeKey(a, b) in edges
  }

  predicate Proper(edges: set<Edge>, n: nat) {
    forall e :: e in edges ==> e.0 < e.1 < n
  }

  ghost predicate HasAnchorEdge(nodes: seq<Node>, edges: set<Edge>, u: nat) {
    u < |nodes| && exists v: nat :: v < |nodes| && HasEdge(edges, u, v) && CityAnchor(nodes[v], nodes[u].city)
  }

  // How node u is attached.
  ghost predicate Homed(nodes: seq<Node>, edges: set<Edge>, u: nat)
    requires u < |nodes|
  {
    match nodes[u].kind
    case Dc => true
    case Residence => HasAnchorEdge(nodes, edges, u)
    case _ =>
      if nodes[u].city.Between? then HasEdge(edges, u, DC_WEST) || HasEdge(edges, u, DC_EAST)
      else HasEdge(edges, u, HomeDc(nodes[u]))
  }

  ghost predicate Backboned(nodes: seq<Node>, edges: set<Edge>) {
    && Proper(edges, |nodes|)
    && HasEdge(edges, DC_WEST, DC_EAST)
    && AllHomed(nodes, edges, |nodes|)
  }

  ghost predicate AllHomed(nodes: seq<Node>, edges: set<Edge>, n: nat)
    requires n <= |nodes|
  {
    forall u: nat :: u < n ==> Homed(nodes, edges, u)
  }

  // Registration

  function Repeat(n: int, v: Node): (s: seq<Node>)
    ensures |s| == Max(n, 0) && forall x :: x in s <==> n > 0 && x == v
  {
    var s := seq(Max(n, 0), _ => v);
    assert n > 0 ==> s[0] == v;
    s
  }

  /** One entry of the profile's "counts": a kind, its total, and its corridor share. */
  datatype Count = Count(kind: Kind, total: int, share: int)

  function Totals(counts: seq<Count>): int {
    if counts == [] then 0 else Max(counts[0].total, counts[0].share) + Totals(counts[1..])
  }

  lemma {:induction false} TotalsSnoc(counts: seq<Count>, c: Count)
    ensures Totals(counts + [c]) == Totals(counts) + Max(c.total, c.share)
  {
    if counts != [] {
      assert (counts + [c])[1..] == counts[1..] + [c];
      TotalsSnoc(counts[1..], c);
    }
  }

  // The total that the entries give for one kind
  function KindTotal(counts: seq<Count>, kind: Kind): int {
    if counts == [] then 0
    else KindTotal(counts[..|counts| - 1], kind)
         + if counts[|counts| - 1].kind == kind then Max(counts[|counts| - 1].total, counts[|counts| - 1].share) else 0
  }

  function OfKind(nodes: seq<Node>, kind: Kind): nat {
    if nodes == [] then 0
    else OfKind(nodes[..|nodes| - 1], kind) + if nodes[|nodes| - 1].kind == kind then 1 else 0
  }

  lemma {:induction false} OfKindConcat(a: seq<Node>, b: seq<Node>, kind: Kind)
    ensures OfKind(a + b, kind) == OfKind(a, kind) + OfKind(b, kind)
  {
    if b == [] {
      assert a + b == a;
    } else {
      assert (a + b)[..|a + b| - 1] == a + b[..|b| - 1];
      OfKindConcat(a, b[..|b| - 1], kind);
    }
  }

  lemma {:induction false} OfKindUniform(nodes: seq<Node>, made: Kind, kind: Kind)
    requires forall n :: n in nodes ==> n.kind == made
    ensures OfKind(nodes, kind) == if kind == made then |nodes| else 0
  {
    if nodes != [] {
      assert nodes[|nodes| - 1] in nodes;
      OfKindUniform(nodes[..|nodes| - 1], made, kind);
    }
  }

  // One more entry adds its nodes to its kind.
  lemma KindTotalGrows(nodes: seq<Node>, counts: seq<Count>, c: Count, kind: Kind)
    requires GoodCount(c)
    ensures OfKind(nodes + Row(c), kind) - OfKind(nodes, kind) == KindTotal(counts + [c], kind) - KindTotal(counts, kind)
  {
    assert (counts + [c])[..|counts|] == counts;
    assert forall n :: n in Row(c) ==> n.kind == c.kind;
    hide Row, Provides, OfKind;
    OfKindConcat(nodes, Row(c), kind);
    OfKindUniform(Row(c), c.kind, kind);
  }

  lemma DataCentresOnly(kind: Kind)
    ensures OfKind([Node(Dc, West), Node(Dc, East)], kind) == if kind.Dc? then 2 else 0
  {
    var two := [Node(Dc, West), Node(Dc, East)];
    assert two[..1] == [Node(Dc, West)] && two[..1][..0] == [];
  }

  // Whether the entry c makes nodes like n.
  predicate Provides(c: Count, n: Node) {
    && n.kind == c.kind
    && match n.city
       case West => SplitCount(c.total, c.share).west > 0
       case East => SplitCount(c.total, c.share).east > 0
       case Between => c.share > 0
  }

  predicate Provided(counts: seq<Count>, n: Node) {
    exists i :: 0 <= i < |counts| && Provides(counts[i], n)
  }

  // Only pops, colos and mixed nodes have a share of the corridor.
  predicate GoodCount(c: Count) {
    !c.kind.Dc? && c.share >= 0 && (c.share > 0 ==> c.kind.Colo? || c.kind.Pop? || c.kind.Mixed?)
  }

  // The nodes of one entry.
  function Row(c: Count): (row: seq<Node>)
    requires c.share >= 0
    ensures |row| == Max(c.total, c.share)
    ensures forall n :: n in row <==> Provides(c, n)
  {
    var split := SplitCount(c.total, c.share);
    var west, east := Repeat(split.west, Node(c.kind, West)), Repeat(split.east, Node(c.kind, East));
    var between := Repeat(split.corridor, Node(c.kind, Between));
    assert forall n :: n in west + east + between <==> n in west || n in east || n in between;
    west + east + between
  }

  // The registration loops of build_scene.  They make exactly the nodes the profile provides for,
  // max(total, corridor share) of each kind, besides the data centres.
  method RegisterNodes(counts: seq<Count>) returns (nodes: seq<Node>)
    requires forall i :: 0 <= i < |counts| ==> GoodCount(counts[i])
    ensures Placed(nodes)
    ensures |nodes| == 2 + Totals(counts)
    ensures forall kind :: OfKind(nodes, kind) == (if kind.Dc? then 2 else 0) + KindTotal(counts, kind)
    ensures forall n :: n in nodes <==> n == Node(Dc, West) || n == Node(Dc, East) || Provided(counts, n)
  {
    hide OfKind, KindTotal;
    forall kind
      ensures OfKind([Node(Dc, West), Node(Dc, East)], kind) == (if kind.Dc? then 2 else 0) + KindTotal([], kind)
    {
      DataCentresOnly(kind);
      NoEntries(kind);
    }
    assert counts[..0] == [];
    nodes := [Node(Dc, West), Node(Dc, East)];
    var i := 0;
    while i < |counts|
      invariant 0 <= i <= |counts|
      invariant Placed(nodes)
      invariant |nodes| == 2 + Totals(counts[..i])
      invariant forall kind :: OfKind(nodes, kind) == (if kind.Dc? then 2 else 0) + KindTotal(counts[..i], kind)
      invariant forall n :: n in nodes <==> n == Node(Dc, West) || n == Node(Dc, East) || Provided(counts[..i], n)
    {
      assert counts[..i + 1] == counts[..i] + [counts[i]];
      TotalsSnoc(counts[..i], counts[i]);
      ProvidedSnoc(counts[..i], counts[i]);
      RowIsPlaced(nodes, counts[i]);
      forall kind
        ensures OfKind(nodes + Row(counts[i]), kind) - OfKind(nodes, kind)
             == KindTotal(counts[..i + 1], kind) - KindTotal(counts[..i], kind)
      {
        KindTotalGrows(nodes, counts[..i], counts[i], kind);
      }
      hide Placed, Provided, Provides;
      nodes := nodes + Row(counts[i]);
      i := i + 1;
    }
    assert counts[..i] == counts;
  }

  lemma NoEntries(kind: Kind)
    ensures KindTotal([], kind) == 0
  {
  }

  lemma ProvidedSnoc(counts: seq<Count>, c: Count)
    ensures forall n :: Provided(counts + [c], n) <==> Provided(counts, n) || Provides(c, n)
  {
    forall n
      ensures Provided(counts + [c], n) <==> Provided(counts, n) || Provides(c, n)
    {
      var longer := counts + [c];
      assert longer[|counts|] == c;
      if Provided(counts, n) {
        var i :| 0 <= i < |counts| && Provides(counts[i], n);
        assert longer[i] == counts[i];
      }
    }
  }

  lemma RowIsPlaced(nodes: seq<Node>, c: Count)
    requires Placed(nodes) && GoodCount(c)
    ensures Placed(nodes + Row(c))
  {
    var more := nodes + Row(c);
    forall u | 2 <= u < |more|
      ensures !more[u].kind.Dc? && (more[u].city.Between? ==> more[u].kind in {Colo, Pop, Mixed})
    {
      if u >= |nodes| {
        assert more[u] == Row(c)[u - |nodes|] && more[u] in Row(c);
      }
    }
  }
}
