/**
  How tools/zone_mesh_anim.py ranks nodes: Python's stable `sorted` and `min` over lists in registration order, by a
  distance, a coordinate, or a kind and then a distance.
 */
module MeshRanking {
  import opened MeshScene

  /** What the positions of the nodes tell: distances between nodes, the first coordinate, the distance to the western
      city. */
  datatype Site = Site(dist: (nat, nat) -> real, x: nat -> real, toCity: nat -> real)

  /** The sorting keys of build_scene. */
  datatype Order =
    | Eastward
    | NearX(center: real)
    | From(node: nat)
    | NearCity
    | ForQueries(origin: nat)
    | ForRemotes
    | ForInference

  function QueryTier(k: Kind): int {
    match k
    case Dc => 0
    case Business => 1
    case Mixed => 2
    case Pop => 3
    case Colo => 4
    case Residence => 5
  }

  function RemoteTier(k: Kind): int {
    match k
    case Dc => 0
    case Pop => 1
    case Colo => 2
    case Business => 3
    case Mixed => 4
    case Residence => 5
  }

  function InferenceTier(k: Kind): int {
    match k
    case Business => 0
    case Mixed => 1
    case Pop => 2
    case Colo => 3
    case Residence => 4
    case Dc => 5
  }

  function Abs(r: real): real {
    if r < 0.0 then -r else r
  }

  function KindOf(nodes: seq<Node>, v: nat): Kind {
    if v < |nodes| then nodes[v].kind else Dc
  }

  function KeyOf(nodes: seq<Node>, site: Site, order: Order, v: nat): (int, real) {
    match order
    case Eastward => (0, site.x(v))
    case NearX(center) => (0, Abs(site.x(v) - center))
    case From(u) => (0, site.dist(u, v))
    case NearCity => (0, site.toCity(v))
    case ForQueries(origin) => (QueryTier(KindOf(nodes, v)), site.dist(origin, v))
    case ForRemotes => (RemoteTier(KindOf(nodes, v)), site.dist(DC_EAST, v))
    case ForInference => (InferenceTier(KindOf(nodes, v)), site.dist(DC_WEST, v))
  }

  predicate KeyAtMost(k: (int, real), l: (int, real)) {
    k.0 < l.0 || (k.0 == l.0 && k.1 <= l.1)
  }

  // v comes before w: its key is smaller, or the keys are equal and v was registered first.
  predicate Precedes(nodes: seq<Node>, site: Site, order: Order, v: nat, w: nat) {
    var k, l := KeyOf(nodes, site, order, v), KeyOf(nodes, site, order, w);
    KeyAtMost(k, l) && (!KeyAtMost(l, k) || v < w)
  }

  lemma PrecedesIsTotal(nodes: seq<Node>, site: Site, order: Order, v: nat, w: nat)
    ensures Precedes(nodes, site, order, v, w) || Precedes(nodes, site, order, w, v) || v == w
    ensures !(Precedes(nodes, site, order, v, w) && Precedes(nodes, site, order, w, v))
  {
    hide KeyOf;
  }

  lemma PrecedesIsTransitive(nodes: seq<Node>, site: Site, order: Order, u: nat, v: nat, w: nat)
    requires Precedes(nodes, site, order, u, v) && Precedes(nodes, site, order, v, w)
    ensures Precedes(nodes, site, order, u, w)
  {
    hide KeyOf;
  }

  // The kinds in the order in which the target lists take them; within a kind the nearer node comes first, from the
  // origin, the eastern and the western data centre.
  lemma KindsInTurn(nodes: seq<Node>, site: Site, origin: nat, v: nat, w: nat)
    requires v < |nodes| && w < |nodes|
    ensures Precedes(nodes, site, ForQueries(origin), v, w) <==>
              || ComesBefore([Dc, Business, Mixed, Pop, Colo, Residence], nodes[v].kind, nodes[w].kind)
              || (nodes[v].kind == nodes[w].kind && Nearer(site, origin, v, w))
    ensures Precedes(nodes, site, ForRemotes, v, w) <==>
              || ComesBefore([Dc, Pop, Colo, Business, Mixed, Residence], nodes[v].kind, nodes[w].kind)
              || (nodes[v].kind == nodes[w].kind && Nearer(site, 1, v, w))
    ensures Precedes(nodes, site, ForInference, v, w) <==>
              || ComesBefore([Business, Mixed, Pop, Colo, Residence, Dc], nodes[v].kind, nodes[w].kind)
              || (nodes[v].kind == nodes[w].kind && Nearer(site, 0, v, w))
  {
    TiersInTurn(nodes[v].kind, nodes[w].kind);
  }

  // k comes before l in the list.
  predicate ComesBefore(kinds: seq<Kind>, k: Kind, l: Kind) {
    exists i, j :: 0 <= i < j < |kinds| && kinds[i] == k && kinds[j] == l
  }

  lemma PlacesInTurn(kinds: seq<Kind>, i: nat, j: nat)
    requires i < |kinds| && j < |kinds|
    requires forall a, b :: 0 <= a < b < |kinds| ==> kinds[a] != kinds[b]
    ensures i < j <==> ComesBefore(kinds, kinds[i], kinds[j])
  {
  }

  lemma TiersInTurn(k: Kind, l: Kind)
    ensures QueryTier(k) < QueryTier(l) <==> ComesBefore([Dc, Business, Mixed, Pop, Colo, Residence], k, l)
    ensures RemoteTier(k) < RemoteTier(l) <==> ComesBefore([Dc, Pop, Colo, Business, Mixed, Residence], k, l)
    ensures InferenceTier(k) < InferenceTier(l) <==> ComesBefore([Business, Mixed, Pop, Colo, Residence, Dc], k, l)
  {
    hide ComesBefore;
    PlacesInTurn([Dc, Business, Mixed, Pop, Colo, Residence], QueryTier(k), QueryTier(l));
    PlacesInTurn([Dc, Pop, Colo, Business, Mixed, Residence], RemoteTier(k), RemoteTier(l));
    PlacesInTurn([Business, Mixed, Pop, Colo, Residence, Dc], InferenceTier(k), InferenceTier(l));
  }

  // v is nearer to u than w is, or as near and registered before it.
  predicate Nearer(site: Site, u: nat, v: nat, w: nat) {
    site.dist(u, v) < site.dist(u, w) || (site.dist(u, v) == site.dist(u, w) && v < w)
  }

  predicate Increasing(s: seq<nat>) {
    forall i, j :: 0 <= i < j < |s| ==> s[i] < s[j]
  }

  // The nodes that satisfy p, in registration order.
  function Select(nodes: seq<Node>, p: (nat, Node) -> bool): (r: seq<nat>)
    ensures forall x: nat :: x in r <==> x < |nodes| && p(x, nodes[x])
    ensures Increasing(r)
  {
    if nodes == [] then []
    else
      var last := |nodes| - 1;
      var before := Select(nodes[..last], p);
      assert forall i :: 0 <= i < |before| ==> before[i] in before;
      before + (if p(last, nodes[last]) then [last] else [])
  }

  function Insert(nodes: seq<Node>, site: Site, order: Order, x: nat, s: seq<nat>): (r: seq<nat>)
    ensures multiset(r) == multiset{x} + multiset(s)
  {
    if s == [] || KeyAtMost(KeyOf(nodes, site, order, x), KeyOf(nodes, site, order, s[0])) then [x] + s
    else
      assert s == [s[0]] + s[1..];
      [s[0]] + Insert(nodes, site, order, x, s[1..])
  }

  // Python's sorted
  function Ranked(nodes: seq<Node>, site: Site, order: Order, s: seq<nat>): (r: seq<nat>)
    ensures multiset(r) == multiset(s) && |r| == |s|
    ensures forall x: nat :: x in r <==> x in s
  {
    if s == [] then []
    else
      assert s == [s[0]] + s[1..];
      var r := Insert(nodes, site, order, s[0], Ranked(nodes, site, order, s[1..]));
      SameMembers(r, s);
      r
  }

  lemma SameMembers(r: seq<nat>, s: seq<nat>)
    requires multiset(r) == multiset(s)
    ensures |r| == |s|
    ensures forall x: nat :: x in r <==> x in s
  {
    assert |r| == |multiset(r)| && |s| == |multiset(s)|;
    forall x: nat
      ensures x in r <==> x in s
    {
      assert x in r <==> x in multiset(r);
      assert x in s <==> x in multiset(s);
    }
  }

  ghost predicate InRank(nodes: seq<Node>, site: Site, order: Order, r: seq<nat>) {
    forall i, j :: 0 <= i < j < |r| ==> Precedes(nodes, site, order, r[i], r[j])
  }

  lemma InRankCons(nodes: seq<Node>, site: Site, order: Order, x: nat, s: seq<nat>)
    requires InRank(nodes, site, order, s) && forall y: nat :: y in s ==> Precedes(nodes, site, order, x, y)
    ensures InRank(nodes, site, order, [x] + s)
  {
    hide Precedes;
    var r := [x] + s;
    forall i, j | 0 <= i < j < |r|
      ensures Precedes(nodes, site, order, r[i], r[j])
    {
      assert r[j] == s[j - 1] && s[j - 1] in s;
    }
  }

  lemma RankTail(nodes: seq<Node>, site: Site, order: Order, x: nat, s: seq<nat>)
    requires s != [] && InRank(nodes, site, order, s) && forall y: nat :: y in s ==> x < y
    ensures InRank(nodes, site, order, s[1..]) && forall y: nat :: y in s[1..] ==> x < y
  {
    hide Precedes;
    assert forall y: nat :: y in s[1..] ==> y in s;
  }

  lemma HeadLeads(nodes: seq<Node>, site: Site, order: Order, x: nat, s: seq<nat>, rest: seq<nat>)
    requires s != [] && InRank(nodes, site, order, s) && Precedes(nodes, site, order, s[0], x)
    requires multiset(rest) == multiset{x} + multiset(s[1..])
    ensures forall y: nat :: y in rest ==> Precedes(nodes, site, order, s[0], y)
  {
    hide Precedes;
    forall y: nat | y in rest
      ensures Precedes(nodes, site, order, s[0], y)
    {
      assert y in multiset(rest);
      assert y == x || y in s[1..];
    }
  }

  lemma BeforeHead(nodes: seq<Node>, site: Site, order: Order, x: nat, s: seq<nat>)
    requires s != [] && InRank(nodes, site, order, s) && Precedes(nodes, site, order, x, s[0])
    ensures forall y: nat :: y in s ==> Precedes(nodes, site, order, x, y)
  {
    hide Precedes;
    forall y: nat | y in s && y != s[0]
      ensures Precedes(nodes, site, order, x, y)
    {
      PrecedesIsTransitive(nodes, site, order, x, s[0], y);
    }
  }

  lemma {:induction false} InsertKeepsRank(nodes: seq<Node>, site: Site, order: Order, x: nat, s: seq<nat>)
    requires InRank(nodes, site, order, s) && forall y: nat :: y in s ==> x < y
    ensures InRank(nodes, site, order, Insert(nodes, site, order, x, s))
  {
    hide KeyOf, InRank;
    if s == [] {
      InRankCons(nodes, site, order, x, s);
    } else if KeyAtMost(KeyOf(nodes, site, order, x), KeyOf(nodes, site, order, s[0])) {
      assert s[0] in s && Precedes(nodes, site, order, x, s[0]);
      BeforeHead(nodes, site, order, x, s);
      InRankCons(nodes, site, order, x, s);
    } else {
      assert s[0] in s && Precedes(nodes, site, order, s[0], x);
      RankTail(nodes, site, order, x, s);
      InsertKeepsRank(nodes, site, order, x, s[1..]);
      var rest := Insert(nodes, site, order, x, s[1..]);
      HeadLeads(nodes, site, order, x, s, rest);
      InRankCons(nodes, site, order, s[0], rest);
    }
  }

  // Sorting a list in registration order ranks it, and nodes with equal keys keep that order.
  lemma {:induction false} RankedIsInRank(nodes: seq<Node>, site: Site, order: Order, s: seq<nat>)
    requires Increasing(s)
    ensures InRank(nodes, site, order, Ranked(nodes, site, order, s))
  {
    if s != [] {
      RankedIsInRank(nodes, site, order, s[1..]);
      var rest := Ranked(nodes, site, order, s[1..]);
      forall y: nat | y in rest
        ensures s[0] < y
      {
        var k :| 0 <= k < |s| - 1 && s[1..][k] == y;
        assert s[k + 1] == y;
      }
      InsertKeepsRank(nodes, site, order, s[0], rest);
    }
  }

  // The members of s that come before v
  function Ahead(nodes: seq<Node>, site: Site, order: Order, s: seq<nat>, v: nat): set<nat> {
    set w | w in s && Precedes(nodes, site, order, w, v)
  }

  function Members(s: seq<nat>): set<nat> {
    set v | v in s
  }

  lemma {:induction false} DistinctSize(s: seq<nat>)
    requires forall i, j :: 0 <= i < j < |s| ==> s[i] != s[j]
    ensures |Members(s)| == |s|
  {
    if s == [] {
      assert Members(s) == {};
    } else {
      var n := |s| - 1;
      DistinctSize(s[..n]);
      assert s == s[..n] + [s[n]];
      assert Members(s) == Members(s[..n]) + {s[n]};
    }
  }

  // In a ranked list, exactly i members come before the i-th one.
  lemma RankIsIndex(nodes: seq<Node>, site: Site, order: Order, s: seq<nat>, i: nat)
    requires Increasing(s) && i < |s|
    ensures var r := Ranked(nodes, site, order, s);
      |Ahead(nodes, site, order, s, r[i])| == i
  {
    hide Precedes, Ranked;
    RankedIsInRank(nodes, site, order, s);
    var r := Ranked(nodes, site, order, s);
    forall j, k | 0 <= j < k < |r|
      ensures r[j] != r[k]
    {
      PrecedesIsTotal(nodes, site, order, r[j], r[k]);
    }
    forall j | 0 <= j < |r|
      ensures Precedes(nodes, site, order, r[j], r[i]) <==> j < i
    {
      PrecedesIsTotal(nodes, site, order, r[j], r[i]);
    }
    DistinctSize(r[..i]);
    assert Members(r[..i]) == Ahead(nodes, site, order, s, r[i]);
  }

  // nearest_nodes
  function NearestNodes(nodes: seq<Node>, site: Site, u: nat, candidates: seq<nat>, limit: nat): (r: seq<nat>)
    ensures forall v: nat :: v in r ==> v in candidates
    ensures |r| <= limit
  {
    var ranked := Ranked(nodes, site, From(u), candidates);
    if |ranked| <= limit then ranked else ranked[..limit]
  }

  // The nearest nodes are those than which fewer than `limit` candidates are nearer.
  lemma NearestAreNearest(nodes: seq<Node>, site: Site, u: nat, candidates: seq<nat>, limit: nat, v: nat)
    requires Increasing(candidates)
    ensures v in NearestNodes(nodes, site, u, candidates, limit) <==>
              v in candidates && |set w | w in candidates && Nearer(site, u, w, v)| < limit
  {
    hide Ranked, Increasing;
    var r := Ranked(nodes, site, From(u), candidates);
    assert (set w | w in candidates && Nearer(site, u, w, v)) == Ahead(nodes, site, From(u), candidates, v);
    hide Precedes;
    if v in candidates {
      var i :| 0 <= i < |r| && r[i] == v;
      RankIsIndex(nodes, site, From(u), candidates, i);
      if v in NearestNodes(nodes, site, u, candidates, limit) {
        var j :| 0 <= j < |r| && j < limit && r[j] == v;
        RankIsIndex(nodes, site, From(u), candidates, j);
      }
    }
  }
}
