/**
  Breadth-first search over the mesh adjacency (tools/zone_mesh_anim.py, shortest_path).

  A graph maps every node to its set of neighbours.  The search pops the head of a queue, records a
  predecessor for every node it meets for the first time, and stops at the moment the target is met.
 */
module ShortestPath {

  import opened Options
  import opened Sequences

  type Graph<N> = map<N, set<N>>

  // Every neighbour has an adjacency entry of its own.
  ghost predicate Closed<N>(g: Graph<N>) {
    forall u, w :: u in g && w in g[u] ==> w in g
  }

  ghost predicate IsWalk<N>(g: Graph<N>, p: seq<N>) {
    && |p| > 0
    && forall i :: 0 <= i < |p| - 1 ==> p[i] in g && p[i + 1] in g[p[i]]
  }

  ghost predicate WalkBetween<N>(g: Graph<N>, start: N, end: N, p: seq<N>) {
    IsWalk(g, p) && p[0] == start && p[|p| - 1] == end
  }

  ghost predicate Reachable<N(!new)>(g: Graph<N>, start: N, end: N) {
    exists p :: WalkBetween(g, start, end, p)
  }

  ghost predicate NoRepeat<N>(p: seq<N>) {
    forall i, j :: 0 <= i < j < |p| ==> p[i] != p[j]
  }

  // p is a repetition-free walk with the fewest edges among all walks with the same ends.
  ghost predicate IsShortestPath<N(!new)>(g: Graph<N>, start: N, end: N, p: seq<N>) {
    && WalkBetween(g, start, end, p)
    && NoRepeat(p)
    && forall q :: WalkBetween(g, start, end, q) ==> |p| <= |q|
  }

  // The predecessor map is a tree rooted at start, and dist measures depth in it.
  ghost predicate Tree<N>(g: Graph<N>, start: N, previous: map<N, Option<N>>, dist: map<N, nat>) {
    && previous.Keys == dist.Keys
    && start in dist && dist[start] == 0
    && forall v :: v in previous && v != start ==> Child(g, previous[v], v, dist)
  }

  ghost predicate Child<N>(g: Graph<N>, parent: Option<N>, v: N, dist: map<N, nat>) {
    && parent.Some? && parent.value in g && v in g[parent.value]
    && parent.value in dist && v in dist && dist[v] == dist[parent.value] + 1
  }

  // Queue order: depths never decrease and span at most one level above d.
  ghost predicate Levels<N>(frontier: seq<N>, dist: map<N, nat>, d: nat) {
    && (forall i :: 0 <= i < |frontier| ==> frontier[i] in dist && d <= dist[frontier[i]] <= d + 1)
    && (forall i, j :: 0 <= i < j < |frontier| ==> dist[frontier[i]] <= dist[frontier[j]])
  }

  // All neighbours of v are recorded, at most one level below v.
  ghost predicate Expanded<N>(g: Graph<N>, dist: map<N, nat>, v: N) {
    v in dist && v in g && forall w :: w in g[v] ==> w in dist && dist[w] <= dist[v] + 1
  }

  /** One moment of the search: `active` is the node being expanded, if any. */
  datatype Moment<N> = Moment(previous: map<N, Option<N>>, dist: map<N, nat>, expanded: set<N>,
                              active: set<N>, frontier: seq<N>, d: nat)

  ghost predicate Inv<N>(g: Graph<N>, start: N, m: Moment<N>) {
    && Tree(g, start, m.previous, m.dist)
    && m.dist.Keys <= g.Keys
    && Cover(m.dist.Keys, m.expanded, m.active, m.frontier)
    && Levels(m.frontier, m.dist, m.d)
    && (forall v :: v in m.active ==> m.dist[v] == m.d)
    && (forall v :: v in m.expanded ==> Expanded(g, m.dist, v) && m.dist[v] <= m.d)
  }

  // The recorded nodes are the disjoint union of expanded, active and queued nodes.
  ghost predicate Cover<N>(recorded: set<N>, expanded: set<N>, active: set<N>, frontier: seq<N>) {
    && recorded == expanded + active + Elements(frontier)
    && expanded !! active !! Elements(frontier)
    && NoRepeat(frontier)
  }

  ghost function Elements<N>(s: seq<N>): set<N> {
    set v | v in s
  }

  lemma InvInit<N>(g: Graph<N>, start: N)
    requires start in g
    ensures Inv(g, start, Moment(map[start := None], map[start := 0], {}, {}, [start], 0))
  {
  }

  // The queue head becomes the node being expanded, and its depth the current one.
  ghost function Popped<N>(m: Moment<N>): Moment<N>
    requires m.frontier != [] && m.frontier[0] in m.dist
  {
    Moment(m.previous, m.dist, m.expanded, {m.frontier[0]}, m.frontier[1..], m.dist[m.frontier[0]])
  }

  // w is met for the first time while c is being expanded.
  ghost function Discovered<N>(m: Moment<N>, c: N, w: N): Moment<N> {
    Moment(m.previous[w := Some(c)], m.dist[w := m.d + 1], m.expanded, m.active, m.frontier + [w], m.d)
  }

  ghost function Finished<N>(m: Moment<N>, c: N): Moment<N> {
    Moment(m.previous, m.dist, m.expanded + {c}, {}, m.frontier, m.d)
  }

  lemma InvPop<N>(g: Graph<N>, start: N, m: Moment<N>)
    requires Inv(g, start, m) && m.active == {} && m.frontier != []
    ensures m.frontier[0] in g && m.frontier[0] in m.dist && m.frontier[0] !in m.expanded
    ensures Inv(g, start, Popped(m))
  {
    hide Tree, Expanded, Cover, Levels;
    PopKeepsCover(m.dist.Keys, m.expanded, m.frontier);
    PopKeepsLevels(m.dist, m.frontier, m.d);
  }

  lemma PopKeepsCover<N>(recorded: set<N>, expanded: set<N>, frontier: seq<N>)
    requires Cover(recorded, expanded, {}, frontier) && frontier != []
    ensures Cover(recorded, expanded, {frontier[0]}, frontier[1..])
    ensures frontier[0] in recorded && frontier[0] !in expanded
  {
    assert frontier == [frontier[0]] + frontier[1..];
    assert Elements(frontier) == {frontier[0]} + Elements(frontier[1..]);
  }

  lemma PopKeepsLevels<N>(dist: map<N, nat>, frontier: seq<N>, d: nat)
    requires Levels(frontier, dist, d) && frontier != []
    ensures frontier[0] in dist && d <= dist[frontier[0]]
    ensures Levels(frontier[1..], dist, dist[frontier[0]])
  {
  }

  lemma Unmet<N>(g: Graph<N>, start: N, m: Moment<N>, w: N)
    requires Inv(g, start, m) && w !in m.previous
    ensures w !in m.dist && m.expanded <= m.dist.Keys
  {
    hide Levels, Expanded, Child;
  }

  lemma InvDiscover<N>(g: Graph<N>, start: N, m: Moment<N>, c: N, w: N)
    requires Inv(g, start, m) && m.active == {c}
    requires Closed(g) && c in g && w in g[c] && w !in m.previous
    ensures Inv(g, start, Discovered(m, c, w))
  {
    hide Tree, Levels, Expanded, Cover;
    assert w in g;
    hide Closed;
    Unmet(g, start, m, w);
    InvKeepsActive(g, start, m, c);
    DiscoverKeepsTree(g, start, m.previous, m.dist, c, w);
    DiscoverKeepsLevels(m.dist, m.frontier, m.d, w);
    DiscoverKeepsCover(m.dist, m.expanded, m.active, m.frontier, w, m.d + 1);
    forall v | v in m.expanded
      ensures Expanded(g, m.dist[w := m.d + 1], v) && m.dist[w := m.d + 1][v] <= m.d
    {
      DiscoverKeepsExpanded(g, m.dist, v, w, m.d + 1);
    }
  }

  lemma InvKeepsActive<N>(g: Graph<N>, start: N, m: Moment<N>, c: N)
    requires Inv(g, start, m) && m.active == {c}
    ensures c in m.dist && m.dist[c] == m.d
  {
    hide Tree, Levels, Expanded;
  }

  lemma DiscoverKeepsLevels<N>(dist: map<N, nat>, frontier: seq<N>, d: nat, w: N)
    requires Levels(frontier, dist, d) && w !in dist
    ensures Levels(frontier + [w], dist[w := d + 1], d)
  {
  }

  lemma DiscoverKeepsCover<N>(dist: map<N, nat>, expanded: set<N>, active: set<N>, frontier: seq<N>, w: N, depth: nat)
    requires Cover(dist.Keys, expanded, active, frontier) && w !in dist
    ensures Cover(dist[w := depth].Keys, expanded, active, frontier + [w])
  {
    assert Elements(frontier + [w]) == Elements(frontier) + {w};
    assert dist[w := depth].Keys == dist.Keys + {w};
  }

  lemma DiscoverKeepsExpanded<N>(g: Graph<N>, dist: map<N, nat>, v: N, w: N, depth: nat)
    requires Expanded(g, dist, v) && w !in dist
    ensures Expanded(g, dist[w := depth], v) && dist[w := depth][v] == dist[v]
  {
  }

  lemma DiscoverKeepsTree<N>(g: Graph<N>, start: N, previous: map<N, Option<N>>, dist: map<N, nat>, c: N, w: N)
    requires Tree(g, start, previous, dist)
    requires c in dist && c in g && w in g[c] && w !in previous
    ensures Tree(g, start, previous[w := Some(c)], dist[w := dist[c] + 1])
  {
    var p1, d1 := previous[w := Some(c)], dist[w := dist[c] + 1];
    forall v | v in p1 && v != start
      ensures Child(g, p1[v], v, d1)
    {
      assert v != w ==> Child(g, previous[v], v, dist);
    }
  }

  lemma InvFinish<N>(g: Graph<N>, start: N, m: Moment<N>, c: N)
    requires Inv(g, start, m) && m.active == {c} && RecordedBut(g, m.dist, c, {})
    ensures Inv(g, start, Finished(m, c))
    ensures g.Keys - (m.expanded + {c}) < g.Keys - m.expanded
  {
    assert Expanded(g, m.dist, c);
    hide Tree, Levels, Expanded;
    assert c in g.Keys - m.expanded && c !in g.Keys - (m.expanded + {c});
  }

  // Everything shallower than d has been expanded, so d bounds what a walk can reach unrecorded.
  lemma ShallowIsExpanded<N>(g: Graph<N>, start: N, m: Moment<N>, v: N)
    requires Inv(g, start, m) && v in m.dist && m.dist[v] < m.d
    ensures v in m.expanded
  {
    assert v in Elements(m.frontier) ==> v in m.frontier;
  }

  // The k-th node of any walk from start is recorded within depth k, as long as k <= d.
  lemma {:induction false} WalkIsRecorded<N(!new)>(g: Graph<N>, start: N, m: Moment<N>, q: seq<N>, k: nat)
    requires IsWalk(g, q) && q[0] == start && k < |q| && k <= m.d
    requires Inv(g, start, m)
    ensures q[k] in m.dist && m.dist[q[k]] <= k
  {
    if k > 0 {
      WalkIsRecorded(g, start, m, q, k - 1);
      ShallowIsExpanded(g, start, m, q[k - 1]);
      assert q[k] == q[k - 1 + 1];
    }
  }

  // An unrecorded target is farther than d edges away.
  lemma TargetIsFar<N(!new)>(g: Graph<N>, start: N, end: N, m: Moment<N>)
    requires Inv(g, start, m) && end !in m.dist
    ensures forall q :: WalkBetween(g, start, end, q) ==> m.d + 2 <= |q|
  {
    forall q | WalkBetween(g, start, end, q)
      ensures m.d + 2 <= |q|
    {
      if |q| - 1 <= m.d {
        WalkIsRecorded(g, start, m, q, |q| - 1);
      }
    }
  }

  // When every recorded node is expanded, a walk cannot leave the recorded nodes.
  lemma {:induction false} WalkStaysRecorded<N(!new)>(g: Graph<N>, start: N, m: Moment<N>, q: seq<N>, k: nat)
    requires Inv(g, start, m) && m.active == {} && m.frontier == []
    requires IsWalk(g, q) && q[0] == start && k < |q|
    ensures q[k] in m.dist
  {
    if k > 0 {
      WalkStaysRecorded(g, start, m, q, k - 1);
      assert Expanded(g, m.dist, q[k - 1]);
      assert q[k] == q[k - 1 + 1];
    }
  }

  lemma TargetIsUnreachable<N(!new)>(g: Graph<N>, start: N, end: N, m: Moment<N>)
    requires Inv(g, start, m) && m.active == {} && m.frontier == [] && end !in m.previous
    ensures !Reachable(g, start, end)
  {
    forall q | WalkBetween(g, start, end, q)
      ensures false
    {
      WalkStaysRecorded(g, start, m, q, |q| - 1);
    }
  }

  // A tree branch read towards start: a walk whose depths increase one by one.
  ghost predicate Branch<N>(g: Graph<N>, dist: map<N, nat>, end: N, p: seq<N>) {
    && IsWalk(g, p) && p[|p| - 1] == end && p[0] in dist
    && forall i :: 0 <= i < |p| ==> p[i] in dist && dist[p[i]] == dist[p[0]] + i
  }

  lemma BranchGrows<N>(g: Graph<N>, start: N, end: N, previous: map<N, Option<N>>, dist: map<N, nat>, p: seq<N>)
    requires Tree(g, start, previous, dist) && Branch(g, dist, end, p) && p[0] != start
    ensures p[0] in previous && previous[p[0]].Some? && previous[p[0]].value in dist
    ensures dist[previous[p[0]].value] + 1 == dist[p[0]]
    ensures Branch(g, dist, end, [previous[p[0]].value] + p)
  {
    assert Child(g, previous[p[0]], p[0], dist);
    var q := [previous[p[0]].value] + p;
    forall i | 0 <= i < |q| - 1
      ensures q[i] in g && q[i + 1] in g[q[i]]
    {
      if i > 0 {
        assert q[i] == p[i - 1] && q[i + 1] == p[i - 1 + 1];
      }
    }
  }

  lemma BranchIsPath<N(!new)>(g: Graph<N>, start: N, end: N, dist: map<N, nat>, p: seq<N>)
    requires Branch(g, dist, end, p) && p[0] == start && start in dist && dist[start] == 0
    ensures WalkBetween(g, start, end, p) && NoRepeat(p)
    ensures |p| == dist[end] + 1
  {
    assert p[|p| - 1] == end;
  }

  // The neighbours of c outside todo are recorded, at most one level below c.
  ghost predicate RecordedBut<N>(g: Graph<N>, dist: map<N, nat>, c: N, todo: set<N>) {
    c in g && c in dist && forall w :: w in g[c] - todo ==> w in dist && dist[w] <= dist[c] + 1
  }

  lemma NothingRecordedYet<N>(g: Graph<N>, start: N, m: Moment<N>, c: N)
    requires Inv(g, start, m) && m.active == {c} && c in g
    ensures RecordedBut(g, m.dist, c, g[c])
  {
  }

  // A neighbour met before is at most one level below the node being expanded.
  lemma AlreadyRecorded<N>(g: Graph<N>, start: N, m: Moment<N>, c: N, w: N, todo: set<N>)
    requires Inv(g, start, m) && m.active == {c} && w in m.previous
    requires RecordedBut(g, m.dist, c, todo + {w})
    ensures RecordedBut(g, m.dist, c, todo)
  {
    hide Expanded;
    assert w in Elements(m.frontier) ==> w in m.frontier;
  }

  lemma NewlyRecorded<N>(g: Graph<N>, start: N, m: Moment<N>, c: N, w: N, todo: set<N>)
    requires Inv(g, start, m) && m.active == {c} && w !in m.previous
    requires RecordedBut(g, m.dist, c, todo + {w})
    ensures RecordedBut(g, Discovered(m, c, w).dist, c, todo)
  {
  }

  lemma InvHasTree<N>(g: Graph<N>, start: N, m: Moment<N>)
    requires Inv(g, start, m)
    ensures Tree(g, start, m.previous, m.dist)
  {
  }

  lemma FoundIsShortest<N(!new)>(g: Graph<N>, start: N, end: N, m: Moment<N>, path: seq<N>)
    requires Inv(g, start, m) && end !in m.previous
    requires WalkBetween(g, start, end, path) && NoRepeat(path) && |path| == m.d + 2
    ensures Reachable(g, start, end) && IsShortestPath(g, start, end, path)
  {
    TargetIsFar(g, start, end, m);
  }

  // Follows predecessors from end back to start and reverses the list.
  method Trace<N(==, !new)>(g: Graph<N>, start: N, end: N, previous: map<N, Option<N>>, ghost dist: map<N, nat>)
    returns (path: seq<N>)
    requires Tree(g, start, previous, dist)
    requires end in previous
    ensures WalkBetween(g, start, end, path)
    ensures NoRepeat(path)
    ensures |path| == dist[end] + 1
  {
    var back := [end];
    while back[|back| - 1] != start
      invariant |back| > 0 && Branch(g, dist, end, Reversed(back))
      decreases dist[back[|back| - 1]]
    {
      ghost var p := Reversed(back);
      BranchGrows(g, start, end, previous, dist, p);
      ReversedSnoc(back, previous[back[|back| - 1]].value);
      back := back + [previous[back[|back| - 1]].value];
    }
    path := Reversed(back);
    BranchIsPath(g, start, end, dist, path);
  }

  // The path of one node
  lemma StandingStill<N(!new)>(g: Graph<N>, start: N)
    ensures Reachable(g, start, start) && IsShortestPath(g, start, start, [start])
  {
    assert WalkBetween(g, start, start, [start]);
  }

  method Search<N(==, !new)>(adjacency: Graph<N>, start: N, end: N) returns (path: seq<N>)
    requires Closed(adjacency)
    requires start != end ==> start in adjacency
    ensures Reachable(adjacency, start, end) ==> IsShortestPath(adjacency, start, end, path)
    ensures !Reachable(adjacency, start, end) ==> path == [start, end]
  {
    hide Inv, Tree, IsShortestPath, WalkBetween, NoRepeat, Reachable, Closed, RecordedBut;
    if start == end {
      path := [start];
      StandingStill(adjacency, start);
      return;
    }
    var frontier := [start];
    var previous: map<N, Option<N>> := map[start := None];
    ghost var m := Moment(previous, map[start := 0], {}, {}, frontier, 0);
    InvInit(adjacency, start);
    while frontier != []
      invariant Inv(adjacency, start, m) && m.active == {}
      invariant m.previous == previous && m.frontier == frontier
      invariant end !in previous
      decreases adjacency.Keys - m.expanded
    {
      var current := frontier[0];
      InvPop(adjacency, start, m);
      frontier := frontier[1..];
      m := Popped(m);
      ghost var expanded := m.expanded;
      var todo := adjacency[current];
      NothingRecordedYet(adjacency, start, m, current);
      while todo != {}
        invariant todo <= adjacency[current]
        invariant Inv(adjacency, start, m) && m.active == {current} && m.expanded == expanded
        invariant m.previous == previous && m.frontier == frontier
        invariant end !in previous
        invariant RecordedBut(adjacency, m.dist, current, todo)
        decreases todo
      {
        ghost var was := todo;
        var neighbor :| neighbor in todo;
        todo := todo - {neighbor};
        assert todo + {neighbor} == was;
        if neighbor in previous {
          AlreadyRecorded(adjacency, start, m, current, neighbor, todo);
          continue;
        }
        InvDiscover(adjacency, start, m, current, neighbor);
        previous := previous[neighbor := Some(current)];
        if neighbor == end {
          InvHasTree(adjacency, start, Discovered(m, current, neighbor));
          path := Trace(adjacency, start, end, previous, Discovered(m, current, neighbor).dist);
          FoundIsShortest(adjacency, start, end, m, path);
          return;
        }
        NewlyRecorded(adjacency, start, m, current, neighbor, todo);
        frontier := frontier + [neighbor];
        m := Discovered(m, current, neighbor);
      }
      InvFinish(adjacency, start, m, current);
      m := Finished(m, current);
    }
    TargetIsUnreachable(adjacency, start, end, m);
    path := [start, end];
  }
}
