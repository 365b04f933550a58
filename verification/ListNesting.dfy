/**
  How deep the items of a rendered list of docs/build_docs.py are nested: each as deep as in the outline.
 */
module ListNesting {
  import opened ListOutline
  import opened ListRendering
  import opened MarkdownList

  // The number of items above and including k
  function Depth(indents: seq<nat>, k: int): nat
    requires ROOT <= k < |indents|
    decreases k + 1
  {
    if k == ROOT then 0 else 1 + Depth(indents, Parent(indents, k))
  }

  // The change in the number of open lists
  function Step(part: Part): int {
    match part
    case Content(_) => 0
    case Open(t) => if t == Ul then 1 else 0
    case Close(t) => if t == Ul then -1 else 0
  }

  function Rise(parts: seq<Part>): int {
    if parts == [] then 0 else Step(parts[0]) + Rise(parts[1..])
  }

  // The number of lists that are open at each text, in order, when there are d at the beginning
  function Levels(parts: seq<Part>, d: int): seq<int> {
    if parts == [] then []
    else (if parts[0].Content? then [d] else []) + Levels(parts[1..], d + Step(parts[0]))
  }

  lemma {:induction false} LevelsConcat(a: seq<Part>, b: seq<Part>, d: int)
    ensures Rise(a + b) == Rise(a) + Rise(b)
    ensures Levels(a + b, d) == Levels(a, d) + Levels(b, d + Rise(a))
  {
    hide Step;
    if a == [] {
      assert a + b == b;
    } else {
      assert (a + b)[1..] == a[1..] + b;
      LevelsConcat(a[1..], b, d + Step(a[0]));
    }
  }

  lemma LevelsOfOne(part: Part, d: int)
    ensures Rise([part]) == Step(part) && Levels([part], d) == if part.Content? then [d] else []
  {
    assert [part][1..] == [];
  }

  // Between two tags of a kind
  lemma LevelsInside(tag: Tag, body: seq<Part>, d: int)
    requires Rise(body) == 0
    ensures Rise([Open(tag)] + body + [Close(tag)]) == 0
    ensures Levels([Open(tag)] + body + [Close(tag)], d) == Levels(body, if tag == Ul then d + 1 else d)
  {
    hide Levels, Rise;
    var inner := if tag == Ul then d + 1 else d;
    LevelsConcat([Open(tag)] + body, [Close(tag)], d);
    LevelsConcat([Open(tag)], body, d);
    LevelsOfOne(Open(tag), d);
    LevelsOfOne(Close(tag), inner);
    assert [] + Levels(body, inner) + [] == Levels(body, inner);
  }

  function DepthsAt(indents: seq<nat>, order: seq<nat>): seq<int>
    requires InItems(indents, order)
  {
    seq(|order|, i requires 0 <= i < |order| => Depth(indents, order[i]))
  }

  predicate InItems(indents: seq<nat>, order: seq<nat>) {
    forall i :: 0 <= i < |order| ==> order[i] < |indents|
  }

  lemma DepthsConcat(indents: seq<nat>, a: seq<nat>, b: seq<nat>)
    requires InItems(indents, a) && InItems(indents, b)
    ensures InItems(indents, a + b) && DepthsAt(indents, a + b) == DepthsAt(indents, a) + DepthsAt(indents, b)
  {
    hide Depth;
  }

  lemma JoinDepths(indents: seq<nat>, k: nat, a: seq<nat>, b: seq<nat>)
    requires k < |indents| && InItems(indents, a) && InItems(indents, b)
    ensures InItems(indents, [k] + a + b)
    ensures DepthsAt(indents, [k] + a + b) == [Depth(indents, k)] + DepthsAt(indents, a) + DepthsAt(indents, b)
  {
    hide Depth;
    DepthsConcat(indents, [k], a);
    DepthsConcat(indents, [k] + a, b);
    assert DepthsAt(indents, [k]) == [Depth(indents, k)];
  }

  lemma LevelsOfList(items: seq<Item>, p: int, d: int)
    requires ROOT <= p < |items| && Rise(RenderFrom(items, p, p + 1)) == 0
    ensures Rise(Rendered(items, p)) == 0
    ensures Levels(Rendered(items, p), d) == Levels(RenderFrom(items, p, p + 1), d + 1)
  {
    NoLevels(d + 1);
    NoLevels(d);
    hide RenderFrom, Levels, Rise;
    LevelsInside(Ul, RenderFrom(items, p, p + 1), d);
  }

  lemma NoLevels(d: int)
    ensures Rise([]) == 0 && Levels([], d) == []
  {
  }

  lemma LevelsOfItem(items: seq<Item>, k: nat, d: int)
    requires k < |items| && Rise(RenderFrom(items, k, k + 1)) == 0
    ensures Rise(RenderItem(items, k)) == 0
    ensures Levels(RenderItem(items, k), d) == [d] + Levels(RenderFrom(items, k, k + 1), d + 1)
  {
    hide RenderFrom, Rendered, Levels, Rise;
    var text, below := items[k].text, Rendered(items, k);
    LevelsOfList(items, k, d);
    LevelsOfOne(Content(text), d);
    LevelsConcat([Content(text)], below, d);
    LevelsInside(Li, [Content(text)] + below, d);
    assert [Open(Li)] + ([Content(text)] + below) + [Close(Li)] == RenderItem(items, k);
  }

  lemma {:induction false} LevelsFollowPreorder(items: seq<Item>, p: int, lo: nat)
    requires ROOT <= p < lo <= |items|
    ensures forall i :: 0 <= i < |Preorder(Indents(items), p, lo)| ==> Preorder(Indents(items), p, lo)[i] < |items|
    ensures Rise(RenderFrom(items, p, lo)) == 0
    ensures Levels(RenderFrom(items, p, lo), Depth(Indents(items), p) + 1) == DepthsAt(Indents(items), Preorder(Indents(items), p, lo))
    decreases |items| - p, |items| - lo
  {
    hide Parent, RenderItem, Rendered, Levels, Rise;
    var indents := Indents(items);
    var d := Depth(indents, p) + 1;
    PreorderStays(indents, p, lo);
    if lo == |items| {
      NoLevels(d);
    } else {
      PreorderStays(indents, p, lo + 1);
      PreorderStays(indents, lo, lo + 1);
      LevelsFollowPreorder(items, p, lo + 1);
      if Parent(indents, lo) == p {
        LevelsFollowPreorder(items, lo, lo + 1);
        LevelsOfItem(items, lo, d);
        LevelsConcat(RenderItem(items, lo), RenderFrom(items, p, lo + 1), d);
        JoinDepths(indents, lo, Preorder(indents, lo, lo + 1), Preorder(indents, p, lo + 1));
      } else {
        assert [] + RenderFrom(items, p, lo + 1) == RenderFrom(items, p, lo + 1);
        assert [] + Preorder(indents, p, lo + 1) == Preorder(indents, p, lo + 1);
      }
    }
  }

  // Every item's text stands in as many lists as the item has items above it, and one more.
  lemma NestingIsDepth(items: seq<Item>)
    ensures |Levels(Rendered(items, ROOT), 0)| == |items|
    ensures forall k :: 0 <= k < |items| ==> Levels(Rendered(items, ROOT), 0)[k] == Depth(Indents(items), k)
  {
    hide RenderFrom, Rendered, Levels, Rise, Preorder, Depth;
    RootHasDepthNone(items);
    LevelsFollowPreorder(items, ROOT, 0);
    LevelsOfList(items, ROOT, 0);
    ForestIsInInputOrder(Indents(items));
  }

  lemma RootHasDepthNone(items: seq<Item>)
    ensures Depth(Indents(items), ROOT) == 0
  {
  }
}
