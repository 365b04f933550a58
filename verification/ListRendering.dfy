/**
  The HTML of a nested bullet list in docs/build_docs.py, as the tags and texts that render_nodes puts out.
 */
module ListRendering {
  import opened ListOutline
  import opened MarkdownList
  import opened Options

  datatype Tag = Ul | Li
  datatype Part = Open(tag: Tag) | Close(tag: Tag) | Content(text: string)

  // The items of p from lo on
  function RenderFrom(items: seq<Item>, p: int, lo: nat): seq<Part>
    requires ROOT <= p < lo <= |items|
    decreases |items| - p, 0, |items| - lo
  {
    if lo == |items| then []
    else (if Parent(Indents(items), lo) == p then RenderItem(items, lo) else []) + RenderFrom(items, p, lo + 1)
  }

  function RenderItem(items: seq<Item>, k: nat): seq<Part>
    requires k < |items|
    decreases |items| - k, 2
  {
    [Open(Li), Content(items[k].text)] + Rendered(items, k) + [Close(Li)]
  }

  // The list of the items that belong to p, nothing when there is none
  function Rendered(items: seq<Item>, p: int): seq<Part>
    requires ROOT <= p < |items|
    decreases |items| - p, 1
  {
    var body := RenderFrom(items, p, p + 1);
    if body == [] then [] else [Open(Ul)] + body + [Close(Ul)]
  }

  // Balance: every tag is closed by its own closing tag, innermost first.

  // The tags left open, innermost last, after the parts; None when a closing tag does not fit.
  function Scan(parts: seq<Part>, open: seq<Tag>): Option<seq<Tag>> {
    if parts == [] then Some(open)
    else
      match parts[0]
      case Open(t) => Scan(parts[1..], open + [t])
      case Content(_) => Scan(parts[1..], open)
      case Close(t) =>
        if open != [] && open[|open| - 1] == t then Scan(parts[1..], open[..|open| - 1]) else None
  }

  lemma {:induction false} ScanConcat(a: seq<Part>, b: seq<Part>, open: seq<Tag>)
    ensures Scan(a + b, open) == if Scan(a, open).Some? then Scan(b, Scan(a, open).value) else None
  {
    if a == [] {
      assert a + b == b;
    } else {
      assert (a + b)[1..] == a[1..] + b;
      match a[0]
      case Open(t) => ScanConcat(a[1..], b, open + [t]);
      case Content(_) => ScanConcat(a[1..], b, open);
      case Close(t) =>
        if open != [] && open[|open| - 1] == t {
          ScanConcat(a[1..], b, open[..|open| - 1]);
        }
    }
  }

  lemma Enclosed(tag: Tag, body: seq<Part>, open: seq<Tag>)
    requires Scan(body, open + [tag]) == Some(open + [tag])
    ensures Scan([Open(tag)] + body + [Close(tag)], open) == Some(open)
  {
    hide Scan;
    ScanConcat([Open(tag)] + body, [Close(tag)], open);
    ScanConcat([Open(tag)], body, open);
    ScanOpen(tag, open);
    ScanClose(tag, open);
  }

  lemma ScanOpen(tag: Tag, open: seq<Tag>)
    ensures Scan([Open(tag)], open) == Some(open + [tag])
  {
  }

  lemma ScanClose(tag: Tag, open: seq<Tag>)
    ensures Scan([Close(tag)], open + [tag]) == Some(open)
  {
    assert (open + [tag])[..|open|] == open;
  }

  lemma ScanContent(text: string, open: seq<Tag>)
    ensures Scan([Content(text)], open) == Some(open)
  {
  }

  lemma {:induction false} FromIsBalanced(items: seq<Item>, p: int, lo: nat, open: seq<Tag>)
    requires ROOT <= p < lo <= |items|
    ensures Scan(RenderFrom(items, p, lo), open) == Some(open)
    decreases |items| - p, 0, |items| - lo
  {
    hide Scan, Parent;
    if lo == |items| {
      ScanNothing(open);
    } else {
      FromIsBalanced(items, p, lo + 1, open);
      if Parent(Indents(items), lo) == p {
        ItemIsBalanced(items, lo, open);
        ScanConcat(RenderItem(items, lo), RenderFrom(items, p, lo + 1), open);
      } else {
        assert [] + RenderFrom(items, p, lo + 1) == RenderFrom(items, p, lo + 1);
      }
    }
  }

  lemma ScanNothing(open: seq<Tag>)
    ensures Scan([], open) == Some(open)
  {
  }

  lemma {:induction false} ItemIsBalanced(items: seq<Item>, k: nat, open: seq<Tag>)
    requires k < |items|
    ensures Scan(RenderItem(items, k), open) == Some(open)
    decreases |items| - k, 2
  {
    hide Scan, Rendered;
    var text, below := [Content(items[k].text)], Rendered(items, k);
    RenderedIsBalanced(items, k, open + [Li]);
    ScanContent(items[k].text, open + [Li]);
    ScanConcat(text, below, open + [Li]);
    Enclosed(Li, text + below, open);
    assert [Open(Li)] + (text + below) + [Close(Li)] == RenderItem(items, k);
  }

  lemma {:induction false} RenderedIsBalanced(items: seq<Item>, p: int, open: seq<Tag>)
    requires ROOT <= p < |items|
    ensures Scan(Rendered(items, p), open) == Some(open)
    decreases |items| - p, 1
  {
    hide Scan, RenderFrom;
    var body := RenderFrom(items, p, p + 1);
    ScanNothing(open);
    FromIsBalanced(items, p, p + 1, open + [Ul]);
    Enclosed(Ul, body, open);
  }

  // Order: the texts come out in the order of input.

  function Texts(parts: seq<Part>): seq<string> {
    if parts == [] then []
    else (if parts[0].Content? then [parts[0].text] else []) + Texts(parts[1..])
  }

  lemma {:induction false} TextsConcat(a: seq<Part>, b: seq<Part>)
    ensures Texts(a + b) == Texts(a) + Texts(b)
  {
    if a == [] {
      assert a + b == b;
    } else {
      assert (a + b)[1..] == a[1..] + b;
      TextsConcat(a[1..], b);
    }
  }

  function TextsAt(items: seq<Item>, order: seq<nat>): seq<string>
    requires forall i :: 0 <= i < |order| ==> order[i] < |items|
  {
    seq(|order|, i requires 0 <= i < |order| => items[order[i]].text)
  }

  lemma {:induction false} PreorderStays(indents: seq<nat>, p: int, lo: nat)
    requires ROOT <= p < lo <= |indents|
    ensures forall i :: 0 <= i < |Preorder(indents, p, lo)| ==> Preorder(indents, p, lo)[i] < |indents|
    decreases |indents| - p, |indents| - lo
  {
    hide Parent;
    if lo < |indents| {
      PreorderStays(indents, lo, lo + 1);
      PreorderStays(indents, p, lo + 1);
    }
  }

  lemma {:induction false} TextsFollowPreorder(items: seq<Item>, p: int, lo: nat)
    requires ROOT <= p < lo <= |items|
    ensures forall i :: 0 <= i < |Preorder(Indents(items), p, lo)| ==> Preorder(Indents(items), p, lo)[i] < |items|
    ensures Texts(RenderFrom(items, p, lo)) == TextsAt(items, Preorder(Indents(items), p, lo))
    decreases |items| - p, |items| - lo
  {
    hide Parent;
    var indents := Indents(items);
    PreorderStays(indents, p, lo);
    if lo < |items| {
      PreorderStays(indents, p, lo + 1);
      PreorderStays(indents, lo, lo + 1);
      TextsFollowPreorder(items, p, lo + 1);
      if Parent(indents, lo) == p {
        TextsFollowPreorder(items, lo, lo + 1);
        TextsOfItem(items, lo);
        TextsConcat(RenderItem(items, lo), RenderFrom(items, p, lo + 1));
        JoinTexts(items, lo, Preorder(indents, lo, lo + 1), Preorder(indents, p, lo + 1));
      } else {
        assert [] + RenderFrom(items, p, lo + 1) == RenderFrom(items, p, lo + 1);
        assert [] + Preorder(indents, p, lo + 1) == Preorder(indents, p, lo + 1);
      }
    }
  }

  lemma JoinTexts(items: seq<Item>, k: nat, a: seq<nat>, b: seq<nat>)
    requires k < |items| && (forall i :: 0 <= i < |a| ==> a[i] < |items|) && (forall i :: 0 <= i < |b| ==> b[i] < |items|)
    ensures forall i :: 0 <= i < |[k] + a + b| ==> ([k] + a + b)[i] < |items|
    ensures TextsAt(items, [k] + a + b) == [items[k].text] + TextsAt(items, a) + TextsAt(items, b)
  {
  }

  lemma TextsInside(tag: Tag, body: seq<Part>)
    ensures Texts([Open(tag)] + body + [Close(tag)]) == Texts(body)
  {
    TextsConcat([Open(tag)] + body, [Close(tag)]);
    TextsConcat([Open(tag)], body);
    assert Texts([Open(tag)]) == [] && Texts([Close(tag)]) == [];
    hide Texts;
  }

  lemma TextsRendered(items: seq<Item>, p: int)
    requires ROOT <= p < |items|
    ensures Texts(Rendered(items, p)) == Texts(RenderFrom(items, p, p + 1))
  {
    hide RenderFrom, Texts;
    TextsInside(Ul, RenderFrom(items, p, p + 1));
  }

  lemma TextsOfItem(items: seq<Item>, k: nat)
    requires k < |items|
    ensures Texts(RenderItem(items, k)) == [items[k].text] + Texts(RenderFrom(items, k, k + 1))
  {
    assert Texts([Content(items[k].text)]) == [items[k].text];
    hide RenderFrom, Rendered, Texts;
    var below := Rendered(items, k);
    TextsRendered(items, k);
    TextsConcat([Content(items[k].text)], below);
    TextsInside(Li, [Content(items[k].text)] + below);
    assert [Open(Li)] + ([Content(items[k].text)] + below) + [Close(Li)] == RenderItem(items, k);
  }

  // What is put out for a list is balanced and has the text of every item, in the order of input.
  lemma ListIsFaithful(items: seq<Item>)
    ensures Scan(Rendered(items, ROOT), []) == Some([])
    ensures Texts(Rendered(items, ROOT)) == seq(|items|, k requires 0 <= k < |items| => items[k].text)
  {
    hide RenderFrom, Rendered, Scan, Preorder, Texts;
    RenderedIsBalanced(items, ROOT, []);
    TextsRendered(items, ROOT);
    TextsFollowPreorder(items, ROOT, 0);
    ForestIsInInputOrder(Indents(items));
  }

  // The rendering loop

  // The next item of p, or none
  lemma {:induction false} NextKid(items: seq<Item>, p: int, lo: nat)
    requires ROOT <= p < lo <= |items|
    ensures var kids := Kids(Indents(items), p, lo, |items|);
      if kids == [] then RenderFrom(items, p, lo) == []
      else
        var c := kids[0];
        && p < c < |items|
        && kids == [c] + Kids(Indents(items), p, c + 1, |items|)
        && RenderFrom(items, p, lo) == RenderItem(items, c) + RenderFrom(items, p, c + 1)
    decreases |items| - lo
  {
    hide Parent, RenderItem;
    if lo < |items| {
      KidsFromFront(Indents(items), p, lo, |items|);
      if Parent(Indents(items), lo) != p {
        NextKid(items, p, lo + 1);
        assert [] + RenderFrom(items, p, lo + 1) == RenderFrom(items, p, lo + 1);
      }
    }
  }

  lemma {:induction false} KidsFromFront(indents: seq<nat>, p: int, lo: nat, hi: nat)
    requires lo < hi <= |indents|
    ensures Kids(indents, p, lo, hi) == (if Parent(indents, lo) == p then [lo] else []) + Kids(indents, p, lo + 1, hi)
    decreases hi
  {
    hide Parent;
    if lo + 1 < hi {
      KidsFromFront(indents, p, lo, hi - 1);
    }
  }

  lemma {:induction false} KidsAreLater(indents: seq<nat>, p: int, lo: nat, hi: nat)
    requires lo <= p + 1 && p < hi <= |indents|
    ensures Kids(indents, p, lo, hi) == Kids(indents, p, p + 1, hi)
    decreases p + 1 - lo
  {
    hide Kids;
    if lo <= p {
      KidsFromFront(indents, p, lo, hi);
      KidsAreLater(indents, p, lo + 1, hi);
      assert [] + Kids(indents, p, lo + 1, hi) == Kids(indents, p, lo + 1, hi);
    }
  }

  // The nodes of the list from i on are those of the items of p from lo on.
  ghost predicate Remaining(list: seq<ListNode>, i: nat, all: seq<ListNode>, items: seq<Item>, p: int, lo: nat) {
    i <= |list| && lo <= |items| && Lists(list[i..], all, Kids(Indents(items), p, lo, |items|))
  }

  lemma RemainingAtStart(root: ListNode, all: seq<ListNode>, items: seq<Item>, p: int)
    requires Built(root, all, items) && ROOT <= p < |items|
    ensures Remaining(NodeAt(root, all, p).children, 0, all, items, p, p + 1)
  {
    hide Kids, Lists, Parent;
    KidsAreLater(Indents(items), p, 0, |items|);
    var list := NodeAt(root, all, p).children;
    assert list[0..] == list;
  }

  lemma RemainingNext(list: seq<ListNode>, i: nat, all: seq<ListNode>, items: seq<Item>, p: int, lo: nat) returns (c: nat)
    requires Remaining(list, i, all, items, p, lo) && i < |list| && |all| == |items| && ROOT <= p < lo
    ensures p < c < |items| && list[i] == all[c]
    ensures RenderFrom(items, p, lo) == RenderItem(items, c) + RenderFrom(items, p, c + 1)
    ensures Remaining(list, i + 1, all, items, p, c + 1)
  {
    hide Kids, Parent, RenderFrom, RenderItem;
    var kids := Kids(Indents(items), p, lo, |items|);
    NextKid(items, p, lo);
    assert list[i..][0] == list[i];
    c := kids[0];
    var rest := Kids(Indents(items), p, c + 1, |items|);
    assert forall j :: 0 <= j < |rest| ==> rest[j] == kids[j + 1] && list[i + 1..][j] == list[i..][j + 1];
  }

  lemma RemainingNone(list: seq<ListNode>, all: seq<ListNode>, items: seq<Item>, p: int, lo: nat)
    requires Remaining(list, |list|, all, items, p, lo) && ROOT <= p < lo
    ensures RenderFrom(items, p, lo) == []
  {
    hide Kids, Parent, RenderFrom;
    NextKid(items, p, lo);
  }

  lemma BodyHasItem(list: seq<ListNode>, all: seq<ListNode>, items: seq<Item>, p: int)
    requires list != [] && ROOT <= p < |items| == |all| && Remaining(list, 0, all, items, p, p + 1)
    ensures RenderFrom(items, p, p + 1) != []
  {
    var c := RemainingNext(list, 0, all, items, p, p + 1);
    hide RenderFrom, Rendered, Remaining;
    assert |RenderItem(items, c)| > 0;
  }

  lemma BuiltText(root: ListNode, all: seq<ListNode>, items: seq<Item>, c: nat)
    requires Built(root, all, items) && c < |items|
    ensures |all| == |items| && all[c].text == items[c].text && NodeAt(root, all, c) == all[c]
  {
  }

  lemma LoopStep(done: seq<Part>, item: seq<Part>, rest: seq<Part>, body: seq<Part>)
    requires done + (item + rest) == [Open(Ul)] + body
    ensures (done + item) + rest == [Open(Ul)] + body
  {
    assert (done + item) + rest == done + (item + rest);
  }

  // A leaf is put out as one line, with no list in it.
  method RenderNode(ghost root: ListNode, ghost all: seq<ListNode>, ghost items: seq<Item>, ghost c: nat, item: ListNode)
    returns (parts: seq<Part>)
    requires Built(root, all, items) && c < |items| == |all| && item == all[c]
    ensures parts == RenderItem(items, c)
    decreases |items| - c, 2
  {
    hide Built, Rendered;
    BuiltText(root, all, items, c);
    var children := RenderNodes(root, all, items, c, item.children);
    if item.children != [] {
      parts := [Open(Li), Content(item.text)] + children + [Close(Li)];
    } else {
      assert children == [] && [Open(Li), Content(item.text)] + [] == [Open(Li), Content(item.text)];
      parts := [Open(Li), Content(item.text)] + [Close(Li)];
    }
  }

  // render_nodes
  method RenderNodes(ghost root: ListNode, ghost all: seq<ListNode>, ghost items: seq<Item>, ghost p: int,
                     list: seq<ListNode>) returns (parts: seq<Part>)
    requires Built(root, all, items) && ROOT <= p < |items| == |all| && list == NodeAt(root, all, p).children
    ensures parts == Rendered(items, p) && (list == [] ==> parts == [])
    decreases |items| - p, 1
  {
    hide RenderFrom, RenderItem, Remaining, Built, Lists, Kids, Parent;
    RemainingAtStart(root, all, items, p);
    if list == [] {
      RemainingNone(list, all, items, p, p + 1);
      return [];
    }
    BodyHasItem(list, all, items, p);
    ghost var body, lo: nat := RenderFrom(items, p, p + 1), p + 1;
    parts := [Open(Ul)];
    var i := 0;
    while i < |list|
      invariant 0 <= i <= |list| && p < lo <= |items|
      invariant Remaining(list, i, all, items, p, lo)
      invariant parts + RenderFrom(items, p, lo) == [Open(Ul)] + body
    {
      ghost var c := RemainingNext(list, i, all, items, p, lo);
      var item := RenderNode(root, all, items, c, list[i]);
      LoopStep(parts, item, RenderFrom(items, p, c + 1), body);
      parts := parts + item;
      lo := c + 1;
      i := i + 1;
    }
    RemainingNone(list, all, items, p, lo);
    assert parts + [] == parts;
    parts := parts + [Close(Ul)];
  }

  // render_list_block
  method RenderListBlock(lines: seq<string>) returns (parts: seq<Part>)
    ensures parts == Rendered(Gather(lines), ROOT)
  {
    var root, all := BuildList(lines);
    SameLength(root, all, Gather(lines));
    hide Built, Gather, Rendered;
    parts := RenderNodes(root, all, Gather(lines), ROOT, root.children);
  }
}
