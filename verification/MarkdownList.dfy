/**
  The nested bullet lists of docs/build_docs.py: render_list_block builds a tree of nodes, in place, with a
  stack of open items, and then renders it.
 */
module MarkdownList {
  import opened ListOutline
  import opened Options
  import opened Text

  // Reading the lines

  datatype Item = Item(indent: nat, text: string)

  // The number of white-space characters that s begins with
  function Lead(s: string): (n: nat)
    ensures n <= |s|
  {
    if s != "" && IsSpace(s[0]) then 1 + Lead(s[1..]) else 0
  }

  // A tab counts as two columns.
  function Width(s: string): nat {
    if s == "" then 0 else (if s[0] == '\t' then 2 else 1) + Width(s[1..])
  }

  // The item that a line begins: white space, a dash, white space, and something more
  function ItemOf(line: string): Option<Item> {
    var k := Lead(line);
    var rest := line[k..];
    if |rest| >= 3 && rest[0] == '-' && IsSpace(rest[1]) then Some(Item(Width(line[..k]), Strip(rest[1..]))) else None
  }

  // The items of the lines; a line that begins no item continues the last one.
  function Gather(lines: seq<string>): seq<Item> {
    if lines == [] then [] else Next(Gather(lines[..|lines| - 1]), lines[|lines| - 1])
  }

  function Indents(items: seq<Item>): (r: seq<nat>)
    ensures |r| == |items| && forall k :: 0 <= k < |items| ==> r[k] == items[k].indent
  {
    seq(|items|, k requires 0 <= k < |items| => items[k].indent)
  }

  // All the text of the items, and what the lines contribute to it

  function TextOf(items: seq<Item>): string {
    if items == [] then "" else TextOf(items[..|items| - 1]) + " " + items[|items| - 1].text
  }

  function Contribution(line: string): string {
    match ItemOf(line)
    case Some(item) => " " + item.text
    case None => if Strip(line) == "" then "" else " " + Strip(line)
  }

  // What the lines contribute from the first item on
  function Contributions(lines: seq<string>): string {
    if lines == [] then ""
    else
      var line := lines[|lines| - 1];
      Contributions(lines[..|lines| - 1])
      + (if ItemOf(line).None? && Gather(lines[..|lines| - 1]) == [] then "" else Contribution(line))
  }

  // The items carry the text of every line but those before the first item.
  lemma {:induction false} TextIsKept(lines: seq<string>)
    ensures TextOf(Gather(lines)) == Contributions(lines)
  {
    hide ItemOf, Strip;
    if lines != [] {
      var line, items := lines[|lines| - 1], Gather(lines[..|lines| - 1]);
      TextIsKept(lines[..|lines| - 1]);
      TextOfNext(items, line);
    }
  }

  // The items after one more line
  function Next(items: seq<Item>, line: string): seq<Item> {
    var n := |items|;
    match ItemOf(line)
    case Some(item) => items + [item]
    case None =>
      if Strip(line) != "" && n > 0 then items[n - 1 := Item(items[n - 1].indent, items[n - 1].text + " " + Strip(line))]
      else items
  }

  lemma TextOfNext(items: seq<Item>, line: string)
    ensures TextOf(Next(items, line))
         == TextOf(items) + (if ItemOf(line).None? && items == [] then "" else Contribution(line))
  {
    hide ItemOf, Strip, TextOf;
    assert TextOf(items) + "" == TextOf(items);
    if ItemOf(line).Some? {
      TextOfOneMore(items, ItemOf(line).value);
    } else if Strip(line) != "" && items != [] {
      TextOfLonger(items, " " + Strip(line));
      var last := items[|items| - 1];
      assert last.text + (" " + Strip(line)) == last.text + " " + Strip(line);
    }
  }

  // What all the lines contribute
  function AllText(lines: seq<string>): string {
    if lines == [] then "" else AllText(lines[..|lines| - 1]) + Contribution(lines[|lines| - 1])
  }

  lemma {:induction false} GatherStarts(lines: seq<string>)
    requires lines != [] && ItemOf(lines[0]).Some?
    ensures Gather(lines) != []
  {
    hide ItemOf, Strip;
    if |lines| > 1 {
      GatherStarts(lines[..|lines| - 1]);
    }
  }

  lemma {:induction false} ContributionsAreFewer(lines: seq<string>)
    ensures |Contributions(lines)| <= |AllText(lines)|
    ensures lines != [] && ItemOf(lines[0]).Some? ==> Contributions(lines) == AllText(lines)
    ensures lines != [] && ItemOf(lines[0]).None? && Strip(lines[0]) != "" ==> |Contributions(lines)| < |AllText(lines)|
  {
    hide ItemOf, Strip, Gather;
    if lines != [] {
      var prefix := lines[..|lines| - 1];
      ContributionsAreFewer(prefix);
      if prefix == [] {
        GatherNothing(lines);
      } else if ItemOf(lines[0]).Some? {
        GatherStarts(prefix);
      }
    }
  }

  // The items carry the text of every line just when the first line begins an item.
  lemma TextIsKeptIff(lines: seq<string>)
    requires lines != [] && Strip(lines[0]) != ""
    ensures TextOf(Gather(lines)) == AllText(lines) <==> ItemOf(lines[0]).Some?
  {
    hide ItemOf, Strip, Gather, Contributions, AllText;
    TextIsKept(lines);
    ContributionsAreFewer(lines);
  }

  lemma TextOfOneMore(items: seq<Item>, item: Item)
    ensures TextOf(items + [item]) == TextOf(items) + (" " + item.text)
  {
    assert (items + [item])[..|items|] == items;
  }

  lemma TextOfLonger(items: seq<Item>, more: string)
    requires items != []
    ensures var n := |items| - 1;
      TextOf(items[n := Item(items[n].indent, items[n].text + more)]) == TextOf(items) + more
  {
    var n := |items| - 1;
    assert items[n := Item(items[n].indent, items[n].text + more)][..n] == items[..n];
  }

  // Building the tree

  class ListNode {
    var text: string
    var children: seq<ListNode>

    constructor (text: string)
      ensures this.text == text && children == []
    {
      this.text, children := text, [];
    }
  }

  function NodeAt(root: ListNode, all: seq<ListNode>, p: int): ListNode
    requires ROOT <= p < |all|
  {
    if p == ROOT then root else all[p]
  }

  // nodes are the members of all at the indices idx
  ghost predicate Lists(nodes: seq<ListNode>, all: seq<ListNode>, idx: seq<nat>) {
    |nodes| == |idx| && forall i :: 0 <= i < |idx| ==> idx[i] < |all| && nodes[i] == all[idx[i]]
  }

  ghost predicate Apart(root: ListNode, all: seq<ListNode>) {
    root !in all && forall i, j :: 0 <= i < j < |all| ==> all[i] != all[j]
  }

  // all holds one node for each item; every node lists those of the items that belong to it, in order.
  ghost predicate Built(root: ListNode, all: seq<ListNode>, items: seq<Item>)
    reads root, all
  {
    && Apart(root, all)
    && |all| == |items|
    && (forall k :: 0 <= k < |all| ==> all[k].text == items[k].text)
    && (forall p :: ROOT <= p < |all| ==> Lists(NodeAt(root, all, p).children, all, Kids(Indents(items), p, 0, |items|)))
  }

  lemma KidsOfMoreItems(items: seq<Item>, item: Item, p: int)
    requires p <= |items|
    ensures var all, n := Indents(items + [item]), |items|;
      && all == Indents(items) + [item.indent]
      && Kids(all, p, 0, n + 1) == (if p == n then [] else Kids(Indents(items), p, 0, n))
                                   + (if Parent(all, n) == p then [n] else [])
  {
    hide Kids, Parent;
    assert Indents(items + [item]) == Indents(items) + [item.indent];
    KidsOfOneMore(Indents(items), item.indent, p);
    if p == |items| {
      NoKidsYet(Indents(items), p, |items|);
    }
  }

  lemma ListsMore(nodes: seq<ListNode>, all: seq<ListNode>, idx: seq<nat>, node: ListNode, joins: bool)
    requires Lists(nodes, all, idx)
    ensures Lists(nodes + (if joins then [node] else []), all + [node], idx + (if joins then [|all|] else []))
  {
  }

  // A new node at the end of the parent's children
  method AddItem(root: ListNode, ghost all: seq<ListNode>, ghost items: seq<Item>, item: Item, parent: ListNode)
    returns (node: ListNode)
    requires Built(root, all, items)
    requires parent == NodeAt(root, all, Parent(Indents(items + [item]), |items|))
    modifies parent`children
    ensures fresh(node) && Built(root, all + [node], items + [item])
  {
    hide Kids, Parent, Lists;
    node := new ListNode(item.text);
    ghost var was := parent.children;
    parent.children := parent.children + [node];
    ghost var next, n := all + [node], |items|;
    forall p | ROOT <= p < |next|
      ensures Lists(NodeAt(root, next, p).children, next, Kids(Indents(items + [item]), p, 0, n + 1))
    {
      KidsOfMoreItems(items, item, p);
      if p == n {
        ListsNothing(next);
      } else {
        var joins := Parent(Indents(items + [item]), n) == p;
        OtherParent(root, all, p, Parent(Indents(items + [item]), n));
        ListsMore(old(NodeAt(root, all, p).children), all, Kids(Indents(items), p, 0, n), node, joins);
        assert NodeAt(root, next, p) == NodeAt(root, all, p);
        assert NodeAt(root, all, p).children == old(NodeAt(root, all, p).children) + if joins then [node] else [];
      }
    }
  }

  lemma ListsNothing(all: seq<ListNode>)
    ensures Lists([], all, [])
  {
  }

  lemma OtherParent(root: ListNode, all: seq<ListNode>, p: int, q: int)
    requires Apart(root, all) && ROOT <= p < |all| && ROOT <= q < |all|
    ensures NodeAt(root, all, p) == NodeAt(root, all, q) <==> p == q
  {
  }

  // A longer text for the last item
  method ContinueItem(root: ListNode, ghost all: seq<ListNode>, ghost items: seq<Item>, last: ListNode, more: string)
    requires Built(root, all, items) && all != [] && last == all[|all| - 1]
    modifies last`text
    ensures Built(root, all, items[|items| - 1 := Item(items[|items| - 1].indent, items[|items| - 1].text + " " + more)])
  {
    hide Kids, Lists;
    last.text := last.text + " " + more;
    ghost var n := |items| - 1;
    ghost var next := items[n := Item(items[n].indent, items[n].text + " " + more)];
    assert Indents(next) == Indents(items);
  }

  datatype Frame = Frame(indent: int, node: ListNode)

  // The stack holds the nodes of the chain of open items.
  ghost predicate Fits(stack: seq<Frame>, root: ListNode, all: seq<ListNode>, items: seq<Item>, chain: seq<int>) {
    && |all| == |items| && |stack| == |chain|
    && Chain(Indents(items), chain)
    && forall t :: 0 <= t < |stack| ==> stack[t] == FrameOf(root, all, items, chain[t])
  }

  ghost function FrameOf(root: ListNode, all: seq<ListNode>, items: seq<Item>, p: int): Frame
    requires |all| == |items|
  {
    if 0 <= p < |all| then Frame(items[p].indent, all[p]) else Frame(-1, root)
  }

  // Pops what is not shallower than indent.  The bottom of the stack stays.
  method Close(stack: seq<Frame>, indent: nat) returns (open: seq<Frame>)
    requires |stack| > 0 && stack[0].indent < 0
    ensures 0 < |open| <= |stack| && open == stack[..|open|]
    ensures open[|open| - 1].indent < indent
    ensures |open| < |stack| ==> indent <= stack[|open|].indent
  {
    open := stack;
    while |open| > 0 && indent <= open[|open| - 1].indent
      invariant 0 < |open| <= |stack| && open == stack[..|open|]
      invariant |open| < |stack| ==> indent <= stack[|open|].indent
    {
      open := open[..|open| - 1];
    }
  }

  lemma ClosedAt(stack: seq<Frame>, root: ListNode, all: seq<ListNode>, items: seq<Item>, chain: seq<int>, x: nat, m: nat)
    requires Fits(stack, root, all, items, chain) && 0 < m <= |stack|
    requires stack[m - 1].indent < x && (m < |stack| ==> x <= stack[m].indent)
    ensures Rising(Indents(items), chain) && Closes(Indents(items), chain, x, m - 1)
    ensures stack[m - 1].node == NodeAt(root, all, chain[m - 1])
  {
  }

  lemma OpenedAgain(stack: seq<Frame>, root: ListNode, all: seq<ListNode>, items: seq<Item>, chain: seq<int>, item: Item,
                    m: nat, node: ListNode)
    requires Fits(stack, root, all, items, chain) && 0 < m <= |stack|
    requires Rising(Indents(items), chain) && Closes(Indents(items), chain, item.indent, m - 1)
    ensures Fits(stack[..m] + [Frame(item.indent, node)], root, all + [node], items + [item], chain[..m] + [|items|])
  {
    ChainGrows(Indents(items), chain, item.indent, m - 1);
    assert Indents(items + [item]) == Indents(items) + [item.indent];
    hide Chain, Closes;
    assert forall t :: 0 <= t < |chain| ==> chain[t] < |items| by {
      ChainStays(Indents(items), chain);
    }
  }

  lemma ChainStays(indents: seq<nat>, chain: seq<int>)
    requires Rising(indents, chain)
    ensures forall t :: 0 <= t < |chain| ==> chain[t] < |indents|
  {
  }

  // A new item: it closes the open items that are not shallower and opens below the first that is.
  method OpenItem(root: ListNode, ghost all: seq<ListNode>, ghost items: seq<Item>, stack: seq<Frame>,
                  ghost chain: seq<int>, item: Item) returns (stack': seq<Frame>, node: ListNode, ghost chain': seq<int>)
    requires Built(root, all, items) && Fits(stack, root, all, items, chain)
    modifies root, all
    ensures fresh(node) && Built(root, all + [node], items + [item])
    ensures Fits(stack', root, all + [node], items + [item], chain')
  {
    hide Built, Fits, Closes, Rising, Chain, NodeAt, Parent, Indents;
    BottomIsRoot(stack, root, all, items, chain);
    SameLength(root, all, items);
    var open := Close(stack, item.indent);
    ghost var m := |open|;
    ClosedAt(stack, root, all, items, chain, item.indent, m);
    ParentIsOpen(stack, root, all, items, chain, item, m);
    node := AddItem(root, all, items, item, open[|open| - 1].node);
    stack' := open + [Frame(item.indent, node)];
    chain' := chain[..m] + [|items|];
    OpenedAgain(stack, root, all, items, chain, item, m, node);
  }

  lemma BottomIsRoot(stack: seq<Frame>, root: ListNode, all: seq<ListNode>, items: seq<Item>, chain: seq<int>)
    requires Fits(stack, root, all, items, chain)
    ensures |stack| == |chain| > 0 && stack[0].indent < 0
  {
  }

  lemma ParentIsOpen(stack: seq<Frame>, root: ListNode, all: seq<ListNode>, items: seq<Item>, chain: seq<int>, item: Item,
                     m: nat)
    requires Fits(stack, root, all, items, chain) && 0 < m <= |stack| == |chain| && |all| == |items|
    requires Rising(Indents(items), chain) && Closes(Indents(items), chain, item.indent, m - 1)
    requires ROOT <= chain[m - 1] < |all| && stack[m - 1].node == NodeAt(root, all, chain[m - 1])
    ensures stack[m - 1].node == NodeAt(root, all, Parent(Indents(items + [item]), |items|))
    ensures Parent(Indents(items + [item]), |items|) < |all| && stack[m - 1].node in [root] + all
  {
    ClosingFindsParent(Indents(items), chain, item.indent, m - 1);
    hide Parent, Closes, Rising;
    assert Indents(items + [item]) == Indents(items) + [item.indent];
  }

  ghost predicate IsLast(last: ListNode?, all: seq<ListNode>) {
    last == if all == [] then null else all[|all| - 1]
  }

  // One turn of the building loop
  method TakeLine(root: ListNode, ghost all: seq<ListNode>, ghost items: seq<Item>, stack: seq<Frame>,
                  ghost chain: seq<int>, last: ListNode?, line: string)
    returns (stack': seq<Frame>, last': ListNode?, ghost all': seq<ListNode>, ghost chain': seq<int>)
    requires Built(root, all, items) && Fits(stack, root, all, items, chain) && IsLast(last, all)
    modifies root, all
    ensures Built(root, all', Next(items, line)) && Fits(stack', root, all', Next(items, line), chain')
    ensures IsLast(last', all') && all <= all' && forall k :: |all| <= k < |all'| ==> fresh(all'[k])
  {
    hide Built, Fits, Next, ItemOf, Strip;
    stack', last', all', chain' := stack, last, all, chain;
    var m := ItemOf(line);
    if m.Some? {
      NextItem(items, line);
      stack', last', chain' := OpenItem(root, all, items, stack, chain, m.value);
      all' := all + [last'];
    } else {
      var more := Strip(line);
      SameLength(root, all, items);
      NextText(items, line);
      if more != "" && last != null {
        ContinueItem(root, all, items, last, more);
        FitsStill(stack, root, all, items, chain, " " + more);
        assert items[|items| - 1].text + " " + more == items[|items| - 1].text + (" " + more);
      }
    }
  }

  // The building loop of render_list_block
  method BuildList(lines: seq<string>) returns (root: ListNode, ghost all: seq<ListNode>)
    ensures Built(root, all, Gather(lines))
    ensures fresh(root) && forall k :: 0 <= k < |all| ==> fresh(all[k])
  {
    root := new ListNode("");
    all := [];
    var stack := [Frame(-1, root)];
    ghost var chain := [ROOT];
    var last: ListNode? := null;
    assert Fits(stack, root, all, [], chain) && IsLast(last, all);
    assert Built(root, all, []);
    hide *;
    GatherNothing(lines);
    var i := 0;
    while i < |lines|
      invariant 0 <= i <= |lines|
      invariant fresh(root) && forall k :: 0 <= k < |all| ==> fresh(all[k])
      invariant Built(root, all, Gather(lines[..i])) && Fits(stack, root, all, Gather(lines[..i]), chain) && IsLast(last, all)
    {
      GatherMore(lines, i);
      stack, last, all, chain := TakeLine(root, all, Gather(lines[..i]), stack, chain, last, lines[i]);
      i := i + 1;
    }
    assert lines[..i] == lines;
  }

  lemma GatherNothing(lines: seq<string>)
    ensures Gather(lines[..0]) == []
  {
  }

  lemma GatherMore(lines: seq<string>, i: nat)
    requires i < |lines|
    ensures Gather(lines[..i + 1]) == Next(Gather(lines[..i]), lines[i])
  {
    hide Next;
    assert lines[..i + 1][..i] == lines[..i];
  }

  lemma NextItem(items: seq<Item>, line: string)
    requires ItemOf(line).Some?
    ensures Next(items, line) == items + [ItemOf(line).value]
  {
    hide ItemOf;
  }

  lemma NextText(items: seq<Item>, line: string)
    requires ItemOf(line).None?
    ensures Next(items, line)
         == if Strip(line) != "" && items != []
            then items[|items| - 1 := Item(items[|items| - 1].indent, items[|items| - 1].text + " " + Strip(line))] else items
  {
    hide ItemOf, Strip;
  }

  lemma SameLength(root: ListNode, all: seq<ListNode>, items: seq<Item>)
    requires Built(root, all, items)
    ensures |all| == |items|
  {
  }

  lemma FitsStill(stack: seq<Frame>, root: ListNode, all: seq<ListNode>, items: seq<Item>, chain: seq<int>, more: string)
    requires Fits(stack, root, all, items, chain) && items != []
    ensures var n := |items| - 1;
      Fits(stack, root, all, items[n := Item(items[n].indent, items[n].text + more)], chain)
  {
    var n := |items| - 1;
    hide Chain;
    assert Indents(items[n := Item(items[n].indent, items[n].text + more)]) == Indents(items);
  }
}
