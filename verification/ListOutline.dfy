/**
  The outline that a nested bullet list of docs/build_docs.py spells by indentation: which item each item
  belongs to, and the order in which the resulting forest is read.
 */
module ListOutline {

  const ROOT := -1

  // The nearest of the items 0..j whose indent is smaller than x, or the root.
  function Nearest(indents: seq<nat>, j: int, x: nat): (p: int)
    requires -1 <= j < |indents|
    ensures ROOT <= p <= j
    decreases j + 1
  {
    if j < 0 then ROOT else if indents[j] < x then j else Nearest(indents, j - 1, x)
  }

  // The item that item k belongs to
  function Parent(indents: seq<nat>, k: nat): (p: int)
    requires k < |indents|
    ensures ROOT <= p < k
  {
    Nearest(indents, k - 1, indents[k])
  }

  // The nearest earlier item of strictly smaller indent, the root if there is none
  ghost predicate IsParent(indents: seq<nat>, k: nat, p: int)
    requires k < |indents|
  {
    && ROOT <= p < k
    && (p >= 0 ==> indents[p] < indents[k])
    && forall i :: p < i < k ==> indents[i] >= indents[k]
  }

  lemma {:induction false} NearestIs(indents: seq<nat>, j: int, x: nat)
    requires -1 <= j < |indents|
    ensures var p := Nearest(indents, j, x);
      (p >= 0 ==> indents[p] < x) && forall i :: p < i <= j ==> indents[i] >= x
    decreases j + 1
  {
    if j >= 0 && indents[j] >= x {
      NearestIs(indents, j - 1, x);
    }
  }

  lemma ParentIs(indents: seq<nat>, k: nat, p: int)
    requires k < |indents|
    ensures IsParent(indents, k, p) <==> p == Parent(indents, k)
  {
    NearestIs(indents, k - 1, indents[k]);
  }

  lemma ParentOfPrefix(indents: seq<nat>, n: nat, k: nat)
    requires k < n <= |indents|
    ensures Parent(indents[..n], k) == Parent(indents, k)
  {
    hide Parent;
    var p := Parent(indents[..n], k);
    ParentIs(indents[..n], k, p);
    assert forall i :: 0 <= i < n ==> indents[..n][i] == indents[i];
    ParentIs(indents, k, p);
  }

  // The items lo..hi-1 that belong to p, in order
  function Kids(indents: seq<nat>, p: int, lo: nat, hi: nat): (kids: seq<nat>)
    requires lo <= hi <= |indents|
    decreases hi - lo
  {
    if lo == hi then []
    else Kids(indents, p, lo, hi - 1) + (if Parent(indents, hi - 1) == p then [hi - 1] else [])
  }

  lemma {:induction false} KidsBelong(indents: seq<nat>, p: int, lo: nat, hi: nat)
    requires lo <= hi <= |indents|
    ensures forall i :: 0 <= i < |Kids(indents, p, lo, hi)| ==>
              lo <= Kids(indents, p, lo, hi)[i] < hi && Parent(indents, Kids(indents, p, lo, hi)[i]) == p
    decreases hi - lo
  {
    hide Parent;
    if lo < hi {
      KidsBelong(indents, p, lo, hi - 1);
    }
  }

  lemma {:induction false} KidsOfPrefix(indents: seq<nat>, n: nat, p: int, hi: nat)
    requires hi <= n <= |indents|
    ensures Kids(indents[..n], p, 0, hi) == Kids(indents, p, 0, hi)
  {
    hide Parent;
    if hi > 0 {
      KidsOfPrefix(indents, n, p, hi - 1);
      ParentOfPrefix(indents, n, hi - 1);
    }
  }

  // One more item joins the items of its parent.
  lemma KidsOfOneMore(indents: seq<nat>, x: nat, p: int)
    ensures var all, n := indents + [x], |indents|;
      Kids(all, p, 0, n + 1) == Kids(indents, p, 0, n) + (if Parent(all, n) == p then [n] else [])
  {
    hide Parent;
    var all, n := indents + [x], |indents|;
    KidsOfPrefix(all, n, p, n);
    assert all[..n] == indents;
  }

  lemma {:induction false} NoKidsYet(indents: seq<nat>, p: int, hi: nat)
    requires hi <= |indents| && hi <= p
    ensures Kids(indents, p, 0, hi) == []
  {
    if hi > 0 {
      NoKidsYet(indents, p, hi - 1);
    }
  }

  // Reading order

  // The first item from j on that is not below k
  function End(indents: seq<nat>, k: int, j: nat): (e: nat)
    requires ROOT <= k < |indents| && j <= |indents|
    ensures j <= e <= |indents|
    decreases |indents| - j
  {
    if j < |indents| && (k < 0 || indents[j] > indents[k]) then End(indents, k, j + 1) else j
  }

  lemma {:induction false} EndIs(indents: seq<nat>, k: int, j: nat)
    requires ROOT <= k < |indents| && j <= |indents|
    ensures var e := End(indents, k, j);
      && (k >= 0 ==> forall i :: j <= i < e ==> indents[i] > indents[k])
      && (e < |indents| ==> k >= 0 && indents[e] <= indents[k])
    decreases |indents| - j
  {
    if j < |indents| && (k < 0 || indents[j] > indents[k]) {
      EndIs(indents, k, j + 1);
    }
  }

  // The items of p from lo on, each followed by those below it
  function Preorder(indents: seq<nat>, p: int, lo: nat): seq<nat>
    requires ROOT <= p < lo <= |indents|
    decreases |indents| - p, |indents| - lo
  {
    if lo == |indents| then []
    else (if Parent(indents, lo) == p then [lo] + Preorder(indents, lo, lo + 1) else []) + Preorder(indents, p, lo + 1)
  }

  function Range(lo: nat, hi: nat): (r: seq<nat>)
    requires lo <= hi
    ensures |r| == hi - lo && forall i :: 0 <= i < |r| ==> r[i] == lo + i
  {
    seq(hi - lo, i requires 0 <= i < hi - lo => lo + i)
  }

  // An item does not belong to p when a shallower one lies in between.
  lemma NotPastShallower(indents: seq<nat>, p: int, k: nat, lo: nat)
    requires ROOT <= p < k < lo < |indents| && indents[k] < indents[lo]
    ensures Parent(indents, lo) != p
  {
    hide Parent;
    ParentIs(indents, lo, p);
    assert !IsParent(indents, lo, p);
  }

  // Items after one that is not below p do not belong to p.
  lemma NotAfterEnd(indents: seq<nat>, p: nat, e: nat, k: nat)
    requires p < e < k < |indents| && indents[e] <= indents[p]
    ensures Parent(indents, k) != p
  {
    hide Parent;
    ParentIs(indents, k, p);
    if indents[p] < indents[k] {
      assert indents[e] < indents[k];
    }
    assert !IsParent(indents, k, p);
  }

  lemma {:induction false} PreorderIsOver(indents: seq<nat>, p: nat, e: nat, lo: nat)
    requires p < e < lo <= |indents| && indents[e] <= indents[p]
    ensures Preorder(indents, p, lo) == []
    decreases |indents| - lo
  {
    hide Parent;
    if lo < |indents| {
      NotAfterEnd(indents, p, e, lo);
      PreorderIsOver(indents, p, e, lo + 1);
      assert Preorder(indents, p, lo) == [] + Preorder(indents, p, lo + 1);
    }
  }

  // Between an item and the end of what is below it, nothing belongs to the item's parent.
  lemma {:induction false} PreorderSkips(indents: seq<nat>, p: int, k: nat, lo: nat, e: nat)
    requires ROOT <= p < k < lo <= e <= |indents|
    requires forall i :: k < i < e ==> indents[i] > indents[k]
    ensures Preorder(indents, p, lo) == Preorder(indents, p, e)
    decreases e - lo
  {
    hide Parent;
    if lo < e {
      PreorderSkips(indents, p, k, lo + 1, e);
      assert indents[lo] > indents[k];
      NotPastShallower(indents, p, k, lo);
      assert Preorder(indents, p, lo) == [] + Preorder(indents, p, lo + 1);
    }
  }

  // What is below an item of p ends where p's items end or where the next one of them begins.
  lemma EndsWithin(indents: seq<nat>, p: int, last: nat, lo: nat)
    requires ROOT <= p < lo < last <= |indents| && Parent(indents, lo) == p
    requires last == End(indents, p, p + 1)
    ensures var e := End(indents, lo, lo + 1);
      e <= last && (e < last ==> Parent(indents, e) == p) && (lo + 1 < e ==> Parent(indents, lo + 1) == lo)
  {
    hide Parent, End;
    var e := End(indents, lo, lo + 1);
    EndIs(indents, lo, lo + 1);
    EndIs(indents, p, p + 1);
    ParentIs(indents, lo, p);
    if e < last {
      ParentIs(indents, e, p);
    }
    if lo + 1 < e {
      ParentIs(indents, lo + 1, lo);
    }
  }

  lemma LastIsOver(indents: seq<nat>, p: int, lo: nat)
    requires ROOT <= p < lo < |indents| && lo == End(indents, p, p + 1)
    ensures Preorder(indents, p, lo) == []
  {
    hide Parent, End;
    EndIs(indents, p, p + 1);
    ParentIs(indents, lo, p);
    PreorderIsOver(indents, p, lo, lo + 1);
  }

  // The items of p, from lo on, are read in the order of input, down to the end of what is below p.
  lemma {:induction false} PreorderIsInputOrder(indents: seq<nat>, p: int, last: nat, lo: nat)
    requires ROOT <= p < lo <= last <= |indents| && last == End(indents, p, p + 1)
    requires lo < last ==> Parent(indents, lo) == p
    ensures Preorder(indents, p, lo) == Range(lo, last)
    decreases |indents| - p, |indents| - lo
  {
    hide Parent, End, Range;
    if lo < last {
      var e := End(indents, lo, lo + 1);
      EndsWithin(indents, p, last, lo);
      PreorderIsInputOrder(indents, lo, e, lo + 1);
      EndIs(indents, lo, lo + 1);
      PreorderSkips(indents, p, lo, lo + 1, e);
      PreorderIsInputOrder(indents, p, last, e);
      RangeSplits(lo, e, last);
    } else if lo < |indents| {
      LastIsOver(indents, p, lo);
    }
  }

  lemma RangeSplits(lo: nat, e: nat, last: nat)
    requires lo < e <= last
    ensures [lo] + Range(lo + 1, e) + Range(e, last) == Range(lo, last)
  {
  }

  // Read from the root, the forest gives the items in the order of input.
  lemma ForestIsInInputOrder(indents: seq<nat>)
    ensures Preorder(indents, ROOT, 0) == Range(0, |indents|)
  {
    EndIs(indents, ROOT, 0);
    if indents != [] {
      ParentIs(indents, 0, ROOT);
    }
    PreorderIsInputOrder(indents, ROOT, |indents|, 0);
  }

  // The stack of open items

  // chain holds the root and then the open items, each later and deeper than the one before; the last item is open.
  ghost predicate Rising(indents: seq<nat>, chain: seq<int>) {
    && |chain| > 0 && chain[0] == ROOT
    && chain[|chain| - 1] == |indents| - 1
    && (forall t :: 0 < t < |chain| ==> 0 <= chain[t] < |indents| && chain[t - 1] < chain[t])
    && (forall s, t :: 0 < s < t < |chain| ==> indents[chain[s]] < indents[chain[t]])
  }

  // Whatever follows an open item is at least as deep as the next open item.
  ghost predicate Covering(indents: seq<nat>, chain: seq<int>)
    requires Rising(indents, chain)
  {
    forall t: nat, j: nat :: t < |chain| - 1 && chain[t] < j < |indents| ==> indents[j] >= indents[chain[t + 1]]
  }

  ghost predicate Chain(indents: seq<nat>, chain: seq<int>) {
    Rising(indents, chain) && Covering(indents, chain)
  }

  // Item t of the chain is the first open one that is shallower than x.
  ghost predicate Closes(indents: seq<nat>, chain: seq<int>, x: nat, t: nat)
    requires Rising(indents, chain)
  {
    && t < |chain|
    && (t > 0 ==> indents[chain[t]] < x)
    && (t < |chain| - 1 ==> x <= indents[chain[t + 1]])
  }

  // An item of indent x closes the open items that are not shallower and belongs to the first that is.
  lemma ClosingFindsParent(indents: seq<nat>, chain: seq<int>, x: nat, t: nat)
    requires Chain(indents, chain) && Closes(indents, chain, x, t)
    ensures Parent(indents + [x], |indents|) == chain[t]
  {
    hide Parent;
    ParentIs(indents + [x], |indents|, chain[t]);
  }

  lemma RisingGrows(indents: seq<nat>, chain: seq<int>, x: nat, t: nat)
    requires Rising(indents, chain) && Closes(indents, chain, x, t)
    ensures Rising(indents + [x], chain[..t + 1] + [|indents|])
  {
    assert forall s :: 0 < s <= t ==> indents[chain[s]] <= indents[chain[t]];
  }

  lemma ChainGrows(indents: seq<nat>, chain: seq<int>, x: nat, t: nat)
    requires Chain(indents, chain) && Closes(indents, chain, x, t)
    ensures Chain(indents + [x], chain[..t + 1] + [|indents|])
  {
    var all, n, next := indents + [x], |indents|, chain[..t + 1] + [|indents|];
    RisingGrows(indents, chain, x, t);
    forall s: nat, j: nat | s < |next| - 1 && next[s] < j < |all|
      ensures all[j] >= all[next[s + 1]]
    {
      StillCovering(indents, chain, x, t, s, j);
    }
  }

  lemma StillCovering(indents: seq<nat>, chain: seq<int>, x: nat, t: nat, s: nat, j: nat)
    requires Chain(indents, chain) && Closes(indents, chain, x, t)
    requires s <= t && chain[s] < j <= |indents|
    ensures (indents + [x])[j] >= if s == t then x else indents[chain[s + 1]]
  {
    if s < t && s + 1 < t {
      assert indents[chain[s + 1]] < indents[chain[t]];
    }
  }
}
