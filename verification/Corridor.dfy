/**
  How many nodes of each kind are placed between the two cities (tools/zone_mesh_anim.py,
  corridor_allocation and split_count).
 */
module Corridor {
  import opened Numbers

  // Python's counts // 3 + 1; the share of a kind stops there, and never goes below zero.
  function Cap(count: int): int {
    count / 3 + 1
  }

  function Sum(s: seq<int>): int {
    if s == [] then 0 else s[0] + Sum(s[1..])
  }

  function Caps(counts: seq<int>): (caps: seq<int>)
    ensures |caps| == |counts| && forall i :: 0 <= i < |counts| ==> caps[i] == Max(counts[i] / 3 + 1, 0)
  {
    seq(|counts|, i requires 0 <= i < |counts| => Max(Cap(counts[i]), 0))
  }

  // Water poured round by round: the first `ahead` kinds are filled to level + 1, the others to
  // level, and none above its cap.
  ghost predicate Filled(shares: seq<int>, caps: seq<int>, level: nat, ahead: nat) {
    && |shares| == |caps| && ahead <= |caps|
    && forall i :: 0 <= i < |caps| ==> shares[i] == Min(caps[i], if i < ahead then level + 1 else level)
  }

  ghost predicate IsWaterFill(shares: seq<int>, caps: seq<int>) {
    exists level, ahead :: Filled(shares, caps, level, ahead)
  }

  lemma {:induction false} SumUpdate(s: seq<int>, i: nat, v: int)
    requires i < |s|
    ensures Sum(s[i := v]) == Sum(s) - s[i] + v
  {
    if i > 0 {
      assert s[i := v][1..] == s[1..][i - 1 := v];
      SumUpdate(s[1..], i - 1, v);
    }
  }

  lemma {:induction false} SumMonotone(a: seq<int>, b: seq<int>)
    requires |a| == |b| && forall i :: 0 <= i < |a| ==> a[i] <= b[i]
    ensures Sum(a) <= Sum(b)
    ensures Sum(a) == Sum(b) ==> a == b
  {
    if a != [] {
      SumMonotone(a[1..], b[1..]);
      assert a == [a[0]] + a[1..] && b == [b[0]] + b[1..];
    }
  }

  lemma {:induction false} SumZero(s: seq<int>)
    requires forall i :: 0 <= i < |s| ==> s[i] == 0
    ensures Sum(s) == 0
  {
    if s != [] {
      SumZero(s[1..]);
    }
  }

  // The amount poured determines the shares: there is only one water filling with a given sum.
  lemma WaterFillIsUnique(a: seq<int>, b: seq<int>, caps: seq<int>)
    requires IsWaterFill(a, caps) && IsWaterFill(b, caps) && Sum(a) == Sum(b)
    ensures a == b
  {
    var l1, m1 :| Filled(a, caps, l1, m1);
    var l2, m2 :| Filled(b, caps, l2, m2);
    if l1 < l2 || (l1 == l2 && m1 <= m2) {
      SumMonotone(a, b);
    } else {
      SumMonotone(b, a);
    }
  }

  // Giving kind k its unit, if its cap allows, moves the water line past k.
  lemma PourOne(shares: seq<int>, caps: seq<int>, level: nat, k: nat)
    requires Filled(shares, caps, level, k) && k < |caps| && caps[k] >= 0
    ensures if shares[k] < caps[k] then Filled(shares[k := shares[k] + 1], caps, level, k + 1)
            else Filled(shares, caps, level, k + 1) && caps[k] <= level
    ensures Sum(shares[k := shares[k] + 1]) == Sum(shares) + 1
  {
    SumUpdate(shares, k, shares[k] + 1);
  }

  lemma RoundDone(shares: seq<int>, caps: seq<int>, level: nat)
    requires Filled(shares, caps, level, |caps|)
    ensures Filled(shares, caps, level + 1, 0)
    ensures (forall i :: 0 <= i < |caps| ==> caps[i] <= level) ==> shares == caps
  {
  }

  // The loop of corridor_allocation, for any list of kinds in pouring order.  All caps are reached
  // or the whole budget is used, whichever comes first.
  method Allocate(budget: int, counts: seq<int>) returns (shares: seq<int>)
    ensures IsWaterFill(shares, Caps(counts))
    ensures Sum(shares) == Min(Max(budget, 0), Sum(Caps(counts)))
  {
    var n := |counts|;
    ghost var caps := Caps(counts);
    shares := seq(n, _ => 0);
    SumZero(shares);
    var left := budget;
    ghost var level: nat, ahead: nat := 0, 0;
    assert Filled(shares, caps, level, ahead);
    hide Filled, Sum;
    while left > 0
      invariant |shares| == n && Filled(shares, caps, level, ahead)
      invariant left > 0 ==> ahead == 0
      invariant Sum(shares) + left == budget && (left >= 0 || left == budget)
      decreases left
    {
      var changed := false;
      var k := 0;
      ghost var before := left;
      while k < n
        invariant 0 <= k <= n && ahead == k
        invariant |shares| == n && Filled(shares, caps, level, ahead)
        invariant Sum(shares) + left == budget && 0 < left <= before
        invariant changed <==> left < before
        invariant !changed ==> forall i :: 0 <= i < k ==> caps[i] <= level
      {
        PourOne(shares, caps, level, k);
        ahead := ahead + 1;
        if shares[k] < Cap(counts[k]) {
          shares := shares[k := shares[k] + 1];
          left := left - 1;
          changed := true;
          if left == 0 {
            break;
          }
        }
        k := k + 1;
      }
      if left > 0 {
        RoundDone(shares, caps, level);
        level, ahead := level + 1, 0;
      }
      if !changed {
        break;
      }
    }
    assert IsWaterFill(shares, caps);
    FilledBelowCaps(shares, caps);
  }

  lemma FilledBelowCaps(shares: seq<int>, caps: seq<int>)
    requires IsWaterFill(shares, caps)
    ensures Sum(shares) <= Sum(caps)
  {
    var level, ahead :| Filled(shares, caps, level, ahead);
    SumMonotone(shares, caps);
  }

  datatype Split = Split(west: int, east: int, corridor: int)

  // split_count
  function SplitCount(total: int, corridor: int): (s: Split)
    ensures s.corridor == corridor
    ensures 0 <= s.east <= s.west <= s.east + 1
    ensures s.west + s.east + s.corridor == Max(total, corridor)
  {
    var remainder := Max(total - corridor, 0);
    Split(remainder / 2 + remainder % 2, remainder / 2, corridor)
  }
}
