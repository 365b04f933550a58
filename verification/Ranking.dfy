/**
  The overall ranking of docs/build_docs.py: each comparison of at least two columns gives every compared column
  a score between 0 (best) and 1 (worst); missing comparisons count as worst.

  A comparison is one stage and one metric; its row holds the value of each column that has one.  Values are
  exact.
 */
module Ranking {
  import opened Options

  type Row = seq<Option<real>>

  // The number of columns 0..c-1 that have a value
  function Present(row: Row, c: nat): (n: nat)
    requires c <= |row|
    ensures n <= c
  {
    if c == 0 then 0 else Present(row, c - 1) + if row[c - 1].Some? then 1 else 0
  }

  predicate Compared(row: Row) {
    Present(row, |row|) >= 2
  }

  // The least value, any column's if there is none
  function Least(row: Row, c: nat, otherwise: real): real
    requires c <= |row|
  {
    if c == 0 then otherwise
    else
      var m := Least(row, c - 1, otherwise);
      if row[c - 1].Some? && row[c - 1].value < m then row[c - 1].value else m
  }

  function Greatest(row: Row, c: nat, otherwise: real): real
    requires c <= |row|
  {
    if c == 0 then otherwise
    else
      var m := Greatest(row, c - 1, otherwise);
      if row[c - 1].Some? && row[c - 1].value > m then row[c - 1].value else m
  }

  // to_norm of column c's value among the row's values
  function Norm(row: Row, c: nat): real
    requires c < |row| && row[c].Some?
  {
    var v := row[c].value;
    var good, bad := Least(row, |row|, v), Greatest(row, |row|, v);
    (v - good) / (if bad - good == 0.0 then 1.0 else bad - good)
  }

  // good and bad do not depend on the column that asks.
  lemma {:induction false} LeastIsLeast(row: Row, c: nat, v: real)
    requires c <= |row|
    ensures Least(row, c, v) <= v
    ensures forall i :: 0 <= i < c && row[i].Some? ==> Least(row, c, v) <= row[i].value
    ensures Least(row, c, v) == v || exists i :: 0 <= i < c && row[i] == Some(Least(row, c, v))
  {
    if c > 0 {
      LeastIsLeast(row, c - 1, v);
    }
  }

  lemma {:induction false} GreatestIsGreatest(row: Row, c: nat, v: real)
    requires c <= |row|
    ensures Greatest(row, c, v) >= v
    ensures forall i :: 0 <= i < c && row[i].Some? ==> Greatest(row, c, v) >= row[i].value
    ensures Greatest(row, c, v) == v || exists i :: 0 <= i < c && row[i] == Some(Greatest(row, c, v))
  {
    if c > 0 {
      GreatestIsGreatest(row, c - 1, v);
    }
  }

  lemma SameRange(row: Row, a: nat, b: nat)
    requires a < |row| && b < |row| && row[a].Some? && row[b].Some?
    ensures Least(row, |row|, row[a].value) == Least(row, |row|, row[b].value)
    ensures Greatest(row, |row|, row[a].value) == Greatest(row, |row|, row[b].value)
  {
    LeastIsLeast(row, |row|, row[a].value);
    LeastIsLeast(row, |row|, row[b].value);
    GreatestIsGreatest(row, |row|, row[a].value);
    GreatestIsGreatest(row, |row|, row[b].value);
    hide Least, Greatest;
  }

  lemma ProductOver(q: real, y: real)
    requires y != 0.0
    ensures (q * y) / y == q
  {
  }

  lemma QuotientGrows(x: real, z: real, y: real)
    requires x <= z && y > 0.0
    ensures x / y <= z / y
    ensures x < z ==> x / y < z / y
  {
    assert z / y - x / y == (z - x) / y;
    if x < z {
      assert ((z - x) / y) * y == z - x;
    }
  }

  lemma Quotient(x: real, y: real)
    requires 0.0 <= x <= y && y > 0.0
    ensures 0.0 <= x / y <= 1.0
  {
    QuotientGrows(0.0, x, y);
    QuotientGrows(x, y, y);
    ProductOver(1.0, y);
    ProductOver(0.0, y);
  }

  // (s + (y - x)) / y, taken apart
  lemma TakeApart(s: real, x: real, y: real)
    requires y > 0.0
    ensures (s + (y - x)) / y == s / y + (1.0 - x / y)
  {
    var q, p, r := s / y, x / y, (s + (y - x)) / y;
    assert s == q * y && x == p * y;
    assert s + (y - x) == r * y;
    Distributes(q, p, y);
    OneFactor(r, q + (1.0 - p), y);
  }

  lemma OneFactor(a: real, b: real, y: real)
    requires a * y == b * y && y != 0.0
    ensures a == b
  {
    ProductOver(a, y);
    ProductOver(b, y);
  }

  lemma Distributes(q: real, p: real, y: real)
    ensures (q + (1.0 - p)) * y == q * y + (y - p * y)
  {
  }

  lemma Scaled(s: real, x: real, y: real)
    requires x > 0.0 && y > 0.0
    ensures (s / x) * (x / y) == s / y
  {
    var q := s / x;
    assert s == q * x;
    assert q * (x / y) == (q * x) / y;
  }

  // A score lies between 0 and 1 and keeps the order of the values.
  lemma NormIsScore(row: Row, a: nat)
    requires a < |row| && row[a].Some?
    ensures 0.0 <= Norm(row, a) <= 1.0
  {
    var v := row[a].value;
    LeastIsLeast(row, |row|, v);
    GreatestIsGreatest(row, |row|, v);
    hide Least, Greatest;
    var good, bad := Least(row, |row|, v), Greatest(row, |row|, v);
    if bad - good != 0.0 {
      Quotient(v - good, bad - good);
    }
  }

  lemma NormKeepsOrder(row: Row, a: nat, b: nat)
    requires a < |row| && b < |row| && row[a].Some? && row[b].Some?
    ensures row[a].value <= row[b].value <==> Norm(row, a) <= Norm(row, b)
  {
    SameRange(row, a, b);
    LeastIsLeast(row, |row|, row[a].value);
    GreatestIsGreatest(row, |row|, row[a].value);
    hide Least, Greatest;
    var good := Least(row, |row|, row[a].value);
    var bad := Greatest(row, |row|, row[a].value);
    var range := if bad - good == 0.0 then 1.0 else bad - good;
    if row[a].value <= row[b].value {
      QuotientGrows(row[a].value - good, row[b].value - good, range);
    } else {
      QuotientGrows(row[b].value - good, row[a].value - good, range);
    }
  }

  // The best value scores 0, the worst 1 unless all are equal, and the others lie between in proportion.
  lemma NormIsProportional(row: Row, a: nat, best: nat, worst: nat)
    requires a < |row| && best < |row| && worst < |row| && row[a].Some? && row[best].Some? && row[worst].Some?
    requires forall i :: 0 <= i < |row| && row[i].Some? ==> row[best].value <= row[i].value <= row[worst].value
    ensures Norm(row, best) == 0.0
    ensures row[best].value < row[worst].value ==> Norm(row, worst) == 1.0
    ensures Norm(row, a) * (row[worst].value - row[best].value) == row[a].value - row[best].value
  {
    RangeIs(row, a, best, worst);
    RangeIs(row, best, best, worst);
    RangeIs(row, worst, best, worst);
    hide Least, Greatest;
    var spread := row[worst].value - row[best].value;
    if spread != 0.0 {
      ProductOver(1.0, spread);
      QuotientTimes(row[a].value - row[best].value, spread);
      ProductOver(0.0, spread);
    }
  }

  lemma QuotientTimes(x: real, y: real)
    requires y != 0.0
    ensures (x / y) * y == x
  {
  }

  lemma RangeIs(row: Row, a: nat, best: nat, worst: nat)
    requires a < |row| && best < |row| && worst < |row| && row[a].Some? && row[best].Some? && row[worst].Some?
    requires forall i :: 0 <= i < |row| && row[i].Some? ==> row[best].value <= row[i].value <= row[worst].value
    ensures Least(row, |row|, row[a].value) == row[best].value && Greatest(row, |row|, row[a].value) == row[worst].value
  {
    LeastIsLeast(row, |row|, row[a].value);
    GreatestIsGreatest(row, |row|, row[a].value);
    hide Least, Greatest;
  }

  // A row is compared if at least two columns have a value.
  lemma {:induction false} PresentCounts(row: Row, c: nat)
    requires c <= |row|
    ensures Present(row, c) >= 1 <==> exists i :: 0 <= i < c && row[i].Some?
    ensures Present(row, c) >= 2 <==> exists i, j :: 0 <= i < j < c && row[i].Some? && row[j].Some?
  {
    if c > 0 {
      PresentCounts(row, c - 1);
    }
  }

  lemma ComparedIff(row: Row)
    ensures Compared(row) <==> exists i, j :: 0 <= i < j < |row| && row[i].Some? && row[j].Some?
  {
    PresentCounts(row, |row|);
  }

  // Totals

  predicate Wide(rows: seq<Row>, columns: nat) {
    forall i :: 0 <= i < |rows| ==> |rows[i]| == columns
  }

  // Column c takes part in the comparison.
  predicate TakesPart(row: Row, c: nat) {
    c < |row| && Compared(row) && row[c].Some?
  }

  function Sum(rows: seq<Row>, c: nat): real {
    if rows == [] then 0.0
    else
      var last := rows[|rows| - 1];
      Sum(rows[..|rows| - 1], c) + if TakesPart(last, c) then Norm(last, c) else 0.0
  }

  function Count(rows: seq<Row>, c: nat): (n: nat)
    ensures n <= |rows|
  {
    if rows == [] then 0
    else Count(rows[..|rows| - 1], c) + if TakesPart(rows[|rows| - 1], c) then 1 else 0
  }

  // The most comparisons that any of the columns 0..c-1 takes part in
  function MostCount(rows: seq<Row>, c: nat): (n: nat)
    ensures forall i: nat :: i < c ==> Count(rows, i) <= n
  {
    if c == 0 then 0
    else
      var m := MostCount(rows, c - 1);
      if Count(rows, c - 1) > m then Count(rows, c - 1) else m
  }

  lemma {:induction false} SumIsBounded(rows: seq<Row>, c: nat)
    ensures 0.0 <= Sum(rows, c) <= Count(rows, c) as real
  {
    hide Norm, TakesPart;
    if rows != [] {
      SumIsBounded(rows[..|rows| - 1], c);
      var last := rows[|rows| - 1];
      if TakesPart(last, c) {
        TakesPartHasValue(last, c);
        NormIsScore(last, c);
      }
    }
  }

  lemma TakesPartHasValue(row: Row, c: nat)
    requires TakesPart(row, c)
    ensures c < |row| && row[c].Some?
  {
  }

  // Missing comparisons cost a whole point, those made cost their score.
  function Cost(rows: seq<Row>, c: nat): real {
    Sum(rows, c) + (|rows| - Count(rows, c)) as real
  }

  // Column a takes part wherever b does, and is nowhere worse.
  ghost predicate Dominates(rows: seq<Row>, a: nat, b: nat) {
    forall i :: 0 <= i < |rows| && TakesPart(rows[i], b) ==> TakesPart(rows[i], a) && rows[i][a].value <= rows[i][b].value
  }

  lemma {:induction false} DominanceIsCheaper(rows: seq<Row>, a: nat, b: nat)
    requires Dominates(rows, a, b)
    ensures Cost(rows, a) <= Cost(rows, b) && Count(rows, b) <= Count(rows, a)
  {
    hide Norm, TakesPart;
    if rows != [] {
      var n := |rows| - 1;
      DominanceIsCheaper(rows[..n], a, b);
      if TakesPart(rows[n], a) {
        TakesPartHasValue(rows[n], a);
        NormIsScore(rows[n], a);
      }
      if TakesPart(rows[n], b) {
        TakesPartHasValue(rows[n], b);
        NormKeepsOrder(rows[n], a, b);
      }
    }
  }

  // The ranking

  datatype Rank = Rank(adjusted: real, avg: real, column: nat, n: nat, coverage: real)

  // max_n
  function Most(rows: seq<Row>, columns: nat): (n: nat)
    ensures n >= 1
  {
    if MostCount(rows, columns) == 0 then 1 else MostCount(rows, columns)
  }

  function Adjusted(avg: real, coverage: real): real {
    avg * coverage + 1.0 * (1.0 - coverage)
  }

  function Coverage(n: nat, most: nat): real
    requires most > 0
  {
    n as real / most as real
  }

  // What a sum of scores and the missing comparisons cost, on the scale of most comparisons
  function CostShare(s: real, n: nat, most: nat): real
    requires most > 0
  {
    (s + (most as real - n as real)) / most as real
  }

  lemma Blend(s: real, n: nat, most: nat)
    requires 0 < n && 0 < most
    ensures Adjusted(s / n as real, Coverage(n, most)) == CostShare(s, n, most)
  {
    Scaled(s, n as real, most as real);
    TakeApart(s, n as real, most as real);
  }

  lemma NoBlend(most: nat)
    requires most > 0
    ensures Adjusted(1.0, Coverage(0, most)) == CostShare(0.0, 0, most)
  {
    ProductOver(0.0, most as real);
    ProductOver(1.0, most as real);
  }

  // The entry of column c: its cost over the comparisons of the column that has most of them
  ghost predicate IsRankOf(r: Rank, rows: seq<Row>, columns: nat, c: nat) {
    && r.column == c && r.n == Count(rows, c)
    && r.coverage == Coverage(r.n, Most(rows, columns))
    && r.adjusted == CostShare(Sum(rows, c), r.n, Most(rows, columns))
  }

  // The loop that adds up the totals
  method AddTotals(columns: nat, rows: seq<Row>) returns (totals: seq<(real, nat)>)
    requires Wide(rows, columns)
    ensures |totals| == columns && forall c: nat :: c < columns ==> totals[c] == (Sum(rows, c), Count(rows, c))
  {
    hide Norm, Compared, Present;
    totals := seq(columns, _ => (0.0, 0));
    for i := 0 to |rows|
      invariant |totals| == columns
      invariant forall c: nat :: c < columns ==> totals[c] == (Sum(rows[..i], c), Count(rows[..i], c))
    {
      var row := rows[i];
      assert rows[..i + 1][..i] == rows[..i];
      if !Compared(row) {
        continue;
      }
      ghost var before := totals;
      for c := 0 to columns
        invariant |totals| == columns
        invariant forall d: nat :: c <= d < columns ==> totals[d] == before[d]
        invariant forall d: nat :: d < c ==> totals[d] == (Sum(rows[..i + 1], d), Count(rows[..i + 1], d))
      {
        if row[c].Some? {
          var (s, n) := totals[c];
          totals := totals[c := (s + Norm(row, c), n + 1)];
        }
      }
    }
    assert rows[..|rows|] == rows;
  }

  method Rankings(columns: nat, rows: seq<Row>) returns (ranking: seq<Rank>)
    requires Wide(rows, columns)
    ensures |ranking| == columns && forall c: nat :: c < columns ==> IsRankOf(ranking[c], rows, columns, c)
  {
    hide Sum, Count, MostCount, Wide, CostShare, Adjusted, IsRankOf;
    var totals := AddTotals(columns, rows);
    var maxN := 0;
    NoColumns(rows);
    for c := 0 to columns
      invariant maxN == MostCount(rows, c)
    {
      OneMoreColumn(rows, c);
      if totals[c].1 > maxN {
        maxN := totals[c].1;
      }
    }
    if maxN == 0 {
      maxN := 1;
    }
    ranking := [];
    for c := 0 to columns
      invariant |ranking| == c && forall d: nat :: d < c ==> IsRankOf(ranking[d], rows, columns, d)
    {
      var (s, n) := totals[c];
      var avg := if n > 0 then s / n as real else 1.0;
      var coverage := Coverage(n, maxN);
      RankIsRight(rows, columns, c, avg, coverage);
      ranking := ranking + [Rank(Adjusted(avg, coverage), avg, c, n, coverage)];
    }
  }

  lemma NoColumns(rows: seq<Row>)
    ensures MostCount(rows, 0) == 0
  {
  }

  lemma OneMoreColumn(rows: seq<Row>, c: nat)
    ensures MostCount(rows, c + 1) == if Count(rows, c) > MostCount(rows, c) then Count(rows, c) else MostCount(rows, c)
  {
  }

  lemma RankIsRight(rows: seq<Row>, columns: nat, c: nat, avg: real, coverage: real)
    requires c < columns
    requires avg == if Count(rows, c) > 0 then Sum(rows, c) / Count(rows, c) as real else 1.0
    requires coverage == Coverage(Count(rows, c), Most(rows, columns))
    ensures IsRankOf(Rank(Adjusted(avg, coverage), avg, c, Count(rows, c), coverage), rows, columns, c)
  {
    hide Sum, Count, Most, Coverage, CostShare, Adjusted;
    SumIsBounded(rows, c);
    if Count(rows, c) > 0 {
      Blend(Sum(rows, c), Count(rows, c), Most(rows, columns));
    } else {
      NoBlend(Most(rows, columns));
    }
  }

  lemma CountIsAtMost(rows: seq<Row>, columns: nat, c: nat)
    requires c < columns
    ensures Count(rows, c) <= Most(rows, columns)
  {
  }

  // The adjusted score keeps the scale from 0 to 1, and so does the coverage.
  lemma RankIsOnScale(r: Rank, rows: seq<Row>, columns: nat, c: nat)
    requires c < columns && IsRankOf(r, rows, columns, c)
    ensures 0.0 <= r.adjusted <= 1.0 && 0.0 <= r.coverage <= 1.0
    ensures r.adjusted >= 1.0 - r.coverage
  {
    hide Sum, Count, Most, Coverage, CostShare;
    SumIsBounded(rows, c);
    CountIsAtMost(rows, columns, c);
    Scale(Sum(rows, c), r.n, Most(rows, columns));
  }

  lemma Scale(s: real, n: nat, most: nat)
    requires 0.0 <= s <= n as real && n <= most && most > 0
    ensures 0.0 <= CostShare(s, n, most) <= 1.0
    ensures 0.0 <= Coverage(n, most) <= 1.0
    ensures CostShare(s, n, most) >= 1.0 - Coverage(n, most)
  {
    Quotient(s + (most as real - n as real), most as real);
    Quotient(n as real, most as real);
    TakeApart(s, n as real, most as real);
    QuotientGrows(0.0, s, most as real);
  }

  // A column that is compared wherever another is, and is never worse, ranks no worse and is covered no less.
  lemma DominanceIsKept(ra: Rank, rb: Rank, rows: seq<Row>, columns: nat, a: nat, b: nat)
    requires IsRankOf(ra, rows, columns, a) && IsRankOf(rb, rows, columns, b) && Dominates(rows, a, b)
    ensures ra.adjusted <= rb.adjusted && rb.coverage <= ra.coverage
  {
    hide Sum, Count, Dominates, Most;
    DominanceIsCheaper(rows, a, b);
    var y := Most(rows, columns) as real;
    QuotientGrows(Sum(rows, a) + (y - ra.n as real), Sum(rows, b) + (y - rb.n as real), y);
    QuotientGrows(rb.n as real, ra.n as real, y);
  }
}
