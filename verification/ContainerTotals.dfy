/**
  The container totals of scripts/bench/mem_aggregate.py: application and system memory, with every control
  group counted once.
 */
module ContainerTotals {
  import opened Options
  import opened Text

  // One row of the container table.  mem is negative when it was not measured; labels are the keys of the labels
  // that the engine's inspection gave, if it knows the container; name is in lower case.
  datatype Row = Row(mem: int, path: string, labels: Option<seq<string>>, name: string)

  datatype Side = App | System

  predicate HasRev(name: string) {
    exists i :: 0 <= i <= |name| && StartsWith(name[i..], "rev")
  }

  predicate HasAppLabel(labels: seq<string>) {
    exists i :: 0 <= i < |labels| && StartsWith(labels[i], "ae.app")
  }

  function SideOf(row: Row, mode: string): Side {
    if mode == "k3s" then System
    else if row.labels.Some? then if HasAppLabel(row.labels.value) then App else System
    else if StartsWith(row.name, "ae-") || HasRev(row.name) then App
    else System
  }

  // A row belongs to the application if it is not of k3s and carries one of the application's labels or, when the engine
  // does not know its labels, has a name of the application's form.
  lemma AppRows(row: Row, mode: string)
    ensures SideOf(row, mode) == App <==>
              && mode != "k3s"
              && match row.labels
                 case Some(labels) => exists l :: l in labels && "ae.app" <= l
                 case None => "ae-" <= row.name || exists i :: 0 <= i <= |row.name| && "rev" <= row.name[i..]
  {
    if row.labels.Some? {
      if i :| 0 <= i < |row.labels.value| && StartsWith(row.labels.value[i], "ae.app") {
        assert row.labels.value[i] in row.labels.value;
      }
      if l :| l in row.labels.value && "ae.app" <= l {
        var i :| 0 <= i < |row.labels.value| && row.labels.value[i] == l;
        assert StartsWith(row.labels.value[i], "ae.app");
      }
    } else if i :| 0 <= i <= |row.name| && "rev" <= row.name[i..] {
      assert StartsWith(row.name[i..], "rev");
    }
  }

  // The row was measured and belongs to the side.
  predicate On(row: Row, mode: string, side: Side) {
    row.mem >= 0 && SideOf(row, mode) == side
  }

  function Count(rows: seq<Row>, mode: string, side: Side): nat {
    if rows == [] then 0
    else Count(rows[..|rows| - 1], mode, side) + if On(rows[|rows| - 1], mode, side) then 1 else 0
  }

  // A row of the side names the control group.
  predicate Seen(rows: seq<Row>, mode: string, side: Side, path: string) {
    exists r :: r in rows && On(r, mode, side) && r.path == path
  }

  // What a row adds to the rows before it: nothing if its control group was counted already
  function Share(row: Row, before: seq<Row>, mode: string, side: Side): nat {
    if !On(row, mode, side) || (row.path != "" && Seen(before, mode, side, row.path)) then 0 else row.mem
  }

  // Every control group of the side counts with its first row, and every row without one counts.
  function Total(rows: seq<Row>, mode: string, side: Side): nat {
    if rows == [] then 0
    else Total(rows[..|rows| - 1], mode, side) + Share(rows[|rows| - 1], rows[..|rows| - 1], mode, side)
  }

  function NaiveSum(rows: seq<Row>, mode: string, side: Side): nat {
    if rows == [] then 0
    else NaiveSum(rows[..|rows| - 1], mode, side) + if On(rows[|rows| - 1], mode, side) then rows[|rows| - 1].mem else 0
  }

  // What the loop has seen: the control groups of the rows of the side.
  ghost predicate Knows(seen: set<string>, rows: seq<Row>, mode: string, side: Side) {
    forall path: string :: path in seen <==> path != "" && Seen(rows, mode, side, path)
  }

  lemma SeenMore(rows: seq<Row>, row: Row, mode: string, side: Side, path: string)
    ensures Seen(rows + [row], mode, side, path) <==> Seen(rows, mode, side, path) || (On(row, mode, side) && row.path == path)
  {
    hide On;
    if On(row, mode, side) && row.path == path {
      assert row in rows + [row];
    }
  }

  lemma KnowsMore(seen: set<string>, rows: seq<Row>, row: Row, mode: string, side: Side)
    requires Knows(seen, rows, mode, side)
    ensures Knows(if On(row, mode, side) && row.path != "" then seen + {row.path} else seen, rows + [row], mode, side)
  {
    hide On, Seen;
    forall path: string
      ensures Seen(rows + [row], mode, side, path) <==> Seen(rows, mode, side, path) || (On(row, mode, side) && row.path == path)
    {
      SeenMore(rows, row, mode, side, path);
    }
  }

  lemma KnowsAlready(seen: set<string>, path: string)
    requires path in seen
    ensures seen + {path} == seen
  {
  }

  lemma OneMore(rows: seq<Row>, row: Row, mode: string, side: Side)
    ensures Total(rows + [row], mode, side) == Total(rows, mode, side) + Share(row, rows, mode, side)
    ensures Count(rows + [row], mode, side) == Count(rows, mode, side) + if On(row, mode, side) then 1 else 0
  {
    hide On, Seen, Share;
    assert (rows + [row])[..|rows|] == rows;
  }

  // The side's part of the loop's state
  datatype Tally = Tally(bytes: nat, count: nat, seen: set<string>)

  ghost predicate Tallies(t: Tally, rows: seq<Row>, mode: string, side: Side) {
    t.bytes == Total(rows, mode, side) && t.count == Count(rows, mode, side) && Knows(t.seen, rows, mode, side)
  }

  // One row on its side
  method AddRow(t: Tally, row: Row, ghost rows: seq<Row>, ghost mode: string, ghost side: Side) returns (t': Tally)
    requires Tallies(t, rows, mode, side) && On(row, mode, side)
    ensures Tallies(t', rows + [row], mode, side)
  {
    hide On, Seen, Total, Count;
    OneMore(rows, row, mode, side);
    KnowsMore(t.seen, rows, row, mode, side);
    OnIsMeasured(row, mode, side);
    t' := t.(count := t.count + 1);
    if row.path != "" {
      if row.path in t'.seen {
        KnowsAlready(t.seen, row.path);
        return;
      }
      t' := t'.(seen := t'.seen + {row.path});
    }
    t' := t'.(bytes := t'.bytes + row.mem);
  }

  lemma OnIsMeasured(row: Row, mode: string, side: Side)
    requires On(row, mode, side)
    ensures row.mem >= 0
  {
  }

  lemma OtherRow(t: Tally, row: Row, rows: seq<Row>, mode: string, side: Side)
    requires Tallies(t, rows, mode, side) && !On(row, mode, side)
    ensures Tallies(t, rows + [row], mode, side)
  {
    hide On, Seen, Total, Count;
    OneMore(rows, row, mode, side);
    KnowsMore(t.seen, rows, row, mode, side);
  }

  lemma NoRows(mode: string, side: Side)
    ensures Tallies(Tally(0, 0, {}), [], mode, side)
  {
  }

  // The container loop of aggregate
  method AddContainers(rows: seq<Row>, mode: string) returns (app: Tally, system: Tally)
    ensures Tallies(app, rows, mode, App) && Tallies(system, rows, mode, System)
  {
    hide SideOf, Tallies;
    app, system := Tally(0, 0, {}), Tally(0, 0, {});
    NoRows(mode, App);
    NoRows(mode, System);
    assert rows[..0] == [];
    for i := 0 to |rows|
      invariant Tallies(app, rows[..i], mode, App) && Tallies(system, rows[..i], mode, System)
    {
      var row := rows[i];
      assert rows[..i + 1] == rows[..i] + [row];
      if row.mem < 0 {
        OtherRow(app, row, rows[..i], mode, App);
        OtherRow(system, row, rows[..i], mode, System);
        continue;
      }
      if SideOf(row, mode) == App {
        OtherRow(system, row, rows[..i], mode, System);
        app := AddRow(app, row, rows[..i], mode, App);
      } else {
        OtherRow(app, row, rows[..i], mode, App);
        system := AddRow(system, row, rows[..i], mode, System);
      }
    }
    assert rows[..|rows|] == rows;
  }

  lemma {:induction false} TotalIsAtMostNaive(rows: seq<Row>, mode: string, side: Side)
    ensures Total(rows, mode, side) <= NaiveSum(rows, mode, side)
  {
    hide SideOf, Seen;
    if rows != [] {
      TotalIsAtMostNaive(rows[..|rows| - 1], mode, side);
    }
  }

  // The order of the rows

  // Rows of the side that share a control group agree on its size.
  ghost predicate Agree(rows: seq<Row>, mode: string, side: Side) {
    forall a, b :: a in rows && b in rows && On(a, mode, side) && On(b, mode, side) && a.path == b.path != ""
      ==> a.mem == b.mem
  }

  function Without(rows: seq<Row>, i: nat): seq<Row>
    requires i < |rows|
  {
    rows[..i] + rows[i + 1..]
  }

  lemma WithoutHas(rows: seq<Row>, i: nat)
    requires i < |rows|
    ensures multiset(rows) == multiset(Without(rows, i)) + multiset{rows[i]}
    ensures forall r :: r in rows <==> r in Without(rows, i) || r == rows[i]
  {
    assert rows == rows[..i] + [rows[i]] + rows[i + 1..];
  }

  lemma SeenWithout(rows: seq<Row>, i: nat, mode: string, side: Side, path: string)
    requires i < |rows|
    ensures Seen(rows, mode, side, path)
       <==> Seen(Without(rows, i), mode, side, path) || (On(rows[i], mode, side) && rows[i].path == path)
  {
    hide On, Without;
    WithoutHas(rows, i);
  }

  lemma AgreeOnFewer(rows: seq<Row>, fewer: seq<Row>, mode: string, side: Side)
    requires Agree(rows, mode, side) && forall r :: r in fewer ==> r in rows
    ensures Agree(fewer, mode, side)
  {
    hide On;
  }

  // Any row may be taken for the last one.
  lemma {:induction false} AnyRowLast(rows: seq<Row>, i: nat, mode: string, side: Side)
    requires i < |rows| && Agree(rows, mode, side)
    ensures Total(rows, mode, side) == Total(Without(rows, i), mode, side) + Share(rows[i], Without(rows, i), mode, side)
    decreases |rows|
  {
    hide On, Seen, Share, Agree;
    var n := |rows| - 1;
    var x, before := rows[n], rows[..n];
    if i == n {
      assert Without(rows, i) == before;
    } else {
      AgreeOnFewer(rows, before, mode, side);
      AnyRowLast(before, i, mode, side);
      assert Without(rows, i) == Without(before, i) + [x];
      OneMore(Without(before, i), x, mode, side);
      Swap(Without(before, i), rows[i], x, before, rows, mode, side, i);
    }
  }

  // Two rows add the same in either order.
  lemma Swap(rest: seq<Row>, r: Row, x: Row, before: seq<Row>, rows: seq<Row>, mode: string, side: Side, i: nat)
    requires Agree(rows, mode, side) && r in rows && x in rows
    requires i < |before| && before[i] == r && rest == Without(before, i)
    ensures Share(r, rest, mode, side) + Share(x, before, mode, side)
         == Share(x, rest, mode, side) + Share(r, rest + [x], mode, side)
  {
    hide On, Seen, Without;
    SeenWithout(before, i, mode, side, x.path);
    SeenMore(rest, x, mode, side, r.path);
  }

  // The totals do not depend on the order of the rows.
  lemma {:induction false} OrderDoesNotMatter(a: seq<Row>, b: seq<Row>, mode: string, side: Side)
    requires multiset(a) == multiset(b) && Agree(a, mode, side)
    ensures Total(a, mode, side) == Total(b, mode, side)
    decreases |a|, 1
  {
    hide On, Seen, Share, Agree, Total, Without;
    if a == [] {
      assert b == [] by {
        assert |multiset(b)| == 0;
      }
    } else {
      var n := |a| - 1;
      var i := Position(a, b);
      SameRows(a, b);
      AgreeOnFewer(a, b, mode, side);
      AnyRowLast(a, n, mode, side);
      AnyRowLast(b, i, mode, side);
      WithoutHas(a, n);
      WithoutHas(b, i);
      Cancel(multiset(Without(a, n)), multiset(Without(b, i)), a[n]);
      AgreeOnFewer(a, Without(a, n), mode, side);
      OrderDoesNotMatterFewer(a, b, n, i, mode, side);
    }
  }

  lemma OrderDoesNotMatterFewer(a: seq<Row>, b: seq<Row>, n: nat, i: nat, mode: string, side: Side)
    requires n < |a| && i < |b| && a[n] == b[i] && Agree(Without(a, n), mode, side)
    requires multiset(Without(a, n)) == multiset(Without(b, i))
    ensures Total(Without(a, n), mode, side) == Total(Without(b, i), mode, side)
    ensures Share(a[n], Without(a, n), mode, side) == Share(b[i], Without(b, i), mode, side)
    decreases |a|, 0
  {
    assert |Without(a, n)| == |a| - 1;
    hide On, Agree, Total, Without;
    OrderDoesNotMatter(Without(a, n), Without(b, i), mode, side);
    SameRows(Without(a, n), Without(b, i));
  }

  lemma Cancel(m: multiset<Row>, k: multiset<Row>, r: Row)
    requires m + multiset{r} == k + multiset{r}
    ensures m == k
  {
    assert m == (m + multiset{r}) - multiset{r};
    assert k == (k + multiset{r}) - multiset{r};
  }

  lemma Position(a: seq<Row>, b: seq<Row>) returns (i: nat)
    requires multiset(a) == multiset(b) && a != []
    ensures i < |b| && b[i] == a[|a| - 1]
  {
    assert a[|a| - 1] in multiset(b);
    i :| i < |b| && b[i] == a[|a| - 1];
  }

  lemma SameRows(a: seq<Row>, b: seq<Row>)
    requires multiset(a) == multiset(b)
    ensures forall r :: r in a <==> r in b
  {
    assert forall r :: r in a <==> r in multiset(a);
  }
}
