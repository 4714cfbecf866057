/**
 Signed rows and their consolidation (`DeltaBatch::net_rows` in crates/velorix-core/src/delta.rs),
 and the row count of a published output (`standing_runtime_published_output_row_count` in
 crates/velorix-api/src/checkpoint_publication.rs).

 A key and value pair is an integer: its position in the order of the binary encoding.
 */
module Deltas {
  import opened Wrappers

  const I64_MIN := -0x8000_0000_0000_0000
  const I64_MAX := 0x7FFF_FFFF_FFFF_FFFF
  const USIZE_MAX := 0xFFFF_FFFF_FFFF_FFFF

  newtype Weight64 = x: int | -0x8000_0000_0000_0000 <= x <= 0x7FFF_FFFF_FFFF_FFFF

  datatype Row = Row(pair: int, weight: Weight64)

  // A sum for one pair, kept wide.
  datatype Entry = Entry(pair: int, sum: int)

  predicate FitsI64(x: int) {
    I64_MIN <= x <= I64_MAX
  }

  // The multiplicity of a pair in a batch.
  ghost function Weight(rows: seq<Row>, pair: int): int {
    if rows == [] then 0
    else Weight(rows[..|rows| - 1], pair) + if rows[|rows| - 1].pair == pair then rows[|rows| - 1].weight as int else 0
  }

  ghost function Total(rows: seq<Row>): int {
    if rows == [] then 0 else Total(rows[..|rows| - 1]) + rows[|rows| - 1].weight as int
  }

  lemma {:induction false} WeightConcat(a: seq<Row>, b: seq<Row>, pair: int)
    ensures Weight(a + b, pair) == Weight(a, pair) + Weight(b, pair)
    decreases |b|
  {
    if b == [] {
      assert a + b == a;
    } else {
      var front := b[..|b| - 1];
      assert (a + b)[..|a + b| - 1] == a + front;
      WeightConcat(a, front, pair);
    }
  }

  // The same bag of signed rows.
  ghost predicate SameBag(a: seq<Row>, b: seq<Row>) {
    forall pair :: Weight(a, pair) == Weight(b, pair)
  }

  // Consolidated form: pairs ascend and no weight is zero.
  ghost predicate Normal(rows: seq<Row>) {
    && (forall i, j :: 0 <= i < j < |rows| ==> rows[i].pair < rows[j].pair)
    && (forall i :: 0 <= i < |rows| ==> rows[i].weight != 0)
  }

  lemma {:induction false} NormalWeight(rows: seq<Row>, pair: int)
    requires Normal(rows)
    ensures (exists i :: 0 <= i < |rows| && rows[i].pair == pair) || Weight(rows, pair) == 0
    ensures forall i :: 0 <= i < |rows| && rows[i].pair == pair ==> Weight(rows, pair) == rows[i].weight as int
    decreases |rows|
  {
    if rows != [] {
      var front := rows[..|rows| - 1];
      NormalWeight(front, pair);
      if i :| 0 <= i < |front| && front[i].pair == pair {
        assert rows[i] == front[i];
      }
    }
  }

  // A bag has one consolidated form.
  lemma {:induction false} NormalIsUnique(a: seq<Row>, b: seq<Row>)
    requires Normal(a) && Normal(b) && SameBag(a, b)
    ensures a == b
    decreases |a|
  {
    if a == [] && b == [] {
    } else if a == [] || b == [] {
      var c := if a == [] then b else a;
      NormalWeight(c, c[0].pair);
      assert false;
    } else {
      LastPairsAgree(a, b);
      var x, y := a[..|a| - 1], b[..|b| - 1];
      forall pair ensures Weight(x, pair) == Weight(y, pair) {
        assert Weight(a, pair) == Weight(b, pair);
      }
      NormalIsUnique(x, y);
      assert a == x + [a[|a| - 1]] && b == y + [b[|b| - 1]];
    }
  }

  lemma LastPairsAgree(a: seq<Row>, b: seq<Row>)
    requires Normal(a) && Normal(b) && SameBag(a, b) && a != [] && b != []
    ensures a[|a| - 1] == b[|b| - 1]
  {
    var p, q := a[|a| - 1], b[|b| - 1];
    NormalWeight(a, p.pair);
    NormalWeight(b, p.pair);
    NormalWeight(a, q.pair);
    NormalWeight(b, q.pair);
    assert Weight(a, p.pair) == Weight(b, p.pair) && Weight(a, q.pair) == Weight(b, q.pair);
  }

  // ---------------------------------------------------------------- consolidation

  ghost predicate Ascends(net: seq<Entry>) {
    forall i, j :: 0 <= i < j < |net| ==> net[i].pair < net[j].pair
  }

  ghost predicate HasEntry(net: seq<Entry>, pair: int) {
    exists i :: 0 <= i < |net| && net[i].pair == pair
  }

  ghost function Sum(net: seq<Entry>): int {
    if net == [] then 0 else Sum(net[..|net| - 1]) + net[|net| - 1].sum
  }

  // The entries hold the sums of the rows seen, one entry for each pair seen.
  ghost predicate Holds(net: seq<Entry>, rows: seq<Row>) {
    && (forall i :: 0 <= i < |net| ==> net[i].sum == Weight(rows, net[i].pair))
    && (forall pair :: Weight(rows, pair) != 0 ==> HasEntry(net, pair))
    && Sum(net) == Total(rows)
  }

  lemma {:induction false} SumConcat(a: seq<Entry>, b: seq<Entry>)
    ensures Sum(a + b) == Sum(a) + Sum(b)
    decreases |b|
  {
    if b == [] {
      assert a + b == a;
    } else {
      var front := b[..|b| - 1];
      assert (a + b)[..|a + b| - 1] == a + front;
      SumConcat(a, front);
    }
  }

  // The first entry not below a pair.
  method FindEntry(net: seq<Entry>, pair: int) returns (k: nat)
    requires Ascends(net)
    ensures k <= |net|
    ensures forall i :: 0 <= i < k ==> net[i].pair < pair
    ensures forall i :: k <= i < |net| ==> pair <= net[i].pair
  {
    k := 0;
    while k < |net| && net[k].pair < pair
      invariant 0 <= k <= |net|
      invariant forall i :: 0 <= i < k ==> net[i].pair < pair
    {
      k := k + 1;
    }
  }

  lemma ReplaceSum(net: seq<Entry>, k: nat, e: Entry)
    requires k < |net|
    ensures Sum(net[k := e]) == Sum(net) - net[k].sum + e.sum
  {
    assert net == net[..k] + ([net[k]] + net[k + 1..]);
    assert net[k := e] == net[..k] + ([e] + net[k + 1..]);
    SumConcat(net[..k], [net[k]] + net[k + 1..]);
    SumConcat(net[..k], [e] + net[k + 1..]);
    SumConcat([net[k]], net[k + 1..]);
    SumConcat([e], net[k + 1..]);
    assert [net[k]][..0] == [] && [e][..0] == [];
  }

  lemma InsertSum(net: seq<Entry>, k: nat, e: Entry)
    requires k <= |net|
    ensures Sum(net[..k] + [e] + net[k..]) == Sum(net) + e.sum
  {
    assert net == net[..k] + net[k..];
    SumConcat(net[..k], net[k..]);
    SumConcat(net[..k] + [e], net[k..]);
    SumConcat(net[..k], [e]);
    assert [e][..0] == [];
  }

  // The rows seen so far with one more.
  lemma SeenNext(rows: seq<Row>, n: nat)
    requires n < |rows|
    ensures rows[..n + 1][..n] == rows[..n]
    ensures Total(rows[..n + 1]) == Total(rows[..n]) + rows[n].weight as int
    ensures forall pair :: Weight(rows[..n + 1], pair)
                           == Weight(rows[..n], pair) + if rows[n].pair == pair then rows[n].weight as int else 0
  {
    assert rows[..n + 1][..|rows[..n + 1]| - 1] == rows[..n] && rows[..n + 1][|rows[..n + 1]| - 1] == rows[n];
  }

  // Every pair with a sum has an entry once the new row's pair has one.
  lemma EntriesCover(net: seq<Entry>, r: seq<Entry>, rows: seq<Row>, n: nat)
    requires n < |rows| && Holds(net, rows[..n]) && HasEntry(r, rows[n].pair)
    requires forall i :: 0 <= i < |net| ==> HasEntry(r, net[i].pair)
    ensures forall pair :: Weight(rows[..n + 1], pair) != 0 ==> HasEntry(r, pair)
  {
    SeenNext(rows, n);
    forall pair | Weight(rows[..n + 1], pair) != 0 ensures HasEntry(r, pair) {
      if pair != rows[n].pair {
        assert Weight(rows[..n], pair) != 0;
        assert HasEntry(net, pair);
      }
    }
  }

  lemma ReplaceHolds(net: seq<Entry>, k: nat, rows: seq<Row>, n: nat, e: Entry)
    requires n < |rows| && Ascends(net) && Holds(net, rows[..n]) && k < |net|
    requires net[k].pair == rows[n].pair && e == Entry(rows[n].pair, net[k].sum + rows[n].weight as int)
    ensures Ascends(net[k := e]) && Holds(net[k := e], rows[..n + 1])
  {
    var r := net[k := e];
    SeenNext(rows, n);
    ReplaceSum(net, k, e);
    assert r[k].pair == rows[n].pair;
    forall i | 0 <= i < |net| ensures HasEntry(r, net[i].pair) {
      assert r[i].pair == net[i].pair;
    }
    EntriesCover(net, r, rows, n);
  }

  // What is where after an insertion.
  lemma InsertAt(net: seq<Entry>, k: nat, e: Entry, i: nat)
    requires k <= |net| && i <= |net|
    ensures var r := net[..k] + [e] + net[k..];
            |r| == |net| + 1 && r[i] == if i < k then net[i] else if i == k then e else net[i - 1]
  {
  }

  lemma InsertAscends(net: seq<Entry>, k: nat, e: Entry)
    requires Ascends(net) && k <= |net|
    requires forall i :: 0 <= i < k ==> net[i].pair < e.pair
    requires forall i :: k <= i < |net| ==> e.pair < net[i].pair
    ensures Ascends(net[..k] + [e] + net[k..])
  {
    var r := net[..k] + [e] + net[k..];
    forall i, j | 0 <= i < j < |r| ensures r[i].pair < r[j].pair {
      InsertAt(net, k, e, i);
      InsertAt(net, k, e, j);
    }
  }

  lemma InsertHolds(net: seq<Entry>, k: nat, rows: seq<Row>, n: nat, e: Entry)
    requires n < |rows| && Holds(net, rows[..n]) && k <= |net| && !HasEntry(net, e.pair)
    requires e == Entry(rows[n].pair, rows[n].weight as int)
    ensures Holds(net[..k] + [e] + net[k..], rows[..n + 1])
  {
    var r := net[..k] + [e] + net[k..];
    SeenNext(rows, n);
    InsertSum(net, k, e);
    assert Weight(rows[..n], e.pair) == 0;
    forall i | 0 <= i < |r| ensures r[i].sum == Weight(rows[..n + 1], r[i].pair) {
      InsertAt(net, k, e, i);
      if i != k {
        var m := if i < k then i else i - 1;
        assert net[m].pair != e.pair && net[m].sum == Weight(rows[..n], net[m].pair);
      }
    }
    InsertAt(net, k, e, k);
    assert HasEntry(r, e.pair);
    forall i | 0 <= i < |net| ensures HasEntry(r, net[i].pair) {
      InsertAt(net, k, e, if i < k then i else i + 1);
    }
    EntriesCover(net, r, rows, n);
  }

  // Adds one row to the entries.
  method Accumulate(net: seq<Entry>, rows: seq<Row>, n: nat) returns (r: seq<Entry>)
    requires n < |rows| && Ascends(net) && Holds(net, rows[..n])
    ensures Ascends(r) && Holds(r, rows[..n + 1])
  {
    var row := rows[n];
    var k := FindEntry(net, row.pair);
    if k < |net| && net[k].pair == row.pair {
      var e := Entry(row.pair, net[k].sum + row.weight as int);
      ReplaceHolds(net, k, rows, n, e);
      r := net[k := e];
    } else {
      var e := Entry(row.pair, row.weight as int);
      InsertAscends(net, k, e);
      InsertHolds(net, k, rows, n, e);
      r := net[..k] + [e] + net[k..];
    }
  }

  // Sums the weights of each pair. It fails exactly when some sum leaves the 64-bit range.
  method NetRows(rows: seq<Row>) returns (r: Option<seq<Row>>)
    ensures r.Some? <==> forall pair :: FitsI64(Weight(rows, pair))
    ensures r.Some? ==> Normal(r.value) && SameBag(r.value, rows) && Total(r.value) == Total(rows)
  {
    var net: seq<Entry> := [];
    var n := 0;
    while n < |rows|
      invariant 0 <= n <= |rows|
      invariant Ascends(net) && Holds(net, rows[..n])
    {
      net := Accumulate(net, rows, n);
      n := n + 1;
    }
    assert rows[..n] == rows;
    r := Narrow(net, rows);
  }

  ghost predicate AllFit(net: seq<Entry>) {
    forall i :: 0 <= i < |net| ==> FitsI64(net[i].sum)
  }

  // The entries with a non-zero sum, as rows.
  ghost function NonZero(net: seq<Entry>): seq<Row>
    requires AllFit(net)
  {
    if net == [] then []
    else
      var e := net[|net| - 1];
      NonZero(net[..|net| - 1]) + if e.sum == 0 then [] else [Row(e.pair, e.sum as Weight64)]
  }

  lemma {:induction false} NonZeroTotal(net: seq<Entry>)
    requires AllFit(net)
    ensures Total(NonZero(net)) == Sum(net)
    decreases |net|
  {
    if net != [] {
      var front, e := net[..|net| - 1], net[|net| - 1];
      NonZeroTotal(front);
      if e.sum == 0 {
        assert NonZero(net) == NonZero(front);
      } else {
        assert NonZero(net)[..|NonZero(net)| - 1] == NonZero(front);
      }
    }
  }

  // The rows of ascending entries ascend and end no later than the entries.
  lemma {:induction false} NonZeroIsNormal(net: seq<Entry>)
    requires Ascends(net) && AllFit(net)
    ensures Normal(NonZero(net))
    ensures net != [] ==> Within(NonZero(net), net[|net| - 1].pair)
    ensures net == [] ==> NonZero(net) == []
    decreases |net|
  {
    if net != [] {
      var front, e := net[..|net| - 1], net[|net| - 1];
      NonZeroIsNormal(front);
      if front != [] {
        assert front[|front| - 1].pair < e.pair;
      }
      AppendNormal(NonZero(front), e.pair, if e.sum == 0 then [] else [Row(e.pair, e.sum as Weight64)]);
    }
  }

  ghost predicate Within(rows: seq<Row>, last: int) {
    forall i :: 0 <= i < |rows| ==> rows[i].pair <= last
  }

  lemma AppendNormal(rows: seq<Row>, last: int, more: seq<Row>)
    requires Normal(rows) && forall i :: 0 <= i < |rows| ==> rows[i].pair < last
    requires more == [] || (|more| == 1 && more[0].pair == last && more[0].weight != 0)
    ensures Normal(rows + more) && Within(rows + more, last)
  {
  }

  lemma NonZeroStep(net: seq<Entry>, pair: int)
    requires AllFit(net) && net != []
    ensures var front, e := net[..|net| - 1], net[|net| - 1];
            Weight(NonZero(net), pair) == Weight(NonZero(front), pair) + if e.pair == pair then e.sum else 0
  {
    var front, e := net[..|net| - 1], net[|net| - 1];
    if e.sum == 0 {
      assert NonZero(net) == NonZero(front);
    } else {
      assert NonZero(net)[..|NonZero(net)| - 1] == NonZero(front);
    }
  }

  lemma {:induction false} NonZeroAbsent(net: seq<Entry>, pair: int)
    requires AllFit(net) && !HasEntry(net, pair)
    ensures Weight(NonZero(net), pair) == 0
    decreases |net|
  {
    if net != [] {
      NonZeroStep(net, pair);
      NonZeroAbsent(net[..|net| - 1], pair);
    }
  }

  lemma {:induction false} NonZeroWeight(net: seq<Entry>, i: nat)
    requires Ascends(net) && AllFit(net) && i < |net|
    ensures Weight(NonZero(net), net[i].pair) == net[i].sum
    decreases |net|
  {
    var front := net[..|net| - 1];
    NonZeroStep(net, net[i].pair);
    if i == |net| - 1 {
      NonZeroAbsent(front, net[i].pair);
    } else {
      NonZeroWeight(front, i);
    }
  }

  // Drops the zero sums and narrows the others.
  method Narrow(net: seq<Entry>, ghost rows: seq<Row>) returns (r: Option<seq<Row>>)
    requires Ascends(net) && Holds(net, rows)
    ensures r.Some? <==> forall pair :: FitsI64(Weight(rows, pair))
    ensures r.Some? ==> Normal(r.value) && SameBag(r.value, rows) && Total(r.value) == Total(rows)
  {
    var out: seq<Row> := [];
    var n := 0;
    while n < |net|
      invariant 0 <= n <= |net|
      invariant AllFit(net[..n]) && out == NonZero(net[..n])
    {
      var e := net[n];
      if !FitsI64(e.sum) {
        assert !FitsI64(Weight(rows, e.pair));
        return None;
      }
      assert net[..n + 1][..n] == net[..n];
      if e.sum != 0 {
        out := out + [Row(e.pair, e.sum as Weight64)];
      }
      n := n + 1;
    }
    assert net[..n] == net;
    NonZeroIsNormal(net);
    NonZeroTotal(net);
    NonZeroIsBag(net, rows);
    r := Some(out);
  }

  lemma NonZeroIsBag(net: seq<Entry>, rows: seq<Row>)
    requires Ascends(net) && Holds(net, rows) && AllFit(net)
    ensures SameBag(NonZero(net), rows)
    ensures forall pair :: FitsI64(Weight(rows, pair))
  {
    forall pair ensures Weight(NonZero(net), pair) == Weight(rows, pair) && FitsI64(Weight(rows, pair)) {
      if HasEntry(net, pair) {
        var i :| 0 <= i < |net| && net[i].pair == pair;
        NonZeroWeight(net, i);
      } else {
        NonZeroAbsent(net, pair);
      }
    }
  }

  // ---------------------------------------------------------------- row count

  lemma {:induction false} PositiveWeightIsBounded(rows: seq<Row>, pair: int)
    requires forall i :: 0 <= i < |rows| ==> 0 < rows[i].weight
    ensures 0 <= Weight(rows, pair) <= Total(rows)
    decreases |rows|
  {
    if rows != [] {
      PositiveWeightIsBounded(rows[..|rows| - 1], pair);
    }
  }

  lemma {:induction false} TotalGrows(rows: seq<Row>, n: nat)
    requires n <= |rows| && forall i :: 0 <= i < |rows| ==> 0 < rows[i].weight
    ensures Total(rows[..n]) <= Total(rows)
    decreases |rows|
  {
    if n < |rows| {
      assert rows[..|rows| - 1][..n] == rows[..n];
      TotalGrows(rows[..|rows| - 1], n);
    } else {
      assert rows[..n] == rows;
    }
  }

  // Counts the rows of a materialized output without consolidating it. The answer is the
  // same as if it had been consolidated: it is accepted exactly when every weight is positive,
  // the count fits, and no consolidated weight leaves the 64-bit range.
  method OutputRowCount(rows: seq<Row>) returns (r: Option<nat>)
    ensures r.Some? <==>
      && (forall i :: 0 <= i < |rows| ==> 0 < rows[i].weight)
      && Total(rows) <= USIZE_MAX
      && forall pair :: FitsI64(Weight(rows, pair))
    ensures r.Some? ==> r.value == Total(rows)
  {
    var count := 0;
    var n := 0;
    assert rows[..0] == [];
    while n < |rows|
      invariant 0 <= n <= |rows|
      invariant forall i :: 0 <= i < n ==> 0 < rows[i].weight
      invariant 0 <= count <= USIZE_MAX && count == Total(rows[..n])
    {
      if rows[n].weight <= 0 {
        return None;
      }
      SeenNext(rows, n);
      count := count + rows[n].weight as int;
      n := n + 1;
      if count > USIZE_MAX {
        if forall i :: 0 <= i < |rows| ==> 0 < rows[i].weight {
          TotalGrows(rows, n);
        }
        return None;
      }
    }
    assert rows[..n] == rows;
    if count > I64_MAX {
      var net := NetRows(rows);
      if net.None? {
        return None;
      }
    } else {
      forall pair ensures FitsI64(Weight(rows, pair)) {
        PositiveWeightIsBounded(rows, pair);
      }
    }
    r := Some(count);
  }
}
