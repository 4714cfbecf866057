/**
 Importing an eager checkpoint into demand materialization: the authoritative source inventory
 (`demand_source_artifacts_from_cuts` in crates/velorix-api/src/demand_source.rs) and the check
 that it tiles every frontier of the checkpoint (`validate_source_prefixes` in
 crates/velorix-api/src/demand_migration.rs).
 */
module Migration {
  import opened Wrappers
  import opened Spans
  import opened Coverage

  // `current` is set when the publication has the declared schema of its relation.
  datatype Item = Item(part: Partition, start: nat, end: nat, current: bool)

  datatype Range = Range(start: nat, end: nat, current: bool)

  // The captured publications of one source partition.
  datatype PartitionCut = PartitionCut(part: Partition, base: nat, committed: nat, publications: seq<Range>)

  datatype Frontier = Frontier(part: Partition, offset: nat, declared: bool)

  // ---------------------------------------------------------------- the authoritative inventory

  // Publications follow each other from the base to the committed offset.
  ghost predicate Contiguous(pubs: seq<Range>, from: nat, to: nat) {
    if pubs == [] then from == to
    else pubs[0].start == from && from < pubs[0].end && Contiguous(pubs[1..], pubs[0].end, to)
  }

  // Items of one partition come in order and do not overlap.
  ghost predicate InOrder(items: seq<Item>) {
    && (forall i :: 0 <= i < |items| ==> items[i].start < items[i].end)
    && (forall i, j :: 0 <= i < j < |items| && items[i].part == items[j].part ==> items[i].end <= items[j].start)
  }

  // Each partition occurs once, and its publications are contiguous up to its committed offset.
  ghost predicate CutsOk(cuts: seq<PartitionCut>, seen: set<Partition>) {
    cuts == [] ||
    (&& cuts[0].part !in seen && Contiguous(cuts[0].publications, cuts[0].base, cuts[0].committed)
     && CutsOk(cuts[1..], seen + {cuts[0].part}))
  }

  function ItemOf(cut: PartitionCut, r: Range): Item {
    Item(cut.part, r.start, r.end, r.current)
  }

  function CutItemsOf(cut: PartitionCut): seq<Item> {
    seq(|cut.publications|, i requires 0 <= i < |cut.publications| => ItemOf(cut, cut.publications[i]))
  }

  // The publications of all partitions, partition by partition.
  function AllItems(cuts: seq<PartitionCut>): seq<Item> {
    if cuts == [] then [] else AllItems(cuts[..|cuts| - 1]) + CutItemsOf(cuts[|cuts| - 1])
  }

  // Everything listed belongs to the partitions seen, and lies below an offset in the last one.
  ghost predicate Listed(items: seq<Item>, seen: set<Partition>, last: Partition, upTo: nat) {
    && InOrder(items)
    && (forall i :: 0 <= i < |items| ==> items[i].part in seen && (items[i].part == last ==> items[i].end <= upTo))
  }

  method CutItems(items: seq<Item>, cut: PartitionCut, ghost seen: set<Partition>) returns (r: Option<seq<Item>>)
    requires InOrder(items) && cut.part !in seen && forall i :: 0 <= i < |items| ==> items[i].part in seen
    ensures r.Some? <==> Contiguous(cut.publications, cut.base, cut.committed)
    ensures r.Some? ==>
      InOrder(r.value) && r.value == items + CutItemsOf(cut)
  {
    var out := items;
    var frontier := cut.base;
    var pubs := cut.publications;
    var i := 0;
    assert pubs[0..] == pubs;
    while i < |pubs|
      invariant 0 <= i <= |pubs|
      invariant Contiguous(pubs, cut.base, cut.committed) <==> Contiguous(pubs[i..], frontier, cut.committed)
      invariant Listed(out, seen + {cut.part}, cut.part, frontier)
      invariant out == items + CutItemsOf(cut)[..i]
    {
      var p := pubs[i];
      assert pubs[i..][0] == p && pubs[i..][1..] == pubs[i + 1..];
      if p.start != frontier || p.start >= p.end {
        return None;
      }
      frontier := p.end;
      out := out + [ItemOf(cut, p)];
      i := i + 1;
    }
    assert pubs[i..] == [];
    r := if frontier == cut.committed then Some(out) else None;
  }

  // Lists the publications of all partitions, when the cuts are in order.
  method ItemsFromCuts(cuts: seq<PartitionCut>) returns (r: Option<seq<Item>>)
    ensures r.Some? <==> CutsOk(cuts, {})
    ensures r.Some? ==> InOrder(r.value) && r.value == AllItems(cuts)
  {
    var items: seq<Item> := [];
    var seen: set<Partition> := {};
    var i := 0;
    assert cuts[0..] == cuts;
    while i < |cuts|
      invariant 0 <= i <= |cuts|
      invariant CutsOk(cuts, {}) <==> CutsOk(cuts[i..], seen)
      invariant InOrder(items) && items == AllItems(cuts[..i]) && forall k :: 0 <= k < |items| ==> items[k].part in seen
    {
      assert cuts[..i + 1][..i] == cuts[..i] && cuts[i..][0] == cuts[i] && cuts[i..][1..] == cuts[i + 1..];
      if cuts[i].part in seen {
        return None;
      }
      var more := CutItems(items, cuts[i], seen);
      if more.None? {
        return None;
      }
      items := more.value;
      seen := seen + {cuts[i].part};
      i := i + 1;
    }
    assert cuts[..i] == cuts;
    r := Some(items);
  }

  // ---------------------------------------------------------------- one frontier

  ghost predicate Ascending(items: seq<Item>) {
    forall i, j :: 0 <= i < j < |items| ==> items[i].start <= items[j].start
  }

  // A stable sort by start offset.
  method SortByStart(items: seq<Item>) returns (r: seq<Item>)
    ensures Ascending(r) && multiset(r) == multiset(items)
    ensures Ascending(items) ==> r == items
  {
    r := [];
    var i := 0;
    while i < |items|
      invariant 0 <= i <= |items|
      invariant Ascending(r) && multiset(r) == multiset(items[..i])
      invariant Ascending(items) ==> r == items[..i]
    {
      assert items[..i + 1] == items[..i] + [items[i]];
      r := InsertByStart(r, items[i]);
      i := i + 1;
    }
    assert items[..i] == items;
  }

  method InsertByStart(sorted: seq<Item>, x: Item) returns (r: seq<Item>)
    requires Ascending(sorted)
    ensures Ascending(r) && multiset(r) == multiset(sorted) + multiset{x}
    ensures (forall i :: 0 <= i < |sorted| ==> sorted[i].start <= x.start) ==> r == sorted + [x]
  {
    var k := FirstAbove(sorted, x.start);
    InsertAscends(sorted, k, x);
    InsertBag(sorted, k, x);
    assert k == |sorted| ==> sorted[..k] == sorted && sorted[k..] == [];
    r := sorted[..k] + [x] + sorted[k..];
  }

  method FirstAbove(sorted: seq<Item>, start: nat) returns (k: nat)
    requires Ascending(sorted)
    ensures k <= |sorted|
    ensures forall i :: 0 <= i < k ==> sorted[i].start <= start
    ensures forall i :: k <= i < |sorted| ==> start < sorted[i].start
  {
    k := |sorted|;
    while k > 0 && sorted[k - 1].start > start
      invariant 0 <= k <= |sorted|
      invariant forall i :: k <= i < |sorted| ==> start < sorted[i].start
    {
      k := k - 1;
    }
  }

  lemma InsertBag(sorted: seq<Item>, k: nat, x: Item)
    requires k <= |sorted|
    ensures multiset(sorted[..k] + [x] + sorted[k..]) == multiset(sorted) + multiset{x}
  {
    assert sorted == sorted[..k] + sorted[k..];
  }

  lemma InsertAscends(sorted: seq<Item>, k: nat, x: Item)
    requires Ascending(sorted) && k <= |sorted|
    requires forall i :: 0 <= i < k ==> sorted[i].start <= x.start
    requires forall i :: k <= i < |sorted| ==> x.start < sorted[i].start
    ensures Ascending(sorted[..k] + [x] + sorted[k..])
  {
    var r := sorted[..k] + [x] + sorted[k..];
    forall i, j | 0 <= i < j < |r| ensures r[i].start <= r[j].start {
      assert r[i] == if i < k then sorted[i] else if i == k then x else sorted[i - 1];
      assert r[j] == if j < k then sorted[j] else if j == k then x else sorted[j - 1];
    }
  }

  // Consecutive publications lead from one offset to another.
  ghost predicate Tiles(items: seq<Item>, from: nat, to: nat) {
    from == to ||
    (items != [] && items[0].current && items[0].start == from && items[0].end <= to && Tiles(items[1..], items[0].end, to))
  }

  ghost predicate Over(x: Item, o: nat) {
    x.current && x.start <= o < x.end
  }

  ghost predicate Lies(items: seq<Item>, o: nat) {
    exists i :: 0 <= i < |items| && Over(items[i], o)
  }

  // Every offset up to the frontier lies in a current publication, and none straddles it.
  ghost predicate Filled(items: seq<Item>, from: nat, to: nat) {
    && from <= to
    && (forall o: nat :: from <= o < to ==> Lies(items, o))
    && (forall i :: 0 <= i < |items| ==> items[i].end <= to || to <= items[i].start)
  }

  ghost predicate Chain(items: seq<Item>, from: nat) {
    && (forall i :: 0 <= i < |items| ==> from <= items[i].start < items[i].end)
    && (forall i, j :: 0 <= i < j < |items| ==> items[i].end <= items[j].start)
  }

  lemma {:induction false} TilesIsFilled(items: seq<Item>, from: nat, to: nat)
    requires Chain(items, from)
    ensures Tiles(items, from, to) <==> Filled(items, from, to)
    decreases |items|
  {
    if from < to && items != [] && items[0].start == from && items[0].end <= to && items[0].current {
      var rest := items[1..];
      assert Chain(rest, items[0].end);
      TilesIsFilled(rest, items[0].end, to);
      FilledStep(items, from, to);
    } else if from < to {
      if Filled(items, from, to) {
        FirstIsOver(items, from, to);
      }
    }
  }

  // The first offset lies in the first publication.
  lemma FirstIsOver(items: seq<Item>, from: nat, to: nat)
    requires Chain(items, from) && Filled(items, from, to) && from < to
    ensures items != [] && items[0].start == from && items[0].end <= to && items[0].current
  {
    assert Lies(items, from);
    var i :| 0 <= i < |items| && Over(items[i], from);
    assert from < items[0].end;
  }

  lemma FilledStep(items: seq<Item>, from: nat, to: nat)
    requires Chain(items, from) && items != [] && items[0].start == from && items[0].end <= to && items[0].current
    ensures Filled(items, from, to) <==> Filled(items[1..], items[0].end, to)
  {
    var rest, end := items[1..], items[0].end;
    if Filled(items, from, to) {
      forall o: nat | end <= o < to ensures Lies(rest, o) {
        assert Lies(items, o);
        var i :| 0 <= i < |items| && Over(items[i], o);
        assert rest[i - 1] == items[i];
      }
    }
    if Filled(rest, end, to) {
      forall o: nat | from <= o < to ensures Lies(items, o) {
        if o < end {
          assert Over(items[0], o);
        } else {
          assert Lies(rest, o);
          var i :| 0 <= i < |rest| && Over(rest[i], o);
          assert items[i + 1] == rest[i];
        }
      }
      forall i | 0 <= i < |items| ensures items[i].end <= to || to <= items[i].start {
        if i > 0 {
          assert items[i] == rest[i - 1];
        }
      }
    }
  }

  // Follows the publications of a partition from zero. It accepts exactly a frontier below
  // which they leave no gap and which splits none of them.
  method FollowPrefix(items: seq<Item>, frontier: nat) returns (ok: bool)
    requires Chain(items, 0)
    ensures ok <==> Filled(items, 0, frontier)
  {
    TilesIsFilled(items, 0, frontier);
    var end := 0;
    var i := 0;
    assert items[0..] == items;
    while i < |items| && end != frontier
      invariant 0 <= i <= |items|
      invariant Tiles(items, 0, frontier) <==> Tiles(items[i..], end, frontier)
    {
      var x := items[i];
      assert items[i..][0] == x && items[i..][1..] == items[i + 1..];
      if !x.current || x.start != end || x.end > frontier {
        return false;
      }
      end := x.end;
      i := i + 1;
    }
    ok := end == frontier;
  }

  // ---------------------------------------------------------------- the whole checkpoint

  ghost function OfPart(items: seq<Item>, part: Partition): seq<Item> {
    if items == [] then []
    else OfPart(items[..|items| - 1], part) + if items[|items| - 1].part == part then [items[|items| - 1]] else []
  }

  // The items of one partition are those of the list, still in order.
  lemma {:induction false} OfPartIsChain(items: seq<Item>, part: Partition)
    requires InOrder(items)
    ensures Chain(OfPart(items, part), 0) && Ascending(OfPart(items, part))
    ensures forall x :: x in OfPart(items, part) <==> x in items && x.part == part
    decreases |items|
  {
    if items != [] {
      var front, last := items[..|items| - 1], items[|items| - 1];
      assert items == front + [last];
      OfPartIsChain(front, part);
      var before := OfPart(front, part);
      forall i | 0 <= i < |before| && last.part == part ensures before[i].end <= last.start {
        assert before[i] in front;
        var k :| 0 <= k < |front| && front[k] == before[i];
        assert items[k] == front[k];
      }
    }
  }

  method Filter(items: seq<Item>, part: Partition) returns (r: seq<Item>)
    ensures r == OfPart(items, part)
  {
    r := [];
    var i := 0;
    while i < |items|
      invariant 0 <= i <= |items| && r == OfPart(items[..i], part)
    {
      assert items[..i + 1][..i] == items[..i];
      if items[i].part == part {
        r := r + [items[i]];
      }
      i := i + 1;
    }
    assert items[..i] == items;
  }

  ghost predicate FrontierFilled(items: seq<Item>, f: Frontier) {
    f.declared && Filled(OfPart(items, f.part), 0, f.offset)
  }

  ghost predicate Importable(items: seq<Item>, frontiers: seq<Frontier>) {
    && (forall i, j :: 0 <= i < j < |frontiers| ==> frontiers[i].part != frontiers[j].part)
    && (forall i :: 0 <= i < |frontiers| ==> FrontierFilled(items, frontiers[i]))
  }

  // Checks every frontier of an eager checkpoint against the inventory.
  method ValidateSourcePrefixes(items: seq<Item>, frontiers: seq<Frontier>) returns (ok: bool)
    requires InOrder(items)
    ensures ok <==> Importable(items, frontiers)
  {
    var seen: set<Partition> := {};
    var i := 0;
    while i < |frontiers|
      invariant 0 <= i <= |frontiers|
      invariant forall p :: p in seen <==> exists k :: 0 <= k < i && frontiers[k].part == p
      invariant forall a, b :: 0 <= a < b < i ==> frontiers[a].part != frontiers[b].part
      invariant forall k :: 0 <= k < i ==> FrontierFilled(items, frontiers[k])
    {
      var f := frontiers[i];
      if f.part in seen {
        return false;
      }
      if !f.declared {
        return false;
      }
      var ranges := Filter(items, f.part);
      OfPartIsChain(items, f.part);
      ranges := SortByStart(ranges);
      var filled := FollowPrefix(ranges, f.offset);
      if !filled {
        return false;
      }
      seen := seen + {f.part};
      i := i + 1;
    }
    ok := true;
  }

  // ---------------------------------------------------------------- what an import means

  function Offsets(frontiers: seq<Frontier>): map<Partition, nat> {
    if frontiers == [] then map[]
    else
      var f := frontiers[|frontiers| - 1];
      Offsets(frontiers[..|frontiers| - 1])[f.part := f.offset]
  }

  lemma {:induction false} OffsetsAt(frontiers: seq<Frontier>, p: Partition)
    requires forall i, j :: 0 <= i < j < |frontiers| ==> frontiers[i].part != frontiers[j].part
    ensures p in Offsets(frontiers) <==> exists i :: 0 <= i < |frontiers| && frontiers[i].part == p
    ensures forall i :: 0 <= i < |frontiers| && frontiers[i].part == p ==> At(Offsets(frontiers), p) == frontiers[i].offset
    decreases |frontiers|
  {
    if frontiers != [] {
      var front, last := frontiers[..|frontiers| - 1], frontiers[|frontiers| - 1];
      assert frontiers == front + [last];
      OffsetsAt(front, p);
      if i :| 0 <= i < |front| && front[i].part == p {
        assert frontiers[i] == front[i];
      }
    }
  }

  // The inventory lists the source: one item for each artifact.
  ghost predicate Lists(items: seq<Item>, source: Source) {
    forall k :: k in source ==> exists i :: 0 <= i < |items| && Lists1(items[i], source[k])
  }

  ghost predicate Lists1(x: Item, a: Artifact) {
    x.part == a.part && x.start == a.start && x.end == EndOf(a)
  }

  // No publication straddles an imported frontier.
  lemma NoStraddle(items: seq<Item>, frontiers: seq<Frontier>, source: Source, k: Key)
    requires InOrder(items) && Importable(items, frontiers) && Lists(items, source) && k in source
    ensures Covered(Offsets(frontiers), source[k]) || At(Offsets(frontiers), source[k].part) <= source[k].start
  {
    var a := source[k];
    OffsetsAt(frontiers, a.part);
    if a.part in Offsets(frontiers) {
      var i :| 0 <= i < |frontiers| && frontiers[i].part == a.part;
      assert FrontierFilled(items, frontiers[i]);
      var n :| 0 <= n < |items| && Lists1(items[n], a);
      OfPartIsChain(items, a.part);
      assert items[n] in OfPart(items, a.part);
    }
  }

  // The rows at offsets below the frontiers.
  ghost function Below(source: Source, frontier: map<Partition, nat>): set<RowId> {
    set k, o | k in source && o in Interval(0, source[k].len) && source[k].start + o < At(frontier, source[k].part) :: RowId(k, o)
  }

  lemma InBelow(source: Source, frontier: map<Partition, nat>, row: RowId)
    ensures row in Below(source, frontier) <==>
      row.key in source && row.ordinal < source[row.key].len && source[row.key].start + row.ordinal < At(frontier, source[row.key].part)
  {
    if row.key in source && row.ordinal < source[row.key].len {
      assert row == RowId(row.key, row.ordinal);
    }
  }

  // An accepted checkpoint is taken over without losing or repeating a row: reading it as a
  // demand checkpoint, the rows counted as folded are exactly those below its frontiers.
  lemma ImportIsLossless(items: seq<Item>, frontiers: seq<Frontier>, source: Source)
    requires InOrder(items) && Importable(items, frontiers) && Lists(items, source)
    ensures Folded(source, Offsets(frontiers), map[]) == Below(source, Offsets(frontiers))
  {
    var frontier := Offsets(frontiers);
    forall row: RowId ensures row in Folded(source, frontier, map[]) <==> row in Below(source, frontier) {
      InFolded(source, frontier, map[], row);
      InBelow(source, frontier, row);
      if row.key in source {
        NoStraddle(items, frontiers, source, row.key);
      }
    }
  }

  // So an eager checkpoint whose state holds the rows below its frontiers is a sound start for
  // every later run of demand units.
  lemma ImportIsSound(plan: Plan, items: seq<Item>, frontiers: seq<Frontier>, source: Source, ends: map<Partition, nat>, epoch: nat)
    requires InOrder(items) && Importable(items, frontiers) && Lists(items, source)
    requires forall p :: p in Offsets(frontiers) ==> Offsets(frontiers)[p] <= At(ends, p)
    ensures RecordOk(plan, source, ends, Record(epoch, None, Offsets(frontiers), multiset(Below(source, Offsets(frontiers)))))
  {
    var frontier := Offsets(frontiers);
    ImportIsLossless(items, frontiers, source);
    forall k | k in source ensures Covered(frontier, source[k]) || At(frontier, source[k].part) <= source[k].start {
      NoStraddle(items, frontiers, source, k);
    }
  }
}
