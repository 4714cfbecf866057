/**
 The parts of a physical-source demand unit (`materialize_source_demand` in
 crates/velorix-api/src/demand_materialization.rs): reconciling progress with the captured
 cut, inspecting one artifact, and the completion test.

 The loops work on span lists; each is proved to compute the step of the same name in
 `Coverage`, which is the step that `DemandRuns` interleaves.
 */
module SourceUnit {
  import opened Wrappers
  import opened Spans
  import opened Batches
  import opened Staging
  import opened Coverage

  type Progresses = map<Key, Progress>

  // A captured publication with the digest of its object.
  datatype Publication = Publication(key: Key, digest: string, artifact: Artifact)

  // What the loader finds: the rows, the bytes it charges, the size they decode to, and whether
  // the object can be read and authenticated at all.
  datatype Loaded = Loaded(batches: seq<seq<RowId>>, bytes: nat, decoded: nat, sound: bool, watermark: Option<int>)

  // The captured artifacts with what the loader would return for each.
  datatype Captured = Captured(pub: Publication, loaded: Loaded)

  const MAX_ARTIFACT_BYTES := 512 * 1024 * 1024

  datatype UnitError = IdentityMismatch | BudgetRequired(required: nat) | LoadFailed | Unit(error: StageError)

  // Loads an artifact when both its bytes and what they decode to fit in the bytes left.
  method Load(loaded: Loaded, left: nat) returns (r: Option<UnitError>)
    ensures r.None? <==> Loadable(loaded, left)
    ensures r.Some? ==> LoadError(loaded, left, r.value)
  {
    var limit := Min(left, MAX_ARTIFACT_BYTES);
    if loaded.bytes > limit {
      return Some(BudgetRequired(loaded.bytes));
    }
    if !loaded.sound {
      return Some(LoadFailed);
    }
    if loaded.decoded > limit {
      return Some(BudgetRequired(Max(loaded.decoded, loaded.bytes)));
    }
    r := None;
  }

  predicate Loadable(loaded: Loaded, left: int) {
    loaded.sound && Max(loaded.bytes, loaded.decoded) <= Min(left, MAX_ARTIFACT_BYTES)
  }

  // An error says what is missing: the object itself, or the room for what it needs.
  ghost predicate LoadError(loaded: Loaded, left: int, error: UnitError) {
    || (error == LoadFailed && !loaded.sound)
    || (error.BudgetRequired? && error.required in {loaded.bytes, loaded.decoded} && error.required > Min(left, MAX_ARTIFACT_BYTES))
  }

  ghost function AbsOf(applied: Spans, inspected: map<Scope, Spans>): Entry {
    Entry(Ordinals(applied), map s | s in inspected :: Ordinals(inspected[s]))
  }

  ghost function AbsEntry(p: Progress): Entry {
    AbsOf(p.applied, p.inspected)
  }

  ghost function Abs(progress: Progresses): Table {
    map k | k in progress :: AbsEntry(progress[k])
  }

  ghost predicate ProgressOk(source: Source, progress: Progresses) {
    forall k :: k in progress ==> k in source && Valid(progress[k]) && progress[k].applied.total == source[k].len
  }

  lemma AbsUpdate(progress: Progresses, k: Key, p: Progress)
    ensures Abs(progress[k := p]) == Abs(progress)[k := AbsEntry(p)]
  {
  }

  // ---------------------------------------------------------------- reconciliation

  ghost predicate Matches(pub: Publication, progress: Progresses) {
    pub.key in progress ==>
      progress[pub.key].hash == pub.digest && progress[pub.key].applied.total == pub.artifact.len
  }

  // The first `n` artifacts have the identity that the progress recorded for them.
  ghost predicate AllMatch(pubs: seq<Publication>, n: nat, progress: Progresses)
    requires n <= |pubs|
  {
    n == 0 || (AllMatch(pubs, n - 1, progress) && Matches(pubs[n - 1], progress))
  }

  lemma MismatchStays(pubs: seq<Publication>, i: nat, n: nat, progress: Progresses)
    requires i < n <= |pubs| && !Matches(pubs[i], progress)
    ensures !AllMatch(pubs, n, progress)
    decreases n
  {
  }

  lemma {:induction false} MatchAll(pubs: seq<Publication>, n: nat, progress: Progresses)
    requires n <= |pubs| && forall j :: 0 <= j < n ==> Matches(pubs[j], progress)
    ensures AllMatch(pubs, n, progress)
    decreases n
  {
    if n > 0 {
      MatchAll(pubs, n - 1, progress);
    }
  }

  ghost predicate PublicationsOk(source: Source, pubs: seq<Publication>) {
    && (forall i :: 0 <= i < |pubs| ==> pubs[i].key in source && source[pubs[i].key] == pubs[i].artifact)
    && (forall i, j :: 0 <= i < j < |pubs| ==> pubs[i].key != pubs[j].key)
  }

  function KeysTo(pubs: seq<Publication>, n: nat): set<Key>
    requires n <= |pubs|
  {
    if n == 0 then {} else KeysTo(pubs, n - 1) + {pubs[n - 1].key}
  }

  function Keys(pubs: seq<Publication>): set<Key> {
    KeysTo(pubs, |pubs|)
  }

  // Adopts one artifact: a known one keeps its progress, an unknown one starts complete when
  // an old frontier already covers it and empty otherwise.
  method Adopt(frontier: map<Partition, nat>, known: Option<Progress>, pub: Publication, scan: Scope)
    returns (r: Result<Progress, UnitError>)
    requires known.Some? ==> Valid(known.value)
    ensures r.Ok? <==> (known.Some? ==> known.value.hash == pub.digest && known.value.applied.total == pub.artifact.len)
    ensures r.Ok? ==> AdoptedEntry(frontier, known, pub, scan, r.value)
  {
    var entry;
    if known.Some? {
      entry := known.value;
      if entry.hash != pub.digest || entry.applied.total != pub.artifact.len {
        return Err(IdentityMismatch);
      }
    } else {
      var applied := FromPrefix(pub.artifact.len, if Covered(frontier, pub.artifact) then pub.artifact.len else 0);
      entry := Progress(pub.digest, applied.value, map[], None);
      assert Interval(0, 0) == {};
      assert AbsEntry(entry) == FreshEntry(frontier, pub.artifact);
    }
    CompleteMeansAll(entry.applied);
    if IsComplete(entry.applied) {
      AbsInspect(entry, scan, entry.applied);
      entry := entry.(inspected := entry.inspected[scan := entry.applied]);
    }
    r := Ok(entry);
  }

  ghost predicate AdoptedEntry(frontier: map<Partition, nat>, known: Option<Progress>, pub: Publication, scan: Scope, p: Progress) {
    && Valid(p) && p.applied.total == pub.artifact.len && p.hash == pub.digest
    && p.watermark == (if known.Some? then known.value.watermark else None)
    && AbsEntry(p) == Refresh(pub.artifact, scan, if known.Some? then AbsEntry(known.value) else FreshEntry(frontier, pub.artifact))
  }

  lemma CompleteMeansAll(s: Spans)
    requires Canonical(s)
    ensures IsComplete(s) <==> Interval(0, s.total) <= Ordinals(s)
  {
    FrontierIsFirstHole(s);
    if Interval(0, s.total) <= Ordinals(s) {
      forall o: nat | o < s.total ensures Covers(s.spans, o) {
        assert o in Interval(0, s.total);
      }
    }
  }

  lemma AbsInspect(p: Progress, scan: Scope, inspected: Spans)
    ensures AbsEntry(p.(inspected := p.inspected[scan := inspected]))
         == AbsEntry(p).(inspected := AbsEntry(p).inspected[scan := Ordinals(inspected)])
  {
  }

  // The entry of one artifact after the artifacts `done` have been adopted.
  ghost predicate ReconciledAt(source: Source, frontier: map<Partition, nat>, progress: Progresses, done: set<Key>,
                               scan: Scope, current: Progresses, k: Key) {
    && (k in current <==> k in progress || k in done)
    && (k in done ==>
          && k in source
          && Valid(current[k]) && current[k].applied.total == source[k].len
          && current[k].watermark == (if k in progress then progress[k].watermark else None)
          && AbsEntry(current[k])
             == Refresh(source[k], scan, if k in progress then AbsEntry(progress[k]) else FreshEntry(frontier, source[k])))
    && (k in current && k !in done ==> current[k] == progress[k])
  }

  ghost predicate Reconciled(source: Source, frontier: map<Partition, nat>, progress: Progresses, done: set<Key>,
                             scan: Scope, current: Progresses) {
    forall k :: ReconciledAt(source, frontier, progress, done, scan, current, k)
  }

  // The loop computes the reconciliation step of `Coverage`.
  lemma ReconciledIsReconcile(source: Source, frontier: map<Partition, nat>, progress: Progresses, done: set<Key>,
                              scan: Scope, current: Progresses)
    requires Reconciled(source, frontier, progress, done, scan, current) && done <= source.Keys
    ensures Abs(current) == Reconcile(source, frontier, Abs(progress), done, scan)
  {
    var table := Reconcile(source, frontier, Abs(progress), done, scan);
    forall k
      ensures k in Abs(current) <==> k in table
      ensures k in table ==> k in Abs(current) && Abs(current)[k] == table[k]
    {
      assert ReconciledAt(source, frontier, progress, done, scan, current, k);
    }
  }

  // Reconciles progress with the captured cut, or reports an artifact whose persisted
  // identity differs.
  method ReconcileArtifacts(ghost source: Source, frontier: map<Partition, nat>, progress: Progresses,
                            pubs: seq<Publication>, scan: Scope)
    returns (r: Result<Progresses, UnitError>)
    requires PublicationsOk(source, pubs) && AllValid(progress)
    ensures r.Ok? <==> AllMatch(pubs, |pubs|, progress)
    ensures r.Ok? ==> Reconciled(source, frontier, progress, Keys(pubs), scan, r.value) && AllMatch(pubs, |pubs|, r.value)
  {
    var current := progress;
    var i := 0;
    while i < |pubs|
      invariant 0 <= i <= |pubs|
      invariant AllMatch(pubs, i, progress)
      invariant Reconciled(source, frontier, progress, KeysTo(pubs, i), scan, current)
      invariant forall j :: 0 <= j < i ==> Matches(pubs[j], current)
    {
      NotYetAdopted(source, pubs, i);
      var adopted := AdoptNext(source, frontier, progress, KeysTo(pubs, i), scan, current, pubs[i]);
      if adopted.Err? {
        MismatchStays(pubs, i, |pubs|, progress);
        return adopted;
      }
      current := adopted.value;
      i := i + 1;
    }
    MatchAll(pubs, |pubs|, current);
    r := Ok(current);
  }

  method AdoptNext(ghost source: Source, frontier: map<Partition, nat>, ghost progress: Progresses, ghost done: set<Key>,
                   scan: Scope, current: Progresses, pub: Publication)
    returns (r: Result<Progresses, UnitError>)
    requires Reconciled(source, frontier, progress, done, scan, current) && AllValid(progress)
    requires pub.key in source && source[pub.key] == pub.artifact && pub.key !in done
    ensures r.Ok? <==> Matches(pub, progress)
    ensures r.Ok? ==> Reconciled(source, frontier, progress, done + {pub.key}, scan, r.value)
    ensures r.Ok? ==> Matches(pub, r.value)
    ensures r.Ok? ==> forall k :: k != pub.key ==> (k in r.value <==> k in current) && (k in current ==> r.value[k] == current[k])
  {
    assert ReconciledAt(source, frontier, progress, done, scan, current, pub.key);
    var known := if pub.key in current then Some(current[pub.key]) else None;
    var adopted := Adopt(frontier, known, pub, scan);
    if adopted.Err? {
      return Err(IdentityMismatch);
    }
    r := Ok(current[pub.key := adopted.value]);
    forall k ensures ReconciledAt(source, frontier, progress, done + {pub.key}, scan, r.value, k) {
      assert ReconciledAt(source, frontier, progress, done, scan, current, k);
    }
  }

  lemma KeysToContains(pubs: seq<Publication>, n: nat, k: Key)
    requires n <= |pubs|
    ensures k in KeysTo(pubs, n) <==> exists i :: 0 <= i < n && pubs[i].key == k
  {
  }

  lemma NotYetAdopted(source: Source, pubs: seq<Publication>, i: nat)
    requires PublicationsOk(source, pubs) && i < |pubs|
    ensures pubs[i].key !in KeysTo(pubs, i)
    ensures pubs[i].key in source && source[pubs[i].key] == pubs[i].artifact
  {
    KeysToContains(pubs, i, pubs[i].key);
  }

  ghost predicate AllValid(progress: Progresses) {
    forall k :: k in progress ==> Valid(progress[k])
  }

  // ---------------------------------------------------------------- inspecting one artifact

  // The rows of an authenticated artifact, in physical order.
  ghost predicate IsArtifact(k: Key, rows: seq<RowId>) {
    forall o :: 0 <= o < |rows| ==> rows[o] == RowId(k, o)
  }

  // The rows are these identities, each once.
  ghost predicate BagOf(rows: seq<RowId>, ids: set<RowId>) {
    multiset(rows) == multiset(ids)
  }

  lemma BagStep(picked: seq<RowId>, rest: seq<RowId>, ids: set<RowId>, others: set<RowId>, row: RowId)
    requires BagOf(rest, others) && row !in others && picked == [row] + rest && ids == others + {row}
    ensures BagOf(picked, ids)
  {
    BagUnion(others, {row});
  }

  lemma RowIdsStep(k: Key, sel: set<nat>, lo: nat, hi: nat)
    requires lo < hi
    ensures lo !in sel ==> RowIds(k, Window(sel, lo, hi)) == RowIds(k, Window(sel, lo + 1, hi))
    ensures RowId(k, lo) !in RowIds(k, Window(sel, lo + 1, hi))
    ensures lo in sel ==> RowIds(k, Window(sel, lo, hi)) == RowIds(k, Window(sel, lo + 1, hi)) + {RowId(k, lo)}
  {
    WindowStep(sel, lo, hi);
    var ordinals := Window(sel, lo + 1, hi);
    forall row ensures row in RowIds(k, ordinals + {lo}) <==> row in RowIds(k, ordinals) || row == RowId(k, lo) {
    }
  }

  // A picked row sequence holds each selected row once.
  lemma {:induction false} PickBag(k: Key, rows: seq<RowId>, sel: set<nat>, lo: nat, hi: nat)
    requires lo <= hi <= |rows| && IsArtifact(k, rows)
    ensures BagOf(Pick(rows, sel, lo, hi), RowIds(k, Window(sel, lo, hi)))
    decreases hi - lo
  {
    if lo >= hi {
      EmptyPick(k, rows, sel, lo, hi);
    } else {
      PickBag(k, rows, sel, lo + 1, hi);
      PickMore(k, rows, sel, lo, hi, Pick(rows, sel, lo + 1, hi), RowIds(k, Window(sel, lo + 1, hi)));
    }
  }

  lemma EmptyPick(k: Key, rows: seq<RowId>, sel: set<nat>, lo: nat, hi: nat)
    requires hi <= lo && hi <= |rows|
    ensures BagOf(Pick(rows, sel, lo, hi), RowIds(k, Window(sel, lo, hi)))
  {
    assert RowIds(k, Window(sel, lo, hi)) == {};
  }

  lemma PickMore(k: Key, rows: seq<RowId>, sel: set<nat>, lo: nat, hi: nat, rest: seq<RowId>, others: set<RowId>)
    requires lo < hi <= |rows| && IsArtifact(k, rows)
    requires rest == Pick(rows, sel, lo + 1, hi) && others == RowIds(k, Window(sel, lo + 1, hi)) && BagOf(rest, others)
    ensures BagOf(Pick(rows, sel, lo, hi), RowIds(k, Window(sel, lo, hi)))
  {
    PickStep(rows, sel, lo, hi);
    RowIdsStep(k, sel, lo, hi);
    if lo in sel {
      BagStep(Pick(rows, sel, lo, hi), rest, RowIds(k, Window(sel, lo, hi)), others, rows[lo]);
    }
  }

  lemma PickStep(rows: seq<RowId>, sel: set<nat>, lo: nat, hi: nat)
    requires lo < hi <= |rows|
    ensures Pick(rows, sel, lo, hi) == if lo in sel then [rows[lo]] + Pick(rows, sel, lo + 1, hi) else Pick(rows, sel, lo + 1, hi)
  {
  }

  lemma WindowStep(sel: set<nat>, lo: nat, hi: nat)
    requires lo < hi
    ensures Window(sel, lo, hi) == if lo in sel then Window(sel, lo + 1, hi) + {lo} else Window(sel, lo + 1, hi)
    ensures lo !in Window(sel, lo + 1, hi)
  {
  }

  ghost predicate MayVector(plan: Plan, scan: Scope, k: Key, lo: nat, may: seq<bool>) {
    forall i :: 0 <= i < |may| ==> may[i] == May(plan, scan, RowId(k, lo + i))
  }

  // Evaluates the scope on the inspected rows; an unrestricted scan takes every row.
  method MatchRows(plan: Plan, scan: Scope, ghost k: Key, batches: seq<seq<RowId>>, lo: nat, hi: nat)
    returns (may: seq<bool>)
    requires lo <= hi <= |Flatten(batches)| && IsArtifact(k, Flatten(batches))
    ensures |may| == hi - lo && MayVector(plan, scan, k, lo, may)
  {
    if scan.None? {
      may := seq(hi - lo, i => true);
      return;
    }
    var slices := Slice(batches, lo, hi);
    var rows := Flatten(slices);
    may := [];
    while |may| < |rows|
      invariant |may| <= |rows| && MayVector(plan, scan, k, lo, may)
    {
      may := may + [plan.mayMatch(scan, rows[|may|])];
    }
  }

  lemma SelectionIsNew(plan: Plan, scan: Scope, k: Key, p: Progress, lo: nat, may: seq<bool>)
    requires MayVector(plan, scan, k, lo, may)
    ensures Selection(p.applied, lo, may) == Fresh(plan, scan, k, Ordinals(p.applied), lo, lo + |may|)
  {
    forall o: nat
      ensures o in Selection(p.applied, lo, may)
         <==> o in Fresh(plan, scan, k, Ordinals(p.applied), lo, lo + |may|)
    {
      if o in Interval(lo, lo + |may|) {
        assert may[o - lo] == May(plan, scan, RowId(k, lo + (o - lo)));
      }
    }
  }

  // Staging an interval is the staging step of `Coverage`.
  lemma StagedIsStage(plan: Plan, scan: Scope, k: Key, p: Progress, lo: nat, may: seq<bool>, staged: Progress)
    requires MayVector(plan, scan, k, lo, may) && StagedFrom(p, scan, lo, may, staged)
    ensures AbsEntry(staged) == StageEntry(plan, scan, k, AbsEntry(p), lo, lo + |may|)
  {
    SelectionIsNew(plan, scan, k, p, lo, may);
    StagedInspected(p, scan, lo, may, staged);
  }

  lemma StagedInspected(p: Progress, scan: Scope, lo: nat, may: seq<bool>, staged: Progress)
    requires StagedFrom(p, scan, lo, may, staged)
    ensures AbsEntry(staged).inspected
         == AbsEntry(p).inspected[scan := Seen(AbsEntry(p), scan) + Interval(lo, lo + |may|)]
  {
    var e, e' := AbsEntry(p), AbsEntry(staged);
    assert Seen(e, scan) == Inspected(p, scan) by {
      assert Ordinals(Spans(p.applied.total, [])) == {};
    }
  }

  ghost predicate InspectedOne(plan: Plan, scan: Scope, k: Key, p: Progress, lo: nat, hi: nat,
                               staged: Progress, inputs: seq<Input<RowId>>) {
    && Valid(staged) && staged.applied.total == p.applied.total && staged.hash == p.hash && staged.watermark.Some?
    && AbsEntry(staged) == StageEntry(plan, scan, k, AbsEntry(p), lo, hi)
    && multiset(RunRows(inputs))
       == multiset(RowIds(k, Fresh(plan, scan, k, Ordinals(p.applied), lo, hi)))
  }

  lemma InspectedRows(plan: Plan, scan: Scope, k: Key, rows: seq<RowId>, p: Progress, lo: nat, may: seq<bool>,
                      staged: Progress, watermark: Option<int>, inputs: seq<Input<RowId>>)
    requires MayVector(plan, scan, k, lo, may) && StagedFrom(p, scan, lo, may, staged)
    requires IsArtifact(k, rows) && lo + |may| <= |rows|
    requires RunRows(inputs) == Pick(rows, Selection(p.applied, lo, may), lo, lo + |may|)
    ensures InspectedOne(plan, scan, k, p, lo, lo + |may|, staged.(watermark := Some(watermark)), inputs)
  {
    StagedIsStage(plan, scan, k, p, lo, may, staged);
    PickedBag(plan, scan, k, rows, p, lo, may, RunRows(inputs));
    SetWatermark(staged, watermark);
  }

  lemma SetWatermark(p: Progress, watermark: Option<int>)
    requires Valid(p)
    ensures Valid(p.(watermark := Some(watermark))) && AbsEntry(p.(watermark := Some(watermark))) == AbsEntry(p)
  {
  }

  lemma PickedBag(plan: Plan, scan: Scope, k: Key, rows: seq<RowId>, p: Progress, lo: nat, may: seq<bool>, picked: seq<RowId>)
    requires MayVector(plan, scan, k, lo, may) && lo + |may| <= |rows| && IsArtifact(k, rows)
    requires picked == Pick(rows, Selection(p.applied, lo, may), lo, lo + |may|)
    ensures multiset(picked) == multiset(RowIds(k, Fresh(plan, scan, k, Ordinals(p.applied), lo, lo + |may|)))
  {
    var sel := Selection(p.applied, lo, may);
    SelectionIsNew(plan, scan, k, p, lo, may);
    PickBag(k, rows, sel, lo, lo + |may|);
    assert Window(sel, lo, lo + |may|) == sel;
  }

  // Causal source runs need every selected offset, and the one after it, within 64 bits.
  ghost predicate InRange(plan: Plan, scan: Scope, causal: bool, k: Key, offset: nat, p: Progress, x: Span) {
    causal ==> OffsetsFit(offset, Fresh(plan, scan, k, Ordinals(p.applied), x.lo, x.hi))
  }

  // Stages one interval of an artifact and extracts its rows, as one batch list or, when the
  // operator is watermark-sensitive, as causal source runs.
  method InspectOne(plan: Plan, scan: Scope, k: Key, len: nat, p: Progress, loaded: Loaded, interval: Span,
                    causal: bool, frontier: nat, offset: nat)
    returns (r: Result<(Progress, seq<Input<RowId>>), UnitError>)
    requires Valid(p) && p.applied.total == len == |Flatten(loaded.batches)| && IsArtifact(k, Flatten(loaded.batches))
    requires interval.lo < interval.hi <= len
    ensures r.Ok? <==> InRange(plan, scan, causal, k, offset, p, interval)
    ensures r.Err? ==> r.error.Unit?
    ensures r.Ok? ==> InspectedOne(plan, scan, k, p, interval.lo, interval.hi, r.value.0, r.value.1)
  {
    var lo, hi := interval.lo, interval.hi;
    var may := MatchRows(plan, scan, k, loaded.batches, lo, hi);
    SelectionIsNew(plan, scan, k, p, lo, may);
    var input := Input(offset, offset + len, loaded.batches, loaded.watermark);
    var stage := StageInspection(p, input, scan, lo, hi, may);
    var inputs := ExtractInputs(p, input, stage.value.1, lo, hi, may, causal, frontier);
    if inputs.Err? {
      return Err(inputs.error);
    }
    InspectedRows(plan, scan, k, Flatten(loaded.batches), p, lo, may, stage.value.0, loaded.watermark, inputs.value);
    r := Ok((stage.value.0.(watermark := Some(loaded.watermark)), inputs.value));
  }

  method ExtractInputs<T>(p: Progress, input: Input<T>, selected: Input<T>, lo: nat, hi: nat, may: seq<bool>, causal: bool, frontier: nat)
    returns (r: Result<seq<Input<T>>, UnitError>)
    requires Valid(p) && |Flatten(input.batches)| == p.applied.total
    requires lo < hi <= p.applied.total && |may| == hi - lo
    requires Flatten(selected.batches) == Pick(Flatten(input.batches), Selection(p.applied, lo, may), lo, hi)
    ensures r.Ok? <==> (causal ==> OffsetsFit(input.start, Selection(p.applied, lo, may)))
    ensures r.Err? ==> r.error.Unit?
    ensures r.Ok? ==> RunRows(r.value) == Pick(Flatten(input.batches), Selection(p.applied, lo, may), lo, hi)
  {
    if causal {
      var runs, _ := SelectedSourceRuns(p, input, lo, hi, may);
      if runs.Err? {
        return Err(Unit(runs.error));
      }
      return Ok(runs.value);
    }
    var inputs := [selected.(start := frontier, end := frontier)];
    assert RunRows(inputs) == Flatten(inputs[0].batches) + RunRows(inputs[1..]);
    r := Ok(inputs);
  }

  // ---------------------------------------------------------------- completion

  // The rows of the cut that the scope has not inspected; none are left exactly when every
  // artifact of the cut is fully inspected.
  method RemainingRows(ghost source: Source, progress: Progresses, keys: seq<Key>, scan: Scope)
    returns (r: Result<nat, UnitError>)
    requires ProgressOk(source, progress) && forall i :: 0 <= i < |keys| ==> keys[i] in progress
    ensures r.Ok? <==> Uninspected(progress, keys, |keys|, scan) <= U64_MAX
    ensures r.Ok? ==> r.value == Uninspected(progress, keys, |keys|, scan)
    ensures r.Ok? ==> (r.value == 0 <==> InspectedAll(source, Abs(progress), (set k | k in keys), scan))
  {
    RemainingMeans(source, progress, keys, scan);
    r := SumUninspected(progress, keys, scan);
  }

  method SumUninspected(progress: Progresses, keys: seq<Key>, scan: Scope) returns (r: Result<nat, UnitError>)
    requires forall i :: 0 <= i < |keys| ==> keys[i] in progress && Valid(progress[keys[i]])
    ensures r.Ok? <==> Uninspected(progress, keys, |keys|, scan) <= U64_MAX
    ensures r.Ok? ==> r.value == Uninspected(progress, keys, |keys|, scan)
  {
    var sum: nat := 0;
    var i := 0;
    while i < |keys|
      invariant 0 <= i <= |keys|
      invariant sum == Uninspected(progress, keys, i, scan) <= U64_MAX
    {
      var p := progress[keys[i]];
      var inspected := ProcessedLen(Scan(p, scan));
      sum := sum + (p.applied.total - inspected);
      i := i + 1;
      if sum > U64_MAX {
        UninspectedGrows(progress, keys, i, |keys|, scan);
        return Err(Unit(OffsetOverflow));
      }
    }
    r := Ok(sum);
  }

  lemma RemainingMeans(source: Source, progress: Progresses, keys: seq<Key>, scan: Scope)
    requires ProgressOk(source, progress) && forall i :: 0 <= i < |keys| ==> keys[i] in progress
    ensures forall i :: 0 <= i < |keys| ==> Valid(progress[keys[i]])
    ensures Uninspected(progress, keys, |keys|, scan) == 0 <==> InspectedAll(source, Abs(progress), (set k | k in keys), scan)
  {
    UninspectedZero(progress, keys, |keys|, scan);
    AllFull(source, progress, keys, scan);
  }

  // The ordinals of the first artifacts the scope has not inspected.
  ghost function Uninspected(progress: Progresses, keys: seq<Key>, n: int, scan: Scope): int
    requires 0 <= n <= |keys| && forall i :: 0 <= i < |keys| ==> keys[i] in progress
  {
    if n == 0 then 0
    else Uninspected(progress, keys, n - 1, scan) + progress[keys[n - 1]].applied.total - |Ordinals(Scan(progress[keys[n - 1]], scan))|
  }

  predicate Unstamped(progress: Progresses, k: Key) {
    k in progress && progress[k].watermark.None?
  }

  function KeysOf(captured: seq<Captured>): (keys: seq<Key>)
    ensures |keys| == |captured| && forall i :: 0 <= i < |keys| ==> keys[i] == captured[i].pub.key
  {
    seq(|captured|, i requires 0 <= i < |captured| => captured[i].pub.key)
  }

  lemma {:induction false} UninspectedGrows(progress: Progresses, keys: seq<Key>, a: nat, b: nat, scan: Scope)
    requires a <= b <= |keys| && forall i :: 0 <= i < |keys| ==> keys[i] in progress && Valid(progress[keys[i]])
    ensures Uninspected(progress, keys, a, scan) <= Uninspected(progress, keys, b, scan)
    decreases b
  {
    if a < b {
      UninspectedGrows(progress, keys, a, b - 1, scan);
      FullCardinality(Scan(progress[keys[b - 1]], scan));
    }
  }

  lemma {:induction false} UninspectedZero(progress: Progresses, keys: seq<Key>, n: nat, scan: Scope)
    requires n <= |keys| && forall i :: 0 <= i < |keys| ==> keys[i] in progress && Valid(progress[keys[i]])
    ensures 0 <= Uninspected(progress, keys, n, scan)
    ensures Uninspected(progress, keys, n, scan) == 0 <==> forall i :: 0 <= i < n ==> Full(Scan(progress[keys[i]], scan))
    decreases n
  {
    if n > 0 {
      UninspectedZero(progress, keys, n - 1, scan);
      FullCardinality(Scan(progress[keys[n - 1]], scan));
      FrontierIsFirstHole(Scan(progress[keys[n - 1]], scan));
    }
  }

  lemma AllFull(source: Source, progress: Progresses, keys: seq<Key>, scan: Scope)
    requires ProgressOk(source, progress) && forall i :: 0 <= i < |keys| ==> keys[i] in progress
    ensures (forall i :: 0 <= i < |keys| ==> Full(Scan(progress[keys[i]], scan)))
       <==> InspectedAll(source, Abs(progress), (set k | k in keys), scan)
  {
    forall i | 0 <= i < |keys|
      ensures Full(Scan(progress[keys[i]], scan))
         <==> Interval(0, source[keys[i]].len) <= Seen(Abs(progress)[keys[i]], scan)
    {
      SeenIsScan(progress[keys[i]], scan);
    }
  }

  lemma SeenIsScan(p: Progress, scan: Scope)
    requires Valid(p)
    ensures Seen(AbsEntry(p), scan) == Ordinals(Scan(p, scan))
    ensures Full(Scan(p, scan)) <==> Interval(0, p.applied.total) <= Seen(AbsEntry(p), scan)
  {
    assert Ordinals(Spans(p.applied.total, [])) == {};
    CompleteMeansAll(Scan(p, scan));
    FrontierIsFirstHole(Scan(p, scan));
  }
}
