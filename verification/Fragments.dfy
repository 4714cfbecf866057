/**
 Checkpoint bodies larger than one object (crates/velorix-api/src/checkpoint_fragments.rs): the
 encoded body is cut into fragments of a fixed size, and a manifest lists them.

 Hashes are ideal: the hash of a fragment is its bytes.
 */
module Fragments {
  import opened Wrappers
  import opened Batches

  newtype Byte = x: int | 0 <= x < 256

  datatype FragmentRef = FragmentRef(hash: seq<Byte>, byteCount: nat)

  // A checkpoint state; `identity` stands for its tenant, program, view, epoch and content hash,
  // which its object key names too.
  datatype StateRecord = StateRecord(identity: string, payload: seq<Byte>)

  // The state encoding; decoding refuses a state above a limit.
  datatype Codec = Codec(encode: StateRecord -> seq<Byte>, decode: (seq<Byte>, nat) -> Option<StateRecord>)

  ghost predicate CodecOk(codec: Codec) {
    forall record: StateRecord, limit: nat :: |record.payload| <= limit ==> codec.decode(codec.encode(record), limit) == Some(record)
  }

  const SCHEMA_VERSION := 2

  // `header` is the record without its payload, `size` the length of the encoded manifest itself.
  datatype Manifest = Manifest(version: nat, header: StateRecord, byteCount: nat, stateBytes: nat, fragments: seq<FragmentRef>,
                               fragmentBytes: nat, size: nat)

  datatype Limits = Limits(maxStateBytes: nat, maxFragmentBytes: nat)

  datatype FragmentError = TooLarge | Invalid | WriteConflict

  // The part of a manifest that is checked before its fragments are.
  predicate HeaderOk(m: Manifest, key: string, limits: Limits) {
    && m.size <= limits.maxFragmentBytes
    && m.version == SCHEMA_VERSION && m.header.payload == [] && m.header.identity == key
    && 0 < m.stateBytes <= limits.maxStateBytes
    && 0 < m.byteCount <= EncodedLimit(limits.maxStateBytes)
    && m.fragments != [] && 0 < m.fragmentBytes <= limits.maxFragmentBytes
    && |m.fragments| == DivCeil(m.byteCount, m.fragmentBytes)
  }

  const USIZE_MAX := 0xFFFF_FFFF_FFFF_FFFF

  function Saturated(x: nat): nat {
    if x <= USIZE_MAX then x else USIZE_MAX
  }

  function EncodedLimit(stateBytes: nat): nat {
    Saturated(Saturated(stateBytes * 2) + 16 * 1024)
  }

  function DivCeil(a: nat, b: nat): nat
    requires b > 0
  {
    a / b + if a % b == 0 then 0 else 1
  }

  // How many objects a body of this size takes.
  function DurableObjectCount(payloadBytes: nat, limit: nat): nat
    requires limit > 0
  {
    if payloadBytes > limit then DivCeil(payloadBytes, limit) + 1 else 1
  }

  // ---------------------------------------------------------------- tiling

  // The whole fragments before the last one end before the body does.
  lemma CeilBounds(a: nat, b: nat)
    requires b > 0
    ensures a <= DivCeil(a, b) * b < a + b
  {
    assert a == (a / b) * b + a % b;
    if a % b != 0 {
      assert (a / b + 1) * b == (a / b) * b + b;
    }
  }

  lemma MulMonotone(a: nat, b: nat, c: nat)
    requires a <= b
    ensures a * c <= b * c
  {
    assert (b - a) * c >= 0;
    assert b * c == a * c + (b - a) * c;
  }

  // Every ordinal a manifest may list starts inside the body.
  lemma StartsInside(a: nat, b: nat, i: nat)
    requires b > 0 && i < DivCeil(a, b)
    ensures i * b < a
  {
    CeilBounds(a, b);
    var k := DivCeil(a, b);
    MulMonotone(i, k - 1, b);
    assert (k - 1) * b == k * b - b;
  }

  // Cutting stops after exactly the number of fragments the manifest must list.
  lemma CeilIsCount(a: nat, b: nat, k: nat)
    requires b > 0 && a <= k * b < a + b
    ensures k == DivCeil(a, b)
  {
    CeilBounds(a, b);
    var d := DivCeil(a, b);
    assert (k + 1) * b == k * b + b && (d + 1) * b == d * b + b;
    if k < d {
      MulMonotone(k + 1, d, b);
    }
    if d < k {
      MulMonotone(d + 1, k, b);
    }
  }

  function Expected(m: Manifest, i: nat): int
    requires m.fragmentBytes > 0
  {
    Min(m.fragmentBytes, m.byteCount - i * m.fragmentBytes)
  }

  // The fragments tile the body: each has the size its place demands.
  ghost predicate Tiles(m: Manifest)
    requires m.fragmentBytes > 0
  {
    forall i :: 0 <= i < |m.fragments| ==> m.fragments[i].byteCount == Expected(m, i)
  }

  // The bytes listed by fragments, in order.
  ghost function Joined(fs: seq<FragmentRef>): seq<Byte> {
    if fs == [] then [] else fs[0].hash + Joined(fs[1..])
  }

  // The fragments of a body, cut from the front.
  ghost function Chunks(bytes: seq<Byte>, size: nat): seq<FragmentRef>
    requires size > 0
    decreases |bytes|
  {
    if bytes == [] then []
    else
      var n := Min(size, |bytes|);
      [FragmentRef(bytes[..n], n)] + Chunks(bytes[n..], size)
  }

  // The fragments give back the body, they tile it, and there are as many as the manifest says.
  lemma {:induction false} ChunksJoin(bytes: seq<Byte>, size: nat)
    requires size > 0
    ensures Joined(Chunks(bytes, size)) == bytes
    decreases |bytes|
  {
    if bytes != [] {
      var n := Min(size, |bytes|);
      ChunksJoin(bytes[n..], size);
      assert Chunks(bytes, size)[1..] == Chunks(bytes[n..], size);
      assert bytes == bytes[..n] + bytes[n..];
    }
  }

  lemma {:induction false} ChunksTile(bytes: seq<Byte>, size: nat, i: nat)
    requires size > 0 && i < |Chunks(bytes, size)|
    ensures var c := Chunks(bytes, size)[i]; c.byteCount == |c.hash| == Min(size, |bytes| - i * size)
    decreases |bytes|
  {
    var n := Min(size, |bytes|);
    if i > 0 {
      ChunksTile(bytes[n..], size, i - 1);
      assert (i - 1) * size == i * size - size;
    }
  }

  lemma {:induction false} ChunksCount(bytes: seq<Byte>, size: nat)
    requires size > 0
    ensures |Chunks(bytes, size)| == DivCeil(|bytes|, size)
    decreases |bytes|
  {
    var k := |Chunks(bytes, size)|;
    if bytes != [] {
      var n := Min(size, |bytes|);
      ChunksCount(bytes[n..], size);
      CeilBounds(|bytes| - n, size);
      assert k * size == (k - 1) * size + size;
    }
    CeilIsCount(|bytes|, size, k);
  }

  ghost function ManifestOf(record: StateRecord, bytes: seq<Byte>, size: nat, manifestSize: nat): Manifest
    requires size > 0
  {
    Manifest(SCHEMA_VERSION, record.(payload := []), |bytes|, |record.payload|, Chunks(bytes, size), size, manifestSize)
  }

  lemma ChunksStep(bytes: seq<Byte>, at: nat, end: nat, size: nat)
    requires size > 0 && at < |bytes| && end == Min(at + size, |bytes|)
    ensures Chunks(bytes[at..], size) == [FragmentRef(bytes[at..end], end - at)] + Chunks(bytes[end..], size)
  {
    var rest := bytes[at..];
    assert rest[..end - at] == bytes[at..end] && rest[end - at..] == bytes[end..];
  }

  // Checks a manifest. It is accepted exactly when its header is in bounds and its fragments
  // tile the byte count; no expected size is negative, and the sizes add up to the byte count.
  method ValidateManifest(m: Manifest, key: string, limits: Limits) returns (r: Result<nat, FragmentError>)
    ensures r.Ok? <==> HeaderOk(m, key, limits) && Tiles(m)
    ensures r.Ok? ==> r.value == m.byteCount
    ensures HeaderOk(m, key, limits) ==> forall i :: 0 <= i < |m.fragments| ==> 0 < Expected(m, i)
  {
    if !HeaderOk(m, key, limits) {
      return Err(Invalid);
    }
    forall i | 0 <= i < |m.fragments| ensures 0 < Expected(m, i) {
      StartsInside(m.byteCount, m.fragmentBytes, i);
    }
    var sum := 0;
    var i := 0;
    while i < |m.fragments|
      invariant 0 <= i <= |m.fragments|
      invariant forall k :: 0 <= k < i ==> m.fragments[k].byteCount == Expected(m, k)
      invariant sum == Min(m.byteCount, i * m.fragmentBytes)
    {
      StartsInside(m.byteCount, m.fragmentBytes, i);
      var expected: nat := Expected(m, i);
      if m.fragments[i].byteCount != expected {
        return Err(Invalid);
      }
      sum := sum + m.fragments[i].byteCount;
      assert (i + 1) * m.fragmentBytes == i * m.fragmentBytes + m.fragmentBytes;
      i := i + 1;
    }
    // The closing comparison of the sum with the byte count cannot fail.
    CeilBounds(m.byteCount, m.fragmentBytes);
    r := Ok(sum);
  }

  // ---------------------------------------------------------------- writing and reading back

  datatype Path = Path(ordinal: nat, hash: seq<Byte>)

  // The objects under one state key.
  class StateObjects {
    const key: string
    var fragments: map<Path, seq<Byte>>
    var root: Option<Manifest>

    constructor (key: string)
      ensures this.key == key && fragments == map[] && root == None
    {
      this.key := key;
      fragments := map[];
      root := None;
    }

    // Creates a fragment, or accepts one that is there with the same bytes.
    method PutFragment(path: Path, bytes: seq<Byte>) returns (ok: bool)
      modifies this`fragments
      ensures ok <==> (path in old(fragments) ==> old(fragments)[path] == bytes)
      ensures fragments == if ok then old(fragments)[path := bytes] else old(fragments)
    {
      ok := path !in fragments || fragments[path] == bytes;
      if ok {
        fragments := fragments[path := bytes];
      }
    }

    method PutRoot(m: Manifest) returns (ok: bool)
      modifies this`root
      ensures ok <==> old(root) == None || old(root) == Some(m)
      ensures root == if ok then Some(m) else old(root)
    {
      ok := root == None || root == Some(m);
      if ok {
        root := Some(m);
      }
    }

    // Every fragment is stored under its hash, with the bytes that hash stands for.
    ghost predicate Holds(fs: seq<FragmentRef>)
      reads this
    {
      forall i :: 0 <= i < |fs| ==>
        fs[i].byteCount == |fs[i].hash| && Path(i, fs[i].hash) in fragments && fragments[Path(i, fs[i].hash)] == fs[i].hash
    }

    // Objects stored under a path hold what the path's hash stands for.
    ghost predicate Valid()
      reads this
    {
      forall p :: p in fragments ==> fragments[p] == p.hash
    }

    // Cuts an encoded record into fragments and writes them, then the manifest. A body that fits
    // in one object is left to the caller. The objects written are as many as were announced.
    method Persist(record: StateRecord, bytes: seq<Byte>, limits: Limits, manifestSize: nat)
      returns (r: Result<bool, FragmentError>, ghost written: nat)
      requires Valid() && limits.maxFragmentBytes > 0
      modifies this
      ensures Valid() && forall p :: p in old(fragments) ==> p in fragments
      ensures r == Ok(false) <==> |record.payload| <= limits.maxStateBytes && |bytes| <= limits.maxFragmentBytes
      ensures r == Ok(true) <==>
        && |record.payload| <= limits.maxStateBytes && limits.maxFragmentBytes < |bytes| && manifestSize <= limits.maxFragmentBytes
        && (old(root) == None || old(root) == Some(ManifestOf(record, bytes, limits.maxFragmentBytes, manifestSize)))
      ensures r == Ok(true) ==>
        && root == Some(ManifestOf(record, bytes, limits.maxFragmentBytes, manifestSize))
        && Holds(root.value.fragments) && Joined(root.value.fragments) == bytes
        && Tiles(root.value) && |root.value.fragments| == DivCeil(|bytes|, limits.maxFragmentBytes)
        && written == DurableObjectCount(|bytes|, limits.maxFragmentBytes)
      ensures r != Ok(true) ==> root == old(root)
    {
      written := 0;
      if |record.payload| > limits.maxStateBytes {
        return Err(TooLarge), 0;
      }
      var size := limits.maxFragmentBytes;
      if |bytes| <= size {
        return Ok(false), 0;
      }
      var fs := Cut(bytes, size);
      written := |fs| + 1;
      var m := Manifest(SCHEMA_VERSION, record.(payload := []), |bytes|, |record.payload|, fs, size, manifestSize);
      ChunksJoin(bytes, size);
      ChunksCount(bytes, size);
      forall i | 0 <= i < |fs| ensures fs[i].byteCount == Expected(m, i) {
        ChunksTile(bytes, size, i);
      }
      if manifestSize > size {
        return Err(TooLarge), written;
      }
      var ok := PutRoot(m);
      r := if ok then Ok(true) else Err(WriteConflict);
    }

    // Writes one more fragment. A path names its content, so the write cannot conflict.
    method PutNext(chunk: seq<Byte>, fs: seq<FragmentRef>) returns (more: seq<FragmentRef>)
      requires Valid() && Holds(fs)
      modifies this`fragments
      ensures Valid() && (forall p :: p in old(fragments) ==> p in fragments)
      ensures more == fs + [FragmentRef(chunk, |chunk|)] && Holds(more)
    {
      var ok := PutFragment(Path(|fs|, chunk), chunk);
      assert ok;
      more := fs + [FragmentRef(chunk, |chunk|)];
    }

    // Writes the fragments of a body.
    method Cut(bytes: seq<Byte>, size: nat) returns (fs: seq<FragmentRef>)
      requires Valid() && size > 0
      modifies this`fragments
      ensures Valid() && forall p :: p in old(fragments) ==> p in fragments
      ensures Holds(fs) && fs == Chunks(bytes, size)
    {
      fs := [];
      var at := 0;
      assert bytes[0..] == bytes;
      while at < |bytes|
        invariant 0 <= at <= |bytes|
        invariant Valid() && forall p :: p in old(fragments) ==> p in fragments
        invariant Holds(fs) && fs + Chunks(bytes[at..], size) == Chunks(bytes, size)
      {
        var end := Min(at + size, |bytes|);
        ChunksStep(bytes, at, end, size);
        fs := PutNext(bytes[at..end], fs);
        at := end;
      }
      assert bytes[at..] == [];
    }

    // Reads the fragments of a manifest and joins them.
    method ReadFragments(m: Manifest) returns (r: Result<seq<Byte>, FragmentError>)
      ensures r.Ok? <==> Holds(m.fragments)
      ensures r.Ok? ==> r.value == Joined(m.fragments)
    {
      var payload: seq<Byte> := [];
      var i := 0;
      assert m.fragments[0..] == m.fragments;
      while i < |m.fragments|
        invariant 0 <= i <= |m.fragments|
        invariant Holds(m.fragments[..i]) && payload + Joined(m.fragments[i..]) == Joined(m.fragments)
      {
        var f := m.fragments[i];
        var path := Path(i, f.hash);
        if path !in fragments || |fragments[path]| != f.byteCount || fragments[path] != f.hash {
          return Err(Invalid);
        }
        assert m.fragments[i..][0] == f && m.fragments[i..][1..] == m.fragments[i + 1..];
        payload := payload + fragments[path];
        i := i + 1;
      }
      assert m.fragments[..i] == m.fragments && m.fragments[i..] == [];
      r := Ok(payload);
    }

    // The body decodes to a record with the announced state length and header.
    predicate Restores(m: Manifest, body: seq<Byte>, codec: Codec, limits: Limits) {
      var restored := codec.decode(body, limits.maxStateBytes);
      && restored.Some? && |restored.value.payload| == m.stateBytes && restored.value.(payload := []) == m.header
    }

    // Reads a record back. It succeeds exactly when the manifest is acceptable for the key, every
    // fragment is there as listed, and the body decodes to what the manifest announces.
    method Hydrate(codec: Codec, limits: Limits) returns (r: Result<StateRecord, FragmentError>)
      requires root.Some?
      ensures r.Ok? <==>
        && HeaderOk(root.value, key, limits) && Tiles(root.value) && Holds(root.value.fragments)
        && Restores(root.value, Joined(root.value.fragments), codec, limits)
      ensures r.Ok? ==> codec.decode(Joined(root.value.fragments), limits.maxStateBytes) == Some(r.value) && r.value.identity == key
    {
      var m := root.value;
      var valid := ValidateManifest(m, key, limits);
      if valid.Err? {
        return Err(valid.error);
      }
      var payload := ReadFragments(m);
      if payload.Err? {
        return Err(payload.error);
      }
      if !Restores(m, payload.value, codec, limits) {
        return Err(Invalid);
      }
      r := Ok(codec.decode(payload.value, limits.maxStateBytes).value);
    }

    // Writing a record and reading it back gives the same record, for every reader whose limits
    // admit it.
    method RoundTrip(record: StateRecord, codec: Codec, writer: Limits, reader: Limits, manifestSize: nat)
      returns (wrote: Result<bool, FragmentError>, read: Result<StateRecord, FragmentError>)
      requires Valid() && writer.maxFragmentBytes > 0 && CodecOk(codec) && record.identity == key
      modifies this
      ensures wrote == Ok(true) && writer.maxFragmentBytes <= reader.maxFragmentBytes
              && 0 < |record.payload| <= reader.maxStateBytes && |codec.encode(record)| <= EncodedLimit(reader.maxStateBytes) ==>
              read == Ok(record)
    {
      ghost var written;
      var bytes := codec.encode(record);
      wrote, written := Persist(record, bytes, writer, manifestSize);
      read := Err(Invalid);
      if wrote == Ok(true) {
        CeilBounds(|bytes|, writer.maxFragmentBytes);
        read := Hydrate(codec, reader);
      }
    }
  }
}
