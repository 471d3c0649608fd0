/** Building an expert overlay from a plan and a source, layer by layer
    (tools/prepare_mixed_expert_repack.py): what is written does not depend on the
    row chunks or on the number of workers. */
module OverlayBuild {
  import opened Sorting

  type Byte = bv8
  type Row = seq<real>
  type Qtype = nat

  datatype Projection = Gate | Up | Down

  datatype Name = Expert(layer: nat, expert: nat, projection: Projection) | Other(text: string)

  type Id = n: Name | n.Expert? witness Expert(0, 0, Gate)

  datatype File = File(layer: nat, projection: Projection)

  datatype Spec = Spec(file: File, offset: int, qtype: Qtype, inF: nat, outF: nat, rowBytes: nat, bytes: int)

  datatype Tier = Tier(experts: nat, projections: nat, bytes: nat)

  /** Values per block and bytes per block. */
  datatype Format = Format(block: nat, typeSize: nat)

  /** A loaded plan and its source. `quant` encodes one row; a tensor's name fixes its encoding
      and importance, and every quantizer works row by row. */
  datatype Setup = Setup(
    expertCount: nat,
    pruned: map<nat, set<nat>>,
    qtypes: map<Name, Qtype>,
    stacked: File -> bool,
    inF: File -> nat,
    outF: File -> nat,
    format: Qtype -> Format,
    row: (Name, nat) -> Row,
    quant: (Name, Row) -> seq<Byte>)

  function FileOf(id: Id): File {
    File(id.layer, id.projection)
  }

  predicate Pruned(s: Setup, layer: nat, expert: nat) {
    layer in s.pruned && expert in s.pruned[layer]
  }

  function QtypeOf(s: Setup, id: Id): Qtype {
    if id in s.qtypes then s.qtypes[id] else 0
  }

  // ----- one expert's bytes -----

  function EncodedRows(s: Setup, id: Id, first: nat, limit: nat): seq<Byte>
    requires first <= limit
    decreases limit
  {
    if first == limit then [] else EncodedRows(s, id, first, limit - 1) + s.quant(id, s.row(id, limit - 1))
  }

  function Encode(s: Setup, id: Id): seq<Byte> {
    EncodedRows(s, id, 0, s.outF(FileOf(id)))
  }

  lemma {:induction false} RowsJoin(s: Setup, id: Id, a: nat, b: nat, c: nat)
    requires a <= b <= c
    ensures EncodedRows(s, id, a, b) + EncodedRows(s, id, b, c) == EncodedRows(s, id, a, c)
    decreases c
  {
    if b == c {
    } else {
      RowsJoin(s, id, a, b, c - 1);
    }
  }

  function Min(a: nat, b: nat): nat {
    if a < b then a else b
  }

  function Quotient(a: nat, b: nat): nat
    requires b > 0
  {
    a / b
  }

  /** `row_chunk_for` */
  function RowChunk(inF: nat, targetBytes: nat): nat {
    var perRow := if inF == 0 then 1 else inF * 16;
    var rows := Min(4096, Quotient(targetBytes, perRow));
    if rows < 1 then 1 else rows
  }

  /** A quantizer on the rows of one chunk. */
  method QuantizeChunk(s: Setup, id: Id, first: nat, limit: nat) returns (part: seq<Byte>)
    requires first <= limit
    ensures part == EncodedRows(s, id, first, limit)
  {
    part := [];
    for k := first to limit
      invariant part == EncodedRows(s, id, first, k)
    {
      part := part + s.quant(id, s.row(id, k));
    }
  }

  /** The chunks of rows, whatever their size, join to the encoding of the whole tensor. */
  method EncodeExpert(s: Setup, id: Id, maxWork: nat) returns (data: seq<Byte>)
    ensures data == Encode(s, id)
  {
    var outF := s.outF(FileOf(id));
    var chunk := RowChunk(s.inF(FileOf(id)), maxWork);
    var start := 0;
    data := [];
    while start < outF
      invariant start <= outF && data == EncodedRows(s, id, 0, start)
    {
      var end := Min(start + chunk, outF);
      var part := QuantizeChunk(s, id, start, end);
      RowsJoin(s, id, 0, start, end);
      data := data + part;
      start := end;
    }
  }

  // ----- worker batches -----

  function EncodeAll(s: Setup, ids: seq<Id>): seq<seq<Byte>> {
    seq(|ids|, k requires 0 <= k < |ids| => Encode(s, ids[k]))
  }

  /** The tasks of one batch finish in any order; their results keep the order of the batch. */
  method RunBatch(s: Setup, ids: seq<Id>, maxWork: nat) returns (results: seq<seq<Byte>>)
    ensures results == EncodeAll(s, ids)
  {
    results := seq(|ids|, _ => []);
    var done := seq(|ids|, _ => false);
    while false in done
      invariant |results| == |done| == |ids|
      invariant forall k | 0 <= k < |ids| && done[k] :: results[k] == Encode(s, ids[k])
      decreases multiset(done)[false]
    {
      var k :| 0 <= k < |done| && !done[k];
      var data := EncodeExpert(s, ids[k], maxWork);
      results, done := results[k := data], done[k := true];
    }
  }

  method EncodeBatches(s: Setup, ids: seq<Id>, maxWork: nat, workers: nat) returns (encoded: seq<seq<Byte>>)
    requires workers > 0
    ensures encoded == EncodeAll(s, ids)
  {
    encoded := [];
    var start := 0;
    while start < |ids|
      invariant start <= |ids| && encoded == EncodeAll(s, ids[..start])
    {
      var end := Min(start + workers, |ids|);
      var batch := RunBatch(s, ids[start..end], maxWork);
      encoded := encoded + batch;
      start := end;
    }
    assert ids[..start] == ids;
  }

  // ----- layout -----

  function RowBytes(s: Setup, id: Id): nat {
    var f := s.format(QtypeOf(s, id));
    if f.block == 0 then 0 else s.inF(FileOf(id)) / f.block * f.typeSize
  }

  function Size(s: Setup, id: Id): nat {
    s.outF(FileOf(id)) * RowBytes(s, id)
  }

  function SizeIn(s: Setup): Id -> nat {
    (id: Id) => Size(s, id)
  }

  predicate Aligned(s: Setup, id: Id) {
    var f := s.format(QtypeOf(s, id));
    f.block > 0 && s.inF(FileOf(id)) % f.block == 0
  }

  /** The retained experts below `n`, in order. */
  function Active(s: Setup, file: File, n: nat): seq<Id> {
    if n == 0 then []
    else Active(s, file, n - 1)
         + if Pruned(s, file.layer, n - 1) then [] else [Expert(file.layer, n - 1, file.projection)]
  }

  function Experts(s: Setup, file: File): seq<Id> {
    Active(s, file, s.expertCount)
  }

  /** The record of a tensor: its place is the total size of the retained experts before it. */
  function SpecOf(s: Setup, id: Id): Spec {
    Spec(FileOf(id), Sum(SizeIn(s), Active(s, FileOf(id), id.expert)), QtypeOf(s, id),
         s.inF(FileOf(id)), s.outF(FileOf(id)), RowBytes(s, id), Size(s, id))
  }

  /** A record carries the encoding the plan assigns and the tensor's shape, and its sizes are those of that
      encoding: `block` values of a row take `typeSize` bytes. */
  lemma RecordIsAssigned(s: Setup, id: Id)
    requires id in s.qtypes && s.format(s.qtypes[id]).block > 0
    requires s.inF(FileOf(id)) % s.format(s.qtypes[id]).block == 0
    ensures var spec, f := SpecOf(s, id), s.format(s.qtypes[id]);
            && spec.file.layer == id.layer && spec.file.projection == id.projection
            && spec.qtype == s.qtypes[id] && spec.inF == s.inF(spec.file) && spec.outF == s.outF(spec.file)
            && spec.rowBytes * f.block == spec.inF * f.typeSize && spec.bytes == spec.outF * spec.rowBytes
  {
    var f, width := s.format(s.qtypes[id]), s.inF(FileOf(id));
    assert width == width / f.block * f.block;
    assert width / f.block * f.typeSize * f.block == width / f.block * f.block * f.typeSize;
  }

  function Flatten(parts: seq<seq<Byte>>): seq<Byte> {
    if parts == [] then [] else Flatten(parts[..|parts| - 1]) + parts[|parts| - 1]
  }

  function Payload(s: Setup, file: File): seq<Byte> {
    Flatten(EncodeAll(s, Experts(s, file)))
  }

  lemma {:induction false} ActivePrefix(s: Setup, file: File, n: nat, k: nat)
    requires k < |Active(s, file, n)|
    ensures var id := Active(s, file, n)[k];
            && FileOf(id) == file && id.expert < n && !Pruned(s, file.layer, id.expert)
            && Active(s, file, id.expert) == Active(s, file, n)[..k]
  {
    var before := Active(s, file, n - 1);
    if k < |before| {
      ActivePrefix(s, file, n - 1, k);
    } else {
      assert Active(s, file, n)[..k] == before;
    }
  }

  lemma {:induction false} ActiveHolds(s: Setup, file: File, n: nat, id: Id)
    ensures id in Active(s, file, n) <==> FileOf(id) == file && id.expert < n && !Pruned(s, file.layer, id.expert)
  {
    if n == 0 {
    } else {
      ActiveHolds(s, file, n - 1, id);
    }
  }

  /** A file holds exactly the experts that the plan does not prune from its layer, in ascending order. */
  lemma ExpertsAreRetained(s: Setup, file: File, id: Id)
    ensures id in Experts(s, file) <==>
              && id.layer == file.layer && id.projection == file.projection && id.expert < s.expertCount
              && (id.layer in s.pruned ==> id.expert !in s.pruned[id.layer])
    ensures var ids := Experts(s, file); forall i, j | 0 <= i < j < |ids| :: ids[i].expert < ids[j].expert
  {
    ActiveHolds(s, file, s.expertCount, id);
    var ids := Experts(s, file);
    forall i, j | 0 <= i < j < |ids| ensures ids[i].expert < ids[j].expert {
      ActivePrefix(s, file, s.expertCount, j);
      assert ids[..j][i] == ids[i];
      ActiveHolds(s, file, ids[j].expert, ids[i]);
    }
  }

  lemma ActiveIsDistinct(s: Setup, file: File, n: nat)
    ensures Distinct(Active(s, file, n))
  {
    var ids := Active(s, file, n);
    forall i, j | 0 <= i < j < |ids| ensures ids[i] != ids[j] {
      ActivePrefix(s, file, n, j);
      ActiveHolds(s, file, ids[j].expert, ids[i]);
      assert ids[i] == ids[..j][i];
    }
  }

  predicate Encodes(s: Setup, id: Id) {
    |Encode(s, id)| == Size(s, id)
  }

  /** Nothing stops the writing of this file. */
  ghost predicate Writable(s: Setup, file: File) {
    && (s.stacked(file) || Experts(s, file) != [])
    && forall id | id in Experts(s, file) :: Aligned(s, id) && Encodes(s, id)
  }

  lemma EncodeAllSnoc(s: Setup, ids: seq<Id>)
    requires ids != []
    ensures var n := |ids| - 1;
            Flatten(EncodeAll(s, ids)) == Flatten(EncodeAll(s, ids[..n])) + Encode(s, ids[n])
  {
    hide Encode;
    var n := |ids| - 1;
    assert EncodeAll(s, ids)[..n] == EncodeAll(s, ids[..n]);
  }

  lemma SizesSnoc(s: Setup, ids: seq<Id>)
    requires ids != []
    ensures var n := |ids| - 1; Sum(SizeIn(s), ids) == Sum(SizeIn(s), ids[..n]) + Size(s, ids[n])
  {
    hide Size;
  }

  lemma {:induction false} FlattenLength(s: Setup, ids: seq<Id>)
    requires forall id | id in ids :: Encodes(s, id)
    ensures |Flatten(EncodeAll(s, ids))| == Sum(SizeIn(s), ids)
  {
    if ids == [] {
    } else {
      hide Encode, Size, EncodeAll, Flatten, Sum;
      FlattenLength(s, ids[..|ids| - 1]);
      EncodeAllSnoc(s, ids);
      SizesSnoc(s, ids);
      assert ids[|ids| - 1] in ids;
    }
  }

  lemma {:induction false} FlattenSlice(s: Setup, ids: seq<Id>, k: nat)
    requires k < |ids| && forall id | id in ids :: Encodes(s, id)
    ensures var at := Sum(SizeIn(s), ids[..k]);
            && at + Size(s, ids[k]) <= |Flatten(EncodeAll(s, ids))|
            && Flatten(EncodeAll(s, ids))[at..at + Size(s, ids[k])] == Encode(s, ids[k])
  {
    hide Encode, Size, EncodeAll, Flatten, Sum, SizeIn;
    var n := |ids| - 1;
    var before := ids[..n];
    FlattenLength(s, before);
    EncodeAllSnoc(s, ids);
    assert ids[n] in ids && Encodes(s, ids[n]);
    if k < n {
      FlattenSlice(s, before, k);
      assert before[..k] == ids[..k];
    }
  }

  /** Every tensor's record points at exactly its encoding, and the records tile the file. */
  lemma RecordsTileTheFile(s: Setup, file: File, k: nat)
    requires Writable(s, file) && k < |Experts(s, file)|
    ensures var ids, spec := Experts(s, file), SpecOf(s, Experts(s, file)[k]);
            && spec.file == file
            && 0 <= spec.offset <= spec.offset + spec.bytes <= |Payload(s, file)|
            && Payload(s, file)[spec.offset..spec.offset + spec.bytes] == Encode(s, ids[k])
            && (if k + 1 < |ids| then SpecOf(s, ids[k + 1]).offset == spec.offset + spec.bytes
                else |Payload(s, file)| == spec.offset + spec.bytes)
  {
    hide Size, Encode, Encodes, Sum, SizeIn, Flatten, EncodeAll, Active, Aligned, RowBytes;
    var ids := Experts(s, file);
    ActivePrefix(s, file, s.expertCount, k);
    FlattenSlice(s, ids, k);
    FlattenLength(s, ids);
    SizesSnoc(s, ids[..k + 1]);
    assert ids[..k + 1][..k] == ids[..k];
    if k + 1 < |ids| {
      ActivePrefix(s, file, s.expertCount, k + 1);
    } else {
      assert ids[..k + 1] == ids;
    }
  }

  // ----- the manifest's records and totals -----

  function ProjectionsIn(s: Setup, q: Qtype): Id -> nat {
    (id: Id) => if QtypeOf(s, id) == q then 1 else 0
  }

  function ExpertsIn(s: Setup, q: Qtype): Id -> nat {
    (id: Id) => if QtypeOf(s, id) == q && id.projection == Gate then 1 else 0
  }

  function BytesIn(s: Setup, q: Qtype): Id -> nat {
    (id: Id) => if QtypeOf(s, id) == q then Size(s, id) else 0
  }

  function TierOf(s: Setup, ids: seq<Id>, q: Qtype): Tier {
    Tier(Sum(ExpertsIn(s, q), ids), Sum(ProjectionsIn(s, q), ids), Sum(BytesIn(s, q), ids))
  }

  function Qtypes(s: Setup, ids: seq<Id>): set<Qtype> {
    set id | id in ids :: QtypeOf(s, id)
  }

  /** Per encoding, the totals over a list of tensors. */
  function Tiers(s: Setup, ids: seq<Id>): map<Qtype, Tier> {
    map q | q in Qtypes(s, ids) :: TierOf(s, ids, q)
  }

  function Tensors(s: Setup, ids: seq<Id>): map<Name, Spec> {
    map id: Id | id in ids :: SpecOf(s, id)
  }

  /** `setdefault` with zeros. */
  function TierAt(tiers: map<Qtype, Tier>, q: Qtype): Tier {
    if q in tiers then tiers[q] else Tier(0, 0, 0)
  }

  function AddTier(a: Tier, b: Tier): Tier {
    Tier(a.experts + b.experts, a.projections + b.projections, a.bytes + b.bytes)
  }

  function Combine(a: map<Qtype, Tier>, b: map<Qtype, Tier>): map<Qtype, Tier> {
    map q | q in a.Keys + b.Keys :: AddTier(TierAt(a, q), TierAt(b, q))
  }

  lemma TierAtIs(s: Setup, ids: seq<Id>, q: Qtype)
    ensures TierAt(Tiers(s, ids), q) == TierOf(s, ids, q)
  {
    if q !in Qtypes(s, ids) {
      NoneOf(s, ids, q);
    }
  }

  lemma {:induction false} NoneOf(s: Setup, ids: seq<Id>, q: Qtype)
    requires forall id | id in ids :: QtypeOf(s, id) != q
    ensures TierOf(s, ids, q) == Tier(0, 0, 0)
  {
    if ids == [] {
    } else {
      NoneOf(s, ids[..|ids| - 1], q);
    }
  }

  /** Totals of two lists of tensors add up, encoding by encoding. */
  lemma TiersConcat(s: Setup, a: seq<Id>, b: seq<Id>)
    ensures Tiers(s, a + b) == Combine(Tiers(s, a), Tiers(s, b))
  {
    hide Sum, TierAt, QtypeOf, ExpertsIn, ProjectionsIn, BytesIn;
    forall q: Qtype ensures TierOf(s, a + b, q) == AddTier(TierAt(Tiers(s, a), q), TierAt(Tiers(s, b), q)) {
      TierAtIs(s, a, q);
      TierAtIs(s, b, q);
      SumConcat(ExpertsIn(s, q), a, b);
      SumConcat(ProjectionsIn(s, q), a, b);
      SumConcat(BytesIn(s, q), a, b);
    }
    assert Qtypes(s, a + b) == Qtypes(s, a) + Qtypes(s, b);
  }

  function Record(s: Setup, tiers: map<Qtype, Tier>, id: Id): map<Qtype, Tier> {
    var q := QtypeOf(s, id);
    tiers[q := AddTier(TierAt(tiers, q), Tier(if id.projection == Gate then 1 else 0, 1, Size(s, id)))]
  }

  lemma CombineOne(tiers: map<Qtype, Tier>, q: Qtype, t: Tier)
    ensures Combine(tiers, map[q := t]) == tiers[q := AddTier(TierAt(tiers, q), t)]
  {
  }

  lemma TiersSnoc(s: Setup, ids: seq<Id>, id: Id)
    ensures Tiers(s, ids + [id]) == Record(s, Tiers(s, ids), id)
  {
    hide Tiers, Combine, TierAt, AddTier, Size, QtypeOf;
    TiersConcat(s, ids, [id]);
    SingleTier(s, id);
    CombineOne(Tiers(s, ids), QtypeOf(s, id), Tier(if id.projection == Gate then 1 else 0, 1, Size(s, id)));
  }

  lemma SingleTier(s: Setup, id: Id)
    ensures Tiers(s, [id]) == map[QtypeOf(s, id) := Tier(if id.projection == Gate then 1 else 0, 1, Size(s, id))]
  {
    hide Size, QtypeOf;
    var q := QtypeOf(s, id);
    assert Qtypes(s, [id]) == {q};
    assert [] + [id] == [id];
    SumSnoc(ExpertsIn(s, q), [], id);
    SumSnoc(ProjectionsIn(s, q), [], id);
    SumSnoc(BytesIn(s, q), [], id);
  }

  // ----- prepare -----

  function LayerListing(s: Setup, layer: nat): seq<Id> {
    Experts(s, File(layer, Gate)) + Experts(s, File(layer, Up)) + Experts(s, File(layer, Down))
  }

  /** The tensors of the layers in the order they are written. */
  function Listing(s: Setup, layers: seq<nat>): seq<Id> {
    if layers == [] then [] else Listing(s, layers[..|layers| - 1]) + LayerListing(s, layers[|layers| - 1])
  }

  ghost predicate LayerWritable(s: Setup, layer: nat) {
    Writable(s, File(layer, Gate)) && Writable(s, File(layer, Up)) && Writable(s, File(layer, Down))
  }

  /** These records and totals are those of exactly these tensors. */
  ghost predicate Describes(s: Setup, ids: seq<Id>, tensors: map<Name, Spec>, tiers: map<Qtype, Tier>) {
    tensors == Tensors(s, ids) && tiers == Tiers(s, ids)
  }

  lemma DescribesNone(s: Setup)
    ensures Describes(s, [], map[], map[])
  {
  }

  lemma DescribesOneMore(s: Setup, ids: seq<Id>, id: Id, tensors: map<Name, Spec>, tiers: map<Qtype, Tier>)
    requires Describes(s, ids, tensors, tiers)
    ensures Describes(s, ids + [id], tensors[id := SpecOf(s, id)], Record(s, tiers, id))
  {
    hide SpecOf, Record, Tiers;
    TiersSnoc(s, ids, id);
  }

  lemma StartOfFile(s: Setup)
    ensures Sum(SizeIn(s), []) == 0 && Flatten(EncodeAll(s, [])) == []
  {
  }

  /** The running offset and the bytes written so far, after one more expert of the file. */
  lemma NextInFile(s: Setup, file: File, k: nat)
    requires k < |Experts(s, file)|
    ensures var ids := Experts(s, file);
            && Sum(SizeIn(s), ids[..k + 1]) == Sum(SizeIn(s), ids[..k]) + Size(s, ids[k])
            && Flatten(EncodeAll(s, ids[..k + 1])) == Flatten(EncodeAll(s, ids[..k])) + EncodeAll(s, ids)[k]
            && SpecOf(s, ids[k]) == Spec(file, Sum(SizeIn(s), ids[..k]), QtypeOf(s, ids[k]), s.inF(file), s.outF(file),
                                         RowBytes(s, ids[k]), Size(s, ids[k]))
            && (|EncodeAll(s, ids)[k]| == Size(s, ids[k]) <==> Encodes(s, ids[k]))
  {
    hide Size, Encode, Sum, SizeIn, Flatten, Active, RowBytes;
    var ids := Experts(s, file);
    ActivePrefix(s, file, s.expertCount, k);
    assert ids[..k + 1][..k] == ids[..k];
    SizesSnoc(s, ids[..k + 1]);
    EncodeAllSnoc(s, ids[..k + 1]);
  }

  class Manifest {
    var tensors: map<Name, Spec>
    var tiers: map<Qtype, Tier>
    var files: map<File, seq<Byte>>

    constructor ()
      ensures tensors == map[] && tiers == map[] && files == map[]
    {
      tensors, tiers, files := map[], map[], map[];
    }

    /** One projection of one layer. A misaligned tensor, or an encoding of another size than laid
        out, stops the build. */
    method AddProjection(s: Setup, file: File, maxWork: nat, workers: nat, ghost before: seq<Id>) returns (ok: bool)
      requires workers > 0 && Describes(s, before, tensors, tiers)
      modifies this
      ensures ok <==> Writable(s, file)
      ensures ok ==> Describes(s, before + Experts(s, file), tensors, tiers)
      ensures ok ==> files == old(files)[file := Payload(s, file)]
    {
      hide Active, Encode, Aligned, RowBytes, Size, Sum, Describes, Flatten, Record, SpecOf, SizeIn, Encodes, EncodeAll;
      var ids := Experts(s, file);
      if ids == [] && !s.stacked(file) {
        return false;
      }
      var k := 0;
      while k < |ids|
        invariant k <= |ids| && forall i | 0 <= i < k :: Aligned(s, ids[i])
      {
        if !Aligned(s, ids[k]) {
          return false;
        }
        k := k + 1;
      }
      var encoded := EncodeBatches(s, ids, maxWork, workers);
      assert |encoded| == |ids| by {
        EncodeAllLength(s, ids);
      }
      var data: seq<Byte> := [];
      var offset := 0;
      StartOfFile(s);
      assert before + ids[..0] == before && ids[..0] == [];
      k := 0;
      while k < |ids|
        invariant k <= |ids|
        invariant Describes(s, before + ids[..k], tensors, tiers)
        invariant offset == Sum(SizeIn(s), ids[..k]) && data == Flatten(EncodeAll(s, ids[..k]))
        invariant forall i | 0 <= i < k :: Encodes(s, ids[i])
        invariant files == old(files)
      {
        var id := ids[k];
        NextInFile(s, file, k);
        if |encoded[k]| != Size(s, id) {
          return false;
        }
        data := data + encoded[k];
        DescribesOneMore(s, before + ids[..k], id, tensors, tiers);
        assert before + ids[..k] + [id] == before + ids[..k + 1];
        tensors := tensors[id := Spec(file, offset, QtypeOf(s, id), s.inF(file), s.outF(file),
                                    RowBytes(s, id), Size(s, id))];
        tiers := Record(s, tiers, id);
        offset := offset + Size(s, id);
        k := k + 1;
      }
      assert ids[..|ids|] == ids;
      files := files[file := data];
      ok := true;
    }

    /** All layers asked for, in the order asked. */
    method Prepare(s: Setup, layers: seq<nat>, maxWork: nat, workers: nat) returns (ok: bool, artifactBytes: nat)
      requires workers > 0 && tensors == map[] && tiers == map[] && files == map[]
      modifies this
      ensures ok <==> forall layer | layer in layers :: LayerWritable(s, layer)
      ensures ok ==> tensors == Tensors(s, Listing(s, layers)) && tiers == Tiers(s, Listing(s, layers))
      ensures ok ==> files == Files(s, layers)
      ensures ok ==> artifactBytes == Sum(SizeIn(s), Listing(s, layers))
    {
      hide Experts, Tensors, Tiers, Payload, Writable, Describes, Size, SizeIn, Sum;
      ok, artifactBytes := false, 0;
      DescribesNone(s);
      for i := 0 to |layers|
        invariant Describes(s, Listing(s, layers[..i]), tensors, tiers)
        invariant files == Files(s, layers[..i])
        invariant forall j | 0 <= j < i :: LayerWritable(s, layers[j])
      {
        var layer := layers[i];
        ghost var ids := Listing(s, layers[..i]);
        assert layers[..i + 1][..i] == layers[..i];
        ok := AddProjection(s, File(layer, Gate), maxWork, workers, ids);
        if !ok {
          assert layer in layers && !LayerWritable(s, layer);
          return;
        }
        ids := ids + Experts(s, File(layer, Gate));
        ok := AddProjection(s, File(layer, Up), maxWork, workers, ids);
        if !ok {
          assert layer in layers && !LayerWritable(s, layer);
          return;
        }
        ids := ids + Experts(s, File(layer, Up));
        ok := AddProjection(s, File(layer, Down), maxWork, workers, ids);
        if !ok {
          assert layer in layers && !LayerWritable(s, layer);
          return;
        }
        ids := ids + Experts(s, File(layer, Down));
        assert ids == Listing(s, layers[..i + 1]);
        assert LayerWritable(s, layer);
      }
      assert layers[..|layers|] == layers;
      TiersCount(s, Listing(s, layers));
      DescribedTiers(s, Listing(s, layers), tensors, tiers);
      artifactBytes := TierBytes(tiers);
      ok := true;
    }
  }

  lemma EncodeAllLength(s: Setup, ids: seq<Id>)
    ensures |EncodeAll(s, ids)| == |ids|
  {
  }

  lemma DescribedTiers(s: Setup, ids: seq<Id>, tensors: map<Name, Spec>, tiers: map<Qtype, Tier>)
    requires Describes(s, ids, tensors, tiers)
    ensures tensors == Tensors(s, ids) && tiers == Tiers(s, ids)
  {
  }

  function WithLayer(s: Setup, files: map<File, seq<Byte>>, layer: nat): map<File, seq<Byte>> {
    files[File(layer, Gate) := Payload(s, File(layer, Gate))][File(layer, Up) := Payload(s, File(layer, Up))]
      [File(layer, Down) := Payload(s, File(layer, Down))]
  }

  /** The payload files of the layers. */
  function Files(s: Setup, layers: seq<nat>): map<File, seq<Byte>> {
    if layers == [] then map[] else WithLayer(s, Files(s, layers[..|layers| - 1]), layers[|layers| - 1])
  }

  lemma WithLayerHolds(s: Setup, files: map<File, seq<Byte>>, layer: nat, file: File)
    ensures file in WithLayer(s, files, layer) <==> file in files || file.layer == layer
    ensures file in WithLayer(s, files, layer) ==>
              WithLayer(s, files, layer)[file] == if file.layer == layer then Payload(s, file) else files[file]
  {
    hide Payload;
    assert file == File(file.layer, file.projection);
    match file.projection
    case Gate =>
    case Up =>
    case Down =>
  }

  lemma {:induction false} FilesHold(s: Setup, layers: seq<nat>, file: File)
    ensures file in Files(s, layers) <==> file.layer in layers
    ensures file in Files(s, layers) ==> Files(s, layers)[file] == Payload(s, file)
  {
    if layers == [] {
    } else {
      hide Payload, WithLayer;
      var n := |layers| - 1;
      FilesHold(s, layers[..n], file);
      WithLayerHolds(s, Files(s, layers[..n]), layers[n], file);
      assert layers == layers[..n] + [layers[n]];
    }
  }

  function BytesAt(tiers: map<Qtype, Tier>): Qtype -> nat {
    (q: Qtype) => TierAt(tiers, q).bytes
  }

  method TierBytes(tiers: map<Qtype, Tier>) returns (total: nat)
    ensures total == Total(BytesAt(tiers), tiers.Keys)
  {
    total := 0;
    var rest := tiers.Keys;
    while rest != {}
      invariant rest <= tiers.Keys
      invariant total + Total(BytesAt(tiers), rest) == Total(BytesAt(tiers), tiers.Keys)
      decreases |rest|
    {
      var q :| q in rest;
      TotalRemove(BytesAt(tiers), rest, q);
      total := total + tiers[q].bytes;
      rest := rest - {q};
    }
  }

  /** The tiers partition the bytes of the tensors. */
  lemma TiersCount(s: Setup, ids: seq<Id>)
    ensures Total(BytesAt(Tiers(s, ids)), Tiers(s, ids).Keys) == Sum(SizeIn(s), ids)
  {
    var qs := Tiers(s, ids).Keys;
    forall q | q in qs ensures BytesAt(Tiers(s, ids))(q) == BytesOfTier(s, ids)(q) {
    }
    SameTerms(BytesAt(Tiers(s, ids)), BytesOfTier(s, ids), qs);
    BytesPartition(s, ids, qs);
  }

  function BytesOfTier(s: Setup, ids: seq<Id>): Qtype -> nat {
    (q: Qtype) => Sum(BytesIn(s, q), ids)
  }

  lemma {:induction false} BytesPartition(s: Setup, ids: seq<Id>, qs: set<Qtype>)
    requires Qtypes(s, ids) <= qs
    ensures Total(BytesOfTier(s, ids), qs) == Sum(SizeIn(s), ids)
  {
    if ids == [] {
      AllZero(BytesOfTier(s, ids), qs);
    } else {
      hide Size;
      var n := |ids| - 1;
      var before, q := ids[..n], QtypeOf(s, ids[n]);
      BytesPartition(s, before, qs);
      assert q in qs;
      TotalRemove(BytesOfTier(s, ids), qs, q);
      TotalRemove(BytesOfTier(s, before), qs, q);
      SameTerms(BytesOfTier(s, ids), BytesOfTier(s, before), qs - {q});
    }
  }

  lemma {:induction false} AllZero<T(!new)>(f: T -> nat, xs: set<T>)
    requires forall x | x in xs :: f(x) == 0
    ensures Total(f, xs) == 0
  {
    if xs == {} {
    } else {
      var x :| x in xs;
      TotalRemove(f, xs, x);
      AllZero(f, xs - {x});
    }
  }
}
