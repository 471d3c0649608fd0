/** The overlay's tensors in the K formats: the chunk quantizers of
    tools/prepare_mixed_expert_repack.py work row by row, their tensors have the recorded sizes, and
    the runtime (tools/memra_cpu_experts.cpp) finds each row's weights where it looks for them. */
module OverlayFormats {
  import opened Options
  import opened OverlayBuild
  import D = DotKernels
  import K = KQuantizer
  import Q = QuantizedDot
  import V = QuantizerBounds
  import opened Rounding

  /** The tensor `id` is encoded in a K format: its rows have the shape's width, the quantizer is
      that format's packer, and the manifest knows the block's size. */
  ghost predicate InFormat(s: Setup, id: Id, format: D.Format, h: K.HalfFloat) {
    && K.KeepsSign(h)
    && s.format(QtypeOf(s, id)) == Format(256, D.BlockBytes(format))
    && (forall k: nat :: |s.row(id, k)| == s.inF(FileOf(id)))
    && (forall row | |row| % 256 == 0 :: s.quant(id, row) == K.Packed(format, h, row))
  }

  /** The rows of a chunk, one after the other, as they reach a quantizer. */
  function Flat(s: Setup, id: Id, first: nat, limit: nat): seq<real>
    requires first <= limit
    decreases limit
  {
    if first == limit then [] else Flat(s, id, first, limit - 1) + s.row(id, limit - 1)
  }

  /** Where row `k` starts, for rows of `size`. */
  function Start(k: nat, size: nat): nat {
    k * size
  }

  lemma OneRowMore(k: nat, size: nat)
    ensures Start(k + 1, size) == Start(k, size) + size && Start(0, size) == 0
  {
  }

  /** `part` is what `bytes` has at `at`. */
  ghost predicate Holds(bytes: seq<Byte>, at: nat, part: seq<Byte>) {
    at + |part| <= |bytes| && bytes[at..at + |part|] == part
  }

  lemma {:induction false} FlatLength(s: Setup, id: Id, first: nat, limit: nat)
    requires first <= limit && forall k: nat :: |s.row(id, k)| == s.inF(FileOf(id))
    ensures |Flat(s, id, first, limit)| == Start(limit - first, s.inF(FileOf(id)))
    decreases limit
  {
    hide Start;
    OneRowMore(if first < limit then limit - 1 - first else 0, s.inF(FileOf(id)));
    if first < limit {
      FlatLength(s, id, first, limit - 1);
    }
  }

  lemma RowIsPacked(s: Setup, id: Id, format: D.Format, h: K.HalfFloat, k: nat)
    requires InFormat(s, id, format, h) && s.inF(FileOf(id)) % 256 == 0
    ensures |s.row(id, k)| % 256 == 0 && s.quant(id, s.row(id, k)) == K.Packed(format, h, s.row(id, k))
  {
    hide K.Packed;
  }

  lemma MultiplesAdd(a: nat, b: nat)
    requires a % 256 == 0 && b % 256 == 0
    ensures (a + b) % 256 == 0
  {
  }

  lemma OneRowLonger(s: Setup, id: Id, format: D.Format, h: K.HalfFloat, first: nat, limit: nat)
    requires first < limit && K.KeepsSign(h) && |s.row(id, limit - 1)| % 256 == 0
    requires s.quant(id, s.row(id, limit - 1)) == K.Packed(format, h, s.row(id, limit - 1))
    requires |Flat(s, id, first, limit - 1)| % 256 == 0
    requires K.Packed(format, h, Flat(s, id, first, limit - 1)) == EncodedRows(s, id, first, limit - 1)
    ensures |Flat(s, id, first, limit)| % 256 == 0
    ensures K.Packed(format, h, Flat(s, id, first, limit)) == EncodedRows(s, id, first, limit)
  {
    hide K.Packed, K.KeepsSign;
    MultiplesAdd(|Flat(s, id, first, limit - 1)|, |s.row(id, limit - 1)|);
    K.PackedJoins(format, h, Flat(s, id, first, limit - 1), s.row(id, limit - 1));
  }

  /** Packing the rows of a chunk together is packing them one by one. */
  lemma {:induction false} ChunkIsRows(s: Setup, id: Id, format: D.Format, h: K.HalfFloat, first: nat, limit: nat)
    requires InFormat(s, id, format, h) && s.inF(FileOf(id)) % 256 == 0 && first <= limit
    ensures |Flat(s, id, first, limit)| % 256 == 0
    ensures K.Packed(format, h, Flat(s, id, first, limit)) == EncodedRows(s, id, first, limit)
    decreases limit
  {
    hide K.Packed, K.KeepsSign;
    if first == limit {
      K.EmptyPacked(format, h);
    } else {
      hide Flat, EncodedRows;
      ChunkIsRows(s, id, format, h, first, limit - 1);
      RowIsPacked(s, id, format, h, limit - 1);
      OneRowLonger(s, id, format, h, first, limit);
    }
  }

  /** A K quantizer on one chunk: refused when a row is not a whole number of blocks, and otherwise
      exactly the rows' own encodings, so the size of the chunk cannot matter. */
  method QuantizeKChunk(s: Setup, id: Id, format: D.Format, h: K.HalfFloat, first: nat, limit: nat)
    returns (part: Option<seq<Byte>>)
    requires InFormat(s, id, format, h) && first <= limit
    ensures part == None <==> s.inF(FileOf(id)) % 256 != 0
    ensures part.Some? ==> part.value == EncodedRows(s, id, first, limit)
  {
    hide K.Packed;
    var inF := s.inF(FileOf(id));
    FlatLength(s, id, first, limit);
    part := K.QuantizeRows(format, h, Flat(s, id, first, limit), limit - first, inF);
    if part.Some? {
      ChunkIsRows(s, id, format, h, first, limit);
    }
  }

  lemma RowBytesOf(s: Setup, id: Id, format: D.Format, h: K.HalfFloat, k: nat)
    requires InFormat(s, id, format, h) && s.inF(FileOf(id)) % 256 == 0
    ensures s.quant(id, s.row(id, k)) == K.Packed(format, h, s.row(id, k))
    ensures |s.quant(id, s.row(id, k))| == RowBytes(s, id)
  {
    hide K.Packed;
    var row := s.row(id, k);
    var n := |row| / 256;
    assert |row| % 256 == 0;
    K.PackedLength(format, h, row, n);
    Commute(n, D.BlockBytes(format));
  }

  lemma Commute(a: nat, b: nat)
    ensures a * b == b * a
  {
  }

  /** The first `n` rows have their recorded size, and each sits at its multiple of the row size. */
  lemma {:induction false} RowInTensor(s: Setup, id: Id, format: D.Format, h: K.HalfFloat, n: nat, k: nat)
    requires InFormat(s, id, format, h) && s.inF(FileOf(id)) % 256 == 0
    ensures |EncodedRows(s, id, 0, n)| == Start(n, RowBytes(s, id))
    ensures k < n ==> Holds(EncodedRows(s, id, 0, n), Start(k, RowBytes(s, id)), s.quant(id, s.row(id, k)))
  {
    hide K.Packed, RowBytes, InFormat, Holds, Start;
    var size := RowBytes(s, id);
    OneRowMore(if n > 0 then n - 1 else 0, size);
    if n > 0 {
      RowInTensor(s, id, format, h, n - 1, k);
      RowBytesOf(s, id, format, h, n - 1);
      HoldsLast(EncodedRows(s, id, 0, n - 1), s.quant(id, s.row(id, n - 1)));
      if k < n - 1 {
        HoldsLonger(EncodedRows(s, id, 0, n - 1), s.quant(id, s.row(id, n - 1)), Start(k, size),
                    s.quant(id, s.row(id, k)));
      }
    }
  }

  lemma HoldsLast(front: seq<Byte>, last: seq<Byte>)
    ensures Holds(front + last, |front|, last)
  {
  }

  lemma HoldsLonger(front: seq<Byte>, last: seq<Byte>, at: nat, part: seq<Byte>)
    requires Holds(front, at, part)
    ensures Holds(front + last, at, part)
  {
    assert (front + last)[at..at + |part|] == front[at..at + |part|];
  }

  lemma HoldsWithin(bytes: seq<Byte>, offset: nat, length: nat, at: nat, part: seq<Byte>)
    requires offset + length <= |bytes| && Holds(bytes[offset..offset + length], at, part)
    ensures Holds(bytes, offset + at, part)
  {
    var inner := bytes[offset..offset + length];
    forall i | 0 <= i < |part| ensures bytes[offset + at + i] == part[i] {
      assert inner[at..at + |part|][i] == inner[at + i];
    }
    assert bytes[offset + at..offset + at + |part|] == part;
  }

  /** So the writer's size check never fires for these formats. */
  lemma KTensorsEncode(s: Setup, id: Id, format: D.Format, h: K.HalfFloat)
    requires InFormat(s, id, format, h) && Aligned(s, id)
    ensures Encodes(s, id)
  {
    hide RowBytes, InFormat;
    assert s.inF(FileOf(id)) % 256 == 0 by { AlignedRows(s, id, format, h); }
    RowInTensor(s, id, format, h, s.outF(FileOf(id)), 0);
  }

  lemma AlignedRows(s: Setup, id: Id, format: D.Format, h: K.HalfFloat)
    requires InFormat(s, id, format, h) && Aligned(s, id)
    ensures s.inF(FileOf(id)) % 256 == 0
  {
  }

  /** Row `k` of a tensor in a written file, where the runtime looks for it. */
  lemma RowInFile(s: Setup, id: Id, format: D.Format, h: K.HalfFloat, k: nat)
    requires Writable(s, FileOf(id)) && id in Experts(s, FileOf(id)) && k < s.outF(FileOf(id))
    requires InFormat(s, id, format, h)
    ensures |s.row(id, k)| % 256 == 0 && |K.Packed(format, h, s.row(id, k))| == SpecOf(s, id).rowBytes
    ensures SpecOf(s, id).offset >= 0
    ensures Holds(Payload(s, FileOf(id)), SpecOf(s, id).offset + Start(k, SpecOf(s, id).rowBytes),
                  K.Packed(format, h, s.row(id, k)))
  {
    hide K.Packed, RowBytes, Payload, Experts, EncodedRows, Holds, Start, SizeIn, Size;
    assert Aligned(s, id) && Encodes(s, id);
    AlignedRows(s, id, format, h);
    RowBytesOf(s, id, format, h, k);
    RowInTensor(s, id, format, h, s.outF(FileOf(id)), k);
    var i :| 0 <= i < |Experts(s, FileOf(id))| && Experts(s, FileOf(id))[i] == id;
    RecordsTileTheFile(s, FileOf(id), i);
    var spec := SpecOf(s, id);
    HoldsWithin(Payload(s, FileOf(id)), spec.offset, spec.bytes, Start(k, spec.rowBytes), s.quant(id, s.row(id, k)));
  }

  /** The bytes of row `k` in the file of its tensor: what the runtime hands to a kernel. */
  function RowOfFile(s: Setup, id: Id, k: nat): seq<Byte> {
    var spec := SpecOf(s, id);
    var at := spec.offset + Start(k, spec.rowBytes);
    if 0 <= at && at + spec.rowBytes <= |Payload(s, FileOf(id))|
    then Payload(s, FileOf(id))[at..at + spec.rowBytes] else []
  }

  lemma RowOfFileIsPacked(s: Setup, id: Id, format: D.Format, h: K.HalfFloat, k: nat)
    requires Writable(s, FileOf(id)) && id in Experts(s, FileOf(id)) && k < s.outF(FileOf(id))
    requires InFormat(s, id, format, h)
    ensures |s.row(id, k)| % 256 == 0 && RowOfFile(s, id, k) == K.Packed(format, h, s.row(id, k))
  {
    hide K.Packed, Payload, SpecOf, Start, Writable, Experts, InFormat;
    RowInFile(s, id, format, h, k);
  }

  /** From the source tensor to the runtime's result: the kernel on the bytes of row `k`, taken from
      the written file at its record, is within the quantizers' slack of the dot product of the
      source row and the inputs. */
  lemma FileRowDot(s: Setup, id: Id, format: D.Format, h: K.HalfFloat, k: nat, inputs: seq<real>,
                   activation: seq<D.Q8Block<real>>, n: nat)
    requires Writable(s, FileOf(id)) && id in Experts(s, FileOf(id)) && k < s.outF(FileOf(id))
    requires InFormat(s, id, format, h)
    requires |inputs| == s.inF(FileOf(id)) == 256 * n && Q.Quantizes(activation, inputs)
    ensures |s.row(id, k)| == |inputs| && |activation| == 16 * n && D.Blocks(format, RowOfFile(s, id, k)) == n
    ensures Abs(D.Row(D.RealArith(h.load), format, RowOfFile(s, id, k), activation, n)
                - D.SumTo(Q.ExactTerm(s.row(id, k), inputs), 256 * n))
            <= D.SumTo(Q.TermSlack(format, h, s.row(id, k), activation), 256 * n)
  {
    hide K.Packed, RowOfFile, Writable, Experts, Abs, D.Row, D.SumTo, D.Blocks, D.RealArith, Q.ExactTerm, Q.TermSlack;
    RowOfFileIsPacked(s, id, format, h, k);
    Q.KernelComputesTheDot(format, h, s.row(id, k), inputs, activation, n);
  }

  /** The same with a bound in the source row and the inputs alone. */
  lemma FileRowIsWithin(s: Setup, id: Id, format: D.Format, h: K.HalfFloat, part: real, k: nat, inputs: seq<real>,
                        activation: seq<D.Q8Block<real>>, n: nat)
    requires Writable(s, FileOf(id)) && id in Experts(s, FileOf(id)) && k < s.outF(FileOf(id))
    requires InFormat(s, id, format, h) && V.Close(h, part)
    requires |inputs| == s.inF(FileOf(id)) == 256 * n && Q.Quantizes(activation, inputs)
    ensures |s.row(id, k)| == |inputs| && |activation| == 16 * n && D.Blocks(format, RowOfFile(s, id, k)) == n
    ensures Abs(D.Row(D.RealArith(h.load), format, RowOfFile(s, id, k), activation, n)
                - D.SumTo(Q.ExactTerm(s.row(id, k), inputs), 256 * n))
            <= D.SumTo(Q.TermError(format, part, s.row(id, k), inputs), 256 * n)
  {
    hide K.Packed, RowOfFile, Writable, Experts, Abs, D.Row, D.SumTo, D.Blocks, D.RealArith, Q.ExactTerm, Q.TermError,
         V.Close;
    RowOfFileIsPacked(s, id, format, h, k);
    Q.KernelIsWithin(format, h, part, s.row(id, k), inputs, activation, n);
  }
}
