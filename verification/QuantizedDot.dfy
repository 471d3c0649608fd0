/** From the packers to the kernels: what a dot kernel (tools/memra_cpu_experts.cpp) makes of a row
    that the quantizers (tools/hy3_mlx_to_q4k.py, tools/prepare_mixed_expert_repack.py) packed, and
    how far that is from the dot product of the weights and inputs that were quantized. */
module QuantizedDot {
  import A = ActivationQuantizer
  import opened DotKernels
  import opened KQuantLayout
  import opened KQuantizer
  import opened QuantizerBounds
  import opened Rounding

  /** Weight `j` of a row as quantized, and the error allowed to it. */
  ghost function Weight(format: Format, h: HalfFloat, x: seq<real>, j: nat): real
    requires |x| % 256 == 0 && j < |x|
  {
    Dequantized(format, h, QuantizeBlock(format, h, Values(x, j / 256)), j % 256)
  }

  ghost function WeightSlack(format: Format, h: HalfFloat, x: seq<real>, j: nat): real
    requires |x| % 256 == 0 && j < |x|
  {
    Slack(format, h, QuantizeBlock(format, h, Values(x, j / 256)), GroupAt(format, j % 256))
  }

  lemma WeightIsNear(format: Format, h: HalfFloat, x: seq<real>, j: nat)
    requires |x| % 256 == 0 && j < |x| && KeepsSign(h)
    ensures Abs(x[j] - Weight(format, h, x, j)) <= WeightSlack(format, h, x, j)
  {
    hide QuantizeBlock, Dequantized, Slack;
    QuantizeError(format, h, Values(x, j / 256), j % 256);
    assert Values(x, j / 256)[j % 256] == x[j];
  }

  /** Decoding a packed block gives the dequantized values. */
  lemma DecodeOfUnpacked(format: Format, h: HalfFloat, block: seq<Byte>, z: Quantized, j: nat)
    requires IsBlock(format, block) && Sized(format, z) && j < 256
    requires Unpacks(format, h, block, z)
    ensures Decode(format, h.load, block, j) == Dequantized(format, h, z, j)
  {
    hide Times, Halves, ReaderCode, ReaderScales;
    var g := GroupAt(format, j);
    AffineIsSteps(Times(h.Narrow(z.d), z.scales[g]), Times(h.Narrow(z.dmin), z.minima[g]), z.codes[j]);
  }

  lemma AffineIsSteps(a: real, b: real, q: int)
    ensures Affine(a, b, q) == Times(a, q) - b
  {
  }

  lemma DecodeOfRow(format: Format, h: HalfFloat, x: seq<real>, j: nat)
    requires |x| % 256 == 0 && j < |x| && KeepsSign(h)
    ensures j / 256 < Blocks(format, Packed(format, h, x))
    ensures Decode(format, h.load, BlockAt(format, Packed(format, h, x), j / 256), j % 256)
            == Weight(format, h, x, j)
  {
    hide Decode, Dequantized, Unpacks, QuantizeBlock, Packed, Blocks, BlockAt;
    RowRoundTrip(format, h, x, |x| / 256, j / 256);
    DecodeOfUnpacked(format, h, BlockAt(format, Packed(format, h, x), j / 256),
                     QuantizeBlock(format, h, Values(x, j / 256)), j % 256);
  }

  /** Quantized weight times decoded activation. */
  ghost function QuantizedTerm(format: Format, h: HalfFloat, x: seq<real>, activation: seq<Q8Block<real>>): nat -> real
    requires |x| % 256 == 0
  {
    (j: nat) =>
      if j < |x| && j / 16 < |activation| then Mul(Weight(format, h, x, j), Activation(activation, j)) else 0.0
  }

  /** A kernel on a packed row computes the dot product of the quantized weights and the decoded
      activation, for every number of blocks. */
  lemma PackedRowDot(format: Format, h: HalfFloat, x: seq<real>, activation: seq<Q8Block<real>>, n: nat)
    requires |x| == 256 * n && |activation| == 16 * n && KeepsSign(h) && ValidActivation(activation)
    ensures Blocks(format, Packed(format, h, x)) == n
    ensures Row(RealArith(h.load), format, Packed(format, h, x), activation, n)
            == SumTo(QuantizedTerm(format, h, x, activation), 256 * n)
  {
    hide Weight, Decode, Activation, Packed, Blocks, BlockAt, Row, SumTo, BlockBytes;
    PackedLength(format, h, x, n);
    var packed := Packed(format, h, x);
    RowIsDecodedDot(format, h.load, packed, activation, n);
    forall j: nat | j < 256 * n
      ensures Term(format, h.load, packed, activation)(j) == QuantizedTerm(format, h, x, activation)(j)
    {
      DecodeOfRow(format, h, x, j);
    }
    SumSame(Term(format, h.load, packed, activation), QuantizedTerm(format, h, x, activation), 256 * n);
  }

  lemma {:induction false} SumSame(f: nat -> real, g: nat -> real, n: nat)
    requires forall j: nat | j < n :: f(j) == g(j)
    ensures SumTo(f, n) == SumTo(g, n)
  {
    if n > 0 {
      SumSame(f, g, n - 1);
    }
  }

  lemma {:induction false} SumClose(f: nat -> real, g: nat -> real, slack: nat -> real, n: nat)
    requires forall j: nat | j < n :: Abs(f(j) - g(j)) <= slack(j)
    ensures Abs(SumTo(f, n) - SumTo(g, n)) <= SumTo(slack, n)
  {
    if n > 0 {
      SumClose(f, g, slack, n - 1);
    }
  }

  // ----- the whole error -----

  /** The largest magnitude in block `k` of the inputs. */
  ghost predicate InputPeak(inputs: seq<real>, k: nat, peak: real)
    requires 16 * k + 16 <= |inputs|
  {
    && (forall j | 0 <= j < |inputs| && j / 16 == k :: Abs(inputs[j]) <= peak)
    && (exists j :: 0 <= j < |inputs| && j / 16 == k && Abs(inputs[j]) == peak)
  }

  /** What the activation quantizer made of a vector of numbers. */
  ghost predicate Quantizes(activation: seq<Q8Block<real>>, inputs: seq<real>) {
    && |inputs| == 16 * |activation|
    && ValidActivation(activation)
    && (forall k | 0 <= k < |activation| :: InputPeak(inputs, k, 127.0 * activation[k].scale))
    && (forall j | 0 <= j < |inputs| ::
          A.InStep(activation[j / 16].scale, A.Finite(inputs[j]), activation[j / 16].values[j % 16]))
  }

  /** The quantizer's contract is what `Quantizes` asks. */
  lemma RepresentedIsQuantized(activation: seq<Q8Block<real>>, values: seq<A.Value>, inputs: seq<real>)
    requires |inputs| == |values| == 16 * |activation| && ValidActivation(activation)
    requires forall j | 0 <= j < |inputs| :: values[j] == A.Finite(inputs[j])
    requires forall k | 0 <= k < |activation| :: A.Represents(activation[k], values[16 * k..16 * k + 16])
    ensures Quantizes(activation, inputs)
  {
    forall k | 0 <= k < |activation| ensures InputPeak(inputs, k, 127.0 * activation[k].scale) {
      RepresentedPeak(activation[k], values, inputs, k);
    }
    forall j | 0 <= j < |inputs|
      ensures A.InStep(activation[j / 16].scale, A.Finite(inputs[j]), activation[j / 16].values[j % 16])
    {
      var k := j / 16;
      assert A.Represents(activation[k], values[16 * k..16 * k + 16]);
      assert values[16 * k..16 * k + 16][j % 16] == values[j];
    }
  }

  lemma RepresentedPeak(block: Q8Block<real>, values: seq<A.Value>, inputs: seq<real>, k: nat)
    requires |inputs| == |values| && 16 * k + 16 <= |values|
    requires forall j | 0 <= j < |inputs| :: values[j] == A.Finite(inputs[j])
    requires A.Represents(block, values[16 * k..16 * k + 16])
    ensures InputPeak(inputs, k, 127.0 * block.scale)
  {
    var part, peak := values[16 * k..16 * k + 16], 127.0 * block.scale;
    forall j | 0 <= j < |inputs| && j / 16 == k ensures Abs(inputs[j]) <= peak {
      assert part[j - 16 * k] == A.Finite(inputs[j]);
    }
    if peak == 0.0 {
      assert 16 * k / 16 == k;
      assert Abs(inputs[16 * k]) == peak;
    } else {
      var i :| 0 <= i < 16 && part[i].Finite? && Abs(part[i].x) == peak;
      assert part[i] == values[16 * k + i] && (16 * k + i) / 16 == k;
      assert Abs(inputs[16 * k + i]) == peak;
    }
  }

  ghost function ExactTerm(x: seq<real>, inputs: seq<real>): nat -> real
    requires |x| == |inputs|
  {
    (j: nat) => if j < |x| then Mul(x[j], inputs[j]) else 0.0
  }

  /** A weight's slack times the size of its decoded activation, and half an activation step times
      the size of the weight. */
  ghost function TermSlack(format: Format, h: HalfFloat, x: seq<real>, activation: seq<Q8Block<real>>): nat -> real
    requires |x| % 256 == 0
  {
    (j: nat) =>
      if j < |x| && j / 16 < |activation|
      then ProductSlack(x[j], WeightSlack(format, h, x, j), Activation(activation, j), activation[j / 16].scale / 2.0)
      else 0.0
  }

  ghost function ProductSlack(w: real, slack: real, read: real, half: real): real {
    slack * Abs(read) + Abs(w) * half
  }

  /** From floats to the kernel's result: pack the weights, quantize the inputs, run the kernel, and
      the result is within the sum of the terms' slacks of the true dot product. */
  lemma KernelComputesTheDot(format: Format, h: HalfFloat, x: seq<real>, inputs: seq<real>,
                             activation: seq<Q8Block<real>>, n: nat)
    requires |x| == |inputs| == 256 * n && KeepsSign(h) && Quantizes(activation, inputs)
    ensures Blocks(format, Packed(format, h, x)) == n
    ensures Abs(Row(RealArith(h.load), format, Packed(format, h, x), activation, n)
                - SumTo(ExactTerm(x, inputs), 256 * n))
            <= SumTo(TermSlack(format, h, x, activation), 256 * n)
  {
    hide QuantizedTerm, ExactTerm, TermSlack, Abs, Packed, Blocks, Row, SumTo, BlockBytes, RealArith;
    PackedRowDot(format, h, x, activation, n);
    var rounded, exact := QuantizedTerm(format, h, x, activation), ExactTerm(x, inputs);
    forall j: nat | j < 256 * n
      ensures Abs(rounded(j) - exact(j)) <= TermSlack(format, h, x, activation)(j)
    {
      TermIsNear(format, h, x, inputs, activation, j);
    }
    SumClose(rounded, exact, TermSlack(format, h, x, activation), 256 * n);
  }

  lemma TermIsNear(format: Format, h: HalfFloat, x: seq<real>, inputs: seq<real>,
                   activation: seq<Q8Block<real>>, j: nat)
    requires |x| == |inputs| && |x| % 256 == 0 && j < |x| && KeepsSign(h) && Quantizes(activation, inputs)
    ensures Abs(QuantizedTerm(format, h, x, activation)(j) - ExactTerm(x, inputs)(j))
            <= TermSlack(format, h, x, activation)(j)
  {
    hide Weight, WeightSlack, Activation, ProductSlack, Mul, Abs;
    WeightIsNear(format, h, x, j);
    InputIsNear(activation, inputs, j);
    ProductIsNear(x[j], Weight(format, h, x, j), WeightSlack(format, h, x, j),
                  inputs[j], Activation(activation, j), activation[j / 16].scale / 2.0);
  }

  lemma InputIsNear(activation: seq<Q8Block<real>>, inputs: seq<real>, j: nat)
    requires Quantizes(activation, inputs) && j < |inputs|
    ensures Abs(inputs[j] - Activation(activation, j)) <= activation[j / 16].scale / 2.0
  {
    assert A.InStep(activation[j / 16].scale, A.Finite(inputs[j]), activation[j / 16].values[j % 16]);
    assert Activation(activation, j) == Times(activation[j / 16].scale, activation[j / 16].values[j % 16]);
  }

  lemma ProductIsNear(w: real, kept: real, slack: real, v: real, read: real, half: real)
    requires Abs(w - kept) <= slack && Abs(v - read) <= half
    ensures Abs(Mul(kept, read) - Mul(w, v)) <= ProductSlack(w, slack, read, half)
  {
    Scale(w - kept, slack, read);
    Scale(v - read, half, w);
    assert kept * read - w * v == -((w - kept) * read) - (v - read) * w;
  }

  lemma Scale(a: real, bound: real, b: real)
    requires Abs(a) <= bound
    ensures -(bound * Abs(b)) <= a * b <= bound * Abs(b)
  {
    ProductIsNonNegative(bound - a, Abs(b));
    ProductIsNonNegative(bound + a, Abs(b));
  }

  // ----- the error in terms of weights and inputs alone -----

  ghost function PeakAt(inputs: seq<real>, k: nat): real
    requires 16 * k + 16 <= |inputs|
  {
    PeakExists(inputs, k);
    var peak :| InputPeak(inputs, k, peak);
    peak
  }

  lemma PeakExists(inputs: seq<real>, k: nat)
    requires 16 * k + 16 <= |inputs|
    ensures exists peak :: InputPeak(inputs, k, peak)
  {
    var i := LargestBelow(inputs, k, 16);
    assert InputPeak(inputs, k, Abs(inputs[i]));
  }

  lemma {:induction false} LargestBelow(inputs: seq<real>, k: nat, n: nat) returns (i: nat)
    requires 16 * k + 16 <= |inputs| && 1 <= n <= 16
    ensures 16 * k <= i < 16 * k + n && forall j | 16 * k <= j < 16 * k + n :: Abs(inputs[j]) <= Abs(inputs[i])
  {
    i := 16 * k;
    if n > 1 {
      i := LargestBelow(inputs, k, n - 1);
      if Abs(inputs[16 * k + n - 1]) > Abs(inputs[i]) {
        i := 16 * k + n - 1;
      }
    }
  }

  lemma ScaleIsPeak(activation: seq<Q8Block<real>>, inputs: seq<real>, k: nat)
    requires Quantizes(activation, inputs) && k < |activation|
    ensures 127.0 * activation[k].scale == PeakAt(inputs, k)
  {
    hide ValidActivation, A.InStep;
    var peak, scaled := PeakAt(inputs, k), 127.0 * activation[k].scale;
    var i :| 0 <= i < |inputs| && i / 16 == k && Abs(inputs[i]) == peak;
    var j :| 0 <= j < |inputs| && j / 16 == k && Abs(inputs[j]) == scaled;
  }

  /** Half an activation step is a 254th of the largest input of its block, and a decoded activation is
      no larger than that input. */
  lemma ActivationInPeak(activation: seq<Q8Block<real>>, inputs: seq<real>, j: nat)
    requires Quantizes(activation, inputs) && j < |inputs|
    ensures activation[j / 16].scale / 2.0 == PeakAt(inputs, j / 16) / 254.0
    ensures Abs(Activation(activation, j)) <= PeakAt(inputs, j / 16)
  {
    hide PeakAt, InputPeak, ValidActivation;
    ScaleIsPeak(activation, inputs, j / 16);
    assert A.InStep(activation[j / 16].scale, A.Finite(inputs[j]), activation[j / 16].values[j % 16]);
    CodeInPeak(activation[j / 16].scale, activation[j / 16].values[j % 16], PeakAt(inputs, j / 16));
  }

  lemma CodeInPeak(scale: real, code: int, peak: real)
    requires 127.0 * scale == peak && -127 <= code <= 127
    ensures Abs(Scaled(scale, code)) <= Abs(peak)
  {
    SizeOfProduct(scale, code as real);
    ProductGrows(Abs(scale), Abs(scale), Abs(code as real), 127.0);
  }

  lemma PeakIsMagnitude(inputs: seq<real>, k: nat)
    requires 16 * k + 16 <= |inputs|
    ensures PeakAt(inputs, k) >= 0.0
  {
  }

  /** The bound of one weight's error, from the weights of its block alone. */
  ghost function WeightError(format: Format, part: real, x: seq<real>, j: nat): real
    requires |x| % 256 == 0 && j < |x|
  {
    ErrorIn(format, part, Values(x, j / 256), j % 256)
  }

  /** A term's error: the weight's, times the largest input of its block, and the weight times a 254th
      of that input. */
  ghost function TermError(format: Format, part: real, x: seq<real>, inputs: seq<real>): nat -> real
    requires |x| == |inputs| && |x| % 256 == 0
  {
    (j: nat) => if j < |x| then ErrorOfTerm(format, part, x, inputs, j) else 0.0
  }

  lemma BlockOfInput(size: nat, j: nat)
    requires size % 256 == 0 && j < size
    ensures 16 * (j / 16) + 16 <= size
  {
    assert size % 16 == 0;
  }

  ghost function ErrorOfTerm(format: Format, part: real, x: seq<real>, inputs: seq<real>, j: nat): real
    requires |x| == |inputs| && |x| % 256 == 0 && j < |x|
  {
    BlockOfInput(|x|, j);
    var peak := PeakAt(inputs, j / 16);
    ProductSlack(x[j], WeightError(format, part, x, j), peak, peak / 254.0)
  }

  lemma WeightIsWithin(format: Format, h: HalfFloat, part: real, x: seq<real>, j: nat)
    requires |x| % 256 == 0 && j < |x| && KeepsSign(h) && Close(h, part)
    ensures 0.0 <= Abs(x[j] - Weight(format, h, x, j)) <= WeightError(format, part, x, j)
  {
    hide QuantizeBlock, Dequantized, ErrorIn;
    ErrorInValues(format, h, part, Values(x, j / 256), j % 256);
    assert Values(x, j / 256)[j % 256] == x[j];
  }

  lemma TermIsWithin(format: Format, h: HalfFloat, part: real, x: seq<real>, inputs: seq<real>,
                     activation: seq<Q8Block<real>>, j: nat)
    requires |x| == |inputs| && |x| % 256 == 0 && j < |x| && KeepsSign(h) && Close(h, part)
    requires Quantizes(activation, inputs)
    ensures Abs(QuantizedTerm(format, h, x, activation)(j) - ExactTerm(x, inputs)(j))
            <= TermError(format, part, x, inputs)(j)
  {
    hide Weight, WeightError, Activation, ProductSlack, Mul, PeakAt, KeepsSign, Close, Abs;
    WeightIsWithin(format, h, part, x, j);
    InputIsNear(activation, inputs, j);
    ActivationInPeak(activation, inputs, j);
    PeakIsMagnitude(inputs, j / 16);
    hide Quantizes;
    ProductIsNear(x[j], Weight(format, h, x, j), WeightError(format, part, x, j),
                  inputs[j], Activation(activation, j), activation[j / 16].scale / 2.0);
    SlackGrows(x[j], WeightError(format, part, x, j), Activation(activation, j), PeakAt(inputs, j / 16),
               PeakAt(inputs, j / 16) / 254.0);
  }

  lemma SlackGrows(w: real, slack: real, read: real, peak: real, half: real)
    requires slack >= 0.0 && Abs(read) <= peak
    ensures ProductSlack(w, slack, read, half) <= ProductSlack(w, slack, peak, half)
  {
    ProductGrows(slack, slack, Abs(read), Abs(peak));
  }

  /** The same theorem, with nothing of what was computed in the bound: if half precision keeps every
      value to within `part` of itself, the kernel's result is within the terms' errors, which depend on
      the weights and the inputs only, of the true dot product. */
  lemma KernelIsWithin(format: Format, h: HalfFloat, part: real, x: seq<real>, inputs: seq<real>,
                       activation: seq<Q8Block<real>>, n: nat)
    requires |x| == |inputs| == 256 * n && KeepsSign(h) && Close(h, part) && Quantizes(activation, inputs)
    ensures Blocks(format, Packed(format, h, x)) == n
    ensures Abs(Row(RealArith(h.load), format, Packed(format, h, x), activation, n)
                - SumTo(ExactTerm(x, inputs), 256 * n))
            <= SumTo(TermError(format, part, x, inputs), 256 * n)
  {
    hide QuantizedTerm, ExactTerm, TermError, Abs, Packed, Blocks, Row, SumTo, BlockBytes, RealArith;
    PackedRowDot(format, h, x, activation, n);
    var rounded, exact := QuantizedTerm(format, h, x, activation), ExactTerm(x, inputs);
    forall j: nat | j < 256 * n
      ensures Abs(rounded(j) - exact(j)) <= TermError(format, part, x, inputs)(j)
    {
      TermIsWithin(format, h, part, x, inputs, activation, j);
    }
    SumClose(rounded, exact, TermError(format, part, x, inputs), 256 * n);
  }
}
