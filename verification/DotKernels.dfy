/** The packed-weight dot kernels of tools/memra_cpu_experts.cpp. Every kernel is written over an
    arbitrary arithmetic, so two kernels that agree here agree bit for bit; over the reals each
    one is the sum of decoded weight times decoded activation. */
module DotKernels {
  import opened KQuantLayout
  import opened Rounding

  /** Sixteen 8-bit activations that share a scale, with their sum. */
  datatype Q8Block<F> = Q8Block(scale: F, sum: int, values: Int8x16)

  type Int8x16 = v: seq<int> | |v| == 16 && forall i | 0 <= i < 16 :: -128 <= v[i] < 128
    witness [0, 0, 0, 0, 0, 0, 0, 0, 0, 0, 0, 0, 0, 0, 0, 0]

  predicate ValidBlock<F>(block: Q8Block<F>) {
    block.sum == Total(block.values, 16)
  }

  /** The operations a kernel uses, in no particular arithmetic. */
  datatype Arith<!F> = Arith(zero: F, add: (F, F) -> F, sub: (F, F) -> F, mul: (F, F) -> F,
                            ofInt: int -> F, half: (Byte, Byte) -> F)

  function RealArith(half: (Byte, Byte) -> real): Arith<real> {
    Arith(0.0, (a, b) => a + b, (a, b) => a - b, (a, b) => a * b, (n: int) => n as real, half)
  }

  // ----- integer dots -----

  /** The value of a byte read as int8. */
  function Signed(b: Byte): (v: int)
    ensures -128 <= v < 128
  {
    if b < 0x80 then b as int else b as int - 256
  }

  function Total(values: seq<int>, n: nat): int
    requires n <= |values|
  {
    if n == 0 then 0 else Total(values, n - 1) + values[n - 1]
  }

  function Dot(left: seq<Byte>, right: seq<int>, n: nat): int
    requires n <= |left| && n <= |right|
  {
    if n == 0 then 0 else Dot(left, right, n - 1) + Signed(left[n - 1]) * right[n - 1]
  }

  function Wrap16(x: int): int { (x + 0x8000) % 0x1_0000 - 0x8000 }

  function Wrap32(x: int): int { (x + 0x8000_0000) % 0x1_0000_0000 - 0x8000_0000 }

  lemma Fits32(x: int)
    requires -0x8000_0000 <= x < 0x8000_0000
    ensures Wrap32(x) == x
  {
  }

  ghost predicate Lanes(left: seq<Byte>, right: seq<int>) {
    |left| == |right| == 16 && forall i | 0 <= i < 16 :: -128 <= right[i] < 128
  }

  lemma ProductRange(a: int, b: int)
    requires -128 <= a < 128 && -128 <= b < 128
    ensures -16384 <= a * b <= 16384
  {
    NonNegative(128 + a, 128 - b);
    NonNegative(128 + a, 128 + b);
    NonNegative(128 - a, 128 - b);
    NonNegative(128 - a, 128 + b);
  }

  lemma NonNegative(x: int, y: int)
    requires x >= 0 && y >= 0
    ensures x * y >= 0
  {
  }

  /** The portable arm. */
  method DotScalar(left: seq<Byte>, right: seq<int>) returns (sum: int)
    requires Lanes(left, right)
    ensures sum == Dot(left, right, 16)
  {
    sum := 0;
    for i := 0 to 16
      invariant sum == Dot(left, right, i)
      invariant -16384 * i <= sum <= 16384 * i
    {
      ProductRange(Signed(left[i]), right[i]);
      sum := Wrap32(sum + Signed(left[i]) * right[i]);
    }
  }

  /** `weights ^ 0x80`, read as unsigned. */
  function Biased(b: Byte): int { (b ^ 0x80) as int }

  lemma BiasedIsShifted(b: Byte)
    ensures Biased(b) == Signed(b) + 128
  {
  }

  /** Four products from element `at`, summed without saturation, as `vpdpbusd` does. */
  function BiasedLane(left: seq<Byte>, right: seq<int>, at: nat): int
    requires at + 4 <= |left| && at + 4 <= |right|
  {
    Wrap32(Biased(left[at]) * right[at] + Biased(left[at + 1]) * right[at + 1]
           + Biased(left[at + 2]) * right[at + 2] + Biased(left[at + 3]) * right[at + 3])
  }

  /** The AVX-VNNI arm: unsigned-by-signed lanes, two horizontal adds, then the bias removed. */
  function DotVnni(left: seq<Byte>, right: seq<int>, rightSum: int): int
    requires |left| == |right| == 16
  {
    var low := Wrap32(BiasedLane(left, right, 0) + BiasedLane(left, right, 4));
    var high := Wrap32(BiasedLane(left, right, 8) + BiasedLane(left, right, 12));
    Wrap32(Wrap32(low + high) - Wrap32(128 * rightSum))
  }

  lemma LaneIsExact(left: seq<Byte>, right: seq<int>, at: nat)
    requires Lanes(left, right) && at + 4 <= 16
    ensures BiasedLane(left, right, at)
            == Dot(left, right, at + 4) - Dot(left, right, at) + 128 * (Total(right, at + 4) - Total(right, at))
    ensures -131072 <= BiasedLane(left, right, at) <= 131072
    ensures -512 <= Total(right, at + 4) - Total(right, at) <= 512
  {
    hide Signed, Biased, Dot, Total;
    forall i | at <= i < at + 4
      ensures Biased(left[i]) * right[i] == Signed(left[i]) * right[i] + 128 * right[i]
      ensures -32768 <= Biased(left[i]) * right[i] <= 32768
    {
      BiasedProduct(left[i], right[i]);
    }
    SpanOfFour(left, right, at);
  }

  lemma BiasedProduct(b: Byte, v: int)
    requires -128 <= v < 128
    ensures Biased(b) * v == Signed(b) * v + 128 * v
    ensures -32768 <= Biased(b) * v <= 32768
  {
    BiasedIsShifted(b);
    hide Signed, Biased;
    assert (Signed(b) + 128) * v == Signed(b) * v + 128 * v;
    ProductRange(Signed(b), v);
  }

  lemma SpanOfFour(left: seq<Byte>, right: seq<int>, at: nat)
    requires at + 4 <= |left| && at + 4 <= |right|
    ensures Dot(left, right, at + 4) - Dot(left, right, at)
            == Signed(left[at]) * right[at] + Signed(left[at + 1]) * right[at + 1]
               + Signed(left[at + 2]) * right[at + 2] + Signed(left[at + 3]) * right[at + 3]
    ensures Total(right, at + 4) - Total(right, at) == right[at] + right[at + 1] + right[at + 2] + right[at + 3]
  {
    hide Signed;
    assert Dot(left, right, at + 2) == Dot(left, right, at + 1) + Signed(left[at + 1]) * right[at + 1];
    assert Dot(left, right, at + 3) == Dot(left, right, at + 2) + Signed(left[at + 2]) * right[at + 2];
    assert Total(right, at + 2) == Total(right, at + 1) + right[at + 1];
    assert Total(right, at + 3) == Total(right, at + 2) + right[at + 2];
  }

  /** The biased arm is the plain signed dot: no lane, sum or correction leaves 32 bits. */
  lemma VnniIsExact(left: seq<Byte>, right: seq<int>)
    requires Lanes(left, right)
    ensures DotVnni(left, right, Total(right, 16)) == Dot(left, right, 16)
  {
    hide Signed, Dot, Total, BiasedLane, Wrap32;
    LaneIsExact(left, right, 0);
    LaneIsExact(left, right, 4);
    LaneIsExact(left, right, 8);
    LaneIsExact(left, right, 12);
    EmptyDot(left, right);
    var a, b, c, d := BiasedLane(left, right, 0), BiasedLane(left, right, 4), BiasedLane(left, right, 8),
                      BiasedLane(left, right, 12);
    Fits32(a + b);
    Fits32(c + d);
    Fits32(a + b + (c + d));
    Fits32(128 * Total(right, 16));
    Fits32(a + b + (c + d) - 128 * Total(right, 16));
  }

  /** Two adjacent 16-bit products summed to 32 bits, as `vpmaddwd` with ones does. */
  function ProductPair(left: seq<Byte>, right: seq<int>, at: nat): int
    requires at + 2 <= |left| && at + 2 <= |right|
  {
    Wrap32(Wrap16(Signed(left[at]) * right[at]) + Wrap16(Signed(left[at + 1]) * right[at + 1]))
  }

  lemma EmptyDot(left: seq<Byte>, right: seq<int>)
    ensures Dot(left, right, 0) == 0 && Total(right, 0) == 0
  {
  }

  /** The AVX2 arm: 16-bit products, pair sums, then lanes `at`, `at + 8` added and reduced. */
  function DotAvx2(left: seq<Byte>, right: seq<int>): int
    requires |left| == |right| == 16
  {
    var a := Wrap32(ProductPair(left, right, 0) + ProductPair(left, right, 8));
    var b := Wrap32(ProductPair(left, right, 2) + ProductPair(left, right, 10));
    var c := Wrap32(ProductPair(left, right, 4) + ProductPair(left, right, 12));
    var d := Wrap32(ProductPair(left, right, 6) + ProductPair(left, right, 14));
    Wrap32(Wrap32(a + b) + Wrap32(c + d))
  }

  lemma PairIsExact(left: seq<Byte>, right: seq<int>, at: nat)
    requires Lanes(left, right) && at + 2 <= 16
    ensures ProductPair(left, right, at) == Dot(left, right, at + 2) - Dot(left, right, at)
    ensures -32768 <= ProductPair(left, right, at) <= 32768
  {
    hide Signed, Dot;
    SpanOfTwo(left, right, at);
    Fits16(Signed(left[at]), right[at]);
    Fits16(Signed(left[at + 1]), right[at + 1]);
    hide Wrap16;
  }

  lemma Fits16(a: int, b: int)
    requires -128 <= a < 128 && -128 <= b < 128
    ensures Wrap16(a * b) == a * b && -16384 <= a * b <= 16384
  {
    ProductRange(a, b);
  }

  lemma SpanOfTwo(left: seq<Byte>, right: seq<int>, at: nat)
    requires at + 2 <= |left| && at + 2 <= |right|
    ensures Dot(left, right, at + 2) - Dot(left, right, at)
            == Signed(left[at]) * right[at] + Signed(left[at + 1]) * right[at + 1]
  {
    hide Signed;
    assert Dot(left, right, at + 2) == Dot(left, right, at + 1) + Signed(left[at + 1]) * right[at + 1];
  }

  lemma PairsEightApart(left: seq<Byte>, right: seq<int>, at: nat)
    requires Lanes(left, right) && at + 10 <= 16
    ensures Wrap32(ProductPair(left, right, at) + ProductPair(left, right, at + 8))
            == Dot(left, right, at + 2) - Dot(left, right, at) + Dot(left, right, at + 10) - Dot(left, right, at + 8)
    ensures -65536 <= Wrap32(ProductPair(left, right, at) + ProductPair(left, right, at + 8)) <= 65536
  {
    hide Dot, ProductPair, Signed;
    PairIsExact(left, right, at);
    PairIsExact(left, right, at + 8);
  }

  lemma Avx2IsExact(left: seq<Byte>, right: seq<int>)
    requires Lanes(left, right)
    ensures DotAvx2(left, right) == Dot(left, right, 16)
  {
    hide Signed, Dot, ProductPair, Wrap32;
    EmptyDot(left, right);
    PairsEightApart(left, right, 0);
    PairsEightApart(left, right, 2);
    PairsEightApart(left, right, 4);
    PairsEightApart(left, right, 6);
    var a := Wrap32(ProductPair(left, right, 0) + ProductPair(left, right, 8));
    var b := Wrap32(ProductPair(left, right, 2) + ProductPair(left, right, 10));
    var c := Wrap32(ProductPair(left, right, 4) + ProductPair(left, right, 12));
    var d := Wrap32(ProductPair(left, right, 6) + ProductPair(left, right, 14));
    Fits32(a + b);
    Fits32(c + d);
    Fits32(a + b + (c + d));
  }

  // ----- sums of terms -----

  ghost function SumTo(term: nat -> real, n: nat): real {
    if n == 0 then 0.0 else SumTo(term, n - 1) + term(n - 1)
  }

  /** Element `j` of the decoded activation. */
  ghost function Activation(activation: seq<Q8Block<real>>, j: nat): real
    requires j / 16 < |activation|
  {
    Scaled(activation[j / 16].scale, activation[j / 16].values[j % 16])
  }

  ghost predicate ValidActivation<F>(activation: seq<Q8Block<F>>) {
    forall k | 0 <= k < |activation| :: ValidBlock(activation[k])
  }

  /** A decoded weight, a decoded activation, and their product. */
  ghost function Affine(a: real, b: real, q: int): real {
    a * q as real - b
  }

  ghost function Scaled(s: real, v: int): real {
    s * v as real
  }

  ghost function Product(a: real, b: real, s: real, q: int, v: int): real {
    Affine(a, b, q) * Scaled(s, v)
  }

  /** What a kernel adds for a block with integer dot `d` and activation sum `t`. */
  ghost function BlockValue(a: real, b: real, s: real, d: int, t: int): real {
    a * s * d as real - b * s * t as real
  }

  /** One 16-wide block whose weights share a scale `a` and an offset `b`: the integer dot and the
      stored sum give exactly the sum of its sixteen products. */
  lemma {:induction false} BlockIdentity(term: nat -> real, p: nat, n: nat, a: real, b: real,
                                         codes: seq<Byte>, block: Q8Block<real>)
    requires |codes| == 16 && n <= 16
    requires forall i | 0 <= i < n :: term(p + i) == Product(a, b, block.scale, Signed(codes[i]), block.values[i])
    ensures SumTo(term, p + n) - SumTo(term, p)
            == BlockValue(a, b, block.scale, Dot(codes, block.values, n), Total(block.values, n))
  {
    hide Signed, Product, BlockValue;
    if n > 0 {
      BlockIdentity(term, p, n - 1, a, b, codes, block);
      LastTerm(term, p, n);
      OneMore(a, b, block.scale, Dot(codes, block.values, n - 1), Total(block.values, n - 1),
              Signed(codes[n - 1]), block.values[n - 1]);
    } else {
      NoProducts(a, b, block.scale);
    }
  }

  lemma LastTerm(term: nat -> real, p: nat, n: nat)
    requires n > 0
    ensures SumTo(term, p + n) == SumTo(term, p + (n - 1)) + term(p + (n - 1))
  {
  }

  lemma NoProducts(a: real, b: real, s: real)
    ensures BlockValue(a, b, s, 0, 0) == 0.0
  {
  }

  lemma IntProduct(x: int, y: int)
    ensures (x * y) as real == x as real * y as real
  {
  }

  /** One more product on both sides of the block identity. */
  lemma OneMore(a: real, b: real, s: real, d: int, t: int, q: int, v: int)
    ensures BlockValue(a, b, s, d, t) + Product(a, b, s, q, v) == BlockValue(a, b, s, d + q * v, t + v)
  {
    IntProduct(q, v);
    Expand(a, b, q as real, s, v as real);
    Distribute(a * s, d as real, q as real * v as real);
    Distribute(b * s, t as real, v as real);
  }

  lemma Expand(a: real, b: real, q: real, s: real, v: real)
    ensures (a * q - b) * (s * v) == a * s * (q * v) - b * s * v
  {
    assert (a * q - b) * (s * v) == (a * q) * (s * v) - b * (s * v);
    assert (a * q) * (s * v) == a * (q * (s * v)) == a * (s * (q * v)) == a * s * (q * v);
  }

  lemma Distribute(c: real, x: real, y: real)
    ensures c * (x + y) == c * x + c * y
  {
  }

  // ----- packed blocks -----

  datatype Format = Q4K | Q2K | Q3K

  function BlockBytes(format: Format): nat {
    match format case Q4K => 144 case Q2K => 84 case Q3K => 110
  }

  predicate IsBlock(format: Format, block: seq<Byte>) {
    |block| == BlockBytes(format)
  }

  /** The sixteen codes of group `b`, as int8. */
  function Code(format: Format, block: seq<Byte>, j: nat): Byte
    requires IsBlock(format, block) && j < 256
  {
    match format
    case Q4K => Nibble(block[16..144], j)
    case Q2K => TwoBits(block[16..80], j)
    case Q3K => TwoBits(block[32..96], j) - if HighBit(block[0..32], j) then 0 else 4
  }

  function Codes(format: Format, block: seq<Byte>, b: nat): (codes: seq<Byte>)
    requires IsBlock(format, block) && b < 16
    ensures |codes| == 16
  {
    seq(16, i requires 0 <= i < 16 => Code(format, block, 16 * b + i))
  }

  /** What a kernel adds for sixteen weights with integer dot `dot`, operation by operation. */
  function Add<F>(o: Arith<F>, format: Format, d: F, dmin: F, scale: int, minimum: int, input: Q8Block<F>, dot: int,
                  result: F): F
  {
    match format
    case Q4K =>
      o.sub(o.add(result, o.mul(o.mul(o.mul(d, o.ofInt(scale)), input.scale), o.ofInt(dot))),
            o.mul(o.mul(o.mul(dmin, o.ofInt(minimum)), input.scale), o.ofInt(input.sum)))
    case Q2K =>
      o.add(result,
            o.mul(input.scale,
                  o.sub(o.mul(o.mul(d, o.ofInt(scale)), o.ofInt(dot)),
                        o.mul(o.mul(dmin, o.ofInt(minimum)), o.ofInt(input.sum)))))
    case Q3K =>
      o.add(result, o.mul(o.mul(o.mul(d, o.ofInt(scale)), input.scale), o.ofInt(dot)))
  }

  /** The two half-precision block scales; Q3_K has one, and its second place is not used. */
  function Halves<F>(format: Format, half: (Byte, Byte) -> F, block: seq<Byte>): (F, F)
    requires IsBlock(format, block)
  {
    match format
    case Q4K => (half(block[0], block[1]), half(block[2], block[3]))
    case Q2K => (half(block[80], block[81]), half(block[82], block[83]))
    case Q3K => (half(block[108], block[109]), half(block[108], block[109]))
  }

  /** The integer scale and minimum of group `b`, as the kernels unpack them. */
  function KernelScales(format: Format, block: seq<Byte>, b: nat): (int, int)
    requires IsBlock(format, block) && b < 16
  {
    match format
    case Q4K => (ScaleMinK4(block[4..16], b / 2).0 as int, ScaleMinK4(block[4..16], b / 2).1 as int)
    case Q2K => ((block[b] & 15) as int, (block[b] >> 4) as int)
    case Q3K => (Q3KScaleByWord(block[96..108], b) as int - 32, 0)
  }

  function AddGroup<F>(o: Arith<F>, format: Format, block: seq<Byte>, b: nat, input: Q8Block<F>, dot: int, result: F): F
    requires IsBlock(format, block) && b < 16
  {
    var (d, dmin) := Halves(format, o.half, block);
    var (scale, minimum) := KernelScales(format, block, b);
    Add(o, format, d, dmin, scale, minimum, input, dot, result)
  }

  function Step<F>(o: Arith<F>, format: Format, block: seq<Byte>, b: nat, input: Q8Block<F>, result: F): F
    requires IsBlock(format, block) && b < 16
  {
    AddGroup(o, format, block, b, input, Dot(Codes(format, block, b), input.values, 16), result)
  }

  /** A kernel's result after the first `b` groups of a block. */
  function Fold<F>(o: Arith<F>, format: Format, block: seq<Byte>, inputs: seq<Q8Block<F>>, result: F, b: nat): F
    requires IsBlock(format, block) && |inputs| == 16 && b <= 16
  {
    if b == 0 then result
    else Step(o, format, block, b - 1, inputs[b - 1], Fold(o, format, block, inputs, result, b - 1))
  }

  /** The number of whole blocks in a row, `count / 256`. */
  function Blocks(format: Format, weights: seq<Byte>): nat {
    |weights| / BlockBytes(format)
  }

  lemma BlockFits(format: Format, weights: seq<Byte>, superblock: nat)
    requires superblock < Blocks(format, weights)
    ensures BlockBytes(format) * superblock + BlockBytes(format) <= |weights|
  {
    match format { case Q4K => case Q2K => case Q3K => }
  }

  function BlockAt(format: Format, weights: seq<Byte>, superblock: nat): (block: seq<Byte>)
    requires superblock < Blocks(format, weights)
    ensures IsBlock(format, block)
  {
    BlockFits(format, weights, superblock);
    weights[BlockBytes(format) * superblock..BlockBytes(format) * superblock + BlockBytes(format)]
  }

  /** A kernel's result after `n` superblocks. */
  function Row<F>(o: Arith<F>, format: Format, weights: seq<Byte>, activation: seq<Q8Block<F>>, n: nat): F
    requires n <= Blocks(format, weights) && 16 * n <= |activation|
  {
    if n == 0 then o.zero
    else
      Fold(o, format, BlockAt(format, weights, n - 1), activation[16 * (n - 1)..16 * n],
           Row(o, format, weights, activation, n - 1), 16)
  }

  // ----- unpacking codes -----

  /** Code `index` of group `b`, as the portable kernels index the bytes. */
  function KernelCode(format: Format, block: seq<Byte>, b: nat, index: nat): Byte
    requires IsBlock(format, block) && b < 16 && index < 16
  {
    match format
    case Q4K =>
      var group, half := b / 2, b % 2;
      Half(block[16 + group / 2 * 32 + half * 16 + index], group % 2 != 0)
    case Q2K =>
      var half, within := b * 16 / 128, b * 16 % 128;
      Crumb(block[16 + half * 32 + (within + index) % 32], within / 32)
    case Q3K =>
      var half128, local := b / 8, b % 8;
      var high := Bit(block[local % 2 * 16 + index], half128 * 4 + local / 2);
      var low := Crumb(block[32 + half128 * 32 + local % 2 * 16 + index], local / 2);
      low - if high != 0 then 0 else 4
  }

  /** Group `b` is half `h`, lane `g`, sixteen `e` of the block: where its elements sit. */
  lemma GroupPosition(h: nat, g: nat, e: nat, i: nat)
    requires h < 2 && g < 4 && e < 2 && i < 16
    ensures var b, j := 8 * h + 2 * g + e, 128 * h + 32 * g + 16 * e + i;
            && j == 16 * b + i
            && j / 64 == 2 * h + g / 2 && j % 32 == 16 * e + i && j / 32 == 4 * h + g
            && j / 128 == h && j % 128 == 32 * g + 16 * e + i && j % 128 % 32 == 16 * e + i && j % 128 / 32 == g
            && b / 2 == 4 * h + g && b % 2 == e && b / 8 == h && b % 8 == 2 * g + e
            && b * 16 / 128 == h && b * 16 % 128 == 32 * g + 16 * e && b * 16 % 128 / 32 == g
            && (b * 16 % 128 + i) % 32 == 16 * e + i
  {
    if g == 0 {} else if g == 1 {} else if g == 2 {} else { assert g == 3; }
  }

  lemma KernelCodeIsCode(format: Format, block: seq<Byte>, b: nat, index: nat)
    requires IsBlock(format, block) && b < 16 && index < 16
    ensures KernelCode(format, block, b, index) == Code(format, block, 16 * b + index)
  {
    hide Bit, KernelCode, Code;
    var h, g, e := b / 8, b % 8 / 2, b % 2;
    GroupPosition(h, g, e, index);
    assert b == 8 * h + 2 * g + e;
    match format {
      case Q4K => Q4KCodeIsCode(block, h, g, e, index);
      case Q2K => Q2KCodeIsCode(block, h, g, e, index);
      case Q3K => Q3KCodeIsCode(block, h, g, e, index);
    }
  }

  /** Where Q4_K's element `i` of that sixteen sits, in the kernel's terms and in the reader's. */
  lemma Q4KPosition(h: nat, g: nat, e: nat, i: nat)
    requires h < 2 && g < 4 && e < 2 && i < 16
    ensures var b, j := 8 * h + 2 * g + e, 16 * (8 * h + 2 * g + e) + i;
            && b / 2 / 2 * 32 + b % 2 * 16 + i == j / 64 * 32 + j % 32 < 128
            && b / 2 % 2 == j / 32 % 2
  {
    GroupPosition(h, g, e, i);
  }

  lemma Q4KCodeIsCode(block: seq<Byte>, h: nat, g: nat, e: nat, i: nat)
    requires IsBlock(Q4K, block) && h < 2 && g < 4 && e < 2 && i < 16
    ensures KernelCode(Q4K, block, 8 * h + 2 * g + e, i) == Code(Q4K, block, 16 * (8 * h + 2 * g + e) + i)
  {
    hide Half;
    var b, j := 8 * h + 2 * g + e, 16 * (8 * h + 2 * g + e) + i;
    Q4KPosition(h, g, e, i);
    SameNibble(block, b, i, j);
  }

  lemma SameNibble(block: seq<Byte>, b: nat, i: nat, j: nat)
    requires IsBlock(Q4K, block) && b < 16 && i < 16 && j < 256
    requires b / 2 / 2 * 32 + b % 2 * 16 + i == j / 64 * 32 + j % 32 && b / 2 % 2 == j / 32 % 2
    ensures KernelCode(Q4K, block, b, i) == Code(Q4K, block, j)
  {
    hide Half;
    assert block[16..144][j / 64 * 32 + j % 32] == block[16 + (j / 64 * 32 + j % 32)];
  }

  lemma Q2KCodeIsCode(block: seq<Byte>, h: nat, g: nat, e: nat, i: nat)
    requires IsBlock(Q2K, block) && h < 2 && g < 4 && e < 2 && i < 16
    ensures KernelCode(Q2K, block, 8 * h + 2 * g + e, i) == Code(Q2K, block, 16 * (8 * h + 2 * g + e) + i)
  {
    hide Crumb;
    GroupPosition(h, g, e, i);
  }

  lemma Q3KPosition(h: nat, g: nat, e: nat, i: nat)
    requires h < 2 && g < 4 && e < 2 && i < 16
    ensures var b, j := 8 * h + 2 * g + e, 16 * (8 * h + 2 * g + e) + i;
            && b % 8 % 2 * 16 + i == j % 32 && b / 8 * 4 + b % 8 / 2 == j / 32
            && b / 8 * 32 + b % 8 % 2 * 16 + i == j / 128 * 32 + j % 128 % 32 && b % 8 / 2 == j % 128 / 32
  {
    GroupPosition(h, g, e, i);
    assert (2 * g + e) % 2 == e && (2 * g + e) / 2 == g;
  }

  lemma Q3KCodeIsCode(block: seq<Byte>, h: nat, g: nat, e: nat, i: nat)
    requires IsBlock(Q3K, block) && h < 2 && g < 4 && e < 2 && i < 16
    ensures KernelCode(Q3K, block, 8 * h + 2 * g + e, i) == Code(Q3K, block, 16 * (8 * h + 2 * g + e) + i)
  {
    hide Bit, Crumb;
    var b, j := 8 * h + 2 * g + e, 16 * (8 * h + 2 * g + e) + i;
    Q3KPosition(h, g, e, i);
    SameThreeBits(block, b, i, j);
  }

  lemma SameThreeBits(block: seq<Byte>, b: nat, i: nat, j: nat)
    requires IsBlock(Q3K, block) && b < 16 && i < 16 && j < 256
    requires b % 8 % 2 * 16 + i == j % 32 && b / 8 * 4 + b % 8 / 2 == j / 32
    requires b / 8 * 32 + b % 8 % 2 * 16 + i == j / 128 * 32 + j % 128 % 32 && b % 8 / 2 == j % 128 / 32
    ensures KernelCode(Q3K, block, b, i) == Code(Q3K, block, j)
  {
    hide Bit, Crumb;
    var k := j / 128 * 32 + j % 128 % 32;
    assert block[32..96][k] == block[32 + k];
  }

  /** The portable inner loops that unpack sixteen codes. */
  method DecodeGroup(format: Format, block: seq<Byte>, b: nat) returns (decoded: seq<Byte>)
    requires IsBlock(format, block) && b < 16
    ensures decoded == Codes(format, block, b)
  {
    hide Code, KernelCode;
    decoded := [];
    for index := 0 to 16
      invariant |decoded| == index
      invariant forall i | 0 <= i < index :: decoded[i] == Code(format, block, 16 * b + i)
    {
      KernelCodeIsCode(format, block, b, index);
      decoded := decoded + [KernelCode(format, block, b, index)];
    }
  }

  // ----- unpacking in vector registers -----

  /** What the compiler was allowed to use. Every arm from `Ssse3` on unpacks in vector registers;
      the arm with both AVX-VNNI and AVX2 takes 32 codes at a time for Q4_K and Q2_K. */
  datatype Arm = Portable | Ssse3 | Avx2 | Vnni | VnniAvx2

  /** Two neighbouring bytes of a register as one 16-bit lane, and back. */
  function Lane16(low: Byte, high: Byte): bv16 {
    (low as bv16) | (high as bv16 << 8)
  }

  function LaneByte16(lane: bv16, upper: bool): Byte {
    if upper then ((lane >> 8) & 0xff) as bv8 else (lane & 0xff) as bv8
  }

  /** The shifts that the kernels use on 16-bit lanes. */
  function ShiftLane(lane: bv16, shift: nat): bv16 {
    match shift
    case 2 => lane >> 2
    case 4 => lane >> 4
    case 6 => lane >> 6
    case _ => lane
  }

  /** Byte `i` of a register after its 16-bit lanes were shifted right: bits of the neighbouring byte
      come in from above. */
  function ShiftedByte(bytes: seq<Byte>, shift: nat, i: nat): Byte
    requires |bytes| % 2 == 0 && i < |bytes|
  {
    LaneByte16(ShiftLane(Lane16(bytes[i / 2 * 2], bytes[i / 2 * 2 + 1]), shift), i % 2 == 1)
  }

  function And(x: Byte, mask: Byte): Byte {
    x & mask
  }

  /** `_mm_srli_epi16` and then `_mm_and_si128`, or their 256-bit forms. */
  function ShiftAndMask(bytes: seq<Byte>, shift: nat, mask: Byte): (r: seq<Byte>)
    requires |bytes| % 2 == 0
    ensures |r| == |bytes|
  {
    seq(|bytes|, i requires 0 <= i < |bytes| => And(ShiftedByte(bytes, shift, i), mask))
  }

  /** The mask takes off exactly what came in from the neighbour. */
  lemma NibbleOfLane(low: Byte, high: Byte)
    ensures LaneByte16(Lane16(low, high) >> 4, false) & 15 == low >> 4
    ensures LaneByte16(Lane16(low, high) >> 4, true) & 15 == high >> 4
    ensures LaneByte16(Lane16(low, high), false) == low && LaneByte16(Lane16(low, high), true) == high
  {
  }

  lemma CrumbOfLane(low: Byte, high: Byte)
    ensures LaneByte16(Lane16(low, high) >> 2, false) & 3 == (low >> 2) & 3
    ensures LaneByte16(Lane16(low, high) >> 2, true) & 3 == (high >> 2) & 3
    ensures LaneByte16(Lane16(low, high) >> 4, false) & 3 == (low >> 4) & 3
    ensures LaneByte16(Lane16(low, high) >> 4, true) & 3 == (high >> 4) & 3
    ensures LaneByte16(Lane16(low, high) >> 6, false) & 3 == (low >> 6) & 3
    ensures LaneByte16(Lane16(low, high) >> 6, true) & 3 == (high >> 6) & 3
  {
  }

  lemma NibblesInLanes(bytes: seq<Byte>, upper: bool, i: nat)
    requires |bytes| % 2 == 0 && i < |bytes|
    ensures ShiftAndMask(bytes, if upper then 4 else 0, 15)[i] == Half(bytes[i], upper)
  {
    hide LaneByte16, Lane16;
    NibbleOfLane(bytes[i / 2 * 2], bytes[i / 2 * 2 + 1]);
  }

  lemma CrumbInLane(low: Byte, high: Byte, lane: nat)
    requires lane < 4
    ensures And(LaneByte16(ShiftLane(Lane16(low, high), 2 * lane), false), 3) == Crumb(low, lane)
    ensures And(LaneByte16(ShiftLane(Lane16(low, high), 2 * lane), true), 3) == Crumb(high, lane)
  {
    hide LaneByte16, Lane16, Crumb;
    NibbleOfLane(low, high);
    CrumbOfLane(low, high);
    CrumbCases(low);
    CrumbCases(high);
  }

  lemma CrumbsInLanes(bytes: seq<Byte>, lane: nat, i: nat)
    requires |bytes| % 2 == 0 && i < |bytes| && lane < 4
    ensures ShiftAndMask(bytes, 2 * lane, 3)[i] == Crumb(bytes[i], lane)
  {
    hide LaneByte16, Lane16, ShiftLane, And, Crumb;
    CrumbInLane(bytes[i / 2 * 2], bytes[i / 2 * 2 + 1], lane);
  }

  /** Sixteen codes out of one 128-bit register. */
  function Unpack16(format: Format, block: seq<Byte>, b: nat): (codes: seq<Byte>)
    requires IsBlock(format, block) && b < 16 && format != Q3K
    ensures |codes| == 16
  {
    if format == Q4K then
      var at := 16 + b / 2 / 2 * 32 + b % 2 * 16;
      ShiftAndMask(block[at..at + 16], if b / 2 % 2 != 0 then 4 else 0, 15)
    else
      var half, within := b * 16 / 128, b * 16 % 128;
      var at := 16 + half * 32 + within % 32;
      ShiftAndMask(block[at..at + 16], 2 * (within / 32), 3)
  }

  /** Thirty-two codes, of groups `2 * p` and `2 * p + 1`, out of one 256-bit register. */
  function Unpack32(format: Format, block: seq<Byte>, p: nat): (codes: seq<Byte>)
    requires IsBlock(format, block) && p < 8 && format != Q3K
    ensures |codes| == 32
  {
    if format == Q4K then
      var at := 16 + p / 2 * 32;
      ShiftAndMask(block[at..at + 32], if p % 2 != 0 then 4 else 0, 15)
    else
      var at := 16 + p / 4 * 32;
      ShiftAndMask(block[at..at + 32], 2 * (p % 4), 3)
  }

  /** Both unpack the codes that the portable loop unpacks, one byte at a time. */
  lemma Unpack16IsCodes(format: Format, block: seq<Byte>, b: nat)
    requires IsBlock(format, block) && b < 16 && format != Q3K
    ensures Unpack16(format, block, b) == Codes(format, block, b)
  {
    hide Code, KernelCode, Unpack16;
    forall i | 0 <= i < 16 ensures Unpack16(format, block, b)[i] == Codes(format, block, b)[i] {
      Unpack16Code(format, block, b, i);
      KernelCodeIsCode(format, block, b, i);
    }
  }

  lemma Unpack16Code(format: Format, block: seq<Byte>, b: nat, i: nat)
    requires IsBlock(format, block) && b < 16 && format != Q3K && i < 16
    ensures Unpack16(format, block, b)[i] == KernelCode(format, block, b, i)
  {
    hide ShiftAndMask, Half, Crumb;
    if format == Q4K {
      var at := 16 + b / 2 / 2 * 32 + b % 2 * 16;
      NibblesInLanes(block[at..at + 16], b / 2 % 2 != 0, i);
      assert block[at..at + 16][i] == block[at + i];
    } else {
      var half, within := b * 16 / 128, b * 16 % 128;
      var at := 16 + half * 32 + within % 32;
      CrumbsInLanes(block[at..at + 16], within / 32, i);
      WithinHalf(b, i);
      assert block[at..at + 16][i] == block[at + i];
    }
  }

  lemma WithinHalf(b: nat, i: nat)
    requires b < 16 && i < 16
    ensures (b * 16 % 128 + i) % 32 == b * 16 % 128 % 32 + i
  {
  }

  lemma Unpack32IsCodes(format: Format, block: seq<Byte>, p: nat)
    requires IsBlock(format, block) && p < 8 && format != Q3K
    ensures Unpack32(format, block, p)[..16] == Codes(format, block, 2 * p)
    ensures Unpack32(format, block, p)[16..] == Codes(format, block, 2 * p + 1)
  {
    hide Code, KernelCode, Unpack32;
    forall i | 0 <= i < 16
      ensures Unpack32(format, block, p)[..16][i] == Codes(format, block, 2 * p)[i]
      ensures Unpack32(format, block, p)[16..][i] == Codes(format, block, 2 * p + 1)[i]
    {
      Unpack32Code(format, block, p, 0, i);
      Unpack32Code(format, block, p, 1, i);
      KernelCodeIsCode(format, block, 2 * p, i);
      KernelCodeIsCode(format, block, 2 * p + 1, i);
    }
  }

  /** Where the groups of a pair sit. */
  lemma PairPosition(p: nat, e: nat, i: nat)
    requires p < 8 && e < 2 && i < 16
    ensures var b := 2 * p + e;
            && b / 2 == p && b % 2 == e && b * 16 / 128 == p / 4
            && b * 16 % 128 / 32 == p % 4 && (b * 16 % 128 + i) % 32 == 16 * e + i
  {
    GroupPosition(p / 4, p % 4, e, i);
    assert 8 * (p / 4) + 2 * (p % 4) + e == 2 * p + e;
  }

  lemma Unpack32Code(format: Format, block: seq<Byte>, p: nat, e: nat, i: nat)
    requires IsBlock(format, block) && p < 8 && format != Q3K && e < 2 && i < 16
    ensures Unpack32(format, block, p)[16 * e + i] == KernelCode(format, block, 2 * p + e, i)
  {
    hide ShiftAndMask, Half, Crumb;
    PairPosition(p, e, i);
    if format == Q4K {
      var at := 16 + p / 2 * 32;
      NibblesInLanes(block[at..at + 32], p % 2 != 0, 16 * e + i);
      assert block[at..at + 32][16 * e + i] == block[at + (16 * e + i)];
    } else {
      var at := 16 + p / 4 * 32;
      CrumbsInLanes(block[at..at + 32], p % 4, 16 * e + i);
      assert block[at..at + 32][16 * e + i] == block[at + (16 * e + i)];
    }
  }

  // ----- the kernels -----

  /** One of the arms' integer dots. Those with AVX-VNNI use the block's stored sum. */
  method IntegerDot(arm: Arm, left: seq<Byte>, input: Q8Block) returns (dot: int)
    requires |left| == 16 && ValidBlock(input)
    ensures dot == Dot(left, input.values, 16)
  {
    match arm {
      case Portable => dot := DotScalar(left, input.values);
      case Ssse3 => dot := DotScalar(left, input.values);
      case Avx2 =>
        Avx2IsExact(left, input.values);
        dot := DotAvx2(left, input.values);
      case Vnni =>
        VnniIsExact(left, input.values);
        dot := DotVnni(left, input.values, input.sum);
      case VnniAvx2 =>
        VnniIsExact(left, input.values);
        dot := DotVnni(left, input.values, input.sum);
    }
  }

  /** `dot_quantized_row` and `dot_q2_k_row`, as compiled for any of the arms: superblocks, then
      groups of sixteen, or pairs of groups in the paired arm. Q3_K is always unpacked portably. */
  method DotRow<F>(o: Arith<F>, arm: Arm, format: Format, weights: seq<Byte>, activation: seq<Q8Block<F>>,
                   superblocks: nat)
    returns (result: F)
    requires superblocks == Blocks(format, weights) && |activation| == 16 * superblocks && ValidActivation(activation)
    ensures result == Row(o, format, weights, activation, superblocks)
  {
    hide Fold, Blocks, BlockAt, ValidBlock;
    result := o.zero;
    for superblock := 0 to superblocks
      invariant result == Row(o, format, weights, activation, superblock)
    {
      var block := BlockAt(format, weights, superblock);
      var inputs := activation[16 * superblock..16 * (superblock + 1)];
      if arm.VnniAvx2? && format != Q3K {
        result := DotBlockInPairs(o, format, block, inputs, result);
      } else {
        result := DotBlock(o, arm, format, block, inputs, result);
      }
    }
  }

  /** One block, group by group. */
  method DotBlock<F>(o: Arith<F>, arm: Arm, format: Format, block: seq<Byte>, inputs: seq<Q8Block<F>>, before: F)
    returns (result: F)
    requires IsBlock(format, block) && |inputs| == 16 && ValidActivation(inputs)
    ensures result == Fold(o, format, block, inputs, before, 16)
  {
    hide AddGroup, Codes, Unpack16, ValidBlock, Dot;
    result := before;
    for b := 0 to 16
      invariant result == Fold(o, format, block, inputs, before, b)
    {
      var decoded;
      if arm.Portable? || format == Q3K {
        decoded := DecodeGroup(format, block, b);
      } else {
        Unpack16IsCodes(format, block, b);
        decoded := Unpack16(format, block, b);
      }
      var dot := IntegerDot(arm, decoded, inputs[b]);
      result := AddGroup(o, format, block, b, inputs[b], dot, result);
    }
  }

  /** One block, two groups at a time: both dots first, then the first group's terms and the
      second's. */
  method DotBlockInPairs<F>(o: Arith<F>, format: Format, block: seq<Byte>, inputs: seq<Q8Block<F>>, before: F)
    returns (result: F)
    requires IsBlock(format, block) && |inputs| == 16 && ValidActivation(inputs) && format != Q3K
    ensures result == Fold(o, format, block, inputs, before, 16)
  {
    hide Step, Codes, Unpack32, ValidActivation;
    result := before;
    for p := 0 to 8
      invariant result == Fold(o, format, block, inputs, before, 2 * p)
    {
      var decoded := Unpack32(format, block, p);
      Unpack32IsCodes(format, block, p);
      result := DotPair(o, format, block, p, decoded, inputs, before, result);
    }
  }

  /** `dot_row_multi`: with the paired arm each pair of Q4_K or Q2_K groups is unpacked once and
      used for every activation row, and otherwise the rows are done one after the other. Either way each
      row's result takes the same operations in the same order as `DotRow`. */
  method DotRowMulti<F(0)>(o: Arith<F>, arm: Arm, format: Format, weights: seq<Byte>,
                           activations: seq<seq<Q8Block<F>>>, superblocks: nat)
    returns (results: seq<F>)
    requires superblocks == Blocks(format, weights)
    requires forall r | 0 <= r < |activations| ::
               |activations[r]| == 16 * superblocks && ValidActivation(activations[r])
    ensures |results| == |activations|
    ensures forall r | 0 <= r < |activations| :: results[r] == Row(o, format, weights, activations[r], superblocks)
  {
    hide Fold, Blocks, BlockAt, ValidActivation, Row;
    if arm.VnniAvx2? && format != Q3K {
      results := seq(|activations|, _ => o.zero);
      EmptyRows(o, format, weights, activations);
      for superblock := 0 to superblocks
        invariant |results| == |activations|
        invariant forall r | 0 <= r < |activations| ::
                    results[r] == Row(o, format, weights, activations[r], superblock)
      {
        var block := BlockAt(format, weights, superblock);
        var inputs := BlockInputs(activations, superblock);
        forall r | 0 <= r < |activations| ensures ValidActivation(inputs[r]) {
          SliceIsValid(activations[r], 16 * superblock, 16 * (superblock + 1));
        }
        results := DotBlockMulti(o, format, block, inputs, results);
        NextRows(o, format, weights, activations, superblock);
      }
    } else {
      results := [];
      for r := 0 to |activations|
        invariant |results| == r
        invariant forall q | 0 <= q < r :: results[q] == Row(o, format, weights, activations[q], superblocks)
      {
        var result := DotRow(o, arm, format, weights, activations[r], superblocks);
        results := results + [result];
      }
    }
  }

  /** Each row's sixteen blocks of a superblock. */
  function BlockInputs<F>(activations: seq<seq<Q8Block<F>>>, superblock: nat): (inputs: seq<seq<Q8Block<F>>>)
    requires forall r | 0 <= r < |activations| :: 16 * (superblock + 1) <= |activations[r]|
    ensures |inputs| == |activations|
    ensures forall r | 0 <= r < |inputs| :: inputs[r] == activations[r][16 * superblock..16 * (superblock + 1)]
  {
    seq(|activations|, r requires 0 <= r < |activations| => activations[r][16 * superblock..16 * (superblock + 1)])
  }

  lemma SliceIsValid<F>(activation: seq<Q8Block<F>>, low: nat, high: nat)
    requires low <= high <= |activation| && ValidActivation(activation)
    ensures ValidActivation(activation[low..high])
  {
    hide ValidBlock;
  }

  lemma EmptyRows<F>(o: Arith<F>, format: Format, weights: seq<Byte>, activations: seq<seq<Q8Block<F>>>)
    ensures forall r | 0 <= r < |activations| :: Row(o, format, weights, activations[r], 0) == o.zero
  {
  }

  lemma NextRows<F>(o: Arith<F>, format: Format, weights: seq<Byte>, activations: seq<seq<Q8Block<F>>>, n: nat)
    requires n < Blocks(format, weights)
    requires forall r | 0 <= r < |activations| :: 16 * (n + 1) <= |activations[r]|
    ensures forall r | 0 <= r < |activations| ::
              Row(o, format, weights, activations[r], n + 1)
              == Fold(o, format, BlockAt(format, weights, n), activations[r][16 * n..16 * (n + 1)],
                      Row(o, format, weights, activations[r], n), 16)
  {
    hide Fold, Blocks, BlockAt;
  }

  method DotBlockMulti<F>(o: Arith<F>, format: Format, block: seq<Byte>, inputs: seq<seq<Q8Block<F>>>,
                          before: seq<F>)
    returns (results: seq<F>)
    requires IsBlock(format, block) && |inputs| == |before| && format != Q3K
    requires forall r | 0 <= r < |inputs| :: |inputs[r]| == 16 && ValidActivation(inputs[r])
    ensures |results| == |before|
    ensures forall r | 0 <= r < |before| :: results[r] == Fold(o, format, block, inputs[r], before[r], 16)
  {
    hide AddGroup, Codes, Unpack32, ValidActivation, Dot, Fold;
    results := before;
    EmptyFolds(o, format, block, inputs, before);
    for p := 0 to 8
      invariant |results| == |before|
      invariant forall r | 0 <= r < |before| :: results[r] == Fold(o, format, block, inputs[r], before[r], 2 * p)
    {
      var decoded := Unpack32(format, block, p);
      Unpack32IsCodes(format, block, p);
      for r := 0 to |before|
        invariant |results| == |before|
        invariant forall q | 0 <= q < r :: results[q] == Fold(o, format, block, inputs[q], before[q], 2 * p + 2)
        invariant forall q | r <= q < |before| :: results[q] == Fold(o, format, block, inputs[q], before[q], 2 * p)
      {
        var result := DotPair(o, format, block, p, decoded, inputs[r], before[r], results[r]);
        results := results[r := result];
      }
    }
  }

  lemma EmptyFolds<F>(o: Arith<F>, format: Format, block: seq<Byte>, inputs: seq<seq<Q8Block<F>>>, before: seq<F>)
    requires IsBlock(format, block) && |inputs| == |before|
    requires forall r | 0 <= r < |inputs| :: |inputs[r]| == 16
    ensures forall r | 0 <= r < |before| :: Fold(o, format, block, inputs[r], before[r], 0) == before[r]
  {
  }

  /** The two groups of a pair of one row, from the codes unpacked for all rows. */
  method DotPair<F>(o: Arith<F>, format: Format, block: seq<Byte>, p: nat, decoded: seq<Byte>,
                    inputs: seq<Q8Block<F>>, ghost before: F, running: F)
    returns (result: F)
    requires IsBlock(format, block) && p < 8 && |inputs| == 16 && ValidActivation(inputs) && |decoded| == 32
    requires decoded[..16] == Codes(format, block, 2 * p) && decoded[16..] == Codes(format, block, 2 * p + 1)
    requires running == Fold(o, format, block, inputs, before, 2 * p)
    ensures result == Fold(o, format, block, inputs, before, 2 * p + 2)
  {
    hide AddGroup, Codes, ValidBlock, Dot;
    var low := IntegerDot(VnniAvx2, decoded[..16], inputs[2 * p]);
    var high := IntegerDot(VnniAvx2, decoded[16..], inputs[2 * p + 1]);
    result := AddGroup(o, format, block, 2 * p, inputs[2 * p], low, running);
    result := AddGroup(o, format, block, 2 * p + 1, inputs[2 * p + 1], high, result);
  }

  // ----- over the reals: decoded weight times decoded activation -----

  /** The integer scale and minimum of element `j`, as the Python readers unpack them. */
  ghost function ReaderScales(format: Format, block: seq<Byte>, j: nat): (int, int)
    requires IsBlock(format, block) && j < 256
  {
    match format
    case Q4K => (ScaleMinK4(block[4..16], j / 32).0 as int, ScaleMinK4(block[4..16], j / 32).1 as int)
    case Q2K => ((block[j / 16] & 15) as int, (block[j / 16] >> 4) as int)
    case Q3K => (Q3KScale(block[96..108], j / 16) as int - 32, 0)
  }

  /** The integer code of element `j`, as the Python readers unpack it. */
  ghost function ReaderCode(format: Format, block: seq<Byte>, j: nat): int
    requires IsBlock(format, block) && j < 256
  {
    match format
    case Q4K => Nibble(block[16..144], j) as int
    case Q2K => TwoBits(block[16..80], j) as int
    case Q3K => TwoBits(block[32..96], j) as int - if HighBit(block[0..32], j) then 0 else 4
  }

  /** Element `j` of a decoded block: `d * scale * code - dmin * minimum`. */
  ghost function Decode(format: Format, half: (Byte, Byte) -> real, block: seq<Byte>, j: nat): real
    requires IsBlock(format, block) && j < 256
  {
    var (d, dmin) := Halves(format, half, block);
    var (scale, minimum) := ReaderScales(format, block, j);
    Affine(Times(d, scale), Times(dmin, minimum), ReaderCode(format, block, j))
  }

  /** The scale and the offset that a group's sixteen weights share. */
  ghost function Slope(format: Format, half: (Byte, Byte) -> real, block: seq<Byte>, b: nat): real
    requires IsBlock(format, block) && b < 16
  {
    Times(Halves(format, half, block).0, ReaderScales(format, block, 16 * b).0)
  }

  ghost function Offset(format: Format, half: (Byte, Byte) -> real, block: seq<Byte>, b: nat): real
    requires IsBlock(format, block) && b < 16
  {
    Times(Halves(format, half, block).1, ReaderScales(format, block, 16 * b).1)
  }

  lemma NibbleValue(quants: seq<Byte>, j: nat)
    requires |quants| == 128 && j < 256
    ensures Signed(Nibble(quants, j)) == Nibble(quants, j) as int
  {
    hide Signed, Half;
    SmallCode(Nibble(quants, j));
  }

  lemma TwoBitsValue(quants: seq<Byte>, j: nat)
    requires |quants| == 64 && j < 256
    ensures Signed(TwoBits(quants, j)) == TwoBits(quants, j) as int
    ensures Signed(TwoBits(quants, j) - 4) == TwoBits(quants, j) as int - 4
  {
    hide Signed, Crumb;
    SmallCode(TwoBits(quants, j));
  }

  lemma SmallCode(b: Byte)
    requires b < 16
    ensures Signed(b) == b as int
    ensures b < 4 ==> Signed(b - 4) == b as int - 4
  {
  }

  lemma CodeIsReaderCode(format: Format, block: seq<Byte>, j: nat)
    requires IsBlock(format, block) && j < 256
    ensures Signed(Code(format, block, j)) == ReaderCode(format, block, j)
  {
    hide Signed, Nibble, TwoBits, HighBit;
    match format {
      case Q4K => NibbleValue(block[16..144], j);
      case Q2K => TwoBitsValue(block[16..80], j);
      case Q3K => TwoBitsValue(block[32..96], j);
    }
  }

  lemma ScalesAgree(format: Format, block: seq<Byte>, b: nat, i: nat)
    requires IsBlock(format, block) && b < 16 && i < 16
    ensures ReaderScales(format, block, 16 * b + i) == KernelScales(format, block, b)
  {
    hide ScaleMinK4, Q3KScale, Q3KScaleByWord;
    assert (16 * b + i) / 16 == b && (16 * b + i) / 32 == b / 2;
    if format == Q3K {
      Q3KReadersAgree(block[96..108], b);
    }
  }

  lemma DecodeIsAffine(format: Format, half: (Byte, Byte) -> real, block: seq<Byte>, b: nat, i: nat)
    requires IsBlock(format, block) && b < 16 && i < 16
    ensures Decode(format, half, block, 16 * b + i)
            == Affine(Slope(format, half, block, b), Offset(format, half, block, b), Signed(Codes(format, block, b)[i]))
  {
    hide Signed, ReaderScales, ReaderCode, KernelScales, Code, Affine, Times, Halves;
    ScalesAgree(format, block, b, i);
    ScalesAgree(format, block, b, 0);
    CodeIsReaderCode(format, block, 16 * b + i);
  }

  /** Every format's order of operations comes to the same real value. */
  lemma AddIsBlockValue(half: (Byte, Byte) -> real, format: Format, d: real, dmin: real, scale: int, minimum: int,
                        input: Q8Block<real>, dot: int, acc: real)
    requires format == Q3K ==> minimum == 0
    ensures Add(RealArith(half), format, d, dmin, scale, minimum, input, dot, acc)
            == acc + BlockValue(Times(d, scale), Times(dmin, minimum), input.scale, dot, input.sum)
  {
    if format == Q2K {
      Factor(input.scale, Times(d, scale), dot as real, Times(dmin, minimum), input.sum as real);
    }
  }

  lemma Factor(s: real, x: real, d: real, y: real, t: real)
    ensures s * (x * d - y * t) == x * s * d - y * s * t
  {
    assert s * (x * d) == x * s * d && s * (y * t) == y * s * t;
  }

  lemma AddGroupIsBlockValue(half: (Byte, Byte) -> real, format: Format, block: seq<Byte>, b: nat,
                             input: Q8Block<real>, dot: int, acc: real)
    requires IsBlock(format, block) && b < 16
    ensures AddGroup(RealArith(half), format, block, b, input, dot, acc)
            == acc + BlockValue(Slope(format, half, block, b), Offset(format, half, block, b),
                             input.scale, dot, input.sum)
  {
    hide Add, BlockValue, Times, Halves;
    var (d, dmin) := Halves(format, half, block);
    var (scale, minimum) := KernelScales(format, block, b);
    ScalesAgree(format, block, b, 0);
    AddIsBlockValue(half, format, d, dmin, scale, minimum, input, dot, acc);
  }

  /** The product at position `j` of a row: decoded weight times decoded activation. */
  ghost function Term(format: Format, half: (Byte, Byte) -> real, weights: seq<Byte>,
                      activation: seq<Q8Block<real>>): nat -> real {
    (j: nat) =>
      if j / 256 < Blocks(format, weights) && j / 16 < |activation|
      then Decode(format, half, BlockAt(format, weights, j / 256), j % 256) * Activation(activation, j) else 0.0
  }

  lemma Position(n: nat, b: nat, i: nat)
    requires b < 16 && i < 16
    ensures var j := 256 * n + 16 * b + i;
            j / 256 == n && j % 256 == 16 * b + i && j / 16 == 16 * n + b && j % 16 == i
  {
  }

  lemma TermIsProduct(format: Format, half: (Byte, Byte) -> real, weights: seq<Byte>,
                      activation: seq<Q8Block<real>>, n: nat, b: nat, i: nat)
    requires n < Blocks(format, weights) && 16 * (n + 1) <= |activation| && b < 16 && i < 16
    ensures var block, input := BlockAt(format, weights, n), activation[16 * n + b];
            Term(format, half, weights, activation)(256 * n + 16 * b + i)
            == Product(Slope(format, half, block, b), Offset(format, half, block, b), input.scale,
                       Signed(Codes(format, block, b)[i]), input.values[i])
  {
    hide Decode, Affine, Scaled, Signed, Codes, Slope, Offset, Blocks, BlockAt;
    Position(n, b, i);
    DecodeIsAffine(format, half, BlockAt(format, weights, n), b, i);
  }

  /** One group adds its sixteen products. */
  lemma FoldStep(format: Format, half: (Byte, Byte) -> real, weights: seq<Byte>,
                 activation: seq<Q8Block<real>>, n: nat, b: nat, acc: real)
    requires n < Blocks(format, weights) && 16 * (n + 1) <= |activation| && b < 16
    requires ValidActivation(activation)
    ensures var term := Term(format, half, weights, activation);
            Step(RealArith(half), format, BlockAt(format, weights, n), b, activation[16 * n + b], acc)
            == acc + SumTo(term, 256 * n + 16 * b + 16) - SumTo(term, 256 * n + 16 * b)
  {
    hide Term, Product, BlockValue, Signed, Codes, Dot, Total, Slope, Offset, AddGroup, SumTo, Blocks, BlockAt;
    var term, block, input := Term(format, half, weights, activation), BlockAt(format, weights, n),
                                 activation[16 * n + b];
    var slope, offset := Slope(format, half, block, b), Offset(format, half, block, b);
    assert ValidBlock(input);
    forall i | 0 <= i < 16
      ensures term(256 * n + 16 * b + i)
              == Product(slope, offset, input.scale, Signed(Codes(format, block, b)[i]), input.values[i])
    {
      TermIsProduct(format, half, weights, activation, n, b, i);
    }
    BlockIdentity(term, 256 * n + 16 * b, 16, slope, offset, Codes(format, block, b), input);
    AddGroupIsBlockValue(half, format, block, b, input, Dot(Codes(format, block, b), input.values, 16), acc);
  }

  lemma {:induction false} FoldIsSum(format: Format, half: (Byte, Byte) -> real, weights: seq<Byte>,
                                     activation: seq<Q8Block<real>>, n: nat, b: nat, acc: real)
    requires n < Blocks(format, weights) && 16 * (n + 1) <= |activation| && b <= 16
    requires ValidActivation(activation)
    ensures var term := Term(format, half, weights, activation);
            Fold(RealArith(half), format, BlockAt(format, weights, n), activation[16 * n..16 * (n + 1)], acc, b)
            == acc + SumTo(term, 256 * n + 16 * b) - SumTo(term, 256 * n)
  {
    hide Step, Term, SumTo, Blocks, BlockAt;
    if b > 0 {
      FoldIsSum(format, half, weights, activation, n, b - 1, acc);
      var before := Fold(RealArith(half), format, BlockAt(format, weights, n),
                         activation[16 * n..16 * (n + 1)], acc, b - 1);
      FoldStep(format, half, weights, activation, n, b - 1, before);
      assert activation[16 * n..16 * (n + 1)][b - 1] == activation[16 * n + (b - 1)];
    }
  }

  lemma EmptyRow(format: Format, half: (Byte, Byte) -> real, weights: seq<Byte>, activation: seq<Q8Block<real>>)
    ensures Row(RealArith(half), format, weights, activation, 0) == 0.0
    ensures SumTo(Term(format, half, weights, activation), 0) == 0.0
  {
  }

  lemma RowUnfolds(format: Format, half: (Byte, Byte) -> real, weights: seq<Byte>,
                   activation: seq<Q8Block<real>>, n: nat)
    requires n < Blocks(format, weights) && 16 * (n + 1) <= |activation|
    ensures Row(RealArith(half), format, weights, activation, n + 1)
            == Fold(RealArith(half), format, BlockAt(format, weights, n), activation[16 * n..16 * (n + 1)],
                    Row(RealArith(half), format, weights, activation, n), 16)
  {
    hide Fold, Blocks, BlockAt, RealArith;
  }

  /** Over the reals, each kernel is the sum over all positions of decoded weight times decoded
      activation, for any packed bytes and any number of superblocks. */
  lemma {:induction false} RowIsDecodedDot(format: Format, half: (Byte, Byte) -> real, weights: seq<Byte>,
                                           activation: seq<Q8Block<real>>, n: nat)
    requires n <= Blocks(format, weights) && 16 * n <= |activation| && ValidActivation(activation)
    ensures Row(RealArith(half), format, weights, activation, n)
            == SumTo(Term(format, half, weights, activation), 256 * n)
  {
    hide Row, Fold, Term, SumTo, Blocks, BlockAt, RealArith;
    if n == 0 {
      EmptyRow(format, half, weights, activation);
    } else {
      RowIsDecodedDot(format, half, weights, activation, n - 1);
      RowUnfolds(format, half, weights, activation, n - 1);
      FoldIsSum(format, half, weights, activation, n - 1, 16, Row(RealArith(half), format, weights, activation, n - 1));
    }
  }
}
