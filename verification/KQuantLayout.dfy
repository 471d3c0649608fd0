/** The packed block layouts Q4_K, Q2_K and Q3_K: the Python packers
    (tools/hy3_mlx_to_q4k.py, tools/prepare_mixed_expert_repack.py) and the C++ and Python readers
    (tools/memra_cpu_experts.cpp), bit for bit. */
module KQuantLayout {

  type Byte = bv8

  ghost predicate Below(codes: seq<Byte>, limit: Byte) {
    forall i | 0 <= i < |codes| :: codes[i] < limit
  }

  /** `low | (high >> 4 << 6)`: six bits of one value under the top two of another. */
  function UnderTopBits(low: Byte, high: Byte): Byte {
    low | ((high >> 4) << 6)
  }

  /** Two low nibbles in one byte. */
  function NibblePair(a: Byte, b: Byte): Byte {
    (a & 0x0f) | ((b & 0x0f) << 4)
  }

  /** `x | (code << shift)`. */
  function OrShift(x: Byte, code: Byte, shift: nat): Byte
    requires shift < 8
  {
    x | (code << shift)
  }

  /** The low or the high nibble of a byte. */
  function Half(x: Byte, upper: bool): (nibble: Byte)
    ensures nibble < 16
  {
    if upper then x >> 4 else x & 15
  }

  /** Two bits of a byte, at a shift that varies. */
  function Crumb(x: Byte, lane: nat): (crumb: Byte)
    requires lane < 4
    ensures crumb < 4
  {
    (x >> (2 * lane)) & 3
  }

  // ----- Q4_K: twelve bytes of 6-bit scale/min pairs -----

  /** The packed byte at `i`, in terms of the eight scales and eight minima. */
  function ScaleByte(sc: seq<Byte>, mn: seq<Byte>, i: nat): Byte
    requires |sc| == |mn| == 8 && i < 12
  {
    if i < 4 then UnderTopBits(sc[i] & 0x3F, sc[i + 4])
    else if i < 8 then UnderTopBits(mn[i - 4] & 0x3F, mn[i])
    else NibblePair(sc[i - 4], mn[i - 4])
  }

  /** The slice assignments of `pack_q4k_scales`, in order. */
  function PackQ4KScales(sc: seq<Byte>, mn: seq<Byte>): (packed: seq<Byte>)
    requires |sc| == |mn| == 8
    ensures |packed| == 12 && forall i | 0 <= i < 12 :: packed[i] == ScaleByte(sc, mn, i)
  {
    var first := seq(4, i requires 0 <= i < 4 => sc[i] & 0x3F);
    var second := seq(4, i requires 0 <= i < 4 => mn[i] & 0x3F);
    var first' := seq(4, i requires 0 <= i < 4 => UnderTopBits(first[i], sc[i + 4]));
    var second' := seq(4, i requires 0 <= i < 4 => UnderTopBits(second[i], mn[i + 4]));
    var third := seq(4, i requires 0 <= i < 4 => NibblePair(sc[i + 4], mn[i + 4]));
    first' + second' + third
  }

  /** Reading back what was packed gives the same eight scales and minima. */
  lemma ScalesRoundTrip(sc: seq<Byte>, mn: seq<Byte>, group: nat)
    requires |sc| == |mn| == 8 && Below(sc, 64) && Below(mn, 64) && group < 8
    ensures ScaleMinK4(PackQ4KScales(sc, mn), group) == (sc[group], mn[group])
  {
    ScaleMinInverts(sc, mn, PackQ4KScales(sc, mn), group);
  }

  /** The C++ unpacker `scale_min_k4`, which is also Python's `q4k_scale_min_scalar`. */
  function ScaleMinK4(scales: seq<Byte>, group: nat): (Byte, Byte)
    requires |scales| == 12 && group < 8
  {
    if group < 4 then
      (scales[group] & 63, scales[group + 4] & 63)
    else
      ((scales[group + 4] & 0x0f) | ((scales[group - 4] >> 6) << 4),
       (scales[group + 4] >> 4) | ((scales[group] >> 6) << 4))
  }

  lemma SixBits(a: Byte, b: Byte)
    requires a < 64 && b < 64
    ensures ((a & 0x3F) | ((b >> 4) << 6)) & 63 == a
    ensures ((a & 0x3F) | ((b >> 4) << 6)) >> 6 == b >> 4
  {
  }

  lemma TwoNibbles(a: Byte, b: Byte)
    ensures Half(NibblePair(a, b), false) == Half(a, false)
    ensures Half(NibblePair(a, b), true) == Half(b, false)
  {
  }

  lemma Rejoin(a: Byte)
    requires a < 64
    ensures (a & 0x0F) | ((a >> 4) << 4) == a
  {
  }

  lemma ScaleMinInverts(sc: seq<Byte>, mn: seq<Byte>, packed: seq<Byte>, group: nat)
    requires |sc| == |mn| == 8 && Below(sc, 64) && Below(mn, 64) && group < 8
    requires |packed| == 12 && forall i | 0 <= i < 12 :: packed[i] == ScaleByte(sc, mn, i)
    ensures ScaleMinK4(packed, group) == (sc[group], mn[group])
  {
    if group < 4 {
      SixBits(sc[group], sc[group + 4]);
      SixBits(mn[group], mn[group + 4]);
    } else {
      TwoNibbles(sc[group], mn[group]);
      SixBits(sc[group - 4], sc[group]);
      SixBits(mn[group - 4], mn[group]);
      Rejoin(sc[group]);
      Rejoin(mn[group]);
      assert packed[group + 4] == ScaleByte(sc, mn, group + 4);
      assert packed[group - 4] == ScaleByte(sc, mn, group - 4);
      assert packed[group] == ScaleByte(sc, mn, group);
    }
  }

  // ----- Q4_K: 4-bit codes, two 32-wide groups to 32 bytes -----

  /** The 4-bit code of element `j` of a 256-wide block, as the readers take it. */
  function Nibble(quants: seq<Byte>, j: nat): Byte
    requires |quants| == 128 && j < 256
  {
    Half(quants[j / 64 * 32 + j % 32], j / 32 % 2 != 0)
  }

  /** `lo | (hi << 4)`. */
  function JoinNibbles(lo: Byte, hi: Byte): Byte {
    lo | (hi << 4)
  }

  lemma NibblesSplit(lo: Byte, hi: Byte)
    requires lo < 16 && hi < 16
    ensures Half(JoinNibbles(lo, hi), false) == lo && Half(JoinNibbles(lo, hi), true) == hi
  {
  }

  /** The 128 bytes of a block's codes: byte `k` joins two groups of a pair. */
  function NibbleBytes(q: seq<Byte>): (quants: seq<Byte>)
    requires |q| == 256
    ensures |quants| == 128
  {
    seq(128, k requires 0 <= k < 128 => JoinNibbles(q[k / 32 * 64 + k % 32], q[k / 32 * 64 + 32 + k % 32]))
  }

  /** Code `j` sits in byte `k`, in the half that its group's parity says. */
  lemma NibblePosition(j: nat)
    requires j < 256
    ensures var k := j / 64 * 32 + j % 32;
            k < 128 && k / 32 == j / 64 && k % 32 == j % 32 && j == k / 32 * 64 + j / 32 % 2 * 32 + k % 32
  {
  }

  /** Reading back what was packed gives the same code. */
  lemma NibblesRoundTrip(q: seq<Byte>, j: nat)
    requires |q| == 256 && Below(q, 16) && j < 256
    ensures Nibble(NibbleBytes(q), j) == q[j]
  {
    hide JoinNibbles, Half;
    var k := j / 64 * 32 + j % 32;
    NibblePosition(j);
    assert NibbleBytes(q)[k] == JoinNibbles(q[k / 32 * 64 + k % 32], q[k / 32 * 64 + 32 + k % 32]);
    NibblesSplit(q[k / 32 * 64 + k % 32], q[k / 32 * 64 + 32 + k % 32]);
  }

  lemma PairOfGroups(q: seq<Byte>, p: nat, i: nat)
    requires |q| == 256 && p < 4 && i < 32
    ensures NibbleBytes(q)[32 * p + i] == JoinNibbles(q[64 * p + i], q[64 * p + 32 + i])
  {
    hide JoinNibbles;
    assert (32 * p + i) / 32 == p && (32 * p + i) % 32 == i;
  }

  /** The quantizer's loop over pairs of groups. */
  method PackNibbles(q: seq<Byte>) returns (quants: seq<Byte>)
    requires |q| == 256
    ensures quants == NibbleBytes(q)
    ensures Below(q, 16) ==> forall j | 0 <= j < 256 :: Nibble(quants, j) == q[j]
  {
    hide JoinNibbles, Nibble, NibbleBytes;
    quants := [];
    for p := 0 to 4
      invariant quants == NibbleBytes(q)[..32 * p]
    {
      var lo, hi := q[64 * p..64 * p + 32], q[64 * p + 32..64 * p + 64];
      var joined := seq(32, i requires 0 <= i < 32 => JoinNibbles(lo[i], hi[i]));
      forall i | 0 <= i < 32 ensures joined[i] == NibbleBytes(q)[32 * p + i] {
        PairOfGroups(q, p, i);
      }
      quants := quants + joined;
    }
    assert quants == NibbleBytes(q);
    if Below(q, 16) {
      forall j | 0 <= j < 256 ensures Nibble(quants, j) == q[j] {
        NibblesRoundTrip(q, j);
      }
    }
  }

  // ----- Q2_K and Q3_K: 2-bit codes, four 32-wide lanes to 32 bytes -----

  /** The two-bit code of element `j` of a 256-wide block, as the readers take it. */
  function TwoBits(quants: seq<Byte>, j: nat): Byte
    requires |quants| == 64 && j < 256
  {
    Crumb(quants[j / 128 * 32 + j % 128 % 32], j % 128 / 32)
  }

  /** A byte after the first `lanes` lanes of its half have been or-ed in. */
  function LaneByte(q: seq<Byte>, k: nat, lanes: nat): Byte
    requires |q| == 256 && k < 64 && lanes <= 4
  {
    if lanes == 0 then 0
    else OrShift(LaneByte(q, k, lanes - 1), q[k / 32 * 128 + (lanes - 1) * 32 + k % 32], 2 * (lanes - 1))
  }

  lemma FourLanes(a: Byte, b: Byte, c: Byte, d: Byte)
    requires a < 4 && b < 4 && c < 4 && d < 4
    ensures var x := a | (b << 2) | (c << 4) | (d << 6);
            x & 3 == a && (x >> 2) & 3 == b && (x >> 4) & 3 == c && (x >> 6) & 3 == d
  {
  }

  lemma LaneByteUnrolled(q: seq<Byte>, k: nat)
    requires |q| == 256 && k < 64
    ensures var at := k / 32 * 128 + k % 32;
            LaneByte(q, k, 4) == q[at] | (q[at + 32] << 2) | (q[at + 64] << 4) | (q[at + 96] << 6)
  {
    var at := k / 32 * 128 + k % 32;
    assert LaneByte(q, k, 0) == 0;
    assert LaneByte(q, k, 1) == q[at];
    assert LaneByte(q, k, 2) == q[at] | (q[at + 32] << 2);
    assert LaneByte(q, k, 3) == q[at] | (q[at + 32] << 2) | (q[at + 64] << 4);
  }

  /** Code `j` sits in byte `k`, in its lane of its half. */
  lemma TwoBitsPosition(j: nat)
    requires j < 256
    ensures var k, lane := j / 128 * 32 + j % 128 % 32, j % 128 / 32;
            k < 64 && lane < 4 && j == k / 32 * 128 + k % 32 + 32 * lane
  {
  }

  lemma TwoBitsInverts(q: seq<Byte>, quants: seq<Byte>, j: nat)
    requires |q| == 256 && Below(q, 4) && j < 256
    requires |quants| == 64 && forall k | 0 <= k < 64 :: quants[k] == LaneByte(q, k, 4)
    ensures TwoBits(quants, j) == q[j]
  {
    hide Crumb, LaneByte;
    var k, lane := j / 128 * 32 + j % 128 % 32, j % 128 / 32;
    TwoBitsPosition(j);
    LaneOfByte(q, k, lane);
  }

  lemma LaneOfByte(q: seq<Byte>, k: nat, lane: nat)
    requires |q| == 256 && Below(q, 4) && k < 64 && lane < 4
    ensures Crumb(LaneByte(q, k, 4), lane) == q[k / 32 * 128 + k % 32 + 32 * lane]
  {
    hide Crumb, LaneByte;
    var at := k / 32 * 128 + k % 32;
    LaneByteUnrolled(q, k);
    FourLanes(q[at], q[at + 32], q[at + 64], q[at + 96]);
    CrumbCases(LaneByte(q, k, 4));
  }

  /** One half's 32 bytes after `lanes` lanes. */
  function HalfBytes(q: seq<Byte>, half: nat, lanes: nat): (bytes: seq<Byte>)
    requires |q| == 256 && half < 2 && lanes <= 4
    ensures |bytes| == 32
  {
    seq(32, i requires 0 <= i < 32 => LaneByte(q, half * 32 + i, lanes))
  }

  /** The slice statement `bytes |= codes << shift`. */
  function OrShifted(bytes: seq<Byte>, codes: seq<Byte>, shift: nat): (r: seq<Byte>)
    requires |bytes| == |codes| && shift < 8
    ensures |r| == |bytes|
  {
    seq(|bytes|, i requires 0 <= i < |bytes| => OrShift(bytes[i], codes[i], shift))
  }

  lemma OrLane(q: seq<Byte>, half: nat, lane: nat)
    requires |q| == 256 && half < 2 && lane < 4
    ensures OrShifted(HalfBytes(q, half, lane), q[half * 128 + lane * 32..half * 128 + (lane + 1) * 32], 2 * lane)
            == HalfBytes(q, half, lane + 1)
  {
    var codes := q[half * 128 + lane * 32..half * 128 + (lane + 1) * 32];
    var ored := OrShifted(HalfBytes(q, half, lane), codes, 2 * lane);
    forall i | 0 <= i < 32 ensures ored[i] == HalfBytes(q, half, lane + 1)[i] {
      assert (half * 32 + i) / 32 == half && (half * 32 + i) % 32 == i;
      assert codes[i] == q[half * 128 + lane * 32 + i];
      assert ored[i] == OrShift(HalfBytes(q, half, lane)[i], codes[i], 2 * lane);
      assert LaneByte(q, half * 32 + i, lane + 1) == OrShift(LaneByte(q, half * 32 + i, lane), codes[i], 2 * lane);
    }
  }

  /** The 64 bytes of a block's 2-bit codes. */
  function TwoBitBytes(q: seq<Byte>): (quants: seq<Byte>)
    requires |q| == 256
    ensures |quants| == 64
  {
    HalfBytes(q, 0, 4) + HalfBytes(q, 1, 4)
  }

  /** Reading back what was packed gives the same code. */
  lemma TwoBitsRoundTrip(q: seq<Byte>, j: nat)
    requires |q| == 256 && Below(q, 4) && j < 256
    ensures TwoBits(TwoBitBytes(q), j) == q[j]
  {
    hide LaneByte, TwoBits;
    var quants := TwoBitBytes(q);
    forall k | 0 <= k < 64 ensures quants[k] == LaneByte(q, k, 4) {
      assert quants[k] == if k < 32 then HalfBytes(q, 0, 4)[k] else HalfBytes(q, 1, 4)[k - 32];
    }
    TwoBitsInverts(q, quants, j);
  }

  /** Both quantizers' loops over halves and lanes. */
  method PackTwoBits(q: seq<Byte>) returns (quants: seq<Byte>)
    requires |q| == 256
    ensures quants == TwoBitBytes(q)
    ensures Below(q, 4) ==> forall j | 0 <= j < 256 :: TwoBits(quants, j) == q[j]
  {
    hide TwoBits;
    quants := [];
    for half := 0 to 2
      invariant quants == (if half > 0 then HalfBytes(q, 0, 4) else [])
                          + (if half > 1 then HalfBytes(q, 1, 4) else [])
    {
      var bytes: seq<Byte> := seq(32, _ => 0);
      assert forall i | 0 <= i < 32 :: bytes[i] == LaneByte(q, half * 32 + i, 0);
      for lane := 0 to 4
        invariant bytes == HalfBytes(q, half, lane)
      {
        OrLane(q, half, lane);
        bytes := OrShifted(bytes, q[half * 128 + lane * 32..half * 128 + (lane + 1) * 32], 2 * lane);
      }
      quants := quants + bytes;
    }
    if Below(q, 4) {
      forall j | 0 <= j < 256 ensures TwoBits(quants, j) == q[j] {
        TwoBitsRoundTrip(q, j);
      }
    }
  }

  // ----- Q3_K: the third bit of each code, in a 32-byte mask -----

  function HighBit(mask: seq<Byte>, j: nat): bool
    requires |mask| == 32 && j < 256
  {
    Bit(mask[j % 32], j / 32) != 0
  }

  function IsHigh(codes: seq<Byte>, j: nat): Byte
    requires j < |codes|
  {
    if codes[j] > 3 then 1 else 0
  }

  /** The mask after the loop's first `n` codes. */
  function MaskAfter(codes: seq<Byte>, n: nat): (mask: seq<Byte>)
    requires |codes| == 256 && n <= 256
    ensures |mask| == 32
  {
    if n == 0 then seq(32, _ => 0)
    else
      var mask, j := MaskAfter(codes, n - 1), n - 1;
      mask[j % 32 := OrShift(mask[j % 32], IsHigh(codes, j), j / 32)]
  }

  function Bit(x: Byte, at: nat): Byte
    requires at < 8
  {
    (x >> at) & 1
  }

  /** A bit at each constant position. */
  lemma BitCases(x: Byte)
    ensures Bit(x, 0) == x & 1 && Bit(x, 1) == (x >> 1) & 1 && Bit(x, 2) == (x >> 2) & 1
    ensures Bit(x, 3) == (x >> 3) & 1 && Bit(x, 4) == (x >> 4) & 1 && Bit(x, 5) == (x >> 5) & 1
    ensures Bit(x, 6) == (x >> 6) & 1 && Bit(x, 7) == (x >> 7) & 1
  {
  }

  lemma BitOfZero(at: nat)
    requires at < 8
    ensures Bit(0, at) == 0
  {
    hide Bit;
    BitCases(0);
  }

  /** Or-ing at each constant shift. */
  lemma OrShiftLow(x: Byte, code: Byte)
    ensures OrShift(x, code, 0) == x | code && OrShift(x, code, 1) == x | (code << 1)
  {
  }

  lemma OrShiftMiddle(x: Byte, code: Byte)
    ensures OrShift(x, code, 2) == x | (code << 2) && OrShift(x, code, 3) == x | (code << 3)
  {
  }

  lemma OrShiftHigh(x: Byte, code: Byte)
    ensures OrShift(x, code, 4) == x | (code << 4) && OrShift(x, code, 5) == x | (code << 5)
    ensures OrShift(x, code, 6) == x | (code << 6) && OrShift(x, code, 7) == x | (code << 7)
  {
  }

  /** The eight bits of a byte with one bit or-ed in at a constant place. */
  lemma OrLowBits(x: Byte, bit: Byte, y: Byte, at: nat)
    requires bit <= 1 && at < 4
    requires y == if at == 0 then x | bit else if at == 1 then x | (bit << 1) else if at == 2 then x | (bit << 2)
                  else x | (bit << 3)
    ensures y & 1 == (x & 1) | if at == 0 then bit else 0
    ensures (y >> 1) & 1 == ((x >> 1) & 1) | if at == 1 then bit else 0
    ensures (y >> 2) & 1 == ((x >> 2) & 1) | if at == 2 then bit else 0
    ensures (y >> 3) & 1 == ((x >> 3) & 1) | if at == 3 then bit else 0
    ensures y >> 4 == x >> 4
  {
  }

  lemma OrHighBits(x: Byte, bit: Byte, y: Byte, at: nat)
    requires bit <= 1 && 4 <= at < 8
    requires y == if at == 4 then x | (bit << 4) else if at == 5 then x | (bit << 5) else if at == 6 then x | (bit << 6)
                  else x | (bit << 7)
    ensures (y >> 4) & 1 == ((x >> 4) & 1) | if at == 4 then bit else 0
    ensures (y >> 5) & 1 == ((x >> 5) & 1) | if at == 5 then bit else 0
    ensures (y >> 6) & 1 == ((x >> 6) & 1) | if at == 6 then bit else 0
    ensures (y >> 7) & 1 == ((x >> 7) & 1) | if at == 7 then bit else 0
    ensures y & 15 == x & 15
  {
  }

  lemma HalvesFixBits(x: Byte, y: Byte)
    ensures (y >> 4 == x >> 4) ==>
              && (y >> 4) & 1 == (x >> 4) & 1 && (y >> 5) & 1 == (x >> 5) & 1
              && (y >> 6) & 1 == (x >> 6) & 1 && (y >> 7) & 1 == (x >> 7) & 1
    ensures (y & 15 == x & 15) ==>
              && y & 1 == x & 1 && (y >> 1) & 1 == (x >> 1) & 1
              && (y >> 2) & 1 == (x >> 2) & 1 && (y >> 3) & 1 == (x >> 3) & 1
  {
  }

  lemma OrNothing(x: Byte)
    ensures x | 0 == x
  {
  }

  /** Or-ing one bit in at `at` sets that bit and leaves every other bit alone. */
  lemma OrBit(x: Byte, bit: Byte, at: nat, other: nat)
    requires bit <= 1 && at < 8 && other < 8
    ensures Bit(OrShift(x, bit, at), other) == if at == other then Bit(x, at) | bit else Bit(x, other)
  {
    hide OrShift, Bit;
    if at < 4 {
      OrBitLow(x, bit, at, other);
    } else {
      OrBitHigh(x, bit, at, other);
    }
  }

  lemma OrBitLow(x: Byte, bit: Byte, at: nat, other: nat)
    requires bit <= 1 && at < 4 && other < 8
    ensures Bit(OrShift(x, bit, at), other) == if at == other then Bit(x, at) | bit else Bit(x, other)
  {
    hide OrShift, Bit;
    var y := OrShift(x, bit, at);
    BitCases(x);
    BitCases(y);
    OrNothing(Bit(x, other));
    OrShiftLow(x, bit);
    OrShiftMiddle(x, bit);
    OrLowBits(x, bit, y, at);
    HalvesFixBits(x, y);
  }

  lemma OrBitHigh(x: Byte, bit: Byte, at: nat, other: nat)
    requires bit <= 1 && 4 <= at < 8 && other < 8
    ensures Bit(OrShift(x, bit, at), other) == if at == other then Bit(x, at) | bit else Bit(x, other)
  {
    hide OrShift, Bit;
    var y := OrShift(x, bit, at);
    BitCases(x);
    BitCases(y);
    OrNothing(Bit(x, other));
    OrShiftHigh(x, bit);
    OrHighBits(x, bit, y, at);
    HalvesFixBits(x, y);
  }

  lemma {:induction false} MaskBit(codes: seq<Byte>, n: nat, k: nat, bit: nat)
    requires |codes| == 256 && n <= 256 && k < 32 && bit < 8
    ensures Bit(MaskAfter(codes, n)[k], bit) == if 32 * bit + k < n then IsHigh(codes, 32 * bit + k) else 0
  {
    hide OrShift, Bit;
    if n == 0 {
      BitOfZero(bit);
    } else {
      var j := n - 1;
      MaskBit(codes, j, k, bit);
      assert 32 * (j / 32) + j % 32 == j && (32 * bit + k) / 32 == bit && (32 * bit + k) % 32 == k;
      if k == j % 32 {
        OrBit(MaskAfter(codes, j)[k], IsHigh(codes, j), j / 32, bit);
      }
    }
  }

  /** Each code without its third bit. */
  function LowBits(codes: seq<Byte>): (low: seq<Byte>)
    requires Below(codes, 8)
    ensures |low| == |codes| && Below(low, 4)
    ensures forall j | 0 <= j < |codes| :: low[j] == if codes[j] > 3 then codes[j] - 4 else codes[j]
  {
    seq(|codes|, j requires 0 <= j < |codes| => if codes[j] > 3 then codes[j] - 4 else codes[j])
  }

  /** The finished mask says of every code whether it has its third bit. */
  lemma MaskRoundTrip(codes: seq<Byte>, j: nat)
    requires |codes| == 256 && j < 256
    ensures HighBit(MaskAfter(codes, 256), j) == (codes[j] > 3)
  {
    hide Bit, MaskAfter;
    MaskBit(codes, 256, j % 32, j / 32);
  }

  lemma TakeHighBit(code: Byte)
    ensures code - (if code > 3 then 1 else 0) * 4 == if code > 3 then code - 4 else code
  {
  }

  /** The loop over all 256 codes that moves each third bit into the mask. */
  method SplitHighBits(codes: seq<Byte>) returns (mask: seq<Byte>, low: seq<Byte>)
    requires |codes| == 256 && Below(codes, 8)
    ensures mask == MaskAfter(codes, 256) && low == LowBits(codes)
    ensures forall j | 0 <= j < 256 :: HighBit(mask, j) == (codes[j] > 3)
  {
    hide HighBit, OrShift, Below;
    mask, low := seq(32, _ => 0), codes;
    for j := 0 to 256
      invariant mask == MaskAfter(codes, j)
      invariant |low| == 256
      invariant forall i | 0 <= i < j :: low[i] == if codes[i] > 3 then codes[i] - 4 else codes[i]
      invariant forall i | j <= i < 256 :: low[i] == codes[i]
    {
      var high: Byte := if low[j] > 3 then 1 else 0;
      TakeHighBit(low[j]);
      mask := mask[j % 32 := OrShift(mask[j % 32], high, j / 32)];
      low := low[j := low[j] - high * 4];
    }
    forall j | 0 <= j < 256 ensures HighBit(mask, j) == (codes[j] > 3) {
      MaskRoundTrip(codes, j);
    }
  }

  // ----- Q3_K: sixteen 6-bit scales in twelve bytes -----

  /** The four lanes of a byte with two bits or-ed in at a constant lane. */
  lemma OrCrumbs(x: Byte, code: Byte, y: Byte, at: nat)
    requires code < 4 && at < 4
    requires y == if at == 0 then x | code else if at == 1 then x | (code << 2) else if at == 2 then x | (code << 4)
                  else x | (code << 6)
    ensures y & 3 == (x & 3) | if at == 0 then code else 0
    ensures (y >> 2) & 3 == ((x >> 2) & 3) | if at == 1 then code else 0
    ensures (y >> 4) & 3 == ((x >> 4) & 3) | if at == 2 then code else 0
    ensures (y >> 6) & 3 == ((x >> 6) & 3) | if at == 3 then code else 0
  {
  }

  /** Or-ing two bits in at lane `at` sets that lane and leaves every other lane alone. */
  lemma OrCrumb(x: Byte, code: Byte, at: nat, other: nat)
    requires code < 4 && at < 4 && other < 4
    ensures Crumb(OrShift(x, code, 2 * at), other) == if at == other then Crumb(x, at) | code else Crumb(x, other)
  {
    hide OrShift, Crumb;
    var y := OrShift(x, code, 2 * at);
    OrShiftLow(x, code);
    OrShiftMiddle(x, code);
    OrShiftHigh(x, code);
    CrumbCases(x);
    CrumbCases(y);
    OrNothing(Crumb(x, other));
    OrCrumbs(x, code, y, at);
  }

  /** The four high-bit bytes after the loop's first `n` scales. */
  function HighBytes(enc: seq<Byte>, n: nat): (bytes: seq<Byte>)
    requires |enc| == 16 && n <= 16
    ensures |bytes| == 4
  {
    if n == 0 then [0, 0, 0, 0]
    else
      var bytes, j := HighBytes(enc, n - 1), n - 1;
      bytes[j % 4 := OrShift(bytes[j % 4], Crumb(enc[j], 2), 2 * (j / 4))]
  }

  lemma CrumbOfZero(lane: nat)
    requires lane < 4
    ensures Crumb(0, lane) == 0
  {
    CrumbCases(0);
  }

  lemma LaneOfScale(j: nat, k: nat, lane: nat)
    requires j < 16 && k < 4 && lane < 4
    ensures 4 * lane + k == j <==> k == j % 4 && lane == j / 4
  {
  }

  lemma {:induction false} HighByteCrumb(enc: seq<Byte>, n: nat, k: nat, lane: nat)
    requires |enc| == 16 && n <= 16 && k < 4 && lane < 4
    ensures Crumb(HighBytes(enc, n)[k], lane) == if 4 * lane + k < n then Crumb(enc[4 * lane + k], 2) else 0
  {
    hide OrShift, Crumb;
    if n == 0 {
      CrumbOfZero(lane);
    } else {
      var j := n - 1;
      HighByteCrumb(enc, j, k, lane);
      LaneOfScale(j, k, lane);
      if k == j % 4 {
        OrCrumb(HighBytes(enc, j)[k], Crumb(enc[j], 2), j / 4, lane);
      }
    }
  }

  /** The twelve bytes of the sixteen scales. */
  function Q3KScaleBytes(enc: seq<Byte>): (scales: seq<Byte>)
    requires |enc| == 16
    ensures |scales| == 12
  {
    seq(8, i requires 0 <= i < 8 => NibblePair(enc[i], enc[8 + i])) + HighBytes(enc, 16)
  }

  /** Reading back what was packed gives the same scale. */
  lemma Q3KScalesRoundTrip(enc: seq<Byte>, j: nat)
    requires |enc| == 16 && Below(enc, 64) && j < 16
    ensures Q3KScale(Q3KScaleBytes(enc), j) == enc[j]
  {
    hide NibblePair, HighBytes, Q3KScale;
    Q3KScaleInverts(enc, Q3KScaleBytes(enc), j);
  }

  method PackQ3KScales(enc: seq<Byte>) returns (scales: seq<Byte>)
    requires |enc| == 16
    ensures scales == Q3KScaleBytes(enc)
    ensures Below(enc, 64) ==> forall j | 0 <= j < 16 :: Q3KScale(scales, j) == enc[j]
  {
    hide Q3KScale, NibblePair, Crumb, OrShift;
    var low := seq(8, i requires 0 <= i < 8 => NibblePair(enc[i], enc[8 + i]));
    var high: seq<Byte> := [0, 0, 0, 0];
    for j := 0 to 16
      invariant high == HighBytes(enc, j)
    {
      high := high[j % 4 := OrShift(high[j % 4], Crumb(enc[j], 2), 2 * (j / 4))];
    }
    scales := low + high;
    if Below(enc, 64) {
      forall j | 0 <= j < 16 ensures Q3KScale(scales, j) == enc[j] {
        Q3KScalesRoundTrip(enc, j);
      }
    }
  }

  lemma Q3KScaleInverts(enc: seq<Byte>, scales: seq<Byte>, j: nat)
    requires |enc| == 16 && Below(enc, 64) && j < 16
    requires |scales| == 12 && scales[8..] == HighBytes(enc, 16)
    requires forall i | 0 <= i < 8 :: scales[i] == NibblePair(enc[i], enc[8 + i])
    ensures Q3KScale(scales, j) == enc[j]
  {
    hide OrShift, Crumb, NibblePair, Half, Under;
    HighByteCrumb(enc, 16, j % 4, j / 4);
    assert scales[8 + j % 4] == scales[8..][j % 4];
    TwoNibbles(enc[j % 8], enc[8 + j % 8]);
    JoinSixBits(enc[j]);
  }

  lemma JoinSixBits(a: Byte)
    requires a < 64
    ensures Under(Half(a, false), Crumb(a, 2)) == a
  {
  }

  /** A scale's low bits under its high bits. */
  function Under(nibble: Byte, crumb: Byte): Byte {
    nibble | (crumb << 4)
  }

  /** Python's reader, one byte at a time. */
  function Q3KScale(scales: seq<Byte>, j: nat): Byte
    requires |scales| == 12 && j < 16
  {
    Under(Half(scales[j % 8], j >= 8), Crumb(scales[8 + j % 4], j / 4))
  }

  /** Four bytes as a little-endian word, and the bytes of a word in memory order. */
  function ReadU32(a: Byte, b: Byte, c: Byte, d: Byte): bv32 {
    (a as bv32) | (b as bv32 << 8) | (c as bv32 << 16) | (d as bv32 << 24)
  }

  function WordBytes(word: bv32): (bytes: seq<Byte>)
    ensures |bytes| == 4
  {
    [(word & 0xff) as bv8, ((word >> 8) & 0xff) as bv8, ((word >> 16) & 0xff) as bv8, ((word >> 24) & 0xff) as bv8]
  }

  function NibbleWord(aux: bv32, upper: bool): bv32 {
    if upper then (aux >> 4) & 0x0f0f0f0f else aux & 0x0f0f0f0f
  }

  function CrumbWord(aux: bv32, lane: nat): bv32
    requires lane < 4
  {
    match lane
    case 0 => (aux >> 0) & 0x03030303
    case 1 => (aux >> 2) & 0x03030303
    case 2 => (aux >> 4) & 0x03030303
    case _ => (aux >> 6) & 0x03030303
  }

  function JoinWord(nibbles: bv32, crumbs: bv32): bv32 {
    nibbles | (crumbs << 4)
  }

  /** The C++ reader's four words. */
  function Q3KScaleWord(s: seq<Byte>, w: nat): bv32
    requires |s| == 12 && w < 4
  {
    var aux0, aux1, aux2 := ReadU32(s[0], s[1], s[2], s[3]), ReadU32(s[4], s[5], s[6], s[7]),
                            ReadU32(s[8], s[9], s[10], s[11]);
    JoinWord(NibbleWord(if w % 2 == 0 then aux0 else aux1, w >= 2), CrumbWord(aux2, w))
  }

  /** Byte `j` of the four words after `memcpy`. */
  function Q3KScaleByWord(s: seq<Byte>, j: nat): Byte
    requires |s| == 12 && j < 16
  {
    WordBytes(Q3KScaleWord(s, j / 4))[j % 4]
  }

  /** A whole-word step does the same to each of its bytes. */
  lemma NibbleLanes(a: Byte, b: Byte, c: Byte, d: Byte, upper: bool)
    ensures NibbleWord(ReadU32(a, b, c, d), upper)
            == ReadU32(Half(a, upper), Half(b, upper), Half(c, upper), Half(d, upper))
  {
    LowNibbles(a, b, c, d);
    HighNibbles(a, b, c, d);
    hide ReadU32;
  }

  lemma LowNibbles(a: Byte, b: Byte, c: Byte, d: Byte)
    ensures ReadU32(a, b, c, d) & 0x0f0f0f0f == ReadU32(a & 15, b & 15, c & 15, d & 15)
  {
  }

  lemma HighNibbles(a: Byte, b: Byte, c: Byte, d: Byte)
    ensures (ReadU32(a, b, c, d) >> 4) & 0x0f0f0f0f == ReadU32(a >> 4, b >> 4, c >> 4, d >> 4)
  {
  }

  lemma CrumbLanes(a: Byte, b: Byte, c: Byte, d: Byte, lane: nat)
    requires lane < 4
    ensures CrumbWord(ReadU32(a, b, c, d), lane)
            == ReadU32(Crumb(a, lane), Crumb(b, lane), Crumb(c, lane), Crumb(d, lane))
  {
    CrumbCases(a);
    CrumbCases(b);
    CrumbCases(c);
    CrumbCases(d);
    ConstantCrumbs(a, b, c, d);
    hide Crumb, ReadU32;
  }

  lemma ConstantCrumbs(a: Byte, b: Byte, c: Byte, d: Byte)
    ensures (ReadU32(a, b, c, d) >> 0) & 0x03030303 == ReadU32(a & 3, b & 3, c & 3, d & 3)
    ensures (ReadU32(a, b, c, d) >> 2) & 0x03030303 == ReadU32((a >> 2) & 3, (b >> 2) & 3, (c >> 2) & 3, (d >> 2) & 3)
    ensures (ReadU32(a, b, c, d) >> 4) & 0x03030303 == ReadU32((a >> 4) & 3, (b >> 4) & 3, (c >> 4) & 3, (d >> 4) & 3)
    ensures (ReadU32(a, b, c, d) >> 6) & 0x03030303 == ReadU32((a >> 6) & 3, (b >> 6) & 3, (c >> 6) & 3, (d >> 6) & 3)
  {
  }

  lemma JoinLanes(a: Byte, b: Byte, c: Byte, d: Byte, e: Byte, f: Byte, g: Byte, h: Byte)
    requires a < 16 && b < 16 && c < 16 && d < 16 && e < 4 && f < 4 && g < 4 && h < 4
    ensures WordBytes(JoinWord(ReadU32(a, b, c, d), ReadU32(e, f, g, h)))
            == [Under(a, e), Under(b, f), Under(c, g), Under(d, h)]
  {
  }

  lemma CrumbCases(x: Byte)
    ensures Crumb(x, 0) == x & 3 && Crumb(x, 1) == (x >> 2) & 3
    ensures Crumb(x, 2) == (x >> 4) & 3 && Crumb(x, 3) == (x >> 6) & 3
  {
  }

  lemma WordStep(a: Byte, b: Byte, c: Byte, d: Byte, e: Byte, f: Byte, g: Byte, h: Byte, upper: bool, lane: nat)
    requires lane < 4
    ensures WordBytes(JoinWord(NibbleWord(ReadU32(a, b, c, d), upper), CrumbWord(ReadU32(e, f, g, h), lane)))
            == [Under(Half(a, upper), Crumb(e, lane)), Under(Half(b, upper), Crumb(f, lane)),
                Under(Half(c, upper), Crumb(g, lane)), Under(Half(d, upper), Crumb(h, lane))]
  {
    hide *;
    NibbleLanes(a, b, c, d, upper);
    CrumbLanes(e, f, g, h, lane);
    JoinLanes(Half(a, upper), Half(b, upper), Half(c, upper), Half(d, upper),
              Crumb(e, lane), Crumb(f, lane), Crumb(g, lane), Crumb(h, lane));
  }

  lemma WordByteOf(s: seq<Byte>, w: nat, i: nat)
    requires |s| == 12 && w < 4 && i < 4
    ensures WordBytes(Q3KScaleWord(s, w))[i]
            == Under(Half(s[if w % 2 == 0 then i else 4 + i], w >= 2), Crumb(s[8 + i], w))
  {
    hide ReadU32, WordBytes, NibbleWord, CrumbWord, JoinWord, Crumb, Half, Under;
    if w % 2 == 0 {
      WordStep(s[0], s[1], s[2], s[3], s[8], s[9], s[10], s[11], w >= 2, w);
      Fourth(s, w, 0, i);
    } else {
      WordStep(s[4], s[5], s[6], s[7], s[8], s[9], s[10], s[11], w >= 2, w);
      Fourth(s, w, 4, i);
    }
  }

  lemma Fourth(s: seq<Byte>, w: nat, at: nat, i: nat)
    requires |s| == 12 && w < 4 && i < 4 && (at == 0 || at == 4)
    ensures [Under(Half(s[at], w >= 2), Crumb(s[8], w)), Under(Half(s[at + 1], w >= 2), Crumb(s[9], w)),
             Under(Half(s[at + 2], w >= 2), Crumb(s[10], w)), Under(Half(s[at + 3], w >= 2), Crumb(s[11], w))][i]
            == Under(Half(s[at + i], w >= 2), Crumb(s[8 + i], w))
  {
    hide Under, Half, Crumb;
    if i == 0 {} else if i == 1 {} else if i == 2 {} else { assert i == 3; }
  }

  /** Both readers see the same sixteen scales in any twelve bytes. */
  lemma Q3KReadersAgree(s: seq<Byte>, j: nat)
    requires |s| == 12 && j < 16
    ensures Q3KScaleByWord(s, j) == Q3KScale(s, j)
  {
    hide Q3KScaleWord, WordBytes, Crumb, Half, Under;
    WordByteOf(s, j / 4, j % 4);
  }
}
