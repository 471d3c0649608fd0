/** The Q4_K, Q2_K and Q3_K quantizers (tools/hy3_mlx_to_q4k.py,
    tools/prepare_mixed_expert_repack.py) over exact reals, with the rounding of the block scales to
    half precision left open: any way to store a real in two bytes, and any way to read it. The
    1e-30 cutoff is zero. */
module KQuantizer {
  import opened DotKernels
  import opened KQuantLayout
  import opened Options
  import opened Rounding

  /** Half precision: how a real is stored in two bytes, and which real two bytes are read as. */
  datatype HalfFloat = HalfFloat(store: real -> (Byte, Byte), load: (Byte, Byte) -> real) {

    /** The value that is left of `v` once it has been stored. */
    function Narrow(v: real): real {
      var (low, high) := store(v);
      load(low, high)
    }

    function Stored(v: real): (bytes: seq<Byte>)
      ensures |bytes| == 2
    {
      var (low, high) := store(v);
      [low, high]
    }
  }

  /** Rounding to half precision does not make a non-negative value negative. */
  ghost predicate KeepsSign(h: HalfFloat) {
    forall v | v >= 0.0 :: h.Narrow(v) >= 0.0
  }

  /** The shape of a block with a scale and a minimum for each group: the group's width, the largest
      code, and the largest scale unit. */
  datatype Grid = Grid(width: nat, levels: nat, units: nat)

  const Q4KGrid := Grid(32, 15, 63)
  const Q2KGrid := Grid(16, 3, 15)

  predicate ValidGrid(grid: Grid) {
    grid == Q4KGrid || grid == Q2KGrid
  }

  /** Quantized before packing: the two block scales before they are narrowed, a pair of units per
      group, a code per value. Q3_K has no minima, and its second scale repeats the first. */
  datatype Quantized = Quantized(d: real, dmin: real, scales: seq<int>, minima: seq<int>, codes: seq<int>)

  function MinOf(xs: seq<real>): (m: real)
    requires xs != []
    ensures forall i | 0 <= i < |xs| :: m <= xs[i]
  {
    if |xs| == 1 then xs[0]
    else
      var rest := MinOf(xs[1..]);
      assert forall i | 1 <= i < |xs| :: xs[i] == xs[1..][i - 1];
      if xs[0] < rest then xs[0] else rest
  }

  function MaxOf(xs: seq<real>): (m: real)
    requires xs != []
    ensures forall i | 0 <= i < |xs| :: xs[i] <= m
  {
    if |xs| == 1 then xs[0]
    else
      var rest := MaxOf(xs[1..]);
      assert forall i | 1 <= i < |xs| :: xs[i] == xs[1..][i - 1];
      if xs[0] > rest then xs[0] else rest
  }

  /** Both are values of the sequence. */
  lemma {:induction false} MinAndMaxOccur(xs: seq<real>)
    requires xs != []
    ensures exists i :: 0 <= i < |xs| && xs[i] == MinOf(xs)
    ensures exists i :: 0 <= i < |xs| && xs[i] == MaxOf(xs)
  {
    if |xs| == 1 {
      assert xs[0] == MinOf(xs) == MaxOf(xs);
    } else {
      MinAndMaxOccur(xs[1..]);
      var i :| 0 <= i < |xs[1..]| && xs[1..][i] == MinOf(xs[1..]);
      var j :| 0 <= j < |xs[1..]| && xs[1..][j] == MaxOf(xs[1..]);
      assert xs[i + 1] == MinOf(xs[1..]) && xs[j + 1] == MaxOf(xs[1..]);
      assert MinOf(xs) == xs[0] || MinOf(xs) == xs[i + 1];
      assert MaxOf(xs) == xs[0] || MaxOf(xs) == xs[j + 1];
    }
  }

  /** How far a group reaches below zero, and the step that spans it from there to its maximum. */
  function OffsetOf(xs: seq<real>): (offset: real)
    requires xs != []
    ensures offset >= 0.0 && forall i | 0 <= i < |xs| :: xs[i] >= -offset
  {
    var low := MinOf(xs);
    if -low > 0.0 then -low else 0.0
  }

  function StepOf(xs: seq<real>, levels: nat): real
    requires xs != [] && levels > 0
  {
    var step := (MaxOf(xs) + OffsetOf(xs)) / levels as real;
    if step > 0.0 then step else 0.0
  }

  /** A group's step or offset in whole units of the block's scale. */
  function Units(v: real, d: real, units: nat): int {
    if d > 0.0 then Clip(Rint(v / d), 0, units) else 0
  }

  function CodeFor(y: real, step: real, levels: nat): int {
    if step > 0.0 then Clip(Rint(y / step), 0, levels) else 0
  }

  function Product(d: real, n: int): (p: real)
    ensures p == Times(d, n)
  {
    d * n as real
  }

  function Max(a: real, b: real): real { if a >= b then a else b }

  function GroupCount(grid: Grid): nat
    requires ValidGrid(grid)
  {
    if grid == Q4KGrid then 8 else 16
  }

  /** The group of value `j`. */
  function GroupIndex(grid: Grid, j: nat): (g: nat)
    requires ValidGrid(grid) && j < 256
    ensures g < GroupCount(grid)
  {
    if grid == Q4KGrid then j / 32 else j / 16
  }

  function GroupOf(grid: Grid, x: seq<real>, g: nat): (group: seq<real>)
    requires ValidGrid(grid) && |x| == 256 && g < GroupCount(grid)
    ensures |group| == grid.width
  {
    if grid == Q4KGrid then x[32 * g..32 * g + 32] else x[16 * g..16 * g + 16]
  }

  function Steps(grid: Grid, x: seq<real>): (steps: seq<real>)
    requires ValidGrid(grid) && |x| == 256
    ensures |steps| == GroupCount(grid)
  {
    seq(GroupCount(grid), g requires 0 <= g < GroupCount(grid) => StepOf(GroupOf(grid, x, g), grid.levels))
  }

  function Offsets(grid: Grid, x: seq<real>): (offsets: seq<real>)
    requires ValidGrid(grid) && |x| == 256
    ensures |offsets| == GroupCount(grid)
  {
    seq(GroupCount(grid), g requires 0 <= g < GroupCount(grid) => OffsetOf(GroupOf(grid, x, g)))
  }

  function Quantize(grid: Grid, h: HalfFloat, x: seq<real>): (z: Quantized)
    requires ValidGrid(grid) && |x| == 256
    ensures |z.scales| == |z.minima| == GroupCount(grid) && |z.codes| == 256
  {
    var steps, offsets := Steps(grid, x), Offsets(grid, x);
    var d, dmin := MaxOf(steps) / grid.units as real, MaxOf(offsets) / grid.units as real;
    var scales := seq(|steps|, g requires 0 <= g < |steps| => Units(steps[g], d, grid.units));
    var minima := seq(|offsets|, g requires 0 <= g < |offsets| => Units(offsets[g], dmin, grid.units));
    var codes := seq(256, j requires 0 <= j < 256 =>
      var g := GroupIndex(grid, j);
      CodeFor(x[j] + Product(h.Narrow(dmin), minima[g]), Product(h.Narrow(d), scales[g]), grid.levels));
    Quantized(d, dmin, scales, minima, codes)
  }

  // ----- Q3_K: signed scales, no minima -----

  /** The first value of the largest magnitude. */
  function PeakOf(xs: seq<real>): (peak: real)
    requires xs != []
    ensures forall i | 0 <= i < |xs| :: Abs(xs[i]) <= Abs(peak)
  {
    if |xs| == 1 then xs[0]
    else
      var rest := PeakOf(xs[1..]);
      assert forall i | 1 <= i < |xs| :: xs[i] == xs[1..][i - 1];
      if Abs(xs[0]) >= Abs(rest) then xs[0] else rest
  }

  function Sixteen(x: seq<real>, g: nat): (group: seq<real>)
    requires |x| == 256 && g < 16
    ensures |group| == 16
  {
    x[16 * g..16 * g + 16]
  }

  /** Each group's scale takes its peak to code -4. */
  function SignedScales(x: seq<real>): (scales: seq<real>)
    requires |x| == 256
    ensures |scales| == 16
  {
    seq(16, g requires 0 <= g < 16 => -PeakOf(Sixteen(x, g)) / 4.0)
  }

  function SignedCode(v: real, d: real, k: int): int {
    if d != 0.0 then Clip(Rint(v / d), -k, k - 1) else 0
  }

  function Inverse(v: real): real {
    if v != 0.0 then -32.0 / v else 0.0
  }

  function SignedUnits(inverse: real, scale: real): int {
    Clip(Rint(inverse * scale), -32, 31)
  }

  function QuantizeSigned(h: HalfFloat, x: seq<real>): (z: Quantized)
    requires |x| == 256
    ensures |z.scales| == |z.minima| == 16 && |z.codes| == 256
  {
    var groups := SignedScales(x);
    var inverse := Inverse(PeakOf(groups));
    var scales := seq(16, g requires 0 <= g < 16 => SignedUnits(inverse, groups[g]));
    var d := if inverse != 0.0 then 1.0 / inverse else 0.0;
    var codes := seq(256, j requires 0 <= j < 256 => SignedCode(x[j], Product(h.Narrow(d), scales[j / 16]), 4));
    Quantized(d, d, scales, seq(16, _ => 0), codes)
  }

  // ----- the three formats -----

  function GroupsIn(format: Format): nat {
    if format == Q4K then 8 else 16
  }

  /** The group of value `j`. */
  function GroupAt(format: Format, j: nat): (g: nat)
    requires j < 256
    ensures g < GroupsIn(format)
  {
    if format == Q4K then j / 32 else j / 16
  }

  ghost predicate Sized(format: Format, z: Quantized) {
    |z.scales| == |z.minima| == GroupsIn(format) && |z.codes| == 256
  }

  function QuantizeBlock(format: Format, h: HalfFloat, x: seq<real>): (z: Quantized)
    requires |x| == 256
    ensures Sized(format, z)
  {
    match format
    case Q4K => Quantize(Q4KGrid, h, x)
    case Q2K => Quantize(Q2KGrid, h, x)
    case Q3K => QuantizeSigned(h, x)
  }

  /** The value that the readers make of value `j`, with the scales as stored. */
  ghost function Dequantized(format: Format, h: HalfFloat, z: Quantized, j: nat): real
    requires Sized(format, z) && j < 256
  {
    var g := GroupAt(format, j);
    Times(Times(h.Narrow(z.d), z.scales[g]), z.codes[j]) - Times(h.Narrow(z.dmin), z.minima[g])
  }

  /** What narrowing a block scale does to `n` units of it. */
  ghost function Drift(h: HalfFloat, d: real, n: int): real {
    Abs(Times(d, n) - Times(h.Narrow(d), n))
  }

  /** The error allowed to a value of group `g`. For the affine formats it is half the group's step,
      or what rounding the group's scale and minimum can leave outside the codes; Q3_K clips at 3, a
      whole step below the top of its range. */
  ghost function Slack(format: Format, h: HalfFloat, z: Quantized, g: nat): real
    requires Sized(format, z) && g < GroupsIn(format)
  {
    var step := Times(h.Narrow(z.d), z.scales[g]);
    match format
    case Q4K => Max(step / 2.0, 15.0 * ScaleError(h, z, g) + MinimumError(h, z, g))
    case Q2K => Max(step / 2.0, 3.0 * ScaleError(h, z, g) + MinimumError(h, z, g))
    case Q3K => Abs(step) + 4.0 * (Abs(z.d) + Drift(h, z.d, z.scales[g]))
  }

  /** A group's step and offset differ from what is stored by half a unit and the drift. */
  ghost function ScaleError(h: HalfFloat, z: Quantized, g: nat): real
    requires g < |z.scales|
  {
    z.d / 2.0 + Drift(h, z.d, z.scales[g])
  }

  ghost function MinimumError(h: HalfFloat, z: Quantized, g: nat): real
    requires g < |z.minima|
  {
    z.dmin / 2.0 + Drift(h, z.dmin, z.minima[g])
  }

  // ----- the error bound: affine formats -----

  lemma UnitsError(v: real, d: real, units: nat)
    requires d >= 0.0 && 0.0 <= v <= Times(d, units)
    ensures 0 <= Units(v, d, units) <= units
    ensures -d / 2.0 <= v - Times(d, Units(v, d, units)) <= d / 2.0
  {
    NoSteps(d);
    if d > 0.0 {
      NearestSteps(v, d);
    }
  }

  /** Rounding `y` to a code loses half a step, or what lies outside `levels` steps from zero. */
  lemma CodeError(y: real, step: real, levels: nat, below: real, above: real)
    requires step >= 0.0 && below >= 0.0 && above >= 0.0
    requires -below <= y <= Times(step, levels) + above
    ensures 0 <= CodeFor(y, step, levels) <= levels
    ensures Abs(y - Times(step, CodeFor(y, step, levels))) <= Max(step / 2.0, Max(below, above))
  {
    NoSteps(step);
    if step > 0.0 {
      hide Times;
      NearestSteps(y, step);
      assert Times(step, 0) == 0.0;
    }
  }

  lemma LevelSteps(step: real, levels: nat)
    requires levels == 15 || levels == 3
    ensures Times(step, levels) == if levels == 15 then step * 15.0 else step * 3.0
  {
  }

  /** One value, its group's step and offset, and how far the stored ones are from them. */
  lemma ValueError(x: real, step: real, offset: real, kept: real, shift: real, levels: nat,
                   stepError: real, offsetError: real)
    requires kept >= 0.0 && (levels == 15 || levels == 3)
    requires -offset <= x <= levels as real * step - offset
    requires Abs(step - kept) <= stepError && Abs(offset - shift) <= offsetError
    ensures var q := CodeFor(x + shift, kept, levels);
            && 0 <= q <= levels
            && Abs(x - (Times(kept, q) - shift)) <= Max(kept / 2.0, levels as real * stepError + offsetError)
  {
    hide Times, CodeFor;
    LevelSteps(kept, levels);
    if levels == 15 {
      assert levels as real * step == step * 15.0 && levels as real * stepError == stepError * 15.0;
    } else {
      assert levels as real * step == step * 3.0 && levels as real * stepError == stepError * 3.0;
    }
    CodeError(x + shift, kept, levels, offsetError, levels as real * stepError + offsetError);
  }

  /** Each value of a group lies between minus the offset and `levels` steps above it. */
  lemma GroupSpan(xs: seq<real>, levels: nat, i: nat)
    requires i < |xs| && (levels == 15 || levels == 3)
    ensures -OffsetOf(xs) <= xs[i] <= levels as real * StepOf(xs, levels) - OffsetOf(xs)
    ensures StepOf(xs, levels) >= 0.0
  {
    hide MaxOf;
    assert xs[i] <= MaxOf(xs) && xs[i] >= -OffsetOf(xs);
    hide OffsetOf;
  }

  lemma StepsAreNonNegative(d: real, n: int)
    requires d >= 0.0 && n >= 0
    ensures Times(d, n) >= 0.0
  {
  }

  /** Quantize, then dequantize with the stored scales: every value, including those in clipped and
      in zero-scale groups, comes back within the group's slack. */
  lemma AffineError(grid: Grid, h: HalfFloat, x: seq<real>, j: nat)
    requires ValidGrid(grid) && |x| == 256 && j < 256 && KeepsSign(h)
    ensures var z, g := Quantize(grid, h, x), GroupIndex(grid, j);
            && 0 <= z.scales[g] <= grid.units && 0 <= z.minima[g] <= grid.units && 0 <= z.codes[j] <= grid.levels
            && Abs(x[j] - (Times(Times(h.Narrow(z.d), z.scales[g]), z.codes[j]) - Times(h.Narrow(z.dmin), z.minima[g])))
               <= Max(Times(h.Narrow(z.d), z.scales[g]) / 2.0,
                      grid.levels as real * ScaleError(h, z, g) + MinimumError(h, z, g))
  {
    hide Times, CodeFor, StepOf, OffsetOf, GroupOf, GroupIndex, Quantize;
    var z, g := Quantize(grid, h, x), GroupIndex(grid, j);
    var step, offset := StepOf(GroupOf(grid, x, g), grid.levels), OffsetOf(GroupOf(grid, x, g));
    var kept, shift := Times(h.Narrow(z.d), z.scales[g]), Times(h.Narrow(z.dmin), z.minima[g]);
    GroupUnits(grid, h, x, g);
    CodeOfValue(grid, h, x, j);
    var i := InGroup(grid, x, j);
    GroupSpan(GroupOf(grid, x, g), grid.levels, i);
    StepsAreNonNegative(h.Narrow(z.d), z.scales[g]);
    ValueError(x[j], step, offset, kept, shift, grid.levels, ScaleError(h, z, g), MinimumError(h, z, g));
  }

  lemma InGroup(grid: Grid, x: seq<real>, j: nat) returns (i: nat)
    requires ValidGrid(grid) && |x| == 256 && j < 256
    ensures i < grid.width && GroupOf(grid, x, GroupIndex(grid, j))[i] == x[j]
  {
    i := if grid == Q4KGrid then j % 32 else j % 16;
  }

  lemma GroupUnits(grid: Grid, h: HalfFloat, x: seq<real>, g: nat)
    requires ValidGrid(grid) && |x| == 256 && g < GroupCount(grid)
    ensures var z, group := Quantize(grid, h, x), GroupOf(grid, x, g);
            && z.d >= 0.0 && z.dmin >= 0.0
            && 0 <= z.scales[g] <= grid.units && 0 <= z.minima[g] <= grid.units
            && -z.d / 2.0 <= StepOf(group, grid.levels) - Times(z.d, z.scales[g]) <= z.d / 2.0
            && -z.dmin / 2.0 <= OffsetOf(group) - Times(z.dmin, z.minima[g]) <= z.dmin / 2.0
  {
    hide Times, Units, StepOf, OffsetOf, MaxOf, CodeFor, Product, GroupOf;
    var z, steps, offsets := Quantize(grid, h, x), Steps(grid, x), Offsets(grid, x);
    GroupSpan(GroupOf(grid, x, g), grid.levels, 0);
    UnitOfLargest(steps, g, grid.units);
    UnitOfLargest(offsets, g, grid.units);
    UnitsError(steps[g], z.d, grid.units);
    UnitsError(offsets[g], z.dmin, grid.units);
  }

  lemma CodeOfValue(grid: Grid, h: HalfFloat, x: seq<real>, j: nat)
    requires ValidGrid(grid) && |x| == 256 && j < 256
    ensures var z, g := Quantize(grid, h, x), GroupIndex(grid, j);
            z.codes[j]
            == CodeFor(x[j] + Times(h.Narrow(z.dmin), z.minima[g]), Times(h.Narrow(z.d), z.scales[g]), grid.levels)
  {
    hide Times, Units, MaxOf, CodeFor, Steps, Offsets;
  }

  lemma UnitOfLargest(xs: seq<real>, g: nat, units: nat)
    requires g < |xs| && units > 0 && xs[g] >= 0.0
    ensures var d := MaxOf(xs) / units as real; d >= 0.0 && xs[g] <= Times(d, units)
  {
    hide MaxOf;
    assert xs[g] <= MaxOf(xs);
  }

  // ----- the error bound: Q3_K -----

  /** A signed code is within a step of its value, or of the end of its range. */
  lemma SignedCodeError(v: real, d: real, k: int, extra: real)
    requires k > 0 && extra >= 0.0 && Abs(v) <= Times(Abs(d), k) + extra
    ensures -k <= SignedCode(v, d, k) < k
    ensures Abs(v - Times(d, SignedCode(v, d, k))) <= Abs(d) + extra
  {
    NoSteps(d);
    if d > 0.0 {
      ClippedSteps(v, d, k, extra);
    } else if d < 0.0 {
      SameRatio(v, d);
      ClippedSteps(-v, -d, k, extra);
      OppositeSteps(d, SignedCode(v, d, k));
    }
  }

  lemma SameRatio(v: real, d: real)
    requires d != 0.0
    ensures v / d == -v / -d
  {
  }

  lemma OppositeSteps(d: real, n: int)
    ensures Times(-d, n) == -Times(d, n) && Times(d, -n) == -Times(d, n)
  {
  }

  lemma StepBelow(d: real, k: int)
    ensures Times(d, k - 1) == Times(d, k) - d
  {
  }

  lemma ClippedSteps(v: real, d: real, k: int, extra: real)
    requires k > 0 && d > 0.0 && extra >= 0.0 && -Times(d, k) - extra <= v <= Times(d, k) + extra
    ensures Abs(v - Times(d, Clip(Rint(v / d), -k, k - 1))) <= d + extra
  {
    hide Times, Rint;
    NearestSteps(v, d);
    OppositeSteps(d, k);
    StepBelow(d, k);
    if v >= Times(d, k - 1) {
      assert Rint(v / d) >= k - 1;
    } else if v <= Times(d, -k) {
      assert Rint(v / d) <= -k;
    }
  }

  /** The inverse of the inverse scale: multiplying by one divides by the other. */
  lemma InverseDivides(most: real, v: real)
    ensures var inverse := Inverse(most);
            var d := if inverse != 0.0 then 1.0 / inverse else 0.0;
            && Abs(most) == Times(Abs(d), 32)
            && (most == 0.0 <==> inverse == 0.0) && (d == 0.0 <==> inverse == 0.0)
            && (inverse != 0.0 ==> inverse * v == v / d)
  {
    if most != 0.0 {
      var inverse := -32.0 / most;
      var d := 1.0 / inverse;
      assert inverse * most == -32.0;
      assert d * inverse == 1.0;
      assert d * (inverse * most) == most;
      assert most == d * -32.0;
      assert d * (inverse * v) == v;
    }
  }

  /** Group `g`'s scale is within one unit of its code, and its values reach four steps of it. */
  lemma SignedGroup(h: HalfFloat, x: seq<real>, g: nat)
    requires |x| == 256 && g < 16
    ensures var z, scale := QuantizeSigned(h, x), SignedScales(x)[g];
            && -32 <= z.scales[g] < 32
            && Abs(scale - Times(z.d, z.scales[g])) <= Abs(z.d)
            && (forall i | 0 <= i < 16 :: Abs(Sixteen(x, g)[i]) <= 4.0 * Abs(scale))
  {
    hide PeakOf, Times, Inverse, Rint;
    var z, groups := QuantizeSigned(h, x), SignedScales(x);
    var most := PeakOf(groups);
    assert Abs(groups[g]) <= Abs(most);
    InverseDivides(most, groups[g]);
    SignedCodeError(groups[g], z.d, 32, 0.0);
    assert z.scales[g] == SignedCode(groups[g], z.d, 32) by {
      SignedScaleIsCode(h, x, g);
    }
  }

  lemma SignedScaleIsCode(h: HalfFloat, x: seq<real>, g: nat)
    requires |x| == 256 && g < 16
    ensures var z := QuantizeSigned(h, x);
            z.scales[g] == SignedCode(SignedScales(x)[g], z.d, 32)
  {
    hide PeakOf, SignedScales, Inverse, SignedUnits, SignedCode;
    var scale, inverse := SignedScales(x)[g], Inverse(PeakOf(SignedScales(x)));
    assert QuantizeSigned(h, x).scales[g] == SignedUnits(inverse, scale);
    UnitsAreCode(PeakOf(SignedScales(x)), scale);
  }

  lemma UnitsAreCode(most: real, v: real)
    ensures var inverse := Inverse(most);
            SignedUnits(inverse, v) == SignedCode(v, if inverse != 0.0 then 1.0 / inverse else 0.0, 32)
  {
    hide Inverse, Rint;
    InverseDivides(most, v);
    if Inverse(most) == 0.0 {
      NoUnits(v);
    }
  }

  lemma NoUnits(v: real)
    ensures SignedUnits(0.0, v) == 0
  {
    assert 0.0 * v == 0.0;
  }

  /** Every value of a Q3_K block comes back within its group's slack. */
  lemma SignedError(h: HalfFloat, x: seq<real>, j: nat)
    requires |x| == 256 && j < 256
    ensures var z := QuantizeSigned(h, x);
            && -32 <= z.scales[j / 16] < 32 && -4 <= z.codes[j] < 4 && z.minima[j / 16] == 0
            && Abs(x[j] - Times(Times(h.Narrow(z.d), z.scales[j / 16]), z.codes[j]))
               <= Abs(Times(h.Narrow(z.d), z.scales[j / 16]))
                  + 4.0 * (Abs(z.d) + Drift(h, z.d, z.scales[j / 16]))
  {
    hide Times, SignedScales, PeakOf;
    var z, g := QuantizeSigned(h, x), j / 16;
    var scale, step := SignedScales(x)[g], Times(h.Narrow(z.d), z.scales[g]);
    SignedGroup(h, x, g);
    assert Sixteen(x, g)[j % 16] == x[j];
    assert z.codes[j] == SignedCode(x[j], step, 4);
    var extra := 4.0 * (Abs(z.d) + Drift(h, z.d, z.scales[g]));
    assert Abs(scale) <= Abs(step) + Abs(z.d) + Drift(h, z.d, z.scales[g]);
    FourSteps(step);
    hide QuantizeSigned, SignedCode;
    SignedCodeError(x[j], step, 4, extra);
  }

  lemma FourSteps(d: real)
    ensures Times(Abs(d), 4) == 4.0 * Abs(d)
  {
  }

  /** The bound for all three formats. */
  lemma QuantizeError(format: Format, h: HalfFloat, x: seq<real>, j: nat)
    requires |x| == 256 && j < 256 && KeepsSign(h)
    ensures var z := QuantizeBlock(format, h, x);
            Abs(x[j] - Dequantized(format, h, z, j)) <= Slack(format, h, z, GroupAt(format, j))
  {
    hide Times, Quantize, QuantizeSigned, ScaleError, MinimumError, Drift;
    match format {
      case Q4K => AffineError(Q4KGrid, h, x, j);
      case Q2K => AffineError(Q2KGrid, h, x, j);
      case Q3K =>
        SignedError(h, x, j);
        NoSteps(h.Narrow(QuantizeSigned(h, x).dmin));
    }
  }

  // ----- packing a block -----

  /** The ranges that fit the bits of each format. */
  ghost predicate InRange(format: Format, z: Quantized) {
    && Sized(format, z)
    && (forall g | 0 <= g < |z.scales| :: ScaleFits(format, z.scales[g]) && MinimumFits(format, z.minima[g]))
    && (forall j | 0 <= j < 256 :: CodeFits(format, z.codes[j]))
  }

  predicate ScaleFits(format: Format, n: int) {
    match format case Q4K => 0 <= n < 64 case Q2K => 0 <= n < 16 case Q3K => -32 <= n < 32
  }

  predicate MinimumFits(format: Format, n: int) {
    match format case Q4K => 0 <= n < 64 case Q2K => 0 <= n < 16 case Q3K => n == 0
  }

  predicate CodeFits(format: Format, n: int) {
    match format case Q4K => 0 <= n < 16 case Q2K => 0 <= n < 4 case Q3K => -4 <= n < 4
  }

  lemma BlockInRange(format: Format, h: HalfFloat, x: seq<real>)
    requires |x| == 256 && KeepsSign(h)
    ensures InRange(format, QuantizeBlock(format, h, x))
  {
    hide Quantize, QuantizeSigned, Times, Drift;
    var z := QuantizeBlock(format, h, x);
    forall g | 0 <= g < |z.scales|
      ensures ScaleFits(format, z.scales[g]) && MinimumFits(format, z.minima[g])
    {
      GroupInRange(format, h, x, g);
    }
    forall j | 0 <= j < 256 ensures CodeFits(format, z.codes[j]) {
      CodeInRange(format, h, x, j);
    }
  }

  lemma GroupInRange(format: Format, h: HalfFloat, x: seq<real>, g: nat)
    requires |x| == 256 && KeepsSign(h) && g < GroupsIn(format)
    ensures var z := QuantizeBlock(format, h, x);
            ScaleFits(format, z.scales[g]) && MinimumFits(format, z.minima[g])
  {
    hide Quantize, QuantizeSigned, Times, Drift;
    match format {
      case Q4K => AffineError(Q4KGrid, h, x, 32 * g);
      case Q2K => AffineError(Q2KGrid, h, x, 16 * g);
      case Q3K => SignedError(h, x, 16 * g);
    }
  }

  lemma CodeInRange(format: Format, h: HalfFloat, x: seq<real>, j: nat)
    requires |x| == 256 && KeepsSign(h) && j < 256
    ensures CodeFits(format, QuantizeBlock(format, h, x).codes[j])
  {
    hide Quantize, QuantizeSigned, Times, Drift;
    match format {
      case Q4K => AffineError(Q4KGrid, h, x, j);
      case Q2K => AffineError(Q2KGrid, h, x, j);
      case Q3K => SignedError(h, x, j);
    }
  }

  lemma AddOne(b: Byte)
    requires b as int < 255
    ensures (b + 1) as int == b as int + 1
  {
  }

  /** The byte of a small number. */
  function ToByte(n: int): (b: Byte)
    requires 0 <= n < 256
    ensures b as int == n
  {
    if n == 0 then 0
    else
      AddOne(ToByte(n - 1));
      ToByte(n - 1) + 1
  }

  function ToBytes(ns: seq<int>, bias: int): (bs: seq<Byte>)
    requires forall i | 0 <= i < |ns| :: 0 <= ns[i] + bias < 256
    ensures |bs| == |ns| && forall i | 0 <= i < |ns| :: bs[i] as int == ns[i] + bias
  {
    seq(|ns|, i requires 0 <= i < |ns| => ToByte(ns[i] + bias))
  }

  lemma SmallByte(b: Byte)
    ensures b as int < 4 <==> b < 4
    ensures b as int < 8 <==> b < 8
    ensures b as int < 16 <==> b < 16
    ensures b as int < 64 <==> b < 64
  {
  }

  lemma AllBelow(ns: seq<int>, bias: int, limit: int)
    requires limit == 4 || limit == 8 || limit == 16 || limit == 64
    requires forall i | 0 <= i < |ns| :: 0 <= ns[i] + bias < limit
    ensures limit == 4 ==> Below(ToBytes(ns, bias), 4)
    ensures limit == 8 ==> Below(ToBytes(ns, bias), 8)
    ensures limit == 16 ==> Below(ToBytes(ns, bias), 16)
    ensures limit == 64 ==> Below(ToBytes(ns, bias), 64)
  {
    hide ToBytes;
    var bytes := ToBytes(ns, bias);
    forall i | 0 <= i < |ns|
      ensures bytes[i] as int < limit
      ensures bytes[i] as int < 4 <==> bytes[i] < 4
      ensures bytes[i] as int < 8 <==> bytes[i] < 8
      ensures bytes[i] as int < 16 <==> bytes[i] < 16
      ensures bytes[i] as int < 64 <==> bytes[i] < 64
    {
      SmallByte(bytes[i]);
    }
  }

  /** A block's bytes. The names of the arguments are those of the source: scale units, minimum
      units, codes, and the stored block scales. */
  function PackedQ4K(sc: seq<Byte>, mn: seq<Byte>, codes: seq<Byte>, halves: seq<Byte>): (block: seq<Byte>)
    requires |sc| == |mn| == 8 && |codes| == 256 && |halves| == 4
    ensures IsBlock(Q4K, block)
  {
    halves + PackQ4KScales(sc, mn) + NibbleBytes(codes)
  }

  function JoinedScales(sc: seq<Byte>, mi: seq<Byte>): (scales: seq<Byte>)
    requires |sc| == |mi| == 16
    ensures |scales| == 16
  {
    seq(16, i requires 0 <= i < 16 => JoinNibbles(sc[i], mi[i]))
  }

  function PackedQ2K(sc: seq<Byte>, mi: seq<Byte>, codes: seq<Byte>, halves: seq<Byte>): (block: seq<Byte>)
    requires |sc| == |mi| == 16 && |codes| == 256 && |halves| == 4
    ensures IsBlock(Q2K, block)
  {
    JoinedScales(sc, mi) + TwoBitBytes(codes) + halves
  }

  function PackedQ3K(enc: seq<Byte>, codes: seq<Byte>, halves: seq<Byte>): (block: seq<Byte>)
    requires |enc| == 16 && |codes| == 256 && Below(codes, 8) && |halves| == 2
    ensures IsBlock(Q3K, block)
  {
    MaskAfter(codes, 256) + TwoBitBytes(LowBits(codes)) + Q3KScaleBytes(enc) + halves
  }

  lemma ReadsQ4K(sc: seq<Byte>, mn: seq<Byte>, codes: seq<Byte>, halves: seq<Byte>, j: nat)
    requires |sc| == |mn| == 8 && |codes| == 256 && |halves| == 4 && j < 256
    requires Below(sc, 64) && Below(mn, 64) && Below(codes, 16)
    ensures var block := PackedQ4K(sc, mn, codes, halves);
            && block[0..4] == halves
            && ReaderCode(Q4K, block, j) == codes[j] as int
            && ReaderScales(Q4K, block, j) == (sc[j / 32] as int, mn[j / 32] as int)
  {
    hide Nibble, ScaleMinK4, PackQ4KScales, NibbleBytes;
    var block := PackedQ4K(sc, mn, codes, halves);
    assert block[4..16] == PackQ4KScales(sc, mn) && block[16..144] == NibbleBytes(codes);
    ScalesRoundTrip(sc, mn, j / 32);
    NibblesRoundTrip(codes, j);
  }

  lemma ReadsQ2K(sc: seq<Byte>, mi: seq<Byte>, codes: seq<Byte>, halves: seq<Byte>, j: nat)
    requires |sc| == |mi| == 16 && |codes| == 256 && |halves| == 4 && j < 256
    requires Below(sc, 16) && Below(mi, 16) && Below(codes, 4)
    ensures var block := PackedQ2K(sc, mi, codes, halves);
            && block[80..84] == halves
            && ReaderCode(Q2K, block, j) == codes[j] as int
            && ReaderScales(Q2K, block, j) == (sc[j / 16] as int, mi[j / 16] as int)
  {
    hide TwoBits, TwoBitBytes, JoinNibbles;
    var block := PackedQ2K(sc, mi, codes, halves);
    assert block[16..80] == TwoBitBytes(codes);
    TwoBitsRoundTrip(codes, j);
    assert block[j / 16] == JoinNibbles(sc[j / 16], mi[j / 16]);
    NibblesSplit(sc[j / 16], mi[j / 16]);
  }

  lemma ReadsQ3K(enc: seq<Byte>, codes: seq<Byte>, halves: seq<Byte>, j: nat)
    requires |enc| == 16 && |codes| == 256 && Below(enc, 64) && Below(codes, 8) && |halves| == 2 && j < 256
    ensures var block := PackedQ3K(enc, codes, halves);
            && block[108..110] == halves
            && ReaderCode(Q3K, block, j) == codes[j] as int - 4
            && ReaderScales(Q3K, block, j) == (enc[j / 16] as int - 32, 0)
  {
    hide TwoBits, HighBit, Q3KScale, MaskAfter, TwoBitBytes, Q3KScaleBytes, LowBits;
    var block, low := PackedQ3K(enc, codes, halves), LowBits(codes);
    assert block[0..32] == MaskAfter(codes, 256) && block[32..96] == TwoBitBytes(low);
    assert block[96..108] == Q3KScaleBytes(enc);
    TwoBitsRoundTrip(low, j);
    MaskRoundTrip(codes, j);
    Q3KScalesRoundTrip(enc, j / 16);
    ThirdBit(codes[j], low[j]);
  }

  lemma ThirdBit(code: Byte, low: Byte)
    requires code < 8 && low == if code > 3 then code - 4 else code
    ensures low as int - (if code > 3 then 0 else 4) == code as int - 4
  {
  }

  lemma BytesFit(format: Format, z: Quantized)
    requires InRange(format, z)
    ensures format == Q4K ==>
              Below(ToBytes(z.scales, 0), 64) && Below(ToBytes(z.minima, 0), 64) && Below(ToBytes(z.codes, 0), 16)
    ensures format == Q2K ==>
              Below(ToBytes(z.scales, 0), 16) && Below(ToBytes(z.minima, 0), 16) && Below(ToBytes(z.codes, 0), 4)
    ensures format == Q3K ==> Below(ToBytes(z.scales, 32), 64) && Below(ToBytes(z.codes, 4), 8)
  {
    hide Below, ToBytes;
    match format {
      case Q4K =>
        AllBelow(z.scales, 0, 64);
        AllBelow(z.minima, 0, 64);
        AllBelow(z.codes, 0, 16);
      case Q2K =>
        AllBelow(z.scales, 0, 16);
        AllBelow(z.minima, 0, 16);
        AllBelow(z.codes, 0, 4);
      case Q3K =>
        AllBelow(z.scales, 32, 64);
        AllBelow(z.codes, 4, 8);
    }
  }

  function PackBlock(format: Format, h: HalfFloat, z: Quantized): (block: seq<Byte>)
    requires InRange(format, z)
    ensures IsBlock(format, block)
  {
    BytesFit(format, z);
    match format
    case Q4K =>
      PackedQ4K(ToBytes(z.scales, 0), ToBytes(z.minima, 0), ToBytes(z.codes, 0), h.Stored(z.d) + h.Stored(z.dmin))
    case Q2K =>
      PackedQ2K(ToBytes(z.scales, 0), ToBytes(z.minima, 0), ToBytes(z.codes, 0), h.Stored(z.d) + h.Stored(z.dmin))
    case Q3K => PackedQ3K(ToBytes(z.scales, 32), ToBytes(z.codes, 4), h.Stored(z.d))
  }

  /** The readers recover exactly the quantized integers and the stored scales from the block. */
  ghost predicate Unpacks(format: Format, h: HalfFloat, block: seq<Byte>, z: Quantized)
    requires IsBlock(format, block) && Sized(format, z)
  {
    && Halves(format, h.load, block) == (h.Narrow(z.d), h.Narrow(z.dmin))
    && (forall j | 0 <= j < 256 ::
          && ReaderCode(format, block, j) == z.codes[j]
          && ReaderScales(format, block, j) == (z.scales[GroupAt(format, j)], z.minima[GroupAt(format, j)]))
  }

  /** Unpacking inverts packing. */
  lemma BlockRoundTrip(format: Format, h: HalfFloat, z: Quantized)
    requires InRange(format, z) && (format == Q3K ==> z.dmin == z.d)
    ensures Unpacks(format, h, PackBlock(format, h, z), z)
  {
    hide ReaderCode, ReaderScales, ToBytes, Below, PackedQ4K, PackedQ2K, PackedQ3K;
    BytesFit(format, z);
    forall j | 0 <= j < 256
      ensures var block := PackBlock(format, h, z);
              && ReaderCode(format, block, j) == z.codes[j]
              && ReaderScales(format, block, j) == (z.scales[GroupAt(format, j)], z.minima[GroupAt(format, j)])
    {
      match format {
        case Q4K =>
          ReadsQ4K(ToBytes(z.scales, 0), ToBytes(z.minima, 0), ToBytes(z.codes, 0),
                   h.Stored(z.d) + h.Stored(z.dmin), j);
        case Q2K =>
          ReadsQ2K(ToBytes(z.scales, 0), ToBytes(z.minima, 0), ToBytes(z.codes, 0),
                   h.Stored(z.d) + h.Stored(z.dmin), j);
        case Q3K =>
          ReadsQ3K(ToBytes(z.scales, 32), ToBytes(z.codes, 4), h.Stored(z.d), j);
      }
    }
    HalvesRoundTrip(format, h, z);
  }

  lemma HalvesRoundTrip(format: Format, h: HalfFloat, z: Quantized)
    requires InRange(format, z) && (format == Q3K ==> z.dmin == z.d)
    ensures Halves(format, h.load, PackBlock(format, h, z)) == (h.Narrow(z.d), h.Narrow(z.dmin))
  {
    hide ToBytes, Below, PackQ4KScales, NibbleBytes, TwoBitBytes, MaskAfter, Q3KScaleBytes, LowBits, JoinedScales;
    BytesFit(format, z);
    var block := PackBlock(format, h, z);
    match format {
      case Q4K => assert block[0..4] == h.Stored(z.d) + h.Stored(z.dmin);
      case Q2K => assert block[80..84] == h.Stored(z.d) + h.Stored(z.dmin);
      case Q3K => assert block[108..110] == h.Stored(z.d);
    }
  }

  // ----- packing rows -----

  function PackedBlock(format: Format, h: HalfFloat, x: seq<real>): (block: seq<Byte>)
    requires |x| == 256 && KeepsSign(h)
    ensures IsBlock(format, block)
  {
    BlockInRange(format, h, x);
    PackBlock(format, h, QuantizeBlock(format, h, x))
  }

  /** The encoding of a whole number of blocks. */
  function Packed(format: Format, h: HalfFloat, x: seq<real>): (bytes: seq<Byte>)
    requires |x| % 256 == 0 && KeepsSign(h)
  {
    if x == [] then [] else Packed(format, h, x[..|x| - 256]) + PackedBlock(format, h, x[|x| - 256..])
  }

  lemma OneBlockMore(format: Format, n: nat)
    ensures BlockBytes(format) * (n + 1) == BlockBytes(format) * n + BlockBytes(format)
    ensures BlockBytes(format) * n / BlockBytes(format) == n
  {
  }

  lemma Unfold(format: Format, h: HalfFloat, x: seq<real>)
    requires |x| % 256 == 0 && x != [] && KeepsSign(h)
    ensures Packed(format, h, x) == Packed(format, h, x[..|x| - 256]) + PackedBlock(format, h, x[|x| - 256..])
  {
    hide PackedBlock;
  }

  lemma {:induction false} PackedLength(format: Format, h: HalfFloat, x: seq<real>, n: nat)
    requires |x| == 256 * n && KeepsSign(h)
    ensures |Packed(format, h, x)| == BlockBytes(format) * n && Blocks(format, Packed(format, h, x)) == n
  {
    hide PackedBlock, BlockBytes;
    OneBlockMore(format, n);
    if n > 0 {
      PackedLength(format, h, x[..|x| - 256], n - 1);
      OneBlockMore(format, n - 1);
      assert x != [];
    }
  }

  lemma BlocksOfJoined(format: Format, front: seq<Byte>, last: seq<Byte>, n: nat)
    requires |front| == BlockBytes(format) * n && IsBlock(format, last)
    ensures Blocks(format, front) == n && Blocks(format, front + last) == n + 1
  {
    OneBlockMore(format, n);
    OneBlockMore(format, n + 1);
    hide BlockBytes;
  }

  lemma FrontBlock(format: Format, front: seq<Byte>, last: seq<Byte>, k: nat)
    requires k < Blocks(format, front) && k < Blocks(format, front + last)
    ensures BlockAt(format, front + last, k) == BlockAt(format, front, k)
  {
    hide BlockBytes;
    BlockFits(format, front, k);
    hide Blocks;
  }

  lemma LastBlock(format: Format, front: seq<Byte>, last: seq<Byte>, n: nat)
    requires |front| == BlockBytes(format) * n && IsBlock(format, last) && n < Blocks(format, front + last)
    ensures BlockAt(format, front + last, n) == last
  {
    hide BlockBytes, Blocks;
    assert (front + last)[|front|..|front| + |last|] == last;
  }

  /** The `k`-th 256 values of a row. */
  function Values(x: seq<real>, k: nat): (values: seq<real>)
    requires 256 * k + 256 <= |x|
    ensures |values| == 256
  {
    x[256 * k..256 * k + 256]
  }

  lemma ValuesOfFront(x: seq<real>, k: nat)
    requires 256 * k + 256 <= |x|
    ensures 256 * k + 512 <= |x| ==> Values(x[..|x| - 256], k) == Values(x, k)
    ensures 256 * k + 256 == |x| ==> x[|x| - 256..] == Values(x, k)
  {
  }

  /** Block `k` of a packed row is the encoding of its `k`-th 256 values. */
  lemma {:induction false} BlockOfRow(format: Format, h: HalfFloat, x: seq<real>, n: nat, k: nat)
    requires |x| == 256 * n && KeepsSign(h) && k < n
    ensures Blocks(format, Packed(format, h, x)) == n
    ensures BlockAt(format, Packed(format, h, x), k) == PackedBlock(format, h, Values(x, k))
  {
    hide PackedBlock, BlockBytes, Packed, Blocks, BlockAt, Values;
    var front, last := x[..|x| - 256], x[|x| - 256..];
    Unfold(format, h, x);
    ValuesOfFront(x, k);
    PackedLength(format, h, front, n - 1);
    BlocksOfJoined(format, Packed(format, h, front), PackedBlock(format, h, last), n - 1);
    if k < n - 1 {
      FrontBlock(format, Packed(format, h, front), PackedBlock(format, h, last), k);
      BlockOfRow(format, h, front, n - 1, k);
    } else {
      LastBlock(format, Packed(format, h, front), PackedBlock(format, h, last), k);
    }
  }

  /** Encodings of two runs of blocks join to the encoding of both. */
  lemma {:induction false} PackedJoins(format: Format, h: HalfFloat, a: seq<real>, b: seq<real>)
    requires |a| % 256 == 0 && |b| % 256 == 0 && KeepsSign(h)
    ensures Packed(format, h, a + b) == Packed(format, h, a) + Packed(format, h, b)
    decreases |b|
  {
    hide PackedBlock, Packed;
    if b == [] {
      assert a + b == a;
      EmptyPacked(format, h);
    } else {
      var rest := b[..|b| - 256];
      PackedJoins(format, h, a, rest);
      Unfold(format, h, a + b);
      Unfold(format, h, b);
      assert (a + b)[..|a + b| - 256] == a + rest;
      assert (a + b)[|a + b| - 256..] == b[|b| - 256..];
    }
  }

  lemma EmptyPacked(format: Format, h: HalfFloat)
    requires KeepsSign(h)
    ensures Packed(format, h, []) == []
  {
  }

  /** Every block of a packed row unpacks to exactly the quantized block of its own 256 values. */
  lemma RowRoundTrip(format: Format, h: HalfFloat, x: seq<real>, n: nat, k: nat)
    requires |x| == 256 * n && KeepsSign(h) && k < n
    ensures Blocks(format, Packed(format, h, x)) == n
    ensures Unpacks(format, h, BlockAt(format, Packed(format, h, x), k), QuantizeBlock(format, h, Values(x, k)))
  {
    hide Blocks, BlockAt, Packed, Unpacks, PackBlock, Quantize;
    BlockOfRow(format, h, x, n, k);
    BlockInRange(format, h, Values(x, k));
    BlockRoundTrip(format, h, QuantizeBlock(format, h, Values(x, k)));
  }

  // ----- the packers -----

  method EncodeQ4K(h: HalfFloat, x: seq<real>) returns (block: seq<Byte>)
    requires |x| == 256 && KeepsSign(h)
    ensures block == PackedBlock(Q4K, h, x)
  {
    hide Quantize, ToBytes, PackQ4KScales, NibbleBytes;
    var z := Quantize(Q4KGrid, h, x);
    BlockInRange(Q4K, h, x);
    BytesFit(Q4K, z);
    var quants := PackNibbles(ToBytes(z.codes, 0));
    block := h.Stored(z.d) + h.Stored(z.dmin) + PackQ4KScales(ToBytes(z.scales, 0), ToBytes(z.minima, 0)) + quants;
  }

  method EncodeQ2K(h: HalfFloat, x: seq<real>) returns (block: seq<Byte>)
    requires |x| == 256 && KeepsSign(h)
    ensures block == PackedBlock(Q2K, h, x)
  {
    hide Quantize, ToBytes, JoinedScales, TwoBitBytes;
    var z := Quantize(Q2KGrid, h, x);
    BlockInRange(Q2K, h, x);
    BytesFit(Q2K, z);
    var quants := PackTwoBits(ToBytes(z.codes, 0));
    block := JoinedScales(ToBytes(z.scales, 0), ToBytes(z.minima, 0)) + quants + (h.Stored(z.d) + h.Stored(z.dmin));
  }

  method EncodeQ3K(h: HalfFloat, x: seq<real>) returns (block: seq<Byte>)
    requires |x| == 256 && KeepsSign(h)
    ensures block == PackedBlock(Q3K, h, x)
  {
    hide QuantizeSigned, ToBytes, TwoBitBytes, MaskAfter, Q3KScaleBytes, LowBits;
    var z := QuantizeSigned(h, x);
    BlockInRange(Q3K, h, x);
    BytesFit(Q3K, z);
    var mask, low := SplitHighBits(ToBytes(z.codes, 4));
    var quants := PackTwoBits(low);
    var scales := PackQ3KScales(ToBytes(z.scales, 32));
    block := mask + quants + scales + h.Stored(z.d);
  }

  /** `quantize_q4k_rows`, `quantize_q2k_rows` and `quantize_q3k_rows`: `count` rows of `inF` values,
      refused unless a row is a whole number of blocks. */
  method QuantizeRows(format: Format, h: HalfFloat, rows: seq<real>, count: nat, inF: nat)
    returns (bytes: Option<seq<Byte>>)
    requires |rows| == count * inF && KeepsSign(h)
    ensures bytes == None <==> inF % 256 != 0
    ensures bytes.Some? ==> |rows| % 256 == 0 && bytes.value == Packed(format, h, rows)
  {
    hide PackedBlock, Packed;
    if inF % 256 != 0 {
      return None;
    }
    var blocks := count * (inF / 256);
    WholeBlocks(count, inF);
    var packed := [];
    EmptyPacked(format, h);
    for k := 0 to blocks
      invariant packed == Packed(format, h, rows[..256 * k])
    {
      var x, block := rows[256 * k..256 * k + 256], [];
      match format {
        case Q4K => block := EncodeQ4K(h, x);
        case Q2K => block := EncodeQ2K(h, x);
        case Q3K => block := EncodeQ3K(h, x);
      }
      OneMoreBlock(format, h, rows, k);
      packed := packed + block;
    }
    assert rows[..256 * blocks] == rows;
    bytes := Some(packed);
  }

  lemma WholeBlocks(count: nat, inF: nat)
    requires inF % 256 == 0
    ensures count * inF == 256 * (count * (inF / 256)) && count * inF % 256 == 0
  {
    assert inF == 256 * (inF / 256);
    assert count * (256 * (inF / 256)) == 256 * (count * (inF / 256));
  }

  lemma OneMoreBlock(format: Format, h: HalfFloat, rows: seq<real>, k: nat)
    requires 256 * k + 256 <= |rows| && KeepsSign(h)
    ensures Packed(format, h, rows[..256 * (k + 1)])
            == Packed(format, h, rows[..256 * k]) + PackedBlock(format, h, rows[256 * k..256 * k + 256])
  {
    hide PackedBlock, Packed;
    var x := rows[..256 * (k + 1)];
    Unfold(format, h, x);
    assert x[..|x| - 256] == rows[..256 * k] && x[|x| - 256..] == rows[256 * k..256 * k + 256];
  }
}
