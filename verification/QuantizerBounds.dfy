/** What the K quantizers' block scales are in terms of the values (tools/hy3_mlx_to_q4k.py,
    tools/prepare_mixed_expert_repack.py), and so how far a value can be from what is read back. */
module QuantizerBounds {
  import opened DotKernels
  import opened KQuantizer
  import opened Rounding

  // ----- a block's values -----

  ghost predicate InGroup(format: Format, g: nat, j: int) {
    0 <= j < 256 && GroupAt(format, j) == g
  }

  /** The largest value of a group. */
  ghost predicate Top(format: Format, x: seq<real>, g: nat, top: real)
    requires |x| == 256
  {
    && (forall j | InGroup(format, g, j) :: x[j] <= top)
    && (exists j :: InGroup(format, g, j) && x[j] == top)
  }

  /** How far a group goes below zero. */
  ghost predicate Reach(format: Format, x: seq<real>, g: nat, reach: real)
    requires |x| == 256
  {
    && reach >= 0.0
    && (forall j | InGroup(format, g, j) :: x[j] >= -reach)
    && (reach == 0.0 || exists j :: InGroup(format, g, j) && x[j] == -reach)
  }

  /** A group's span: from its top down to its reach below zero. */
  ghost predicate Span(format: Format, x: seq<real>, g: nat, span: real)
    requires |x| == 256
  {
    exists top, reach :: Top(format, x, g, top) && Reach(format, x, g, reach) && span == top + reach
  }

  ghost predicate WidestSpan(format: Format, x: seq<real>, widest: real)
    requires |x| == 256
  {
    && (forall g, span | 0 <= g < GroupsIn(format) && Span(format, x, g, span) :: span <= widest)
    && (exists g :: 0 <= g < GroupsIn(format) && Span(format, x, g, widest))
  }

  ghost predicate DeepestReach(format: Format, x: seq<real>, deepest: real)
    requires |x| == 256
  {
    && (forall g, reach | 0 <= g < GroupsIn(format) && Reach(format, x, g, reach) :: reach <= deepest)
    && (exists g :: 0 <= g < GroupsIn(format) && Reach(format, x, g, deepest))
  }

  /** The value at `i` has the largest magnitude of a group, and is the first that has it. */
  ghost predicate GroupPeak(format: Format, x: seq<real>, g: nat, i: int)
    requires |x| == 256
  {
    && InGroup(format, g, i)
    && (forall j | InGroup(format, g, j) :: Abs(x[j]) <= Abs(x[i]))
    && (forall j | InGroup(format, g, j) && j < i :: Abs(x[j]) < Abs(x[i]))
  }

  /** The same, of the whole block. */
  ghost predicate BlockPeak(x: seq<real>, i: int)
    requires |x| == 256
  {
    && 0 <= i < 256
    && (forall j | 0 <= j < 256 :: Abs(x[j]) <= Abs(x[i]))
    && (forall j | 0 <= j < i :: Abs(x[j]) < Abs(x[i]))
  }

  lemma TopIsUnique(format: Format, x: seq<real>, g: nat, a: real, b: real)
    requires |x| == 256 && Top(format, x, g, a) && Top(format, x, g, b)
    ensures a == b
  {
    var i :| InGroup(format, g, i) && x[i] == a;
    var j :| InGroup(format, g, j) && x[j] == b;
    hide GroupAt;
  }

  lemma ReachIsUnique(format: Format, x: seq<real>, g: nat, a: real, b: real)
    requires |x| == 256 && Reach(format, x, g, a) && Reach(format, x, g, b)
    ensures a == b
  {
    if a != 0.0 {
      var i :| InGroup(format, g, i) && x[i] == -a;
    }
    if b != 0.0 {
      var j :| InGroup(format, g, j) && x[j] == -b;
    }
    hide GroupAt;
  }

  // ----- the affine formats -----

  ghost function Levels(format: Format): nat {
    if format == Q4K then 15 else 3
  }

  lemma PlaceInGroup(format: Format, x: seq<real>, g: nat, i: nat) returns (j: nat)
    requires |x| == 256 && format != Q3K && g < GroupsIn(format) && i < |GroupOf(GridOf(format), x, g)|
    ensures InGroup(format, g, j) && x[j] == GroupOf(GridOf(format), x, g)[i]
  {
    j := if format == Q4K then 32 * g + i else 16 * g + i;
  }

  function GridOf(format: Format): Grid
    requires format != Q3K
  {
    if format == Q4K then Q4KGrid else Q2KGrid
  }

  lemma TopOfGroup(format: Format, x: seq<real>, g: nat)
    requires |x| == 256 && format != Q3K && g < GroupsIn(format)
    ensures Top(format, x, g, MaxOf(GroupOf(GridOf(format), x, g)))
  {
    hide MaxOf, GroupOf, GroupAt;
    var group := GroupOf(GridOf(format), x, g);
    var top := MaxOf(group);
    MinAndMaxOccur(group);
    var i :| 0 <= i < |group| && group[i] == top;
    var place := PlaceInGroup(format, x, g, i);
    forall j | InGroup(format, g, j) ensures x[j] <= top {
      var k := ValueInGroup(format, x, g, j);
    }
  }

  lemma ValueInGroup(format: Format, x: seq<real>, g: nat, j: int) returns (k: nat)
    requires |x| == 256 && format != Q3K && g < GroupsIn(format) && InGroup(format, g, j)
    ensures 0 <= j < 256 && k < |GroupOf(GridOf(format), x, g)| && GroupOf(GridOf(format), x, g)[k] == x[j]
  {
    k := if format == Q4K then j % 32 else j % 16;
  }

  lemma ReachOfGroup(format: Format, x: seq<real>, g: nat)
    requires |x| == 256 && format != Q3K && g < GroupsIn(format)
    ensures Reach(format, x, g, OffsetOf(GroupOf(GridOf(format), x, g)))
  {
    hide MinOf, GroupOf, GroupAt;
    var group := GroupOf(GridOf(format), x, g);
    var reach := OffsetOf(group);
    MinAndMaxOccur(group);
    if reach != 0.0 {
      var i :| 0 <= i < |group| && group[i] == MinOf(group);
      var place := PlaceInGroup(format, x, g, i);
    }
    hide OffsetOf;
    forall j | InGroup(format, g, j) ensures x[j] >= -reach {
      var k := ValueInGroup(format, x, g, j);
    }
  }

  lemma SpanOfGroup(format: Format, x: seq<real>, g: nat, span: real)
    requires |x| == 256 && format != Q3K && g < GroupsIn(format)
    ensures var group := GroupOf(GridOf(format), x, g);
            Span(format, x, g, span) <==> span == MaxOf(group) + OffsetOf(group)
  {
    hide Top, Reach, MaxOf, OffsetOf, GroupOf;
    TopOfGroup(format, x, g);
    ReachOfGroup(format, x, g);
    var group := GroupOf(GridOf(format), x, g);
    if Span(format, x, g, span) {
      var top, reach :| Top(format, x, g, top) && Reach(format, x, g, reach) && span == top + reach;
      TopIsUnique(format, x, g, top, MaxOf(group));
      ReachIsUnique(format, x, g, reach, OffsetOf(group));
    }
  }

  /** A group's step spans it in as many steps as there are codes above zero. */
  lemma StepSpans(xs: seq<real>, levels: nat)
    requires xs != [] && (levels == 15 || levels == 3)
    ensures (if levels == 15 then 15.0 * StepOf(xs, levels) else 3.0 * StepOf(xs, levels)) == MaxOf(xs) + OffsetOf(xs)
  {
    hide MaxOf;
    assert MaxOf(xs) >= xs[0] >= -OffsetOf(xs);
    hide OffsetOf;
  }

  /** The block scales are measured by the values: the unit of the steps is the widest group's span in
      as many parts as the largest code times the largest scale unit, and the unit of the minima is the
      deepest group's reach in as many parts as the largest scale unit. */
  lemma BlockScales(format: Format, h: HalfFloat, x: seq<real>)
    requires |x| == 256 && format != Q3K
    ensures var z := QuantizeBlock(format, h, x);
            && WidestSpan(format, x, (if format == Q4K then 945.0 else 45.0) * z.d)
            && DeepestReach(format, x, (if format == Q4K then 63.0 else 15.0) * z.dmin)
  {
    UnitOfSpans(format, h, x);
    UnitOfReaches(format, h, x);
  }

  lemma ScaleIs(format: Format, h: HalfFloat, x: seq<real>)
    requires |x| == 256 && format != Q3K
    ensures var z, grid := QuantizeBlock(format, h, x), GridOf(format);
            && (if format == Q4K then 63.0 * z.d else 15.0 * z.d) == MaxOf(Steps(grid, x))
            && (if format == Q4K then 63.0 * z.dmin else 15.0 * z.dmin) == MaxOf(Offsets(grid, x))
  {
    hide MaxOf, Steps, Offsets, Units, CodeFor;
  }

  lemma UnitOfSpans(format: Format, h: HalfFloat, x: seq<real>)
    requires |x| == 256 && format != Q3K
    ensures WidestSpan(format, x, (if format == Q4K then 945.0 else 45.0) * QuantizeBlock(format, h, x).d)
  {
    hide QuantizeBlock, Span, StepOf, OffsetOf, MaxOf, GroupOf, Offsets;
    var grid := GridOf(format);
    var steps, d := Steps(grid, x), QuantizeBlock(format, h, x).d;
    var widest := if format == Q4K then 945.0 * d else 45.0 * d;
    ScaleIs(format, h, x);
    forall g, span | 0 <= g < GroupsIn(format) && Span(format, x, g, span) ensures span <= widest {
      StepOfSpan(format, x, g, span);
      assert steps[g] <= MaxOf(steps);
    }
    MinAndMaxOccur(steps);
    var g :| 0 <= g < |steps| && steps[g] == MaxOf(steps);
    StepOfSpan(format, x, g, widest);
  }

  lemma StepOfSpan(format: Format, x: seq<real>, g: nat, span: real)
    requires |x| == 256 && format != Q3K && g < GroupsIn(format)
    ensures var step := Steps(GridOf(format), x)[g];
            Span(format, x, g, span) <==> span == if format == Q4K then 15.0 * step else 3.0 * step
  {
    hide Span, StepOf, OffsetOf, MaxOf, GroupOf;
    SpanOfGroup(format, x, g, span);
    StepSpans(GroupOf(GridOf(format), x, g), GridOf(format).levels);
  }

  lemma UnitOfReaches(format: Format, h: HalfFloat, x: seq<real>)
    requires |x| == 256 && format != Q3K
    ensures DeepestReach(format, x, (if format == Q4K then 63.0 else 15.0) * QuantizeBlock(format, h, x).dmin)
  {
    hide QuantizeBlock, Reach, OffsetOf, MaxOf, GroupOf;
    var grid := GridOf(format);
    var offsets := Offsets(grid, x);
    ScaleIs(format, h, x);
    forall g, reach | 0 <= g < GroupsIn(format) && Reach(format, x, g, reach) ensures reach <= MaxOf(offsets) {
      ReachOfGroup(format, x, g);
      ReachIsUnique(format, x, g, reach, OffsetOf(GroupOf(grid, x, g)));
      assert offsets[g] <= MaxOf(offsets);
    }
    MinAndMaxOccur(offsets);
    var g :| 0 <= g < |offsets| && offsets[g] == MaxOf(offsets);
    ReachOfGroup(format, x, g);
  }

  // ----- Q3_K -----

  /** `PeakOf` takes the first value of the largest magnitude. */
  lemma {:induction false} PeakIsFirst(xs: seq<real>) returns (i: nat)
    requires xs != []
    ensures i < |xs| && xs[i] == PeakOf(xs)
    ensures forall j | 0 <= j < i :: Abs(xs[j]) < Abs(xs[i])
  {
    i := 0;
    if |xs| > 1 && Abs(xs[0]) < Abs(PeakOf(xs[1..])) {
      var k := PeakIsFirst(xs[1..]);
      i := k + 1;
      forall j | 0 <= j < i ensures Abs(xs[j]) < Abs(xs[i]) {
        assert j > 0 ==> xs[j] == xs[1..][j - 1];
      }
    }
  }

  lemma PeakOfGroup(x: seq<real>, g: nat) returns (i: nat)
    requires |x| == 256 && g < 16
    ensures GroupPeak(Q3K, x, g, i) && x[i] == PeakOf(Sixteen(x, g))
  {
    hide PeakOf;
    var k := PeakIsFirst(Sixteen(x, g));
    i := 16 * g + k;
    forall j | InGroup(Q3K, g, j) ensures x[j] == Sixteen(x, g)[j - 16 * g] {
    }
  }

  /** The block scale is the block's peak over 128: its own group's scale is -32 units, which takes the
      peak to code -4. */
  lemma SignedScaleIsPeak(h: HalfFloat, x: seq<real>) returns (i: nat)
    requires |x| == 256
    ensures BlockPeak(x, i) && 128.0 * QuantizeSigned(h, x).d == x[i]
  {
    hide PeakOf, Inverse, GroupAt;
    var groups := SignedScales(x);
    var w := PeakIsFirst(groups);
    i := PeakOfGroup(x, w);
    forall j | 0 <= j < 256
      ensures Abs(x[j]) <= Abs(x[i]) && (j < i ==> Abs(x[j]) < Abs(x[i]))
    {
      FirstOfAll(x, groups, w, i, j);
    }
    UnitOfPeak(PeakOf(groups), x[i]);
  }

  lemma UnitOfPeak(scale: real, peak: real)
    requires scale == -peak / 4.0
    ensures var inverse := Inverse(scale);
            128.0 * (if inverse != 0.0 then 1.0 / inverse else 0.0) == peak
  {
    if peak != 0.0 {
      var inverse := -32.0 / scale;
      assert inverse * scale == -32.0;
      assert 1.0 / inverse * inverse == 1.0;
      assert 1.0 / inverse * (inverse * scale) == scale;
    }
  }

  lemma FirstOfAll(x: seq<real>, groups: seq<real>, w: nat, i: nat, j: nat)
    requires |x| == 256 && w < 16 && j < 256 && GroupPeak(Q3K, x, w, i) && groups == SignedScales(x)
    requires x[i] == PeakOf(Sixteen(x, w)) && groups[w] == PeakOf(groups)
    requires forall k | 0 <= k < w :: Abs(groups[k]) < Abs(groups[w])
    ensures Abs(x[j]) <= Abs(x[i]) && (j < i ==> Abs(x[j]) < Abs(x[i]))
  {
    hide PeakOf;
    var g := j / 16;
    assert Sixteen(x, g)[j % 16] == x[j];
    assert Abs(x[j]) <= Abs(PeakOf(Sixteen(x, g)));
    assert groups[g] == -PeakOf(Sixteen(x, g)) / 4.0;
    assert Abs(groups[g]) <= Abs(groups[w]);
    if g == w {
      assert InGroup(Q3K, w, j);
    }
  }

  /** A group's stored units are those of its own peak. */
  lemma SignedUnitsOfPeak(h: HalfFloat, x: seq<real>, g: nat) returns (i: nat)
    requires |x| == 256 && g < 16
    ensures GroupPeak(Q3K, x, g, i)
    ensures var z := QuantizeSigned(h, x);
            Abs(x[i] / 4.0 + Times(z.d, z.scales[g])) <= Abs(z.d)
  {
    hide PeakOf, QuantizeSigned;
    SignedGroup(h, x, g);
    i := PeakOfGroup(x, g);
  }

  // ----- the error in terms of the values -----

  /** Half precision keeps a value to within a part of itself, 1/2048 for values in its normal range. */
  ghost predicate Close(h: HalfFloat, part: real) {
    part >= 0.0 && forall v :: Abs(v - h.Narrow(v)) <= part * Abs(v)
  }

  /** What is lost of up to `units` whole units of `unit`: half a unit, and what narrowing the unit loses. */
  ghost function Loss(unit: real, units: real, part: real): real {
    unit * (0.5 + part * units)
  }

  ghost function Mul(a: real, b: real): real {
    a * b
  }

  lemma DriftIsSmall(h: HalfFloat, part: real, d: real, n: int, most: int)
    requires Close(h, part) && -most <= n <= most
    ensures Drift(h, d, n) <= Mul(Abs(d), Mul(part, most as real))
  {
    KeptClose(h, part, d);
    hide Times, Abs, Close, Mul;
    TimesApart(d, h.Narrow(d), n);
    IntMagnitude(n, most);
    ScaledGap(Abs(d - h.Narrow(d)), part, Abs(d), Abs(n as real), most as real);
  }

  lemma KeptClose(h: HalfFloat, part: real, d: real)
    requires Close(h, part)
    ensures 0.0 <= Abs(d - h.Narrow(d)) <= Mul(part, Abs(d))
  {
    var gap := d - h.Narrow(d);
    assert Abs(gap) <= part * Abs(d);
  }

  lemma IntMagnitude(n: int, most: int)
    requires -most <= n <= most
    ensures 0.0 <= Abs(n as real) <= most as real
  {
  }

  lemma ScaledGap(gap: real, part: real, size: real, count: real, most: real)
    requires 0.0 <= gap <= Mul(part, size) && 0.0 <= count <= most
    ensures Mul(gap, count) <= Mul(size, Mul(part, most))
  {
    ProductGrows(gap, part * size, count, most);
    Reorder(part, size, most);
  }

  lemma TimesApart(a: real, b: real, n: int)
    ensures Abs(Times(a, n) - Times(b, n)) == Mul(Abs(a - b), Abs(n as real))
  {
    assert Times(a, n) - Times(b, n) == (a - b) * n as real;
    SizeOfProduct(a - b, n as real);
  }

  lemma SizeOfProduct(a: real, b: real)
    ensures Abs(a * b) == Abs(a) * Abs(b)
  {
    if a >= 0.0 && b >= 0.0 {
      ProductIsNonNegative(a, b);
    } else if a >= 0.0 {
      ProductIsNonNegative(a, -b);
      assert a * -b == -(a * b);
    } else if b >= 0.0 {
      ProductIsNonNegative(-a, b);
      assert -a * b == -(a * b);
    } else {
      ProductIsNonNegative(-a, -b);
      assert -a * -b == a * b;
    }
  }

  lemma ProductGrows(a: real, b: real, c: real, d: real)
    requires 0.0 <= a <= b && 0.0 <= c <= d
    ensures a * c <= b * d
  {
    ProductIsNonNegative(b - a, c);
    ProductIsNonNegative(b, d - c);
    assert (b - a) * c == b * c - a * c && b * (d - c) == b * d - b * c;
  }

  lemma Reorder(a: real, b: real, c: real)
    ensures a * b * c == b * (a * c)
  {
  }

  lemma LossIs(unit: real, units: real, part: real)
    ensures Loss(unit, units, part) == unit / 2.0 + Mul(unit, Mul(part, units))
  {
  }

  /** The bound for Q4_K and Q2_K: half of what the group's step can be, or what is lost of as many steps
      as there are codes and of the minimum. `top` and `reach` are the group's, `widest` and `deepest`
      the block's. */
  ghost function AffineBound(format: Format, part: real, top: real, reach: real, widest: real, deepest: real): real {
    if format == Q4K then
      var step, minimum := Loss(widest / 945.0, 63.0, part), Loss(deepest / 63.0, 63.0, part);
      Max(((top + reach) / 15.0 + step) / 2.0, 15.0 * step + minimum)
    else
      var step, minimum := Loss(widest / 45.0, 15.0, part), Loss(deepest / 15.0, 15.0, part);
      Max(((top + reach) / 3.0 + step) / 2.0, 3.0 * step + minimum)
  }

  lemma AffineErrorInValues(format: Format, h: HalfFloat, part: real, x: seq<real>, j: nat,
                            top: real, reach: real, widest: real, deepest: real)
    requires |x| == 256 && j < 256 && format != Q3K && KeepsSign(h) && Close(h, part)
    requires Top(format, x, GroupAt(format, j), top) && Reach(format, x, GroupAt(format, j), reach)
    requires WidestSpan(format, x, widest) && DeepestReach(format, x, deepest)
    ensures Abs(x[j] - Dequantized(format, h, QuantizeBlock(format, h, x), j))
            <= AffineBound(format, part, top, reach, widest, deepest)
  {
    hide QuantizeBlock, Dequantized, Top, Reach, WidestSpan, DeepestReach, Close, KeepsSign, Loss;
    var z, g := QuantizeBlock(format, h, x), GroupAt(format, j);
    QuantizeError(format, h, x, j);
    SameScales(format, h, x, widest, deepest);
    GroupLosses(format, h, part, x, g, top, reach);
    hide Drift, ScaleError, MinimumError, Times, GroupAt;
  }

  lemma SameScales(format: Format, h: HalfFloat, x: seq<real>, widest: real, deepest: real)
    requires |x| == 256 && format != Q3K && WidestSpan(format, x, widest) && DeepestReach(format, x, deepest)
    ensures var z := QuantizeBlock(format, h, x);
            && z.d == widest / (if format == Q4K then 945.0 else 45.0)
            && z.dmin == deepest / (if format == Q4K then 63.0 else 15.0)
  {
    hide QuantizeBlock, Span, Reach;
    BlockScales(format, h, x);
  }

  /** What a group's stored step and minimum are away from its span and its reach. */
  lemma GroupLosses(format: Format, h: HalfFloat, part: real, x: seq<real>, g: nat, top: real, reach: real)
    requires |x| == 256 && format != Q3K && g < GroupsIn(format) && KeepsSign(h) && Close(h, part)
    requires Top(format, x, g, top) && Reach(format, x, g, reach)
    ensures var z, units := QuantizeBlock(format, h, x), if format == Q4K then 63.0 else 15.0;
            && ScaleError(h, z, g) <= Loss(z.d, units, part)
            && MinimumError(h, z, g) <= Loss(z.dmin, units, part)
            && Times(h.Narrow(z.d), z.scales[g])
               <= (top + reach) / (if format == Q4K then 15.0 else 3.0) + Loss(z.d, units, part)
  {
    hide Quantize, Top, Reach, Close, KeepsSign, Loss, MaxOf, OffsetOf, StepOf, GroupOf, Times, Mul;
    var grid := GridOf(format);
    var z := QuantizeBlock(format, h, x);
    GroupUnits(grid, h, x, g);
    StepSpans(GroupOf(grid, x, g), grid.levels);
    TopOfGroup(format, x, g);
    ReachOfGroup(format, x, g);
    TopIsUnique(format, x, g, top, MaxOf(GroupOf(grid, x, g)));
    ReachIsUnique(format, x, g, reach, OffsetOf(GroupOf(grid, x, g)));
    DriftIsSmall(h, part, z.d, z.scales[g], grid.units);
    DriftIsSmall(h, part, z.dmin, z.minima[g], grid.units);
    LossIs(z.d, grid.units as real, part);
    LossIs(z.dmin, grid.units as real, part);
  }

  /** The bound for Q3_K, from the magnitudes of the group's and of the block's peak. */
  ghost function SignedBound(part: real, group: real, block: real): real {
    group / 4.0 + 5.0 * (block / 128.0 * (1.0 + part * 32.0))
  }

  lemma SignedErrorInValues(h: HalfFloat, part: real, x: seq<real>, j: nat, inGroup: nat, inBlock: nat)
    requires |x| == 256 && j < 256 && Close(h, part)
    requires GroupPeak(Q3K, x, j / 16, inGroup) && BlockPeak(x, inBlock)
    ensures Abs(x[j] - Dequantized(Q3K, h, QuantizeBlock(Q3K, h, x), j))
            <= SignedBound(part, Abs(x[inGroup]), Abs(x[inBlock]))
  {
    hide QuantizeSigned, Times, Close, Dequantized, Drift, GroupPeak, BlockPeak, Mul;
    var z, g := QuantizeSigned(h, x), j / 16;
    SignedError(h, x, j);
    SignedValue(h, x, j);
    var i := SignedUnitsOfPeak(h, x, g);
    var k := SignedScaleIsPeak(h, x);
    PeaksAgree(x, g, i, inGroup, k, inBlock);
    assert Abs(z.d) == Abs(x[k]) / 128.0;
    DriftIsSmall(h, part, z.d, z.scales[g], 32);
    DriftOf(h, z.d, z.scales[g]);
    ScaleOfPeak(x[i], z.d, Times(z.d, z.scales[g]));
    hide Abs;
    SignedChain(part, Abs(x[j] - Dequantized(Q3K, h, QuantizeBlock(Q3K, h, x), j)),
                Abs(Times(h.Narrow(z.d), z.scales[g])),
                Abs(Times(z.d, z.scales[g])), Drift(h, z.d, z.scales[g]), Abs(z.d), Abs(x[inGroup]), Abs(x[inBlock]));
  }

  lemma ScaleOfPeak(peak: real, d: real, scale: real)
    requires Abs(peak / 4.0 + scale) <= Abs(d)
    ensures Abs(scale) <= Abs(peak) / 4.0 + Abs(d)
  {
  }

  lemma SignedChain(part: real, error: real, kept: real, scale: real, drift: real, d: real, group: real, block: real)
    requires error <= kept + 4.0 * (d + drift) && kept <= scale + drift && scale <= group / 4.0 + d
    requires d == block / 128.0 && drift <= Mul(d, Mul(part, 32.0))
    ensures error <= SignedBound(part, group, block)
  {
    SignedSum(d, part);
  }

  lemma SignedValue(h: HalfFloat, x: seq<real>, j: nat)
    requires |x| == 256 && j < 256
    ensures var z := QuantizeSigned(h, x);
            Dequantized(Q3K, h, QuantizeBlock(Q3K, h, x), j)
            == Times(Times(h.Narrow(z.d), z.scales[j / 16]), z.codes[j])
  {
    hide QuantizeSigned, Times;
    SignedError(h, x, j);
    NoSteps(h.Narrow(QuantizeSigned(h, x).dmin));
  }

  lemma DriftOf(h: HalfFloat, d: real, n: int)
    ensures Abs(Times(h.Narrow(d), n)) <= Abs(Times(d, n)) + Drift(h, d, n)
  {
    hide Times;
  }

  lemma PeaksAgree(x: seq<real>, g: nat, i: nat, i': nat, k: nat, k': nat)
    requires |x| == 256 && GroupPeak(Q3K, x, g, i) && GroupPeak(Q3K, x, g, i') && BlockPeak(x, k) && BlockPeak(x, k')
    ensures i < 256 && i' < 256 && k < 256 && k' < 256
    ensures Abs(x[i]) == Abs(x[i']) && Abs(x[k]) == Abs(x[k'])
  {
  }

  lemma SignedSum(d: real, part: real)
    ensures d * (1.0 + part * 32.0) == d + Mul(d, Mul(part, 32.0))
  {
  }

  /** The measures of a block that the affine bound uses for value `j`. */
  ghost predicate Measures(format: Format, x: seq<real>, j: nat, top: real, reach: real, widest: real, deepest: real)
    requires |x| == 256 && j < 256
  {
    && Top(format, x, GroupAt(format, j), top) && Reach(format, x, GroupAt(format, j), reach)
    && WidestSpan(format, x, widest) && DeepestReach(format, x, deepest)
  }

  lemma BlockHasMeasures(format: Format, x: seq<real>, j: nat)
    requires |x| == 256 && j < 256
    ensures format != Q3K ==> exists top, reach, widest, deepest :: Measures(format, x, j, top, reach, widest, deepest)
    ensures exists i: nat, k: nat :: GroupPeak(Q3K, x, j / 16, i) && BlockPeak(x, k)
  {
    hide Top, Reach, WidestSpan, DeepestReach, GroupPeak, BlockPeak, MaxOf, OffsetOf, QuantizeBlock;
    var exact := HalfFloat(v => (0, 0), (a, b) => 0.0);
    if format != Q3K {
      TopOfGroup(format, x, GroupAt(format, j));
      ReachOfGroup(format, x, GroupAt(format, j));
      BlockScales(format, exact, x);
      var group, z := GroupOf(GridOf(format), x, GroupAt(format, j)), QuantizeBlock(format, exact, x);
      assert Measures(format, x, j, MaxOf(group), OffsetOf(group),
                      (if format == Q4K then 945.0 else 45.0) * z.d, (if format == Q4K then 63.0 else 15.0) * z.dmin);
    }
    var i := PeakOfGroup(x, j / 16);
    var k := SignedScaleIsPeak(exact, x);
  }

  /** The error bound of value `j`, from the values of its block alone. */
  ghost function ErrorIn(format: Format, part: real, x: seq<real>, j: nat): real
    requires |x| == 256 && j < 256
  {
    BlockHasMeasures(format, x, j);
    if format == Q3K then
      var i: nat, k: nat :| GroupPeak(Q3K, x, j / 16, i) && BlockPeak(x, k);
      SignedBound(part, Abs(x[i]), Abs(x[k]))
    else
      var top, reach, widest, deepest :| Measures(format, x, j, top, reach, widest, deepest);
      AffineBound(format, part, top, reach, widest, deepest)
  }

  lemma ErrorInValues(format: Format, h: HalfFloat, part: real, x: seq<real>, j: nat)
    requires |x| == 256 && j < 256 && KeepsSign(h) && Close(h, part)
    ensures Abs(x[j] - Dequantized(format, h, QuantizeBlock(format, h, x), j)) <= ErrorIn(format, part, x, j)
  {
    hide Top, Reach, WidestSpan, DeepestReach, GroupPeak, BlockPeak, AffineBound, SignedBound, KeepsSign, Close,
         QuantizeBlock, Dequantized, Abs;
    BlockHasMeasures(format, x, j);
    if format == Q3K {
      forall i: nat, k: nat | GroupPeak(Q3K, x, j / 16, i) && BlockPeak(x, k)
        ensures i < 256 && k < 256
        ensures Abs(x[j] - Dequantized(format, h, QuantizeBlock(format, h, x), j))
                <= SignedBound(part, Abs(x[i]), Abs(x[k]))
      {
        PeaksAgree(x, j / 16, i, i, k, k);
        SignedErrorInValues(h, part, x, j, i, k);
      }
    } else {
      forall top, reach, widest, deepest | Measures(format, x, j, top, reach, widest, deepest)
        ensures Abs(x[j] - Dequantized(format, h, QuantizeBlock(format, h, x), j))
                <= AffineBound(format, part, top, reach, widest, deepest)
      {
        AffineErrorInValues(format, h, part, x, j, top, reach, widest, deepest);
      }
    }
  }
}
