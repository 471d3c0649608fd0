/** Quantizing an activation vector to blocks of sixteen int8 values
    (tools/memra_cpu_experts.cpp, `QuantizedActivation::quantize`), over the reals. */
module ActivationQuantizer {
  import opened Rounding
  import opened DotKernels

  /** A float that is a number, or one of the infinities and NaNs. */
  datatype Value = Finite(x: real) | NonFinite

  /** The block stands for its sixteen inputs: the scale takes the largest finite magnitude to 127,
      finite inputs are within half a step of their code, non-finite ones count as zero, and the sum is
      the sum of the codes. */
  ghost predicate Represents(block: Q8Block<real>, input: seq<Value>)
    requires |input| == 16
  {
    && ValidBlock(block)
    && block.scale >= 0.0
    && LargestMagnitude(input, 127.0 * block.scale)
    && (forall i | 0 <= i < 16 :: InStep(block.scale, input[i], block.values[i]))
  }

  /** `most` is the largest magnitude among the finite inputs, or zero if there are none. */
  ghost predicate LargestMagnitude(input: seq<Value>, most: real) {
    && (forall i | 0 <= i < |input| && input[i].Finite? :: Abs(input[i].x) <= most)
    && (most == 0.0 || exists i | 0 <= i < |input| :: input[i].Finite? && Abs(input[i].x) == most)
  }

  /** A code is int8 without -128, and the number of steps nearest to its value: the even one of two
      that are as near, and zero if the step is zero. */
  ghost predicate InStep(scale: real, value: Value, code: int) {
    && -127 <= code <= 127
    && (scale == 0.0 ==> code == 0)
    && match value
       case NonFinite => code == 0
       case Finite(x) =>
         && Abs(x - Times(scale, code)) <= scale / 2.0
         && (Abs(x - Times(scale, code)) == scale / 2.0 ==> code % 2 == 0)
  }

  /** The largest magnitude among the finite inputs. */
  method AbsoluteMax(input: seq<Value>) returns (most: real, finite: bool)
    requires |input| == 16
    ensures finite <==> forall i | 0 <= i < 16 :: input[i].Finite?
    ensures most >= 0.0 && LargestMagnitude(input, most)
  {
    most, finite := 0.0, true;
    for i := 0 to 16
      invariant finite <==> forall k | 0 <= k < i :: input[k].Finite?
      invariant most >= 0.0
      invariant forall k | 0 <= k < i && input[k].Finite? :: Abs(input[k].x) <= most
      invariant most == 0.0 || exists k | 0 <= k < i :: input[k].Finite? && Abs(input[k].x) == most
    {
      if input[i].Finite? {
        if Abs(input[i].x) > most {
          most := Abs(input[i].x);
        }
      } else {
        finite := false;
      }
    }
  }

  function CodeOf(scale: real, value: Value): int {
    if scale != 0.0 && value.Finite? then Clip(Rint(value.x / scale), -127, 127) else 0
  }

  /** A value no larger than 127 steps rounds to a code within half a step, and is never clipped. */
  lemma CodeIsNear(scale: real, x: real, most: real)
    requires Abs(x) <= most && scale == if most == 0.0 then 0.0 else most / 127.0
    ensures -127 <= CodeOf(scale, Finite(x)) <= 127
    ensures Abs(x - Times(scale, CodeOf(scale, Finite(x)))) <= scale / 2.0
    ensures Abs(x - Times(scale, CodeOf(scale, Finite(x)))) == scale / 2.0 ==> CodeOf(scale, Finite(x)) % 2 == 0
  {
    if scale == 0.0 {
      NoSteps(scale);
    } else {
      assert Times(scale, 127) == most && Times(scale, -127) == -most;
      NearestSteps(x, scale);
    }
  }

  /** One block of sixteen. */
  method QuantizeBlock(input: seq<Value>) returns (block: Q8Block<real>, finite: bool)
    requires |input| == 16
    ensures Represents(block, input)
    ensures finite <==> forall i | 0 <= i < 16 :: input[i].Finite?
  {
    hide Abs, CodeOf;
    var most;
    most, finite := AbsoluteMax(input);
    var scale := if most == 0.0 then 0.0 else most / 127.0;
    var values: seq<int>, sum := [], 0;
    for i := 0 to 16
      invariant |values| == i && sum == Total(values, i)
      invariant forall k | 0 <= k < i :: InStep(scale, input[k], values[k])
    {
      var quantized := CodeOf(scale, input[i]);
      CodeInStep(scale, input[i], most);
      TotalSnoc(values, quantized);
      values, sum := values + [quantized], sum + quantized;
    }
    hide Total;
    block := Q8Block(scale, sum, values);
  }

  lemma CodeInStep(scale: real, value: Value, most: real)
    requires scale == if most == 0.0 then 0.0 else most / 127.0
    requires value.Finite? ==> Abs(value.x) <= most
    ensures InStep(scale, value, CodeOf(scale, value))
  {
    if value.Finite? {
      CodeIsNear(scale, value.x, most);
    }
  }

  lemma {:induction false} TotalPrefix(values: seq<int>, more: seq<int>, n: nat)
    requires n <= |values|
    ensures Total(values + more, n) == Total(values, n)
  {
    if n > 0 {
      TotalPrefix(values, more, n - 1);
    }
  }

  lemma TotalSnoc(values: seq<int>, last: int)
    ensures Total(values + [last], |values| + 1) == Total(values, |values|) + last
  {
    TotalPrefix(values, [last], |values|);
  }

  /** The whole vector, sixteen at a time. The flag says whether every input was finite; a width that
      is not a positive multiple of sixteen is refused. */
  method Quantize(input: seq<Value>) returns (blocks: seq<Q8Block<real>>, finite: bool)
    ensures |input| == 0 || |input| % 16 != 0 ==> blocks == [] && !finite
    ensures |input| > 0 && |input| % 16 == 0 ==>
              && |blocks| == |input| / 16
              && ValidActivation(blocks)
              && (forall k | 0 <= k < |blocks| :: Represents(blocks[k], input[16 * k..16 * k + 16]))
              && (finite <==> forall i | 0 <= i < |input| :: input[i].Finite?)
  {
    if |input| == 0 || |input| % 16 != 0 {
      return [], false;
    }
    blocks, finite := [], true;
    for k := 0 to |input| / 16
      invariant |blocks| == k
      invariant forall b | 0 <= b < k :: Represents(blocks[b], input[16 * b..16 * b + 16])
      invariant finite <==> forall i | 0 <= i < 16 * k :: input[i].Finite?
    {
      var part := input[16 * k..16 * k + 16];
      var block, blockFinite := QuantizeBlock(part);
      assert forall i | 0 <= i < 16 :: part[i] == input[16 * k + i];
      assert forall i | 16 * k <= i < 16 * k + 16 :: input[i] == part[i - 16 * k];
      blocks, finite := blocks + [block], finite && blockFinite;
    }
  }
}
