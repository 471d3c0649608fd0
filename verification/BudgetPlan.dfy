/** The budget allocator's rewriting of its optimisation problem
    (tools/build_hy3_smart_budget_plan.py): dropping dominated encodings, subtracting
    per-projection minima and scaling the objective. Encodings are numbered in name order. */
module BudgetPlan {

  /** Per expert: the damage of pruning it, and the damage of each encoding of each projection. */
  datatype Damage = Damage(prune: real, quant: seq<seq<real>>)

  /** Measured damages, and the bytes of each encoding of each projection. */
  datatype Costs = Costs(experts: seq<Damage>, sizes: seq<seq<nat>>, qtypes: nat)

  /** A damage for each encoding of each of the three projections. */
  predicate Covers(d: Damage, qtypes: nat) {
    |d.quant| == 3 && |d.quant[0]| == |d.quant[1]| == |d.quant[2]| == qtypes
  }

  predicate ValidCosts(c: Costs) {
    && c.qtypes > 0
    && |c.sizes| == 3 && |c.sizes[0]| == |c.sizes[1]| == |c.sizes[2]| == c.qtypes
    && forall e | 0 <= e < |c.experts| :: Covers(c.experts[e], c.qtypes)
  }

  // ----- dominated encodings -----

  predicate Dominates(values: seq<real>, sizes: seq<nat>, other: nat, candidate: nat)
    requires |values| == |sizes| && other < |values| && candidate < |values|
  {
    && other != candidate
    && sizes[other] <= sizes[candidate] && values[other] <= values[candidate]
    && (sizes[other] < sizes[candidate] || values[other] < values[candidate])
  }

  predicate Dominated(values: seq<real>, sizes: seq<nat>, candidate: nat)
    requires |values| == |sizes| && candidate < |values|
  {
    exists other | 0 <= other < |values| :: Dominates(values, sizes, other, candidate)
  }

  /** The order of the keys (size, value, name). */
  predicate KeyLe(values: seq<real>, sizes: seq<nat>, a: nat, b: nat)
    requires |values| == |sizes| && a < |values| && b < |values|
  {
    || sizes[a] < sizes[b]
    || (sizes[a] == sizes[b] && (values[a] < values[b] || (values[a] == values[b] && a <= b)))
  }

  // What the check means: within the bytes of an encoding nothing does less damage, and nothing smaller does as little.

  ghost predicate BestForItsSize(values: seq<real>, sizes: seq<nat>, q: nat)
    requires |values| == |sizes| && q < |values|
  {
    forall other | 0 <= other < |values| && sizes[other] <= sizes[q] ::
      values[other] > values[q] || (values[other] == values[q] && sizes[other] == sizes[q])
  }

  /** An encoding other than `q` in size or damage, and worse in neither. */
  ghost predicate Betters(values: seq<real>, sizes: seq<nat>, other: nat, q: nat)
    requires |values| == |sizes| && other < |values| && q < |values|
  {
    sizes[other] <= sizes[q] && values[other] <= values[q] && (sizes[other], values[other]) != (sizes[q], values[q])
  }

  lemma DominatedIsNotBest(values: seq<real>, sizes: seq<nat>, q: nat)
    requires |values| == |sizes| && q < |values|
    ensures Dominated(values, sizes, q) <==> !BestForItsSize(values, sizes, q)
    ensures forall other | 0 <= other < |values| ::
              Dominates(values, sizes, other, q) <==> Betters(values, sizes, other, q)
  {
    if !BestForItsSize(values, sizes, q) {
      var other :| 0 <= other < |values| && sizes[other] <= sizes[q]
                   && !(values[other] > values[q] || (values[other] == values[q] && sizes[other] == sizes[q]));
      assert Dominates(values, sizes, other, q);
    }
  }

  /** `chosen` betters `candidate`, and of all that do it is the smallest, of those the least damaging, of those
      the first by name. */
  ghost predicate IsWitness(values: seq<real>, sizes: seq<nat>, candidate: nat, chosen: nat)
    requires |values| == |sizes| && candidate < |values|
  {
    && chosen < |values|
    && Betters(values, sizes, chosen, candidate)
    && forall other | 0 <= other < |values| && Betters(values, sizes, other, candidate) ::
         && sizes[chosen] <= sizes[other]
         && (sizes[chosen] == sizes[other] ==> values[chosen] <= values[other])
         && (sizes[chosen] == sizes[other] && values[chosen] == values[other] ==> chosen <= other)
  }

  lemma LeastKeyIsWitness(values: seq<real>, sizes: seq<nat>, candidate: nat, chosen: nat)
    requires |values| == |sizes| && candidate < |values| && chosen < |values|
    requires Dominates(values, sizes, chosen, candidate)
    requires forall other | 0 <= other < |values| && Dominates(values, sizes, other, candidate) ::
               KeyLe(values, sizes, chosen, other)
    ensures IsWitness(values, sizes, candidate, chosen)
  {
    DominatedIsNotBest(values, sizes, candidate);
  }

  lemma DominatesIsTransitive(values: seq<real>, sizes: seq<nat>, a: nat, b: nat, c: nat)
    requires |values| == |sizes| && a < |values| && b < |values| && c < |values|
    ensures Dominates(values, sizes, a, b) && Dominates(values, sizes, b, c) ==> Dominates(values, sizes, a, c)
  {
  }

  /** Nothing dominates a least-key witness: what did would dominate the candidate with a smaller key. */
  lemma WitnessIsUndominated(values: seq<real>, sizes: seq<nat>, candidate: nat, chosen: nat)
    requires |values| == |sizes| && candidate < |values|
    requires IsWitness(values, sizes, candidate, chosen)
    ensures !Dominated(values, sizes, chosen)
  {
    forall other | 0 <= other < |values| ensures !Dominates(values, sizes, other, chosen) {
      DominatesIsTransitive(values, sizes, other, chosen, candidate);
    }
  }

  datatype Dominations = InvalidDamage | Known(witnesses: map<nat, nat>)

  /** `dominated_qtypes`: it refuses a negative damage; otherwise it lists exactly the dominated
      encodings, each with a witness that is itself undominated. */
  method DominatedQtypes(values: seq<real>, sizes: seq<nat>) returns (result: Dominations)
    requires |values| == |sizes|
    ensures result == InvalidDamage <==> exists q | 0 <= q < |values| :: values[q] < 0.0
    ensures result.Known? ==>
              && (forall q | 0 <= q < |values| :: q in result.witnesses <==> !BestForItsSize(values, sizes, q))
              && (forall q | q in result.witnesses ::
                    && q < |values|
                    && IsWitness(values, sizes, q, result.witnesses[q])
                    && result.witnesses[q] !in result.witnesses)
  {
    if exists q | 0 <= q < |values| :: values[q] < 0.0 {
      return InvalidDamage;
    }
    var dominated: map<nat, nat> := map[];
    for candidate := 0 to |values|
      invariant forall q | 0 <= q < candidate :: q in dominated <==> Dominated(values, sizes, q)
      invariant forall q | q in dominated :: q < candidate && IsWitness(values, sizes, q, dominated[q])
    {
      var best: int := -1;
      for other := 0 to |values|
        invariant -1 <= best < other
        invariant best == -1 ==> forall o | 0 <= o < other :: !Dominates(values, sizes, o, candidate)
        invariant best >= 0 ==> Dominates(values, sizes, best, candidate)
        invariant best >= 0 ==> forall o | 0 <= o < other && Dominates(values, sizes, o, candidate) ::
                                  KeyLe(values, sizes, best, o)
      {
        if Dominates(values, sizes, other, candidate) && (best == -1 || !KeyLe(values, sizes, best, other)) {
          best := other;
        }
      }
      if best >= 0 {
        LeastKeyIsWitness(values, sizes, candidate, best);
        dominated := dominated[candidate := best];
      }
    }
    hide IsWitness, BestForItsSize, Dominates;
    forall q | q in dominated ensures dominated[q] !in dominated {
      WitnessIsUndominated(values, sizes, q, dominated[q]);
    }
    forall q | 0 <= q < |values| ensures q in dominated <==> !BestForItsSize(values, sizes, q) {
      DominatedIsNotBest(values, sizes, q);
    }
    result := Known(dominated);
  }

  /** Some undominated encoding is at least as small and as good as any given one. */
  lemma UndominatedExists(values: seq<real>, sizes: seq<nat>, q: nat) returns (w: nat)
    requires |values| == |sizes| && q < |values|
    ensures w < |values| && !Dominated(values, sizes, w)
    ensures sizes[w] <= sizes[q] && values[w] <= values[q]
  {
    if !Dominated(values, sizes, q) {
      return q;
    }
    w := LeastDominating(values, sizes, q, |values|);
    LeastKeyIsWitness(values, sizes, q, w);
    WitnessIsUndominated(values, sizes, q, w);
  }

  lemma {:induction false} LeastDominating(values: seq<real>, sizes: seq<nat>, q: nat, n: nat) returns (w: nat)
    requires |values| == |sizes| && q < |values| && n <= |values|
    requires exists other | 0 <= other < n :: Dominates(values, sizes, other, q)
    ensures w < n && Dominates(values, sizes, w, q)
    ensures forall other | 0 <= other < n && Dominates(values, sizes, other, q) :: KeyLe(values, sizes, w, other)
  {
    if exists other | 0 <= other < n - 1 :: Dominates(values, sizes, other, q) {
      w := LeastDominating(values, sizes, q, n - 1);
      if Dominates(values, sizes, n - 1, q) && !KeyLe(values, sizes, w, n - 1) {
        w := n - 1;
      }
    } else {
      w := n - 1;
    }
  }

  // ----- the allocation problem -----

  /** An expert is pruned, or each of its projections takes one encoding. */
  datatype Choice = Prune | Keep(q: seq<nat>)

  /** The byte ceiling, each expert's layer, each layer's largest number of pruned experts and of
      Q2_K projections, the number of the Q2_K encoding, and the experts that may not be pruned. */
  datatype Limits = Limits(budget: int, layer: seq<nat>, maxPruned: seq<int>, maxQ2: seq<int>, q2: nat,
                           protected: set<nat>)

  predicate ValidLimits(c: Costs, limits: Limits) {
    && |limits.layer| == |c.experts|
    && |limits.maxPruned| == |limits.maxQ2|
    && forall e | 0 <= e < |limits.layer| :: limits.layer[e] < |limits.maxPruned|
  }

  predicate WellFormed(c: Costs, s: seq<Choice>) {
    |s| == |c.experts| && forall e | 0 <= e < |s| :: ValidChoice(s[e], c.qtypes)
  }

  predicate ValidChoice(choice: Choice, qtypes: nat) {
    match choice
    case Prune => true
    case Keep(q) => |q| == 3 && q[0] < qtypes && q[1] < qtypes && q[2] < qtypes
  }

  function DamageOf(d: Damage, choice: Choice, qtypes: nat): real
    requires Covers(d, qtypes) && ValidChoice(choice, qtypes)
  {
    match choice
    case Prune => d.prune
    case Keep(q) => d.quant[0][q[0]] + d.quant[1][q[1]] + d.quant[2][q[2]]
  }

  function BytesOf(c: Costs, choice: Choice): nat
    requires ValidCosts(c) && ValidChoice(choice, c.qtypes)
  {
    match choice
    case Prune => 0
    case Keep(q) => c.sizes[0][q[0]] + c.sizes[1][q[1]] + c.sizes[2][q[2]]
  }

  function TotalDamage(c: Costs, s: seq<Choice>, n: nat): real
    requires ValidCosts(c) && WellFormed(c, s) && n <= |s|
  {
    if n == 0 then 0.0 else TotalDamage(c, s, n - 1) + DamageOf(c.experts[n - 1], s[n - 1], c.qtypes)
  }

  function TotalBytes(c: Costs, s: seq<Choice>, n: nat): nat
    requires ValidCosts(c) && WellFormed(c, s) && n <= |s|
  {
    if n == 0 then 0 else TotalBytes(c, s, n - 1) + BytesOf(c, s[n - 1])
  }

  function PrunedIn(limits: Limits, s: seq<Choice>, layer: nat, n: nat): nat
    requires n <= |s| == |limits.layer|
  {
    if n == 0 then 0
    else PrunedIn(limits, s, layer, n - 1) + if limits.layer[n - 1] == layer && s[n - 1].Prune? then 1 else 0
  }

  function Q2Of(limits: Limits, choice: Choice): (n: nat)
    requires choice.Keep? ==> |choice.q| == 3
    ensures n <= 3
  {
    match choice
    case Prune => 0
    case Keep(q) => (if q[0] == limits.q2 then 1 else 0) + (if q[1] == limits.q2 then 1 else 0)
                    + if q[2] == limits.q2 then 1 else 0
  }

  function Q2In(limits: Limits, s: seq<Choice>, layer: nat, n: nat): nat
    requires n <= |s| == |limits.layer|
    requires forall e | 0 <= e < |s| :: s[e].Keep? ==> |s[e].q| == 3
  {
    if n == 0 then 0
    else Q2In(limits, s, layer, n - 1) + if limits.layer[n - 1] == layer then Q2Of(limits, s[n - 1]) else 0
  }

  /** The constraint rows and the bounds on prune variables. */
  ghost predicate Feasible(c: Costs, limits: Limits, s: seq<Choice>)
    requires ValidCosts(c) && ValidLimits(c, limits)
  {
    && WellFormed(c, s)
    && TotalBytes(c, s, |s|) <= limits.budget
    && (forall l | 0 <= l < |limits.maxPruned| ::
          && PrunedIn(limits, s, l, |s|) <= limits.maxPruned[l]
          && (limits.q2 < c.qtypes ==> Q2In(limits, s, l, |s|) <= limits.maxQ2[l]))
    && (forall e | 0 <= e < |s| && e in limits.protected :: !s[e].Prune?)
  }

  /** Original optimality. */
  ghost predicate Optimal(c: Costs, limits: Limits, s: seq<Choice>)
    requires ValidCosts(c) && ValidLimits(c, limits)
  {
    && Feasible(c, limits, s)
    && forall t | Feasible(c, limits, t) :: TotalDamage(c, s, |s|) <= TotalDamage(c, t, |t|)
  }

  // ----- the rewritten problem -----

  ghost predicate UndominatedChoice(c: Costs, d: Damage, choice: Choice)
    requires ValidCosts(c) && Covers(d, c.qtypes) && ValidChoice(choice, c.qtypes)
  {
    choice.Keep? ==>
      && !Dominated(d.quant[0], c.sizes[0], choice.q[0])
      && !Dominated(d.quant[1], c.sizes[1], choice.q[1])
      && !Dominated(d.quant[2], c.sizes[2], choice.q[2])
  }

  ghost predicate Undominated(c: Costs, s: seq<Choice>)
    requires ValidCosts(c) && WellFormed(c, s)
  {
    forall e | 0 <= e < |s| :: UndominatedChoice(c, c.experts[e], s[e])
  }

  function Least(values: seq<real>): (m: real)
    requires values != []
    ensures m in values && forall i | 0 <= i < |values| :: m <= values[i]
  {
    if |values| == 1 then values[0]
    else
      var rest := Least(values[1..]);
      assert forall i | 1 <= i < |values| :: values[i] == values[1..][i - 1];
      if values[0] < rest then values[0] else rest
  }

  /** The damage every retained form of an expert carries at least. */
  function Floor(d: Damage, qtypes: nat): real
    requires qtypes > 0 && Covers(d, qtypes)
  {
    Least(d.quant[0]) + Least(d.quant[1]) + Least(d.quant[2])
  }

  function AtLeastZero(x: real): real { if x < 0.0 then 0.0 else x }

  function Over(x: real, scale: real): real
    requires scale > 0.0
  {
    x / scale
  }

  lemma OverAdds(a: real, b: real, scale: real)
    requires scale > 0.0
    ensures Over(a, scale) + Over(b, scale) == Over(a + b, scale)
  {
  }

  lemma OverZero(scale: real)
    requires scale > 0.0
    ensures Over(0.0, scale) == 0.0
  {
  }

  lemma OverKeepsOrder(a: real, b: real, scale: real)
    requires scale > 0.0 && Over(a, scale) <= Over(b, scale)
    ensures a <= b
  {
    var x, y := Over(a, scale), Over(b, scale);
    assert x * scale == a && y * scale == b;
    assert (y - x) * scale >= 0.0;
  }

  /** One projection's objective entries: the minimum subtracted, then scaled. */
  function CenteredRow(values: seq<real>, scale: real): (row: seq<real>)
    requires values != [] && scale > 0.0
    ensures |row| == |values|
    ensures forall q | 0 <= q < |values| :: row[q] == Over(values[q] - Least(values), scale)
  {
    seq(|values|, q requires 0 <= q < |values| => Over(AtLeastZero(values[q] - Least(values)), scale))
  }

  /** One expert's objective entries. */
  function Centered(d: Damage, qtypes: nat, scale: real): (r: Damage)
    requires qtypes > 0 && Covers(d, qtypes) && scale > 0.0
    ensures Covers(r, qtypes)
  {
    Damage(Over(AtLeastZero(d.prune - Floor(d, qtypes)), scale),
           [CenteredRow(d.quant[0], scale), CenteredRow(d.quant[1], scale), CenteredRow(d.quant[2], scale)])
  }

  /** The costs the solver sees. */
  function Rewritten(c: Costs, scale: real): (r: Costs)
    requires ValidCosts(c) && scale > 0.0
    ensures ValidCosts(r) && |r.experts| == |c.experts| && r.sizes == c.sizes && r.qtypes == c.qtypes
    ensures forall e | 0 <= e < |c.experts| :: r.experts[e] == Centered(c.experts[e], c.qtypes, scale)
  {
    c.(experts := seq(|c.experts|, e requires 0 <= e < |c.experts| => Centered(c.experts[e], c.qtypes, scale)))
  }

  /** What the solver returns: an undominated feasible solution of least rewritten damage. */
  ghost predicate Solved(c: Costs, limits: Limits, scale: real, s: seq<Choice>)
    requires ValidCosts(c) && ValidLimits(c, limits) && scale > 0.0
  {
    && Feasible(c, limits, s) && Undominated(c, s)
    && forall t | Feasible(c, limits, t) && Undominated(c, t) ::
         TotalDamage(Rewritten(c, scale), s, |s|) <= TotalDamage(Rewritten(c, scale), t, |t|)
  }

  /** What clipping a negative centered prune damage to zero adds to a pruned expert. */
  function Clipped(d: Damage, qtypes: nat): real
    requires qtypes > 0 && Covers(d, qtypes)
  {
    AtLeastZero(Floor(d, qtypes) - d.prune)
  }

  function TotalClipped(c: Costs, s: seq<Choice>, n: nat): (total: real)
    requires ValidCosts(c) && WellFormed(c, s) && n <= |s|
    ensures total >= 0.0
  {
    if n == 0 then 0.0
    else TotalClipped(c, s, n - 1) + if s[n - 1].Prune? then Clipped(c.experts[n - 1], c.qtypes) else 0.0
  }

  function TotalFloor(c: Costs, n: nat): real
    requires ValidCosts(c) && n <= |c.experts|
  {
    if n == 0 then 0.0 else TotalFloor(c, n - 1) + Floor(c.experts[n - 1], c.qtypes)
  }

  /** An expert's share of the rewritten objective, before scaling. */
  function Net(d: Damage, qtypes: nat, choice: Choice): real
    requires qtypes > 0 && Covers(d, qtypes) && ValidChoice(choice, qtypes)
  {
    DamageOf(d, choice, qtypes) - Floor(d, qtypes) + if choice.Prune? then Clipped(d, qtypes) else 0.0
  }

  function TotalNet(c: Costs, s: seq<Choice>, n: nat): real
    requires ValidCosts(c) && WellFormed(c, s) && n <= |s|
  {
    TotalDamage(c, s, n) - TotalFloor(c, n) + TotalClipped(c, s, n)
  }

  lemma RewrittenChoice(d: Damage, qtypes: nat, scale: real, choice: Choice)
    requires scale > 0.0 && qtypes > 0 && Covers(d, qtypes) && ValidChoice(choice, qtypes)
    ensures DamageOf(Centered(d, qtypes, scale), choice, qtypes) == Over(Net(d, qtypes, choice), scale)
  {
    hide Over, Least;
    match choice {
      case Prune =>
        assert AtLeastZero(d.prune - Floor(d, qtypes)) == Net(d, qtypes, choice);
      case Keep(q) =>
        var a, b, e := d.quant[0][q[0]] - Least(d.quant[0]), d.quant[1][q[1]] - Least(d.quant[1]),
                       d.quant[2][q[2]] - Least(d.quant[2]);
        OverAdds(a, b, scale);
        OverAdds(a + b, e, scale);
        assert a + b + e == Net(d, qtypes, choice);
    }
  }

  lemma NetStep(c: Costs, s: seq<Choice>, n: nat)
    requires ValidCosts(c) && WellFormed(c, s) && 0 < n <= |s|
    ensures TotalNet(c, s, n) == TotalNet(c, s, n - 1) + Net(c.experts[n - 1], c.qtypes, s[n - 1])
    ensures TotalNet(c, s, 0) == 0.0
  {
    hide DamageOf, Floor, Clipped;
  }

  /** The rewritten objective is the original one minus a constant, plus the clipped amounts, divided
      by the scale. */
  lemma {:induction false} RewrittenDamage(c: Costs, scale: real, s: seq<Choice>, n: nat)
    requires ValidCosts(c) && scale > 0.0 && WellFormed(c, s) && n <= |s|
    ensures TotalDamage(Rewritten(c, scale), s, n) == Over(TotalNet(c, s, n), scale)
  {
    hide Centered, DamageOf, Net, Over;
    if n == 0 {
      OverZero(scale);
      assert TotalNet(c, s, n) == 0.0;
    } else {
      NetStep(c, s, n);
      hide TotalNet;
      RewrittenDamage(c, scale, s, n - 1);
      RewrittenChoice(c.experts[n - 1], c.qtypes, scale, s[n - 1]);
      OverAdds(TotalNet(c, s, n - 1), Net(c.experts[n - 1], c.qtypes, s[n - 1]), scale);
    }
  }

  // ----- the optimum is kept -----

  /** The same solution with every dominated encoding replaced by an undominated one. */
  lemma {:induction false} Improve(c: Costs, s: seq<Choice>) returns (t: seq<Choice>)
    requires ValidCosts(c) && WellFormed(c, s)
    ensures WellFormed(c, t) && Undominated(c, t)
    ensures forall e | 0 <= e < |s| :: s[e].Prune? <==> t[e].Prune?
    ensures forall n | 0 <= n <= |s| ::
              TotalDamage(c, t, n) <= TotalDamage(c, s, n) && TotalBytes(c, t, n) <= TotalBytes(c, s, n)
              && TotalClipped(c, t, n) == TotalClipped(c, s, n)
  {
    hide Dominated;
    t := s;
    var k := 0;
    while k < |s|
      invariant 0 <= k <= |s| == |t| && WellFormed(c, t)
      invariant t[k..] == s[k..]
      invariant forall e | 0 <= e < k :: UndominatedChoice(c, c.experts[e], t[e])
      invariant forall e | 0 <= e < k :: NoWorse(c, c.experts[e], t[e], s[e])
    {
      var choice := ImproveChoice(c, c.experts[k], s[k]);
      t := t[k := choice];
      k := k + 1;
    }
    forall n | 0 <= n <= |s|
      ensures TotalDamage(c, t, n) <= TotalDamage(c, s, n) && TotalBytes(c, t, n) <= TotalBytes(c, s, n)
              && TotalClipped(c, t, n) == TotalClipped(c, s, n)
    {
      NoWorseInTotal(c, t, s, n);
    }
  }

  ghost predicate NoWorse(c: Costs, d: Damage, better: Choice, choice: Choice)
    requires ValidCosts(c) && Covers(d, c.qtypes) && ValidChoice(better, c.qtypes) && ValidChoice(choice, c.qtypes)
  {
    && (better.Prune? <==> choice.Prune?)
    && DamageOf(d, better, c.qtypes) <= DamageOf(d, choice, c.qtypes)
    && BytesOf(c, better) <= BytesOf(c, choice)
  }

  lemma ImproveChoice(c: Costs, d: Damage, choice: Choice) returns (better: Choice)
    requires ValidCosts(c) && Covers(d, c.qtypes) && ValidChoice(choice, c.qtypes)
    ensures ValidChoice(better, c.qtypes) && UndominatedChoice(c, d, better) && NoWorse(c, d, better, choice)
  {
    hide Dominated;
    match choice {
      case Prune => better := Prune;
      case Keep(q) =>
        var a := UndominatedExists(d.quant[0], c.sizes[0], q[0]);
        var b := UndominatedExists(d.quant[1], c.sizes[1], q[1]);
        var e := UndominatedExists(d.quant[2], c.sizes[2], q[2]);
        better := Keep([a, b, e]);
    }
  }

  lemma {:induction false} NoWorseInTotal(c: Costs, t: seq<Choice>, s: seq<Choice>, n: nat)
    requires ValidCosts(c) && WellFormed(c, s) && WellFormed(c, t) && n <= |s|
    requires forall e | 0 <= e < |s| :: NoWorse(c, c.experts[e], t[e], s[e])
    ensures TotalDamage(c, t, n) <= TotalDamage(c, s, n) && TotalBytes(c, t, n) <= TotalBytes(c, s, n)
    ensures TotalClipped(c, t, n) == TotalClipped(c, s, n)
  {
    if n > 0 {
      NoWorseInTotal(c, t, s, n - 1);
      assert NoWorse(c, c.experts[n - 1], t[n - 1], s[n - 1]);
      hide DamageOf, BytesOf, Clipped;
    }
  }

  lemma {:induction false} SamePruning(limits: Limits, t: seq<Choice>, s: seq<Choice>, layer: nat, n: nat)
    requires n <= |s| == |t| == |limits.layer|
    requires forall e | 0 <= e < |s| :: s[e].Prune? <==> t[e].Prune?
    ensures PrunedIn(limits, t, layer, n) == PrunedIn(limits, s, layer, n)
  {
    if n > 0 {
      SamePruning(limits, t, s, layer, n - 1);
    }
  }

  ghost function LayerMembers(limits: Limits, layer: nat, n: nat): set<nat>
    requires n <= |limits.layer|
  {
    set e: nat | e < n && limits.layer[e] == layer
  }

  lemma MembersSnoc(limits: Limits, layer: nat, n: nat)
    requires 0 < n <= |limits.layer|
    ensures |LayerMembers(limits, layer, n)|
            == |LayerMembers(limits, layer, n - 1)| + if limits.layer[n - 1] == layer then 1 else 0
  {
    assert LayerMembers(limits, layer, n)
           == LayerMembers(limits, layer, n - 1) + if limits.layer[n - 1] == layer then {n - 1} else {};
  }

  /** The Q2_K caps of every layer are the default, three per expert, or more: no cap can bind. */
  ghost predicate Q2CapsOpen(limits: Limits) {
    forall l | 0 <= l < |limits.maxQ2| :: limits.maxQ2[l] >= 3 * |LayerMembers(limits, l, |limits.layer|)|
  }

  lemma {:induction false} Q2Within(limits: Limits, s: seq<Choice>, layer: nat, n: nat)
    requires n <= |s| == |limits.layer|
    requires forall e | 0 <= e < |s| :: s[e].Keep? ==> |s[e].q| == 3
    ensures Q2In(limits, s, layer, n) <= 3 * |LayerMembers(limits, layer, n)|
  {
    if n > 0 {
      Q2Within(limits, s, layer, n - 1);
      MembersSnoc(limits, layer, n);
    }
  }

  lemma ImprovedIsFeasible(c: Costs, limits: Limits, s: seq<Choice>) returns (t: seq<Choice>)
    requires ValidCosts(c) && ValidLimits(c, limits) && Q2CapsOpen(limits) && Feasible(c, limits, s)
    ensures Feasible(c, limits, t) && Undominated(c, t)
    ensures TotalDamage(c, t, |t|) <= TotalDamage(c, s, |s|) && TotalClipped(c, t, |t|) == TotalClipped(c, s, |s|)
  {
    t := Improve(c, s);
    forall l | 0 <= l < |limits.maxPruned|
      ensures PrunedIn(limits, t, l, |t|) <= limits.maxPruned[l] && Q2In(limits, t, l, |t|) <= limits.maxQ2[l]
    {
      SamePruning(limits, t, s, l, |s|);
      Q2Within(limits, t, l, |t|);
    }
  }

  lemma CompareRewritten(c: Costs, scale: real, s: seq<Choice>, t: seq<Choice>)
    requires ValidCosts(c) && scale > 0.0 && WellFormed(c, s) && WellFormed(c, t)
    requires TotalDamage(Rewritten(c, scale), s, |s|) <= TotalDamage(Rewritten(c, scale), t, |t|)
    ensures TotalDamage(c, s, |s|) + TotalClipped(c, s, |s|) <= TotalDamage(c, t, |t|) + TotalClipped(c, t, |t|)
  {
    hide TotalNet, Over, TotalDamage, Rewritten;
    RewrittenDamage(c, scale, s, |s|);
    RewrittenDamage(c, scale, t, |t|);
    OverKeepsOrder(TotalNet(c, s, |s|), TotalNet(c, t, |t|), scale);
    NetOrder(c, s, t);
  }

  lemma NetOrder(c: Costs, s: seq<Choice>, t: seq<Choice>)
    requires ValidCosts(c) && WellFormed(c, s) && WellFormed(c, t) && TotalNet(c, s, |s|) <= TotalNet(c, t, |t|)
    ensures TotalDamage(c, s, |s|) + TotalClipped(c, s, |s|) <= TotalDamage(c, t, |t|) + TotalClipped(c, t, |t|)
  {
    hide TotalDamage, TotalClipped, TotalFloor;
    assert |s| == |t|;
  }

  /** For any costs and any limits without a binding Q2_K cap, the solver's answer costs at most the
      clipped amounts of the competitor more than any feasible plan. */
  lemma SolvedIsNearOptimal(c: Costs, limits: Limits, scale: real, s: seq<Choice>, other: seq<Choice>)
    requires ValidCosts(c) && ValidLimits(c, limits) && Q2CapsOpen(limits) && scale > 0.0
    requires Solved(c, limits, scale, s) && Feasible(c, limits, other)
    ensures WellFormed(c, s) && WellFormed(c, other)
    ensures TotalDamage(c, s, |s|) + TotalClipped(c, s, |s|)
            <= TotalDamage(c, other, |other|) + TotalClipped(c, other, |other|)
  {
    assert WellFormed(c, s) && WellFormed(c, other);
    hide TotalDamage, TotalClipped, TotalBytes, PrunedIn, Q2In, Undominated, Q2CapsOpen, Rewritten;
    var t := ImprovedIsFeasible(c, limits, other);
    CompareRewritten(c, scale, s, t);
  }

  lemma {:induction false} NothingClipped(c: Costs, s: seq<Choice>, n: nat)
    requires ValidCosts(c) && WellFormed(c, s) && n <= |s|
    requires forall e | 0 <= e < |c.experts| :: c.experts[e].prune >= Floor(c.experts[e], c.qtypes)
    ensures TotalClipped(c, s, n) == 0.0
  {
    if n > 0 {
      NothingClipped(c, s, n - 1);
    }
  }

  /** No measured damage makes the solver's answer worse than some feasible plan, whatever the limits. */
  ghost predicate KeepsOptima(c: Costs, scale: real)
    requires ValidCosts(c) && scale > 0.0
  {
    forall limits, s | ValidLimits(c, limits) && Q2CapsOpen(limits) && Solved(c, limits, scale, s) ::
      Optimal(c, limits, s)
  }

  lemma EnoughPruneDamage(c: Costs, scale: real)
    requires ValidCosts(c) && scale > 0.0
    requires forall e | 0 <= e < |c.experts| :: c.experts[e].prune >= Floor(c.experts[e], c.qtypes)
    ensures KeepsOptima(c, scale)
  {
    hide TotalDamage, TotalClipped, TotalBytes, PrunedIn, Q2In, Undominated, Rewritten, Floor;
    forall limits, s | ValidLimits(c, limits) && Q2CapsOpen(limits) && Solved(c, limits, scale, s)
      ensures Optimal(c, limits, s)
    {
      assert Feasible(c, limits, s);
      forall t | Feasible(c, limits, t) ensures TotalDamage(c, s, |s|) <= TotalDamage(c, t, |t|) {
        SolvedIsNearOptimal(c, limits, scale, s, t);
        NothingClipped(c, s, |s|);
        NothingClipped(c, t, |t|);
      }
    }
  }

  // ----- and exactly then -----

  lemma NetIsNotNegative(d: Damage, qtypes: nat, choice: Choice)
    requires qtypes > 0 && Covers(d, qtypes) && ValidChoice(choice, qtypes)
    ensures Net(d, qtypes, choice) >= 0.0
  {
  }

  lemma {:induction false} TotalNetIsNotNegative(c: Costs, s: seq<Choice>, n: nat)
    requires ValidCosts(c) && WellFormed(c, s) && n <= |s|
    ensures TotalNet(c, s, n) >= 0.0
  {
    if n > 0 {
      hide Net;
      TotalNetIsNotNegative(c, s, n - 1);
      NetStep(c, s, n);
      NetIsNotNegative(c.experts[n - 1], c.qtypes, s[n - 1]);
    }
  }

  lemma CheapestKept(c: Costs, d: Damage) returns (choice: Choice)
    requires ValidCosts(c) && Covers(d, c.qtypes)
    ensures choice.Keep? && ValidChoice(choice, c.qtypes) && UndominatedChoice(c, d, choice)
    ensures DamageOf(d, choice, c.qtypes) == Floor(d, c.qtypes)
  {
    hide Dominated;
    var i :| 0 <= i < |d.quant[0]| && d.quant[0][i] == Least(d.quant[0]);
    var j :| 0 <= j < |d.quant[1]| && d.quant[1][j] == Least(d.quant[1]);
    var k :| 0 <= k < |d.quant[2]| && d.quant[2][k] == Least(d.quant[2]);
    var a := UndominatedExists(d.quant[0], c.sizes[0], i);
    var b := UndominatedExists(d.quant[1], c.sizes[1], j);
    var e := UndominatedExists(d.quant[2], c.sizes[2], k);
    choice := Keep([a, b, e]);
  }

  /** The plan that keeps every expert at its least damage. */
  lemma KeepAll(c: Costs) returns (s: seq<Choice>)
    requires ValidCosts(c)
    ensures WellFormed(c, s) && Undominated(c, s)
    ensures forall e | 0 <= e < |s| ::
              s[e].Keep? && DamageOf(c.experts[e], s[e], c.qtypes) == Floor(c.experts[e], c.qtypes)
  {
    s := [];
    while |s| < |c.experts|
      invariant |s| <= |c.experts|
      invariant forall e | 0 <= e < |s| :: s[e].Keep? && ValidChoice(s[e], c.qtypes)
                                           && UndominatedChoice(c, c.experts[e], s[e])
      invariant forall e | 0 <= e < |s| :: DamageOf(c.experts[e], s[e], c.qtypes) == Floor(c.experts[e], c.qtypes)
    {
      var choice := CheapestKept(c, c.experts[|s|]);
      s := s + [choice];
    }
  }

  lemma {:induction false} KeptTotals(c: Costs, s: seq<Choice>, n: nat)
    requires ValidCosts(c) && WellFormed(c, s) && n <= |s|
    requires forall e | 0 <= e < |s| ::
               s[e].Keep? && DamageOf(c.experts[e], s[e], c.qtypes) == Floor(c.experts[e], c.qtypes)
    ensures TotalNet(c, s, n) == 0.0
  {
    if n > 0 {
      hide DamageOf, Floor, Clipped;
      KeptTotals(c, s, n - 1);
    }
  }

  lemma {:induction false} PruneOne(c: Costs, s: seq<Choice>, e: nat, n: nat)
    requires ValidCosts(c) && WellFormed(c, s) && e < |s| && n <= |s|
    ensures WellFormed(c, s[e := Prune])
    ensures var t := s[e := Prune];
            && TotalBytes(c, t, n) <= TotalBytes(c, s, n)
            && TotalDamage(c, t, n) == TotalDamage(c, s, n)
               + if e < n then c.experts[e].prune - DamageOf(c.experts[e], s[e], c.qtypes) else 0.0
  {
    if n > 0 {
      PruneOne(c, s, e, n - 1);
      if n - 1 == e {
        hide BytesOf;
        assert s[e := Prune][n - 1] == Prune;
      } else {
        hide DamageOf, BytesOf;
      }
    }
  }

  lemma {:induction false} PrunedWithin(limits: Limits, s: seq<Choice>, layer: nat, n: nat)
    requires n <= |s| == |limits.layer|
    ensures PrunedIn(limits, s, layer, n) <= |LayerMembers(limits, layer, n)| <= n
  {
    if n > 0 {
      PrunedWithin(limits, s, layer, n - 1);
      MembersSnoc(limits, layer, n);
    }
  }

  /** The limits of one layer that only a byte ceiling restricts. */
  function OpenLimits(c: Costs, budget: nat): Limits {
    Limits(budget, seq(|c.experts|, _ => 0), [|c.experts|], [3 * |c.experts|], 0, {})
  }

  lemma OpenIsFeasible(c: Costs, budget: nat, s: seq<Choice>)
    requires ValidCosts(c) && WellFormed(c, s) && TotalBytes(c, s, |s|) <= budget
    ensures ValidLimits(c, OpenLimits(c, budget)) && Feasible(c, OpenLimits(c, budget), s)
  {
    var limits := OpenLimits(c, budget);
    PrunedWithin(limits, s, 0, |s|);
    Q2Within(limits, s, 0, |s|);
  }

  lemma OpenCaps(c: Costs, budget: nat)
    ensures Q2CapsOpen(OpenLimits(c, budget))
  {
    var limits := OpenLimits(c, budget);
    EveryExpertIn(limits, 0, |c.experts|);
  }

  lemma {:induction false} EveryExpertIn(limits: Limits, layer: nat, n: nat)
    requires n <= |limits.layer|
    ensures |LayerMembers(limits, layer, n)| <= n
  {
    if n > 0 {
      EveryExpertIn(limits, layer, n - 1);
      MembersSnoc(limits, layer, n);
    }
  }

  /** If pruning some expert does less damage than its best retained form, there are limits under
      which the solver's answer is not optimal. */
  lemma TooLittlePruneDamage(c: Costs, scale: real, e: nat)
    requires ValidCosts(c) && scale > 0.0 && e < |c.experts|
    requires c.experts[e].prune < Floor(c.experts[e], c.qtypes)
    ensures !KeepsOptima(c, scale)
  {
    hide DamageOf, Floor, TotalDamage, TotalBytes, TotalNet, Net, Rewritten, Undominated, Over, Q2CapsOpen, OpenLimits;
    var s := KeepAll(c);
    var n := |s|;
    var limits := OpenLimits(c, TotalBytes(c, s, n));
    OpenIsFeasible(c, TotalBytes(c, s, n), s);
    OpenCaps(c, TotalBytes(c, s, n));
    KeptTotals(c, s, n);
    RewrittenDamage(c, scale, s, n);
    forall t | Feasible(c, limits, t) && Undominated(c, t)
      ensures TotalDamage(Rewritten(c, scale), s, n) <= TotalDamage(Rewritten(c, scale), t, |t|)
    {
      RewrittenDamage(c, scale, t, |t|);
      TotalNetIsNotNegative(c, t, |t|);
      OverIsMonotone(TotalNet(c, s, n), TotalNet(c, t, |t|), scale);
    }
    assert Solved(c, limits, scale, s);
    var better := s[e := Prune];
    PruneOne(c, s, e, n);
    OpenIsFeasible(c, TotalBytes(c, s, n), better);
    assert !Optimal(c, limits, s);
  }

  lemma OverIsMonotone(a: real, b: real, scale: real)
    requires scale > 0.0 && a <= b
    ensures Over(a, scale) <= Over(b, scale)
  {
    var x, y := Over(a, scale), Over(b, scale);
    assert x * scale == a && y * scale == b;
    assert x > y ==> (x - y) * scale > 0.0;
  }

  /** The rewriting keeps every optimum, whatever the byte ceiling, survivor floors and protected
      experts, exactly when no expert is cheaper to prune than to keep at its best. */
  lemma KeepsOptimaExactly(c: Costs, scale: real)
    requires ValidCosts(c) && scale > 0.0
    ensures KeepsOptima(c, scale)
            <==> forall e | 0 <= e < |c.experts| :: c.experts[e].prune >= Floor(c.experts[e], c.qtypes)
  {
    hide KeepsOptima, Floor;
    if forall e | 0 <= e < |c.experts| :: c.experts[e].prune >= Floor(c.experts[e], c.qtypes) {
      EnoughPruneDamage(c, scale);
    } else {
      var e :| 0 <= e < |c.experts| && c.experts[e].prune < Floor(c.experts[e], c.qtypes);
      TooLittlePruneDamage(c, scale, e);
    }
  }

  // ----- building the objective -----

  function Magnitude(x: real): real { if x < 0.0 then -x else x }

  function Max(a: real, b: real): real { if a >= b then a else b }

  /** The retained floor exceeds the prune damage by more than rounding noise. */
  predicate Rejects(d: Damage, qtypes: nat)
    requires qtypes > 0 && Covers(d, qtypes)
  {
    d.prune - Floor(d, qtypes)
      < -(0.000000000001 * Max(Max(Magnitude(d.prune), Magnitude(Floor(d, qtypes))), 1.0))
  }

  // What the check means, without the check.

  /** The least damage of any way to keep the expert. */
  ghost predicate LeastKept(d: Damage, qtypes: nat, least: real)
    requires Covers(d, qtypes)
  {
    && (forall choice | ValidChoice(choice, qtypes) && choice.Keep? :: DamageOf(d, choice, qtypes) >= least)
    && (exists choice :: ValidChoice(choice, qtypes) && choice.Keep? && DamageOf(d, choice, qtypes) == least)
  }

  lemma FloorIsLeastKept(d: Damage, qtypes: nat)
    requires qtypes > 0 && Covers(d, qtypes)
    ensures forall least :: LeastKept(d, qtypes, least) <==> least == Floor(d, qtypes)
  {
    var i :| 0 <= i < |d.quant[0]| && d.quant[0][i] == Least(d.quant[0]);
    var j :| 0 <= j < |d.quant[1]| && d.quant[1][j] == Least(d.quant[1]);
    var k :| 0 <= k < |d.quant[2]| && d.quant[2][k] == Least(d.quant[2]);
    var best := Keep([i, j, k]);
    assert ValidChoice(best, qtypes) && DamageOf(d, best, qtypes) == Floor(d, qtypes);
  }

  /** A part in 10^12 of the largest of the prune damage, the least kept damage and one. */
  ghost predicate IsTolerance(d: Damage, least: real, tolerance: real) {
    var part := tolerance * 1_000_000_000_000.0;
    && part >= d.prune && part >= -d.prune && part >= least && part >= -least && part >= 1.0
    && (part == d.prune || part == -d.prune || part == least || part == -least || part == 1.0)
  }

  /** The expert is cheaper to prune than to keep in any way, by more than the tolerance. */
  ghost predicate TooCheapToPrune(d: Damage, qtypes: nat)
    requires Covers(d, qtypes)
  {
    exists least, tolerance ::
      LeastKept(d, qtypes, least) && IsTolerance(d, least, tolerance) && d.prune < least - tolerance
  }

  /** The tolerance of an expert. */
  ghost function Tolerance(d: Damage, qtypes: nat): real
    requires qtypes > 0 && Covers(d, qtypes)
  {
    0.000000000001 * Max(Max(Magnitude(d.prune), Magnitude(Floor(d, qtypes))), 1.0)
  }

  lemma ToleranceIs(d: Damage, qtypes: nat)
    requires qtypes > 0 && Covers(d, qtypes)
    ensures forall tolerance :: IsTolerance(d, Floor(d, qtypes), tolerance) <==> tolerance == Tolerance(d, qtypes)
  {
    hide Floor;
  }

  /** The check refuses exactly those experts. */
  lemma RejectsIsTooCheap(d: Damage, qtypes: nat)
    requires qtypes > 0 && Covers(d, qtypes)
    ensures Rejects(d, qtypes) <==> TooCheapToPrune(d, qtypes)
    ensures Rejects(d, qtypes) <==> Floor(d, qtypes) - d.prune > Tolerance(d, qtypes)
  {
    hide LeastKept, IsTolerance, Floor;
    FloorIsLeastKept(d, qtypes);
    ToleranceIs(d, qtypes);
    assert LeastKept(d, qtypes, Floor(d, qtypes)) && IsTolerance(d, Floor(d, qtypes), Tolerance(d, qtypes));
  }

  ghost function TotalTolerance(c: Costs, n: nat): real
    requires ValidCosts(c) && n <= |c.experts|
  {
    if n == 0 then 0.0 else TotalTolerance(c, n - 1) + Tolerance(c.experts[n - 1], c.qtypes)
  }

  lemma {:induction false} ClippedIsTolerated(c: Costs, s: seq<Choice>, n: nat)
    requires ValidCosts(c) && WellFormed(c, s) && n <= |s|
    requires forall e | 0 <= e < |c.experts| :: !TooCheapToPrune(c.experts[e], c.qtypes)
    ensures TotalClipped(c, s, n) <= TotalTolerance(c, n)
  {
    if n > 0 {
      ClippedIsTolerated(c, s, n - 1);
      hide TooCheapToPrune, Floor, Rejects;
      RejectsIsTooCheap(c.experts[n - 1], c.qtypes);
    }
  }

  /** Whatever the limits, the solver's answer costs at most the sum of the tolerances more than any
      feasible plan. */
  ghost predicate NearlyKeepsOptima(c: Costs, scale: real)
    requires ValidCosts(c) && scale > 0.0
  {
    forall limits, s, other | ValidLimits(c, limits) && Q2CapsOpen(limits) && Solved(c, limits, scale, s)
                              && Feasible(c, limits, other) ::
      TotalDamage(c, s, |s|) <= TotalDamage(c, other, |other|) + TotalTolerance(c, |c.experts|)
  }

  lemma AcceptedNearlyKeepsOptima(c: Costs, scale: real)
    requires ValidCosts(c) && scale > 0.0
    requires forall e | 0 <= e < |c.experts| :: !TooCheapToPrune(c.experts[e], c.qtypes)
    ensures NearlyKeepsOptima(c, scale)
  {
    hide TotalDamage, TotalBytes, PrunedIn, Q2In, Undominated, Rewritten, TooCheapToPrune;
    forall limits, s, other | ValidLimits(c, limits) && Q2CapsOpen(limits) && Solved(c, limits, scale, s)
                              && Feasible(c, limits, other)
      ensures TotalDamage(c, s, |s|) <= TotalDamage(c, other, |other|) + TotalTolerance(c, |c.experts|)
    {
      SolvedIsNearOptimal(c, limits, scale, s, other);
      ClippedIsTolerated(c, other, |other|);
    }
  }

  /** An expert that is cheaper to prune than to keep, by less than the tolerance, is let through:
      the check that stops an expert whose retained floor exceeds its prune damage leaves costs for
      which the rewriting loses optima. */
  lemma ToleranceLosesOptima() returns (c: Costs)
    ensures ValidCosts(c) && |c.experts| == 1
    ensures c.experts[0].prune < Floor(c.experts[0], c.qtypes) && !TooCheapToPrune(c.experts[0], c.qtypes)
    ensures forall scale | scale > 0.0 :: !KeepsOptima(c, scale)
  {
    hide KeepsOptima;
    var expert := Damage(0.9999999999999, [[1.0], [0.0], [0.0]]);
    c := Costs([expert], [[1], [1], [1]], 1);
    assert Floor(expert, 1) == 1.0;
    RejectsIsTooCheap(expert, 1);
    hide TooCheapToPrune;
    forall scale | scale > 0.0 ensures !KeepsOptima(c, scale) {
      TooLittlePruneDamage(c, scale, 0);
    }
  }

  function Largest(d: Damage, qtypes: nat): (m: real)
    requires qtypes > 0 && Covers(d, qtypes)
    ensures d.prune <= m
    ensures forall q | 0 <= q < qtypes :: d.quant[0][q] <= m && d.quant[1][q] <= m && d.quant[2][q] <= m
    ensures m == d.prune || m in d.quant[0] || m in d.quant[1] || m in d.quant[2]
  {
    Max(d.prune, Max(LargestOf(d.quant[0]), Max(LargestOf(d.quant[1]), LargestOf(d.quant[2]))))
  }

  function LargestOf(values: seq<real>): (m: real)
    requires values != []
    ensures m in values && forall i | 0 <= i < |values| :: values[i] <= m
  {
    if |values| == 1 then values[0]
    else
      assert forall i | 1 <= i < |values| :: values[i] == values[1..][i - 1];
      Max(values[0], LargestOf(values[1..]))
  }

  function LargestEntry(d: Damage, qtypes: nat): real
    requires qtypes > 0 && Covers(d, qtypes)
  {
    Largest(Centered(d, qtypes, 1.0), qtypes)
  }

  /** The scale is the largest entry of all experts, the prune damage or an encoding's damage with the
      least damages subtracted, or 1e-30 if that is larger. */
  ghost predicate IsScale(c: Costs, scale: real)
    requires ValidCosts(c)
  {
    && scale >= 0.000000000000000000000000000001
    && (forall e | 0 <= e < |c.experts| :: LargestEntry(c.experts[e], c.qtypes) <= scale)
    && (scale == 0.000000000000000000000000000001
        || exists e | 0 <= e < |c.experts| :: LargestEntry(c.experts[e], c.qtypes) == scale)
  }

  datatype Objective = BestRetainedExceedsPrune(expert: nat) | Objective(costs: Costs, scale: real)

  /** The loop over experts that fills the objective: it stops at the first expert it rejects, and
      otherwise yields the rewritten costs at the scale that makes the largest entry one. */
  method BuildObjective(c: Costs) returns (result: Objective)
    requires ValidCosts(c)
    ensures result.BestRetainedExceedsPrune? ==>
              && result.expert < |c.experts| && TooCheapToPrune(c.experts[result.expert], c.qtypes)
              && forall e | 0 <= e < result.expert :: !TooCheapToPrune(c.experts[e], c.qtypes)
    ensures result.Objective? ==>
              && (forall e | 0 <= e < |c.experts| :: !TooCheapToPrune(c.experts[e], c.qtypes))
              && IsScale(c, result.scale) && result.costs == Rewritten(c, result.scale)
              && NearlyKeepsOptima(c, result.scale)
  {
    hide Centered, Rejects, Largest, TooCheapToPrune, NearlyKeepsOptima;
    var entries: seq<Damage> := [];
    var scale := 0.000000000000000000000000000001;
    for e := 0 to |c.experts|
      invariant |entries| == e && scale >= 0.000000000000000000000000000001
      invariant forall k | 0 <= k < e ::
                  && !TooCheapToPrune(c.experts[k], c.qtypes)
                  && entries[k] == Centered(c.experts[k], c.qtypes, 1.0)
                  && LargestEntry(c.experts[k], c.qtypes) <= scale
      invariant scale == 0.000000000000000000000000000001
                || exists k | 0 <= k < e :: LargestEntry(c.experts[k], c.qtypes) == scale
    {
      RejectsIsTooCheap(c.experts[e], c.qtypes);
      if Rejects(c.experts[e], c.qtypes) {
        return BestRetainedExceedsPrune(e);
      }
      var entry := Centered(c.experts[e], c.qtypes, 1.0);
      entries := entries + [entry];
      assert LargestEntry(c.experts[e], c.qtypes) == Largest(entry, c.qtypes);
      scale := Max(scale, Largest(entry, c.qtypes));
    }
    var scaled: seq<Damage> := [];
    for e := 0 to |c.experts|
      invariant |scaled| == e
      invariant forall k | 0 <= k < e :: scaled[k] == Centered(c.experts[k], c.qtypes, scale)
    {
      CenteredThenScaled(c.experts[e], c.qtypes, scale);
      scaled := scaled + [DividedBy(entries[e], c.qtypes, scale)];
    }
    result := Objective(c.(experts := scaled), scale);
    assert scaled == Rewritten(c, scale).experts;
    AcceptedNearlyKeepsOptima(c, scale);
  }

  function DividedRow(row: seq<real>, scale: real): (r: seq<real>)
    requires scale > 0.0
    ensures |r| == |row|
  {
    seq(|row|, q requires 0 <= q < |row| => Over(row[q], scale))
  }

  function DividedBy(d: Damage, qtypes: nat, scale: real): Damage
    requires scale > 0.0 && Covers(d, qtypes)
  {
    Damage(Over(d.prune, scale),
           [DividedRow(d.quant[0], scale), DividedRow(d.quant[1], scale), DividedRow(d.quant[2], scale)])
  }

  lemma CenteredThenScaled(d: Damage, qtypes: nat, scale: real)
    requires qtypes > 0 && Covers(d, qtypes) && scale > 0.0
    ensures DividedBy(Centered(d, qtypes, 1.0), qtypes, scale) == Centered(d, qtypes, scale)
  {
    forall x ensures Over(x, 1.0) == x {
    }
    hide Over;
    forall p | 0 <= p < 3
      ensures DividedRow(CenteredRow(d.quant[p], 1.0), scale) == CenteredRow(d.quant[p], scale)
    {
    }
  }
}
