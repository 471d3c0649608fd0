/** The constraint matrix that the budget allocator hands to its solver
    (tools/build_hy3_smart_budget_plan.py): a zero-one variable for pruning each expert and one for
    each encoding of each projection. */
module BudgetRows {
  import opened BudgetPlan

  /** One expert's variables. */
  datatype Variables = Variables(prune: int, x: seq<seq<int>>)

  function RowSum(row: seq<int>): int {
    if row == [] then 0 else RowSum(row[..|row| - 1]) + row[|row| - 1]
  }

  function RowDot(row: seq<int>, values: seq<real>): real
    requires |row| == |values|
  {
    if row == [] then 0.0
    else RowDot(row[..|row| - 1], values[..|row| - 1]) + row[|row| - 1] as real * values[|row| - 1]
  }

  function RowBytes(row: seq<int>, sizes: seq<nat>): int
    requires |row| == |sizes|
  {
    if row == [] then 0 else RowBytes(row[..|row| - 1], sizes[..|row| - 1]) + row[|row| - 1] * sizes[|row| - 1]
  }

  ghost predicate Binary(row: seq<int>) {
    forall i | 0 <= i < |row| :: row[i] == 0 || row[i] == 1
  }

  predicate Shaped(v: Variables, qtypes: nat) {
    |v.x| == 3 && |v.x[0]| == |v.x[1]| == |v.x[2]| == qtypes
  }

  /** One expert's three equality rows: its prune variable plus each projection's encoding variables
      is one. */
  ghost predicate ChoiceRows(v: Variables, qtypes: nat) {
    && Shaped(v, qtypes)
    && (v.prune == 0 || v.prune == 1)
    && Binary(v.x[0]) && Binary(v.x[1]) && Binary(v.x[2])
    && v.prune + RowSum(v.x[0]) == 1 && v.prune + RowSum(v.x[1]) == 1 && v.prune + RowSum(v.x[2]) == 1
  }

  ghost predicate AllChoiceRows(c: Costs, vs: seq<Variables>) {
    |vs| == |c.experts| && forall e | 0 <= e < |vs| :: ChoiceRows(vs[e], c.qtypes)
  }

  ghost predicate AllShaped(c: Costs, vs: seq<Variables>) {
    |vs| == |c.experts| && forall e | 0 <= e < |vs| :: Shaped(vs[e], c.qtypes)
  }

  // ----- the other rows, over the first `n` experts -----

  function VariableBytes(c: Costs, v: Variables): int
    requires ValidCosts(c) && Shaped(v, c.qtypes)
  {
    RowBytes(v.x[0], c.sizes[0]) + RowBytes(v.x[1], c.sizes[1]) + RowBytes(v.x[2], c.sizes[2])
  }

  function ByteRow(c: Costs, vs: seq<Variables>, n: nat): int
    requires ValidCosts(c) && AllShaped(c, vs) && n <= |vs|
  {
    if n == 0 then 0 else ByteRow(c, vs, n - 1) + VariableBytes(c, vs[n - 1])
  }

  function PruneRow(limits: Limits, vs: seq<Variables>, layer: nat, n: nat): int
    requires n <= |vs| == |limits.layer|
  {
    if n == 0 then 0
    else PruneRow(limits, vs, layer, n - 1) + if limits.layer[n - 1] == layer then vs[n - 1].prune else 0
  }

  function VariableQ2(v: Variables, q2: nat): int
    requires |v.x| == 3 && q2 < |v.x[0]| && q2 < |v.x[1]| && q2 < |v.x[2]|
  {
    v.x[0][q2] + v.x[1][q2] + v.x[2][q2]
  }

  function Q2Row(c: Costs, limits: Limits, vs: seq<Variables>, layer: nat, n: nat): int
    requires AllShaped(c, vs) && n <= |vs| == |limits.layer| && limits.q2 < c.qtypes
  {
    if n == 0 then 0
    else Q2Row(c, limits, vs, layer, n - 1)
         + if limits.layer[n - 1] == layer then VariableQ2(vs[n - 1], limits.q2) else 0
  }

  function VariableDamage(d: Damage, v: Variables, qtypes: nat): real
    requires Covers(d, qtypes) && Shaped(v, qtypes)
  {
    v.prune as real * d.prune + RowDot(v.x[0], d.quant[0]) + RowDot(v.x[1], d.quant[1]) + RowDot(v.x[2], d.quant[2])
  }

  /** The objective. */
  function ObjectiveOf(c: Costs, vs: seq<Variables>, n: nat): real
    requires ValidCosts(c) && AllShaped(c, vs) && n <= |vs|
  {
    if n == 0 then 0.0 else ObjectiveOf(c, vs, n - 1) + VariableDamage(c.experts[n - 1], vs[n - 1], c.qtypes)
  }

  /** The byte ceiling, each layer's survivor floor and Q2_K cap, the latter only when Q2_K is one of
      the encodings, and the upper bounds of protected experts. */
  ghost predicate LimitRows(c: Costs, limits: Limits, vs: seq<Variables>)
    requires ValidCosts(c) && ValidLimits(c, limits) && AllShaped(c, vs)
  {
    && ByteRow(c, vs, |vs|) <= limits.budget
    && (forall l | 0 <= l < |limits.maxPruned| ::
          && PruneRow(limits, vs, l, |vs|) <= limits.maxPruned[l]
          && (limits.q2 < c.qtypes ==> Q2Row(c, limits, vs, l, |vs|) <= limits.maxQ2[l]))
    && (forall e | 0 <= e < |vs| && e in limits.protected :: vs[e].prune <= 0)
  }

  /** The upper bounds that switch off dominated encodings. */
  ghost predicate DominatedOff(c: Costs, vs: seq<Variables>)
    requires ValidCosts(c) && AllShaped(c, vs)
  {
    forall e | 0 <= e < |vs| :: ExpertOff(c, c.experts[e], vs[e])
  }

  ghost predicate ExpertOff(c: Costs, d: Damage, v: Variables)
    requires ValidCosts(c) && Covers(d, c.qtypes) && Shaped(v, c.qtypes)
  {
    && RowOff(d.quant[0], c.sizes[0], v.x[0])
    && RowOff(d.quant[1], c.sizes[1], v.x[1])
    && RowOff(d.quant[2], c.sizes[2], v.x[2])
  }

  ghost predicate RowOff(values: seq<real>, sizes: seq<nat>, row: seq<int>)
    requires |values| == |sizes| == |row|
  {
    forall q | 0 <= q < |row| && Dominated(values, sizes, q) :: row[q] <= 0
  }

  // ----- a choice as variables -----

  /** One at `hot`, and zero elsewhere; all zero if `hot` is not a position. */
  function UnitRow(n: nat, hot: int): (row: seq<int>)
    ensures |row| == n && Binary(row)
  {
    seq(n, q => if q == hot then 1 else 0)
  }

  function HotOf(choice: Choice, p: nat): int
    requires choice.Keep? ==> p < |choice.q|
  {
    if choice.Keep? then choice.q[p] else -1
  }

  function Encoded(choice: Choice, qtypes: nat): (v: Variables)
    requires ValidChoice(choice, qtypes)
    ensures Shaped(v, qtypes)
  {
    Variables(if choice.Prune? then 1 else 0,
              [UnitRow(qtypes, HotOf(choice, 0)), UnitRow(qtypes, HotOf(choice, 1)), UnitRow(qtypes, HotOf(choice, 2))])
  }

  function EncodedPlan(c: Costs, s: seq<Choice>): (vs: seq<Variables>)
    requires WellFormed(c, s)
    ensures AllShaped(c, vs)
  {
    seq(|s|, e requires 0 <= e < |s| => Encoded(s[e], c.qtypes))
  }

  lemma UnitPrefix(n: nat, hot: int)
    requires n > 0
    ensures UnitRow(n, hot)[..n - 1] == UnitRow(n - 1, hot) && UnitRow(n, hot) != []
  {
  }

  lemma {:induction false} UnitSums(n: nat, hot: int, values: seq<real>, sizes: seq<nat>)
    requires |values| == |sizes| == n && -1 <= hot < n
    ensures RowSum(UnitRow(n, hot)) == if hot >= 0 then 1 else 0
    ensures RowDot(UnitRow(n, hot), values) == if hot >= 0 then values[hot] else 0.0
    ensures RowBytes(UnitRow(n, hot), sizes) == if hot >= 0 then sizes[hot] else 0
  {
    if n > 0 {
      UnitPrefix(n, hot);
      if hot == n - 1 {
        UnitIsZero(n - 1, hot);
        UnitSums(n - 1, -1, values[..n - 1], sizes[..n - 1]);
      } else {
        UnitSums(n - 1, hot, values[..n - 1], sizes[..n - 1]);
      }
    }
  }

  lemma UnitIsZero(n: nat, hot: int)
    requires hot >= n
    ensures UnitRow(n, hot) == UnitRow(n, -1)
  {
  }

  /** A choice's variables satisfy its three rows, and carry its damage and its bytes. */
  lemma EncodedChoice(c: Costs, d: Damage, choice: Choice)
    requires ValidCosts(c) && Covers(d, c.qtypes) && ValidChoice(choice, c.qtypes)
    ensures ChoiceRows(Encoded(choice, c.qtypes), c.qtypes)
    ensures VariableDamage(d, Encoded(choice, c.qtypes), c.qtypes) == DamageOf(d, choice, c.qtypes)
    ensures VariableBytes(c, Encoded(choice, c.qtypes)) == BytesOf(c, choice)
  {
    hide RowSum, RowDot, RowBytes, UnitRow, Binary;
    UnitSums(c.qtypes, HotOf(choice, 0), d.quant[0], c.sizes[0]);
    UnitSums(c.qtypes, HotOf(choice, 1), d.quant[1], c.sizes[1]);
    UnitSums(c.qtypes, HotOf(choice, 2), d.quant[2], c.sizes[2]);
    OneOrNone(d.prune);
  }

  lemma OneOrNone(x: real)
    ensures 1 as real * x == x && 0 as real * x == 0.0
  {
  }

  lemma EncodedQ2(limits: Limits, choice: Choice, qtypes: nat)
    requires ValidChoice(choice, qtypes) && limits.q2 < qtypes
    ensures VariableQ2(Encoded(choice, qtypes), limits.q2) == Q2Of(limits, choice)
  {
  }

  /** An encoding that is switched off is exactly one that an undominated choice does not take. */
  lemma UnitOff(values: seq<real>, sizes: seq<nat>, hot: int)
    requires |values| == |sizes| && -1 <= hot < |values|
    ensures RowOff(values, sizes, UnitRow(|values|, hot)) <==> (hot >= 0 ==> !Dominated(values, sizes, hot))
  {
    hide Dominated;
    if hot >= 0 {
      assert UnitRow(|values|, hot)[hot] == 1;
    }
  }

  lemma EncodedOff(c: Costs, d: Damage, choice: Choice)
    requires ValidCosts(c) && Covers(d, c.qtypes) && ValidChoice(choice, c.qtypes)
    ensures ExpertOff(c, d, Encoded(choice, c.qtypes)) <==> UndominatedChoice(c, d, choice)
  {
    hide RowOff, UnitRow, Dominated;
    UnitOff(d.quant[0], c.sizes[0], HotOf(choice, 0));
    UnitOff(d.quant[1], c.sizes[1], HotOf(choice, 1));
    UnitOff(d.quant[2], c.sizes[2], HotOf(choice, 2));
  }

  // ----- whole plans -----

  lemma {:induction false} EncodedTotals(c: Costs, s: seq<Choice>, n: nat)
    requires ValidCosts(c) && WellFormed(c, s) && n <= |s|
    ensures ByteRow(c, EncodedPlan(c, s), n) == TotalBytes(c, s, n)
    ensures ObjectiveOf(c, EncodedPlan(c, s), n) == TotalDamage(c, s, n)
  {
    hide VariableDamage, VariableBytes, DamageOf, BytesOf, Encoded;
    if n > 0 {
      EncodedTotals(c, s, n - 1);
      EncodedChoice(c, c.experts[n - 1], s[n - 1]);
    }
  }

  lemma {:induction false} EncodedCounts(c: Costs, limits: Limits, s: seq<Choice>, layer: nat, n: nat)
    requires WellFormed(c, s) && n <= |s| == |limits.layer|
    ensures PruneRow(limits, EncodedPlan(c, s), layer, n) == PrunedIn(limits, s, layer, n)
    ensures limits.q2 < c.qtypes ==> Q2Row(c, limits, EncodedPlan(c, s), layer, n) == Q2In(limits, s, layer, n)
  {
    hide VariableQ2, Q2Of;
    if n > 0 {
      EncodedCounts(c, limits, s, layer, n - 1);
      if limits.q2 < c.qtypes {
        EncodedQ2(limits, s[n - 1], c.qtypes);
      }
    }
  }

  /** A plan's variables satisfy the matrix exactly when the plan is feasible and undominated, and
      their objective is the plan's damage. */
  lemma PlansSatisfyRows(c: Costs, limits: Limits, s: seq<Choice>)
    requires ValidCosts(c) && ValidLimits(c, limits) && WellFormed(c, s)
    ensures AllChoiceRows(c, EncodedPlan(c, s))
    ensures LimitRows(c, limits, EncodedPlan(c, s)) <==> Feasible(c, limits, s)
    ensures DominatedOff(c, EncodedPlan(c, s)) <==> Undominated(c, s)
    ensures ObjectiveOf(c, EncodedPlan(c, s), |s|) == TotalDamage(c, s, |s|)
  {
    hide ByteRow, PruneRow, Q2Row, TotalBytes, PrunedIn, Q2In, ObjectiveOf, TotalDamage, ExpertOff, UndominatedChoice,
         UnitRow, ChoiceRows;
    var vs := EncodedPlan(c, s);
    EncodedTotals(c, s, |s|);
    forall l | 0 <= l < |limits.maxPruned|
      ensures PruneRow(limits, vs, l, |s|) == PrunedIn(limits, s, l, |s|)
      ensures limits.q2 < c.qtypes ==> Q2Row(c, limits, vs, l, |s|) == Q2In(limits, s, l, |s|)
    {
      EncodedCounts(c, limits, s, l, |s|);
    }
    forall e | 0 <= e < |s|
      ensures ChoiceRows(vs[e], c.qtypes) && (vs[e].prune <= 0 <==> !s[e].Prune?)
      ensures ExpertOff(c, c.experts[e], vs[e]) <==> UndominatedChoice(c, c.experts[e], s[e])
    {
      EncodedChoice(c, c.experts[e], s[e]);
      EncodedOff(c, c.experts[e], s[e]);
    }
  }

  // ----- and back -----

  lemma {:induction false} BinarySum(row: seq<int>) returns (hot: int)
    requires Binary(row) && RowSum(row) <= 1
    ensures RowSum(row) == 0 || RowSum(row) == 1
    ensures RowSum(row) == 0 ==> hot == -1
    ensures RowSum(row) == 1 ==> 0 <= hot < |row|
    ensures row == UnitRow(|row|, hot)
  {
    hot := -1;
    if row != [] {
      var n := |row| - 1;
      SumNotNegative(row[..n]);
      var before := BinarySum(row[..n]);
      assert row[n] == 0 || row[n] == 1;
      hot := if row[n] == 1 then n else before;
      assert row == row[..n] + [row[n]];
    }
  }

  lemma {:induction false} SumNotNegative(row: seq<int>)
    requires Binary(row)
    ensures RowSum(row) >= 0
  {
    if row != [] {
      SumNotNegative(row[..|row| - 1]);
    }
  }

  /** Every zero-one solution of an expert's rows prunes it or picks one encoding per projection. */
  lemma RowsAreAChoice(v: Variables, qtypes: nat) returns (choice: Choice)
    requires ChoiceRows(v, qtypes)
    ensures ValidChoice(choice, qtypes) && v == Encoded(choice, qtypes)
  {
    hide RowSum, UnitRow;
    var a := BinarySum(v.x[0]);
    var b := BinarySum(v.x[1]);
    var e := BinarySum(v.x[2]);
    choice := if v.prune == 1 then Prune else Keep([a, b, e]);
    assert v.x == [v.x[0], v.x[1], v.x[2]];
  }

  lemma {:induction false} RowsAreChoices(c: Costs, vs: seq<Variables>, n: nat) returns (s: seq<Choice>)
    requires AllChoiceRows(c, vs) && n <= |vs|
    ensures |s| == n && forall e | 0 <= e < n :: ValidChoice(s[e], c.qtypes) && vs[e] == Encoded(s[e], c.qtypes)
  {
    hide ChoiceRows;
    s := [];
    if n > 0 {
      s := RowsAreChoices(c, vs, n - 1);
      var choice := RowsAreAChoice(vs[n - 1], c.qtypes);
      s := s + [choice];
    }
  }

  /** The matrix is exactly the allocation problem: a zero-one vector satisfies all rows and bounds
      if and only if it is some feasible undominated plan. */
  lemma RowsAreThePlans(c: Costs, limits: Limits, vs: seq<Variables>)
    requires ValidCosts(c) && ValidLimits(c, limits) && AllShaped(c, vs)
    ensures AllChoiceRows(c, vs) && LimitRows(c, limits, vs) && DominatedOff(c, vs)
            <==> exists s :: WellFormed(c, s) && Feasible(c, limits, s) && Undominated(c, s) && vs == EncodedPlan(c, s)
  {
    hide LimitRows, DominatedOff, Feasible, Undominated, ChoiceRows, Encoded;
    if AllChoiceRows(c, vs) && LimitRows(c, limits, vs) && DominatedOff(c, vs) {
      var s := RowsAreChoices(c, vs, |vs|);
      assert vs == EncodedPlan(c, s);
      PlansSatisfyRows(c, limits, s);
    }
    forall s | WellFormed(c, s) && Feasible(c, limits, s) && Undominated(c, s) && vs == EncodedPlan(c, s)
      ensures AllChoiceRows(c, vs) && LimitRows(c, limits, vs) && DominatedOff(c, vs)
    {
      PlansSatisfyRows(c, limits, s);
    }
  }

  ghost predicate Satisfies(c: Costs, limits: Limits, vs: seq<Variables>)
    requires ValidCosts(c) && ValidLimits(c, limits)
  {
    AllShaped(c, vs) && AllChoiceRows(c, vs) && LimitRows(c, limits, vs) && DominatedOff(c, vs)
  }

  /** The solver's problem: the rewritten objective, least over all vectors that satisfy the matrix. */
  ghost predicate LeastSolution(c: Costs, limits: Limits, scale: real, vs: seq<Variables>)
    requires ValidCosts(c) && ValidLimits(c, limits) && scale > 0.0
  {
    && Satisfies(c, limits, vs)
    && forall ws | Satisfies(c, limits, ws) ::
         ObjectiveOf(Rewritten(c, scale), vs, |vs|) <= ObjectiveOf(Rewritten(c, scale), ws, |ws|)
  }

  lemma RewrittenObjective(c: Costs, scale: real, s: seq<Choice>)
    requires ValidCosts(c) && scale > 0.0 && WellFormed(c, s)
    ensures AllShaped(Rewritten(c, scale), EncodedPlan(c, s)) && |EncodedPlan(c, s)| == |s|
    ensures ObjectiveOf(Rewritten(c, scale), EncodedPlan(c, s), |s|) == TotalDamage(Rewritten(c, scale), s, |s|)
  {
    hide Centered, ObjectiveOf, TotalDamage, Encoded;
    assert EncodedPlan(c, s) == EncodedPlan(Rewritten(c, scale), s);
    EncodedTotals(Rewritten(c, scale), s, |s|);
  }

  /** So a least solution of the matrix is a solved plan, and the other way round. */
  lemma LeastSolutionsAreSolvedPlans(c: Costs, limits: Limits, scale: real, s: seq<Choice>)
    requires ValidCosts(c) && ValidLimits(c, limits) && scale > 0.0 && WellFormed(c, s)
    ensures LeastSolution(c, limits, scale, EncodedPlan(c, s)) <==> Solved(c, limits, scale, s)
  {
    hide LimitRows, DominatedOff, Feasible, Undominated, ChoiceRows, Encoded, ObjectiveOf, TotalDamage, Rewritten;
    PlansSatisfyRows(c, limits, s);
    RewrittenObjective(c, scale, s);
    if Solved(c, limits, scale, s) {
      forall ws | Satisfies(c, limits, ws)
        ensures ObjectiveOf(Rewritten(c, scale), EncodedPlan(c, s), |s|) <= ObjectiveOf(Rewritten(c, scale), ws, |ws|)
      {
        var t := RowsAreChoices(c, ws, |ws|);
        assert ws == EncodedPlan(c, t);
        PlansSatisfyRows(c, limits, t);
        RewrittenObjective(c, scale, t);
      }
    }
    if LeastSolution(c, limits, scale, EncodedPlan(c, s)) {
      LeastIsSolved(c, limits, scale, s);
    }
  }

  lemma LeastIsSolved(c: Costs, limits: Limits, scale: real, s: seq<Choice>)
    requires ValidCosts(c) && ValidLimits(c, limits) && scale > 0.0 && WellFormed(c, s)
    requires LeastSolution(c, limits, scale, EncodedPlan(c, s))
    ensures Solved(c, limits, scale, s)
  {
    hide LimitRows, DominatedOff, Undominated, ChoiceRows, Encoded, ObjectiveOf, TotalDamage, Rewritten;
    PlansSatisfyRows(c, limits, s);
    RewrittenObjective(c, scale, s);
    forall t | Feasible(c, limits, t) && Undominated(c, t)
      ensures TotalDamage(Rewritten(c, scale), s, |s|) <= TotalDamage(Rewritten(c, scale), t, |t|)
    {
      PlansSatisfyRows(c, limits, t);
      RewrittenObjective(c, scale, t);
      assert Satisfies(c, limits, EncodedPlan(c, t));
    }
  }
}
