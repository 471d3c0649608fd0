/** One routed MoE call (tools/memra_cpu_experts.cpp): a parallel region whose worksharing loops run
    their tasks in any order while reads land, against the serial computation. Float operations are
    arbitrary functions, so nothing may be reassociated. */
module MoeCall {
  import opened Options

  type Byte = bv8
  type Weights = seq<Byte>

  datatype Projection = Gate | Up | Down

  /** The arithmetic of a call, with its input and scales built in: row dots of the gate and up
      projections, the SwiGLU of an expert's column, the quantizer and its finite flag, row dots of the
      down projection, and the accumulation. */
  datatype Ops<!F, !Q> = Ops(
    gateDot: (nat, Weights, nat) -> F,
    upDot: (nat, Weights, nat) -> F,
    swiglu: (nat, F, F) -> F,
    quantize: seq<F> -> Q,
    finite: seq<F> -> bool,
    downDot: (nat, Weights, seq<F>, Q, nat) -> F,
    scale: nat -> F,
    fma: (F, F, F) -> F,
    zero: F)

  type Source = (nat, Projection) -> Weights

  datatype Shape = Shape(experts: nat, ff: nat, embd: nat)

  // ----- the serial computation -----

  function GateAt<F, Q>(ops: Ops<F, Q>, src: Source, e: nat, row: nat): F {
    ops.gateDot(e, src(e, Gate), row)
  }

  function UpAt<F, Q>(ops: Ops<F, Q>, src: Source, e: nat, row: nat): F {
    ops.upDot(e, src(e, Up), row)
  }

  function ActivationAt<F, Q>(ops: Ops<F, Q>, src: Source, e: nat, column: nat): F {
    ops.swiglu(e, GateAt(ops, src, e, column), UpAt(ops, src, e, column))
  }

  function Activation<F, Q>(ops: Ops<F, Q>, src: Source, shape: Shape, e: nat): seq<F> {
    seq(shape.ff, (column: nat) => ActivationAt(ops, src, e, column))
  }

  function DownAt<F, Q>(ops: Ops<F, Q>, src: Source, shape: Shape, e: nat, row: nat): F {
    var activation := Activation(ops, src, shape, e);
    ops.downDot(e, src(e, Down), activation, ops.quantize(activation), row)
  }

  /** The experts' contributions in index order. */
  function OutputAt<F, Q>(ops: Ops<F, Q>, src: Source, shape: Shape, row: nat, n: nat): F {
    if n == 0 then ops.zero
    else ops.fma(DownAt(ops, src, shape, n - 1, row), ops.scale(n - 1), OutputAt(ops, src, shape, row, n - 1))
  }

  function Output<F, Q>(ops: Ops<F, Q>, src: Source, shape: Shape): seq<F> {
    seq(shape.embd, (row: nat) => OutputAt(ops, src, shape, row, shape.experts))
  }

  // ----- the parallel region -----

  /** The two subsets go through the same four loops; the wait for the reads lies between them. */
  datatype Phase = Stage(missing: bool, loop: nat) | Waiting | Accumulating | Finished

  /** The call's working arrays, indexed by expert first; `weights` are the buffers the reads fill. */
  datatype State<F, Q> = State(
    phase: Phase, done: set<nat>,
    weights: Source, inFlight: set<(nat, Projection)>, failed: bool,
    gate: seq<seq<F>>, up: seq<seq<F>>, activation: seq<seq<F>>, quantized: seq<Q>, finite: seq<bool>,
    down: seq<seq<F>>, output: seq<F>)

  datatype Call = Call(shape: Shape, cached: seq<nat>, missing: seq<nat>)

  function Subset(call: Call, missing: bool): seq<nat> {
    if missing then call.missing else call.cached
  }

  /** How many tasks the current loop has. */
  function Tasks(call: Call, phase: Phase): nat {
    match phase
    case Stage(missing, loop) =>
      var n := |Subset(call, missing)|;
      if loop == 0 then n * (call.shape.ff * 2)
      else if loop == 1 then n * call.shape.ff
      else if loop == 2 then n
      else n * call.shape.embd
    case Waiting => 0
    case Accumulating => call.shape.embd
    case Finished => 0
  }

  ghost predicate Sized<F>(rows: seq<seq<F>>, n: nat, width: nat) {
    |rows| == n && forall e | 0 <= e < n :: |rows[e]| == width
  }

  ghost predicate Shaped<F, Q>(call: Call, s: State<F, Q>) {
    var shape := call.shape;
    && Sized(s.gate, shape.experts, shape.ff) && Sized(s.up, shape.experts, shape.ff)
    && Sized(s.activation, shape.experts, shape.ff) && Sized(s.down, shape.experts, shape.embd)
    && |s.quantized| == |s.finite| == shape.experts && |s.output| == shape.embd
    && (s.phase.Stage? ==> s.phase.loop < 4)
  }

  ghost predicate ValidCall(call: Call) {
    && call.shape.ff > 0 && call.shape.embd > 0
    && (forall i | 0 <= i < |call.cached| :: call.cached[i] < call.shape.experts)
    && (forall i | 0 <= i < |call.missing| :: call.missing[i] < call.shape.experts)
    && (forall e: nat | e < call.shape.experts :: e in call.cached || e in call.missing)
  }

  // ----- tasks -----

  function Set<F>(rows: seq<seq<F>>, e: nat, i: nat, value: F): seq<seq<F>>
    requires e < |rows| && i < |rows[e]|
  {
    rows[e := rows[e][i := value]]
  }

  /** The sum of one output row, expert by expert. */
  function Sum<F, Q>(ops: Ops<F, Q>, down: seq<seq<F>>, row: nat, n: nat): F
    requires n <= |down| && forall e | 0 <= e < n :: row < |down[e]|
  {
    if n == 0 then ops.zero else ops.fma(down[n - 1][row], ops.scale(n - 1), Sum(ops, down, row, n - 1))
  }

  /** A task of a loop over (expert of the subset, index): which expert and which index. */
  function Owner(call: Call, missing: bool, t: nat, width: nat): nat
    requires ValidCall(call) && t < |Subset(call, missing)| * width
    ensures width > 0 && Owner(call, missing, t, width) < call.shape.experts
  {
    InRange(t, |Subset(call, missing)|, width);
    Subset(call, missing)[t / width]
  }

  lemma InRange(t: nat, n: nat, width: nat)
    requires t < n * width
    ensures n > 0 && width > 0 && t / width < n
  {
    Grows(0, n, width);
    var q := t / width;
    assert t == q * width + t % width;
    if q >= n {
      Grows(n, q, width);
    }
  }

  lemma Grows(a: nat, b: nat, width: nat)
    requires a <= b
    ensures a * width <= b * width
  {
  }

  /** One iteration of the current loop. */
  function DoTask<F, Q>(ops: Ops<F, Q>, call: Call, s: State<F, Q>, t: nat): State<F, Q>
    requires ValidCall(call) && Shaped(call, s) && t < Tasks(call, s.phase)
  {
    var shape := call.shape;
    var n := s.(done := s.done + {t});
    match s.phase
    case Stage(missing, loop) =>
      if loop == 0 then
        var e := Owner(call, missing, t, shape.ff * 2);
        var local := t % (shape.ff * 2);
        var row := local % shape.ff;
        if local >= shape.ff then n.(up := Set(s.up, e, row, ops.upDot(e, s.weights(e, Up), row)))
        else n.(gate := Set(s.gate, e, row, ops.gateDot(e, s.weights(e, Gate), row)))
      else if loop == 1 then
        var e, column := Owner(call, missing, t, shape.ff), t % shape.ff;
        n.(activation := Set(s.activation, e, column, ops.swiglu(e, s.gate[e][column], s.up[e][column])))
      else if loop == 2 then
        var e := Subset(call, missing)[t];
        n.(quantized := s.quantized[e := ops.quantize(s.activation[e])],
           finite := s.finite[e := ops.finite(s.activation[e])])
      else
        var e, row := Owner(call, missing, t, shape.embd), t % shape.embd;
        n.(down := Set(s.down, e, row, ops.downDot(e, s.weights(e, Down), s.activation[e], s.quantized[e], row)))
    case Accumulating => n.(output := s.output[t := Sum(ops, s.down, t, shape.experts)])
    case _ => n
  }

  function NextPhase(phase: Phase): Phase {
    match phase
    case Stage(missing, loop) =>
      if loop < 3 then Stage(missing, loop + 1) else if missing then Accumulating else Waiting
    case Waiting => Stage(true, 0)
    case Accumulating => Finished
    case Finished => Finished
  }

  datatype Action =
    | Task(t: nat)
    | Advance
    | Arrive(expert: nat, projection: Projection, bytes: Weights)
    | Land(expert: nat, projection: Projection)
    | Fail(expert: nat, projection: Projection)

  /** Loop iterations in any order, barriers between loops, and reads that change their buffers until
      they land. The wait is over when no read is in flight. */
  ghost function Apply<F, Q>(ops: Ops<F, Q>, call: Call, src: Source, s: State<F, Q>, a: Action): Option<State<F, Q>>
    requires ValidCall(call) && Shaped(call, s)
  {
    match a
    case Task(t) => if t < Tasks(call, s.phase) && t !in s.done then Some(DoTask(ops, call, s, t)) else None
    case Advance =>
      if s.phase.Finished? || (exists t: nat :: t < Tasks(call, s.phase) && t !in s.done)
         || (s.phase.Waiting? && s.inFlight != {}) then None
      else Some(s.(phase := NextPhase(s.phase), done := {}))
    case Arrive(e, p, bytes) =>
      if (e, p) in s.inFlight then
        Some(s.(weights := (x: nat, y: Projection) => if x == e && y == p then bytes else s.weights(x, y)))
      else None
    case Land(e, p) =>
      if (e, p) in s.inFlight && s.weights(e, p) == src(e, p) then Some(s.(inFlight := s.inFlight - {(e, p)})) else None
    case Fail(e, p) =>
      if (e, p) in s.inFlight then Some(s.(inFlight := s.inFlight - {(e, p)}, failed := true)) else None
  }

  // ----- what each loop leaves behind -----

  ghost predicate GateRow<F, Q>(ops: Ops<F, Q>, src: Source, s: State<F, Q>, e: nat, row: nat) {
    && e < |s.gate| && row < |s.gate[e]| && s.gate[e][row] == GateAt(ops, src, e, row)
  }

  ghost predicate UpRow<F, Q>(ops: Ops<F, Q>, src: Source, s: State<F, Q>, e: nat, row: nat) {
    && e < |s.up| && row < |s.up[e]| && s.up[e][row] == UpAt(ops, src, e, row)
  }

  ghost predicate ActivationRow<F, Q>(ops: Ops<F, Q>, src: Source, s: State<F, Q>, e: nat, column: nat) {
    && e < |s.activation| && column < |s.activation[e]| && s.activation[e][column] == ActivationAt(ops, src, e, column)
  }

  ghost predicate QuantizedRight<F, Q>(ops: Ops<F, Q>, src: Source, shape: Shape, s: State<F, Q>, e: nat) {
    && e < |s.quantized| && e < |s.finite|
    && s.quantized[e] == ops.quantize(Activation(ops, src, shape, e))
    && s.finite[e] == ops.finite(Activation(ops, src, shape, e))
  }

  ghost predicate DownRow<F, Q>(ops: Ops<F, Q>, src: Source, shape: Shape, s: State<F, Q>, e: nat, row: nat) {
    && e < |s.down| && row < |s.down[e]| && s.down[e][row] == DownAt(ops, src, shape, e, row)
  }

  /** Expert `e` has been through `loops` of the four loops. */
  ghost predicate Right<F, Q>(ops: Ops<F, Q>, src: Source, shape: Shape, s: State<F, Q>, e: nat, loops: nat) {
    && (loops >= 1 ==> forall row: nat | row < shape.ff :: GateRow(ops, src, s, e, row) && UpRow(ops, src, s, e, row))
    && (loops >= 2 ==> forall column: nat | column < shape.ff :: ActivationRow(ops, src, s, e, column))
    && (loops >= 3 ==> QuantizedRight(ops, src, shape, s, e))
    && (loops >= 4 ==> forall row: nat | row < shape.embd :: DownRow(ops, src, shape, s, e, row))
  }

  ghost predicate OutputRow<F, Q>(ops: Ops<F, Q>, src: Source, shape: Shape, s: State<F, Q>, row: nat) {
    row < |s.output| && s.output[row] == OutputAt(ops, src, shape, row, shape.experts)
  }

  /** What a finished task of the current loop wrote. */
  ghost predicate TaskRight<F, Q>(ops: Ops<F, Q>, call: Call, src: Source, s: State<F, Q>, t: nat)
    requires ValidCall(call) && t < Tasks(call, s.phase) && (s.phase.Stage? ==> s.phase.loop < 4)
  {
    var shape := call.shape;
    match s.phase
    case Stage(missing, loop) =>
      if loop == 0 then
        var e, local := Owner(call, missing, t, shape.ff * 2), t % (shape.ff * 2);
        if local >= shape.ff then UpRow(ops, src, s, e, local % shape.ff) else GateRow(ops, src, s, e, local % shape.ff)
      else if loop == 1 then ActivationRow(ops, src, s, Owner(call, missing, t, shape.ff), t % shape.ff)
      else if loop == 2 then QuantizedRight(ops, src, shape, s, Subset(call, missing)[t])
      else DownRow(ops, src, shape, s, Owner(call, missing, t, shape.embd), t % shape.embd)
    case Accumulating => OutputRow(ops, src, shape, s, t)
    case _ => true
  }

  ghost predicate AllRight<F, Q>(ops: Ops<F, Q>, src: Source, shape: Shape, s: State<F, Q>,
                               experts: seq<nat>, loops: nat) {
    forall i | 0 <= i < |experts| :: Right(ops, src, shape, s, experts[i], loops)
  }

  ghost predicate Reads<F, Q>(call: Call, src: Source, s: State<F, Q>) {
    && (forall e: nat, p: Projection | (e, p) !in s.inFlight :: s.weights(e, p) == src(e, p))
    && (forall i, p: Projection | 0 <= i < |call.cached| :: (call.cached[i], p) !in s.inFlight)
  }

  ghost predicate PhaseRight<F, Q>(ops: Ops<F, Q>, call: Call, src: Source, s: State<F, Q>) {
    match s.phase
    case Stage(missing, loop) =>
      && AllRight(ops, src, call.shape, s, Subset(call, missing), loop)
      && (missing ==> s.inFlight == {} && AllRight(ops, src, call.shape, s, call.cached, 4))
    case Waiting => AllRight(ops, src, call.shape, s, call.cached, 4)
    case Accumulating => forall e: nat | e < call.shape.experts :: Right(ops, src, call.shape, s, e, 4)
    case Finished =>
      && (forall e: nat | e < call.shape.experts :: Right(ops, src, call.shape, s, e, 4))
      && (forall row: nat | row < call.shape.embd :: OutputRow(ops, src, call.shape, s, row))
  }

  ghost predicate TasksRight<F, Q>(ops: Ops<F, Q>, call: Call, src: Source, s: State<F, Q>)
    requires ValidCall(call) && Shaped(call, s)
  {
    forall t: nat | t in s.done && t < Tasks(call, s.phase) :: TaskRight(ops, call, src, s, t)
  }

  /** As long as no read has failed, everything computed so far is what the serial order computes. */
  ghost predicate Inv<F, Q>(ops: Ops<F, Q>, call: Call, src: Source, s: State<F, Q>) {
    && ValidCall(call) && Shaped(call, s)
    && (!s.failed ==> Reads(call, src, s) && PhaseRight(ops, call, src, s) && TasksRight(ops, call, src, s))
  }

  // ----- tasks write what the serial computation computes -----

  /** Whatever was right stays right. */
  ghost predicate Better<F(!new), Q>(ops: Ops<F, Q>, src: Source, shape: Shape, a: State<F, Q>, b: State<F, Q>) {
    && (forall e: nat, i: nat | GateRow(ops, src, a, e, i) :: GateRow(ops, src, b, e, i))
    && (forall e: nat, i: nat | UpRow(ops, src, a, e, i) :: UpRow(ops, src, b, e, i))
    && (forall e: nat, i: nat | ActivationRow(ops, src, a, e, i) :: ActivationRow(ops, src, b, e, i))
    && (forall e: nat | QuantizedRight(ops, src, shape, a, e) :: QuantizedRight(ops, src, shape, b, e))
    && (forall e: nat, i: nat | DownRow(ops, src, shape, a, e, i) :: DownRow(ops, src, shape, b, e, i))
    && (forall i: nat | OutputRow(ops, src, shape, a, i) :: OutputRow(ops, src, shape, b, i))
  }

  lemma OwnerIsIn(call: Call, missing: bool, t: nat, width: nat) returns (i: nat)
    requires ValidCall(call) && t < |Subset(call, missing)| * width
    ensures width > 0 && i < |Subset(call, missing)| && Owner(call, missing, t, width) == Subset(call, missing)[i]
  {
    InRange(t, |Subset(call, missing)|, width);
    i := t / width;
  }

  lemma WeightsReady<F, Q>(ops: Ops<F, Q>, call: Call, src: Source, s: State<F, Q>, i: nat)
    requires Inv(ops, call, src, s) && !s.failed && s.phase.Stage? && i < |Subset(call, s.phase.missing)|
    ensures forall p: Projection ::
              s.weights(Subset(call, s.phase.missing)[i], p) == src(Subset(call, s.phase.missing)[i], p)
  {
    hide TasksRight, AllRight;
  }

  lemma SubsetRight<F, Q>(ops: Ops<F, Q>, call: Call, src: Source, s: State<F, Q>, i: nat)
    requires Inv(ops, call, src, s) && !s.failed && s.phase.Stage? && i < |Subset(call, s.phase.missing)|
    ensures Right(ops, src, call.shape, s, Subset(call, s.phase.missing)[i], s.phase.loop)
  {
    hide TasksRight, Right, Reads;
  }

  /** A dot task of the gate or up projection. */
  lemma DotTask<F(!new), Q>(ops: Ops<F, Q>, call: Call, src: Source, s: State<F, Q>, t: nat)
    requires Inv(ops, call, src, s) && !s.failed && s.phase.Stage? && s.phase.loop == 0 && t < Tasks(call, s.phase)
    ensures var next := DoTask(ops, call, s, t);
            Better(ops, src, call.shape, s, next) && TaskRight(ops, call, src, next, t)
  {
    hide PhaseRight, TasksRight, Reads, Owner;
    var i := OwnerIsIn(call, s.phase.missing, t, call.shape.ff * 2);
    WeightsReady(ops, call, src, s, i);
  }

  lemma SwigluTask<F(!new), Q>(ops: Ops<F, Q>, call: Call, src: Source, s: State<F, Q>, t: nat)
    requires Inv(ops, call, src, s) && !s.failed && s.phase.Stage? && s.phase.loop == 1 && t < Tasks(call, s.phase)
    ensures var next := DoTask(ops, call, s, t);
            Better(ops, src, call.shape, s, next) && TaskRight(ops, call, src, next, t)
  {
    hide PhaseRight, TasksRight, Reads, Owner;
    var i := OwnerIsIn(call, s.phase.missing, t, call.shape.ff);
    SubsetRight(ops, call, src, s, i);
    var e, column := Owner(call, s.phase.missing, t, call.shape.ff), t % call.shape.ff;
    assert GateRow(ops, src, s, e, column) && UpRow(ops, src, s, e, column);
  }

  lemma ActivationIs<F, Q>(ops: Ops<F, Q>, call: Call, src: Source, s: State<F, Q>, e: nat)
    requires Shaped(call, s) && e < call.shape.experts
    requires forall column: nat | column < call.shape.ff :: ActivationRow(ops, src, s, e, column)
    ensures s.activation[e] == Activation(ops, src, call.shape, e)
  {
    hide ActivationAt;
    forall column: nat | column < call.shape.ff
      ensures s.activation[e][column] == Activation(ops, src, call.shape, e)[column]
    {
      assert ActivationRow(ops, src, s, e, column);
    }
  }

  lemma QuantizeTask<F(!new), Q>(ops: Ops<F, Q>, call: Call, src: Source, s: State<F, Q>, t: nat)
    requires Inv(ops, call, src, s) && !s.failed && s.phase.Stage? && s.phase.loop == 2 && t < Tasks(call, s.phase)
    ensures var next := DoTask(ops, call, s, t);
            Better(ops, src, call.shape, s, next) && TaskRight(ops, call, src, next, t)
  {
    hide PhaseRight, TasksRight, Reads, Activation;
    SubsetRight(ops, call, src, s, t);
    ActivationIs(ops, call, src, s, Subset(call, s.phase.missing)[t]);
  }

  lemma DownTask<F(!new), Q>(ops: Ops<F, Q>, call: Call, src: Source, s: State<F, Q>, t: nat)
    requires Inv(ops, call, src, s) && !s.failed && s.phase.Stage? && s.phase.loop == 3 && t < Tasks(call, s.phase)
    ensures var next := DoTask(ops, call, s, t);
            Better(ops, src, call.shape, s, next) && TaskRight(ops, call, src, next, t)
  {
    hide PhaseRight, TasksRight, Reads, Owner, Activation;
    var i := OwnerIsIn(call, s.phase.missing, t, call.shape.embd);
    SubsetRight(ops, call, src, s, i);
    WeightsReady(ops, call, src, s, i);
    ActivationIs(ops, call, src, s, Owner(call, s.phase.missing, t, call.shape.embd));
  }

  lemma {:induction false} SumIs<F, Q>(ops: Ops<F, Q>, src: Source, shape: Shape, s: State<F, Q>, row: nat, n: nat)
    requires n <= |s.down| && forall e: nat | e < n :: row < |s.down[e]| && DownRow(ops, src, shape, s, e, row)
    ensures Sum(ops, s.down, row, n) == OutputAt(ops, src, shape, row, n)
  {
    if n == 0 {
    } else {
      hide DownAt;
      SumIs(ops, src, shape, s, row, n - 1);
      assert DownRow(ops, src, shape, s, n - 1, row);
    }
  }

  lemma AccumulateTask<F(!new), Q>(ops: Ops<F, Q>, call: Call, src: Source, s: State<F, Q>, t: nat)
    requires Inv(ops, call, src, s) && !s.failed && s.phase.Accumulating? && t < Tasks(call, s.phase)
    ensures var next := DoTask(ops, call, s, t);
            Better(ops, src, call.shape, s, next) && TaskRight(ops, call, src, next, t)
  {
    hide TasksRight, Reads, Sum, OutputAt, DownAt;
    forall e: nat | e < call.shape.experts ensures DownRow(ops, src, call.shape, s, e, t) {
      assert Right(ops, src, call.shape, s, e, 4);
    }
    SumIs(ops, src, call.shape, s, t, call.shape.experts);
  }

  lemma TaskIsRight<F(!new), Q>(ops: Ops<F, Q>, call: Call, src: Source, s: State<F, Q>, t: nat)
    requires Inv(ops, call, src, s) && !s.failed && t < Tasks(call, s.phase)
    ensures var next := DoTask(ops, call, s, t);
            Better(ops, src, call.shape, s, next) && TaskRight(ops, call, src, next, t)
  {
    hide Inv, DoTask, Better, TaskRight;
    InvShape(ops, call, src, s);
    match s.phase
    case Stage(missing, loop) =>
      if loop == 0 {
        DotTask(ops, call, src, s, t);
      } else if loop == 1 {
        SwigluTask(ops, call, src, s, t);
      } else if loop == 2 {
        QuantizeTask(ops, call, src, s, t);
      } else {
        DownTask(ops, call, src, s, t);
      }
    case Accumulating => AccumulateTask(ops, call, src, s, t);
    case _ =>
  }

  lemma InvShape<F, Q>(ops: Ops<F, Q>, call: Call, src: Source, s: State<F, Q>)
    requires Inv(ops, call, src, s)
    ensures ValidCall(call) && Shaped(call, s)
  {
  }

  lemma TaskShape<F, Q>(ops: Ops<F, Q>, call: Call, s: State<F, Q>, t: nat)
    requires ValidCall(call) && Shaped(call, s) && t < Tasks(call, s.phase)
    ensures var next := DoTask(ops, call, s, t);
            && Shaped(call, next) && next.phase == s.phase && next.done == s.done + {t}
            && next.weights == s.weights && next.inFlight == s.inFlight && next.failed == s.failed
  {
    hide Sum;
    match s.phase
    case Stage(missing, loop) => StageTaskShape(ops, call, s, t);
    case _ =>
  }

  lemma StageTaskShape<F, Q>(ops: Ops<F, Q>, call: Call, s: State<F, Q>, t: nat)
    requires ValidCall(call) && Shaped(call, s) && t < Tasks(call, s.phase) && s.phase.Stage?
    ensures var next := DoTask(ops, call, s, t);
            && Shaped(call, next) && next.phase == s.phase && next.done == s.done + {t}
            && next.weights == s.weights && next.inFlight == s.inFlight && next.failed == s.failed
  {
    hide Sum;
  }

  lemma BetterKeepsRight<F(!new), Q>(ops: Ops<F, Q>, src: Source, shape: Shape,
                                         a: State<F, Q>, b: State<F, Q>, e: nat, loops: nat)
    requires Better(ops, src, shape, a, b) && Right(ops, src, shape, a, e, loops)
    ensures Right(ops, src, shape, b, e, loops)
  {
    hide GateRow, UpRow, ActivationRow, QuantizedRight, DownRow, OutputRow;
  }

  lemma BetterKeepsTask<F(!new), Q>(ops: Ops<F, Q>, call: Call, src: Source, a: State<F, Q>, b: State<F, Q>, t: nat)
    requires ValidCall(call) && a.phase == b.phase && t < Tasks(call, a.phase) && (a.phase.Stage? ==> a.phase.loop < 4)
    requires Better(ops, src, call.shape, a, b) && TaskRight(ops, call, src, a, t)
    ensures TaskRight(ops, call, src, b, t)
  {
    hide GateRow, UpRow, ActivationRow, QuantizedRight, DownRow, OutputRow, Owner;
    match a.phase
    case Stage(missing, loop) =>
      if loop == 0 {
        var i := OwnerIsIn(call, missing, t, call.shape.ff * 2);
      } else if loop == 1 {
        var i := OwnerIsIn(call, missing, t, call.shape.ff);
      } else if loop == 3 {
        var i := OwnerIsIn(call, missing, t, call.shape.embd);
      }
    case _ =>
  }

  lemma BetterKeepsPhase<F(!new), Q>(ops: Ops<F, Q>, call: Call, src: Source, a: State<F, Q>, b: State<F, Q>)
    requires PhaseRight(ops, call, src, a) && Better(ops, src, call.shape, a, b)
    requires a.phase == b.phase && a.inFlight == b.inFlight
    ensures PhaseRight(ops, call, src, b)
  {
    hide Right, Better, OutputRow;
    forall e: nat, loops: nat | Right(ops, src, call.shape, a, e, loops)
      ensures Right(ops, src, call.shape, b, e, loops) {
      BetterKeepsRight(ops, src, call.shape, a, b, e, loops);
    }
    BetterKeepsOutput(ops, src, call.shape, a, b);
  }

  lemma BetterKeepsOutput<F(!new), Q>(ops: Ops<F, Q>, src: Source, shape: Shape, a: State<F, Q>, b: State<F, Q>)
    requires Better(ops, src, shape, a, b)
    ensures forall i: nat | OutputRow(ops, src, shape, a, i) :: OutputRow(ops, src, shape, b, i)
  {
  }

  lemma TaskKeepsInv<F(!new), Q>(ops: Ops<F, Q>, call: Call, src: Source, s: State<F, Q>, t: nat)
    requires Inv(ops, call, src, s) && t < Tasks(call, s.phase)
    ensures Inv(ops, call, src, DoTask(ops, call, s, t))
  {
    hide DoTask, PhaseRight, TaskRight, Better, Tasks;
    TaskShape(ops, call, s, t);
    if !s.failed {
      var next := DoTask(ops, call, s, t);
      TaskIsRight(ops, call, src, s, t);
      BetterKeepsPhase(ops, call, src, s, next);
      forall u: nat | u in next.done && u < Tasks(call, next.phase) ensures TaskRight(ops, call, src, next, u) {
        if u != t {
          BetterKeepsTask(ops, call, src, s, next, u);
        }
      }
    }
  }

  // ----- barriers -----

  lemma NotPositive(x: int, width: nat)
    requires x <= 0
    ensures x * width <= 0
  {
  }

  lemma Between(a: int, width: nat)
    requires 0 < a * width + width && a * width < width
    ensures a == 0
  {
    if a >= 1 {
      Grows(1, a, width);
    } else if a <= -1 {
      NotPositive(a + 1, width);
    }
  }

  /** Every (expert of the subset, index) pair is some task. */
  lemma PairIsTask(i: nat, index: nat, n: nat, width: nat) returns (t: nat)
    requires i < n && index < width
    ensures t < n * width && t / width == i && t % width == index
  {
    t := i * width + index;
    Grows(i + 1, n, width);
    assert (i + 1) * width == i * width + width;
    var q, r := t / width, t % width;
    assert t == q * width + r;
    assert (q - i) * width == q * width - i * width;
    Between(q - i, width);
  }

  lemma DotsDone<F(!new), Q>(ops: Ops<F, Q>, call: Call, src: Source, s: State<F, Q>, i: nat, row: nat)
    requires ValidCall(call) && s.phase.Stage? && s.phase.loop == 0
    requires i < |Subset(call, s.phase.missing)| && row < call.shape.ff
    requires forall t: nat | t < Tasks(call, s.phase) :: TaskRight(ops, call, src, s, t)
    ensures var e := Subset(call, s.phase.missing)[i]; GateRow(ops, src, s, e, row) && UpRow(ops, src, s, e, row)
  {
    hide GateRow, UpRow;
    var ff, n := call.shape.ff, |Subset(call, s.phase.missing)|;
    var gate := PairIsTask(i, row, n, ff * 2);
    assert TaskRight(ops, call, src, s, gate);
    var up := PairIsTask(i, ff + row, n, ff * 2);
    assert TaskRight(ops, call, src, s, up);
    SecondHalf(row, ff);
  }

  lemma SecondHalf(row: nat, ff: nat)
    requires row < ff
    ensures row % ff == row && (ff + row) % ff == row
  {
    var q, r := (ff + row) / ff, (ff + row) % ff;
    assert ff + row == q * ff + r;
    assert (q - 1) * ff == q * ff - ff;
    Between(q - 1, ff);
    var a, b := row / ff, row % ff;
    assert row == a * ff + b;
    Between(a, ff);
  }

  lemma SwigluDone<F(!new), Q>(ops: Ops<F, Q>, call: Call, src: Source, s: State<F, Q>, i: nat, column: nat)
    requires ValidCall(call) && s.phase.Stage? && s.phase.loop == 1
    requires i < |Subset(call, s.phase.missing)| && column < call.shape.ff
    requires forall t: nat | t < Tasks(call, s.phase) :: TaskRight(ops, call, src, s, t)
    ensures ActivationRow(ops, src, s, Subset(call, s.phase.missing)[i], column)
  {
    hide ActivationRow;
    var t := PairIsTask(i, column, |Subset(call, s.phase.missing)|, call.shape.ff);
    assert TaskRight(ops, call, src, s, t);
  }

  lemma DownDone<F(!new), Q>(ops: Ops<F, Q>, call: Call, src: Source, s: State<F, Q>, i: nat, row: nat)
    requires ValidCall(call) && s.phase.Stage? && s.phase.loop == 3
    requires i < |Subset(call, s.phase.missing)| && row < call.shape.embd
    requires forall t: nat | t < Tasks(call, s.phase) :: TaskRight(ops, call, src, s, t)
    ensures DownRow(ops, src, call.shape, s, Subset(call, s.phase.missing)[i], row)
  {
    hide DownRow;
    var t := PairIsTask(i, row, |Subset(call, s.phase.missing)|, call.shape.embd);
    assert TaskRight(ops, call, src, s, t);
  }

  /** When every task of a loop is done, every expert of the subset is through one more loop. */
  lemma LoopDone<F(!new), Q>(ops: Ops<F, Q>, call: Call, src: Source, s: State<F, Q>)
    requires ValidCall(call) && s.phase.Stage? && s.phase.loop < 4
    requires AllRight(ops, src, call.shape, s, Subset(call, s.phase.missing), s.phase.loop)
    requires forall t: nat | t < Tasks(call, s.phase) :: TaskRight(ops, call, src, s, t)
    ensures AllRight(ops, src, call.shape, s, Subset(call, s.phase.missing), s.phase.loop + 1)
  {
    hide GateRow, UpRow, ActivationRow, QuantizedRight, DownRow;
    var subset, loop := Subset(call, s.phase.missing), s.phase.loop;
    forall i | 0 <= i < |subset| ensures Right(ops, src, call.shape, s, subset[i], loop + 1) {
      assert Right(ops, src, call.shape, s, subset[i], loop);
      if loop == 0 {
        forall row: nat | row < call.shape.ff
          ensures GateRow(ops, src, s, subset[i], row) && UpRow(ops, src, s, subset[i], row) {
          DotsDone(ops, call, src, s, i, row);
        }
      } else if loop == 1 {
        forall column: nat | column < call.shape.ff ensures ActivationRow(ops, src, s, subset[i], column) {
          SwigluDone(ops, call, src, s, i, column);
        }
      } else if loop == 2 {
        assert TaskRight(ops, call, src, s, i);
      } else {
        forall row: nat | row < call.shape.embd ensures DownRow(ops, src, call.shape, s, subset[i], row) {
          DownDone(ops, call, src, s, i, row);
        }
      }
    }
  }

  /** `Right` looks only at the arrays. */
  lemma SameArrays<F, Q>(ops: Ops<F, Q>, src: Source, shape: Shape,
                         a: State<F, Q>, b: State<F, Q>, experts: seq<nat>, loops: nat)
    requires AllRight(ops, src, shape, a, experts, loops)
    requires b == a.(phase := b.phase, done := b.done, weights := b.weights, inFlight := b.inFlight, failed := b.failed)
    ensures AllRight(ops, src, shape, b, experts, loops)
  {
    hide Activation, ActivationAt, DownAt, GateAt, UpAt;
    forall i | 0 <= i < |experts| ensures Right(ops, src, shape, b, experts[i], loops) {
      assert Right(ops, src, shape, a, experts[i], loops);
      SameExpert(ops, src, shape, a, b, experts[i], loops);
    }
  }

  lemma SameExpert<F, Q>(ops: Ops<F, Q>, src: Source, shape: Shape, a: State<F, Q>, b: State<F, Q>, e: nat, loops: nat)
    requires Right(ops, src, shape, a, e, loops)
    requires b == a.(phase := b.phase, done := b.done, weights := b.weights, inFlight := b.inFlight, failed := b.failed)
    ensures Right(ops, src, shape, b, e, loops)
  {
    hide Activation, ActivationAt, DownAt, GateAt, UpAt;
    forall row: nat | loops >= 1 && row < shape.ff ensures GateRow(ops, src, b, e, row) && UpRow(ops, src, b, e, row) {
      assert GateRow(ops, src, a, e, row) && UpRow(ops, src, a, e, row);
    }
    forall column: nat | loops >= 2 && column < shape.ff ensures ActivationRow(ops, src, b, e, column) {
      assert ActivationRow(ops, src, a, e, column);
    }
    forall row: nat | loops >= 4 && row < shape.embd ensures DownRow(ops, src, shape, b, e, row) {
      assert DownRow(ops, src, shape, a, e, row);
    }
  }

  lemma AdvanceKeepsInv<F(!new), Q>(ops: Ops<F, Q>, call: Call, src: Source, s: State<F, Q>)
    requires Inv(ops, call, src, s) && Apply(ops, call, src, s, Advance).Some?
    ensures Inv(ops, call, src, Apply(ops, call, src, s, Advance).value)
  {
    hide Right, TaskRight, Tasks, DoTask, OutputRow;
    var next := s.(phase := NextPhase(s.phase), done := {});
    assert Shaped(call, next);
    if !s.failed {
      forall t: nat | t < Tasks(call, s.phase) ensures TaskRight(ops, call, src, s, t) {
        assert t in s.done;
      }
      AdvanceIsRight(ops, call, src, s, next);
    }
  }

  lemma NothingThrough<F, Q>(ops: Ops<F, Q>, src: Source, shape: Shape, s: State<F, Q>, experts: seq<nat>)
    ensures AllRight(ops, src, shape, s, experts, 0)
  {
  }

  lemma AdvanceIsRight<F(!new), Q>(ops: Ops<F, Q>, call: Call, src: Source, s: State<F, Q>, next: State<F, Q>)
    requires ValidCall(call) && Shaped(call, s) && PhaseRight(ops, call, src, s)
    requires next == s.(phase := NextPhase(s.phase), done := {})
    requires !s.phase.Finished? && (s.phase.Waiting? ==> s.inFlight == {})
    requires forall t: nat | t < Tasks(call, s.phase) :: TaskRight(ops, call, src, s, t)
    ensures PhaseRight(ops, call, src, next)
  {
    hide Right;
    match s.phase
    case Stage(missing, loop) =>
      hide TaskRight, Tasks, AllRight;
      LoopDone(ops, call, src, s);
      SameArrays(ops, src, call.shape, s, next, Subset(call, missing), loop + 1);
      if missing {
        SameArrays(ops, src, call.shape, s, next, call.cached, 4);
        if loop == 3 {
          Everyone(ops, call, src, next);
        }
      }
    case Waiting =>
      SameArrays(ops, src, call.shape, s, next, call.cached, 4);
      NothingThrough(ops, src, call.shape, next, call.missing);
    case Accumulating =>
      forall e: nat | e < call.shape.experts ensures Right(ops, src, call.shape, next, e, 4) {
        SameExpert(ops, src, call.shape, s, next, e, 4);
      }
      forall row: nat | row < call.shape.embd ensures OutputRow(ops, src, call.shape, next, row) {
        assert TaskRight(ops, call, src, s, row);
      }
  }

  lemma Everyone<F, Q>(ops: Ops<F, Q>, call: Call, src: Source, s: State<F, Q>)
    requires ValidCall(call)
    requires AllRight(ops, src, call.shape, s, call.cached, 4) && AllRight(ops, src, call.shape, s, call.missing, 4)
    ensures forall e: nat | e < call.shape.experts :: Right(ops, src, call.shape, s, e, 4)
  {
    hide Right;
    forall e: nat | e < call.shape.experts ensures Right(ops, src, call.shape, s, e, 4) {
      if e in call.cached {
        var i :| 0 <= i < |call.cached| && call.cached[i] == e;
      } else {
        var i :| 0 <= i < |call.missing| && call.missing[i] == e;
      }
    }
  }

  // ----- reads -----

  lemma ReadKeepsReads<F, Q>(ops: Ops<F, Q>, call: Call, src: Source, s: State<F, Q>, a: Action)
    requires ValidCall(call) && Shaped(call, s) && Reads(call, src, s) && (a.Arrive? || a.Land?)
    requires Apply(ops, call, src, s, a).Some?
    ensures Reads(call, src, Apply(ops, call, src, s, a).value)
  {
  }

  lemma ReadKeepsPhase<F, Q>(ops: Ops<F, Q>, call: Call, src: Source, s: State<F, Q>, next: State<F, Q>)
    requires PhaseRight(ops, call, src, s) && s.inFlight != {}
    requires next == s.(weights := next.weights, inFlight := next.inFlight, failed := next.failed)
    ensures PhaseRight(ops, call, src, next)
  {
    hide Right, AllRight, OutputAt;
    forall e: nat, loops: nat | Right(ops, src, call.shape, s, e, loops)
      ensures Right(ops, src, call.shape, next, e, loops) {
      SameExpert(ops, src, call.shape, s, next, e, loops);
    }
    match s.phase
    case Stage(missing, loop) => SameArrays(ops, src, call.shape, s, next, call.cached, loop);
    case Waiting => SameArrays(ops, src, call.shape, s, next, call.cached, 4);
    case Accumulating =>
    case Finished =>
      forall row: nat | row < call.shape.embd ensures OutputRow(ops, src, call.shape, next, row) {
        assert OutputRow(ops, src, call.shape, s, row);
      }
  }

  lemma ReadKeepsInv<F(!new), Q>(ops: Ops<F, Q>, call: Call, src: Source, s: State<F, Q>, a: Action)
    requires Inv(ops, call, src, s) && (a.Arrive? || a.Land? || a.Fail?) && Apply(ops, call, src, s, a).Some?
    ensures Inv(ops, call, src, Apply(ops, call, src, s, a).value)
  {
    hide TaskRight, Tasks, DoTask, PhaseRight, Reads;
    var next := Apply(ops, call, src, s, a).value;
    if !next.failed {
      ReadKeepsReads(ops, call, src, s, a);
      ReadKeepsPhase(ops, call, src, s, next);
      forall t: nat | t in next.done && t < Tasks(call, next.phase) ensures TaskRight(ops, call, src, next, t) {
        assert TaskRight(ops, call, src, s, t);
        SameTask(ops, call, src, s, next, t);
      }
    }
  }

  lemma SameTask<F(!new), Q>(ops: Ops<F, Q>, call: Call, src: Source, a: State<F, Q>, b: State<F, Q>, t: nat)
    requires ValidCall(call) && t < Tasks(call, a.phase) && (a.phase.Stage? ==> a.phase.loop < 4)
    requires TaskRight(ops, call, src, a, t)
    requires b == a.(weights := b.weights, inFlight := b.inFlight, failed := b.failed)
    ensures TaskRight(ops, call, src, b, t)
  {
    hide Activation, ActivationAt, DownAt, GateAt, UpAt, Owner, OutputAt;
    match a.phase
    case Stage(missing, loop) =>
      if loop == 0 {
        var i := OwnerIsIn(call, missing, t, call.shape.ff * 2);
      } else if loop == 1 {
        var i := OwnerIsIn(call, missing, t, call.shape.ff);
      } else if loop == 3 {
        var i := OwnerIsIn(call, missing, t, call.shape.embd);
      }
    case _ =>
  }

  // ----- whole calls -----

  lemma StepKeepsInv<F(!new), Q>(ops: Ops<F, Q>, call: Call, src: Source, s: State<F, Q>, a: Action)
    requires Inv(ops, call, src, s) && Apply(ops, call, src, s, a).Some?
    ensures Inv(ops, call, src, Apply(ops, call, src, s, a).value)
  {
    hide Inv, DoTask;
    InvShape(ops, call, src, s);
    match a
    case Task(t) => TaskKeepsInv(ops, call, src, s, t);
    case Advance => AdvanceKeepsInv(ops, call, src, s);
    case _ => ReadKeepsInv(ops, call, src, s, a);
  }

  /** A run stops where a step is not possible. */
  ghost function Execute<F, Q>(ops: Ops<F, Q>, call: Call, src: Source, s: State<F, Q>,
                              actions: seq<Action>): Option<State<F, Q>> {
    if actions == [] then Some(s)
    else
      match Execute(ops, call, src, s, actions[..|actions| - 1])
      case None => None
      case Some(before) =>
        if ValidCall(call) && Shaped(call, before) then Apply(ops, call, src, before, actions[|actions| - 1]) else None
  }

  /** The call enters the region: cached experts have their weights, reads are in flight for missing
      experts only, and the scratch arrays hold whatever an earlier call left there. */
  ghost predicate Entered<F, Q>(call: Call, src: Source, s: State<F, Q>) {
    ValidCall(call) && Shaped(call, s) && s.phase == Stage(false, 0) && s.done == {} && !s.failed && Reads(call, src, s)
  }

  lemma {:induction false} RunsKeepInv<F(!new), Q>(ops: Ops<F, Q>, call: Call, src: Source, s: State<F, Q>,
                              actions: seq<Action>)
    requires Entered(call, src, s) && Execute(ops, call, src, s, actions).Some?
    ensures Inv(ops, call, src, Execute(ops, call, src, s, actions).value)
  {
    if actions == [] {
      EnteredInv(ops, call, src, s);
    } else {
      hide Inv, Apply, Entered;
      var n := |actions| - 1;
      RunsKeepInv(ops, call, src, s, actions[..n]);
      StepKeepsInv(ops, call, src, Execute(ops, call, src, s, actions[..n]).value, actions[n]);
    }
  }

  /** Whatever the split into cached and missing experts, the order in which reads land and the order
      of the tasks inside each loop: a call that finishes without a failed read has written exactly the
      serial output, and its finite flags are the serial ones. */
  lemma EveryScheduleWritesTheSerialOutput<F(!new), Q>(ops: Ops<F, Q>, call: Call, src: Source, s: State<F, Q>,
                                                         actions: seq<Action>)
    requires Entered(call, src, s) && Execute(ops, call, src, s, actions).Some?
    ensures var end := Execute(ops, call, src, s, actions).value;
            end.phase.Finished? && !end.failed ==>
              && end.output == Output(ops, src, call.shape)
              && |end.finite| == call.shape.experts
              && forall e: nat | e < call.shape.experts ::
                   end.finite[e] == ops.finite(Activation(ops, src, call.shape, e))
  {
    hide Execute, Entered, Inv, Output;
    RunsKeepInv(ops, call, src, s, actions);
    var end := Execute(ops, call, src, s, actions).value;
    if end.phase.Finished? && !end.failed {
      FinishedIsSerial(ops, call, src, end);
    }
  }

  lemma FinishedIsSerial<F(!new), Q>(ops: Ops<F, Q>, call: Call, src: Source, s: State<F, Q>)
    requires Inv(ops, call, src, s) && s.phase.Finished? && !s.failed
    ensures s.output == Output(ops, src, call.shape) && |s.finite| == call.shape.experts
    ensures forall e: nat | e < call.shape.experts :: s.finite[e] == ops.finite(Activation(ops, src, call.shape, e))
  {
    hide OutputAt, Activation, TasksRight;
    forall row: nat | row < call.shape.embd ensures s.output[row] == Output(ops, src, call.shape)[row] {
      assert OutputRow(ops, src, call.shape, s, row);
    }
    forall e: nat | e < call.shape.experts ensures s.finite[e] == ops.finite(Activation(ops, src, call.shape, e)) {
      assert Right(ops, src, call.shape, s, e, 4);
    }
  }

  lemma {:induction false} RunsJoin<F(!new), Q>(ops: Ops<F, Q>, call: Call, src: Source, s: State<F, Q>,
                           first: seq<Action>, rest: seq<Action>)
    requires Execute(ops, call, src, s, first).Some?
    ensures Execute(ops, call, src, s, first + rest)
            == Execute(ops, call, src, Execute(ops, call, src, s, first).value, rest)
  {
    hide Apply, Shaped;
    if rest == [] {
      assert first + rest == first;
    } else {
      var n := |rest| - 1;
      assert (first + rest)[..|first + rest| - 1] == first + rest[..n];
      RunsJoin(ops, call, src, s, first, rest[..n]);
    }
  }

  /** One read brings its bytes and lands. */
  lemma OneRead<F(!new), Q>(ops: Ops<F, Q>, call: Call, src: Source, s: State<F, Q>, e: nat, p: Projection)
    returns (end: State<F, Q>)
    requires ValidCall(call) && Shaped(call, s) && (e, p) in s.inFlight
    ensures Execute(ops, call, src, s, [Arrive(e, p, src(e, p)), Land(e, p)]) == Some(end)
    ensures Shaped(call, end) && end == s.(weights := end.weights, inFlight := s.inFlight - {(e, p)})
    ensures forall x: nat, y: Projection :: end.weights(x, y) == if x == e && y == p then src(e, p) else s.weights(x, y)
  {
    var arrive, land := Arrive(e, p, src(e, p)), Land(e, p);
    var mid := Apply(ops, call, src, s, arrive).value;
    end := Apply(ops, call, src, mid, land).value;
    assert [arrive, land][..1] == [arrive] && [arrive][..0] == [];
    assert Execute(ops, call, src, s, []) == Some(s);
    assert Execute(ops, call, src, s, [arrive]) == Some(mid);
  }

  /** At any time the reads in flight can all land, so that no wait for them is for ever: each brings its own
      weights, and nothing else changes. */
  lemma {:induction false} ReadsCanLand<F(!new), Q>(ops: Ops<F, Q>, call: Call, src: Source, s: State<F, Q>)
    returns (actions: seq<Action>)
    requires ValidCall(call) && Shaped(call, s)
    ensures Execute(ops, call, src, s, actions).Some?
    ensures var end := Execute(ops, call, src, s, actions).value;
            && end == s.(weights := end.weights, inFlight := {})
            && forall e: nat, p: Projection ::
                 end.weights(e, p) == if (e, p) in s.inFlight then src(e, p) else s.weights(e, p)
    decreases |s.inFlight|
  {
    hide Shaped;
    if s.inFlight == {} {
      actions := [];
    } else {
      var read :| read in s.inFlight;
      assert (read.0, read.1) in s.inFlight;
      var e: nat, p: Projection :| (e, p) in s.inFlight;
      var mid := OneRead(ops, call, src, s, e, p);
      var rest := ReadsCanLand(ops, call, src, mid);
      actions := [Arrive(e, p, src(e, p)), Land(e, p)] + rest;
      RunsJoin(ops, call, src, s, [Arrive(e, p, src(e, p)), Land(e, p)], rest);
    }
  }

  /** A read can fail while it is in flight and at no other time; the call then counts as failed. */
  lemma ReadsMayFail<F(!new), Q>(ops: Ops<F, Q>, call: Call, src: Source, s: State<F, Q>, e: nat, p: Projection)
    requires ValidCall(call) && Shaped(call, s)
    ensures var end := Apply(ops, call, src, s, Fail(e, p));
            && (end.Some? <==> (e, p) in s.inFlight)
            && (end.Some? ==> end.value.failed && (e, p) !in end.value.inFlight && end.value.weights == s.weights)
  {
  }

  /** Once its reads are over a call can always go on until it is finished. */
  lemma NeverStuck<F(!new), Q>(ops: Ops<F, Q>, call: Call, src: Source, s: State<F, Q>) returns (a: Action)
    requires ValidCall(call) && Shaped(call, s) && !s.phase.Finished? && s.inFlight == {}
    ensures (a.Task? || a.Advance?) && Apply(ops, call, src, s, a).Some?
  {
    hide DoTask, Tasks;
    if t: nat :| t < Tasks(call, s.phase) && t !in s.done {
      a := Task(t);
    } else {
      a := Advance;
    }
  }

  // ----- one thread -----

  /** What a loop, and the barrier after it, does to the rest of the state. */
  ghost predicate OnlyArrays<F, Q>(before: State<F, Q>, after: State<F, Q>) {
    && after.weights == before.weights && after.inFlight == before.inFlight && after.failed == before.failed
  }

  /** One worksharing loop on one thread, its tasks from first to last, and the barrier. */
  method RunLoop<F(!new), Q>(ops: Ops<F, Q>, call: Call, ghost src: Source, s: State<F, Q>) returns (end: State<F, Q>)
    requires Inv(ops, call, src, s) && s.done == {} && (s.phase.Stage? || s.phase.Accumulating?)
    ensures Inv(ops, call, src, end) && OnlyArrays(s, end)
    ensures end.phase == NextPhase(s.phase) && end.done == {}
  {
    hide Inv, Tasks, DoTask;
    InvShape(ops, call, src, s);
    end := s;
    var n := Tasks(call, s.phase);
    for t := 0 to n
      invariant Inv(ops, call, src, end) && OnlyArrays(s, end) && end.phase == s.phase
      invariant forall u: nat | u < t :: u in end.done
    {
      InvShape(ops, call, src, end);
      TaskKeepsInv(ops, call, src, end, t);
      TaskShape(ops, call, end, t);
      end := DoTask(ops, call, end, t);
    }
    InvShape(ops, call, src, end);
    AdvanceKeepsInv(ops, call, src, end);
    end := end.(phase := NextPhase(end.phase), done := {});
  }

  /** `compute_expert_stages` on one thread: the four loops over a subset, one after the other. */
  method ComputeExpertStages<F(!new), Q>(ops: Ops<F, Q>, call: Call, ghost src: Source, missing: bool, s: State<F, Q>)
    returns (end: State<F, Q>)
    requires Inv(ops, call, src, s) && s.phase == Stage(missing, 0) && s.done == {}
    ensures Inv(ops, call, src, end) && OnlyArrays(s, end) && end.done == {}
    ensures end.phase == if missing then Accumulating else Waiting
  {
    hide Inv;
    end := RunLoop(ops, call, src, s);
    end := RunLoop(ops, call, src, end);
    end := RunLoop(ops, call, src, end);
    end := RunLoop(ops, call, src, end);
  }

  /** The wait for the reads: the buffers that were in flight hold what was read. */
  method AwaitReads<F(!new), Q>(ops: Ops<F, Q>, call: Call, ghost src: Source, s: State<F, Q>, arrived: Source)
    returns (end: State<F, Q>)
    requires Inv(ops, call, src, s) && s.phase.Waiting? && s.done == {} && !s.failed
    requires forall e: nat, p: Projection ::
               arrived(e, p) == if (e, p) in s.inFlight then src(e, p) else s.weights(e, p)
    ensures Inv(ops, call, src, end) && end.phase == Stage(true, 0) && end.done == {} && !end.failed
  {
    hide Right, AllRight, OutputRow, DoTask, TaskRight;
    end := s;
    if s.inFlight != {} {
      end := s.(weights := arrived, inFlight := {});
      ReadKeepsPhase(ops, call, src, s, end);
      assert Inv(ops, call, src, end);
    }
    AdvanceKeepsInv(ops, call, src, end);
    end := end.(phase := Stage(true, 0));
  }

  /** `compute_call_single_region` on one thread, loop by loop: the cached experts' four loops, the wait,
      the missing experts' four loops, and the accumulation write the serial output and flags. */
  method ComputeCall<F(!new), Q>(ops: Ops<F, Q>, call: Call, ghost src: Source, s: State<F, Q>, arrived: Source)
    returns (end: State<F, Q>)
    requires Entered(call, src, s)
    requires forall e: nat, p: Projection ::
               arrived(e, p) == if (e, p) in s.inFlight then src(e, p) else s.weights(e, p)
    ensures end.output == Output(ops, src, call.shape) && |end.finite| == call.shape.experts
    ensures forall e: nat | e < call.shape.experts :: end.finite[e] == ops.finite(Activation(ops, src, call.shape, e))
  {
    EnteredInv(ops, call, src, s);
    assert s.phase == Stage(false, 0) && s.done == {} && !s.failed;
    hide Inv, Entered, Output;
    end := ComputeExpertStages(ops, call, src, false, s);
    end := AwaitReads(ops, call, src, end, arrived);
    end := ComputeExpertStages(ops, call, src, true, end);
    end := RunLoop(ops, call, src, end);
    FinishedIsSerial(ops, call, src, end);
  }

  lemma EnteredInv<F, Q>(ops: Ops<F, Q>, call: Call, src: Source, s: State<F, Q>)
    requires Entered(call, src, s)
    ensures Inv(ops, call, src, s)
  {
    NothingThrough(ops, src, call.shape, s, call.cached);
  }
}
