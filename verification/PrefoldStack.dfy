/**
 Decoder layers with the residual prefold, run by every rank of a tensor-parallel group, against the
 plain residual stream: after any layers, in any pattern of folded and unfolded residuals, every rank
 holds the same hidden + residual as the plain stack.
 */
module PrefoldStack {
  import opened Options
  import opened TensorShapes
  import opened PrefoldState

  /** How a layer's MLP is built, and the environment switches read when it runs. */
  datatype Switches = Switches(
    dense: bool,             // a dense MLP, not a sparse expert block
    llmm1: bool,             // the fused down-projection is asked for
    llmm1Built: bool,        // and the MLP was built for it
    llmm1Available: bool,    // and the native operation loaded
    arBias: bool,            // the bias variant of the fold is asked for
    prefold: bool)           // the residual prefold is asked for

  /**
   One decoder layer. The projections give each rank's part of the sum that the all-reduce completes;
   the tensors' shapes, types and placement are per rank.
   */
  datatype Layer = Layer(
    inputNorm: Vec -> Vec,
    attention: (nat, Vec) -> Vec,
    postNorm: Vec -> Vec,
    mlp: (nat, Vec) -> Vec,
    attentionMeta: nat -> Meta,
    mlpMeta: nat -> Meta,
    residualMeta: nat -> Meta,
    activationMeta: nat -> Meta,
    weightMeta: nat -> Meta,
    switches: Switches,
    env: Env)

  ghost predicate KeepsLength(f: Vec -> Vec, n: nat) {
    forall x: Vec | |x| == n :: |f(x)| == n
  }

  ghost predicate KeepsLengths(f: (nat, Vec) -> Vec, n: nat) {
    forall r: nat, x: Vec | |x| == n :: |f(r, x)| == n
  }

  ghost predicate Holds(meta: nat -> Meta, n: nat) {
    forall r: nat :: Numel(meta(r).shape) == n
  }

  ghost predicate SameOnRanks(meta: nat -> Meta) {
    forall r: nat :: meta(r) == meta(0)
  }

  /** Hidden states hold `n` elements, and the ranks' tensors look alike. */
  ghost predicate Fits(layer: Layer, n: nat) {
    && KeepsLength(layer.inputNorm, n) && KeepsLength(layer.postNorm, n)
    && KeepsLengths(layer.attention, n) && KeepsLengths(layer.mlp, n)
    && Holds(layer.attentionMeta, n) && Holds(layer.mlpMeta, n) && Holds(layer.residualMeta, n)
    && SameOnRanks(layer.mlpMeta) && SameOnRanks(layer.residualMeta)
    && SameOnRanks(layer.activationMeta) && SameOnRanks(layer.weightMeta)
  }

  // ---------------------------------------------------------------- the plain residual stream

  function Parts(f: (nat, Vec) -> Vec, x: Vec, world: nat): (xs: seq<Vec>)
    ensures |xs| == world && forall r | 0 <= r < world :: xs[r] == f(r, x)
  {
    seq(world, r requires 0 <= r < world => f(r, x))
  }

  /** The unsharded projection: the sum of the ranks' parts. */
  function Full(f: (nat, Vec) -> Vec, x: Vec, world: nat): (v: Vec)
    ensures |v| == |x|
  {
    Reduce(Parts(f, x, world), |x|)
  }

  function AfterAttention(layer: Layer, world: nat, stream: Vec): (v: Vec)
    requires Fits(layer, |stream|)
    ensures |v| == |stream|
  {
    Add(Full(layer.attention, layer.inputNorm(stream), world), stream)
  }

  function PlainLayer(layer: Layer, world: nat, stream: Vec): (v: Vec)
    requires Fits(layer, |stream|)
    ensures |v| == |stream|
  {
    var mid := AfterAttention(layer, world, stream);
    Add(Full(layer.mlp, layer.postNorm(mid), world), mid)
  }

  function PlainStack(layers: seq<Layer>, world: nat, stream: Vec): (v: Vec)
    requires forall l | 0 <= l < |layers| :: Fits(layers[l], |stream|)
    ensures |v| == |stream|
  {
    if layers == [] then stream
    else PlainLayer(layers[|layers| - 1], world, PlainStack(layers[..|layers| - 1], world, stream))
  }

  /** Pipeline stages compose: running a prefix and then the rest is running them all. */
  lemma {:induction false} StagesCompose(first: seq<Layer>, rest: seq<Layer>, world: nat, stream: Vec)
    requires forall l | 0 <= l < |first + rest| :: Fits((first + rest)[l], |stream|)
    requires forall l | 0 <= l < |first| :: Fits(first[l], |stream|)
    requires forall l | 0 <= l < |rest| :: Fits(rest[l], |stream|)
    ensures PlainStack(first + rest, world, stream) == PlainStack(rest, world, PlainStack(first, world, stream))
  {
    hide PlainLayer, Fits;
    if rest == [] {
      assert first + rest == first;
    } else {
      var most := rest[..|rest| - 1];
      assert (first + rest)[..|first + rest| - 1] == first + most;
      forall l | 0 <= l < |first + most|
        ensures Fits((first + most)[l], |stream|)
      {
        assert (first + most)[l] == (first + rest)[l];
      }
      StagesCompose(first, most, world, stream);
    }
  }

  // ---------------------------------------------------------------- one layer, as the code runs it

  /** `RowParallelLinear.forward`: the all-reduce happens only with more than one rank. */
  method RowParallel(comms: seq<CommState>, inputs: seq<Tensor>, env: Env, n: nat) returns (out: Outcome)
    requires |comms| == |inputs| > 0 && Distinct(comms)
    requires forall r | 0 <= r < |inputs| :: |inputs[r].values| == n
    modifies comms
    ensures out.Raised? <==> StrictError in Verdicts(env, old(Pendings(comms)), inputs) && |comms| > 1
    ensures out.Reduced? ==> out.value == Reduce(Contributions(env, old(Pendings(comms)), inputs), n)
    ensures out.Reduced? ==> forall r | 0 <= r < |comms| ::
              comms[r].lastConsumed == (old(comms[r].lastConsumed) || Verdicts(env, old(Pendings(comms)), inputs)[r].Folds?)
    ensures forall r | 0 <= r < |comms| :: comms[r].pending.None? || comms[r].pending == old(comms[r].pending)
  {
    hide Numel, Reduce;
    if |comms| > 1 {
      out := AllReduce(comms, inputs, env, n);
    } else {
      ghost var xs := Contributions(env, Pendings(comms), inputs);
      assert xs == [inputs[0].values];
      ReduceOne(inputs[0].values);
      out := Reduced(inputs[0].values);
    }
  }

  function TensorsOf(meta: nat -> Meta, parts: seq<Vec>, n: nat): (ts: seq<Tensor>)
    requires SameLength(parts, n) && Holds(meta, n)
    ensures |ts| == |parts| && forall r | 0 <= r < |ts| :: ts[r] == TensorOf(meta(r), parts[r])
  {
    seq(|parts|, r requires 0 <= r < |parts| => TensorOf(meta(r), parts[r]))
  }

  ghost predicate Clear(comms: seq<CommState>)
    reads comms
  {
    forall r | 0 <= r < |comms| :: comms[r].pending.None?
  }

  /** With nothing pending, an all-reduce is the plain sum and never raises. */
  lemma NothingPending(env: Env, ps: seq<Option<Tensor>>, inputs: seq<Tensor>, parts: seq<Vec>)
    requires |ps| == |inputs| == |parts| && forall r | 0 <= r < |ps| :: ps[r].None? && inputs[r].values == parts[r]
    ensures Contributions(env, ps, inputs) == parts
    ensures StrictError !in Verdicts(env, ps, inputs)
    ensures forall r | 0 <= r < |ps| :: Verdicts(env, ps, inputs)[r].Skip?
  {
  }

  /** Alike tensors get one verdict, and the fold is then all ranks' or none's. */
  lemma OneVerdict(env: Env, ps: seq<Option<Tensor>>, inputs: seq<Tensor>, parts: seq<Vec>, residual: Vec, who: seq<bool>)
    requires |ps| == |inputs| == |parts| == |who| > 0
    requires SameLength(parts, |residual|)
    requires forall r | 0 <= r < |ps| :: ps[r].Some? && ps[r].value.values == residual && inputs[r].values == parts[r]
    requires forall r | 0 <= r < |ps| :: ps[r].value.meta == ps[0].value.meta && inputs[r].meta == inputs[0].meta
    requires forall r | 0 <= r < |ps| :: who[r] == Judge(env, ps[r], inputs[r], |ps|).Folds?
    ensures Contributions(env, ps, inputs) == WithFolds(parts, who, residual)
    ensures Unanimous(who)
    ensures StrictError in Verdicts(env, ps, inputs) <==> Judge(env, ps[0], inputs[0], |ps|).StrictError?
  {
    hide Numel;
    forall r | 0 <= r < |ps|
      ensures Judge(env, ps[r], inputs[r], |ps|) == Judge(env, ps[0], inputs[0], |ps|)
      ensures Contributions(env, ps, inputs)[r] == WithFolds(parts, who, residual)[r]
    {
    }
    assert Verdicts(env, ps, inputs)[0] == Judge(env, ps[0], inputs[0], |ps|);
  }

  /** The native fused operation's guards. */
  predicate CanFuse(available: bool, activation: Meta, residual: Meta, weight: Meta) {
    && available
    && View(activation.shape) == (1, 2176)
    && View(residual.shape) == (1, FOLD_WIDTH)
    && weight.shape == [FOLD_WIDTH, 2176]
    && activation.dtype.Float16? && residual.dtype.Float16? && weight.dtype.Float16?
    && activation.isCuda && residual.isCuda && weight.isCuda
    && activation.isContiguous && residual.isContiguous && weight.isContiguous
  }

  /** `reshape(-1, shape[-1])` */
  function View(shape: seq<nat>): (nat, nat) {
    if shape == [] then (1, 1) else (Numel(shape[..|shape| - 1]), shape[|shape| - 1])
  }

  /** The view has the tensor's elements. */
  lemma ViewKeepsElements(shape: seq<nat>)
    ensures View(shape).0 * View(shape).1 == Numel(shape)
  {
    if shape != [] {
      var n := |shape| - 1;
      NumelProduct(shape[..n], [shape[n]], shape[n]);
      assert shape == shape[..n] + [shape[n]];
    }
  }

  /** Which way the residual travels through a layer's MLP. */
  datatype Route = Plain | ArBias | Prefold | Llmm1

  function RouteOf(s: Switches): Route {
    if s.llmm1 && s.dense then Llmm1
    else if s.arBias && s.dense then ArBias
    else if s.prefold && s.dense then Prefold
    else Plain
  }

  predicate Fuses(layer: Layer, world: nat, r: nat) {
    && layer.switches.llmm1Built && world == 8
    && CanFuse(layer.switches.llmm1Available, layer.activationMeta(r), layer.residualMeta(r), layer.weightMeta(r))
  }

  /** The only way a layer can raise: a strict fold meets a strided tensor. */
  predicate LayerRaises(layer: Layer, world: nat) {
    var s := layer.switches;
    s.dense && s.prefold && !s.llmm1 && !s.arBias && world > 1 && StridedFold(layer.env, layer.residualMeta(0), layer.mlpMeta(0))
  }

  /** One row of `width` elements, under any leading dimensions. */
  predicate OneRow(shape: seq<nat>, width: nat) {
    |shape| > 0 && shape[|shape| - 1] == width && forall d | 0 <= d < |shape| - 1 :: shape[d] == 1
  }

  /** The native operation's operands: half precision, on the device, contiguous. */
  predicate Operand(meta: Meta) {
    meta.dtype == Float16 && meta.isCuda && meta.isContiguous
  }

  /** When a layer's output already contains the residual, so that the next layer gets none. */
  predicate DropsResidual(layer: Layer, world: nat) {
    var s := layer.switches;
    var activation, residual, weight := layer.activationMeta(0), layer.residualMeta(0), layer.weightMeta(0);
    && s.dense
    && if s.llmm1 then
         && s.llmm1Built && world == 8 && s.llmm1Available
         && OneRow(activation.shape, 2176) && OneRow(residual.shape, 5120) && weight.shape == [5120, 2176]
         && Operand(activation) && Operand(residual) && Operand(weight)
       else
         && s.prefold && !s.arBias && world > 1 && ContiguousFold(layer.env, residual, layer.mlpMeta(0))
  }

  lemma {:induction false} NumelOne(shape: seq<nat>)
    ensures Numel(shape) == 1 <==> forall d | 0 <= d < |shape| :: shape[d] == 1
  {
    if shape != [] {
      NumelOne(shape[1..]);
      var rest := Numel(shape[1..]);
      if shape[0] > 1 && rest > 1 {
        assert shape[0] * rest > 1;
      }
      assert Numel(shape) == 1 <==> shape[0] == 1 && rest == 1;
      assert (forall d | 0 <= d < |shape| :: shape[d] == 1) <==> shape[0] == 1 && forall d | 0 <= d < |shape[1..]| :: shape[1..][d] == 1
      by {
        assert forall d | 0 < d < |shape| :: shape[d] == shape[1..][d - 1];
      }
    }
  }

  lemma ViewIs(shape: seq<nat>, width: nat)
    requires width > 1
    ensures View(shape) == (1, width) <==> OneRow(shape, width)
  {
    if shape != [] {
      NumelOne(shape[..|shape| - 1]);
    }
    hide Numel;
  }

  lemma FusesIs(layer: Layer, world: nat)
    requires RouteOf(layer.switches).Llmm1?
    ensures Fuses(layer, world, 0) <==> DropsResidual(layer, world)
  {
    ViewIs(layer.activationMeta(0).shape, 2176);
    ViewIs(layer.residualMeta(0).shape, FOLD_WIDTH);
    hide Numel, View, OneRow;
  }

  predicate SomeRaises(layers: seq<Layer>, world: nat) {
    exists l | 0 <= l < |layers| :: LayerRaises(layers[l], world)
  }

  /** Every rank, after dropping its residual or not, holds the full MLP output plus the residual. */
  ghost predicate Settled(layer: Layer, world: nat, x: Vec, residual: Vec, value: Vec, dropped: seq<bool>)
    requires |x| == |residual|
  {
    && |dropped| == world && |value| == |residual|
    && forall r | 0 <= r < world ::
         Stream(value, if dropped[r] then None else Some(residual)) == Add(Full(layer.mlp, x, world), residual)
  }

  /** If all ranks or none fold, reducing their contributions settles the layer. */
  lemma FoldSettles(layer: Layer, world: nat, x: Vec, residual: Vec, who: seq<bool>)
    requires world > 0 && |who| == world && Unanimous(who)
    requires |x| == |residual| && KeepsLengths(layer.mlp, |residual|)
    ensures SameLength(Parts(layer.mlp, x, world), |residual|)
    ensures Settled(layer, world, x, residual, Reduce(WithFolds(Parts(layer.mlp, x, world), who, residual), |residual|), who)
  {
    var parts := Parts(layer.mlp, x, world);
    assert SameLength(parts, |residual|);
    RightIffUnanimous(parts, who, residual);
    hide Reduce, WithFolds, Add;
    forall r | 0 <= r < world
      ensures Stream(Reduce(WithFolds(parts, who, residual), |residual|), if who[r] then None else Some(residual))
           == Add(Full(layer.mlp, x, world), residual)
    {
      assert After(parts, who, residual, r) == Add(Reduce(parts, |residual|), residual);
    }
  }

  method BeginAll(comms: seq<CommState>, residuals: seq<Tensor>)
    requires |residuals| == |comms| && Distinct(comms)
    modifies comms
    ensures forall r | 0 <= r < |comms| :: comms[r].pending == Some(residuals[r]) && !comms[r].lastConsumed
  {
    for r := 0 to |comms|
      invariant forall s | 0 <= s < r :: comms[s].pending == Some(residuals[s]) && !comms[s].lastConsumed
    {
      comms[r].Begin(Some(residuals[r]));
    }
  }

  method ClearAll(comms: seq<CommState>) returns (consumed: seq<bool>)
    requires Distinct(comms)
    modifies comms
    ensures Clear(comms) && |consumed| == |comms|
    ensures forall r | 0 <= r < |comms| :: consumed[r] == old(comms[r].lastConsumed)
  {
    consumed := [];
    for r := 0 to |comms|
      invariant forall s | 0 <= s < r :: comms[s].pending.None?
      invariant forall s | 0 <= s < |comms| :: comms[s].lastConsumed == old(comms[s].lastConsumed)
      invariant |consumed| == r && forall s | 0 <= s < r :: consumed[s] == old(comms[s].lastConsumed)
    {
      consumed := consumed + [comms[r].lastConsumed];
      comms[r].Clear();
    }
  }

  /** The prefold route: begin, run the MLP, ask whether the residual was consumed, clear. */
  method PrefoldMlp(comms: seq<CommState>, layer: Layer, x: Vec, residual: Vec) returns (out: Outcome, dropped: seq<bool>)
    requires |comms| > 0 && Distinct(comms)
    requires |x| == |residual| && Fits(layer, |residual|)
    modifies comms
    ensures Clear(comms)
    ensures out.Raised? <==> |comms| > 1 && StridedFold(layer.env, layer.residualMeta(0), layer.mlpMeta(0))
    ensures out.Reduced? ==> Settled(layer, |comms|, x, residual, out.value, dropped)
    ensures out.Reduced? ==> |dropped| == |comms| && forall r | 0 <= r < |comms| ::
              dropped[r] == (|comms| > 1 && ContiguousFold(layer.env, layer.residualMeta(0), layer.mlpMeta(0)))
  {
    hide Numel, Reduce, Judge, WithFolds, Settled, Add, StridedFold, ContiguousFold;
    var world, n := |comms|, |residual|;
    var parts := Parts(layer.mlp, x, world);
    var residuals := TensorsOf(layer.residualMeta, seq(world, _ => residual), n);
    var inputs := TensorsOf(layer.mlpMeta, parts, n);
    BeginAll(comms, residuals);
    ghost var ps := Pendings(comms);
    ghost var who := seq(world, r requires 0 <= r < world => Judge(layer.env, ps[r], inputs[r], world).Folds?);
    OneVerdict(layer.env, ps, inputs, parts, residual, who);
    JudgeIs(layer.env, ps[0], inputs[0], world);
    out := RowParallel(comms, inputs, layer.env, n);
    dropped := ClearAll(comms);
    if out.Reduced? {
      assert dropped == who;
      FoldSettles(layer, world, x, residual, who);
    }
  }

  /** Any other route: nothing is pending, so the fold is what the ranks put into their parts. */
  method OtherMlp(comms: seq<CommState>, layer: Layer, x: Vec, residual: Vec, fuse: bool)
    returns (value: Vec, dropped: seq<bool>)
    requires |comms| > 0 && Distinct(comms) && Clear(comms)
    requires |x| == |residual| && Fits(layer, |residual|)
    modifies comms
    ensures Clear(comms)
    ensures Settled(layer, |comms|, x, residual, value, dropped)
    ensures |dropped| == |comms| && forall r | 0 <= r < |comms| :: dropped[r] == fuse
  {
    hide Numel, Reduce, Judge, Contributions, Verdicts, Settled, Add;
    var world, n := |comms|, |residual|;
    dropped := seq(world, _ => fuse);
    FoldSettles(layer, world, x, residual, dropped);
    var parts := WithFolds(Parts(layer.mlp, x, world), dropped, residual);
    var inputs := TensorsOf(layer.mlpMeta, parts, n);
    NothingPending(layer.env, Pendings(comms), inputs, parts);
    var out := RowParallel(comms, inputs, layer.env, n);
    value := out.value;
  }

  /** The MLP of a layer, by whichever route its switches choose. */
  method MlpPart(comms: seq<CommState>, layer: Layer, x: Vec, residual: Vec) returns (out: Outcome, dropped: seq<bool>)
    requires |comms| > 0 && Distinct(comms) && Clear(comms)
    requires |x| == |residual| && Fits(layer, |residual|)
    modifies comms
    ensures Clear(comms)
    ensures out.Raised? <==> LayerRaises(layer, |comms|)
    ensures out.Reduced? ==> Settled(layer, |comms|, x, residual, out.value, dropped)
    ensures out.Reduced? ==> |dropped| == |comms| && forall r | 0 <= r < |comms| :: dropped[r] == DropsResidual(layer, |comms|)
  {
    hide Numel, Settled, Judge, CanFuse, StridedFold, ContiguousFold, OneRow, Operand;
    var route := RouteOf(layer.switches);
    if route.Llmm1? {
      FusesIs(layer, |comms|);
    }
    if route.Prefold? {
      out, dropped := PrefoldMlp(comms, layer, x, residual);
    } else {
      var value, d := OtherMlp(comms, layer, x, residual, route.Llmm1? && Fuses(layer, |comms|, 0));
      out, dropped := Reduced(value), d;
    }
  }

  /** The layer's state on every rank: hidden states and, unless it was folded in, the residual. */
  datatype State = State(hidden: Vec, residuals: seq<Option<Vec>>)

  /** On every rank, hidden + residual is `stream`. */
  ghost predicate Carries(state: State, world: nat, stream: Vec) {
    && |state.residuals| == world && |state.hidden| == |stream|
    && forall r | 0 <= r < world ::
         && (state.residuals[r].Some? ==> |state.residuals[r].value| == |state.hidden|)
         && Stream(state.hidden, state.residuals[r]) == stream
  }

  /** `Qwen2MoeDecoderLayer.forward` on all ranks. */
  method LayerForward(comms: seq<CommState>, layer: Layer, state: State, ghost stream: Vec)
    returns (raised: bool, state': State)
    requires |comms| > 0 && Distinct(comms) && Clear(comms)
    requires Carries(state, |comms|, stream) && Fits(layer, |stream|)
    modifies comms
    ensures Clear(comms)
    ensures raised <==> LayerRaises(layer, |comms|)
    ensures !raised ==> Carries(state', |comms|, PlainLayer(layer, |comms|, stream))
    ensures !raised ==> forall r | 0 <= r < |comms| :: state'.residuals[r].None? <==> DropsResidual(layer, |comms|)
  {
    hide Numel, Reduce, Judge, Contributions, Verdicts, LayerRaises, DropsResidual;
    var world, n := |comms|, |state.hidden|;
    // Add-and-normalise: without a residual the hidden states become the residual.
    var residual := Stream(state.hidden, state.residuals[0]);
    var normed := layer.inputNorm(residual);
    var parts := Parts(layer.attention, normed, world);
    var inputs := TensorsOf(layer.attentionMeta, parts, n);
    NothingPending(layer.env, Pendings(comms), inputs, parts);
    var attended := RowParallel(comms, inputs, layer.env, n);
    residual := Add(attended.value, residual);
    assert residual == AfterAttention(layer, world, stream);
    var out, dropped := MlpPart(comms, layer, layer.postNorm(residual), residual);
    if out.Raised? {
      return true, state;
    }
    state' := State(out.value, seq(world, r requires 0 <= r < world => if dropped[r] then None else Some(residual)));
    raised := false;
  }

  /** `Qwen2MoeModel.forward` over one pipeline stage's layers, from any hidden states and residual. */
  method StackForward(comms: seq<CommState>, layers: seq<Layer>, state: State, ghost stream: Vec)
    returns (raised: bool, state': State)
    requires |comms| > 0 && Distinct(comms) && Clear(comms)
    requires Carries(state, |comms|, stream)
    requires forall l | 0 <= l < |layers| :: Fits(layers[l], |stream|)
    modifies comms
    ensures Clear(comms)
    ensures !raised ==> Carries(state', |comms|, PlainStack(layers, |comms|, stream))
    ensures raised <==> SomeRaises(layers, |comms|)
  {
    hide Numel, Carries, PlainLayer, Fits, LayerRaises;
    state' := state;
    for l := 0 to |layers|
      invariant Clear(comms) && forall k | 0 <= k < l :: !LayerRaises(layers[k], |comms|)
      invariant Carries(state', |comms|, PlainStack(layers[..l], |comms|, stream))
    {
      assert layers[..l + 1][..l] == layers[..l];
      raised, state' := LayerForward(comms, layers[l], state', PlainStack(layers[..l], |comms|, stream));
      if raised {
        return;
      }
    }
    assert layers[..|layers|] == layers;
    raised := false;
  }

  /** What a stage hands on: its state to the next stage or, from the last one, each rank's output. */
  datatype StageResult = Intermediate(state: State) | Output(values: seq<Vec>)

  /**
   The forward of one pipeline stage. The first starts from the embedded tokens with no residual, the
   others from what they received; all but the last hand on hidden states and residual, and the last
   applies the final norm, which takes the residual or, if the last layer folded it in, does not.
   */
  method ModelForward(comms: seq<CommState>, layers: seq<Layer>, norm: Vec -> Vec, first: bool, last: bool,
                      embedded: Vec, received: State, ghost stream: Vec)
    returns (raised: bool, result: StageResult)
    requires |comms| > 0 && Distinct(comms) && Clear(comms)
    requires if first then embedded == stream else Carries(received, |comms|, stream)
    requires forall l | 0 <= l < |layers| :: Fits(layers[l], |stream|)
    modifies comms
    ensures Clear(comms)
    ensures !raised && !last ==> result.Intermediate? && Carries(result.state, |comms|, PlainStack(layers, |comms|, stream))
    ensures !raised && last ==> result.Output? && |result.values| == |comms|
    ensures !raised && last ==> forall r | 0 <= r < |comms| :: result.values[r] == norm(PlainStack(layers, |comms|, stream))
    ensures raised <==> SomeRaises(layers, |comms|)
  {
    hide PlainStack, Fits, SomeRaises;
    var state := if first then State(embedded, seq(|comms|, _ => None)) else received;
    raised, state := StackForward(comms, layers, state, stream);
    result := Intermediate(state);
    if !raised && last {
      result := Output(seq(|comms|, r requires 0 <= r < |comms| => norm(Stream(state.hidden, state.residuals[r]))));
    }
  }

  // ---------------------------------------------------------------- the whole pipeline

  function AllLayers(stages: seq<seq<Layer>>): seq<Layer> {
    if stages == [] then [] else AllLayers(stages[..|stages| - 1]) + stages[|stages| - 1]
  }

  ghost predicate AllFit(layers: seq<Layer>, n: nat) {
    forall l | 0 <= l < |layers| :: Fits(layers[l], n)
  }

  lemma {:induction false} StagesFit(stages: seq<seq<Layer>>, n: nat)
    requires forall s | 0 <= s < |stages| :: AllFit(stages[s], n)
    ensures AllFit(AllLayers(stages), n)
  {
    hide Fits;
    if stages != [] {
      StagesFit(stages[..|stages| - 1], n);
    }
  }

  /** One rank group's communication state, new in every stage's processes. */
  method NewComms(world: nat) returns (comms: seq<CommState>)
    ensures |comms| == world && Distinct(comms) && Clear(comms)
    ensures forall r | 0 <= r < world :: fresh(comms[r])
  {
    comms := [];
    for r := 0 to world
      invariant |comms| == r && Distinct(comms) && Clear(comms)
      invariant forall q | 0 <= q < r :: fresh(comms[q])
    {
      var comm := new CommState();
      comms := comms + [comm];
    }
  }

  lemma NextStage(stages: seq<seq<Layer>>, s: nat, world: nat, stream: Vec)
    requires s < |stages| && AllFit(stages[s], |stream|)
    requires forall q | 0 <= q < |stages| :: AllFit(stages[q], |stream|)
    ensures AllFit(AllLayers(stages[..s]), |stream|) && AllFit(AllLayers(stages[..s + 1]), |stream|)
    ensures PlainStack(AllLayers(stages[..s + 1]), world, stream)
         == PlainStack(stages[s], world, PlainStack(AllLayers(stages[..s]), world, stream))
  {
    hide Fits, PlainStack;
    StagesFit(stages[..s], |stream|);
    StagesFit(stages[..s + 1], |stream|);
    assert stages[..s + 1][..s] == stages[..s];
    StagesCompose(AllLayers(stages[..s]), stages[s], world, stream);
  }

  lemma NoStage(world: nat, stream: Vec)
    ensures AllFit(AllLayers([]), |stream|) && PlainStack(AllLayers([]), world, stream) == stream
  {
  }

  /**
   The model over any split of its layers into pipeline stages, each on its own rank group: every rank
   of the last stage ends with the norm of the plain stream through all the layers. It raises exactly
   when some layer meets a strided tensor in a strict fold.
   */
  method PipelineForward(stages: seq<seq<Layer>>, world: nat, norm: Vec -> Vec, embedded: Vec)
    returns (raised: bool, out: seq<Vec>)
    requires world > 0 && |stages| > 0
    requires forall s | 0 <= s < |stages| :: AllFit(stages[s], |embedded|)
    ensures AllFit(AllLayers(stages), |embedded|)
    ensures !raised ==> |out| == world && forall r | 0 <= r < world :: out[r] == norm(PlainStack(AllLayers(stages), world, embedded))
    ensures raised <==> exists s | 0 <= s < |stages| :: SomeRaises(stages[s], world)
  {
    hide PlainStack, Fits, Carries, SomeRaises, AllLayers;
    StagesFit(stages, |embedded|);
    NoStage(world, embedded);
    assert stages[..0] == [] && stages[..|stages|] == stages;
    var state := State(embedded, []);
    ghost var stream := embedded;
    raised, out := false, [];
    for s := 0 to |stages|
      invariant !raised && forall q | 0 <= q < s :: !SomeRaises(stages[q], world)
      invariant AllFit(AllLayers(stages[..s]), |embedded|)
      invariant stream == PlainStack(AllLayers(stages[..s]), world, embedded)
      invariant s == 0 ==> stream == embedded
      invariant 0 < s < |stages| ==> Carries(state, world, stream)
      invariant s == |stages| ==> |out| == world && forall r | 0 <= r < world :: out[r] == norm(stream)
    {
      var comms := NewComms(world);
      var result;
      raised, result := ModelForward(comms, stages[s], norm, s == 0, s == |stages| - 1, embedded, state, stream);
      if raised {
        return;
      }
      NextStage(stages, s, world, embedded);
      stream := PlainStack(stages[s], world, stream);
      if s == |stages| - 1 {
        out := result.values;
      } else {
        state := result.state;
      }
    }
  }
}
