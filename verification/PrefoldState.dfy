/**
 The pending-residual state around tensor-parallel all-reduces: a residual may be folded, divided by
 the group size, into the next all-reduce, which then returns the reduced value plus the residual.
 */
module PrefoldState {
  import opened Options
  import opened TensorShapes
  import opened Sums

  type Vec = seq<real>

  datatype DType = Float16 | BFloat16 | OtherType

  datatype Meta = Meta(shape: seq<nat>, dtype: DType, isCuda: bool, isContiguous: bool)

  datatype TensorData = TensorData(meta: Meta, values: Vec)

  /** A tensor holds one value per element of its shape. */
  type Tensor = t: TensorData | |t.values| == Numel(t.meta.shape)
    witness TensorData(Meta([0], OtherType, false, true), [])

  function TensorOf(meta: Meta, values: Vec): (t: Tensor)
    requires |values| == Numel(meta.shape)
    ensures t.meta == meta && t.values == values
  {
    TensorData(meta, values)
  }

  datatype Env = Env(prefoldEnable: bool, strict: bool)

  datatype Verdict = Skip | Folds | StrictError

  const FOLD_WIDTH := 5120

  /** The guards of the fold, in the order the code tests them. */
  function Judge(env: Env, pending: Option<Tensor>, input: Tensor, worldSize: nat): Verdict {
    if !env.prefoldEnable then Skip
    else if pending.None? then Skip
    else if input.meta.shape != pending.value.meta.shape then Skip
    else if |input.meta.shape| != 2 || input.meta.shape[1] != FOLD_WIDTH then Skip
    else if input.meta.dtype.OtherType? then Skip
    else if !input.meta.isCuda || !pending.value.meta.isCuda then Skip
    else if !input.meta.isContiguous || !pending.value.meta.isContiguous then (if env.strict then StrictError else Skip)
    else if worldSize <= 1 then Skip
    else Folds
  }

  /** The residual and the input are what the fold is written for, strided or not. */
  predicate FoldMatches(env: Env, residual: Meta, input: Meta) {
    && env.prefoldEnable
    && input.shape == residual.shape && |input.shape| == 2 && input.shape[1] == 5120
    && (input.dtype == Float16 || input.dtype == BFloat16)
    && input.isCuda && residual.isCuda
  }

  /** A fold that would go ahead, with more than one rank. */
  predicate ContiguousFold(env: Env, residual: Meta, input: Meta) {
    FoldMatches(env, residual, input) && input.isContiguous && residual.isContiguous
  }

  /** A strict fold that would go ahead but for a strided tensor. */
  predicate StridedFold(env: Env, residual: Meta, input: Meta) {
    FoldMatches(env, residual, input) && env.strict && !(input.isContiguous && residual.isContiguous)
  }

  /** When the guards fold and when they refuse. */
  lemma JudgeIs(env: Env, pending: Option<Tensor>, input: Tensor, worldSize: nat)
    ensures Judge(env, pending, input, worldSize).Folds?
       <==> worldSize > 1 && pending.Some? && ContiguousFold(env, pending.value.meta, input.meta)
    ensures Judge(env, pending, input, worldSize).StrictError?
       <==> pending.Some? && StridedFold(env, pending.value.meta, input.meta)
  {
    hide Numel;
  }

  function Add(a: Vec, b: Vec): (c: Vec)
    requires |a| == |b|
    ensures |c| == |a|
  {
    seq(|a|, i requires 0 <= i < |a| => a[i] + b[i])
  }

  /** residual * (1 / worldSize) */
  function Share(a: Vec, worldSize: nat): (c: Vec)
    requires worldSize > 0
    ensures |c| == |a|
  {
    seq(|a|, i requires 0 <= i < |a| => RankShare(a[i], worldSize))
  }

  /** What a rank contributes to the all-reduce. */
  function Contribution(env: Env, pending: Option<Tensor>, input: Tensor, worldSize: nat): (v: Vec)
    ensures |v| == |input.values|
  {
    if Judge(env, pending, input, worldSize).Folds?
    then Add(input.values, Share(pending.value.values, worldSize)) else input.values
  }

  /** The module globals of one rank. */
  class CommState {
    var pending: Option<Tensor>
    var lastConsumed: bool

    constructor ()
      ensures pending.None? && !lastConsumed
    {
      pending, lastConsumed := None, false;
    }

    method Begin(residual: Option<Tensor>)
      modifies this
      ensures pending == residual && !lastConsumed
    {
      pending := residual;
      lastConsumed := false;
    }

    method Clear()
      modifies this
      ensures pending.None? && lastConsumed == old(lastConsumed)
    {
      pending := None;
    }

    /** Folds the pending residual into the input if every guard passes; then the residual is spent. */
    method Consume(input: Tensor, env: Env, worldSize: nat) returns (verdict: Verdict, folded: Vec)
      modifies this
      ensures verdict == Judge(env, old(pending), input, worldSize)
      ensures verdict.Folds?
         <==> worldSize > 1 && old(pending).Some? && ContiguousFold(env, old(pending).value.meta, input.meta)
      ensures verdict.StrictError? <==> old(pending).Some? && StridedFold(env, old(pending).value.meta, input.meta)
      ensures folded == Contribution(env, old(pending), input, worldSize) && |folded| == |input.values|
      ensures forall i | 0 <= i < |folded| :: folded[i] == if verdict.Folds?
                then input.values[i] + old(pending).value.values[i] / worldSize as real else input.values[i]
      ensures verdict.Folds? ==> pending.None? && lastConsumed
      ensures !verdict.Folds? ==> pending == old(pending) && lastConsumed == old(lastConsumed)
    {
      hide Numel;
      JudgeIs(env, pending, input, worldSize);
      var residual := pending;
      folded := input.values;
      if !env.prefoldEnable { return Skip, folded; }
      if residual.None? { return Skip, folded; }
      if input.meta.shape != residual.value.meta.shape { return Skip, folded; }
      if |input.meta.shape| != 2 || input.meta.shape[1] != FOLD_WIDTH { return Skip, folded; }
      if input.meta.dtype.OtherType? { return Skip, folded; }
      if !input.meta.isCuda || !residual.value.meta.isCuda { return Skip, folded; }
      if !input.meta.isContiguous || !residual.value.meta.isContiguous {
        if env.strict { return StrictError, folded; }
        return Skip, folded;
      }
      if worldSize <= 1 { return Skip, folded; }
      folded := Add(input.values, Share(residual.value.values, worldSize));
      pending := None;
      lastConsumed := true;
      return Folds, folded;
    }
  }

  // ---------------------------------------------------------------- the collective

  ghost predicate SameLength(xs: seq<Vec>, n: nat) {
    forall r | 0 <= r < |xs| :: |xs[r]| == n
  }

  /** Element `i` of rank `r`'s vector. */
  function Lane(xs: seq<Vec>, i: nat): int -> real {
    r => if 0 <= r < |xs| && i < |xs[r]| then xs[r][i] else 0.0
  }

  /** The sum over ranks that every rank receives. */
  function Reduce(xs: seq<Vec>, n: nat): (v: Vec)
    ensures |v| == n
  {
    seq(n, i requires 0 <= i => Sum(Lane(xs, i), 0, |xs|))
  }

  /** Every rank's element counts once. */
  lemma ReduceIs(xs: seq<Vec>, n: nat, f: int -> real, i: nat)
    requires SameLength(xs, n) && i < n && forall r | 0 <= r < |xs| :: f(r) == xs[r][i]
    ensures Reduce(xs, n)[i] == Sum(f, 0, |xs|)
  {
    SumEq(Lane(xs, i), f, 0, |xs|);
  }

  lemma ReduceOne(x: Vec)
    ensures Reduce([x], |x|) == x
  {
    forall i | 0 <= i < |x|
      ensures Reduce([x], |x|)[i] == x[i]
    {
      SumLast(Lane([x], i), 0, 1);
    }
  }

  /** How many of the first `n` ranks folded. */
  function Folders(who: seq<bool>): nat {
    if who == [] then 0 else Folders(who[..|who| - 1]) + (if who[|who| - 1] then 1 else 0)
  }

  /** The part of the residual that `count` of `world` ranks carry. */
  function Carried(x: real, count: nat, world: nat): real
    requires world > 0
  {
    count as real * RankShare(x, world)
  }

  lemma {:induction false} FoldersBound(who: seq<bool>)
    ensures Folders(who) <= |who|
    ensures Folders(who) == |who| <==> forall r | 0 <= r < |who| :: who[r]
    ensures Folders(who) == 0 <==> forall r | 0 <= r < |who| :: !who[r]
  {
    if who != [] {
      FoldersBound(who[..|who| - 1]);
    }
  }

  lemma {:induction false} SumFolders(who: seq<bool>, f: int -> real, share: real)
    requires forall r | 0 <= r < |who| :: f(r) == if who[r] then share else 0.0
    ensures Sum(f, 0, |who|) == Folders(who) as real * share
  {
    if who != [] {
      SumFolders(who[..|who| - 1], f, share);
    }
  }

  /** What the ranks contribute when exactly those in `who` fold the residual. */
  function WithFolds(xs: seq<Vec>, who: seq<bool>, residual: Vec): (ys: seq<Vec>)
    requires |xs| == |who| && SameLength(xs, |residual|)
    ensures |ys| == |xs| && SameLength(ys, |residual|)
  {
    seq(|xs|, r requires 0 <= r < |xs| => if who[r] then Add(xs[r], Share(residual, |xs|)) else xs[r])
  }

  /** The share of an element that one rank adds. */
  function RankShare(x: real, world: nat): real
    requires world > 0
  {
    x / world as real
  }

  function ShareLane(who: seq<bool>, share: real): int -> real {
    r => if 0 <= r < |who| && who[r] then share else 0.0
  }

  lemma LaneWithFolds(xs: seq<Vec>, who: seq<bool>, residual: Vec, i: nat, r: nat)
    requires |xs| == |who| && SameLength(xs, |residual|) && i < |residual| && r < |xs|
    ensures Lane(WithFolds(xs, who, residual), i)(r) == Lane(xs, i)(r) + ShareLane(who, RankShare(residual[i], |xs|))(r)
  {
    var y := WithFolds(xs, who, residual)[r];
    assert |xs[r]| == |y| == |residual|;
    assert y == if who[r] then Add(xs[r], Share(residual, |xs|)) else xs[r];
  }

  lemma LanesSum(xs: seq<Vec>, ys: seq<Vec>, who: seq<bool>, share: real, i: nat)
    requires |xs| == |ys| == |who|
    requires forall r | 0 <= r < |xs| :: Lane(ys, i)(r) == Lane(xs, i)(r) + ShareLane(who, share)(r)
    ensures Sum(Lane(ys, i), 0, |ys|) == Sum(Lane(xs, i), 0, |xs|) + Folders(who) as real * share
  {
    hide Lane, Folders;
    SumAdd(Lane(xs, i), ShareLane(who, share), Lane(ys, i), 0, |xs|);
    SumFolders(who, ShareLane(who, share), share);
  }

  /** The all-reduce returns the plain sum plus the folding ranks' shares of the residual. */
  lemma PartialFold(xs: seq<Vec>, who: seq<bool>, residual: Vec, i: nat)
    requires |xs| == |who| > 0 && SameLength(xs, |residual|) && i < |residual|
    ensures Reduce(WithFolds(xs, who, residual), |residual|)[i]
         == Reduce(xs, |residual|)[i] + Carried(residual[i], Folders(who), |xs|)
  {
    hide Lane, WithFolds, Folders, Share, RankShare, ShareLane, Sum;
    var share := RankShare(residual[i], |xs|);
    forall r | 0 <= r < |xs|
      ensures Lane(WithFolds(xs, who, residual), i)(r) == Lane(xs, i)(r) + ShareLane(who, share)(r)
    {
      LaneWithFolds(xs, who, residual, i, r);
    }
    LanesSum(xs, WithFolds(xs, who, residual), who, share, i);
  }

  lemma CarriedWhole(x: real, count: nat, world: nat)
    requires world > 0 && count <= world
    ensures Carried(x, count, world) == x <==> count == world || x == 0.0
    ensures count == 0 ==> Carried(x, count, world) == 0.0
  {
    var share := RankShare(x, world);
    assert world as real * share == x;
    assert (world as real - count as real) * share == x - Carried(x, count, world);
    if count < world && x != 0.0 {
      assert share != 0.0;
    }
  }

  /** A rank that folded drops its residual; one that did not keeps it. */
  function Stream(hidden: Vec, residual: Option<Vec>): (v: Vec)
    requires residual.Some? ==> |residual.value| == |hidden|
  {
    if residual.Some? then Add(hidden, residual.value) else hidden
  }

  function After(xs: seq<Vec>, who: seq<bool>, residual: Vec, r: nat): (v: Vec)
    requires |xs| == |who| && SameLength(xs, |residual|) && r < |who|
    ensures |v| == |residual|
  {
    Stream(Reduce(WithFolds(xs, who, residual), |residual|), if who[r] then None else Some(residual))
  }

  ghost predicate AllZero(v: Vec) {
    forall i | 0 <= i < |v| :: v[i] == 0.0
  }

  ghost predicate Unanimous(who: seq<bool>) {
    forall r, s | 0 <= r < |who| && 0 <= s < |who| :: who[r] == who[s]
  }

  lemma AfterAt(xs: seq<Vec>, who: seq<bool>, residual: Vec, r: nat, i: nat)
    requires |xs| == |who| && SameLength(xs, |residual|) && r < |who| && i < |residual|
    ensures After(xs, who, residual, r)[i]
         == Reduce(xs, |residual|)[i] + Carried(residual[i], Folders(who), |xs|) + (if who[r] then 0.0 else residual[i])
  {
    PartialFold(xs, who, residual, i);
  }

  /**
   Every rank ends with the reduced sum plus the whole residual, exactly when the ranks all decide
   alike or the residual is zero.
   */
  lemma RightIffUnanimous(xs: seq<Vec>, who: seq<bool>, residual: Vec)
    requires |xs| == |who| > 0 && SameLength(xs, |residual|)
    ensures (forall r | 0 <= r < |who| :: After(xs, who, residual, r) == Add(Reduce(xs, |residual|), residual))
       <==> Unanimous(who) || AllZero(residual)
  {
    FoldersBound(who);
    var n := |xs|;
    var want := Add(Reduce(xs, |residual|), residual);
    if Unanimous(who) || AllZero(residual) {
      forall r | 0 <= r < |who|
        ensures After(xs, who, residual, r) == want
      {
        forall i | 0 <= i < |residual|
          ensures After(xs, who, residual, r)[i] == want[i]
        {
          AfterAt(xs, who, residual, r, i);
          CarriedWhole(residual[i], Folders(who), n);
        }
      }
    } else {
      var i :| 0 <= i < |residual| && residual[i] != 0.0;
      var r, s :| 0 <= r < |who| && 0 <= s < |who| && who[r] != who[s];
      var folder := if who[r] then r else s;
      AfterAt(xs, who, residual, folder, i);
      CarriedWhole(residual[i], Folders(who), n);
      assert After(xs, who, residual, folder)[i] != want[i];
    }
  }

  // ---------------------------------------------------------------- all ranks entering one all-reduce

  /** The ranks' states are separate objects. */
  ghost predicate Distinct(comms: seq<CommState>) {
    forall i, j | 0 <= i < j < |comms| :: comms[i] != comms[j]
  }

  function Pendings(comms: seq<CommState>): (ps: seq<Option<Tensor>>)
    reads comms
    ensures |ps| == |comms| && forall r | 0 <= r < |comms| :: ps[r] == comms[r].pending
  {
    seq(|comms|, r requires 0 <= r < |comms| reads comms => comms[r].pending)
  }

  function Verdicts(env: Env, ps: seq<Option<Tensor>>, inputs: seq<Tensor>): (vs: seq<Verdict>)
    requires |ps| == |inputs|
    ensures |vs| == |ps| && forall r | 0 <= r < |ps| :: vs[r] == Judge(env, ps[r], inputs[r], |ps|)
  {
    seq(|ps|, r requires 0 <= r < |ps| => Judge(env, ps[r], inputs[r], |ps|))
  }

  function Contributions(env: Env, ps: seq<Option<Tensor>>, inputs: seq<Tensor>): (xs: seq<Vec>)
    requires |ps| == |inputs|
    ensures |xs| == |ps| && forall r | 0 <= r < |ps| :: xs[r] == Contribution(env, ps[r], inputs[r], |ps|)
  {
    seq(|ps|, r requires 0 <= r < |ps| => Contribution(env, ps[r], inputs[r], |ps|))
  }

  datatype Outcome = Reduced(value: Vec) | Raised

  /**
   An all-reduce entry point, run by every rank of the group: each rank tries to fold its pending
   residual, then the contributions are summed. If a rank refuses strictly, the call raises.
   */
  method AllReduce(comms: seq<CommState>, inputs: seq<Tensor>, env: Env, n: nat) returns (out: Outcome)
    requires |comms| == |inputs| > 0 && Distinct(comms)
    requires forall r | 0 <= r < |inputs| :: |inputs[r].values| == n
    modifies comms
    ensures out.Raised? <==> StrictError in Verdicts(env, old(Pendings(comms)), inputs)
    ensures out.Reduced? ==> out.value == Reduce(Contributions(env, old(Pendings(comms)), inputs), n)
    ensures out.Reduced? ==> forall r | 0 <= r < |comms| ::
              comms[r].lastConsumed == (old(comms[r].lastConsumed) || Verdicts(env, old(Pendings(comms)), inputs)[r].Folds?)
    ensures forall r | 0 <= r < |comms| :: comms[r].pending.None? || comms[r].pending == old(comms[r].pending)
  {
    hide Numel, Judge, Contribution, Reduce;
    ghost var ps := Pendings(comms);
    ghost var want := Contributions(env, ps, inputs);
    ghost var verdicts := Verdicts(env, ps, inputs);
    var parts: seq<Vec> := [];
    for r := 0 to |comms|
      invariant parts == want[..r]
      invariant StrictError !in verdicts[..r]
      invariant forall s | r <= s < |comms| ::
                  comms[s].pending == ps[s] && comms[s].lastConsumed == old(comms[s].lastConsumed)
      invariant forall s | 0 <= s < r :: comms[s].pending.None? || comms[s].pending == ps[s]
      invariant forall s | 0 <= s < r :: comms[s].lastConsumed == (old(comms[s].lastConsumed) || verdicts[s].Folds?)
    {
      var verdict, folded := comms[r].Consume(inputs[r], env, |comms|);
      assert verdict == verdicts[r];
      if verdict.StrictError? {
        return Raised;
      }
      parts := parts + [folded];
    }
    assert want[..|comms|] == want && verdicts[..|comms|] == verdicts;
    out := Reduced(Reduce(parts, n));
  }
}
