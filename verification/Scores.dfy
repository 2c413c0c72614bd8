/**
 Attention scores over the reals extended with minus infinity, and the laws of the exponential
 that softmax relies on. The exponential is a parameter: every result holds for every positive
 function that turns sums into products.
 */
module Scores {
  import opened Sums

  datatype Score = NegInf | Fin(v: real)

  predicate Le(a: Score, b: Score) {
    a.NegInf? || (b.Fin? && a.v <= b.v)
  }

  function Max(a: Score, b: Score): Score {
    if Le(a, b) then b else a
  }

  /** The largest of a vector of scores, as a reduction over lanes computes it. */
  function MaxOf(s: seq<Score>): Score {
    if s == [] then NegInf else Max(MaxOf(s[..|s| - 1]), s[|s| - 1])
  }

  ghost predicate AddLaw(e: real -> real, x: real, y: real) {
    e(x + y) == e(x) * e(y)
  }

  ghost predicate IsExp(e: real -> real) {
    && (forall x :: e(x) > 0.0)
    && (forall x, y {:trigger AddLaw(e, x, y)} :: AddLaw(e, x, y))
  }

  /** The law is consistent. */
  lemma SomeExp()
    ensures IsExp((x: real) => 1.0)
  {
  }

  /** exp(s - m), with exp(-inf) = 0. */
  function ExpAt(e: real -> real, s: Score, m: real): real {
    if s.NegInf? then 0.0 else e(s.v - m)
  }

  /** exp(s), with exp(-inf) = 0: the softmax weight of a score before normalisation. */
  function Weight(e: real -> real, s: Score): real {
    if s.NegInf? then 0.0 else e(s.v)
  }

  /** The weight of a score times the value it attends to. */
  function Weighted(e: real -> real, s: Score, v: real): real {
    Weight(e, s) * v
  }

  /** A running total rescaled from maximum `from` to `m`. */
  function Rescaled(e: real -> real, total: real, from: Score, m: real): real {
    total * ExpAt(e, from, m)
  }

  /** The same, plus what a new tile adds. */
  function Fold(e: real -> real, total: real, from: Score, m: real, added: real): real {
    Rescaled(e, total, from, m) + added
  }

  /** A quotient that is zero when the denominator is. */
  function Ratio(num: real, den: real): real {
    if den == 0.0 then 0.0 else num / den
  }

  /** What a running pair (maximum, scaled total) stands for once the scaling is undone. */
  function Mass(e: real -> real, m: Score, total: real): real {
    if m.NegInf? then 0.0 else total * e(m.v)
  }

  lemma ExpAtMass(e: real -> real, s: Score, m: real)
    requires IsExp(e)
    ensures Mass(e, Fin(m), ExpAt(e, s, m)) == Weight(e, s)
  {
    if s.Fin? {
      assert AddLaw(e, s.v - m, m);
      assert s.v - m + m == s.v;
    }
  }

  lemma ExpAtMassTimes(e: real -> real, s: Score, m: real, w: real, v: real, lane: real)
    requires IsExp(e) && w == ExpAt(e, s, m) && lane == w * v
    ensures Mass(e, Fin(m), lane) == Weighted(e, s, v)
  {
    ExpAtMass(e, s, m);
    assert (w * v) * e(m) == (w * e(m)) * v;
  }

  /** Rescaling a running total from one reference maximum to another keeps what it stands for. */
  lemma RescaleMass(e: real -> real, s: Score, total: real, m: real)
    requires IsExp(e)
    ensures Mass(e, Fin(m), Rescaled(e, total, s, m)) == Mass(e, s, total)
  {
    ExpAtMass(e, s, m);
    assert (total * ExpAt(e, s, m)) * e(m) == total * (ExpAt(e, s, m) * e(m));
  }

  lemma MassAdd(e: real -> real, m: Score, a: real, b: real)
    ensures Mass(e, m, a + b) == Mass(e, m, a) + Mass(e, m, b)
  {
  }

  lemma FoldMass(e: real -> real, s: Score, total: real, m: real, added: real)
    requires IsExp(e)
    ensures Mass(e, Fin(m), Fold(e, total, s, m, added)) == Mass(e, s, total) + Mass(e, Fin(m), added)
  {
    RescaleMass(e, s, total, m);
    MassAdd(e, Fin(m), Rescaled(e, total, s, m), added);
  }

  /** A vector of lanes scaled against one maximum stands for the sum of what its lanes stand for. */
  lemma {:induction false} TotMass(e: real -> real, m: Score, s: seq<real>, f: int -> real, base: int)
    requires forall t | 0 <= t < |s| :: Mass(e, m, s[t]) == f(base + t)
    ensures Mass(e, m, Tot(s)) == Sum(f, base, base + |s|)
  {
    hide Mass;
    if s == [] {
      MassZero(e, m);
    } else {
      var n := |s| - 1;
      TotMass(e, m, s[..n], f, base);
      MassAdd(e, m, Tot(s[..n]), s[n]);
      assert Mass(e, m, s[n]) == f(base + n);
    }
  }

  lemma MassZero(e: real -> real, m: Score)
    ensures Mass(e, m, 0.0) == 0.0
  {
  }

  lemma {:induction false} MaxOfBounds(s: seq<Score>)
    ensures forall i | 0 <= i < |s| :: Le(s[i], MaxOf(s))
    ensures MaxOf(s).Fin? ==> MaxOf(s) in s
  {
    if s != [] {
      var n := |s| - 1;
      MaxOfBounds(s[..n]);
      forall i | 0 <= i < |s|
        ensures Le(s[i], MaxOf(s))
      {
        if i < n {
          assert s[i] == s[..n][i];
        }
      }
    }
  }
}
