/**
 The algebra of online softmax, one row at a time. A running pair (maximum, scaled total) is read
 through `Mass`, which undoes the scaling; under that reading a step is plain addition, the initial
 total of one is exactly the sink, and the reset of a fully masked maximum to zero needs no case.
 */
module OnlineSoftmax {
  import opened Sums
  import opened Scores

  /** `m_j`: the running maximum, or zero when the whole row is still masked. */
  function NewMax(old_: Score, row: seq<Score>): real {
    var mj := Max(old_, MaxOf(row));
    if mj.Fin? then mj.v else 0.0
  }

  lemma NewMaxBounds(old_: Score, row: seq<Score>)
    ensures Le(old_, Fin(NewMax(old_, row)))
    ensures forall t | 0 <= t < |row| :: Le(row[t], Fin(NewMax(old_, row)))
  {
    MaxOfBounds(row);
  }

  lemma DenominatorStep(e: real -> real, row: seq<Score>, mj: real, P: seq<real>, M: Score, L: real,
                        f: int -> real, base: int)
    requires IsExp(e) && |row| == |P|
    requires forall t | 0 <= t < |row| :: P[t] == ExpAt(e, row[t], mj)
    requires forall t | 0 <= t < |row| :: f(base + t) == Weight(e, row[t])
    ensures Mass(e, Fin(mj), Fold(e, L, M, mj, Tot(P))) == Mass(e, M, L) + Sum(f, base, base + |row|)
  {
    hide Fold, Mass, Tot, ExpAt, Weight;
    forall t | 0 <= t < |P|
      ensures Mass(e, Fin(mj), P[t]) == f(base + t)
    {
      ExpAtMass(e, row[t], mj);
    }
    TotMass(e, Fin(mj), P, f, base);
    FoldMass(e, M, L, mj, Tot(P));
  }

  lemma NumeratorStep(e: real -> real, row: seq<Score>, mj: real, P: seq<real>, V: seq<real>, M: Score, a: real,
                      f: int -> real, base: int)
    requires IsExp(e) && |row| == |P| == |V|
    requires forall t | 0 <= t < |row| :: P[t] == ExpAt(e, row[t], mj)
    requires forall t | 0 <= t < |row| :: f(base + t) == Weighted(e, row[t], V[t])
    ensures Mass(e, Fin(mj), Fold(e, a, M, mj, DotLanes(P, V))) == Mass(e, M, a) + Sum(f, base, base + |row|)
  {
    hide Fold, Mass, Tot, ExpAt, Weighted;
    var PV := seq(|P|, t requires 0 <= t < |P| => Times(P[t], V[t]));
    forall t | 0 <= t < |PV|
      ensures Mass(e, Fin(mj), PV[t]) == f(base + t)
    {
      ExpAtMassTimes(e, row[t], mj, P[t], V[t], PV[t]);
    }
    TotMass(e, Fin(mj), PV, f, base);
    FoldMass(e, M, a, mj, DotLanes(P, V));
  }
}
