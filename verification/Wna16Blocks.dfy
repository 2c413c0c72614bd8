/** The K block of the Triton WNA16 kernel: the largest block that divides K, from 64 or 32 downwards. */
module Wna16Blocks {
  import opened DivMod

  function Pow(k: nat): (p: nat)
    ensures p > 0
  {
    if k == 0 then 1 else 2 * Pow(k - 1)
  }

  predicate Divides(d: nat, n: nat) {
    d > 0 && n % d == 0
  }

  /** `d` is the greatest common divisor: every common divisor divides it. */
  ghost predicate IsGcd(d: nat, a: nat, b: nat) {
    d > 0 && a % d == 0 && b % d == 0 && forall e: nat | e > 0 && a % e == 0 && b % e == 0 :: d % e == 0
  }

  lemma DividesBy(d: nat, n: nat, q: nat)
    requires d > 0 && n == q * d
    ensures Divides(d, n)
  {
    DivUnique(n, d, q, 0);
  }

  lemma DividesTrans(a: nat, b: nat, c: nat)
    requires Divides(a, b) && Divides(b, c)
    ensures Divides(a, c)
  {
    var p, q := b / a, c / b;
    assert c == q * b == q * (p * a) == (q * p) * a;
    DividesBy(a, c, q * p);
  }

  lemma {:induction false} PowDivides(i: nat, j: nat)
    requires i <= j
    ensures Divides(Pow(i), Pow(j))
  {
    if i == j {
      DividesBy(Pow(i), Pow(j), 1);
    } else {
      PowDivides(i, j - 1);
      DividesBy(Pow(j - 1), Pow(j), 2);
      DividesTrans(Pow(i), Pow(j - 1), Pow(j));
    }
  }

  lemma OddTimesOdd(q: nat, e: nat)
    requires q % 2 == 1 && e % 2 == 1
    ensures q * e % 2 == 1
  {
    var a, b := q / 2, e / 2;
    assert q * e == 2 * (2 * a * b + a + b) + 1;
  }

  /** The divisors of a power of two are the smaller powers of two. */
  lemma {:induction false} DivisorOfPow(e: nat, k: nat) returns (j: nat)
    requires Divides(e, Pow(k))
    ensures j <= k && e == Pow(j)
  {
    if k == 0 {
      j := 0;
    } else {
      var half := Pow(k - 1);
      var q := Pow(k) / e;
      assert q * e == 2 * half;
      if q % 2 == 0 {
        assert half == (q / 2) * e;
        DividesBy(e, half, q / 2);
        j := DivisorOfPow(e, k - 1);
      } else {
        if e % 2 == 1 {
          OddTimesOdd(q, e);
        }
        var e' := e / 2;
        assert e == 2 * e' && half == q * e';
        DividesBy(e', half, q);
        j := DivisorOfPow(e', k - 1);
        j := j + 1;
      }
    }
  }

  /** The largest power of two up to the start that divides n is the greatest common divisor. */
  lemma LargestPowIsGcd(i: nat, s: nat, n: nat)
    requires i <= s && Divides(Pow(i), n)
    requires i == s || !Divides(Pow(i + 1), n)
    ensures IsGcd(Pow(i), Pow(s), n)
  {
    PowDivides(i, s);
    forall e: nat | e > 0 && Pow(s) % e == 0 && n % e == 0
      ensures Pow(i) % e == 0
    {
      var j := DivisorOfPow(e, s);
      if j > i {
        PowDivides(i + 1, j);
        DividesTrans(Pow(i + 1), e, n);
      } else {
        PowDivides(j, i);
      }
    }
  }

  /** `1 << (n.bit_length() - 1)` */
  method HighestPow(n: nat) returns (p: nat, ghost i: nat)
    requires n >= 1
    ensures p == Pow(i) <= n < Pow(i + 1)
  {
    p, i := 1, 0;
    while 2 * p <= n
      invariant p == Pow(i) <= n
      decreases n - p
    {
      p, i := 2 * p, i + 1;
    }
  }

  lemma TooLarge(d: nat, n: nat)
    requires d > n > 0
    ensures !Divides(d, n)
  {
  }

  lemma HalfPow(i: nat)
    requires i > 0
    ensures Pow(i) / 2 == Pow(i - 1)
  {
  }

  lemma SmallPows()
    ensures Pow(0) == 1 && Pow(4) == 16 && Pow(5) == 32 && Pow(6) == 64
  {
    assert Pow(1) == 2 && Pow(2) == 4 && Pow(3) == 8;
  }

  /** Halves a block larger than 16 until it divides or reaches 16. */
  method HalveTo16(start: nat, sizeK: nat, ghost s: nat) returns (block: nat, ghost i: nat)
    requires s >= 4 && start == Pow(s)
    ensures 4 <= i <= s && block == Pow(i)
    ensures i == s || !Divides(Pow(i + 1), sizeK)
    ensures Divides(block, sizeK) || block <= 16
  {
    hide Divides, Pow;
    block, i := start, s;
    SmallPows();
    while block > 16 && !Divides(block, sizeK)
      invariant 4 <= i <= s && block == Pow(i)
      invariant i == s || !Divides(Pow(i + 1), sizeK)
      decreases i
    {
      HalfPow(i);
      block, i := block / 2, i - 1;
    }
  }

  /** Halves a block that is too large or does not divide; one always divides in the end. */
  method HalveUntilDivides(start: nat, sizeK: nat, ghost s: nat) returns (block: nat, ghost i: nat)
    requires sizeK >= 1 && start == Pow(s) && !Divides(Pow(s + 1), sizeK)
    ensures block == Pow(i) && Divides(block, sizeK) && !Divides(Pow(i + 1), sizeK)
  {
    block, i := start, s;
    OneDivides(sizeK);
    hide Divides, Pow;
    while block > sizeK || !Divides(block, sizeK)
      invariant block == Pow(i) && !Divides(Pow(i + 1), sizeK)
      decreases i
    {
      if block > sizeK {
        TooLarge(block, sizeK);
      }
      HalfPow(i);
      block, i := block / 2, i - 1;
    }
  }

  lemma OneDivides(n: nat)
    requires n >= 1
    ensures Pow(0) == 1 && Divides(1, n)
  {
  }

  /** `get_moe_wna16_block_config`, Triton branch: block sizes for N and K. */
  method BlockConfig(numValidTokens: nat, topK: nat, sizeK: nat) returns (blockN: nat, blockK: nat)
    requires topK > 0 && sizeK >= 1
    ensures numValidTokens / topK == 1 ==> blockN == 32 && IsGcd(blockK, 64, sizeK)
    ensures numValidTokens / topK != 1 ==> blockN == 64 && IsGcd(blockK, 32, sizeK)
  {
    hide Divides, Pow, IsGcd;
    ghost var s: nat, i: nat;
    SmallPows();
    if numValidTokens / topK == 1 {
      blockN, blockK, s := 32, 64, 6;
    } else {
      blockN, blockK, s := 64, 32, 5;
    }
    blockK, i := HalveTo16(blockK, sizeK, s);
    if !Divides(blockK, sizeK) {
      assert blockK == Pow(4) by {
        PowMonotone(4, i);
      }
      blockK, i := HighestPow(sizeK);
      TooLarge(Pow(i + 1), sizeK);
      blockK, i := HalveUntilDivides(blockK, sizeK, i);
      if i >= 4 {
        PowDivides(4, i);
        DividesTrans(Pow(4), Pow(i), sizeK);
      }
    }
    LargestPowIsGcd(i, s, sizeK);
  }

  lemma {:induction false} PowMonotone(i: nat, j: nat)
    requires i <= j
    ensures Pow(i) <= Pow(j)
    ensures i < j ==> Pow(i) < Pow(j)
  {
    if i < j {
      PowMonotone(i, j - 1);
    }
  }
}
