/** Bit arithmetic on non-negative integers, as JavaScript's `&` and `|`
    behave on numbers below 2^31. `Bit(x, k)` is bit k of x counted from
    the least-significant end. */
module Bits {

  function Pow2(k: nat): (r: nat)
    ensures r >= 1
  {
    if k == 0 then 1 else 2 * Pow2(k - 1)
  }

  predicate Bit(x: nat, k: nat) {
    if k == 0 then x % 2 == 1 else Bit(x / 2, k - 1)
  }

  /** `a & b`, one binary digit at a time. */
  function BitAnd(a: nat, b: nat): nat
    decreases a
  {
    if a == 0 || b == 0 then 0 else 2 * BitAnd(a / 2, b / 2) + (a % 2) * (b % 2)
  }

  /** `a | b`, one binary digit at a time. */
  function BitOr(a: nat, b: nat): nat
    decreases a + b
  {
    if a == 0 then b
    else if b == 0 then a
    else 2 * BitOr(a / 2, b / 2) + (if a % 2 == 1 || b % 2 == 1 then 1 else 0)
  }

  lemma {:induction false} Pow2Strict(j: nat, k: nat)
    requires j < k
    ensures Pow2(j) < Pow2(k)
  {
    if j < k - 1 {
      Pow2Strict(j, k - 1);
    }
  }

  lemma {:induction false} NoBitOfZero(k: nat)
    ensures !Bit(0, k)
  {
    if k > 0 {
      NoBitOfZero(k - 1);
    }
  }

  /** The only bit of 2^j is bit j. */
  lemma {:induction false} BitOfPow2(j: nat, k: nat)
    ensures Bit(Pow2(j), k) <==> j == k
  {
    if j == 0 {
      if k > 0 {
        NoBitOfZero(k - 1);
      }
    } else if k > 0 {
      BitOfPow2(j - 1, k - 1);
    }
  }

  /** Masking with a single bit keeps that bit and nothing else: `x & 2^k`
      is non-zero exactly when bit k of x is set. */
  lemma {:induction false} AndPow2(x: nat, k: nat)
    ensures BitAnd(x, Pow2(k)) == if Bit(x, k) then Pow2(k) else 0
  {
    if x == 0 {
      NoBitOfZero(k);
    } else if k == 0 {
      assert BitAnd(x / 2, 0) == 0;
    } else {
      AndPow2(x / 2, k - 1);
    }
  }

  /** Appending binary digit c below r: c is the lowest digit, r the rest. */
  lemma AppendDigit(r: nat, c: nat)
    requires c < 2
    ensures (2 * r + c) / 2 == r && (2 * r + c) % 2 == c
  {
  }

  lemma {:induction false} OrBits(a: nat, b: nat, k: nat)
    ensures Bit(BitOr(a, b), k) <==> Bit(a, k) || Bit(b, k)
    decreases a + b
  {
    if a == 0 {
      NoBitOfZero(k);
    } else if b == 0 {
      NoBitOfZero(k);
    } else {
      var r := BitOr(a / 2, b / 2);
      var c := if a % 2 == 1 || b % 2 == 1 then 1 else 0;
      assert BitOr(a, b) == 2 * r + c;
      AppendDigit(r, c);
      if k > 0 {
        OrBits(a / 2, b / 2, k - 1);
      }
    }
  }

  lemma {:induction false} OrBound(a: nat, b: nat, n: nat)
    requires a < Pow2(n) && b < Pow2(n)
    ensures BitOr(a, b) < Pow2(n)
    decreases a + b
  {
    if a != 0 && b != 0 {
      assert n > 0;
      OrBound(a / 2, b / 2, n - 1);
    }
  }
}
