/** The bitwise operators of JavaScript's BigInt: integers as endless two's complement bit strings. */
module BigBits {

  /** Bit `i` of `v`; a negative number has ones without end. */
  predicate Bit(v: int, i: nat)
    decreases i
  {
    if i == 0 then v % 2 == 1 else Bit(v / 2, i - 1)
  }

  /** How far `v` is from 0 or -1, whichever its bits end in. */
  function Size(v: int): nat { if v < 0 then -v - 1 else v }

  predicate Uniform(v: int) { v == 0 || v == -1 }

  function Xor(a: int, b: int): int
    decreases Size(a) + Size(b)
  {
    if Uniform(a) && Uniform(b) then if a == b then 0 else -1
    else 2 * Xor(a / 2, b / 2) + if a % 2 != b % 2 then 1 else 0
  }

  function And(a: int, b: int): int
    decreases Size(a) + Size(b)
  {
    if Uniform(a) && Uniform(b) then if a == b then a else 0
    else 2 * And(a / 2, b / 2) + if a % 2 == 1 && b % 2 == 1 then 1 else 0
  }

  function Or(a: int, b: int): int
    decreases Size(a) + Size(b)
  {
    if Uniform(a) && Uniform(b) then if a == b then a else -1
    else 2 * Or(a / 2, b / 2) + if a % 2 == 1 || b % 2 == 1 then 1 else 0
  }

  function Not(a: int): int { -a - 1 }

  function Pow2(n: nat): (p: nat)
    ensures p > 0
  {
    if n == 0 then 1 else 2 * Pow2(n - 1)
  }

  function Shl(v: int, n: nat): int { v * Pow2(n) }

  function Shr(v: int, n: nat): int { v / Pow2(n) }

  // ------------------------------------------------------------ what they do to bits

  lemma {:induction false} BitUniform(i: nat)
    ensures !Bit(0, i) && Bit(-1, i)
  {
    if i > 0 { BitUniform(i - 1); }
  }

  lemma {:induction false} BitXor(a: int, b: int, i: nat)
    ensures Bit(Xor(a, b), i) <==> Bit(a, i) != Bit(b, i)
    decreases i
  {
    if Uniform(a) && Uniform(b) { BitUniform(i); }
    else if i > 0 { BitXor(a / 2, b / 2, i - 1); }
  }

  lemma {:induction false} BitAnd(a: int, b: int, i: nat)
    ensures Bit(And(a, b), i) <==> Bit(a, i) && Bit(b, i)
    decreases i
  {
    if Uniform(a) && Uniform(b) { BitUniform(i); }
    else if i > 0 { BitAnd(a / 2, b / 2, i - 1); }
  }

  lemma {:induction false} BitOr(a: int, b: int, i: nat)
    ensures Bit(Or(a, b), i) <==> Bit(a, i) || Bit(b, i)
    decreases i
  {
    if Uniform(a) && Uniform(b) { BitUniform(i); }
    else if i > 0 { BitOr(a / 2, b / 2, i - 1); }
  }

  lemma {:induction false} BitNot(a: int, i: nat)
    ensures Bit(Not(a), i) <==> !Bit(a, i)
    decreases i
  {
    if i > 0 {
      assert Not(a) / 2 == Not(a / 2);
      BitNot(a / 2, i - 1);
    }
  }

  lemma {:induction false} BitShl(v: int, n: nat, i: nat)
    ensures Bit(Shl(v, n), i) <==> i >= n && Bit(v, i - n)
    decreases n
  {
    if n > 0 {
      var half := Shl(v, n - 1);
      assert Shl(v, n) == 2 * half;
      if i > 0 {
        assert Shl(v, n) / 2 == half;
        BitShl(v, n - 1, i - 1);
      }
    }
  }

  lemma HalfOfShift(v: int, p: int)
    requires p > 0
    ensures v / (2 * p) == (v / 2) / p
  {
    var q, r := (v / 2) / p, (v / 2) % p;
    assert v == 2 * (q * p + r) + v % 2;
    assert 0 <= 2 * r + v % 2 < 2 * p;
    assert v == q * (2 * p) + (2 * r + v % 2);
    DivideUnique(v, 2 * p, q, 2 * r + v % 2);
  }

  lemma DivideUnique(v: int, d: int, q: int, r: int)
    requires d > 0 && v == q * d + r && 0 <= r < d
    ensures v / d == q
  {
    var e := v / d - q;
    assert v == (v / d) * d + v % d;
    assert e * d == r - v % d;
    assert (e >= 1 ==> e * d >= d) && (e <= -1 ==> e * d <= -d);
  }

  lemma {:induction false} BitShr(v: int, n: nat, i: nat)
    ensures Bit(Shr(v, n), i) <==> Bit(v, i + n)
    decreases n
  {
    if n > 0 {
      HalfOfShift(v, Pow2(n - 1));
      BitShr(v / 2, n - 1, i);
    }
  }

  lemma {:induction false} BitMask(n: nat, i: nat)
    ensures Bit(Pow2(n) - 1, i) <==> i < n
    decreases i
  {
    if n == 0 { BitUniform(i); }
    else if i > 0 {
      assert (Pow2(n) - 1) / 2 == Pow2(n - 1) - 1;
      BitMask(n - 1, i - 1);
    }
  }

  // ------------------------------------------------------------ numbers from bits

  lemma {:induction false} NonZeroHasBit(v: int) returns (i: nat)
    requires v != 0
    ensures Bit(v, i)
    decreases Size(v)
  {
    if v == -1 || v % 2 == 1 { i := 0; }
    else {
      var j := NonZeroHasBit(v / 2);
      i := j + 1;
    }
  }

  ghost predicate NoBitsFrom(v: int, n: nat) { forall i: nat | i >= n :: !Bit(v, i) }

  lemma NoBitsHalf(v: int, n: nat)
    requires n > 0
    ensures NoBitsFrom(v, n) <==> NoBitsFrom(v / 2, n - 1)
  {
    if NoBitsFrom(v, n) {
      forall i: nat | i >= n - 1 ensures !Bit(v / 2, i) { assert !Bit(v, i + 1); }
    }
    if NoBitsFrom(v / 2, n - 1) {
      forall i: nat | i >= n ensures !Bit(v, i) { assert !Bit(v / 2, i - 1); }
    }
  }

  /** A number lies in `[0, 2^n)` exactly when it has no bit from `n` on. */
  lemma {:induction false} RangeIffBits(v: int, n: nat)
    ensures 0 <= v < Pow2(n) <==> NoBitsFrom(v, n)
    decreases n
  {
    if n == 0 {
      if v != 0 { var i := NonZeroHasBit(v); } else { forall i: nat ensures !Bit(0, i) { BitUniform(i); } }
    } else {
      RangeIffBits(v / 2, n - 1);
      NoBitsHalf(v, n);
    }
  }

  /** Low and high parts of a number keep their own bits. */
  lemma {:induction false} BitOfParts(low: int, high: int, n: nat, i: nat)
    requires 0 <= low < Pow2(n)
    ensures Bit(low + high * Pow2(n), i) <==> if i < n then Bit(low, i) else Bit(high, i - n)
    decreases n
  {
    if n > 0 {
      var v := low + high * Pow2(n);
      assert high * Pow2(n) == 2 * (high * Pow2(n - 1));
      assert v / 2 == low / 2 + high * Pow2(n - 1) && v % 2 == low % 2;
      if i > 0 { BitOfParts(low / 2, high, n - 1, i - 1); }
    }
  }
}
