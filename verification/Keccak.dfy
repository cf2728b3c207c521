/** The permutation over BigInt lanes, in place on 25 integers, against the bits of FIPS 202. */
module Keccak {
  import opened BigBits
  import opened KeccakSpec

  const MASK64 := 0xffff_ffff_ffff_ffff

  predicate Lane(v: int) { 0 <= v <= MASK64 }

  lemma MaskIsPow()
    ensures Pow2(64) == MASK64 + 1
  {
    assert Pow2(4) == 16;
    assert Pow2(8) == 256 && Pow2(12) == 4096;
    assert Pow2(16) == 65_536;
    assert Pow2(20) == 0x10_0000 && Pow2(24) == 0x100_0000;
    assert Pow2(28) == 0x1000_0000 && Pow2(32) == 0x1_0000_0000;
    assert Pow2(36) == 0x10_0000_0000 && Pow2(40) == 0x100_0000_0000;
    assert Pow2(44) == 0x1000_0000_0000 && Pow2(48) == 0x1_0000_0000_0000;
    assert Pow2(52) == 0x10_0000_0000_0000 && Pow2(56) == 0x100_0000_0000_0000;
    assert Pow2(60) == 0x1000_0000_0000_0000 && Pow2(64) == 0x1_0000_0000_0000_0000;
  }

  lemma LaneIffBits(v: int)
    ensures Lane(v) <==> NoBitsFrom(v, 64)
  {
    MaskIsPow();
    RangeIffBits(v, 64);
  }

  // ------------------------------------------------------------ lane operations

  function RotateLeft(value: int, count: nat): int
    requires count < 64
  {
    if count == 0 then And(value, MASK64)
    else And(Or(Shl(value, count), Shr(value, 64 - count)), MASK64)
  }

  lemma {:induction false} BitMasked(v: int, i: nat)
    ensures Bit(And(v, MASK64), i) <==> i < 64 && Bit(v, i)
  {
    MaskIsPow();
    BitMask(64, i);
    BitAnd(v, MASK64, i);
  }

  lemma {:induction false} MaskedIsLane(v: int)
    ensures Lane(And(v, MASK64))
  {
    forall i: nat | i >= 64 ensures !Bit(And(v, MASK64), i) { BitMasked(v, i); }
    LaneIffBits(And(v, MASK64));
  }

  /** `rotateLeft` moves bit `i` to `i + count` around the lane. */
  lemma {:induction false} RotateLeftBits(v: int, count: nat, z: nat)
    requires Lane(v) && count < 64 && z < 64
    ensures Lane(RotateLeft(v, count))
    ensures Bit(RotateLeft(v, count), z) <==> Bit(v, (z + 64 - count) % 64)
  {
    hide Bit, Or, And, Shl, Shr, Pow2;
    if count == 0 {
      MaskedIsLane(v);
      BitMasked(v, z);
    } else {
      var joined := Or(Shl(v, count), Shr(v, 64 - count));
      MaskedIsLane(joined);
      BitMasked(joined, z);
      BitOr(Shl(v, count), Shr(v, 64 - count), z);
      BitShl(v, count, z);
      BitShr(v, 64 - count, z);
      LaneIffBits(v);
    }
  }

  lemma {:induction false} LaneXor(a: int, b: int)
    requires Lane(a) && Lane(b)
    ensures Lane(Xor(a, b))
  {
    LaneIffBits(a);
    LaneIffBits(b);
    forall i: nat | i >= 64 ensures !Bit(Xor(a, b), i) { BitXor(a, b, i); }
    LaneIffBits(Xor(a, b));
  }

  /** The complement is negative, but what it masks is a lane again. */
  lemma {:induction false} LaneAndNot(a: int, b: int)
    requires Lane(b)
    ensures Lane(And(Not(a), b))
  {
    LaneIffBits(b);
    forall i: nat | i >= 64 ensures !Bit(And(Not(a), b), i) { BitAnd(Not(a), b, i); }
    LaneIffBits(And(Not(a), b));
  }

  // ------------------------------------------------------------ the steps on lanes

  type Lanes = s: seq<int> | |s| == 25 witness seq(25, i => 0)

  function ColumnLane(s: Lanes, x: nat): int
    requires x < 5
  {
    Xor(Xor(Xor(Xor(s[x], s[x + 5]), s[x + 10]), s[x + 15]), s[x + 20])
  }

  function Delta(s: Lanes, x: nat): int
    requires x < 5
  {
    Xor(ColumnLane(s, (x + 4) % 5), RotateLeft(ColumnLane(s, (x + 1) % 5), 1))
  }

  function ThetaLane(s: Lanes, i: nat): int
    requires i < 25
  {
    Xor(s[i], Delta(s, i % 5))
  }

  /** Where lane `(x, y)` goes, and where lane `i` comes from. */
  function Destination(x: nat, y: nat): nat { y + 5 * ((2 * x + 3 * y) % 5) }

  function SourceX(i: nat): nat { PiColumn(i % 5, i / 5) }

  function SourceY(i: nat): nat { i % 5 }

  lemma Inverse(x: nat, y: nat, row: nat)
    requires x < 5 && y < 5 && row < 5
    ensures (y + 3 * row) % 5 == x <==> (2 * x + 3 * y) % 5 == row
  {
    assert y == 0 || y == 1 || y == 2 || y == 3 || y == 4;
    assert row == 0 || row == 1 || row == 2 || row == 3 || row == 4;
    assert x == 0 || x == 1 || x == 2 || x == 3 || x == 4;
  }

  lemma DestinationOfSource(x: nat, y: nat, i: nat)
    requires x < 5 && y < 5 && i < 25
    ensures Destination(x, y) < 25
    ensures SourceX(i) == x && SourceY(i) == y <==> Destination(x, y) == i
  {
    Inverse(x, y, i / 5);
    var row := (2 * x + 3 * y) % 5;
    assert Destination(x, y) == y + 5 * row && i == i % 5 + 5 * (i / 5);
  }

  function RotatedLane(s: Lanes, x: nat, y: nat): int
    requires x < 5 && y < 5
  {
    RotateLeft(s[x + 5 * y], ROTATIONS[x + 5 * y])
  }

  function MixedLane(s: Lanes, i: nat): int
    requires i < 25
  {
    RotatedLane(s, SourceX(i), SourceY(i))
  }

  function ChiAt(m: Lanes, x: nat, y: nat): int
    requires x < 5 && y < 5
  {
    Xor(m[x + 5 * y], And(Not(m[(x + 1) % 5 + 5 * y]), m[(x + 2) % 5 + 5 * y]))
  }

  function ChiLane(m: Lanes, i: nat): int
    requires i < 25
  {
    ChiAt(m, i % 5, i / 5)
  }

  function ThetaLanes(s: Lanes): Lanes { seq(25, i requires 0 <= i < 25 => ThetaLane(s, i)) }

  function MixedLanes(s: Lanes): Lanes { seq(25, i requires 0 <= i < 25 => MixedLane(s, i)) }

  function ChiLanes(m: Lanes): Lanes { seq(25, i requires 0 <= i < 25 => ChiLane(m, i)) }

  function IotaLanes(s: Lanes, k: nat): Lanes
    requires k < 24
  {
    s[0 := Xor(s[0], ROUND_CONSTANTS[k])]
  }

  function RoundLanes(s: Lanes, k: nat): Lanes
    requires k < 24
  {
    IotaLanes(ChiLanes(MixedLanes(ThetaLanes(s))), k)
  }

  function RoundsLanes(s: Lanes, n: nat): Lanes
    requires n <= 24
  {
    if n == 0 then s else RoundLanes(RoundsLanes(s, n - 1), n - 1)
  }

  // ------------------------------------------------------------ refinement

  predicate SameBit(s: Lanes, a: Bits, i: nat, z: nat)
    requires i < 25
  {
    Bit(s[i], z) <==> a(i % 5, i / 5, z)
  }

  /** Every integer is a 64-bit lane, and its bits are those of the state array. */
  ghost predicate Represents(s: Lanes, a: Bits) {
    && (forall i | 0 <= i < 25 :: Lane(s[i]))
    && (forall i: nat, z: nat | i < 25 && z < 64 :: SameBit(s, a, i, z))
  }

  lemma {:induction false} ColumnBits(s: Lanes, a: Bits, x: nat, z: nat)
    requires Represents(s, a) && x < 5 && z < 64
    ensures Lane(ColumnLane(s, x)) && (Bit(ColumnLane(s, x), z) <==> Parity(a, x, z))
  {
    hide Bit, Xor, Lane;
    var c1 := Xor(s[x], s[x + 5]);
    var c2 := Xor(c1, s[x + 10]);
    var c3 := Xor(c2, s[x + 15]);
    LaneXor(s[x], s[x + 5]);
    LaneXor(c1, s[x + 10]);
    LaneXor(c2, s[x + 15]);
    LaneXor(c3, s[x + 20]);
    BitXor(s[x], s[x + 5], z);
    BitXor(c1, s[x + 10], z);
    BitXor(c2, s[x + 15], z);
    BitXor(c3, s[x + 20], z);
    assert SameBit(s, a, x, z) && SameBit(s, a, x + 5, z) && SameBit(s, a, x + 10, z) && SameBit(s, a, x + 15, z);
    assert SameBit(s, a, x + 20, z);
  }

  lemma {:induction false} ThetaBits(s: Lanes, a: Bits, i: nat, z: nat)
    requires Represents(s, a) && i < 25 && z < 64
    ensures Lane(ThetaLane(s, i)) && (Bit(ThetaLane(s, i), z) <==> Theta(a)(i % 5, i / 5, z))
  {
    hide Bit, Xor, Lane, ColumnLane, RotateLeft, Parity;
    var x := i % 5;
    var left, right := ColumnLane(s, (x + 4) % 5), ColumnLane(s, (x + 1) % 5);
    ColumnBits(s, a, (x + 4) % 5, z);
    ColumnBits(s, a, (x + 1) % 5, (z + 63) % 64);
    RotateLeftBits(right, 1, z);
    LaneXor(left, RotateLeft(right, 1));
    BitXor(left, RotateLeft(right, 1), z);
    LaneXor(s[i], Delta(s, x));
    BitXor(s[i], Delta(s, x), z);
    assert SameBit(s, a, i, z);
  }

  lemma {:induction false} BitsAt(s: Lanes, a: Bits, x: nat, y: nat, z: nat)
    requires Represents(s, a) && x < 5 && y < 5 && z < 64
    ensures Lane(s[x + 5 * y]) && (Bit(s[x + 5 * y], z) <==> a(x, y, z))
  {
    hide Bit;
    assert (x + 5 * y) % 5 == x && (x + 5 * y) / 5 == y;
    assert SameBit(s, a, x + 5 * y, z);
  }

  lemma {:induction false} RotatedBits(s: Lanes, a: Bits, x: nat, y: nat, z: nat)
    requires Represents(s, a) && x < 5 && y < 5 && z < 64
    ensures Lane(RotatedLane(s, x, y)) && (Bit(RotatedLane(s, x, y), z) <==> Rho(a)(x, y, z))
  {
    RotationsAreOffsets(x, y);
    hide Bit, Lane, RotateLeft, Offset, Represents, ROTATIONS;
    BitsAt(s, a, x, y, (z + 64 - Offset(x, y)) % 64);
    RotateLeftBits(s[x + 5 * y], ROTATIONS[x + 5 * y], z);
  }

  lemma {:induction false} MixedBitsAt(s: Lanes, a: Bits, x: nat, y: nat, z: nat)
    requires Represents(s, a) && x < 5 && y < 5 && z < 64
    ensures var v := RotatedLane(s, PiColumn(x, y), x);
            Lane(v) && (Bit(v, z) <==> Pi(Rho(a))(x, y, z))
  {
    hide Bit, Lane, RotatedLane, Rho, Pi, Represents;
    PiAt(Rho(a), x, y, z);
    RotatedBits(s, a, PiColumn(x, y), x, z);
  }

  lemma PiAt(b: Bits, x: nat, y: nat, z: nat)
    ensures Pi(b)(x, y, z) == b(PiColumn(x, y), x, z)
  {
  }

  lemma {:induction false} MixedBits(s: Lanes, a: Bits, i: nat, z: nat)
    requires Represents(s, a) && i < 25 && z < 64
    ensures Lane(MixedLane(s, i)) && (Bit(MixedLane(s, i), z) <==> Pi(Rho(a))(i % 5, i / 5, z))
  {
    hide Bit, Lane, RotatedLane, Rho, Pi, Represents;
    MixedBitsAt(s, a, i % 5, i / 5, z);
  }

  lemma {:induction false} ChiBitsAt(s: Lanes, a: Bits, x: nat, y: nat, z: nat)
    requires Represents(s, a) && x < 5 && y < 5 && z < 64
    ensures Lane(ChiAt(s, x, y)) && (Bit(ChiAt(s, x, y), z) <==> Chi(a)(x, y, z))
  {
    hide Bit, Xor, And, Not, Lane, Represents;
    var p, q := s[(x + 1) % 5 + 5 * y], s[(x + 2) % 5 + 5 * y];
    BitsAt(s, a, x, y, z);
    BitsAt(s, a, (x + 1) % 5, y, z);
    BitsAt(s, a, (x + 2) % 5, y, z);
    LaneAndNot(p, q);
    LaneXor(s[x + 5 * y], And(Not(p), q));
    BitNot(p, z);
    BitAnd(Not(p), q, z);
    BitXor(s[x + 5 * y], And(Not(p), q), z);
  }

  lemma {:induction false} ChiBits(s: Lanes, a: Bits, i: nat, z: nat)
    requires Represents(s, a) && i < 25 && z < 64
    ensures Lane(ChiLane(s, i)) && (Bit(ChiLane(s, i), z) <==> Chi(a)(i % 5, i / 5, z))
  {
    hide Bit, Lane, ChiAt, Chi, Represents;
    ChiBitsAt(s, a, i % 5, i / 5, z);
  }

  lemma {:induction false} DigitBit(b: bool, z: nat)
    ensures Bit(Digit(b), z) <==> z == 0 && b
  {
    if z > 0 { BitUniform(z - 1); }
  }

  lemma Layer(b: bool, v: int, n: nat, m: nat, z: nat)
    requires n >= 1 && m == Pow2(n)
    ensures Bit(Digit(b) + m * v, z) <==> if z < n then z == 0 && b else Bit(v, z - n)
  {
    BitOfParts(Digit(b), v, n, z);
    DigitBit(b, z);
  }

  lemma HighSparseBits(b4: bool, b5: bool, b6: bool, z: nat)
    ensures Bit(Digit(b4) + 0x1_0000 * (Digit(b5) + 0x1_0000_0000 * Digit(b6)), z) <==>
            (z == 0 && b4) || (z == 16 && b5) || (z == 48 && b6)
  {
    SmallPowers();
    hide Bit, Pow2, Digit;
    Layer(b4, Digit(b5) + 0x1_0000_0000 * Digit(b6), 16, 0x1_0000, z);
    if z >= 16 { Layer(b5, Digit(b6), 32, 0x1_0000_0000, z - 16); }
    if z >= 48 { DigitBit(b6, z - 48); }
  }

  lemma {:induction false} SparseBits(b0: bool, b1: bool, b2: bool, b3: bool, b4: bool, b5: bool, b6: bool, z: nat)
    ensures Bit(Sparse(b0, b1, b2, b3, b4, b5, b6), z) <==>
            (z == 0 && b0) || (z == 1 && b1) || (z == 3 && b2) || (z == 7 && b3) || (z == 15 && b4) || (z == 31 && b5) || (z == 63 && b6)
  {
    SmallPowers();
    hide Bit, Pow2, Digit;
    var v4 := Digit(b4) + 0x1_0000 * (Digit(b5) + 0x1_0000_0000 * Digit(b6));
    var v3 := Digit(b3) + 256 * v4;
    var v2 := Digit(b2) + 16 * v3;
    var v1 := Digit(b1) + 4 * v2;
    Layer(b0, v1, 1, 2, z);
    if z >= 1 { Layer(b1, v2, 2, 4, z - 1); }
    if z >= 3 { Layer(b2, v3, 4, 16, z - 3); }
    if z >= 7 { Layer(b3, v4, 8, 256, z - 7); }
    if z >= 15 { HighSparseBits(b4, b5, b6, z - 15); }
  }

  lemma SparseIsLane(b0: bool, b1: bool, b2: bool, b3: bool, b4: bool, b5: bool, b6: bool)
    ensures Lane(Sparse(b0, b1, b2, b3, b4, b5, b6))
  {
  }

  lemma SmallPowers()
    ensures Pow2(1) == 2 && Pow2(2) == 4 && Pow2(4) == 16 && Pow2(8) == 256 && Pow2(16) == 0x1_0000 && Pow2(32) == 0x1_0000_0000
  {
    assert Pow2(6) == 64 && Pow2(10) == 1024 && Pow2(12) == 4096 && Pow2(14) == 16_384;
    assert Pow2(18) == 0x4_0000 && Pow2(20) == 0x10_0000 && Pow2(22) == 0x40_0000 && Pow2(24) == 0x100_0000;
    assert Pow2(26) == 0x400_0000 && Pow2(28) == 0x1000_0000 && Pow2(30) == 0x4000_0000;
  }

  /** The table of round constants is Algorithm 5, bit by bit. */
  lemma {:induction false} ConstantBits(k: nat, z: nat)
    requires k < 24
    ensures Lane(ROUND_CONSTANTS[k]) && (z < 64 ==> (Bit(ROUND_CONSTANTS[k], z) <==> RoundBit(k, z)))
  {
    hide Bit, Sparse, RegisterAt, Register;
    ConstantIsSparse(k);
    RegisterIs(k);
    SevenShifts(7 * k);
    var r := RegisterAt(k);
    SparseIsLane(r.r0, r.r7, r.r6, r.r5 != r.r7, Rc(7 * k + 4), Rc(7 * k + 5), Rc(7 * k + 6));
    SparseBits(r.r0, r.r7, r.r6, r.r5 != r.r7, Rc(7 * k + 4), Rc(7 * k + 5), Rc(7 * k + 6), z);
  }

  lemma IotaRefines(s: Lanes, a: Bits, k: nat)
    requires Represents(s, a) && k < 24
    ensures Represents(IotaLanes(s, k), Iota(a, k))
  {
    hide Bit, Xor, Lane, RoundBit;
    var t, b := IotaLanes(s, k), Iota(a, k);
    ConstantBits(k, 0);
    LaneXor(s[0], ROUND_CONSTANTS[k]);
    forall i: nat, z: nat | i < 25 && z < 64 ensures SameBit(t, b, i, z) {
      assert SameBit(s, a, i, z);
      if i == 0 {
        ConstantBits(k, z);
        BitXor(s[0], ROUND_CONSTANTS[k], z);
      }
    }
  }

  lemma ThetaRefines(s: Lanes, a: Bits)
    requires Represents(s, a)
    ensures Represents(ThetaLanes(s), Theta(a))
  {
    hide Bit, ThetaLane, Theta, Lane;
    forall i: nat, z: nat | i < 25 && z < 64 ensures Lane(ThetaLanes(s)[i]) && SameBit(ThetaLanes(s), Theta(a), i, z) {
      ThetaBits(s, a, i, z);
    }
    forall i: nat | i < 25 ensures Lane(ThetaLanes(s)[i]) { ThetaBits(s, a, i, 0); }
  }

  lemma MixedRefines(s: Lanes, a: Bits)
    requires Represents(s, a)
    ensures Represents(MixedLanes(s), Pi(Rho(a)))
  {
    hide Bit, MixedLane, Pi, Rho, Lane;
    forall i: nat, z: nat | i < 25 && z < 64 ensures SameBit(MixedLanes(s), Pi(Rho(a)), i, z) { MixedBits(s, a, i, z); }
    forall i: nat | i < 25 ensures Lane(MixedLanes(s)[i]) { MixedBits(s, a, i, 0); }
  }

  lemma ChiRefines(s: Lanes, a: Bits)
    requires Represents(s, a)
    ensures Represents(ChiLanes(s), Chi(a))
  {
    hide Bit, ChiLane, Chi, Lane;
    forall i: nat, z: nat | i < 25 && z < 64 ensures SameBit(ChiLanes(s), Chi(a), i, z) { ChiBits(s, a, i, z); }
    forall i: nat | i < 25 ensures Lane(ChiLanes(s)[i]) { ChiBits(s, a, i, 0); }
  }

  /** Rounds on lanes are the rounds of FIPS 202, and every integer in between is a lane. */
  lemma {:induction false} RoundsRefine(s: Lanes, a: Bits, n: nat)
    requires Represents(s, a) && n <= 24
    ensures Represents(RoundsLanes(s, n), Rounds(a, n))
  {
    if n > 0 {
      hide Represents, ThetaLanes, MixedLanes, ChiLanes, IotaLanes, Theta, Rho, Pi, Chi, Iota;
      RoundsRefine(s, a, n - 1);
      var t, b := RoundsLanes(s, n - 1), Rounds(a, n - 1);
      ThetaRefines(t, b);
      MixedRefines(ThetaLanes(t), Theta(b));
      ChiRefines(MixedLanes(ThetaLanes(t)), Pi(Rho(Theta(b))));
      IotaRefines(ChiLanes(MixedLanes(ThetaLanes(t))), Chi(Pi(Rho(Theta(b)))), n - 1);
    }
  }
}
