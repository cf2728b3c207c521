/**
KECCAK-f[1600] as FIPS 202 defines it: the step mappings of section 3.2 on single bits
A[x, y, z], their constants from Algorithms 2 and 5, and the rounds of section 3.3.
*/
module KeccakSpec {
  type Bits = (nat, nat, nat) -> bool

  function Parity(a: Bits, x: nat, z: nat): bool {
    (((a(x, 0, z) != a(x, 1, z)) != a(x, 2, z)) != a(x, 3, z)) != a(x, 4, z)
  }

  /** Section 3.2.1. */
  function Theta(a: Bits): Bits {
    (x: nat, y: nat, z: nat) => a(x, y, z) != (Parity(a, (x + 4) % 5, z) != Parity(a, (x + 1) % 5, (z + 63) % 64))
  }

  /** The positions that Algorithm 2 visits. */
  function Walk(t: nat): (nat, nat) {
    if t == 0 then (1, 0) else Onward(Walk(t - 1))
  }

  function Onward(at: (nat, nat)): (nat, nat) { (at.1, (2 * at.0 + 3 * at.1) % 5) }

  function Triangle(t: nat): nat { (t + 1) * (t + 2) / 2 }

  predicate VisitedAt(t: nat, x: nat, y: nat) { t < 24 && Walk(t) == (x, y) }

  ghost function Offset(x: nat, y: nat): (r: nat)
    ensures r < 64
  {
    if t: nat :| VisitedAt(t, x, y) then Triangle(t) % 64 else 0
  }

  /** Section 3.2.2. */
  ghost function Rho(a: Bits): Bits { (x: nat, y: nat, z: nat) => a(x, y, (z + 64 - Offset(x, y)) % 64) }

  function PiColumn(x: nat, y: nat): nat { (x + 3 * y) % 5 }

  /** Section 3.2.3. */
  function Pi(a: Bits): Bits { (x: nat, y: nat, z: nat) => a(PiColumn(x, y), x, z) }

  /** Section 3.2.4. */
  function Chi(a: Bits): Bits {
    (x: nat, y: nat, z: nat) => a(x, y, z) != (!a((x + 1) % 5, y, z) && a((x + 2) % 5, y, z))
  }

  /** The register of Algorithm 5. */
  datatype Lfsr8 = Lfsr8(r0: bool, r1: bool, r2: bool, r3: bool, r4: bool, r5: bool, r6: bool, r7: bool)

  function Shift(r: Lfsr8): Lfsr8 { Lfsr8(r.r7, r.r0, r.r1, r.r2, r.r3 != r.r7, r.r4 != r.r7, r.r5 != r.r7, r.r6) }

  function Register(t: nat): Lfsr8 {
    if t == 0 then Lfsr8(true, false, false, false, false, false, false, false) else Shift(Register(t - 1))
  }

  predicate Rc(t: nat) { Register(t).r0 }

  /** Bit `z` of the round constant: Algorithm 6 sets only the bits `2^j - 1`. */
  predicate RoundBit(k: nat, z: nat) {
    || (z == 0 && Rc(7 * k)) || (z == 1 && Rc(7 * k + 1)) || (z == 3 && Rc(7 * k + 2)) || (z == 7 && Rc(7 * k + 3))
    || (z == 15 && Rc(7 * k + 4)) || (z == 31 && Rc(7 * k + 5)) || (z == 63 && Rc(7 * k + 6))
  }

  /** Section 3.2.5. */
  function Iota(a: Bits, k: nat): Bits {
    (x: nat, y: nat, z: nat) => a(x, y, z) != (x == 0 && y == 0 && RoundBit(k, z))
  }

  ghost function Rounds(a: Bits, n: nat): Bits {
    if n == 0 then a else Iota(Chi(Pi(Rho(Theta(Rounds(a, n - 1))))), n - 1)
  }

  ghost function KeccakF(a: Bits): Bits { Rounds(a, 24) }

  // ------------------------------------------------------------ the offsets as a table

  const ROTATIONS: seq<nat> := [
    0, 1, 62, 28, 27, 36, 44, 6, 55, 20, 3, 10, 43, 25, 39, 41, 45, 15, 21, 8, 18, 2, 61, 56, 14]

  function Place(t: nat): (nat, nat) {
    if t == 0 then (1, 0)
    else if t == 1 then (0, 2)
    else if t == 2 then (2, 1)
    else if t == 3 then (1, 2)
    else if t == 4 then (2, 3)
    else if t == 5 then (3, 3)
    else if t == 6 then (3, 0)
    else if t == 7 then (0, 1)
    else if t == 8 then (1, 3)
    else if t == 9 then (3, 1)
    else if t == 10 then (1, 4)
    else if t == 11 then (4, 4)
    else if t == 12 then (4, 0)
    else if t == 13 then (0, 3)
    else if t == 14 then (3, 4)
    else if t == 15 then (4, 3)
    else if t == 16 then (3, 2)
    else if t == 17 then (2, 2)
    else if t == 18 then (2, 0)
    else if t == 19 then (0, 4)
    else if t == 20 then (4, 2)
    else if t == 21 then (2, 4)
    else if t == 22 then (4, 1)
    else (1, 1)
  }

  function PlaceIndex(i: nat): nat
    requires i < 25
  {
    [0, 0, 18, 6, 12, 7, 23, 2, 9, 22, 1, 3, 17, 16, 20, 13, 8, 4, 5, 15, 19, 10, 21, 14, 11][i]
  }

  lemma NextPlace(t: nat)
    requires 0 < t < 24
    ensures Place(t) == Onward(Place(t - 1))
  {
  }

  lemma {:induction false} WalkIsPlace(t: nat)
    requires t < 24
    ensures Walk(t) == Place(t)
  {
    hide Onward;
    if t > 0 {
      hide Place;
      WalkIsPlace(t - 1);
      NextPlace(t);
    }
  }

  lemma PlaceRotation(t: nat)
    requires t < 24
    ensures var (x, y) := Place(t);
            x < 5 && y < 5 && (x, y) != (0, 0) && ROTATIONS[x + 5 * y] == Triangle(t) % 64
  {
  }

  lemma PlaceCovers(x: nat, y: nat)
    requires x < 5 && y < 5 && (x, y) != (0, 0)
    ensures PlaceIndex(x + 5 * y) < 24 && Place(PlaceIndex(x + 5 * y)) == (x, y)
  {
  }

  /** The rotation table is Algorithm 2: every position but (0, 0) is visited, and at its triangular number. */
  lemma RotationsAreOffsets(x: nat, y: nat)
    requires x < 5 && y < 5
    ensures ROTATIONS[x + 5 * y] == Offset(x, y)
  {
    if (x, y) != (0, 0) {
      PlaceCovers(x, y);
      WalkIsPlace(PlaceIndex(x + 5 * y));
      assert VisitedAt(PlaceIndex(x + 5 * y), x, y);
    }
    forall t: nat | VisitedAt(t, x, y) ensures (x, y) != (0, 0) && ROTATIONS[x + 5 * y] == Triangle(t) % 64 {
      WalkIsPlace(t);
      PlaceRotation(t);
    }
  }

  // ------------------------------------------------------------ the round constants as a table

  const ROUND_CONSTANTS: seq<int> := [
    0x0000000000000001, 0x0000000000008082, 0x800000000000808a, 0x8000000080008000,
    0x000000000000808b, 0x0000000080000001, 0x8000000080008081, 0x8000000000008009,
    0x000000000000008a, 0x0000000000000088, 0x0000000080008009, 0x000000008000000a,
    0x000000008000808b, 0x800000000000008b, 0x8000000000008089, 0x8000000000008003,
    0x8000000000008002, 0x8000000000000080, 0x000000000000800a, 0x800000008000000a,
    0x8000000080008081, 0x8000000000008080, 0x0000000080000001, 0x8000000080008008]

  function RegistersA(k: nat): Lfsr8 {
    if k == 0 then Lfsr8(true, false, false, false, false, false, false, false) else
    if k == 1 then Lfsr8(false, false, false, false, false, false, false, true) else
    if k == 2 then Lfsr8(false, false, false, true, true, false, true, true) else
    if k == 3 then Lfsr8(false, true, false, true, true, false, false, false) else
    if k == 4 then Lfsr8(true, true, true, true, true, false, true, true) else
    Lfsr8(true, false, false, true, false, false, false, false)
  }

  function RegistersB(k: nat): Lfsr8 {
    if k == 6 then Lfsr8(true, false, true, false, true, true, false, false) else
    if k == 7 then Lfsr8(true, true, true, true, false, false, true, false) else
    if k == 8 then Lfsr8(false, true, false, true, false, false, true, true) else
    if k == 9 then Lfsr8(false, false, false, false, true, true, true, false) else
    if k == 10 then Lfsr8(true, false, false, false, false, false, true, false) else
    Lfsr8(false, false, true, true, false, true, true, true)
  }

  function RegistersC(k: nat): Lfsr8 {
    if k == 12 then Lfsr8(true, false, true, false, true, false, true, true) else
    if k == 13 then Lfsr8(true, false, true, true, false, false, true, true) else
    if k == 14 then Lfsr8(true, true, false, false, false, true, true, false) else
    if k == 15 then Lfsr8(true, true, false, true, false, true, false, true) else
    if k == 16 then Lfsr8(false, true, false, true, false, true, false, true) else
    Lfsr8(false, true, false, true, false, true, false, false)
  }

  function RegistersD(k: nat): Lfsr8 {
    if k == 18 then Lfsr8(false, true, false, false, true, true, true, true) else
    if k == 19 then Lfsr8(false, false, false, true, false, true, true, true) else
    if k == 20 then Lfsr8(true, true, true, false, true, true, false, false) else
    if k == 21 then Lfsr8(false, true, true, true, true, true, false, false) else
    if k == 22 then Lfsr8(true, true, false, true, false, false, false, false) else
    Lfsr8(false, false, true, false, false, false, true, false)
  }

  /** The register after `7 * k` shifts, as a table. */
  function RegisterAt(k: nat): Lfsr8 {
    if k < 6 then RegistersA(k) else if k < 12 then RegistersB(k) else if k < 18 then RegistersC(k) else RegistersD(k)
  }

  /** Seven shifts at once. */
  function Shift7(r: Lfsr8): Lfsr8 {
    Lfsr8((r.r1 != r.r3) != r.r4, (r.r2 != r.r4) != r.r5, (r.r3 != r.r5) != r.r6, (r.r4 != r.r6) != r.r7,
          (((r.r1 != r.r3) != r.r4) != r.r5) != r.r7, (((r.r1 != r.r2) != r.r3) != r.r5) != r.r6,
          ((r.r1 != r.r2) != r.r6) != r.r7, ((r.r0 != r.r2) != r.r3) != r.r7)
  }

  lemma ShiftsAre(r: Lfsr8)
    ensures var r1 := Shift(r); var r2 := Shift(r1); var r3 := Shift(r2); var r4 := Shift(r3); var r5 := Shift(r4);
            var r6 := Shift(r5);
            && Shift(r6) == Shift7(r) && r1.r0 == r.r7 && r2.r0 == r.r6 && r3.r0 == (r.r5 != r.r7)
            && r4.r0 == ((r.r4 != r.r6) != r.r7) && r5.r0 == ((r.r3 != r.r5) != r.r6) && r6.r0 == ((r.r2 != r.r4) != r.r5)
  {
  }

  lemma NextRegisterA(k: nat)
    requires 1 <= k < 6
    ensures RegisterAt(k) == Shift7(RegisterAt(k - 1))
  {
    if k == 1 { } else if k == 2 { } else if k == 3 { } else if k == 4 { }
  }

  lemma NextRegisterB(k: nat)
    requires 6 <= k < 12
    ensures RegisterAt(k) == Shift7(RegisterAt(k - 1))
  {
    if k == 6 { } else if k == 7 { } else if k == 8 { } else if k == 9 { } else if k == 10 { }
  }

  lemma NextRegisterC(k: nat)
    requires 12 <= k < 18
    ensures RegisterAt(k) == Shift7(RegisterAt(k - 1))
  {
    if k == 12 { } else if k == 13 { } else if k == 14 { } else if k == 15 { } else if k == 16 { }
  }

  lemma NextRegisterD(k: nat)
    requires 18 <= k < 24
    ensures RegisterAt(k) == Shift7(RegisterAt(k - 1))
  {
    if k == 18 { } else if k == 19 { } else if k == 20 { } else if k == 21 { } else if k == 22 { }
  }

  lemma NextRegister(k: nat)
    requires 0 < k < 24
    ensures RegisterAt(k) == Shift7(RegisterAt(k - 1))
  {
    hide RegisterAt, Shift7;
    if k < 6 { NextRegisterA(k); } else if k < 12 { NextRegisterB(k); } else if k < 18 { NextRegisterC(k); } else { NextRegisterD(k); }
  }

  lemma SevenShifts(t: nat)
    ensures var r := Register(t);
            && Register(t + 7) == Shift7(r) && Rc(t) == r.r0 && Rc(t + 1) == r.r7 && Rc(t + 2) == r.r6
            && Rc(t + 3) == (r.r5 != r.r7) && Rc(t + 4) == ((r.r4 != r.r6) != r.r7)
            && Rc(t + 5) == ((r.r3 != r.r5) != r.r6) && Rc(t + 6) == ((r.r2 != r.r4) != r.r5)
  {
    ShiftsAre(Register(t));
    hide Shift, Shift7;
    assert Register(t + 2) == Shift(Register(t + 1)) && Register(t + 3) == Shift(Register(t + 2));
    assert Register(t + 4) == Shift(Register(t + 3)) && Register(t + 5) == Shift(Register(t + 4));
    assert Register(t + 6) == Shift(Register(t + 5)) && Register(t + 7) == Shift(Register(t + 6));
  }

  lemma {:induction false} RegisterIs(k: nat)
    requires k < 24
    ensures Register(7 * k) == RegisterAt(k)
  {
    if k > 0 {
      hide RegisterAt, Shift7;
      RegisterIs(k - 1);
      SevenShifts(7 * (k - 1));
      NextRegister(k);
    }
  }

  function Digit(b: bool): nat { if b then 1 else 0 }

  /** The number whose only bits are the seven given ones, at `2^j - 1`. */
  function Sparse(b0: bool, b1: bool, b2: bool, b3: bool, b4: bool, b5: bool, b6: bool): nat {
    Digit(b0) + 2 * (Digit(b1) + 4 * (Digit(b2) + 16 * (Digit(b3) + 256 * (Digit(b4) + 0x1_0000 * (Digit(b5) +
    0x1_0000_0000 * Digit(b6))))))
  }

  function SparseOf(r: Lfsr8): nat {
    Sparse(r.r0, r.r7, r.r6, r.r5 != r.r7, (r.r4 != r.r6) != r.r7, (r.r3 != r.r5) != r.r6, (r.r2 != r.r4) != r.r5)
  }

  lemma ConstantIsSparseA(k: nat)
    requires 0 <= k < 6
    ensures ROUND_CONSTANTS[k] == SparseOf(RegisterAt(k))
  {
  }

  lemma ConstantIsSparseB(k: nat)
    requires 6 <= k < 12
    ensures ROUND_CONSTANTS[k] == SparseOf(RegisterAt(k))
  {
  }

  lemma ConstantIsSparseC(k: nat)
    requires 12 <= k < 18
    ensures ROUND_CONSTANTS[k] == SparseOf(RegisterAt(k))
  {
  }

  lemma ConstantIsSparseD(k: nat)
    requires 18 <= k < 24
    ensures ROUND_CONSTANTS[k] == SparseOf(RegisterAt(k))
  {
  }

  lemma ConstantIsSparse(k: nat)
    requires k < 24
    ensures ROUND_CONSTANTS[k] == SparseOf(RegisterAt(k))
  {
    hide RegisterAt, SparseOf;
    if k < 6 { ConstantIsSparseA(k); } else if k < 12 { ConstantIsSparseB(k); }
    else if k < 18 { ConstantIsSparseC(k); } else { ConstantIsSparseD(k); }
  }
}
