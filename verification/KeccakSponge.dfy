/** Padding, absorbing and squeezing: `keccak256Evm` on bytes, against the sponge of section 4 of FIPS 202. */
module KeccakSponge {
  import opened BigBits
  import opened KeccakSpec
  import opened Keccak
  import opened KeccakHash

  const RATE_BYTES := 136
  const RATE := 1088

  predicate Bytes(p: seq<int>) { forall i | 0 <= i < |p| :: 0 <= p[i] < 256 }

  // ------------------------------------------------------------ the sponge on bits

  /** The length of `N || pad10*1(r, len(N))`, section 5.1. */
  function PadLength(m: nat): nat { m + 2 + Shortfall(m) % RATE }

  function Shortfall(m: int): int { -m - 2 }

  predicate PadBit(message: nat -> bool, m: nat, j: nat) { if j < m then message(j) else j == m || j == PadLength(m) - 1 }

  function LaneIndex(x: nat, y: nat): nat { x + 5 * y }

  function BitIndex(i: nat, z: nat): nat { 64 * i + z }

  /** The first `r` bits of the state are combined with a block. */
  function Absorb(a: Bits, block: nat -> bool): Bits {
    (x: nat, y: nat, z: nat) => a(x, y, z) != (LaneIndex(x, y) < 17 && block(BitIndex(LaneIndex(x, y), z)))
  }

  function Block(bits: nat -> bool, k: nat): nat -> bool { (j: nat) => bits(RATE * k + j) }

  ghost function SpongeBits(bits: nat -> bool, n: nat): Bits {
    if n == 0 then (x: nat, y: nat, z: nat) => false
    else KeccakF(Absorb(SpongeBits(bits, n - 1), Block(bits, n - 1)))
  }

  // ------------------------------------------------------------ padding

  function PaddedLength(n: nat): nat { (n + 1 + RATE_BYTES - 1) / RATE_BYTES * RATE_BYTES }

  function BaseByte(input: seq<int>, k: nat): int {
    if k < |input| then input[k] else if k == |input| then 1 else 0
  }

  function PadByte(input: seq<int>, k: nat): int {
    if k == PaddedLength(|input|) - 1 then Or(BaseByte(input, k), 0x80) else BaseByte(input, k)
  }

  function Padded(input: seq<int>): seq<int> { seq(PaddedLength(|input|), k requires 0 <= k => PadByte(input, k)) }

  lemma PaddedLengthFacts(n: nat)
    ensures n < PaddedLength(n) <= n + RATE_BYTES && PaddedLength(n) % RATE_BYTES == 0
    ensures 8 * PaddedLength(n) == PadLength(8 * n)
  {
    var q := (n + RATE_BYTES) / RATE_BYTES;
    assert PaddedLength(n) == q * RATE_BYTES;
    var gap := 8 * (q * RATE_BYTES) - 8 * n - 2;
    assert 0 <= gap < RATE;
    assert -(8 * n) - 2 == gap - q * RATE;
    ModOf(gap, q);
  }

  lemma ModOf(gap: int, q: int)
    requires 0 <= gap < RATE
    ensures (gap - q * RATE) % RATE == gap
  {
    DivideUnique(gap - q * RATE, RATE, -q, gap);
  }

  method Pad(input: seq<int>) returns (padded: array<int>)
    ensures fresh(padded) && padded[..] == Padded(input)
  {
    var n := |input|;
    PaddedLengthFacts(n);
    padded := new int[PaddedLength(n)](i => 0);
    for k := 0 to n
      invariant forall i | 0 <= i < padded.Length :: padded[i] == if i < k then input[i] else 0
    {
      padded[k] := input[k];
    }
    padded[n] := 1;
    padded[padded.Length - 1] := Or(padded[padded.Length - 1], 0x80);
    assert forall i | 0 <= i < padded.Length :: padded[..][i] == Padded(input)[i];
  }

  // ------------------------------------------------------------ padding is pad10*1

  lemma {:induction false} ByteBits(v: int, i: nat)
    ensures 0 <= v < 256 ==> (i >= 8 ==> !Bit(v, i))
  {
    assert Pow2(4) == 16 && Pow2(8) == 256;
    RangeIffBits(v, 8);
  }

  lemma {:induction false} SmallBits(i: nat)
    ensures Bit(1, i) <==> i == 0
    ensures Bit(0x80, i) <==> i == 7
  {
    if i > 0 { BitUniform(i - 1); }
    assert Pow2(3) == 8 && Pow2(7) == 128;
    BitShl(1, 7, i);
    if i >= 7 { if i > 7 { BitUniform(i - 8); } }
  }

  lemma {:induction false} OrZero(b: nat)
    ensures Or(0, b) == b
  {
    if b > 0 { OrZero(b / 2); }
  }

  lemma {:induction false} OrByte(v: int)
    requires v == 0 || v == 1
    ensures Or(v, 0x80) == v + 0x80
  {
    hide Or;
    OrZero(0x40);
    OrHalves(v, 0x80);
  }

  lemma {:induction false} OrHalves(a: int, b: int)
    requires b > 0
    ensures Or(a, b) == 2 * Or(a / 2, b / 2) + if a % 2 == 1 || b % 2 == 1 then 1 else 0
  {
  }

  lemma PadByteRange(input: seq<int>, k: nat)
    requires Bytes(input) && k < PaddedLength(|input|)
    ensures 0 <= PadByte(input, k) < 256
  {
    PaddedLengthFacts(|input|);
    OrByte(0);
    OrByte(1);
  }

  predicate MessageBit(input: seq<int>, j: nat) { j / 8 < |input| && Bit(input[j / 8], j % 8) }

  function MessageBits(input: seq<int>): nat -> bool { (b: nat) => MessageBit(input, b) }

  /** The padded bytes, read bit by bit, are the message followed by pad10*1, and nothing of a domain suffix. */
  lemma {:induction false} PaddingIsPad10star1(input: seq<int>, j: nat)
    requires j < 8 * PaddedLength(|input|)
    ensures j / 8 < |Padded(input)|
    ensures Bit(Padded(input)[j / 8], j % 8) <==> PadBit(MessageBits(input), 8 * |input|, j)
  {
    hide Bit, Or;
    var k, i := j / 8, j % 8;
    PaddedLengthFacts(|input|);
    BitOr(BaseByte(input, k), 0x80, i);
    SmallBits(i);
    BitUniform(i);
  }

  /** Different messages are padded differently, whatever their lengths. */
  lemma PaddingIsInjective(p: seq<int>, q: seq<int>)
    requires Bytes(p) && Bytes(q) && Padded(p) == Padded(q)
    ensures p == q
  {
    PaddedLengthFacts(|p|);
    PaddedLengthFacts(|q|);
    OrByte(0);
    OrByte(1);
    assert |Padded(p)| == |Padded(q)|;
    LastMarks(p, q);
    LastMarks(q, p);
    assert |p| == |q|;
    forall k | 0 <= k < |p| ensures p[k] == q[k] {
      assert Padded(p)[k] == Padded(q)[k];
    }
  }

  /** The end mark of the longer message would be missing from the padding of the shorter. */
  lemma LastMarks(p: seq<int>, q: seq<int>)
    requires PaddedLength(|p|) == PaddedLength(|q|) && Padded(p) == Padded(q)
    ensures |q| <= |p|
  {
    PaddedLengthFacts(|p|);
    PaddedLengthFacts(|q|);
    OrByte(0);
    OrByte(1);
    assert Padded(p)[|q|] == Padded(q)[|q|];
  }

  // ------------------------------------------------------------ absorbing

  /** Bytes from `at` on, the first in the lowest bits. */
  function LaneValue(p: seq<int>, at: nat, n: nat): int
    requires at + n <= |p|
  {
    if n == 0 then 0 else Or(LaneValue(p, at, n - 1), Shl(p[at + n - 1], 8 * (n - 1)))
  }

  lemma {:induction false} LaneValueBits(p: seq<int>, at: nat, n: nat, z: nat)
    requires at + n <= |p| && Bytes(p)
    ensures Bit(LaneValue(p, at, n), z) <==> z < 8 * n && Bit(p[at + z / 8], z % 8)
  {
    hide Bit, Or, Shl;
    if n == 0 {
      BitUniform(z);
    } else {
      var top := p[at + n - 1];
      LaneValueBits(p, at, n - 1, z);
      BitOr(LaneValue(p, at, n - 1), Shl(top, 8 * (n - 1)), z);
      BitShl(top, 8 * (n - 1), z);
      if z >= 8 * (n - 1) { ByteBits(top, z - 8 * (n - 1)); }
    }
  }

  lemma {:induction false} LaneValueIsLane(p: seq<int>, at: nat)
    requires at + 8 <= |p| && Bytes(p)
    ensures Lane(LaneValue(p, at, 8))
  {
    forall i: nat | i >= 64 ensures !Bit(LaneValue(p, at, 8), i) { LaneValueBits(p, at, 8, i); }
    LaneIffBits(LaneValue(p, at, 8));
  }

  function AbsorbedLane(s: Lanes, p: seq<int>, offset: nat, i: nat): int
    requires i < 25 && offset + RATE_BYTES <= |p|
  {
    if i < 17 then Xor(s[i], LaneValue(p, offset + i * 8, 8)) else s[i]
  }

  function AbsorbedLanes(s: Lanes, p: seq<int>, offset: nat): Lanes
    requires offset + RATE_BYTES <= |p|
  {
    seq(25, i requires 0 <= i < 25 => AbsorbedLane(s, p, offset, i))
  }

  method LaneFrom(padded: array<int>, at: nat) returns (value: int)
    requires at + 8 <= padded.Length
    ensures value == LaneValue(padded[..], at, 8)
  {
    hide Or, Shl;
    value := 0;
    for n := 0 to 8
      invariant value == LaneValue(padded[..], at, n)
    {
      value := Or(value, Shl(padded[at + n], n * 8));
    }
  }

  method AbsorbBlock(state: array<int>, padded: array<int>, offset: nat)
    requires state.Length == 25 && offset + RATE_BYTES <= padded.Length && state != padded
    modifies state
    ensures state[..] == AbsorbedLanes(old(state[..]), padded[..], offset)
  {
    ghost var s := state[..];
    hide Xor, LaneValue;
    for i := 0 to 17
      invariant forall j | 0 <= j < 25 :: state[j] == if j < i then AbsorbedLane(s, padded[..], offset, j) else s[j]
    {
      var value := LaneFrom(padded, offset + i * 8);
      state[i] := Xor(state[i], value);
    }
    assert forall j | 0 <= j < 25 :: state[..][j] == AbsorbedLanes(s, padded[..], offset)[j];
  }

  ghost predicate IsStream(p: seq<int>, bits: nat -> bool) { forall j: nat | j < 8 * |p| :: bits(j) == StreamBit(p, j) }

  predicate StreamBit(p: seq<int>, j: nat) { j / 8 < |p| && Bit(p[j / 8], j % 8) }

  /** Absorbing on lanes is absorbing on bits. */
  lemma {:induction false} AbsorbedBits(s: Lanes, a: Bits, p: seq<int>, k: nat, i: nat, z: nat, bits: nat -> bool)
    requires Represents(s, a) && Bytes(p) && RATE_BYTES * (k + 1) <= |p| && i < 25 && z < 64
    requires IsStream(p, bits)
    ensures Lane(AbsorbedLane(s, p, RATE_BYTES * k, i))
    ensures Bit(AbsorbedLane(s, p, RATE_BYTES * k, i), z) <==> a(i % 5, i / 5, z) != (i < 17 && bits(RATE * k + BitIndex(i, z)))
  {
    hide Bit, Xor, Lane, LaneValue;
    assert SameBit(s, a, i, z);
    if i < 17 {
      var at := RATE_BYTES * k + i * 8;
      LaneValueIsLane(p, at);
      LaneValueBits(p, at, 8, z);
      LaneXor(s[i], LaneValue(p, at, 8));
      BitXor(s[i], LaneValue(p, at, 8), z);
      var j := RATE * k + BitIndex(i, z);
      assert j == 8 * (at + z / 8) + z % 8;
      assert j / 8 == at + z / 8 && j % 8 == z % 8;
    }
  }

  lemma IndexOf(i: nat)
    requires i < 25
    ensures LaneIndex(i % 5, i / 5) == i
  {
  }

  lemma AbsorbAt(a: Bits, block: nat -> bool, x: nat, y: nat, z: nat)
    ensures Absorb(a, block)(x, y, z) == (a(x, y, z) != (LaneIndex(x, y) < 17 && block(BitIndex(LaneIndex(x, y), z))))
  {
    hide LaneIndex, BitIndex;
  }

  lemma BlockAt(bits: nat -> bool, k: nat, j: nat)
    ensures Block(bits, k)(j) == bits(RATE * k + j)
  {
  }

  lemma AbsorbRefines(s: Lanes, a: Bits, p: seq<int>, k: nat, bits: nat -> bool)
    requires Represents(s, a) && Bytes(p) && RATE_BYTES * (k + 1) <= |p|
    requires IsStream(p, bits)
    ensures Represents(AbsorbedLanes(s, p, RATE_BYTES * k), Absorb(a, Block(bits, k)))
  {
    hide Bit, AbsorbedLane, Lane, Absorb, Block, LaneIndex, BitIndex, StreamBit;
    var t, b := AbsorbedLanes(s, p, RATE_BYTES * k), Absorb(a, Block(bits, k));
    forall i: nat, z: nat | i < 25 && z < 64 ensures Lane(t[i]) && SameBit(t, b, i, z) {
      AbsorbedBits(s, a, p, k, i, z, bits);
      AbsorbAt(a, Block(bits, k), i % 5, i / 5, z);
      IndexOf(i);
      BlockAt(bits, k, BitIndex(i, z));
    }
    forall i: nat | i < 25 ensures Lane(t[i]) { AbsorbedBits(s, a, p, k, i, 0, bits); }
  }

  function Zero(): Lanes { seq(25, i => 0) }

  function SpongeLanes(p: seq<int>, n: nat): Lanes
    requires RATE_BYTES * n <= |p|
  {
    if n == 0 then Zero() else Permuted(AbsorbedLanes(SpongeLanes(p, n - 1), p, RATE_BYTES * (n - 1)))
  }

  lemma {:induction false} SpongeStarts(p: seq<int>, bits: nat -> bool)
    ensures Represents(SpongeLanes(p, 0), SpongeBits(bits, 0))
  {
    forall i: nat, z: nat | i < 25 && z < 64 ensures SameBit(Zero(), SpongeBits(bits, 0), i, z) { BitUniform(z); }
  }

  lemma SpongeOn(p: seq<int>, n: nat, bits: nat -> bool)
    requires RATE_BYTES * (n + 1) <= |p|
    ensures SpongeLanes(p, n + 1) == Permuted(AbsorbedLanes(SpongeLanes(p, n), p, RATE_BYTES * n))
    ensures SpongeBits(bits, n + 1) == KeccakF(Absorb(SpongeBits(bits, n), Block(bits, n)))
  {
    hide Permuted, KeccakF, AbsorbedLanes, Absorb, Block;
  }

  /** The state after each block is the state of the sponge. */
  lemma {:induction false} SpongeRefines(p: seq<int>, n: nat, bits: nat -> bool)
    requires Bytes(p) && RATE_BYTES * n <= |p| && IsStream(p, bits)
    ensures Represents(SpongeLanes(p, n), SpongeBits(bits, n))
  {
    hide Represents, Permuted, KeccakF, AbsorbedLanes, Absorb, Block, SpongeLanes, SpongeBits, IsStream, Bytes;
    if n == 0 {
      SpongeStarts(p, bits);
    } else {
      SpongeRefines(p, n - 1, bits);
      var s, a := SpongeLanes(p, n - 1), SpongeBits(bits, n - 1);
      AbsorbRefines(s, a, p, n - 1, bits);
      PermutedIsKeccakF(AbsorbedLanes(s, p, RATE_BYTES * (n - 1)), Absorb(a, Block(bits, n - 1)));
      SpongeOn(p, n - 1, bits);
    }
  }

  // ------------------------------------------------------------ squeezing

  function DigestByte(s: Lanes, i: nat): int
    requires i < 32
  {
    And(Shr(s[i / 8], i % 8 * 8), 0xff)
  }

  lemma {:induction false} DigestBits(s: Lanes, a: Bits, i: nat, j: nat)
    requires Represents(s, a) && i < 32
    ensures 0 <= DigestByte(s, i) < 256
    ensures j < 8 ==> (Bit(DigestByte(s, i), j) <==> a(i / 8, 0, i % 8 * 8 + j))
  {
    assert Pow2(4) == 16 && Pow2(8) == 256;
    var shifted := Shr(s[i / 8], i % 8 * 8);
    hide Bit, And, Shr, Pow2;
    forall b: nat | b >= 8 ensures !Bit(DigestByte(s, i), b) {
      BitAnd(shifted, 0xff, b);
      BitMask(8, b);
    }
    RangeIffBits(DigestByte(s, i), 8);
    if j < 8 {
      BitAnd(shifted, 0xff, j);
      BitMask(8, j);
      BitShr(s[i / 8], i % 8 * 8, j);
      assert SameBit(s, a, i / 8, i % 8 * 8 + j);
    }
  }

  /** The digest of FIPS 202's sponge on these message bits, as a state. */
  ghost function SpongeOf(message: nat -> bool, m: nat): Bits {
    SpongeBits(PadBits(message, m), PadLength(m) / RATE)
  }

  function PadBits(message: nat -> bool, m: nat): nat -> bool { (j: nat) => PadBit(message, m, j) }

  function Blocks(input: seq<int>): nat { |Padded(input)| / RATE_BYTES }

  lemma PaddedStream(input: seq<int>, j: nat)
    requires j < 8 * |Padded(input)|
    ensures StreamBit(Padded(input), j) == PadBit(MessageBits(input), 8 * |input|, j)
  {
    PaddingIsPad10star1(input, j);
  }

  lemma PaddedBytes(input: seq<int>)
    requires Bytes(input)
    ensures Bytes(Padded(input)) && RATE_BYTES * Blocks(input) == |Padded(input)|
    ensures PadLength(8 * |input|) / RATE == Blocks(input)
  {
    PaddedLengthFacts(|input|);
    forall k | 0 <= k < |Padded(input)| ensures 0 <= Padded(input)[k] < 256 { PadByteRange(input, k); }
  }

  lemma PaddedIsStream(input: seq<int>)
    ensures IsStream(Padded(input), PadBits(MessageBits(input), 8 * |input|))
  {
    hide PadBit, StreamBit, MessageBits, Padded;
    forall j: nat | j < 8 * |Padded(input)|
      ensures PadBits(MessageBits(input), 8 * |input|)(j) == StreamBit(Padded(input), j)
    {
      PaddedStream(input, j);
    }
  }

  lemma PaddedSponge(input: seq<int>)
    requires Bytes(input)
    ensures RATE_BYTES * Blocks(input) == |Padded(input)|
    ensures Represents(SpongeLanes(Padded(input), Blocks(input)), SpongeOf(MessageBits(input), 8 * |input|))
  {
    PaddedBytes(input);
    PaddedIsStream(input);
    hide Represents, Padded, IsStream, Bytes, SpongeLanes, SpongeBits, MessageBits, PadBits, Blocks, PadLength;
    SpongeRefines(Padded(input), Blocks(input), PadBits(MessageBits(input), 8 * |input|));
  }

  lemma {:induction false} SpongeZero(p: seq<int>)
    ensures SpongeLanes(p, 0) == Zero()
  {
  }

  method ZeroState() returns (state: array<int>)
    ensures fresh(state) && state.Length == 25 && state[..] == Zero()
  {
    state := new int[25](i => 0);
  }

  /** The loop over the blocks of the padded message. */
  method AbsorbAll(padded: array<int>, ghost blocks: nat) returns (state: array<int>)
    requires padded.Length == RATE_BYTES * blocks
    ensures fresh(state) && state.Length == 25 && state[..] == SpongeLanes(padded[..], blocks)
  {
    hide SpongeLanes, Permuted, AbsorbedLanes, Zero;
    SpongeZero(padded[..]);
    state := ZeroState();
    var offset := 0;
    ghost var k := 0;
    while offset < padded.Length
      invariant k <= blocks && offset == RATE_BYTES * k && state.Length == 25 && fresh(state)
      invariant state[..] == SpongeLanes(padded[..], k)
      decreases padded.Length - offset
    {
      SpongeOn(padded[..], k, (j: nat) => false);
      AbsorbBlock(state, padded, offset);
      Permutation(state);
      offset, k := offset + RATE_BYTES, k + 1;
    }
  }

  method Squeeze(state: array<int>, ghost a: Bits) returns (digest: seq<int>)
    requires state.Length == 25 && Represents(state[..], a)
    ensures |digest| == 32 && Bytes(digest)
    ensures forall i, j | 0 <= i < 32 && 0 <= j < 8 :: DigestBit(digest, a, i, j)
  {
    hide Represents, Bit, And, Shr;
    digest := [];
    for i := 0 to 32
      invariant |digest| == i && Bytes(digest)
      invariant forall l, j | 0 <= l < i && 0 <= j < 8 :: DigestBit(digest, a, l, j)
    {
      DigestBits(state[..], a, i, 0);
      forall j | 0 <= j < 8 { DigestBits(state[..], a, i, j); }
      ghost var before := digest;
      digest := digest + [And(Shr(state[i / 8], i % 8 * 8), 0xff)];
      forall l, j | 0 <= l < i && 0 <= j < 8 ensures DigestBit(digest, a, l, j) { assert DigestBit(before, a, l, j); }
    }
  }

  /** Bit `8 * i + j` of the output is bit `8 * i + j` of the state string. */
  predicate DigestBit(digest: seq<int>, a: Bits, i: nat, j: nat)
    requires i < |digest|
  {
    Bit(digest[i], j) <==> a(i / 8, 0, i % 8 * 8 + j)
  }

  /** `keccak256Evm`: 32 bytes whose bits are the first 256 bits of the sponge over the padded message. */
  method Keccak256(input: seq<int>) returns (digest: seq<int>)
    requires Bytes(input)
    ensures |digest| == 32 && Bytes(digest)
    ensures forall i, j | 0 <= i < 32 && 0 <= j < 8 :: DigestBit(digest, SpongeOf(MessageBits(input), 8 * |input|), i, j)
  {
    PaddedSponge(input);
    hide Represents, Padded, SpongeLanes, SpongeBits, Blocks, DigestBit, Bytes;
    var padded := Pad(input);
    var state := AbsorbAll(padded, Blocks(input));
    digest := Squeeze(state, SpongeOf(MessageBits(input), 8 * |input|));
  }
}
