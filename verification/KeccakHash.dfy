/** `permutation` as it runs: lanes rewritten in place, round by round. */
module KeccakHash {
  import opened BigBits
  import opened KeccakSpec
  import opened Keccak

  // ------------------------------------------------------------ the permutation

  predicate ColumnDone(i: nat, x: nat, y: nat) { i % 5 < x || (i % 5 == x && i / 5 < y) }

  lemma NextCell(i: nat, x: nat, y: nat)
    requires x < 5 && y < 5
    ensures ColumnDone(i, x, y + 1) <==> ColumnDone(i, x, y) || i == x + 5 * y
    ensures i == x + 5 * y ==> i % 5 == x && i / 5 == y && i < 25 && !ColumnDone(i, x, y)
  {
  }

  lemma ColumnEnds(i: nat, x: nat)
    requires i < 25
    ensures ColumnDone(i, x, 5) <==> ColumnDone(i, x + 1, 0)
    ensures !ColumnDone(i, 0, 0) && ColumnDone(i, 5, 0)
  {
  }

  method Columns(state: array<int>, columns: array<int>)
    requires state.Length == 25 && columns.Length == 5 && state != columns
    modifies columns
    ensures forall x | 0 <= x < 5 :: columns[x] == ColumnLane(state[..], x)
  {
    for x := 0 to 5
      invariant forall j | 0 <= j < x :: columns[j] == ColumnLane(state[..], j)
    {
      columns[x] := Xor(Xor(Xor(Xor(state[x], state[x + 5]), state[x + 10]), state[x + 15]), state[x + 20]);
    }
  }

  method ThetaColumn(state: array<int>, delta: int, x: nat, ghost s: Lanes)
    requires state.Length == 25 && x < 5 && delta == Delta(s, x)
    requires forall i | 0 <= i < 25 :: state[i] == if ColumnDone(i, x, 0) then ThetaLane(s, i) else s[i]
    modifies state
    ensures forall i | 0 <= i < 25 :: state[i] == if ColumnDone(i, x + 1, 0) then ThetaLane(s, i) else s[i]
  {
    hide Delta, Xor, ColumnDone;
    for y := 0 to 5
      invariant forall i | 0 <= i < 25 :: state[i] == if ColumnDone(i, x, y) then ThetaLane(s, i) else s[i]
    {
      forall i | 0 <= i < 25 { NextCell(i, x, y); }
      NextCell(x + 5 * y, x, y);
      state[x + 5 * y] := Xor(state[x + 5 * y], delta);
    }
    forall i | 0 <= i < 25 { ColumnEnds(i, x); }
  }

  method ThetaStep(state: array<int>, columns: array<int>)
    requires state.Length == 25 && columns.Length == 5 && state != columns
    modifies state, columns
    ensures state[..] == ThetaLanes(old(state[..]))
  {
    ghost var s := state[..];
    Columns(state, columns);
    hide Xor, ColumnDone, ColumnLane, RotateLeft, ThetaLane;
    forall i | 0 <= i < 25 { ColumnEnds(i, 0); }
    for x := 0 to 5
      invariant forall j | 0 <= j < 5 :: columns[j] == ColumnLane(s, j)
      invariant forall i | 0 <= i < 25 :: state[i] == if ColumnDone(i, x, 0) then ThetaLane(s, i) else s[i]
    {
      var delta := Xor(columns[(x + 4) % 5], RotateLeft(columns[(x + 1) % 5], 1));
      ThetaColumn(state, delta, x, s);
    }
    assert forall i | 0 <= i < 25 :: state[..][i] == ThetaLanes(s)[i];
  }

  predicate MixDone(i: nat, x: nat, y: nat) { SourceX(i) < x || (SourceX(i) == x && SourceY(i) < y) }

  lemma NextMix(i: nat, x: nat, y: nat)
    requires x < 5 && y < 5 && i < 25
    ensures Destination(x, y) < 25
    ensures MixDone(i, x, y + 1) <==> MixDone(i, x, y) || i == Destination(x, y)
    ensures i == Destination(x, y) ==> SourceX(i) == x && SourceY(i) == y
  {
    DestinationOfSource(x, y, i);
  }

  lemma MixEnds(i: nat, x: nat)
    requires i < 25
    ensures MixDone(i, x, 5) <==> MixDone(i, x + 1, 0)
    ensures !MixDone(i, 0, 0) && MixDone(i, 5, 0)
  {
  }

  lemma MixedAt(s: Lanes, x: nat, y: nat)
    requires x < 5 && y < 5
    ensures Destination(x, y) < 25
    ensures MixedLane(s, Destination(x, y)) == RotateLeft(s[x + 5 * y], ROTATIONS[x + 5 * y])
  {
    hide RotateLeft;
    DestinationOfSource(x, y, 0);
    DestinationOfSource(x, y, Destination(x, y));
  }

  /** The lanes of the columns before `x`, and of column `x` before `y`, have been placed. */
  predicate MixPlaced(t: Lanes, s: Lanes, x: nat, y: nat) {
    forall i | 0 <= i < 25 && MixDone(i, x, y) :: t[i] == MixedLane(s, i)
  }

  lemma MixCell(t: Lanes, s: Lanes, x: nat, y: nat)
    requires x < 5 && y < 5 && MixPlaced(t, s, x, y)
    ensures Destination(x, y) < 25
    ensures MixPlaced(t[Destination(x, y) := RotateLeft(s[x + 5 * y], ROTATIONS[x + 5 * y])], s, x, y + 1)
  {
    hide MixDone, Destination, RotateLeft, MixedLane;
    MixedAt(s, x, y);
    forall i | 0 <= i < 25 { NextMix(i, x, y); }
  }

  lemma MixColumnEnds(t: Lanes, s: Lanes, x: nat)
    ensures MixPlaced(t, s, x, 5) <==> MixPlaced(t, s, x + 1, 0)
    ensures MixPlaced(t, s, 0, 0) && (MixPlaced(t, s, 5, 0) ==> t == MixedLanes(s))
  {
    hide MixDone, MixedLane;
    forall i | 0 <= i < 25 { MixEnds(i, x); }
  }

  method MixColumn(state: array<int>, mixed: array<int>, x: nat)
    requires state.Length == 25 == mixed.Length && state != mixed && x < 5 && MixPlaced(mixed[..], state[..], x, 0)
    modifies mixed
    ensures MixPlaced(mixed[..], state[..], x + 1, 0)
  {
    ghost var s := state[..];
    hide MixPlaced, Destination, RotateLeft;
    for y := 0 to 5
      invariant MixPlaced(mixed[..], s, x, y)
    {
      ghost var t := mixed[..];
      MixCell(t, s, x, y);
      mixed[Destination(x, y)] := RotateLeft(state[x + 5 * y], ROTATIONS[x + 5 * y]);
      assert mixed[..] == t[Destination(x, y) := RotateLeft(s[x + 5 * y], ROTATIONS[x + 5 * y])];
    }
    MixColumnEnds(mixed[..], s, x);
  }

  method MixStep(state: array<int>, mixed: array<int>)
    requires state.Length == 25 == mixed.Length && state != mixed
    modifies mixed
    ensures mixed[..] == MixedLanes(state[..])
  {
    hide MixPlaced;
    MixColumnEnds(mixed[..], state[..], 0);
    for x := 0 to 5
      invariant MixPlaced(mixed[..], state[..], x, 0)
    {
      MixColumn(state, mixed, x);
    }
    MixColumnEnds(mixed[..], state[..], 5);
  }

  predicate RowDone(i: nat, y: nat, x: nat) { i / 5 < y || (i / 5 == y && i % 5 < x) }

  lemma NextRowCell(i: nat, y: nat, x: nat)
    requires x < 5 && y < 5
    ensures RowDone(i, y, x + 1) <==> RowDone(i, y, x) || i == x + 5 * y
    ensures i == x + 5 * y ==> i % 5 == x && i / 5 == y && i < 25
  {
  }

  lemma RowEnds(i: nat, y: nat)
    requires i < 25
    ensures RowDone(i, y, 5) <==> RowDone(i, y + 1, 0)
    ensures !RowDone(i, 0, 0) && RowDone(i, 5, 0)
  {
  }

  /** The cells of the rows before `y`, and of row `y` before `x`, hold their new lanes. */
  predicate ChiDone(s: Lanes, m: Lanes, y: nat, x: nat) {
    forall i | 0 <= i < 25 && RowDone(i, y, x) :: s[i] == ChiLane(m, i)
  }

  lemma ChiCell(s: Lanes, m: Lanes, y: nat, x: nat)
    requires x < 5 && y < 5 && ChiDone(s, m, y, x)
    ensures x + 5 * y < 25 && ChiDone(s[x + 5 * y := ChiAt(m, x, y)], m, y, x + 1)
  {
    hide RowDone, ChiAt;
    NextRowCell(x + 5 * y, y, x);
    forall i | 0 <= i < 25 { NextRowCell(i, y, x); }
  }

  lemma ChiRowEnds(s: Lanes, m: Lanes, y: nat)
    ensures ChiDone(s, m, y, 5) <==> ChiDone(s, m, y + 1, 0)
    ensures ChiDone(s, m, 0, 0) && (ChiDone(s, m, 5, 0) ==> s == ChiLanes(m))
  {
    hide RowDone, ChiLane;
    forall i | 0 <= i < 25 { RowEnds(i, y); }
  }

  method ChiRow(state: array<int>, mixed: array<int>, y: nat)
    requires state.Length == 25 == mixed.Length && state != mixed && y < 5 && ChiDone(state[..], mixed[..], y, 0)
    modifies state
    ensures ChiDone(state[..], mixed[..], y + 1, 0)
  {
    ghost var m := mixed[..];
    hide ChiDone, Xor, And, Not;
    for x := 0 to 5
      invariant ChiDone(state[..], m, y, x)
    {
      ghost var s := state[..];
      ChiCell(s, m, y, x);
      state[x + 5 * y] := Xor(mixed[x + 5 * y], And(Not(mixed[(x + 1) % 5 + 5 * y]), mixed[(x + 2) % 5 + 5 * y]));
      assert state[..] == s[x + 5 * y := ChiAt(m, x, y)];
    }
    ChiRowEnds(state[..], m, y);
  }

  method ChiStep(state: array<int>, mixed: array<int>)
    requires state.Length == 25 == mixed.Length && state != mixed
    modifies state
    ensures state[..] == ChiLanes(mixed[..])
  {
    hide ChiDone;
    ChiRowEnds(state[..], mixed[..], 0);
    for y := 0 to 5
      invariant ChiDone(state[..], mixed[..], y, 0)
    {
      ChiRow(state, mixed, y);
    }
    ChiRowEnds(state[..], mixed[..], 5);
  }

  method IotaStep(state: array<int>, k: nat)
    requires state.Length == 25 && k < 24
    modifies state
    ensures state[..] == IotaLanes(old(state[..]), k)
  {
    hide Xor;
    state[0] := Xor(state[0], ROUND_CONSTANTS[k]);
  }

  method OneRound(state: array<int>, columns: array<int>, mixed: array<int>, k: nat)
    requires state.Length == 25 == mixed.Length && columns.Length == 5 && state != columns && state != mixed && k < 24
    modifies state, columns, mixed
    ensures state[..] == RoundLanes(old(state[..]), k)
  {
    hide IotaLanes, ChiLanes, MixedLanes, ThetaLanes;
    ThetaStep(state, columns);
    MixStep(state, mixed);
    ChiStep(state, mixed);
    IotaStep(state, k);
  }

  lemma RoundsOn(s: Lanes, k: nat)
    requires k < 24
    ensures RoundsLanes(s, k + 1) == RoundLanes(RoundsLanes(s, k), k)
  {
    hide RoundLanes;
  }

  method RunRounds(state: array<int>, n: nat)
    requires state.Length == 25 && n <= 24
    modifies state
    ensures state[..] == RoundsLanes(old(state[..]), n)
  {
    ghost var s := state[..];
    var columns := new int[5];
    var mixed := new int[25];
    assert RoundsLanes(s, 0) == s;
    hide RoundLanes, RoundsLanes;
    for k := 0 to n
      invariant state[..] == RoundsLanes(s, k)
    {
      RoundsOn(s, k);
      OneRound(state, columns, mixed, k);
    }
  }

  function Permuted(s: Lanes): Lanes { RoundsLanes(s, 24) }

  /** `permutation`: 24 rounds in place. */
  method Permutation(state: array<int>)
    requires state.Length == 25
    modifies state
    ensures state[..] == Permuted(old(state[..]))
  {
    hide RoundsLanes;
    RunRounds(state, 24);
  }

  /** On a state of lanes the permutation is KECCAK-f[1600], and leaves lanes. */
  lemma PermutedIsKeccakF(s: Lanes, a: Bits)
    requires Represents(s, a)
    ensures Represents(Permuted(s), KeccakF(a))
  {
    hide RoundsLanes, Rounds, Represents;
    RoundsRefine(s, a, 24);
  }
}
