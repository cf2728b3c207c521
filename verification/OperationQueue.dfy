/** Which operations a caught-up round tracks, and why none of them waits for ever. */
module OperationQueue {
  import opened Results
  import opened ChainTypes
  import opened ChainIndex
  import opened Tracking
  import O = Operations
  import opened Text

  const ROUND_LIMIT := 100
  const FAIR_SHARE := 50

  // ------------------------------------------------------------ rotation

  predicate AfterCursor(cursor: Option<string>, x: string) { cursor.None? || Less(cursor.value, x) }

  /** The order in which a rotation from the cursor meets two ids. */
  predicate Before(cursor: Option<string>, x: string, y: string) {
    if AfterCursor(cursor, x) != AfterCursor(cursor, y) then AfterCursor(cursor, x) else Less(x, y)
  }

  predicate InRotation(cursor: Option<string>, q: seq<string>) {
    forall i, j | 0 <= i < j < |q| :: Before(cursor, q[i], q[j])
  }

  function Later(ids: set<string>, cursor: Option<string>): set<string> { set x | x in ids && AfterCursor(cursor, x) }

  /** The ids after the cursor and then the others, each part ascending. */
  function Rotation(ids: set<string>, cursor: Option<string>): seq<string> {
    Sorted(Later(ids, cursor)) + Sorted(ids - Later(ids, cursor))
  }

  lemma BeforeIsStrict(cursor: Option<string>, x: string, y: string)
    requires Before(cursor, x, y)
    ensures x != y && !Before(cursor, y, x)
  {
    if Less(x, y) { LessAsymmetric(x, y); }
  }

  /** Both parts, each ascending, the part after the cursor first. */
  lemma JoinInRotation(cursor: Option<string>, p: seq<string>, q: seq<string>)
    requires Ascending(p) && Ascending(q)
    requires (forall x | x in p :: AfterCursor(cursor, x)) && (forall x | x in q :: !AfterCursor(cursor, x))
    ensures InRotation(cursor, p + q)
  {
    forall i, j | 0 <= i < j < |p + q| ensures Before(cursor, (p + q)[i], (p + q)[j]) {
      assert (p + q)[i] in if i < |p| then p else q;
      assert (p + q)[j] in if j < |p| then p else q;
    }
  }

  /** The rotation lists every id once, in the cyclic order from the cursor. */
  lemma RotationLists(ids: set<string>, cursor: Option<string>)
    ensures InRotation(cursor, Rotation(ids, cursor)) && |Rotation(ids, cursor)| == |ids|
    ensures forall x :: x in Rotation(ids, cursor) <==> x in ids
  {
    var p, q := Later(ids, cursor), ids - Later(ids, cursor);
    assert p + q == ids && p !! q;
    JoinInRotation(cursor, Sorted(p), Sorted(q));
  }

  // ------------------------------------------------------------ rank

  function Earlier(ids: set<string>, cursor: Option<string>, x: string): set<string> {
    set y | y in ids && Before(cursor, y, x)
  }

  /** How many ids a rotation meets before `x`. */
  function Rank(ids: set<string>, cursor: Option<string>, x: string): nat { |Earlier(ids, cursor, x)| }

  function Members(q: seq<string>): set<string> { set i | 0 <= i < |q| :: q[i] }

  lemma {:induction false} DistinctCount(cursor: Option<string>, q: seq<string>)
    requires InRotation(cursor, q)
    ensures |Members(q)| == |q|
  {
    if q != [] {
      var n := |q| - 1;
      DistinctCount(cursor, q[..n]);
      assert Members(q) == Members(q[..n]) + {q[n]} by {
        assert forall i | 0 <= i < n :: q[..n][i] == q[i];
      }
      assert q[n] !in Members(q[..n]) by {
        forall i | 0 <= i < n ensures q[i] != q[n] { BeforeIsStrict(cursor, q[i], q[n]); }
      }
    }
  }

  lemma InPrefix(q: seq<string>, j: nat, k: nat)
    requires j < |q| && k <= |q|
    ensures j < k ==> q[j] in q[..k] && q[j] in Members(q[..k])
  {
    if j < k { assert q[..k][j] == q[j]; }
  }

  lemma EarlierIsPrefix(ids: set<string>, cursor: Option<string>, q: seq<string>, i: nat, y: string)
    requires InRotation(cursor, q) && (forall x :: x in q <==> x in ids) && i < |q|
    ensures y in Earlier(ids, cursor, q[i]) <==> y in Members(q[..i])
  {
    hide Before;
    if y in Members(q[..i]) {
      var j :| 0 <= j < i && q[..i][j] == y;
      assert q[j] == y && y in q;
    } else if y in ids {
      var j :| 0 <= j < |q| && q[j] == y;
      InPrefix(q, j, i);
      if i < j { BeforeIsStrict(cursor, q[i], q[j]); } else { NotBeforeItself(cursor, y); }
    }
  }

  /** The rank is the place in the rotation. */
  lemma RankIsIndex(ids: set<string>, cursor: Option<string>, i: nat)
    requires i < |Rotation(ids, cursor)|
    ensures Earlier(ids, cursor, Rotation(ids, cursor)[i]) == Members(Rotation(ids, cursor)[..i])
    ensures Rank(ids, cursor, Rotation(ids, cursor)[i]) == i
  {
    RotationLists(ids, cursor);
    var q := Rotation(ids, cursor);
    hide Rotation, Before;
    forall y ensures y in Earlier(ids, cursor, q[i]) <==> y in Members(q[..i]) {
      EarlierIsPrefix(ids, cursor, q, i, y);
    }
    assert Earlier(ids, cursor, q[i]) == Members(q[..i]);
    DistinctCount(cursor, q[..i]);
  }

  lemma NotBeforeItself(cursor: Option<string>, y: string)
    ensures !Before(cursor, y, y)
  {
    LessIrreflexive(y);
  }

  lemma SmallerRank(ids: set<string>, fewer: set<string>, cursor: Option<string>, x: string)
    requires fewer <= ids
    ensures Rank(fewer, cursor, x) <= Rank(ids, cursor, x)
  {
    SubsetCount(Earlier(fewer, cursor, x), Earlier(ids, cursor, x));
  }

  lemma SubsetCount(a: set<string>, b: set<string>)
    requires a <= b
    ensures |a| <= |b|
  {
    assert b == a + (b - a);
  }

  lemma RankBelowSize(ids: set<string>, cursor: Option<string>, x: string)
    requires x in ids
    ensures Rank(ids, cursor, x) < |ids|
  {
    NotBeforeItself(cursor, x);
    SubsetCount(Earlier(ids, cursor, x), ids - {x});
  }

  /** Moving the cursor to `m` cuts off everything up to `m` from the ids that come before `x`. */
  lemma CursorMoves(cursor: Option<string>, m: string, x: string, y: string)
    requires Before(cursor, m, x)
    ensures Before(Some(m), y, x) <==> Before(cursor, m, y) && Before(cursor, y, x)
  {
    LessTotal(m, y); LessTotal(m, x); LessTotal(y, x);
    LessIrreflexive(m); LessIrreflexive(y);
    if Less(m, y) { LessAsymmetric(m, y); }
    if Less(m, x) { LessAsymmetric(m, x); }
    if Less(y, x) { LessAsymmetric(y, x); }
    if Less(m, y) && Less(y, x) { LessTransitive(m, y, x); }
    if Less(y, x) && Less(x, m) { LessTransitive(y, x, m); }
    if Less(x, m) && Less(m, y) { LessTransitive(x, m, y); }
    if cursor.Some? {
      var c := cursor.value;
      if Less(c, m) && Less(m, y) { LessTransitive(c, m, y); }
      if Less(c, m) && Less(m, x) { LessTransitive(c, m, x); }
      if Less(c, y) && Less(y, m) { LessTransitive(c, y, m); }
      if Less(c, y) && Less(y, x) { LessTransitive(c, y, x); }
      if Less(c, x) && Less(x, y) { LessTransitive(c, x, y); }
      if Less(c, x) && Less(x, m) { LessTransitive(c, x, m); }
    }
  }

  lemma EarlierAfterRound(ids: set<string>, cursor: Option<string>, q: seq<string>, k: nat, i: nat)
    requires InRotation(cursor, q) && (forall x :: x in q <==> x in ids) && 0 < k <= i < |q|
    ensures Earlier(ids, Some(q[k - 1]), q[i]) == Earlier(ids, cursor, q[i]) - Members(q[..k])
  {
    hide Before;
    forall y ensures y in Earlier(ids, Some(q[k - 1]), q[i]) <==> y in Earlier(ids, cursor, q[i]) && y !in Members(q[..k]) {
      CursorMoves(cursor, q[k - 1], q[i], y);
      if y in ids { TakenOrLater(ids, cursor, q, k, y); }
    }
  }

  lemma PrefixMembers(q: seq<string>, k: nat, i: nat)
    requires k <= i <= |q|
    ensures Members(q[..k]) <= Members(q[..i])
  {
    assert forall j | 0 <= j < k :: q[..k][j] == q[..i][j];
  }

  /** After the first `k` ids were taken, every other id has moved up by `k`. */
  lemma RankAfterRound(ids: set<string>, cursor: Option<string>, k: nat, x: string)
    requires 0 < k <= |Rotation(ids, cursor)| && x in ids && k <= Rank(ids, cursor, x)
    ensures Rank(ids, Some(Rotation(ids, cursor)[k - 1]), x) == Rank(ids, cursor, x) - k
  {
    hide Rotation, Before, Earlier, Members;
    RotationLists(ids, cursor);
    var q := Rotation(ids, cursor);
    var i :| 0 <= i < |q| && q[i] == x;
    RankIsIndex(ids, cursor, i);
    EarlierAfterRound(ids, cursor, q, k, i);
    DistinctCount(cursor, q[..k]);
    PrefixMembers(q, k, i);
  }

  lemma TakenOrLater(ids: set<string>, cursor: Option<string>, q: seq<string>, k: nat, y: string)
    requires InRotation(cursor, q) && (forall x :: x in q <==> x in ids) && 0 < k <= |q| && y in ids
    ensures y in Members(q[..k]) <==> !Before(cursor, q[k - 1], y)
  {
    hide Before;
    var j :| 0 <= j < |q| && q[j] == y;
    if y in Members(q[..k]) {
      var l :| 0 <= l < k && q[..k][l] == y;
      if l < k - 1 { BeforeIsStrict(cursor, q[l], q[k - 1]); } else { NotBeforeItself(cursor, y); }
    } else {
      InPrefix(q, j, k);
    }
  }

  // ------------------------------------------------------------ rounds

  /** One caught-up round of one contract: the ids it read, the cursor it used and how many it visited. */
  datatype Round = Round(ids: set<string>, cursor: Option<string>, taken: nat)

  predicate Visits(round: Round, x: string)
    requires round.taken <= |Rotation(round.ids, round.cursor)|
  {
    x in Rotation(round.ids, round.cursor)[..round.taken]
  }

  predicate FairRound(round: Round) {
    Min(FAIR_SHARE, |round.ids|) <= round.taken <= |round.ids| == |Rotation(round.ids, round.cursor)|
  }

  function NextCursor(round: Round): Option<string>
    requires round.taken <= |Rotation(round.ids, round.cursor)|
  {
    if round.taken == 0 then round.cursor else Some(Rotation(round.ids, round.cursor)[round.taken - 1])
  }

  /** The set does not grow from round to round, and the cursor moves to the last id visited. */
  ghost predicate FairRounds(rounds: seq<Round>) {
    && (forall i | 0 <= i < |rounds| :: FairRound(rounds[i]))
    && (forall i | 0 < i < |rounds| :: Continues(rounds[i - 1], rounds[i]))
  }

  predicate Continues(a: Round, b: Round)
    requires FairRound(a)
  {
    b.cursor == NextCursor(a) && b.ids <= a.ids
  }

  lemma UnvisitedMovesUp(a: Round, b: Round, x: string)
    requires FairRound(a) && Continues(a, b) && x in a.ids && x in b.ids && !Visits(a, x)
    ensures Rank(b.ids, b.cursor, x) + FAIR_SHARE <= Rank(a.ids, a.cursor, x)
  {
    hide Rotation, Rank, Earlier;
    RotationLists(a.ids, a.cursor);
    var q := Rotation(a.ids, a.cursor);
    var i :| 0 <= i < |q| && q[i] == x;
    RankIsIndex(a.ids, a.cursor, i);
    InPrefix(q, i, a.taken);
    RankAfterRound(a.ids, a.cursor, a.taken, x);
    SmallerRank(a.ids, b.ids, b.cursor, x);
  }

  lemma {:induction false} UnvisitedRank(rounds: seq<Round>, x: string, n: nat)
    requires FairRounds(rounds) && n < |rounds|
    requires forall i | 0 <= i <= n :: x in rounds[i].ids
    requires forall i | 0 <= i < n :: FairRound(rounds[i]) && !Visits(rounds[i], x)
    ensures Rank(rounds[n].ids, rounds[n].cursor, x) + FAIR_SHARE * n < |rounds[0].ids|
  {
    if n == 0 {
      RankBelowSize(rounds[0].ids, rounds[0].cursor, x);
    } else {
      UnvisitedRank(rounds, x, n - 1);
      assert Continues(rounds[n - 1], rounds[n]);
      UnvisitedMovesUp(rounds[n - 1], rounds[n], x);
    }
  }

  function Ceiling(n: nat): nat { (n + FAIR_SHARE - 1) / FAIR_SHARE }

  /** Every id that stays trackable is visited within the first `ceil(N / 50)` rounds. */
  lemma EveryIdIsVisited(rounds: seq<Round>, x: string)
    requires FairRounds(rounds) && rounds != [] && Ceiling(|rounds[0].ids|) <= |rounds|
    requires x in rounds[0].ids && forall i | 0 <= i < Ceiling(|rounds[0].ids|) :: x in rounds[i].ids
    ensures exists i :: 0 <= i < Ceiling(|rounds[0].ids|) && FairRound(rounds[i]) && Visits(rounds[i], x)
  {
    hide Rotation, Rank, Visits, Continues;
    var n := Ceiling(|rounds[0].ids|);
    if forall i | 0 <= i < n :: FairRound(rounds[i]) && !Visits(rounds[i], x) {
      assert n >= 1;
      UnvisitedRank(rounds, x, n - 1);
      var last := rounds[n - 1];
      LastVisit(last, x);
    }
  }

  lemma LastVisit(round: Round, x: string)
    requires FairRound(round) && x in round.ids && Rank(round.ids, round.cursor, x) < FAIR_SHARE
    ensures Visits(round, x)
  {
    hide Rotation, Rank, Earlier;
    RotationLists(round.ids, round.cursor);
    RankBelowSize(round.ids, round.cursor, x);
    var q := Rotation(round.ids, round.cursor);
    var i :| 0 <= i < |q| && q[i] == x;
    RankIsIndex(round.ids, round.cursor, i);
    assert q[..round.taken][i] == x;
  }

  // ------------------------------------------------------------ the queries and the loop

  predicate IsTrackable(o: O.Operation) {
    || o.state == O.Submitted || o.state == O.Mined || o.state == O.Confirming || o.state == O.Reorged
    || o.state == O.ReconciliationFailed
  }

  function TrackableSet(ops: OpTable, c: Contract): set<string> {
    set id | id in ops && ContractOf(ops[id]) == c && IsTrackable(ops[id])
  }

  function Take(q: seq<string>, n: nat): seq<string> { q[..Min(n, |q|)] }

  lemma TakeJoined(p: seq<string>, q: seq<string>, n: nat)
    ensures |Take(p, n)| <= n
    ensures Take(p + q, n) == if |Take(p, n)| < n then Take(p, n) + Take(q, n - |Take(p, n)|) else Take(p, n)
  {
  }

  /** `trackableOperationIds`: the start of the rotation, at most `limit` ids. */
  method TrackableOperationIds(ops: OpTable, c: Contract, limit: int, after: Option<string>) returns (r: Result<seq<string>, Fault>)
    ensures !(1 <= limit <= 1000) ==> r == Err(InvalidLimit)
    ensures 1 <= limit <= 1000 && after.Some? && !ValidId(after.value) ==> r == Err(InvalidOperationId)
    ensures 1 <= limit <= 1000 && (after.None? || ValidId(after.value)) ==>
              r == Ok(Take(Rotation(TrackableSet(ops, c), after), limit))
  {
    if limit < 1 || limit > 1000 { return Err(InvalidLimit); }
    if after.Some? && !ValidId(after.value) { return Err(InvalidOperationId); }
    hide Later, ValidId, Take, Sorted, TrackableSet;
    var ids := TrackableSet(ops, c);
    TakeJoined(Sorted(Later(ids, after)), Sorted(ids - Later(ids, after)), limit);
    if after.None? {
      NoCursor(ids);
      return Ok(Take(Sorted(ids), limit));
    }
    var rows := Take(Sorted(Later(ids, after)), limit);
    if |rows| < limit { rows := rows + Take(Sorted(ids - Later(ids, after)), limit - |rows|); }
    r := Ok(rows);
  }

  lemma {:induction false} NoCursor(ids: set<string>)
    ensures Rotation(ids, None) == Sorted(ids)
  {
    assert Later(ids, None) == ids && ids - ids == {};
    assert Sorted(ids) + [] == Sorted(ids);
  }

  datatype Item = Item(id: string, target: Contract)

  function IdsOf(items: seq<Item>, c: Contract): seq<string> {
    if items == [] then []
    else
      var last := items[|items| - 1];
      IdsOf(items[..|items| - 1], c) + if last.target == c then [last.id] else []
  }

  lemma {:induction false} IdsOfLast(items: seq<Item>, item: Item, c: Contract)
    ensures IdsOf(items + [item], c) == if item.target == c then IdsOf(items, c) + [item.id] else IdsOf(items, c)
  {
    assert (items + [item])[..|items|] == items;
  }

  lemma TakeLast(q: seq<string>, n: nat)
    requires n < |q|
    ensures q[..n + 1] == q[..n] + [q[n]]
  {
  }

  predicate Targets(items: seq<Item>, targets: set<Contract>) { forall i | 0 <= i < |items| :: items[i].target in targets }

  method Push(items: seq<Item>, q: seq<string>, n: nat, target: Contract, other: Contract, ghost r: seq<string>)
    returns (next: seq<Item>)
    requires n < |q| && target != other && IdsOf(items, target) == q[..n] && IdsOf(items, other) == r
    ensures Targets(items, {target, other}) ==> Targets(next, {target, other})
    ensures |next| == |items| + 1 && IdsOf(next, target) == q[..n + 1] && IdsOf(next, other) == r
  {
    hide IdsOf;
    next := items + [Item(q[n], target)];
    IdsOfLast(items, Item(q[n], target), target);
    IdsOfLast(items, Item(q[n], target), other);
    TakeLast(q, n);
  }

  /**
  Items taken alternately from both queues while there is room: a prefix of each, with at least
  a fair share. A deployment manifest with one address for both contracts is refused when it is
  read, so the two targets differ.
  */
  method Interleave(v: seq<string>, p: seq<string>, vault: Contract, pass: Contract)
    returns (items: seq<Item>, ghost a: nat, ghost b: nat)
    requires vault != pass
    ensures a <= |v| && b <= |p| && IdsOf(items, vault) == v[..a] && IdsOf(items, pass) == p[..b]
    ensures a + b == |items| == Min(ROUND_LIMIT, |v| + |p|)
    ensures Min(FAIR_SHARE, |v|) <= a && Min(FAIR_SHARE, |p|) <= b
    ensures Targets(items, {vault, pass})
  {
    items, a, b := [], 0, 0;
    var index := 0;
    assert IdsOf(items, vault) == v[..a] && IdsOf(items, pass) == p[..b];
    hide IdsOf, Targets;
    while |items| < ROUND_LIMIT
      invariant a + b == |items| <= ROUND_LIMIT
      invariant |items| < ROUND_LIMIT ==> a == Min(index, |v|) && b == Min(index, |p|)
      invariant a <= |v| && b <= |p| && (a < |v| ==> b <= a) && (b < |p| ==> a <= b + 1)
      invariant IdsOf(items, vault) == v[..a] && IdsOf(items, pass) == p[..b]
      invariant Targets(items, {vault, pass})
      decreases ROUND_LIMIT - |items|
    {
      if index < |v| {
        items := Push(items, v, index, vault, pass, p[..b]);
        a := a + 1;
      }
      if |items| < ROUND_LIMIT && index < |p| {
        items := Push(items, p, index, pass, vault, v[..a]);
        b := b + 1;
      }
      if index >= |v| && index >= |p| { break; }
      index := index + 1;
    }
  }

  predicate WellNamed(ops: OpTable) { forall id | id in ops :: ValidId(id) }

  function FailureCount(items: seq<Item>, fails: Item -> bool): nat {
    if items == [] then 0
    else FailureCount(items[..|items| - 1], fails) + if fails(items[|items| - 1]) then 1 else 0
  }

  function LastId(items: seq<Item>, c: Contract): Option<string> {
    var ids := IdsOf(items, c);
    if ids == [] then None else Some(ids[|ids| - 1])
  }

  lemma NothingToTake(cursor: Option<string>)
    ensures Take(Rotation({}, cursor), ROUND_LIMIT) == []
  {
    RotationLists({}, cursor);
  }

  /** Prefixes of the first hundred of each rotation with a fair share of each are fair rounds. */
  lemma FairTaking(v: Round, vault: seq<string>, p: Round, pass: seq<string>)
    requires vault == Take(Rotation(v.ids, v.cursor), ROUND_LIMIT) && pass == Take(Rotation(p.ids, p.cursor), ROUND_LIMIT)
    requires Min(FAIR_SHARE, |vault|) <= v.taken <= |vault| && Min(FAIR_SHARE, |pass|) <= p.taken <= |pass|
    requires (forall x | x in v.ids :: ValidId(x)) && (v.cursor.Some? ==> ValidId(v.cursor.value))
    requires (forall x | x in p.ids :: ValidId(x)) && (p.cursor.Some? ==> ValidId(p.cursor.value))
    ensures FairRound(v) && FairRound(p)
    ensures vault[..v.taken] == Rotation(v.ids, v.cursor)[..v.taken] && pass[..p.taken] == Rotation(p.ids, p.cursor)[..p.taken]
    ensures Min(ROUND_LIMIT, |vault| + |pass|) == Min(ROUND_LIMIT, |v.ids| + |p.ids|)
    ensures NextCursor(v).Some? ==> ValidId(NextCursor(v).value)
    ensures NextCursor(p).Some? ==> ValidId(NextCursor(p).value)
  {
    hide Rotation, ValidId;
    RotationLists(v.ids, v.cursor);
    RotationLists(p.ids, p.cursor);
    CursorIsValid(v);
    CursorIsValid(p);
  }

  lemma CursorIsValid(round: Round)
    requires FairRound(round) && (forall x | x in round.ids :: ValidId(x)) && (round.cursor.Some? ==> ValidId(round.cursor.value))
    ensures NextCursor(round).Some? ==> ValidId(NextCursor(round).value)
  {
    RotationLists(round.ids, round.cursor);
    if round.taken > 0 { assert Rotation(round.ids, round.cursor)[round.taken - 1] in round.ids; }
  }

  lemma TrackableAreValid(ops: OpTable, c: Contract)
    requires WellNamed(ops)
    ensures forall x | x in TrackableSet(ops, c) :: ValidId(x)
  {
  }

  // ------------------------------------------------------------ rounds of the tracker

  /** The round read these ids and visited these. */
  predicate RoundOf(round: Round, ids: set<string>, visited: seq<string>) {
    FairRound(round) && round.ids == ids && visited == Rotation(round.ids, round.cursor)[..round.taken]
  }

  lemma IsRoundOf(round: Round, visited: seq<string>)
    requires FairRound(round) && visited == Rotation(round.ids, round.cursor)[..round.taken]
    ensures RoundOf(round, round.ids, visited)
  {
  }

  lemma RoundIds(round: Round, ids: set<string>, visited: seq<string>)
    requires RoundOf(round, ids, visited)
    ensures round.ids == ids
  {
  }

  ghost predicate NeverGrows(rounds: seq<Round>) { forall i | 0 < i < |rounds| :: rounds[i].ids <= rounds[i - 1].ids }

  /** The id stays in the queue for as many rounds as it may have to wait. */
  ghost predicate Lasting(rounds: seq<Round>, x: string) {
    && rounds != [] && 0 < Ceiling(|rounds[0].ids|) <= |rounds|
    && forall i | 0 <= i < Ceiling(|rounds[0].ids|) :: x in rounds[i].ids
  }

  ghost predicate VisitedInTime(visited: seq<seq<Item>>, c: Contract, rounds: seq<Round>, x: string) {
    rounds != [] && exists i | 0 <= i < |visited| && i < Ceiling(|rounds[0].ids|) :: x in IdsOf(visited[i], c)
  }

  /** Each round took up the cursor where the one before it left it, and `cursor` is where the last one did. */
  ghost predicate Chained(rounds: seq<Round>, cursor: Option<string>) {
    && (forall i | 0 <= i < |rounds| :: FairRound(rounds[i]))
    && (forall i | 0 < i < |rounds| :: TakesUp(rounds[i - 1], rounds[i].cursor))
    && (rounds != [] ==> TakesUp(rounds[|rounds| - 1], cursor))
  }

  predicate TakesUp(a: Round, cursor: Option<string>)
    requires FairRound(a)
  {
    cursor == NextCursor(a)
  }

  lemma NothingChained(cursor: Option<string>)
    ensures Chained([], cursor)
  {
  }

  lemma ChainedOn(rounds: seq<Round>, cursor: Option<string>, next: Round)
    requires Chained(rounds, cursor) && FairRound(next) && next.cursor == cursor
    ensures Chained(rounds + [next], NextCursor(next))
  {
    hide FairRound, NextCursor;
  }

  lemma ChainedIsFair(rounds: seq<Round>, cursor: Option<string>)
    requires Chained(rounds, cursor) && NeverGrows(rounds)
    ensures FairRounds(rounds)
  {
    hide FairRound, NextCursor;
    forall i | 0 < i < |rounds| ensures Continues(rounds[i - 1], rounds[i]) {
      assert TakesUp(rounds[i - 1], rounds[i].cursor);
    }
  }

  lemma RoundsVisit(visited: seq<seq<Item>>, c: Contract, rounds: seq<Round>, cursor: Option<string>)
    requires |visited| == |rounds| && Chained(rounds, cursor)
    requires forall i | 0 <= i < |rounds| :: RoundOf(rounds[i], rounds[i].ids, IdsOf(visited[i], c))
    ensures NeverGrows(rounds) ==> FairRounds(rounds)
    ensures forall x | NeverGrows(rounds) && Lasting(rounds, x) :: VisitedInTime(visited, c, rounds, x)
  {
    hide Chained, NeverGrows, FairRounds, IdsOf, Rotation;
    if NeverGrows(rounds) { ChainedIsFair(rounds, cursor); }
    forall x | NeverGrows(rounds) && Lasting(rounds, x) ensures VisitedInTime(visited, c, rounds, x) {
      EveryIdIsVisited(rounds, x);
      var i :| 0 <= i < Ceiling(|rounds[0].ids|) && FairRound(rounds[i]) && Visits(rounds[i], x);
      assert RoundOf(rounds[i], rounds[i].ids, IdsOf(visited[i], c));
      assert x in IdsOf(visited[i], c);
    }
  }

  class OperationTracker {
    const vault: Contract
    const pass: Contract
    const ownsPass: bool
    var vaultCursor: Option<string>
    var passCursor: Option<string>

    constructor (vault: Contract, pass: Contract, ownsPass: bool)
      ensures this.vault == vault && this.pass == pass && this.ownsPass == ownsPass
      ensures vaultCursor.None? && passCursor.None?
    {
      this.vault, this.pass, this.ownsPass := vault, pass, ownsPass;
      vaultCursor, passCursor := None, None;
    }

    predicate Valid()
      reads this
    {
      vault != pass && (vaultCursor.Some? ==> ValidId(vaultCursor.value)) && (passCursor.Some? ==> ValidId(passCursor.value))
    }

    function PassIds(ops: OpTable): set<string> { if ownsPass then TrackableSet(ops, pass) else {} }

    /** Tracking each item in turn; a failure is counted and does not hold the cursor back. */
    method TrackAll(items: seq<Item>, fails: Item -> bool) returns (failures: nat)
      requires vault != pass && Targets(items, {vault, pass})
      modifies this
      ensures failures == FailureCount(items, fails)
      ensures vaultCursor == if LastId(items, vault).Some? then LastId(items, vault) else old(vaultCursor)
      ensures passCursor == if LastId(items, pass).Some? then LastId(items, pass) else old(passCursor)
    {
      failures := 0;
      var lastVault, lastPass := None, None;
      for i := 0 to |items|
        invariant failures == FailureCount(items[..i], fails)
        invariant lastVault == LastId(items[..i], vault) && lastPass == LastId(items[..i], pass)
        invariant vaultCursor == old(vaultCursor) && passCursor == old(passCursor)
      {
        assert items[..i + 1][..i] == items[..i];
        if fails(items[i]) { failures := failures + 1; }
        if items[i].target == vault { lastVault := Some(items[i].id); } else { lastPass := Some(items[i].id); }
      }
      assert items[..|items|] == items;
      if lastVault.Some? { vaultCursor := lastVault; }
      if lastPass.Some? { passCursor := lastPass; }
    }

    /** The tracking part of a caught-up `syncToHead`: a fair round for each queue, whatever fails. */
    method TrackRound(ops: OpTable, fails: Item -> bool)
      returns (items: seq<Item>, failures: nat, ghost vaultRound: Round, ghost passRound: Round)
      requires Valid() && WellNamed(ops)
      modifies this
      ensures Valid()
      ensures vaultRound.ids == TrackableSet(ops, vault) && vaultRound.cursor == old(vaultCursor)
      ensures passRound.ids == PassIds(ops) && passRound.cursor == old(passCursor)
      ensures FairRound(vaultRound) && FairRound(passRound)
      ensures IdsOf(items, vault) == Rotation(vaultRound.ids, vaultRound.cursor)[..vaultRound.taken]
      ensures IdsOf(items, pass) == Rotation(passRound.ids, passRound.cursor)[..passRound.taken]
      ensures vaultCursor == NextCursor(vaultRound) && passCursor == NextCursor(passRound)
      ensures |items| == Min(ROUND_LIMIT, |vaultRound.ids| + |passRound.ids|) && failures == FailureCount(items, fails)
    {
      hide Rotation, IdsOf, TrackableSet, ValidId, Targets, FairRound, FailureCount;
      TrackableAreValid(ops, vault);
      TrackableAreValid(ops, pass);
      var vaultIds := TrackableOperationIds(ops, vault, ROUND_LIMIT, vaultCursor);
      var passIds := Ok([]);
      if ownsPass { passIds := TrackableOperationIds(ops, pass, ROUND_LIMIT, passCursor); }
      else { NothingToTake(passCursor); }
      ghost var a, b;
      items, a, b := Interleave(vaultIds.value, passIds.value, vault, pass);
      vaultRound, passRound := Round(TrackableSet(ops, vault), vaultCursor, a), Round(PassIds(ops), passCursor, b);
      FairTaking(vaultRound, vaultIds.value, passRound, passIds.value);
      failures := TrackAll(items, fails);
    }

    /**
    Rounds one after the other, each on the operations it finds: while a queue does not grow,
    every id that stays in it is visited within the first `ceil(N / 50)` of them, whatever fails.
    */
    method TrackRounds(tables: seq<OpTable>, fails: Item -> bool)
      returns (visited: seq<seq<Item>>, ghost vaultRounds: seq<Round>, ghost passRounds: seq<Round>)
      requires Valid() && forall i | 0 <= i < |tables| :: WellNamed(tables[i])
      modifies this
      ensures Valid() && |visited| == |vaultRounds| == |passRounds| == |tables|
      ensures forall i | 0 <= i < |tables| ::
                RoundOf(vaultRounds[i], TrackableSet(tables[i], vault), IdsOf(visited[i], vault)) &&
                RoundOf(passRounds[i], PassIds(tables[i]), IdsOf(visited[i], pass))
      ensures NeverGrows(vaultRounds) ==> FairRounds(vaultRounds)
      ensures NeverGrows(passRounds) ==> FairRounds(passRounds)
      ensures forall x | NeverGrows(vaultRounds) && Lasting(vaultRounds, x) :: VisitedInTime(visited, vault, vaultRounds, x)
      ensures forall x | NeverGrows(passRounds) && Lasting(passRounds, x) :: VisitedInTime(visited, pass, passRounds, x)
    {
      hide FairRound, TrackableSet, IdsOf, ValidId, WellNamed, PassIds, Chained, NeverGrows, FairRounds, Lasting, VisitedInTime;
      hide Rotation, NextCursor, RoundOf;
      visited, vaultRounds, passRounds := [], [], [];
      NothingChained(vaultCursor);
      NothingChained(passCursor);
      for k := 0 to |tables|
        invariant Valid() && |visited| == |vaultRounds| == |passRounds| == k
        invariant forall i | 0 <= i < k ::
                    RoundOf(vaultRounds[i], TrackableSet(tables[i], vault), IdsOf(visited[i], vault)) &&
                    RoundOf(passRounds[i], PassIds(tables[i]), IdsOf(visited[i], pass))
        invariant Chained(vaultRounds, vaultCursor) && Chained(passRounds, passCursor)
      {
        ghost var vaultWas, passWas := vaultCursor, passCursor;
        var items, failures;
        ghost var v, p;
        items, failures, v, p := TrackRound(tables[k], fails);
        ChainedOn(vaultRounds, vaultWas, v);
        ChainedOn(passRounds, passWas, p);
        IsRoundOf(v, IdsOf(items, vault));
        IsRoundOf(p, IdsOf(items, pass));
        visited, vaultRounds, passRounds := visited + [items], vaultRounds + [v], passRounds + [p];
      }
      forall i | 0 <= i < |tables|
        ensures RoundOf(vaultRounds[i], vaultRounds[i].ids, IdsOf(visited[i], vault))
        ensures RoundOf(passRounds[i], passRounds[i].ids, IdsOf(visited[i], pass))
      {
        RoundIds(vaultRounds[i], TrackableSet(tables[i], vault), IdsOf(visited[i], vault));
        RoundIds(passRounds[i], PassIds(tables[i]), IdsOf(visited[i], pass));
      }
      RoundsVisit(visited, vault, vaultRounds, vaultCursor);
      RoundsVisit(visited, pass, passRounds, passCursor);
    }
  }
}
