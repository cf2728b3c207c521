/** Issuing execution permits: validity windows and the store of consumed nonces. */
module Replay {
  import opened Results
  import opened Risk

  // ------------------------------------------------------------ the replay store

  type Seen = map<string, int>

  /** What is still remembered at `now`. */
  function Remembered(seen: Seen, now: int): Seen { map k | k in seen && seen[k] >= now :: seen[k] }

  function ConsumeNext(seen: Seen, key: string, expiry: int, now: int): (Seen, bool) {
    var kept := Remembered(seen, now);
    if key in kept then (kept, false) else (kept[key := expiry], true)
  }

  class MemoryReplayStore {
    var seen: Seen

    constructor ()
      ensures seen == map[]
    {
      seen := map[];
    }

    method Consume(key: string, expiry: int, now: int) returns (accepted: bool)
      modifies this
      ensures (seen, accepted) == ConsumeNext(old(seen), key, expiry, now)
    {
      var rest := seen.Keys;
      while rest != {}
        invariant rest <= old(seen).Keys
        invariant seen == map k | k in old(seen) && (k in rest || old(seen)[k] >= now) :: old(seen)[k]
        decreases |rest|
      {
        var k :| k in rest;
        if seen[k] < now { seen := seen - {k}; }
        rest := rest - {k};
      }
      assert seen == Remembered(old(seen), now);
      if key in seen { return false; }
      seen, accepted := seen[key := expiry], true;
    }
  }

  // ------------------------------------------------------------ permits

  datatype Windows = Windows(maxDecisionAge: int, maxClockSkew: int, permitTtl: int)

  datatype Grant = Grant(grantId: string, validFrom: int, validUntil: int, windows: Windows)

  datatype Decision = Decision(
    grantId: string, version: string, nonce: string, issuedAt: int, expiresAt: int, venue: string, targets: seq<Target>)

  /** One request: `trusted` stands for the signatures, identifiers and bindings that hold no state. */
  datatype Request = Request(now: int, trusted: bool, grant: Grant, decision: Decision, account: Account, policy: Policy)

  datatype Permit = Permit(decision: Decision, orders: seq<Order>, issuedAt: int, expiresAt: int)

  predicate ValidWindows(w: Windows) {
    100 <= w.maxDecisionAge <= 3_600_000 && 0 <= w.maxClockSkew <= 60_000 && 100 <= w.permitTtl <= 60_000 &&
    w.permitTtl <= w.maxDecisionAge
  }

  predicate GrantActive(g: Grant, now: int) { g.validFrom < g.validUntil && g.validFrom <= now < g.validUntil && ValidWindows(g.windows) }

  /** `validateDecisionBinding`, but for its identifiers. */
  predicate DecisionFresh(d: Decision, g: Grant, now: int) {
    && d.grantId == g.grantId
    && d.issuedAt <= now + g.windows.maxClockSkew
    && now - d.issuedAt <= g.windows.maxDecisionAge && now < d.expiresAt
    && d.issuedAt < d.expiresAt && d.expiresAt - d.issuedAt <= g.windows.maxDecisionAge
    && |d.targets| <= 128
  }

  ghost predicate Admissible(r: Request) {
    r.trusted && GrantActive(r.grant, r.now) && DecisionFresh(r.decision, r.grant, r.now) &&
    Acceptable(r.decision.venue, r.decision.targets, r.account, r.policy)
  }

  /** The scope is the grant and the release; both are bound to the decision. */
  function KeyOf(d: Decision): string { d.grantId + ":" + d.version + ":" + d.nonce }

  function PermitOf(r: Request): Permit {
    Permit(r.decision, OrdersOf(r.account.positions, r.decision.targets), r.now,
           Min(Min(r.decision.expiresAt, r.grant.validUntil), r.now + r.grant.windows.permitTtl))
  }

  ghost function IssueNext(seen: Seen, r: Request): (Seen, Option<Permit>) {
    if !Admissible(r) then (seen, None)
    else
      var (next, accepted) := ConsumeNext(seen, KeyOf(r.decision), r.decision.expiresAt, r.now);
      (next, if accepted then Some(PermitOf(r)) else None)
  }

  /** `issueExecutionPermit`; the nonce is consumed only after every other check. */
  method IssueExecutionPermit(store: MemoryReplayStore, r: Request) returns (permit: Option<Permit>)
    modifies store
    ensures (store.seen, permit) == IssueNext(old(store.seen), r)
  {
    if !r.trusted || !GrantActive(r.grant, r.now) || !DecisionFresh(r.decision, r.grant, r.now) { return None; }
    var orders := EvaluateRisk(r.decision.venue, r.decision.targets, r.account, r.policy);
    if orders.Err? { return None; }
    var accepted := store.Consume(KeyOf(r.decision), r.decision.expiresAt, r.now);
    if !accepted { return None; }
    var expiresAt := Min(Min(r.decision.expiresAt, r.grant.validUntil), r.now + r.grant.windows.permitTtl);
    permit := Some(Permit(r.decision, orders.value, r.now, expiresAt));
  }

  /**
  A permit's window is not empty and lies inside the decision, the grant and the grant's own
  lifetime for permits; one of the three bounds it, so no longer window would do.
  */
  lemma PermitWindow(seen: Seen, r: Request)
    requires IssueNext(seen, r).1.Some?
    ensures var p := IssueNext(seen, r).1.value;
            && p.decision == r.decision && p.issuedAt == r.now < p.expiresAt
            && p.expiresAt <= r.decision.expiresAt && p.expiresAt <= r.grant.validUntil
            && p.expiresAt <= r.now + r.grant.windows.permitTtl <= r.now + 60_000 && r.grant.validFrom <= p.issuedAt
            && p.expiresAt in {r.decision.expiresAt, r.grant.validUntil, r.now + r.grant.windows.permitTtl}
  {
  }

  // ------------------------------------------------------------ runs

  ghost function SeenAfter(requests: seq<Request>): Seen {
    if requests == [] then map[]
    else IssueNext(SeenAfter(requests[..|requests| - 1]), requests[|requests| - 1]).0
  }

  ghost function Answer(requests: seq<Request>, i: nat): Option<Permit>
    requires i < |requests|
  {
    IssueNext(SeenAfter(requests[..i]), requests[i]).1
  }

  predicate ClockOk(requests: seq<Request>) {
    forall i, j | 0 <= i < j < |requests| :: requests[i].now <= requests[j].now
  }

  predicate Holds(seen: Seen, d: Decision) { KeyOf(d) in seen && seen[KeyOf(d)] == d.expiresAt }

  /** A nonce that was consumed is remembered as long as its decision can still be accepted. */
  lemma RememberedUntilExpiry(seen: Seen, r: Request, d: Decision)
    requires Holds(seen, d) && r.now <= d.expiresAt
    ensures Holds(IssueNext(seen, r).0, d)
  {
  }

  lemma {:induction false} ConsumedStays(requests: seq<Request>, i: nat, j: nat)
    requires ClockOk(requests) && i < j <= |requests| && Answer(requests, i).Some?
    requires j < |requests| ==> requests[j].now <= requests[i].decision.expiresAt
    requires forall k | i < k < j :: requests[k].now <= requests[i].decision.expiresAt
    ensures Holds(SeenAfter(requests[..j]), requests[i].decision)
    decreases j
  {
    assert requests[..j][..j - 1] == requests[..j - 1];
    if i < j - 1 {
      ConsumedStays(requests, i, j - 1);
      RememberedUntilExpiry(SeenAfter(requests[..j - 1]), requests[j - 1], requests[i].decision);
    }
  }

  /** Whatever else is requested in between, one decision yields at most one permit. */
  lemma OneDecisionOnePermit(requests: seq<Request>, i: nat, j: nat)
    requires ClockOk(requests) && i < j < |requests| && requests[i].decision == requests[j].decision
    ensures Answer(requests, i).None? || Answer(requests, j).None?
  {
    var d := requests[i].decision;
    if Answer(requests, i).Some? && Admissible(requests[j]) {
      assert requests[j].now < d.expiresAt;
      ConsumedStays(requests, i, j);
    }
  }

  /** The two comparisons meet without a gap: at its expiry instant a nonce is still kept and already refused. */
  lemma NoGapAtExpiry(seen: Seen, d: Decision, g: Grant, now: int)
    requires Holds(seen, d)
    ensures now <= d.expiresAt ==> KeyOf(d) in Remembered(seen, now)
    ensures now >= d.expiresAt ==> !DecisionFresh(d, g, now)
  {
  }

  // ------------------------------------------------------------ which requests get a permit

  /** An earlier request under this key got a permit whose decision has not expired at `now`. */
  ghost predicate Consumed(requests: seq<Request>, j: nat, key: string, now: int)
    requires j <= |requests|
  {
    exists i | 0 <= i < j :: ConsumedBy(requests, i, key, now)
  }

  ghost predicate ConsumedBy(requests: seq<Request>, i: nat, key: string, now: int)
    requires i < |requests|
  {
    KeyOf(requests[i].decision) == key && Answer(requests, i).Some? && requests[i].decision.expiresAt >= now
  }

  lemma NextConsumed(requests: seq<Request>, j: nat, key: string, now: int)
    requires j < |requests|
    ensures Consumed(requests, j + 1, key, now) <==> Consumed(requests, j, key, now) || ConsumedBy(requests, j, key, now)
  {
    hide ConsumedBy;
  }

  /** What the store holds for a later instant is what earlier permits have consumed. */
  lemma {:induction false} HeldIffConsumed(requests: seq<Request>, j: nat, key: string, now: int)
    requires ClockOk(requests) && j <= |requests| && (forall i | 0 <= i < j :: requests[i].now <= now)
    ensures var seen := SeenAfter(requests[..j]);
            (key in seen && seen[key] >= now) <==> Consumed(requests, j, key, now)
  {
    if j > 0 {
      var r, before := requests[j - 1], SeenAfter(requests[..j - 1]);
      assert requests[..j][..j - 1] == requests[..j - 1];
      HeldIffConsumed(requests, j - 1, key, now);
      HeldIffConsumed(requests, j - 1, key, r.now);
      NextConsumed(requests, j - 1, key, now);
      HeldNext(before, r, key, now);
      if Consumed(requests, j - 1, key, now) { ConsumedEarlier(requests, j - 1, key, r.now, now); }
    }
  }

  lemma HeldNext(seen: Seen, r: Request, key: string, now: int)
    requires r.now <= now
    ensures var (next, permit) := IssueNext(seen, r);
            (key in next && next[key] >= now) <==>
            if permit.Some? && KeyOf(r.decision) == key then r.decision.expiresAt >= now else key in seen && seen[key] >= now
    ensures IssueNext(seen, r).1.Some? ==> !(KeyOf(r.decision) in seen && seen[KeyOf(r.decision)] >= r.now)
  {
    hide Admissible, KeyOf, PermitOf;
  }

  lemma ConsumedEarlier(requests: seq<Request>, j: nat, key: string, now: int, later: int)
    requires j <= |requests| && now <= later && Consumed(requests, j, key, later)
    ensures Consumed(requests, j, key, now)
  {
    var i :| 0 <= i < j && ConsumedBy(requests, i, key, later);
    assert ConsumedBy(requests, i, key, now);
  }

  /**
  With a clock that does not go back, a request gets its permit exactly when it is admissible and
  no earlier permit under its key belongs to a decision that has not expired.
  */
  lemma PermitIff(requests: seq<Request>, j: nat)
    requires ClockOk(requests) && j < |requests|
    ensures Answer(requests, j).Some? <==>
            Admissible(requests[j]) && !Consumed(requests, j, KeyOf(requests[j].decision), requests[j].now)
  {
    hide Admissible, KeyOf, PermitOf;
    HeldIffConsumed(requests, j, KeyOf(requests[j].decision), requests[j].now);
  }

  // ------------------------------------------------------------ which decisions share a key

  lemma SuffixEqual(a: string, p: string, q: string)
    requires a + p == a + q
    ensures p == q
  {
    assert p == (a + p)[|a|..] && q == (a + q)[|a|..];
  }

  /** Of one grant and release, keys are equal exactly for equal nonces. */
  lemma SameScopeKeys(a: Decision, b: Decision)
    requires a.grantId == b.grantId && a.version == b.version
    ensures KeyOf(a) == KeyOf(b) <==> a.nonce == b.nonce
  {
    if KeyOf(a) == KeyOf(b) { SuffixEqual(a.grantId + ":" + a.version + ":", a.nonce, b.nonce); }
  }

  /** An earlier request with the same nonce got a permit that is not out of date at `now`. */
  ghost predicate NonceUsed(requests: seq<Request>, j: nat, nonce: string, now: int)
    requires j <= |requests|
  {
    exists i | 0 <= i < j ::
      requests[i].decision.nonce == nonce && Answer(requests, i).Some? && requests[i].decision.expiresAt >= now
  }

  predicate OneScope(requests: seq<Request>) {
    forall i, j | 0 <= i < j < |requests| ::
      requests[i].decision.grantId == requests[j].decision.grantId && requests[i].decision.version == requests[j].decision.version
  }

  /**
  For the decisions of one grant and release: a permit exactly for an admissible decision whose nonce
  has not been used by a permit whose decision is still alive.
  */
  lemma FreshNonceGetsPermit(requests: seq<Request>, j: nat)
    requires ClockOk(requests) && OneScope(requests) && j < |requests|
    ensures Answer(requests, j).Some? <==>
            Admissible(requests[j]) && !NonceUsed(requests, j, requests[j].decision.nonce, requests[j].now)
  {
    PermitIff(requests, j);
    hide Admissible, KeyOf, Answer;
    var d, now := requests[j].decision, requests[j].now;
    forall i | 0 <= i < j ensures KeyOf(requests[i].decision) == KeyOf(d) <==> requests[i].decision.nonce == d.nonce {
      SameScopeKeys(requests[i].decision, d);
    }
    if Consumed(requests, j, KeyOf(d), now) {
      var i :| 0 <= i < j && ConsumedBy(requests, i, KeyOf(d), now);
      assert requests[i].decision.nonce == d.nonce;
    }
    if i :| 0 <= i < j && requests[i].decision.nonce == d.nonce && Answer(requests, i).Some? &&
            requests[i].decision.expiresAt >= now {
      assert ConsumedBy(requests, i, KeyOf(d), now);
    }
  }

  /** `p` goes on after a colon where `q` ends, by `rest`. */
  predicate Continues(p: string, q: string, rest: string) { p == q + ":" + rest }

  /** Text joined by a colon is split in the same place, or one left part reaches into the other's right part. */
  lemma JoinedEqual(p: string, x: string, q: string, y: string)
    requires |q| <= |p|
    ensures p + ":" + x == q + ":" + y <==>
            (p == q && x == y) || (|p| > |q| && exists rest :: Continues(p, q, rest) && Continues(y, rest, x))
  {
    var whole := p + ":" + x;
    if whole == q + ":" + y {
      assert whole[..|q|] == q && whole[|q|] == ':' && whole[|q| + 1..] == y;
      if |p| == |q| {
        assert p == whole[..|p|] == q;
        assert x == whole[|p| + 1..];
      } else {
        var rest := p[|q| + 1..];
        assert p == whole[..|p|];
        assert p[..|q|] == q && p[|q|] == ':';
        assert p == q + ":" + rest;
        assert y == whole[|q| + 1..] == rest + ":" + x;
        assert Continues(p, q, rest) && Continues(y, rest, x);
      }
    }
    if rest :| Continues(p, q, rest) && Continues(y, rest, x) {
      assert p + ":" + x == q + ":" + rest + ":" + x == q + ":" + y;
    }
  }

  function ScopeOf(d: Decision): string { d.grantId + ":" + d.version }

  /**
  Identifiers may hold colons, so decisions of different scopes can meet under one key: exactly when the
  longer scope continues the shorter one after a colon and the nonce of the shorter one makes up for it.
  */
  lemma KeysMeetIff(a: Decision, b: Decision)
    requires |ScopeOf(b)| <= |ScopeOf(a)|
    ensures KeyOf(a) == KeyOf(b) <==>
            || (ScopeOf(a) == ScopeOf(b) && a.nonce == b.nonce)
            || (|ScopeOf(b)| < |ScopeOf(a)| &&
                exists rest :: Continues(ScopeOf(a), ScopeOf(b), rest) && Continues(b.nonce, rest, a.nonce))
  {
    JoinedEqual(ScopeOf(a), a.nonce, ScopeOf(b), b.nonce);
  }

  predicate NoColon(s: string) { ':' !in s }

  /** Where versions and nonces hold no colon, a key stands for one grant, one release and one nonce. */
  lemma PlainKeysAreExact(a: Decision, b: Decision)
    requires NoColon(a.version) && NoColon(b.version) && NoColon(a.nonce) && NoColon(b.nonce)
    ensures KeyOf(a) == KeyOf(b) <==> a.grantId == b.grantId && a.version == b.version && a.nonce == b.nonce
  {
    if KeyOf(a) == KeyOf(b) {
      SplitAtLast(ScopeOf(a), a.nonce, ScopeOf(b), b.nonce);
      SplitAtLast(a.grantId, a.version, b.grantId, b.version);
    }
  }

  lemma ColonInside(y: string, rest: string, x: string)
    requires Continues(y, rest, x)
    ensures !NoColon(y)
  {
    assert y[|rest|] == ':';
  }

  lemma NeverContinues(y: string, x: string)
    requires NoColon(y)
    ensures forall rest :: !Continues(y, rest, x)
  {
    forall rest ensures !Continues(y, rest, x) {
      if Continues(y, rest, x) { ColonInside(y, rest, x); }
    }
  }

  lemma SplitAtLast(p: string, x: string, q: string, y: string)
    requires NoColon(x) && NoColon(y) && p + ":" + x == q + ":" + y
    ensures p == q && x == y
  {
    NeverContinues(x, y);
    NeverContinues(y, x);
    if |q| <= |p| { JoinedEqual(p, x, q, y); } else { JoinedEqual(q, y, p, x); }
  }
}
