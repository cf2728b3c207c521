/** The risk engine: targets against limits, and the orders that reach them. */
module Risk {
  import opened Results

  type Positions = map<string, int>

  datatype Target = Target(instrument: string, amount: int)

  datatype Order = Order(instrument: string, delta: int)

  datatype Policy = Policy(
    allowed: seq<string>, maxPosition: int, maxOrder: int, maxGross: int, maxLeverageBps: nat, maxDailyLoss: int)

  datatype Account = Account(venue: string, equity: int, dailyPnl: int, positions: Positions)

  datatype Fault =
    | VenueMismatch | DuplicateTarget | InstrumentNotAllowed | PositionLimit | OrderLimit | GrossLimit | LeverageLimit
    | KillSwitch

  function Abs(x: int): nat { if x < 0 then -x else x }

  function Get(m: Positions, k: string): int { if k in m then m[k] else 0 }

  // ------------------------------------------------------------ gross notional

  ghost function Gross(m: Positions): nat
    decreases |m|
  {
    if m == map[] then 0 else var k :| k in m; Abs(m[k]) + Gross(m - {k})
  }

  lemma {:induction false} GrossWithout(m: Positions, k: string)
    requires k in m
    ensures Gross(m) == Abs(m[k]) + Gross(m - {k})
    decreases |m|
  {
    var first :| k in m && first in m && Gross(m) == Abs(m[first]) + Gross(m - {first});
    if first != k {
      GrossWithout(m - {first}, k);
      GrossWithout(m - {k}, first);
      assert m - {first} - {k} == m - {k} - {first};
    }
  }

  lemma GrossSet(m: Positions, k: string, v: int)
    ensures Gross(m[k := v]) == Gross(m - {k}) + Abs(v)
  {
    GrossWithout(m[k := v], k);
    assert m[k := v] - {k} == m - {k};
  }

  lemma {:induction false} GrossAt(m: Positions, k: string)
    ensures Gross(m) == Abs(Get(m, k)) + Gross(m - {k})
  {
    if k in m { GrossWithout(m, k); } else { assert m - {k} == m; }
  }

  /** The gross notional sees positions only: a key at zero and a missing key are one. */
  lemma {:induction false} GrossByGet(a: Positions, b: Positions)
    requires forall k :: Get(a, k) == Get(b, k)
    ensures Gross(a) == Gross(b)
    decreases a.Keys + b.Keys
  {
    if a.Keys + b.Keys != {} {
      var k :| k in a.Keys + b.Keys;
      GrossAt(a, k);
      GrossAt(b, k);
      assert forall x :: Get(a - {k}, x) == if x == k then 0 else Get(a, x);
      assert forall x :: Get(b - {k}, x) == if x == k then 0 else Get(b, x);
      GrossByGet(a - {k}, b - {k});
    } else {
      assert a.Keys <= a.Keys + b.Keys && b.Keys <= a.Keys + b.Keys;
    }
  }

  /** `grossNotional`: the values are met in an order that the map leaves open. */
  method GrossNotional(m: Positions) returns (total: nat)
    ensures total == Gross(m)
  {
    total := 0;
    var rest := m;
    while rest != map[]
      invariant total + Gross(rest) == Gross(m)
      decreases |rest|
    {
      var k :| k in rest;
      GrossWithout(rest, k);
      total := total + Abs(rest[k]);
      rest := rest - {k};
    }
  }

  // ------------------------------------------------------------ the decision

  function ResultOf(m: Positions, targets: seq<Target>): Positions {
    if targets == [] then m
    else
      var last := targets[|targets| - 1];
      ResultOf(m, targets[..|targets| - 1])[last.instrument := last.amount]
  }

  function OrdersOf(m: Positions, targets: seq<Target>): seq<Order> {
    if targets == [] then []
    else
      var last := targets[|targets| - 1];
      var delta := last.amount - Get(m, last.instrument);
      OrdersOf(m, targets[..|targets| - 1]) + if delta != 0 then [Order(last.instrument, delta)] else []
  }

  predicate DistinctInstruments(targets: seq<Target>) {
    forall i, j | 0 <= i < j < |targets| :: targets[i].instrument != targets[j].instrument
  }

  predicate WithinLimits(policy: Policy, m: Positions, t: Target) {
    && t.instrument in policy.allowed && Abs(t.amount) <= policy.maxPosition
    && Abs(t.amount - Get(m, t.instrument)) <= policy.maxOrder
  }

  /** One clause of `isReductionOnly`. */
  predicate Reduces(m: Positions, t: Target) {
    var before := Get(m, t.instrument);
    Abs(t.amount) <= Abs(before) && (t.amount == 0 || (before != 0 && (t.amount > 0 <==> before > 0)))
  }

  predicate ReductionOnly(m: Positions, targets: seq<Target>) { forall i | 0 <= i < |targets| :: Reduces(m, targets[i]) }

  predicate LossMode(policy: Policy, account: Account) { account.dailyPnl <= -policy.maxDailyLoss }

  /** Acceptance, without an order of evaluation. */
  ghost predicate Acceptable(venue: string, targets: seq<Target>, account: Account, policy: Policy) {
    var m := account.positions;
    var gross := Gross(ResultOf(m, targets));
    && venue == account.venue && TargetsPass(policy, m, targets)
    && gross <= policy.maxGross && gross * 10_000 <= account.equity * policy.maxLeverageBps
    && (LossMode(policy, account) ==> gross < Gross(m) && ReductionOnly(m, targets))
  }

  /** The first of a target's four checks that refuses it, after the instruments seen before it. */
  function Refusal(policy: Policy, m: Positions, seen: set<string>, t: Target): (fault: Option<Fault>)
    ensures fault.None? <==> t.instrument !in seen && WithinLimits(policy, m, t)
  {
    if t.instrument in seen then Some(DuplicateTarget)
    else if t.instrument !in policy.allowed then Some(InstrumentNotAllowed)
    else if Abs(t.amount) > policy.maxPosition then Some(PositionLimit)
    else if Abs(t.amount - Get(m, t.instrument)) > policy.maxOrder then Some(OrderLimit)
    else None
  }

  predicate NoneRefused(policy: Policy, m: Positions, targets: seq<Target>, n: nat)
    requires n <= |targets|
  {
    forall j | 0 <= j < n :: Refusal(policy, m, InstrumentsOf(targets[..j]), targets[j]).None?
  }

  /** The fault is that of the first target that is refused. */
  predicate FirstRefused(policy: Policy, m: Positions, targets: seq<Target>, i: nat, fault: Fault)
    requires i < |targets|
  {
    NoneRefused(policy, m, targets, i) && Refusal(policy, m, InstrumentsOf(targets[..i]), targets[i]) == Some(fault)
  }

  predicate TargetsPass(policy: Policy, m: Positions, targets: seq<Target>) {
    DistinctInstruments(targets) && forall i | 0 <= i < |targets| :: WithinLimits(policy, m, targets[i])
  }

  lemma PassIffNoneRefused(policy: Policy, m: Positions, targets: seq<Target>)
    ensures TargetsPass(policy, m, targets) <==> NoneRefused(policy, m, targets, |targets|)
  {
    if NoneRefused(policy, m, targets, |targets|) {
      forall i, j | 0 <= i < j < |targets| ensures targets[i].instrument != targets[j].instrument {
        assert targets[..j][i] == targets[i];
      }
    }
  }

  lemma NextTarget(policy: Policy, m: Positions, targets: seq<Target>, i: nat)
    requires i < |targets| && NoneRefused(policy, m, targets, i)
    ensures var refusal := Refusal(policy, m, InstrumentsOf(targets[..i]), targets[i]);
            if refusal.None? then NoneRefused(policy, m, targets, i + 1)
            else FirstRefused(policy, m, targets, i, refusal.value) && !TargetsPass(policy, m, targets)
  {
    PassIffNoneRefused(policy, m, targets);
  }

  lemma {:induction false} AfterTarget(m: Positions, targets: seq<Target>, i: nat)
    requires i < |targets|
    ensures InstrumentsOf(targets[..i + 1]) == InstrumentsOf(targets[..i]) + {targets[i].instrument}
    ensures ResultOf(m, targets[..i + 1]) == ResultOf(m, targets[..i])[targets[i].instrument := targets[i].amount]
    ensures var delta := targets[i].amount - Get(m, targets[i].instrument);
            OrdersOf(m, targets[..i + 1]) ==
            if delta == 0 then OrdersOf(m, targets[..i]) else OrdersOf(m, targets[..i]) + [Order(targets[i].instrument, delta)]
  {
    assert targets[..i + 1] == targets[..i] + [targets[i]];
    LastInstrument(targets[..i], targets[i]);
    LastResult(m, targets[..i], targets[i]);
  }

  /** The loop over the targets. */
  method CheckTargets(targets: seq<Target>, m: Positions, policy: Policy)
    returns (r: Result<(Positions, seq<Order>), Fault>)
    ensures r.Ok? <==> TargetsPass(policy, m, targets)
    ensures r.Ok? ==> r.value == (ResultOf(m, targets), OrdersOf(m, targets))
    ensures r.Err? ==> exists i | 0 <= i < |targets| :: FirstRefused(policy, m, targets, i, r.error)
  {
    var resulting, seen, orders := m, {}, [];
    assert NoneRefused(policy, m, targets, 0) && InstrumentsOf(targets[..0]) == {};
    assert ResultOf(m, targets[..0]) == m && OrdersOf(m, targets[..0]) == [];
    hide ResultOf, OrdersOf, InstrumentsOf, DistinctInstruments, TargetsPass, FirstRefused, NoneRefused, WithinLimits;
    for i := 0 to |targets|
      invariant resulting == ResultOf(m, targets[..i]) && orders == OrdersOf(m, targets[..i])
      invariant seen == InstrumentsOf(targets[..i]) && NoneRefused(policy, m, targets, i)
    {
      var t := targets[i];
      AfterTarget(m, targets, i);
      NextTarget(policy, m, targets, i);
      if t.instrument in seen { return Err(DuplicateTarget); }
      seen := seen + {t.instrument};
      if t.instrument !in policy.allowed { return Err(InstrumentNotAllowed); }
      if Abs(t.amount) > policy.maxPosition { return Err(PositionLimit); }
      var delta := t.amount - Get(m, t.instrument);
      if Abs(delta) > policy.maxOrder { return Err(OrderLimit); }
      resulting := resulting[t.instrument := t.amount];
      if delta != 0 { orders := orders + [Order(t.instrument, delta)]; }
    }
    assert targets[..|targets|] == targets;
    PassIffNoneRefused(policy, m, targets);
    r := Ok((resulting, orders));
  }

  function InstrumentsOf(targets: seq<Target>): set<string> { set i | 0 <= i < |targets| :: targets[i].instrument }

  lemma LastInstrument(q: seq<Target>, t: Target)
    ensures InstrumentsOf(q + [t]) == InstrumentsOf(q) + {t.instrument}
    ensures DistinctInstruments(q + [t]) <==> DistinctInstruments(q) && t.instrument !in InstrumentsOf(q)
  {
    var r := q + [t];
    assert r[..|q|] == q && r[|q|] == t;
    assert forall i | 0 <= i < |q| :: r[i] == q[i];
  }

  lemma {:induction false} LastResult(m: Positions, q: seq<Target>, t: Target)
    ensures ResultOf(m, q + [t]) == ResultOf(m, q)[t.instrument := t.amount]
    ensures var delta := t.amount - Get(m, t.instrument);
            OrdersOf(m, q + [t]) == OrdersOf(m, q) + if delta != 0 then [Order(t.instrument, delta)] else []
  {
    assert (q + [t])[..|q|] == q;
  }

  /** Which check refuses: the first one that fails, in the order of `evaluateRisk`. */
  ghost predicate RefusedFor(venue: string, targets: seq<Target>, account: Account, policy: Policy, fault: Fault) {
    var m := account.positions;
    var gross := Gross(ResultOf(m, targets));
    if venue != account.venue then fault == VenueMismatch
    else if !TargetsPass(policy, m, targets) then exists i | 0 <= i < |targets| :: FirstRefused(policy, m, targets, i, fault)
    else if gross > policy.maxGross then fault == GrossLimit
    else if gross * 10_000 > account.equity * policy.maxLeverageBps then fault == LeverageLimit
    else fault == KillSwitch && LossMode(policy, account) && (gross >= Gross(m) || !ReductionOnly(m, targets))
  }

  /** `evaluateRisk`. */
  method EvaluateRisk(venue: string, targets: seq<Target>, account: Account, policy: Policy) returns (r: Result<seq<Order>, Fault>)
    ensures r.Ok? <==> Acceptable(venue, targets, account, policy)
    ensures r.Ok? ==> r.value == OrdersOf(account.positions, targets)
    ensures r.Err? ==> RefusedFor(venue, targets, account, policy, r.error)
  {
    if venue != account.venue { return Err(VenueMismatch); }
    var checked := CheckTargets(targets, account.positions, policy);
    if checked.Err? { return Err(checked.error); }
    var resulting, orders := checked.value.0, checked.value.1;
    var current := GrossNotional(account.positions);
    var gross := GrossNotional(resulting);
    if gross > policy.maxGross { return Err(GrossLimit); }
    if gross * 10_000 > account.equity * policy.maxLeverageBps { return Err(LeverageLimit); }
    if account.dailyPnl <= -policy.maxDailyLoss {
      if gross >= current || !ReductionOnly(account.positions, targets) { return Err(KillSwitch); }
    }
    r := Ok(orders);
  }

  // ------------------------------------------------------------ what acceptance means

  function ApplyOrders(m: Positions, orders: seq<Order>): Positions {
    if orders == [] then m
    else
      var last := orders[|orders| - 1];
      var before := ApplyOrders(m, orders[..|orders| - 1]);
      before[last.instrument := Get(before, last.instrument) + last.delta]
  }

  lemma {:induction false} ApplyLast(m: Positions, orders: seq<Order>, o: Order)
    ensures ApplyOrders(m, orders + [o]) ==
            ApplyOrders(m, orders)[o.instrument := Get(ApplyOrders(m, orders), o.instrument) + o.delta]
  {
    assert (orders + [o])[..|orders|] == orders;
  }

  predicate Targeted(targets: seq<Target>, k: string) { k in InstrumentsOf(targets) }

  lemma {:induction false} TargetedResult(m: Positions, targets: seq<Target>, k: string)
    requires DistinctInstruments(targets)
    ensures !Targeted(targets, k) ==> Get(ResultOf(m, targets), k) == Get(m, k)
    ensures forall i | 0 <= i < |targets| && targets[i].instrument == k :: Get(ResultOf(m, targets), k) == targets[i].amount
  {
    if targets != [] {
      var n := |targets| - 1;
      TargetedResult(m, targets[..n], k);
      assert targets == targets[..n] + [targets[n]];
      LastInstrument(targets[..n], targets[n]);
      forall i | 0 <= i < |targets| && targets[i].instrument == k ensures Get(ResultOf(m, targets), k) == targets[i].amount {
        if i < n { assert targets[..n][i] == targets[i]; }
      }
    }
  }

  /** Executing the orders gives every targeted instrument its target and leaves every other as it was. */
  lemma {:induction false} OrdersReachTargets(m: Positions, targets: seq<Target>, k: string)
    requires DistinctInstruments(targets)
    ensures Get(ApplyOrders(m, OrdersOf(m, targets)), k) == Get(ResultOf(m, targets), k)
    ensures !Targeted(targets, k) ==> Get(ResultOf(m, targets), k) == Get(m, k)
    ensures forall i | 0 <= i < |targets| && targets[i].instrument == k :: Get(ResultOf(m, targets), k) == targets[i].amount
  {
    TargetedResult(m, targets, k);
    if targets != [] {
      hide ResultOf, OrdersOf, ApplyOrders, InstrumentsOf, DistinctInstruments;
      var n := |targets| - 1;
      var q, t := targets[..n], targets[n];
      assert targets == q + [t];
      LastInstrument(q, t);
      LastResult(m, q, t);
      TargetedResult(m, q, t.instrument);
      OrdersReachTargets(m, q, k);
      OrdersReachTargets(m, q, t.instrument);
      var delta := t.amount - Get(m, t.instrument);
      if delta != 0 { ApplyLast(m, OrdersOf(m, q), Order(t.instrument, delta)); }
      else { assert OrdersOf(m, q) + [] == OrdersOf(m, q); }
    }
  }

  lemma {:induction false} OrderIsOfTarget(m: Positions, targets: seq<Target>, j: nat) returns (i: nat)
    requires j < |OrdersOf(m, targets)|
    ensures i < |targets| && OrdersOf(m, targets)[j].instrument == targets[i].instrument
    ensures OrdersOf(m, targets)[j].delta == targets[i].amount - Get(m, targets[i].instrument) != 0
  {
    var n := |targets| - 1;
    if j < |OrdersOf(m, targets[..n])| { i := OrderIsOfTarget(m, targets[..n], j); } else { i := n; }
  }

  /** The portfolio after execution has the gross notional that was checked. */
  lemma {:induction false} ExecutedGross(m: Positions, targets: seq<Target>)
    requires DistinctInstruments(targets)
    ensures Gross(ApplyOrders(m, OrdersOf(m, targets))) == Gross(ResultOf(m, targets))
  {
    forall k ensures Get(ApplyOrders(m, OrdersOf(m, targets)), k) == Get(ResultOf(m, targets), k) {
      OrdersReachTargets(m, targets, k);
    }
    GrossByGet(ApplyOrders(m, OrdersOf(m, targets)), ResultOf(m, targets));
  }

  /** Executing an accepted decision keeps every limit: positions, orders, gross, leverage and, in loss mode, the drop. */
  lemma {:induction false} AcceptedWithinLimits(venue: string, targets: seq<Target>, account: Account, policy: Policy, j: nat, k: string)
    requires Acceptable(venue, targets, account, policy)
    ensures var after := ApplyOrders(account.positions, OrdersOf(account.positions, targets));
            && (Targeted(targets, k) ==> Abs(Get(after, k)) <= policy.maxPosition)
            && (!Targeted(targets, k) ==> Get(after, k) == Get(account.positions, k))
    ensures j < |OrdersOf(account.positions, targets)| ==>
              Abs(OrdersOf(account.positions, targets)[j].delta) <= policy.maxOrder
    ensures var gross := Gross(ApplyOrders(account.positions, OrdersOf(account.positions, targets)));
            && gross <= policy.maxGross && gross * 10_000 <= account.equity * policy.maxLeverageBps
            && (LossMode(policy, account) ==> gross < Gross(account.positions))
  {
    var m := account.positions;
    ExecutedGross(m, targets);
    OrdersReachTargets(m, targets, k);
    if i :| 0 <= i < |targets| && targets[i].instrument == k { assert WithinLimits(policy, m, targets[i]); }
    if j < |OrdersOf(m, targets)| {
      var i := OrderIsOfTarget(m, targets, j);
      assert WithinLimits(policy, m, targets[i]);
    }
  }

  /** In loss mode every order moves its position toward zero and not past it. */
  lemma {:induction false} LossModeOnlyReduces(venue: string, targets: seq<Target>, account: Account, policy: Policy, j: nat)
    requires Acceptable(venue, targets, account, policy) && LossMode(policy, account)
    requires j < |OrdersOf(account.positions, targets)|
    ensures var o := OrdersOf(account.positions, targets)[j];
            var before := Get(account.positions, o.instrument);
            var after := before + o.delta;
            (before > 0 && 0 <= after < before) || (before < 0 && before < after <= 0)
  {
    var i := OrderIsOfTarget(account.positions, targets, j);
    assert Reduces(account.positions, targets[i]);
  }

  // ------------------------------------------------------------ the kill switch

  lemma {:induction false} ReductionLowersGross(m: Positions, targets: seq<Target>)
    requires DistinctInstruments(targets) && ReductionOnly(m, targets)
    ensures Gross(ResultOf(m, targets)) <= Gross(m)
    ensures Gross(ResultOf(m, targets)) < Gross(m) <==> OrdersOf(m, targets) != []
  {
    if targets != [] {
      var n := |targets| - 1;
      var q, t := targets[..n], targets[n];
      assert targets == q + [t];
      LastInstrument(q, t);
      LastResult(m, q, t);
      ReductionLowersGross(m, q);
      OrdersReachTargets(m, q, t.instrument);
      assert Reduces(m, t);
      GrossReplaced(ResultOf(m, q), t.instrument, t.amount);
    }
  }

  lemma GrossReplaced(m: Positions, k: string, v: int)
    ensures Gross(m[k := v]) == Gross(m) - Abs(Get(m, k)) + Abs(v)
  {
    GrossSet(m, k, v);
    GrossAt(m, k);
  }

  /** In loss mode the gross comparison asks for nothing more than one order. */
  lemma {:induction false} KillSwitchMeans(venue: string, targets: seq<Target>, account: Account, policy: Policy)
    requires LossMode(policy, account) && DistinctInstruments(targets)
    ensures (Gross(ResultOf(account.positions, targets)) < Gross(account.positions) && ReductionOnly(account.positions, targets)) <==>
            (OrdersOf(account.positions, targets) != [] && ReductionOnly(account.positions, targets))
  {
    if ReductionOnly(account.positions, targets) { ReductionLowersGross(account.positions, targets); }
  }

  /** From nothing up to the whole position, on its side of zero. */
  predicate Between(before: int, after: int) { 0 <= after <= before || before <= after <= 0 }

  /** The limits that do not depend on the day's loss. */
  ghost predicate MeetsLimits(venue: string, targets: seq<Target>, account: Account, policy: Policy) {
    var gross := Gross(ResultOf(account.positions, targets));
    && venue == account.venue && TargetsPass(policy, account.positions, targets)
    && gross <= policy.maxGross && gross * 10_000 <= account.equity * policy.maxLeverageBps
  }

  /** In loss mode a decision within the other limits is accepted exactly when it places an order and only shrinks positions. */
  lemma {:induction false} LossModeAcceptsIff(venue: string, targets: seq<Target>, account: Account, policy: Policy)
    requires LossMode(policy, account) && MeetsLimits(venue, targets, account, policy)
    ensures Acceptable(venue, targets, account, policy) <==>
            && OrdersOf(account.positions, targets) != []
            && forall i | 0 <= i < |targets| :: Between(Get(account.positions, targets[i].instrument), targets[i].amount)
  {
    var m := account.positions;
    forall i | 0 <= i < |targets| ensures Reduces(m, targets[i]) <==> Between(Get(m, targets[i].instrument), targets[i].amount) {}
    hide Reduces, Between, ResultOf, OrdersOf, Gross;
    KillSwitchMeans(venue, targets, account, policy);
  }

  // ------------------------------------------------------------ the order of targets

  lemma {:induction false} InstrumentCount(q: seq<Target>)
    ensures |InstrumentsOf(q)| <= |q| && (|InstrumentsOf(q)| == |q| <==> DistinctInstruments(q))
  {
    if q != [] {
      var n := |q| - 1;
      InstrumentCount(q[..n]);
      assert q == q[..n] + [q[n]];
      LastInstrument(q[..n], q[n]);
    }
  }

  lemma SameMembers(p: seq<Target>, q: seq<Target>, i: nat)
    requires multiset(p) == multiset(q) && i < |p|
    ensures p[i] in q
  {
    assert p[i] in multiset(p);
  }

  lemma SameInstruments(p: seq<Target>, q: seq<Target>)
    requires multiset(p) == multiset(q)
    ensures |p| == |q| && InstrumentsOf(p) == InstrumentsOf(q) && (DistinctInstruments(p) <==> DistinctInstruments(q))
  {
    assert |p| == |multiset(p)| == |multiset(q)| == |q|;
    forall k ensures k in InstrumentsOf(p) <==> k in InstrumentsOf(q) {
      if i :| 0 <= i < |p| && p[i].instrument == k { SameMembers(p, q, i); }
      if i :| 0 <= i < |q| && q[i].instrument == k { SameMembers(q, p, i); }
    }
    InstrumentCount(p);
    InstrumentCount(q);
  }

  lemma {:induction false} ResultKeys(m: Positions, targets: seq<Target>)
    ensures ResultOf(m, targets).Keys == m.Keys + InstrumentsOf(targets)
  {
    if targets != [] {
      var n := |targets| - 1;
      ResultKeys(m, targets[..n]);
      assert targets == targets[..n] + [targets[n]];
      LastInstrument(targets[..n], targets[n]);
    }
  }

  lemma {:induction false} SameResultAt(m: Positions, p: seq<Target>, q: seq<Target>, k: string)
    requires multiset(p) == multiset(q) && DistinctInstruments(p)
    ensures Get(ResultOf(m, p), k) == Get(ResultOf(m, q), k)
  {
    SameInstruments(p, q);
    hide ResultOf, OrdersOf, ApplyOrders, DistinctInstruments;
    OrdersReachTargets(m, p, k);
    OrdersReachTargets(m, q, k);
    if Targeted(p, k) {
      var i :| 0 <= i < |p| && p[i].instrument == k;
      SameMembers(p, q, i);
      var j :| 0 <= j < |q| && q[j] == p[i];
    }
  }

  lemma {:induction false} SameResult(m: Positions, p: seq<Target>, q: seq<Target>)
    requires multiset(p) == multiset(q) && DistinctInstruments(p)
    ensures ResultOf(m, p) == ResultOf(m, q)
  {
    SameInstruments(p, q);
    ResultKeys(m, p);
    ResultKeys(m, q);
    hide ResultOf, InstrumentsOf, DistinctInstruments;
    forall k | k in ResultOf(m, p) ensures ResultOf(m, p)[k] == ResultOf(m, q)[k] {
      SameResultAt(m, p, q, k);
    }
  }

  lemma AcceptableTransfers(venue: string, p: seq<Target>, q: seq<Target>, account: Account, policy: Policy)
    requires multiset(p) == multiset(q) && Acceptable(venue, p, account, policy)
    ensures Acceptable(venue, q, account, policy)
  {
    SameInstruments(p, q);
    SameResult(account.positions, p, q);
    forall i | 0 <= i < |q|
      ensures WithinLimits(policy, account.positions, q[i])
      ensures LossMode(policy, account) ==> Reduces(account.positions, q[i])
    {
      SameMembers(q, p, i);
      var j :| 0 <= j < |p| && p[j] == q[i];
      assert WithinLimits(policy, account.positions, p[j]);
    }
  }

  /** Acceptance does not depend on the order of the targets, nor does the portfolio that results. */
  lemma {:induction false} TargetOrderDoesNotMatter(venue: string, p: seq<Target>, q: seq<Target>, account: Account, policy: Policy)
    requires multiset(p) == multiset(q)
    ensures Acceptable(venue, p, account, policy) <==> Acceptable(venue, q, account, policy)
    ensures Acceptable(venue, p, account, policy) ==> ResultOf(account.positions, p) == ResultOf(account.positions, q)
  {
    if Acceptable(venue, p, account, policy) {
      AcceptableTransfers(venue, p, q, account, policy);
      SameResult(account.positions, p, q);
    }
    if Acceptable(venue, q, account, policy) { AcceptableTransfers(venue, q, p, account, policy); }
  }
}
