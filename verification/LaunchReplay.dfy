/** Replaying a generated plan: no ledger fault, every balance as planned, no allowance left. */
module LaunchReplay {
  import opened Results
  import opened LaunchLedger
  import opened LaunchPlan

  // ------------------------------------------------------------ what is signed

  lemma {:induction false} SignedJoin(p: seq<Line>, q: seq<Line>)
    ensures SignedOps(p + q) == SignedOps(p) + SignedOps(q)
    decreases |q|
  {
    if q == [] {
      assert p + q == p;
    } else {
      var n := |q| - 1;
      SignedJoin(p, q[..n]);
      assert (p + q)[..|p| + n] == p + q[..n];
    }
  }

  lemma {:induction false} SignedNumbered(ops: seq<Op>, nonce: nat)
    ensures SignedOps(Numbered(ops, nonce)) == ops
  {
    if ops != [] {
      var n := |ops| - 1;
      SignedNumbered(ops[..n], nonce);
      assert Numbered(ops, nonce)[..n] == Numbered(ops[..n], nonce);
    }
  }

  lemma {:induction false} SignedCalls(ops: seq<Op>)
    ensures SignedOps(Calls(ops)) == ops
  {
    if ops != [] {
      var n := |ops| - 1;
      SignedCalls(ops[..n]);
      assert Calls(ops)[..n] == Calls(ops[..n]);
    }
  }

  /** The plan has 43 lines, of which 41 are signed, in the order in which they are replayed; the deploys come first. */
  lemma PlanSigns(i: Inputs, proceeds: Party)
    ensures |PlanOf(i, proceeds)| == 43 && |SignedPlan(i, proceeds)| == 41
    ensures SignedOps(PlanOf(i, proceeds)) == SignedPlan(i, proceeds)
    ensures forall k | 0 <= k < 15 :: PlanOf(i, proceeds)[k] == Signed(SignedPlan(i, proceeds)[k], Some(i.nonce + k))
  {
    var d, s, t, f := Numbered(Deploys(i), i.nonce), Calls(StockCalls(i, true)), Calls(StockCalls(i, false)), Calls(FinalCalls(i, proceeds));
    PlanLengths(i, proceeds);
    SignedNumbered(Deploys(i), i.nonce);
    SignedCalls(StockCalls(i, true));
    SignedCalls(StockCalls(i, false));
    SignedCalls(FinalCalls(i, proceeds));
    hide Deploys, StockCalls, FinalCalls;
    OneReference(true);
    OneReference(false);
    SignedJoin(s, [Reference(true)]);
    SignedJoin(s + [Reference(true)], t);
    SignedJoin(s + [Reference(true)] + t, [Reference(false)]);
    SignedJoin(s + [Reference(true)] + t + [Reference(false)], f);
    SignedJoin(d, s + [Reference(true)] + t + [Reference(false)] + f);
  }

  lemma OneReference(tsla: bool)
    ensures SignedOps([Reference(tsla)]) == []
  {
  }

  lemma PlanLengths(i: Inputs, proceeds: Party)
    ensures |Deploys(i)| == 15 && |StockCalls(i, true)| == 4 && |StockCalls(i, false)| == 4 && |FinalCalls(i, proceeds)| == 18
  {
  }

  // ------------------------------------------------------------ parts of a replay

  ghost predicate NoAllowance(l: Ledger) { forall k | k in l.allowances :: l.allowances[k] == 0 }

  predicate Has(l: Ledger, t: Token) { (t, Admin) in l.balances }

  /** The administrator has an account in every token and has granted nothing. */
  ghost predicate Settled(l: Ledger) { (forall t: Token :: Has(l, t)) && NoAllowance(l) }

  /** Approving and funding the same amount moves it and leaves no allowance. */
  lemma PayReplays(l: Ledger, t: Token, to: Party, amount: nat) returns (l': Ledger)
    requires Settled(l) && amount <= Bal(l, t, Admin)
    ensures Replay(l, Pay(t, to, amount)) == Ok(l') && Settled(l') && Shifted(l, l', t, to, amount) && l'.native == l.native
  {
    assert Has(l, t);
    var approved := Step(l, Approve(t, to, amount)).value;
    var moved := Moved(approved, t, to, amount).value;
    MovedShifts(approved, t, to, amount);
    l' := Consumed(moved, t, to, amount).value;
    SameShift(l, approved, moved, l', t, to, amount);
    TwoSteps(l, Approve(t, to, amount), Fund(t, to, amount));
    forall u: Token ensures Has(l', u) { assert Has(l, u); }
  }

  lemma SameShift(l: Ledger, a: Ledger, b: Ledger, l': Ledger, t: Token, to: Party, amount: nat)
    requires l.balances == a.balances && b.balances == l'.balances && Shifted(a, b, t, to, amount)
    ensures Shifted(l, l', t, to, amount)
  {
    forall v: Token, p: Party ensures ShiftedAt(l, l', t, to, amount, v, p) {
      assert ShiftedAt(a, b, t, to, amount, v, p);
    }
  }

  lemma {:induction false} OneStep(l: Ledger, op: Op)
    ensures Replay(l, [op]) == Step(l, op)
  {
    assert [op][..0] == [];
  }

  lemma {:induction false} TwoSteps(l: Ledger, p: Op, q: Op)
    requires Step(l, p).Ok?
    ensures Replay(l, [p, q]) == Step(Step(l, p).value, q)
  {
    OneStep(l, p);
    assert [p, q][..1] == [p];
  }

  lemma GiveReplays(l: Ledger, t: Token, to: Party, amount: nat) returns (l': Ledger)
    requires Settled(l) && amount <= Bal(l, t, Admin)
    ensures Replay(l, [Transfer(t, to, amount)]) == Ok(l') && Settled(l') && Shifted(l, l', t, to, amount) && l'.native == l.native
  {
    assert Has(l, t);
    l' := Moved(l, t, to, amount).value;
    MovedShifts(l, t, to, amount);
    OneStep(l, Transfer(t, to, amount));
    forall u: Token ensures Has(l', u) { assert Has(l, u); }
  }

  predicate Quiet(op: Op) { op.Configure? || (op.Deploy? && op.mints.None?) }

  lemma {:induction false} QuietReplays(l: Ledger, ops: seq<Op>)
    requires forall k | 0 <= k < |ops| :: Quiet(ops[k])
    ensures Replay(l, ops) == Ok(l)
  {
    if ops != [] {
      QuietReplays(l, ops[..|ops| - 1]);
      assert Quiet(ops[|ops| - 1]);
    }
  }

  /** Both approvals are used up by the pool that they were given for. */
  lemma PoolReplays(l: Ledger) returns (m: Ledger, l': Ledger)
    requires Settled(l) && HALF <= Bal(l, AmznPass, Admin) && LP_CASH <= Bal(l, Usdc, Admin)
    ensures Replay(l, OpenPool()) == Ok(l') && Settled(l') && l'.native == l.native
    ensures Shifted(l, m, AmznPass, AmznPool, HALF) && Shifted(m, l', Usdc, AmznPool, LP_CASH)
  {
    assert Has(l, AmznPass) && Has(l, Usdc);
    var a := Step(l, Approve(AmznPass, PoolFactory, HALF)).value;
    var b := Step(a, Approve(Usdc, PoolFactory, LP_CASH)).value;
    m := Moved(b, AmznPass, AmznPool, HALF).value;
    MovedShifts(b, AmznPass, AmznPool, HALF);
    SameShift(l, b, m, m, AmznPass, AmznPool, HALF);
    assert ShiftedAt(l, m, AmznPass, AmznPool, HALF, Usdc, Admin);
    var moved := Moved(m, Usdc, AmznPool, LP_CASH).value;
    MovedShifts(m, Usdc, AmznPool, LP_CASH);
    l' := Step(b, CreatePool(HALF, LP_CASH)).value;
    SameShift(m, m, moved, l', Usdc, AmznPool, LP_CASH);
    TwoSteps(l, Approve(AmznPass, PoolFactory, HALF), Approve(Usdc, PoolFactory, LP_CASH));
    assert OpenPool()[..2] == [Approve(AmznPass, PoolFactory, HALF), Approve(Usdc, PoolFactory, LP_CASH)];
    forall u: Token ensures Has(l', u) { assert Has(l, u); }
  }

  // ------------------------------------------------------------ the deploys

  function Start(i: Inputs, v: Token, p: Party): nat {
    if p != Admin then 0 else if v == Usdc then i.usdcSupply else MILLION
  }

  lemma {:induction false} Mint(l: Ledger, t: Token, supply: nat)
    ensures Replay(l, [Deploy(Coin(t), [], Some((t, supply)))]) == Ok(l.(balances := l.balances[(t, Admin) := supply]))
  {
    OneStep(l, Deploy(Coin(t), [], Some((t, supply))));
  }

  lemma CoreReplays(i: Inputs)
    ensures Replay(Empty, CoreDeploys(i)) ==
            Ok(Ledger(map[(Usdc, Admin) := i.usdcSupply, (TslaPass, Admin) := MILLION, (AmznPass, Admin) := MILLION], map[], 0))
  {
    var all := CoreDeploys(i);
    Mint(Empty, Usdc, i.usdcSupply);
    var a := Ledger(map[(Usdc, Admin) := i.usdcSupply], map[], 0);
    Mint(a, TslaPass, MILLION);
    ReplayJoin(Empty, [all[0]], [all[1]]);
    var b := Ledger(map[(Usdc, Admin) := i.usdcSupply, (TslaPass, Admin) := MILLION], map[], 0);
    Mint(b, AmznPass, MILLION);
    ReplayJoin(Empty, [all[0]] + [all[1]], [all[2]]);
    var c := Ledger(map[(Usdc, Admin) := i.usdcSupply, (TslaPass, Admin) := MILLION, (AmznPass, Admin) := MILLION], map[], 0);
    assert [all[0]] + [all[1]] + [all[2]] == all[..3] && all == all[..3] + all[3..];
    QuietReplays(c, all[3..]);
    ReplayJoin(Empty, all[..3], all[3..]);
  }

  lemma {:induction false} StockDeploysReplay(l: Ledger, tsla: bool)
    ensures Replay(l, StockDeploys(tsla)) == Ok(l.(balances := l.balances[(StockOf(tsla), Admin) := MILLION]))
  {
    var all := StockDeploys(tsla);
    Mint(l, StockOf(tsla), MILLION);
    var l' := l.(balances := l.balances[(StockOf(tsla), Admin) := MILLION]);
    QuietReplays(l', all[1..]);
    assert all == [all[0]] + all[1..];
    ReplayJoin(l, [all[0]], all[1..]);
  }

  lemma DeploysReplay(i: Inputs) returns (l: Ledger)
    ensures Replay(Empty, Deploys(i)) == Ok(l) && Settled(l) && l.native == 0
    ensures forall v: Token, p: Party :: Bal(l, v, p) == Start(i, v, p)
  {
    CoreReplays(i);
    var core := Replay(Empty, CoreDeploys(i)).value;
    StockDeploysReplay(core, true);
    ReplayJoin(Empty, CoreDeploys(i), StockDeploys(true));
    var one := core.(balances := core.balances[(TslaStock, Admin) := MILLION]);
    StockDeploysReplay(one, false);
    ReplayJoin(Empty, CoreDeploys(i) + StockDeploys(true), StockDeploys(false));
    l := one.(balances := one.balances[(AmznStock, Admin) := MILLION]);
    QuietReplays(l, [VaultDeploy()]);
    ReplayJoin(Empty, CoreDeploys(i) + StockDeploys(true) + StockDeploys(false), [VaultDeploy()]);
    forall t: Token ensures Has(l, t) { assert t.Usdc? || t.TslaPass? || t.AmznPass? || t.TslaStock? || t.AmznStock?; }
    forall v: Token, p: Party ensures Bal(l, v, p) == Start(i, v, p) { match v case _ => }
  }

  // ------------------------------------------------------------ the calls

  function StockDelta(i: Inputs, tsla: bool, v: Token, p: Party): int {
    Shift(StockOf(tsla), ReserveOf(tsla), i.stockUnits, v, p) + Shift(Usdc, ReserveOf(tsla), i.stockUsdc, v, p)
  }

  lemma StockReplays(l: Ledger, i: Inputs, tsla: bool) returns (l': Ledger)
    requires Settled(l) && i.stockUnits <= Bal(l, StockOf(tsla), Admin) && i.stockUsdc <= Bal(l, Usdc, Admin)
    ensures Replay(l, StockCalls(i, tsla)) == Ok(l') && Settled(l') && l'.native == l.native
    ensures forall v: Token, p: Party :: Bal(l', v, p) == Bal(l, v, p) + StockDelta(i, tsla, v, p)
  {
    var m := PayReplays(l, StockOf(tsla), ReserveOf(tsla), i.stockUnits);
    assert ShiftedAt(l, m, StockOf(tsla), ReserveOf(tsla), i.stockUnits, Usdc, Admin);
    l' := PayReplays(m, Usdc, ReserveOf(tsla), i.stockUsdc);
    ReplayJoin(l, Pay(StockOf(tsla), ReserveOf(tsla), i.stockUnits), Pay(Usdc, ReserveOf(tsla), i.stockUsdc));
    hide Bal, Shift;
    forall v: Token, p: Party ensures Bal(l', v, p) == Bal(l, v, p) + StockDelta(i, tsla, v, p) {
      assert ShiftedAt(l, m, StockOf(tsla), ReserveOf(tsla), i.stockUnits, v, p);
      assert ShiftedAt(m, l', Usdc, ReserveOf(tsla), i.stockUsdc, v, p);
    }
  }

  function ReserveDelta(i: Inputs, v: Token, p: Party): int {
    Shift(Usdc, ConversionReserve, i.conversionUsdc, v, p) + Shift(Usdc, ClaimReserve, CLAIM_CASH, v, p)
  }

  function ReserveCalls(i: Inputs): seq<Op> {
    Wiring() + [FundNative(i.conversionEth)] + Pay(Usdc, ConversionReserve, i.conversionUsdc) +
    Pay(Usdc, ClaimReserve, CLAIM_CASH) + [Configure(Claims, OpenClaims)]
  }

  lemma WiredReplay(l: Ledger, i: Inputs) returns (a: Ledger)
    requires Settled(l)
    ensures Replay(l, Wiring() + [FundNative(i.conversionEth)]) == Ok(a) && Settled(a) && a.native == l.native + i.conversionEth
    ensures forall v: Token, p: Party :: Bal(a, v, p) == Bal(l, v, p)
  {
    QuietReplays(l, Wiring());
    OneStep(l, FundNative(i.conversionEth));
    ReplayJoin(l, Wiring(), [FundNative(i.conversionEth)]);
    a := l.(native := l.native + i.conversionEth);
    forall t: Token ensures Has(a, t) { assert Has(l, t); }
  }

  lemma ReserveShifts(a: Ledger, b: Ledger, d: Ledger, i: Inputs, v: Token, p: Party)
    requires Shifted(a, b, Usdc, ConversionReserve, i.conversionUsdc) && Shifted(b, d, Usdc, ClaimReserve, CLAIM_CASH)
    ensures Bal(d, v, p) == Bal(a, v, p) + ReserveDelta(i, v, p)
  {
    hide Bal, Shift;
    assert ShiftedAt(a, b, Usdc, ConversionReserve, i.conversionUsdc, v, p);
    assert ShiftedAt(b, d, Usdc, ClaimReserve, CLAIM_CASH, v, p);
  }

  lemma ReservesReplay(l: Ledger, i: Inputs) returns (l': Ledger)
    requires Settled(l) && i.conversionUsdc + CLAIM_CASH <= Bal(l, Usdc, Admin)
    ensures Replay(l, ReserveCalls(i)) == Ok(l') && Settled(l') && l'.native == l.native + i.conversionEth
    ensures forall v: Token, p: Party :: Bal(l', v, p) == Bal(l, v, p) + ReserveDelta(i, v, p)
  {
    hide Replay, Settled, Wiring, Pay, Bal;
    var wired := Wiring() + [FundNative(i.conversionEth)];
    var a := WiredReplay(l, i);
    var b := PayReplays(a, Usdc, ConversionReserve, i.conversionUsdc);
    assert ShiftedAt(a, b, Usdc, ConversionReserve, i.conversionUsdc, Usdc, Admin);
    ReplayJoin(l, wired, Pay(Usdc, ConversionReserve, i.conversionUsdc));
    l' := PayReplays(b, Usdc, ClaimReserve, CLAIM_CASH);
    ReplayJoin(l, wired + Pay(Usdc, ConversionReserve, i.conversionUsdc), Pay(Usdc, ClaimReserve, CLAIM_CASH));
    QuietReplays(l', [Configure(Claims, OpenClaims)]);
    ReplayJoin(l, wired + Pay(Usdc, ConversionReserve, i.conversionUsdc) + Pay(Usdc, ClaimReserve, CLAIM_CASH),
               [Configure(Claims, OpenClaims)]);
    hide Shifted, ReserveDelta;
    forall v: Token, p: Party ensures Bal(l', v, p) == Bal(l, v, p) + ReserveDelta(i, v, p) { ReserveShifts(a, b, l', i, v, p); }
  }

  function MarketCalls(proceeds: Party): seq<Op> {
    [Transfer(TslaPass, TslaLaunch, MILLION)] + [Transfer(Usdc, TslaLaunch, LP_CASH)] + OpenPool() +
    [Transfer(AmznPass, proceeds, HALF)] + [Configure(Launch, OpenMint)]
  }

  function MarketDelta(proceeds: Party, v: Token, p: Party): int {
    Shift(TslaPass, TslaLaunch, MILLION, v, p) + Shift(Usdc, TslaLaunch, LP_CASH, v, p) +
    Shift(AmznPass, AmznPool, HALF, v, p) + Shift(Usdc, AmznPool, LP_CASH, v, p) + Shift(AmznPass, proceeds, HALF, v, p)
  }

  lemma MarketReplays(l: Ledger, proceeds: Party) returns (l': Ledger)
    requires Settled(l) && MILLION <= Bal(l, TslaPass, Admin) && 2 * LP_CASH <= Bal(l, Usdc, Admin)
    requires 2 * HALF <= Bal(l, AmznPass, Admin)
    ensures Replay(l, MarketCalls(proceeds)) == Ok(l') && Settled(l') && l'.native == l.native
    ensures forall v: Token, p: Party :: Bal(l', v, p) == Bal(l, v, p) + MarketDelta(proceeds, v, p)
  {
    var give, cash := [Transfer(TslaPass, TslaLaunch, MILLION)], [Transfer(Usdc, TslaLaunch, LP_CASH)];
    var a := GiveReplays(l, TslaPass, TslaLaunch, MILLION);
    assert ShiftedAt(l, a, TslaPass, TslaLaunch, MILLION, Usdc, Admin) && ShiftedAt(l, a, TslaPass, TslaLaunch, MILLION, AmznPass, Admin);
    var b := GiveReplays(a, Usdc, TslaLaunch, LP_CASH);
    assert ShiftedAt(a, b, Usdc, TslaLaunch, LP_CASH, Usdc, Admin) && ShiftedAt(a, b, Usdc, TslaLaunch, LP_CASH, AmznPass, Admin);
    ReplayJoin(l, give, cash);
    var m, c := PoolReplays(b);
    assert ShiftedAt(b, m, AmznPass, AmznPool, HALF, AmznPass, Admin) && ShiftedAt(m, c, Usdc, AmznPool, LP_CASH, AmznPass, Admin);
    ReplayJoin(l, give + cash, OpenPool());
    l' := GiveReplays(c, AmznPass, proceeds, HALF);
    ReplayJoin(l, give + cash + OpenPool(), [Transfer(AmznPass, proceeds, HALF)]);
    QuietReplays(l', [Configure(Launch, OpenMint)]);
    ReplayJoin(l, give + cash + OpenPool() + [Transfer(AmznPass, proceeds, HALF)], [Configure(Launch, OpenMint)]);
    hide Bal, Shift, Replay, Settled;
    forall v: Token, p: Party ensures Bal(l', v, p) == Bal(l, v, p) + MarketDelta(proceeds, v, p) {
      assert ShiftedAt(l, a, TslaPass, TslaLaunch, MILLION, v, p) && ShiftedAt(a, b, Usdc, TslaLaunch, LP_CASH, v, p);
      assert ShiftedAt(b, m, AmznPass, AmznPool, HALF, v, p) && ShiftedAt(m, c, Usdc, AmznPool, LP_CASH, v, p);
      assert ShiftedAt(c, l', AmznPass, proceeds, HALF, v, p);
    }
  }

  // ------------------------------------------------------------ the whole plan

  /** Every balance that a finished plan leaves. */
  function Planned(i: Inputs, proceeds: Party, v: Token, p: Party): int {
    match v
    case Usdc =>
      (match p
       case Admin => i.usdcSupply - RequiredUsdc(i)
       case ConversionReserve => i.conversionUsdc
       case ClaimReserve => CLAIM_CASH
       case TslaLaunch => LP_CASH
       case AmznPool => LP_CASH
       case TslaReserve => i.stockUsdc
       case AmznReserve => i.stockUsdc
       case _ => 0)
    case TslaPass => if p == TslaLaunch then MILLION else 0
    case AmznPass => (if p == AmznPool then HALF else 0) + if p == proceeds then HALF else 0
    case TslaStock => if p == TslaReserve then i.stockUnits else if p == Admin then MILLION - i.stockUnits else 0
    case AmznStock => if p == AmznReserve then i.stockUnits else if p == Admin then MILLION - i.stockUnits else 0
  }

  lemma SumIsPlanned(i: Inputs, proceeds: Party, v: Token, p: Party)
    ensures Start(i, v, p) + StockDelta(i, true, v, p) + StockDelta(i, false, v, p) + ReserveDelta(i, v, p) +
            MarketDelta(proceeds, v, p) == Planned(i, proceeds, v, p)
  {
    match v case _ =>
  }

  /** The deploys and the calls on the two stock reserves. */
  lemma StocksReplay(i: Inputs) returns (l: Ledger)
    requires Refusal(i).None?
    ensures Replay(Empty, Deploys(i) + StockCalls(i, true) + StockCalls(i, false)) == Ok(l) && Settled(l) && l.native == 0
    ensures forall v: Token, p: Party :: Bal(l, v, p) == Start(i, v, p) + StockDelta(i, true, v, p) + StockDelta(i, false, v, p)
  {
    Affordable(i);
    hide Replay, Deploys, StockCalls, Settled, Bal, Start, StockDelta, ReserveDelta, Refusal, RequiredUsdc;
    var d := DeploysReplay(i);
    var s := StockReplays(d, i, true);
    ReplayJoin(Empty, Deploys(i), StockCalls(i, true));
    l := StockReplays(s, i, false);
    ReplayJoin(Empty, Deploys(i) + StockCalls(i, true), StockCalls(i, false));
  }

  /** The calls after them. */
  lemma FinalReplay(l: Ledger, i: Inputs, proceeds: Party) returns (l': Ledger)
    requires Refusal(i).None? && Settled(l)
    requires forall v: Token, p: Party :: Bal(l, v, p) == Start(i, v, p) + StockDelta(i, true, v, p) + StockDelta(i, false, v, p)
    ensures Replay(l, FinalCalls(i, proceeds)) == Ok(l') && NoAllowance(l') && l'.native == l.native + i.conversionEth
    ensures forall v: Token, p: Party :: Bal(l', v, p) == Bal(l, v, p) + ReserveDelta(i, v, p) + MarketDelta(proceeds, v, p)
  {
    Affordable(i);
    hide Replay, ReserveCalls, MarketCalls, FinalCalls, Bal, Start, StockDelta, ReserveDelta, MarketDelta, Refusal, RequiredUsdc;
    var u := ReservesReplay(l, i);
    l' := MarketReplays(u, proceeds);
    FinalParts(i, proceeds);
    ReplayJoin(l, ReserveCalls(i), MarketCalls(proceeds));
  }

  /**
  For every input that the guards admit, and whoever receives the proceeds, the replay
  meets no ledger fault, leaves exactly the planned balances and native reserve, and no allowance.
  */
  lemma ReplaySucceeds(i: Inputs, proceeds: Party) returns (l: Ledger)
    requires Refusal(i).None?
    ensures Replay(Empty, SignedPlan(i, proceeds)) == Ok(l)
    ensures NoAllowance(l) && l.native == i.conversionEth
    ensures forall v: Token, p: Party :: Bal(l, v, p) == Planned(i, proceeds, v, p)
    ensures Bal(l, Usdc, Admin) == i.usdcSupply - RequiredUsdc(i)
  {
    AdminPlanned(i, proceeds);
    hide Replay, Deploys, StockCalls, FinalCalls, Planned, Bal, Start, StockDelta, ReserveDelta, MarketDelta, NoAllowance;
    var s := StocksReplay(i);
    l := FinalReplay(s, i, proceeds);
    ReplayJoin(Empty, Deploys(i) + StockCalls(i, true) + StockCalls(i, false), FinalCalls(i, proceeds));
    forall v: Token, p: Party ensures Bal(l, v, p) == Planned(i, proceeds, v, p) { SumIsPlanned(i, proceeds, v, p); }
  }

  /** The administrator can pay for each part when its turn comes. */
  lemma Affordable(i: Inputs)
    requires Refusal(i).None?
    ensures i.stockUnits <= Start(i, TslaStock, Admin) && i.stockUsdc <= Start(i, Usdc, Admin)
    ensures i.stockUnits <= Start(i, AmznStock, Admin) + StockDelta(i, true, AmznStock, Admin)
    ensures i.stockUsdc <= Start(i, Usdc, Admin) + StockDelta(i, true, Usdc, Admin)
    ensures i.conversionUsdc + CLAIM_CASH <=
            Start(i, Usdc, Admin) + StockDelta(i, true, Usdc, Admin) + StockDelta(i, false, Usdc, Admin)
    ensures 2 * LP_CASH <= Start(i, Usdc, Admin) + StockDelta(i, true, Usdc, Admin) + StockDelta(i, false, Usdc, Admin) +
                           ReserveDelta(i, Usdc, Admin)
    ensures MILLION <= Start(i, TslaPass, Admin) + StockDelta(i, true, TslaPass, Admin) + StockDelta(i, false, TslaPass, Admin) +
                       ReserveDelta(i, TslaPass, Admin)
    ensures 2 * HALF <= Start(i, AmznPass, Admin) + StockDelta(i, true, AmznPass, Admin) + StockDelta(i, false, AmznPass, Admin) +
                        ReserveDelta(i, AmznPass, Admin)
  {
  }

  lemma AdminPlanned(i: Inputs, proceeds: Party)
    ensures Planned(i, proceeds, Usdc, Admin) == i.usdcSupply - RequiredUsdc(i)
  {
  }

  lemma FinalParts(i: Inputs, proceeds: Party)
    ensures FinalCalls(i, proceeds) == ReserveCalls(i) + MarketCalls(proceeds)
  {
  }

  // ------------------------------------------------------------ conservation at every step

  lemma {:induction false} MintJoin(p: seq<Op>, q: seq<Op>, t: Token)
    ensures MintCount(p + q, t) == MintCount(p, t) + MintCount(q, t)
    decreases |q|
  {
    if q == [] {
      assert p + q == p;
    } else {
      var n := |q| - 1;
      MintJoin(p, q[..n], t);
      assert (p + q)[..|p| + n] == p + q[..n];
    }
  }

  predicate Mints(op: Op) { op.Deploy? && op.mints.Some? }

  lemma {:induction false} NoMint(ops: seq<Op>, t: Token)
    requires forall k | 0 <= k < |ops| :: !Mints(ops[k])
    ensures MintCount(ops, t) == 0
  {
    if ops != [] {
      NoMint(ops[..|ops| - 1], t);
      assert !Mints(ops[|ops| - 1]);
    }
  }

  lemma {:induction false} OneMint(op: Op, t: Token)
    ensures MintCount([op], t) == if Mints(op) && op.mints.value.0 == t then 1 else 0
  {
    assert [op][..0] == [];
  }

  lemma {:induction false} StockMints(tsla: bool, t: Token)
    ensures MintCount(StockDeploys(tsla), t) == if t == StockOf(tsla) then 1 else 0
  {
    var all := StockDeploys(tsla);
    assert all == [all[0]] + all[1..];
    MintJoin([all[0]], all[1..], t);
    OneMint(all[0], t);
    NoMint(all[1..], t);
  }

  lemma {:induction false} CoreMints(i: Inputs, t: Token)
    ensures MintCount(CoreDeploys(i), t) == if t == Usdc || t == TslaPass || t == AmznPass then 1 else 0
  {
    var all := CoreDeploys(i);
    assert all == [all[0]] + [all[1]] + [all[2]] + all[3..];
    OneMint(all[0], t);
    OneMint(all[1], t);
    OneMint(all[2], t);
    NoMint(all[3..], t);
    MintJoin([all[0]], [all[1]], t);
    MintJoin([all[0]] + [all[1]], [all[2]], t);
    MintJoin([all[0]] + [all[1]] + [all[2]], all[3..], t);
  }

  /** The plan mints every token exactly once. */
  lemma {:induction false} PlanMintsOnce(i: Inputs, proceeds: Party, t: Token)
    ensures MintCount(SignedPlan(i, proceeds), t) == 1
  {
    var calls := StockCalls(i, true) + StockCalls(i, false) + FinalCalls(i, proceeds);
    NoMint([VaultDeploy()] + calls, t);
    CoreMints(i, t);
    StockMints(true, t);
    StockMints(false, t);
    hide CoreDeploys, StockDeploys, StockCalls, FinalCalls;
    assert SignedPlan(i, proceeds) == CoreDeploys(i) + StockDeploys(true) + StockDeploys(false) + ([VaultDeploy()] + calls);
    MintJoin(CoreDeploys(i), StockDeploys(true), t);
    MintJoin(CoreDeploys(i) + StockDeploys(true), StockDeploys(false), t);
    MintJoin(CoreDeploys(i) + StockDeploys(true) + StockDeploys(false), [VaultDeploy()] + calls, t);
    assert t.Usdc? || t.TslaPass? || t.AmznPass? || t.TslaStock? || t.AmznStock?;
  }

  /** After every one of the 41 actions, the holders of each token own together exactly what was minted. */
  lemma {:induction false} EveryStepConserves(i: Inputs, proceeds: Party, k: nat, t: Token)
    requires Refusal(i).None? && k <= |SignedPlan(i, proceeds)|
    ensures var done := SignedPlan(i, proceeds)[..k];
            Replay(Empty, done).Ok? && Total(Replay(Empty, done).value, t) == Minted(done, t)
  {
    var plan := SignedPlan(i, proceeds);
    var l := ReplaySucceeds(i, proceeds);
    if Replay(Empty, plan[..k]).Err? { FaultStays(Empty, plan, k); }
    PlanMintsOnce(i, proceeds, t);
    assert plan == plan[..k] + plan[k..];
    MintJoin(plan[..k], plan[k..], t);
    SupplyIsConserved(plan[..k], t);
  }
}
