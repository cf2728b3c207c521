/** The order of a plan: what stands before what, and what is funded when it is opened. */
module LaunchOrder {
  import opened Results
  import opened LaunchLedger
  import opened LaunchPlan
  import opened LaunchReplay

  // ------------------------------------------------------------ the actions by their place

  lemma PlanParts(i: Inputs, proceeds: Party, k: nat)
    requires k < 41
    ensures |SignedPlan(i, proceeds)| == 41
    ensures k < 15 ==> SignedPlan(i, proceeds)[k] == Deploys(i)[k]
    ensures 15 <= k < 19 ==> SignedPlan(i, proceeds)[k] == StockCalls(i, true)[k - 15]
    ensures 19 <= k < 23 ==> SignedPlan(i, proceeds)[k] == StockCalls(i, false)[k - 19]
    ensures 23 <= k ==> SignedPlan(i, proceeds)[k] == FinalCalls(i, proceeds)[k - 23]
  {
    PlanLengths(i, proceeds);
    hide Deploys, StockCalls, FinalCalls;
  }

  lemma FinalList(i: Inputs, proceeds: Party)
    ensures FinalCalls(i, proceeds) == [
              Configure(Pools, ConfigureInitializer(Coin(TslaPass), Some(Launch))),
              Configure(Pools, ConfigureInitializer(Coin(AmznPass), None)),
              Configure(Conversion, AuthorizeRouter(Launch)), Configure(Conversion, AuthorizeRouter(Router)),
              Configure(Conversion, ConfigureTradingRouter(Router)), FundNative(i.conversionEth),
              Approve(Usdc, ConversionReserve, i.conversionUsdc), Fund(Usdc, ConversionReserve, i.conversionUsdc),
              Approve(Usdc, ClaimReserve, CLAIM_CASH), Fund(Usdc, ClaimReserve, CLAIM_CASH), Configure(Claims, OpenClaims),
              Transfer(TslaPass, TslaLaunch, MILLION), Transfer(Usdc, TslaLaunch, LP_CASH), Approve(AmznPass, PoolFactory, HALF),
              Approve(Usdc, PoolFactory, LP_CASH), CreatePool(HALF, LP_CASH), Transfer(AmznPass, proceeds, HALF),
              Configure(Launch, OpenMint)]
  {
  }

  lemma StockList(i: Inputs, tsla: bool)
    ensures StockCalls(i, tsla) == [
              Approve(StockOf(tsla), ReserveOf(tsla), i.stockUnits), Fund(StockOf(tsla), ReserveOf(tsla), i.stockUnits),
              Approve(Usdc, ReserveOf(tsla), i.stockUsdc), Fund(Usdc, ReserveOf(tsla), i.stockUsdc)]
  {
  }

  // ------------------------------------------------------------ every contract exists before it is named

  function ContractOf(p: Party): seq<Contract> {
    match p
    case TslaLaunch => [Launch]
    case PoolFactory => [Pools]
    case ConversionReserve => [Conversion]
    case ClaimReserve => [Claims]
    case TslaReserve => [Reserve(true)]
    case AmznReserve => [Reserve(false)]
    case _ => []
  }

  /** The contracts of the plan that an action names. */
  function Named(op: Op): seq<Contract> {
    match op
    case Deploy(_, uses, _) => uses
    case Approve(t, spender, _) => [Coin(t)] + ContractOf(spender)
    case Fund(t, to, _) => [Coin(t)] + ContractOf(to)
    case FundNative(_) => [Conversion]
    case Transfer(t, to, _) => [Coin(t)] + ContractOf(to)
    case CreatePool(_, _) => [Pools, Coin(AmznPass), Coin(Usdc)]
    case Configure(on, call) => [on] + Mentioned(call)
  }

  function Mentioned(call: Call): seq<Contract> {
    match call
    case ConfigureInitializer(pass, initializer) => [pass] + if initializer.Some? then [initializer.value] else []
    case AuthorizeRouter(router) => [router]
    case ConfigureTradingRouter(router) => [router]
    case _ => []
  }

  function DeployIndex(c: Contract): nat {
    match c
    case Coin(Usdc) => 0
    case Coin(TslaPass) => 1
    case Coin(AmznPass) => 2
    case Pools => 3
    case Conversion => 4
    case Router => 5
    case Launch => 6
    case Claims => 7
    case Coin(TslaStock) => 8
    case Feed(tsla) => if tsla then 9 else 12
    case Reserve(tsla) => if tsla then 10 else 13
    case Coin(AmznStock) => 11
    case Vaults => 14
  }

  lemma DeployList(i: Inputs)
    ensures Deploys(i) == [
              Deploy(Coin(Usdc), [], Some((Usdc, i.usdcSupply))), Deploy(Coin(TslaPass), [], Some((TslaPass, MILLION))),
              Deploy(Coin(AmznPass), [], Some((AmznPass, MILLION))), Deploy(Pools, [Coin(Usdc)], None),
              Deploy(Conversion, [Coin(Usdc)], None), Deploy(Router, [Pools, Conversion], None),
              Deploy(Launch, [Coin(TslaPass), Coin(Usdc), Pools, Conversion], None), Deploy(Claims, [Coin(Usdc)], None),
              Deploy(Coin(TslaStock), [], Some((TslaStock, MILLION))), Deploy(Feed(true), [], None),
              Deploy(Reserve(true), [Coin(Usdc), Coin(TslaStock), Feed(true)], None),
              Deploy(Coin(AmznStock), [], Some((AmznStock, MILLION))), Deploy(Feed(false), [], None),
              Deploy(Reserve(false), [Coin(Usdc), Coin(AmznStock), Feed(false)], None), VaultDeploy()]
  {
    hide VaultDeploy;
  }

  /** Each contract is deployed once, at its own place. */
  lemma DeployedOnce(i: Inputs, c: Contract, d: nat)
    requires d < 15
    ensures |Deploys(i)| == 15 && Deploys(i)[d].Deploy? && (Deploys(i)[d].contract == c <==> d == DeployIndex(c))
  {
    DeployList(i);
    hide Deploys;
  }

  lemma UsesAreEarlier(i: Inputs, k: nat, c: Contract)
    requires k < 15 && |Deploys(i)| == 15 && Deploys(i)[k].Deploy? && c in Deploys(i)[k].uses
    ensures DeployIndex(c) < k
  {
    DeployList(i);
    hide Deploys;
    var uses := VaultUses(true) + VaultUses(false);
    assert forall j | 0 <= j < |uses| :: DeployIndex(uses[j]) < 14;
  }

  lemma IndexInRange(c: Contract)
    ensures DeployIndex(c) < 15
  {
  }

  /** Every contract that an action names is deployed before it, once, under a nonce of its own that the plan fixes. */
  lemma NamedIsDeployed(i: Inputs, proceeds: Party, k: nat, c: Contract)
    requires k < |SignedPlan(i, proceeds)| && c in Named(SignedPlan(i, proceeds)[k])
    ensures var d, plan := DeployIndex(c), PlanOf(i, proceeds);
            && d < k && |plan| == 43 && |SignedPlan(i, proceeds)| == 41
            && SignedPlan(i, proceeds)[d].Deploy? && SignedPlan(i, proceeds)[d].contract == c
            && plan[d] == Signed(SignedPlan(i, proceeds)[d], Some(i.nonce + d))
    ensures forall e | 0 <= e < 41 && e != DeployIndex(c) ::
              !(SignedPlan(i, proceeds)[e].Deploy? && SignedPlan(i, proceeds)[e].contract == c)
  {
    var d := DeployIndex(c);
    IndexInRange(c);
    PlanSigns(i, proceeds);
    PlanParts(i, proceeds, d);
    PlanParts(i, proceeds, k);
    DeployedOnce(i, c, d);
    if k < 15 {
      DeployedOnce(i, c, k);
      UsesAreEarlier(i, k, c);
    }
    hide Deploys, StockCalls, FinalCalls, PlanOf, SignedPlan, DeployIndex;
    forall e | 0 <= e < 41 && e != d ensures !(SignedPlan(i, proceeds)[e].Deploy? && SignedPlan(i, proceeds)[e].contract == c) {
      PlanParts(i, proceeds, e);
      if e < 15 { DeployedOnce(i, c, e); } else { OnlyCallsLater(i, proceeds, e); }
    }
  }

  lemma OnlyCallsLater(i: Inputs, proceeds: Party, k: nat)
    requires 15 <= k < 41
    ensures |SignedPlan(i, proceeds)| == 41 && !SignedPlan(i, proceeds)[k].Deploy?
  {
    PlanParts(i, proceeds, k);
    StockList(i, true);
    StockList(i, false);
    FinalList(i, proceeds);
    hide Deploys, StockCalls, FinalCalls, SignedPlan;
  }

  // ------------------------------------------------------------ what is opened, and when

  predicate Opens(op: Op, call: Call) { op.Configure? && op.call == call }

  predicate FundsConversion(op: Op) { op.FundNative? || (op.Fund? && op.to == ConversionReserve) }

  /** Nothing but the two places opens the claims or the mint, and no call before the 29th funds the conversion reserve. */
  lemma CallAt(i: Inputs, proceeds: Party, k: nat)
    requires k < 41
    ensures var plan := SignedPlan(i, proceeds);
            && |plan| == 41
            && (Opens(plan[k], OpenClaims) <==> k == 33) && (Opens(plan[k], OpenMint) <==> k == 40)
            && (FundsConversion(plan[k]) <==> k == 28 || k == 30)
            && (k == 33 ==> plan[k].on == Claims) && (k == 40 ==> plan[k].on == Launch)
  {
    PlanParts(i, proceeds, k);
    StockList(i, true);
    StockList(i, false);
    FinalList(i, proceeds);
    if k < 15 { DeployedOnce(i, Vaults, k); }
    hide Deploys, StockCalls, FinalCalls, SignedPlan;
  }

  lemma Places(i: Inputs, proceeds: Party)
    ensures var plan := SignedPlan(i, proceeds);
            && |plan| == 41 && plan[33] == Configure(Claims, OpenClaims) && plan[40] == Configure(Launch, OpenMint)
            && (forall k | 0 <= k < 41 && Opens(plan[k], OpenClaims) :: k == 33)
            && (forall k | 0 <= k < 41 && Opens(plan[k], OpenMint) :: k == 40)
            && FundsConversion(plan[28]) && (forall k | 0 <= k < 28 :: !FundsConversion(plan[k]))
  {
    hide SignedPlan;
    CallAt(i, proceeds, 28);
    CallAt(i, proceeds, 33);
    CallAt(i, proceeds, 40);
    forall k | 0 <= k < 41 { CallAt(i, proceeds, k); }
  }

  /** An action that moves nothing leaves the ledger of the actions before it. */
  lemma QuietLast(ops: seq<Op>, m: nat)
    requires m < |ops| && ops[m].Configure? && Replay(Empty, ops[..m + 1]).Ok?
    ensures Replay(Empty, ops[..m]) == Replay(Empty, ops[..m + 1])
  {
    ReplayOn(Empty, ops, m);
  }

  lemma NothingYet(i: Inputs)
    ensures Start(i, Usdc, ClaimReserve) + StockDelta(i, true, Usdc, ClaimReserve) + StockDelta(i, false, Usdc, ClaimReserve) == 0
    ensures ReserveDelta(i, Usdc, ClaimReserve) == CLAIM_CASH
  {
  }

  lemma ReservePrefix(i: Inputs, proceeds: Party)
    ensures |SignedPlan(i, proceeds)| == 41
    ensures SignedPlan(i, proceeds)[..34] == Deploys(i) + StockCalls(i, true) + StockCalls(i, false) + ReserveCalls(i)
  {
    PlanLengths(i, proceeds);
    FinalParts(i, proceeds);
    assert |ReserveCalls(i)| == 11;
    hide Deploys, StockCalls, FinalCalls, ReserveCalls, MarketCalls;
  }

  /** The claims are opened once, by a call on the claim contract, which then holds all the cash for them. */
  lemma ClaimsOpenFunded(i: Inputs, proceeds: Party) returns (m: nat, l: Ledger)
    requires Refusal(i).None?
    ensures var plan := SignedPlan(i, proceeds);
            && m < |plan| && plan[m] == Configure(Claims, OpenClaims)
            && (forall k | 0 <= k < |plan| && Opens(plan[k], OpenClaims) :: k == m)
            && Replay(Empty, plan[..m]) == Ok(l) && Bal(l, Usdc, ClaimReserve) == CLAIM_CASH
  {
    m := 33;
    var plan := SignedPlan(i, proceeds);
    hide Replay, Bal, SignedPlan, Refusal;
    Places(i, proceeds);
    l := ReserveBalance(i, proceeds);
    QuietLast(plan, m);
  }

  lemma ReserveBalance(i: Inputs, proceeds: Party) returns (l: Ledger)
    requires Refusal(i).None?
    ensures |SignedPlan(i, proceeds)| == 41 && Replay(Empty, SignedPlan(i, proceeds)[..34]) == Ok(l)
    ensures Bal(l, Usdc, ClaimReserve) == CLAIM_CASH
  {
    ReservePrefix(i, proceeds);
    NothingYet(i);
    Affordable(i);
    hide Replay, Settled, Bal, Start, StockDelta, ReserveDelta, ReserveCalls, Deploys, StockCalls, SignedPlan, Refusal, RequiredUsdc;
    var s := StocksReplay(i);
    l := ReservesReplay(s, i);
    ReplayJoin(Empty, Deploys(i) + StockCalls(i, true) + StockCalls(i, false), ReserveCalls(i));
  }

  lemma LaunchPlanned(i: Inputs, proceeds: Party)
    ensures Planned(i, proceeds, TslaPass, TslaLaunch) == MILLION && Planned(i, proceeds, Usdc, TslaLaunch) == LP_CASH
  {
  }

  /** The mint is opened once and last, by a call on the launch contract, which then holds its passes and its liquidity. */
  lemma MintOpensFunded(i: Inputs, proceeds: Party) returns (m: nat, l: Ledger)
    requires Refusal(i).None?
    ensures var plan := SignedPlan(i, proceeds);
            && m == |plan| - 1 && plan[m] == Configure(Launch, OpenMint)
            && (forall k | 0 <= k < |plan| && Opens(plan[k], OpenMint) :: k == m)
            && Replay(Empty, plan[..m]) == Ok(l)
            && Bal(l, TslaPass, TslaLaunch) == MILLION && Bal(l, Usdc, TslaLaunch) == LP_CASH
  {
    m := 40;
    var plan := SignedPlan(i, proceeds);
    Places(i, proceeds);
    LaunchPlanned(i, proceeds);
    hide Replay, Bal, Planned, SignedPlan, Refusal, RequiredUsdc, NoAllowance;
    l := ReplaySucceeds(i, proceeds);
    assert |plan| == 41 && plan[..41] == plan;
    QuietLast(plan, m);
  }

  /** Before the conversion reserve receives anything, its routers are authorised and the trading router is set. */
  lemma RoutersBeforeFunds(i: Inputs, proceeds: Party) returns (f: nat)
    ensures var plan := SignedPlan(i, proceeds);
            && f < |plan| && FundsConversion(plan[f]) && (forall k | 0 <= k < f :: !FundsConversion(plan[k]))
            && Configure(Conversion, AuthorizeRouter(Launch)) in plan[..f]
            && Configure(Conversion, AuthorizeRouter(Router)) in plan[..f]
            && Configure(Conversion, ConfigureTradingRouter(Router)) in plan[..f]
  {
    f := 28;
    var plan := SignedPlan(i, proceeds);
    Places(i, proceeds);
    PlanParts(i, proceeds, 25);
    PlanParts(i, proceeds, 26);
    PlanParts(i, proceeds, 27);
    FinalList(i, proceeds);
    hide SignedPlan, FinalCalls, Deploys, StockCalls;
    assert plan[..f][25] == plan[25] && plan[..f][26] == plan[26] && plan[..f][27] == plan[27];
  }

  /** No pool is created before both initializers are set. */
  lemma InitializersBeforePools(i: Inputs, proceeds: Party, k: nat)
    requires k < |SignedPlan(i, proceeds)| && SignedPlan(i, proceeds)[k].CreatePool?
    ensures Configure(Pools, ConfigureInitializer(Coin(TslaPass), Some(Launch))) in SignedPlan(i, proceeds)[..k]
    ensures Configure(Pools, ConfigureInitializer(Coin(AmznPass), None)) in SignedPlan(i, proceeds)[..k]
  {
    var plan := SignedPlan(i, proceeds);
    PlanParts(i, proceeds, 23);
    PlanParts(i, proceeds, 24);
    PlanParts(i, proceeds, k);
    StockList(i, true);
    StockList(i, false);
    FinalList(i, proceeds);
    if k < 15 { DeployedOnce(i, Vaults, k); }
    hide SignedPlan, FinalCalls, Deploys, StockCalls;
    assert k > 24;
    assert plan[..k][23] == plan[23] && plan[..k][24] == plan[24];
  }
}
