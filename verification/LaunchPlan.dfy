/** Generating the deployment plan from its inputs. */
module LaunchPlan {
  import opened Results
  import opened LaunchLedger

  const MILLION := 1_000_000_000_000_000_000_000_000
  const HALF := 500_000_000_000_000_000_000_000
  const LP_CASH := 250_000_000_000
  const CLAIM_CASH := 100_000_000_000

  datatype Inputs = Inputs(
    nonce: nat, usdcSupply: nat, conversionUsdc: nat, conversionEth: nat, stockUsdc: nat, stockUnits: nat,
    ethPerTransaction: nat, ethPerAccountDaily: nat, ethGlobalDaily: nat, ethMinimumReserve: nat)

  datatype PlanFault = ConversionReadinessRequired | SeparateFundingRequired

  function RequiredUsdc(i: Inputs): nat { 600_000_000_000 + i.conversionUsdc + 2 * i.stockUsdc }

  /** The funding guards of `prepareDeployment`, in order. */
  function Refusal(i: Inputs): Option<PlanFault> {
    if i.ethPerTransaction == 0 || i.ethPerTransaction > i.ethPerAccountDaily || i.ethPerAccountDaily > i.ethGlobalDaily ||
       i.ethMinimumReserve == 0 || i.conversionEth < i.ethMinimumReserve + i.ethPerTransaction || i.conversionUsdc == 0
    then Some(ConversionReadinessRequired)
    else if i.usdcSupply < RequiredUsdc(i) || i.stockUnits == 0 || i.stockUnits > MILLION then Some(SeparateFundingRequired)
    else None
  }

  /** A line of the plan: a signed action, with its nonce where the plan fixes one, or the unsigned price reference. */
  datatype Line = Signed(op: Op, nonce: Option<nat>) | Reference(tsla: bool)

  // ------------------------------------------------------------ the parts of the plan

  function CoreDeploys(i: Inputs): seq<Op> {
    [Deploy(Coin(Usdc), [], Some((Usdc, i.usdcSupply))), Deploy(Coin(TslaPass), [], Some((TslaPass, MILLION))),
     Deploy(Coin(AmznPass), [], Some((AmznPass, MILLION))), Deploy(Pools, [Coin(Usdc)], None),
     Deploy(Conversion, [Coin(Usdc)], None), Deploy(Router, [Pools, Conversion], None),
     Deploy(Launch, [Coin(TslaPass), Coin(Usdc), Pools, Conversion], None), Deploy(Claims, [Coin(Usdc)], None)]
  }

  function StockOf(tsla: bool): Token { if tsla then TslaStock else AmznStock }

  function ReserveOf(tsla: bool): Party { if tsla then TslaReserve else AmznReserve }

  function StockDeploys(tsla: bool): seq<Op> {
    [Deploy(Coin(StockOf(tsla)), [], Some((StockOf(tsla), MILLION))), Deploy(Feed(tsla), [], None),
     Deploy(Reserve(tsla), [Coin(Usdc), Coin(StockOf(tsla)), Feed(tsla)], None)]
  }

  /** What the vault of one strategy is built from. */
  function VaultUses(tsla: bool): seq<Contract> {
    [Coin(if tsla then TslaPass else AmznPass), Coin(Usdc), Coin(StockOf(tsla)), Coin(StockOf(!tsla)), Reserve(tsla), Feed(tsla)]
  }

  function VaultDeploy(): Op { Deploy(Vaults, VaultUses(true) + VaultUses(false), None) }

  function Deploys(i: Inputs): seq<Op> {
    CoreDeploys(i) + StockDeploys(true) + StockDeploys(false) + [VaultDeploy()]
  }

  function Pay(t: Token, to: Party, amount: nat): seq<Op> { [Approve(t, to, amount), Fund(t, to, amount)] }

  function StockCalls(i: Inputs, tsla: bool): seq<Op> {
    Pay(StockOf(tsla), ReserveOf(tsla), i.stockUnits) + Pay(Usdc, ReserveOf(tsla), i.stockUsdc)
  }

  function Wiring(): seq<Op> {
    [Configure(Pools, ConfigureInitializer(Coin(TslaPass), Some(Launch))),
     Configure(Pools, ConfigureInitializer(Coin(AmznPass), None)),
     Configure(Conversion, AuthorizeRouter(Launch)), Configure(Conversion, AuthorizeRouter(Router)),
     Configure(Conversion, ConfigureTradingRouter(Router))]
  }

  /** The calls after the stock reserves. `proceeds` may be the administrator. */
  function FinalCalls(i: Inputs, proceeds: Party): seq<Op> {
    Wiring() + [FundNative(i.conversionEth)] + Pay(Usdc, ConversionReserve, i.conversionUsdc) +
    Pay(Usdc, ClaimReserve, CLAIM_CASH) + [Configure(Claims, OpenClaims)] +
    [Transfer(TslaPass, TslaLaunch, MILLION)] + [Transfer(Usdc, TslaLaunch, LP_CASH)] + OpenPool() +
    [Transfer(AmznPass, proceeds, HALF)] + [Configure(Launch, OpenMint)]
  }

  function OpenPool(): seq<Op> {
    [Approve(AmznPass, PoolFactory, HALF), Approve(Usdc, PoolFactory, LP_CASH), CreatePool(HALF, LP_CASH)]
  }

  function SignedPlan(i: Inputs, proceeds: Party): seq<Op> {
    Deploys(i) + StockCalls(i, true) + StockCalls(i, false) + FinalCalls(i, proceeds)
  }

  // ------------------------------------------------------------ generating it

  function Numbered(ops: seq<Op>, nonce: nat): seq<Line> {
    seq(|ops|, k requires 0 <= k < |ops| => Signed(ops[k], Some(nonce + k)))
  }

  function Calls(ops: seq<Op>): seq<Line> { seq(|ops|, k requires 0 <= k < |ops| => Signed(ops[k], None)) }

  function PlanOf(i: Inputs, proceeds: Party): seq<Line> {
    Numbered(Deploys(i), i.nonce) + (Calls(StockCalls(i, true)) + [Reference(true)] +
    Calls(StockCalls(i, false)) + [Reference(false)] + Calls(FinalCalls(i, proceeds)))
  }

  /** The actions that are signed, in order. */
  function SignedOps(lines: seq<Line>): seq<Op> {
    if lines == [] then []
    else
      var last := lines[|lines| - 1];
      SignedOps(lines[..|lines| - 1]) + if last.Signed? then [last.op] else []
  }

  class PlanBuilder {
    var actions: seq<Line>
    var configuration: seq<Line>
    var nonce: nat

    constructor (nonce: nat)
      ensures actions == [] && configuration == [] && this.nonce == nonce
    {
      actions, configuration, this.nonce := [], [], nonce;
    }

    method AddDeploys(ops: seq<Op>)
      modifies this`actions, this`nonce
      ensures actions == old(actions) + Numbered(ops, old(nonce)) && nonce == old(nonce) + |ops|
    {
      var from, start := nonce, actions;
      for k := 0 to |ops|
        invariant nonce == from + k && actions == start + Numbered(ops[..k], from)
      {
        actions := actions + [Signed(ops[k], Some(nonce))];
        nonce := nonce + 1;
        assert Numbered(ops[..k + 1], from) == Numbered(ops[..k], from) + [Signed(ops[k], Some(from + k))];
      }
      assert ops[..|ops|] == ops;
    }

    method AddCalls(ops: seq<Op>)
      modifies this`configuration
      ensures configuration == old(configuration) + Calls(ops)
    {
      var start := configuration;
      for k := 0 to |ops|
        invariant configuration == start + Calls(ops[..k])
      {
        configuration := configuration + [Signed(ops[k], None)];
        assert Calls(ops[..k + 1]) == Calls(ops[..k]) + [Signed(ops[k], None)];
      }
      assert ops[..|ops|] == ops;
    }
  }

  lemma NumberedJoin(p: seq<Op>, q: seq<Op>, nonce: nat)
    ensures Numbered(p + q, nonce) == Numbered(p, nonce) + Numbered(q, nonce + |p|)
  {
  }

  /** `prepareDeployment`: deploys and calls are collected apart while the strategies are walked. */
  method PrepareDeployment(i: Inputs, proceeds: Party) returns (r: Result<seq<Line>, PlanFault>)
    ensures Refusal(i).Some? ==> r == Err(Refusal(i).value)
    ensures Refusal(i).None? ==> r == Ok(PlanOf(i, proceeds))
  {
    var refused := Refusal(i);
    if refused.Some? { return Err(refused.value); }
    var builder := new PlanBuilder(i.nonce);
    builder.AddDeploys(CoreDeploys(i));
    builder.AddDeploys(StockDeploys(true));
    builder.AddCalls(StockCalls(i, true));
    builder.configuration := builder.configuration + [Reference(true)];
    builder.AddDeploys(StockDeploys(false));
    builder.AddCalls(StockCalls(i, false));
    builder.configuration := builder.configuration + [Reference(false)];
    builder.AddDeploys([VaultDeploy()]);
    builder.AddCalls(FinalCalls(i, proceeds));
    hide Numbered, Calls, FinalCalls, StockCalls, CoreDeploys, StockDeploys;
    NumberedJoin(CoreDeploys(i), StockDeploys(true), i.nonce);
    NumberedJoin(CoreDeploys(i) + StockDeploys(true), StockDeploys(false), i.nonce);
    NumberedJoin(CoreDeploys(i) + StockDeploys(true) + StockDeploys(false), [VaultDeploy()], i.nonce);
    assert builder.actions == Numbered(Deploys(i), i.nonce);
    assert builder.configuration == Calls(StockCalls(i, true)) + [Reference(true)] + Calls(StockCalls(i, false)) +
      [Reference(false)] + Calls(FinalCalls(i, proceeds));
    r := Ok(builder.actions + builder.configuration);
  }
}
