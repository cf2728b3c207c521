/** The balance and allowance ledger against which a finished deployment is replayed. */
module LaunchLedger {
  import opened Results

  datatype Token = Usdc | TslaPass | AmznPass | TslaStock | AmznStock

  /** The holders a plan can name. Every contract has its own CREATE address, so they are distinct. */
  datatype Party =
    | Admin | Proceeds | TslaLaunch | AmznPool | PoolFactory | ConversionReserve | ClaimReserve | TslaReserve | AmznReserve

  /** The contracts that a plan deploys. */
  datatype Contract =
    | Coin(token: Token) | Pools | Conversion | Router | Launch | Claims | Feed(tsla: bool) | Reserve(tsla: bool) | Vaults

  /** The calls that move nothing. */
  datatype Call =
    | ConfigureInitializer(pass: Contract, initializer: Option<Contract>) | AuthorizeRouter(router: Contract)
    | ConfigureTradingRouter(router: Contract) | OpenClaims | OpenMint

  /** The signed actions of a plan. A deployment names the contracts that its constructor takes. */
  datatype Op =
    | Deploy(contract: Contract, uses: seq<Contract>, mints: Option<(Token, nat)>)
    | Approve(token: Token, spender: Party, amount: nat)
    | Fund(token: Token, to: Party, amount: nat)
    | FundNative(amount: nat)
    | Transfer(token: Token, to: Party, amount: nat)
    | CreatePool(pass: nat, cash: nat)
    | Configure(on: Contract, call: Call)

  type Amounts = map<(Token, Party), nat>

  datatype Ledger = Ledger(balances: Amounts, allowances: Amounts, native: nat)

  const Empty := Ledger(map[], map[], 0)

  datatype Fault = FundingLedger | AllowanceLedger

  function Bal(l: Ledger, t: Token, p: Party): nat { if (t, p) in l.balances then l.balances[(t, p)] else 0 }

  // ------------------------------------------------------------ one action

  /** `movement` of the administrator's tokens; moving to oneself leaves the balance alone. */
  function Moved(l: Ledger, t: Token, to: Party, amount: nat): Result<Ledger, Fault> {
    if (t, Admin) !in l.balances || l.balances[(t, Admin)] < amount then Err(FundingLedger)
    else if to == Admin then Ok(l)
    else Ok(l.(balances := l.balances[(t, Admin) := l.balances[(t, Admin)] - amount][(t, to) := Bal(l, t, to) + amount]))
  }

  function Consumed(l: Ledger, t: Token, spender: Party, amount: nat): Result<Ledger, Fault> {
    if (t, spender) !in l.allowances || l.allowances[(t, spender)] < amount then Err(AllowanceLedger)
    else Ok(l.(allowances := l.allowances[(t, spender) := l.allowances[(t, spender)] - amount]))
  }

  function Spent(l: Ledger, t: Token, to: Party, spender: Party, amount: nat): Result<Ledger, Fault> {
    match Moved(l, t, to, amount)
    case Err(fault) => Err(fault)
    case Ok(moved) => Consumed(moved, t, spender, amount)
  }

  function Step(l: Ledger, op: Op): Result<Ledger, Fault> {
    match op
    case Deploy(_, _, None) => Ok(l)
    case Deploy(_, _, Some((t, supply))) => Ok(l.(balances := l.balances[(t, Admin) := supply]))
    case Approve(t, spender, amount) => Ok(l.(allowances := l.allowances[(t, spender) := amount]))
    case Fund(t, to, amount) => Spent(l, t, to, to, amount)
    case FundNative(amount) => Ok(l.(native := l.native + amount))
    case Transfer(t, to, amount) => Moved(l, t, to, amount)
    case Configure(_, _) => Ok(l)
    case CreatePool(pass, cash) =>
      match Moved(l, AmznPass, AmznPool, pass) {
        case Err(fault) => Err(fault)
        case Ok(first) =>
          match Moved(first, Usdc, AmznPool, cash)
          case Err(fault) => Err(fault)
          case Ok(second) =>
            match Consumed(second, AmznPass, PoolFactory, pass)
            case Err(fault) => Err(fault)
            case Ok(third) => Consumed(third, Usdc, PoolFactory, cash)
      }
  }

  function Replay(l: Ledger, ops: seq<Op>): Result<Ledger, Fault> {
    if ops == [] then Ok(l)
    else
      match Replay(l, ops[..|ops| - 1])
      case Err(fault) => Err(fault)
      case Ok(before) => Step(before, ops[|ops| - 1])
  }

  /** The replay as an object that each action changes in place. */
  class LedgerReplay {
    var balances: Amounts
    var allowances: Amounts
    var native: nat

    function View(): Ledger
      reads this
    {
      Ledger(balances, allowances, native)
    }

    constructor ()
      ensures View() == Empty
    {
      balances, allowances, native := map[], map[], 0;
    }

    method Movement(t: Token, to: Party, amount: nat) returns (fault: Option<Fault>)
      modifies this`balances
      ensures match old(Moved(View(), t, to, amount))
              case Ok(l) => fault.None? && View() == l
              case Err(f) => fault == Some(f) && View() == old(View())
    {
      if (t, Admin) !in balances || balances[(t, Admin)] < amount { return Some(FundingLedger); }
      if to != Admin {
        var received := if (t, to) in balances then balances[(t, to)] else 0;
        balances := balances[(t, Admin) := balances[(t, Admin)] - amount];
        balances := balances[(t, to) := received + amount];
      }
      fault := None;
    }

    method Consume(t: Token, spender: Party, amount: nat) returns (fault: Option<Fault>)
      modifies this`allowances
      ensures match old(Consumed(View(), t, spender, amount))
              case Ok(l) => fault.None? && View() == l
              case Err(f) => fault == Some(f) && View() == old(View())
    {
      if (t, spender) !in allowances || allowances[(t, spender)] < amount { return Some(AllowanceLedger); }
      allowances := allowances[(t, spender) := allowances[(t, spender)] - amount];
      fault := None;
    }

    /** One action; after a fault the replay is abandoned. */
    method Execute(op: Op) returns (fault: Option<Fault>)
      modifies this
      ensures match old(Step(View(), op))
              case Ok(l) => fault.None? && View() == l
              case Err(f) => fault == Some(f)
    {
      fault := None;
      match op
      case Deploy(_, _, mints) => if mints.Some? { balances := balances[(mints.value.0, Admin) := mints.value.1]; }
      case Approve(t, spender, amount) => allowances := allowances[(t, spender) := amount];
      case FundNative(amount) => native := native + amount;
      case Transfer(t, to, amount) => fault := Movement(t, to, amount);
      case Configure(_, _) =>
      case Fund(t, to, amount) =>
        fault := Movement(t, to, amount);
        if fault.None? { fault := Consume(t, to, amount); }
      case CreatePool(pass, cash) =>
        fault := Movement(AmznPass, AmznPool, pass);
        if fault.None? { fault := Movement(Usdc, AmznPool, cash); }
        if fault.None? { fault := Consume(AmznPass, PoolFactory, pass); }
        if fault.None? { fault := Consume(Usdc, PoolFactory, cash); }
    }

    /** The loop over the signed actions. */
    method ReplayAll(ops: seq<Op>) returns (fault: Option<Fault>)
      requires View() == Empty
      modifies this
      ensures match Replay(Empty, ops)
              case Ok(l) => fault.None? && View() == l
              case Err(f) => fault == Some(f)
    {
      hide Step;
      for i := 0 to |ops|
        invariant Replay(Empty, ops[..i]) == Ok(View())
      {
        ReplayOn(Empty, ops, i);
        fault := Execute(ops[i]);
        if fault.Some? {
          FaultStays(Empty, ops, i + 1);
          return;
        }
      }
      assert ops[..|ops|] == ops;
      fault := None;
    }
  }

  lemma {:induction false} ReplayOn(l: Ledger, ops: seq<Op>, i: nat)
    requires i < |ops|
    ensures Replay(l, ops[..i + 1]) ==
            match Replay(l, ops[..i]) { case Err(fault) => Err(fault) case Ok(before) => Step(before, ops[i]) }
  {
    assert ops[..i + 1][..i] == ops[..i];
  }

  lemma {:induction false} FaultStays(l: Ledger, ops: seq<Op>, i: nat)
    requires i <= |ops| && Replay(l, ops[..i]).Err?
    ensures Replay(l, ops) == Replay(l, ops[..i])
    decreases |ops| - i
  {
    if i == |ops| {
      assert ops[..i] == ops;
    } else {
      ReplayOn(l, ops, i);
      FaultStays(l, ops, i + 1);
    }
  }

  lemma {:induction false} ReplayJoin(l: Ledger, p: seq<Op>, q: seq<Op>)
    ensures Replay(l, p + q) == match Replay(l, p) { case Err(fault) => Err(fault) case Ok(middle) => Replay(middle, q) }
    decreases |q|
  {
    if q == [] {
      assert p + q == p;
    } else {
      var n := |q| - 1;
      ReplayJoin(l, p, q[..n]);
      assert (p + q)[..|p| + n] == p + q[..n] && (p + q)[|p| + n] == q[n];
    }
  }

  // ------------------------------------------------------------ conservation

  function Total(l: Ledger, t: Token): nat {
    Bal(l, t, Admin) + Bal(l, t, Proceeds) + Bal(l, t, TslaLaunch) + Bal(l, t, AmznPool) + Bal(l, t, PoolFactory) +
    Bal(l, t, ConversionReserve) + Bal(l, t, ClaimReserve) + Bal(l, t, TslaReserve) + Bal(l, t, AmznReserve)
  }

  /** What moving `amount` of `t` to `to` adds to the balance of `p` in `v`. */
  function Shift(t: Token, to: Party, amount: nat, v: Token, p: Party): int {
    (if v == t && p == to then amount else 0) - (if v == t && p == Admin then amount else 0)
  }

  predicate ShiftedAt(l: Ledger, l': Ledger, t: Token, to: Party, amount: nat, v: Token, p: Party) {
    Bal(l', v, p) == Bal(l, v, p) + Shift(t, to, amount, v, p)
  }

  /** `l'` is `l` with `amount` of `t` moved to `to`, and nothing else moved. */
  ghost predicate Shifted(l: Ledger, l': Ledger, t: Token, to: Party, amount: nat) {
    forall v: Token, p: Party :: ShiftedAt(l, l', t, to, amount, v, p)
  }

  lemma MovedShifts(l: Ledger, t: Token, to: Party, amount: nat)
    requires Moved(l, t, to, amount).Ok?
    ensures Shifted(l, Moved(l, t, to, amount).value, t, to, amount)
  {
  }

  lemma ShiftSum(t: Token, to: Party, amount: nat, v: Token)
    ensures Shift(t, to, amount, v, Admin) + Shift(t, to, amount, v, Proceeds) + Shift(t, to, amount, v, TslaLaunch) +
            Shift(t, to, amount, v, AmznPool) + Shift(t, to, amount, v, PoolFactory) + Shift(t, to, amount, v, ConversionReserve) +
            Shift(t, to, amount, v, ClaimReserve) + Shift(t, to, amount, v, TslaReserve) + Shift(t, to, amount, v, AmznReserve) == 0
  {
    match to case _ =>
  }

  lemma ShiftConserves(l: Ledger, l': Ledger, t: Token, to: Party, amount: nat, v: Token)
    requires Shifted(l, l', t, to, amount)
    ensures Total(l', v) == Total(l, v)
  {
    hide Bal, Shift;
    assert ShiftedAt(l, l', t, to, amount, v, Admin) && ShiftedAt(l, l', t, to, amount, v, Proceeds);
    assert ShiftedAt(l, l', t, to, amount, v, TslaLaunch) && ShiftedAt(l, l', t, to, amount, v, AmznPool);
    assert ShiftedAt(l, l', t, to, amount, v, PoolFactory) && ShiftedAt(l, l', t, to, amount, v, ConversionReserve);
    assert ShiftedAt(l, l', t, to, amount, v, ClaimReserve) && ShiftedAt(l, l', t, to, amount, v, TslaReserve);
    assert ShiftedAt(l, l', t, to, amount, v, AmznReserve);
    ShiftSum(t, to, amount, v);
  }

  lemma MovedConserves(l: Ledger, t: Token, to: Party, amount: nat, v: Token)
    requires Moved(l, t, to, amount).Ok?
    ensures Total(Moved(l, t, to, amount).value, v) == Total(l, v)
  {
    MovedShifts(l, t, to, amount);
    ShiftConserves(l, Moved(l, t, to, amount).value, t, to, amount, v);
  }

  lemma SameBalances(l: Ledger, l': Ledger, v: Token)
    requires l.balances == l'.balances
    ensures Total(l, v) == Total(l', v)
  {
  }

  lemma SpentConserves(l: Ledger, t: Token, to: Party, spender: Party, amount: nat, v: Token)
    requires Spent(l, t, to, spender, amount).Ok?
    ensures Total(Spent(l, t, to, spender, amount).value, v) == Total(l, v)
  {
    hide Total;
    MovedConserves(l, t, to, amount, v);
    SameBalances(Moved(l, t, to, amount).value, Spent(l, t, to, spender, amount).value, v);
  }

  lemma PoolConserves(l: Ledger, pass: nat, cash: nat, v: Token)
    requires Step(l, CreatePool(pass, cash)).Ok?
    ensures Total(Step(l, CreatePool(pass, cash)).value, v) == Total(l, v)
  {
    hide Total, Moved;
    MovedConserves(l, AmznPass, AmznPool, pass, v);
    var first := Moved(l, AmznPass, AmznPool, pass).value;
    MovedConserves(first, Usdc, AmznPool, cash, v);
    SameBalances(Moved(first, Usdc, AmznPool, cash).value, Step(l, CreatePool(pass, cash)).value, v);
  }

  /** No action but a mint changes the total of any token. */
  lemma StepConserves(l: Ledger, op: Op, v: Token)
    requires Step(l, op).Ok? && !(op.Deploy? && op.mints.Some?)
    ensures Total(Step(l, op).value, v) == Total(l, v)
  {
    hide Total, Moved, Spent;
    match op
    case Fund(t, to, amount) => SpentConserves(l, t, to, to, amount, v);
    case Transfer(t, to, amount) => MovedConserves(l, t, to, amount, v);
    case CreatePool(pass, cash) => PoolConserves(l, pass, cash, v);
    case _ => SameBalances(l, Step(l, op).value, v);
  }

  lemma MintBal(l: Ledger, t: Token, supply: nat, v: Token, p: Party)
    ensures Bal(l.(balances := l.balances[(t, Admin) := supply]), v, p) == if v == t && p == Admin then supply else Bal(l, v, p)
  {
  }

  lemma MintTotal(l: Ledger, t: Token, supply: nat, v: Token)
    ensures var l' := l.(balances := l.balances[(t, Admin) := supply]);
            Total(l', v) == if v == t then Total(l, v) - Bal(l, t, Admin) + supply else Total(l, v)
  {
    hide Bal;
    MintBal(l, t, supply, v, Admin); MintBal(l, t, supply, v, Proceeds); MintBal(l, t, supply, v, TslaLaunch);
    MintBal(l, t, supply, v, AmznPool); MintBal(l, t, supply, v, PoolFactory); MintBal(l, t, supply, v, ConversionReserve);
    MintBal(l, t, supply, v, ClaimReserve); MintBal(l, t, supply, v, TslaReserve); MintBal(l, t, supply, v, AmznReserve);
  }

  function Minted(ops: seq<Op>, t: Token): nat {
    if ops == [] then 0
    else
      var last := ops[|ops| - 1];
      Minted(ops[..|ops| - 1], t) + if last.Deploy? && last.mints.Some? && last.mints.value.0 == t then last.mints.value.1 else 0
  }

  function MintCount(ops: seq<Op>, t: Token): nat {
    if ops == [] then 0
    else
      var last := ops[|ops| - 1];
      MintCount(ops[..|ops| - 1], t) + if last.Deploy? && last.mints.Some? && last.mints.value.0 == t then 1 else 0
  }

  lemma EmptyTotal(t: Token)
    ensures Total(Empty, t) == 0
  {
  }

  lemma AdminWithinTotal(l: Ledger, t: Token)
    ensures Bal(l, t, Admin) <= Total(l, t)
  {
  }

  /** Whatever is replayed, the holders of a token that is minted at most once own together exactly its supply. */
  lemma {:induction false} SupplyIsConserved(ops: seq<Op>, t: Token)
    requires Replay(Empty, ops).Ok? && MintCount(ops, t) <= 1
    ensures Total(Replay(Empty, ops).value, t) == Minted(ops, t)
    ensures MintCount(ops, t) == 0 ==> Minted(ops, t) == 0
  {
    if ops == [] {
      EmptyTotal(t);
    } else {
      hide Total, Bal, Moved, Spent;
      var n := |ops| - 1;
      SupplyIsConserved(ops[..n], t);
      var before, op := Replay(Empty, ops[..n]).value, ops[n];
      if op.Deploy? && op.mints.Some? {
        MintTotal(before, op.mints.value.0, op.mints.value.1, t);
        AdminWithinTotal(before, t);
      } else {
        StepConserves(before, op, t);
      }
    }
  }
}
