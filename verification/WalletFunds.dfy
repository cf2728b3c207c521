/**
The administrator's account along a run of the wallet. What the chain may do to it: take in funds,
mine the transaction of the next nonce from an intent in the durable journal, and go back to a
state it had since the first offer.
*/
module WalletFunds {
  import opened Results
  import opened Wallet
  import opened WalletRuns

  datatype Account = Account(nonce: nat, balance: int)

  predicate Receives(a: Account, b: Account) { b.nonce == a.nonce && b.balance >= a.balance }

  /** The transaction of the account's nonce was mined within the limits of its intent. */
  predicate Pays(plan: Plan, durable: seq<Entry>, a: Account, b: Account, used: nat, price: nat)
    requires |plan.actions| == STEPS
  {
    && a.nonce < |durable| && a.nonce < STEPS && b.nonce == a.nonce + 1
    && used <= durable[a.nonce].gasLimit && price <= durable[a.nonce].maxFee
    && b.balance >= a.balance - plan.actions[a.nonce].value - used * price
  }

  ghost predicate Moves(plan: Plan, durable: seq<Entry>, a: Account, b: Account)
    requires |plan.actions| == STEPS
  {
    Receives(a, b) || exists used, price :: Pays(plan, durable, a, b, used, price)
  }

  /** From point `from` on, each account comes from one the chain had since then. */
  ghost predicate AccountsMove(plan: Plan, steps: seq<Step>, accounts: seq<Account>, from: nat)
    requires ValidPlan(plan)
  {
    |accounts| == |steps| + 1 && forall i | from <= i < |steps| :: ComesFrom(plan, steps, accounts, from, i)
  }

  ghost predicate ComesFrom(plan: Plan, steps: seq<Step>, accounts: seq<Account>, from: nat, i: nat)
    requires ValidPlan(plan) && |accounts| == |steps| + 1 && from <= i < |steps|
  {
    exists m | from <= m <= i :: Moves(plan, Run(plan, steps[..i + 1]).durable, accounts[m], accounts[i + 1])
  }

  /** What a passing turn before the prompt has read: the nonce is the next index, and the account pays for all that is left. */
  ghost predicate ChecksMean(plan: Plan, steps: seq<Step>, accounts: seq<Account>)
    requires ValidPlan(plan)
  {
    |accounts| == |steps| + 1 && forall i | 0 <= i < |steps| :: CheckMeans(plan, steps, accounts, i)
  }

  ghost predicate CheckMeans(plan: Plan, steps: seq<Step>, accounts: seq<Account>, i: nat)
    requires ValidPlan(plan) && |accounts| == |steps| + 1 && i < |steps|
  {
    var w := Run(plan, steps[..i]);
    steps[i].OpenPrompt? && steps[i].passes && w.session.Some? && |w.session.value.journal| <= STEPS ==>
      accounts[i].nonce == |w.session.value.journal| && Funded(plan, accounts[i].nonce, accounts[i].balance)
  }

  lemma MoveKeepsFunds(plan: Plan, durable: seq<Entry>, a: Account, b: Account)
    requires ValidPlan(plan) && ValidJournal(plan, durable) && a.nonce <= STEPS && Funded(plan, a.nonce, a.balance)
    requires Moves(plan, durable, a, b)
    ensures b.nonce <= STEPS && Funded(plan, b.nonce, b.balance)
  {
    if !Receives(a, b) {
      var used, price :| Pays(plan, durable, a, b, used, price);
      var e := durable[a.nonce].(gasUsed := Some(used), gasPrice := Some(price));
      assert ValidEntry(plan, durable[a.nonce], a.nonce);
      hide Funded;
      FundingCarriesOver(plan, a.nonce, e, a.balance, b.balance);
    }
  }

  lemma FundedKeepsMinimum(plan: Plan, k: nat, balance: int)
    requires ValidPlan(plan) && k <= STEPS && Funded(plan, k, balance)
    ensures balance >= plan.budget.retained
  {
    assert 0 <= (STEPS - k) * Unit(plan);
  }

  lemma {:induction false} FundsHold(plan: Plan, steps: seq<Step>, accounts: seq<Account>, from: nat, k: nat)
    requires ValidPlan(plan) && from <= k <= |steps| && AccountsMove(plan, steps, accounts, from)
    requires accounts[from].nonce <= STEPS && Funded(plan, accounts[from].nonce, accounts[from].balance)
    ensures accounts[k].nonce <= STEPS && Funded(plan, accounts[k].nonce, accounts[k].balance)
    decreases k
  {
    if from < k {
      assert ComesFrom(plan, steps, accounts, from, k - 1);
      var durable := Run(plan, steps[..k]).durable;
      hide Run, Funded, Moves;
      var m :| from <= m <= k - 1 && Moves(plan, durable, accounts[m], accounts[k]);
      FundsHold(plan, steps, accounts, from, m);
      MoveKeepsFunds(plan, durable, accounts[m], accounts[k]);
    }
  }

  /**
  From the first offer of a run on, the account pays at every point for all that is left of the plan,
  so no later funding check refuses, and the retained minimum is never touched.
  */
  lemma {:induction false} OffersStayFunded(plan: Plan, steps: seq<Step>, accounts: seq<Account>, from: nat, k: nat)
    requires ValidPlan(plan) && from < k <= |steps| && Run(plan, steps[..from + 1]).prompts != Run(plan, steps[..from]).prompts
    requires ChecksMean(plan, steps, accounts) && AccountsMove(plan, steps, accounts, from)
    ensures accounts[k].nonce <= STEPS && Funded(plan, accounts[k].nonce, accounts[k].balance)
    ensures accounts[k].balance >= plan.budget.retained
  {
    RunOn(plan, steps, from);
    OnlyOpenPrompts(plan, Run(plan, steps[..from]), steps[from]);
    assert CheckMeans(plan, steps, accounts, from);
    hide Run, Funded;
    FundsHold(plan, steps, accounts, from, k);
    FundedKeepsMinimum(plan, accounts[k].nonce, accounts[k].balance);
  }
}
