/**
The deployment wallet's journal: how chain answers are turned into entry states, and
what a reconciled journal is worth. Answers are already decoded; a malformed answer
makes the call fail before it changes anything.
*/
module Wallet {
  import opened Results

  type Hash = string
  type Address = string

  const STEPS := 41
  const CHAIN_ID := 46630
  const CONFIRMATIONS := 2

  datatype EntryState = Intent | Submitted | Included | Confirmed | Unknown | Reverted | Reorged

  datatype Entry = Entry(
    index: nat,
    state: EntryState,
    gasLimit: nat,
    maxFee: nat,
    maxPriority: nat,
    hash: Option<Hash>,
    blockNumber: Option<nat>,
    blockHash: Option<Hash>,
    gasUsed: Option<nat>,
    gasPrice: Option<nat>)

  datatype Budget = Budget(gas: nat, fee: nat, priority: nat, totalGas: nat, nativeCap: nat, retained: nat)

  datatype Action = Action(to: Option<Address>, contract: Address, data: string, value: nat)

  datatype Plan = Plan(admin: Address, actions: seq<Action>, budget: Budget, expiresAt: nat)

  function TotalValue(actions: seq<Action>): nat {
    if actions == [] then 0 else actions[0].value + TotalValue(actions[1..])
  }

  /** The parts of `validateDeploymentPayload` that the session relies on. */
  predicate ValidPlan(plan: Plan) {
    var b := plan.budget;
    && |plan.actions| == STEPS
    && 0 < b.gas <= 12_000_000 && 0 < b.fee <= 20_000_000 && b.priority <= b.fee
    && 0 < b.totalGas <= 10_000_000_000_000_000 && STEPS * b.gas * b.fee <= b.totalGas
    && b.nativeCap == TotalValue(plan.actions) && b.retained >= 500_000_000_000_000
  }

  predicate ValidEntry(plan: Plan, e: Entry, i: nat) {
    && e.index == i
    && 0 < e.gasLimit <= plan.budget.gas && 0 < e.maxFee <= plan.budget.fee
    && e.maxPriority <= e.maxFee && e.maxPriority <= plan.budget.priority
    && (e.state == Confirmed ==> e.hash.Some?)
  }

  /** `validateJournal`. */
  predicate ValidJournal(plan: Plan, entries: seq<Entry>) {
    |entries| <= STEPS && forall i | 0 <= i < |entries| :: ValidEntry(plan, entries[i], i)
  }

  // ------------------------------------------------------------ one observation

  datatype Tx = Tx(
    hash: Hash, from: Address, to: Option<Address>, chainId: nat, nonce: nat, input: string, value: nat, kind: nat,
    gas: nat, maxFee: nat, maxPriority: nat, accessListEmpty: bool, blockNumber: Option<nat>, blockHash: Option<Hash>)

  datatype Receipt = Receipt(
    hash: Hash, from: Address, to: Option<Address>, blockNumber: nat, blockHash: Hash, status: nat,
    contract: Option<Address>, gasUsed: nat, gasPrice: nat)

  datatype Header = Header(number: nat, hash: Hash)

  /** What the read RPC says during one observation. */
  datatype Answers = Answers(
    tx: Option<Tx>, receipt: Option<Receipt>, canonical: Header, head: nat, headFresh: bool, canonicalAgain: Header)

  datatype Fault =
    | TransactionMismatch | ReceiptMismatch | ReceiptBudgetMismatch | StaleHead | ReceiptsRequired

  /** The transaction is exactly the plan's action at this nonce, with the entry's own fees. */
  predicate Carries(plan: Plan, e: Entry, tx: Tx)
    requires e.index < |plan.actions|
  {
    var action := plan.actions[e.index];
    && e.hash == Some(tx.hash) && tx.from == plan.admin && tx.to == action.to && tx.chainId == CHAIN_ID
    && tx.nonce == e.index && tx.input == action.data && tx.value == action.value && tx.kind == 2
    && tx.gas == e.gasLimit && tx.maxFee == e.maxFee && tx.maxPriority == e.maxPriority && tx.accessListEmpty
  }

  predicate IsPending(tx: Tx) { tx.blockNumber.None? && tx.blockHash.None? }

  predicate ReceiptFits(plan: Plan, e: Entry, tx: Tx, r: Receipt)
    requires e.index < |plan.actions|
  {
    && e.hash == Some(r.hash) && r.from == plan.admin && r.to == plan.actions[e.index].to
    && (IsPending(tx) || (tx.blockHash == Some(r.blockHash) && tx.blockNumber == Some(r.blockNumber)))
  }

  predicate CreatedFits(action: Action, r: Receipt) {
    if action.to.None? then r.contract == Some(action.contract) else r.contract.None?
  }

  /** `observe`, in the order of its checks. */
  function Observe(plan: Plan, e: Entry, a: Answers): Result<Entry, Fault>
    requires e.index < |plan.actions|
  {
    if e.hash.None? || a.tx.None? then Ok(e.(state := Unknown))
    else if !Carries(plan, e, a.tx.value) then Err(TransactionMismatch)
    else if a.receipt.None? then Ok(e.(state := if IsPending(a.tx.value) then Submitted else Unknown))
    else
      var r := a.receipt.value;
      if !ReceiptFits(plan, e, a.tx.value, r) || a.canonical.number != r.blockNumber then Err(ReceiptMismatch)
      else if a.canonical.hash != r.blockHash then Ok(e.(state := Reorged))
      else if r.status == 0 then Ok(e.(state := Reverted))
      else if r.status != 1 || !CreatedFits(plan.actions[e.index], r) then Err(ReceiptMismatch)
      else if r.gasUsed > e.gasLimit || r.gasPrice > e.maxFee then Err(ReceiptBudgetMismatch)
      else if IsPending(a.tx.value) then Ok(e.(state := Submitted))
      else if !a.headFresh then Err(StaleHead)
      else if a.canonicalAgain.number != r.blockNumber then Err(ReceiptMismatch)
      else if a.canonicalAgain.hash != r.blockHash then Ok(e.(state := Reorged))
      else Ok(e.(state := if a.head >= r.blockNumber + CONFIRMATIONS then Confirmed else Included,
                 blockNumber := Some(r.blockNumber), blockHash := Some(r.blockHash),
                 gasUsed := Some(r.gasUsed), gasPrice := Some(r.gasPrice)))
  }

  /** A confirmation rests on the transaction itself, mined, successful and two blocks deep on the canonical chain. */
  predicate Proved(plan: Plan, e: Entry, a: Answers)
    requires e.index < |plan.actions|
  {
    && a.tx.Some? && Carries(plan, e, a.tx.value) && !IsPending(a.tx.value)
    && a.receipt.Some? && ReceiptFits(plan, e, a.tx.value, a.receipt.value)
    && var r := a.receipt.value;
       && r.status == 1 && CreatedFits(plan.actions[e.index], r) && r.gasUsed <= e.gasLimit && r.gasPrice <= e.maxFee
       && a.canonical == Header(r.blockNumber, r.blockHash) && a.canonicalAgain == a.canonical
       && a.headFresh && a.head >= r.blockNumber + CONFIRMATIONS
  }

  /** The entry's own transaction was found. */
  predicate Found(plan: Plan, e: Entry, a: Answers)
    requires e.index < |plan.actions|
  {
    a.tx.Some? && Carries(plan, e, a.tx.value)
  }

  /** Its receipt fits it and names a block at a height that the chain answered for. */
  predicate Mined(plan: Plan, e: Entry, a: Answers)
    requires e.index < |plan.actions|
  {
    && Found(plan, e, a) && a.receipt.Some? && ReceiptFits(plan, e, a.tx.value, a.receipt.value)
    && a.canonical.number == a.receipt.value.blockNumber
  }

  /** The receipt's block is canonical and the transaction did what the plan says, within the entry's limits. */
  predicate Succeeded(plan: Plan, e: Entry, a: Answers)
    requires e.index < |plan.actions|
  {
    && Mined(plan, e, a) && a.canonical.hash == a.receipt.value.blockHash && a.receipt.value.status == 1
    && CreatedFits(plan.actions[e.index], a.receipt.value)
    && a.receipt.value.gasUsed <= e.gasLimit && a.receipt.value.gasPrice <= e.maxFee
  }

  /** The same block was canonical again at a fresh head. */
  predicate Settled(plan: Plan, e: Entry, a: Answers)
    requires e.index < |plan.actions|
  {
    && Succeeded(plan, e, a) && !IsPending(a.tx.value) && a.headFresh && a.canonicalAgain.number == a.receipt.value.blockNumber
  }

  /** What each outcome of an observation rests on; in any other case the observation fails. */
  lemma ObservedIff(plan: Plan, e: Entry, a: Answers)
    requires e.index < |plan.actions|
    ensures var seen := Observe(plan, e, a);
            && (seen == Ok(e.(state := Unknown)) <==>
                  e.hash.None? || a.tx.None? || (Found(plan, e, a) && a.receipt.None? && !IsPending(a.tx.value)))
            && (seen == Ok(e.(state := Submitted)) <==>
                  Found(plan, e, a) && IsPending(a.tx.value) && (a.receipt.None? || Succeeded(plan, e, a)))
            && (seen == Ok(e.(state := Reverted)) <==>
                  Mined(plan, e, a) && a.canonical.hash == a.receipt.value.blockHash && a.receipt.value.status == 0)
            && (seen == Ok(e.(state := Reorged)) <==>
                  || (Mined(plan, e, a) && a.canonical.hash != a.receipt.value.blockHash)
                  || (Settled(plan, e, a) && a.canonicalAgain.hash != a.receipt.value.blockHash))
            && (Settled(plan, e, a) && a.canonicalAgain.hash == a.receipt.value.blockHash ==>
                  var r := a.receipt.value;
                  seen == Ok(e.(state := if a.head >= r.blockNumber + CONFIRMATIONS then Confirmed else Included,
                                blockNumber := Some(r.blockNumber), blockHash := Some(r.blockHash),
                                gasUsed := Some(r.gasUsed), gasPrice := Some(r.gasPrice))))
            && (seen.Ok? ==>
                  || (Settled(plan, e, a) && a.canonicalAgain.hash == a.receipt.value.blockHash)
                  || seen == Ok(e.(state := Unknown)) || seen == Ok(e.(state := Submitted))
                  || seen == Ok(e.(state := Reverted)) || seen == Ok(e.(state := Reorged)))
  {
  }

  lemma ConfirmedIffProved(plan: Plan, e: Entry, a: Answers)
    requires e.index < |plan.actions|
    ensures Observe(plan, e, a).Ok? && Observe(plan, e, a).value.state == Confirmed <==> Proved(plan, e, a)
    ensures Proved(plan, e, a) ==>
              var r := a.receipt.value;
              Observe(plan, e, a).value == e.(state := Confirmed, blockNumber := Some(r.blockNumber), blockHash := Some(r.blockHash),
                                              gasUsed := Some(r.gasUsed), gasPrice := Some(r.gasPrice))
  {
  }

  /** What of an entry an observation can see. */
  predicate SameClaim(a: Entry, b: Entry) {
    a.index == b.index && a.hash == b.hash && a.gasLimit == b.gasLimit && a.maxFee == b.maxFee && a.maxPriority == b.maxPriority
  }

  /** Nothing that was saved about the outcome influences an observation. */
  lemma ObserveIgnoresSaved(plan: Plan, e: Entry, saved: Entry, a: Answers)
    requires e.index < |plan.actions| && SameClaim(e, saved)
    ensures var p, q := Observe(plan, e, a), Observe(plan, saved, a);
            p.Ok? == q.Ok? && (p.Err? ==> p == q) && (p.Ok? ==> p.value.state == q.value.state && SameClaim(p.value, q.value))
    ensures Proved(plan, e, a) ==> Observe(plan, e, a) == Observe(plan, saved, a)
  {
  }

  // ------------------------------------------------------------ reconciling

  function Demote(entries: seq<Entry>): seq<Entry> {
    seq(|entries|, i requires 0 <= i < |entries| => entries[i].(state := Unknown))
  }

  /** `reconcile` from position `i` on: the first entry that is not confirmed takes all authority from later ones. */
  function Reconcile(plan: Plan, entries: seq<Entry>, answers: nat -> Answers, i: nat): Result<seq<Entry>, Fault>
    requires |plan.actions| == STEPS && ValidJournal(plan, entries) && i <= |entries|
    decreases |entries| - i
  {
    if i == |entries| then Ok(entries)
    else
      match Observe(plan, entries[i], answers(i))
      case Err(fault) => Err(fault)
      case Ok(e) =>
        if e.state == Confirmed then
          assert ValidEntry(plan, entries[i], i);
          Reconcile(plan, entries[i := e], answers, i + 1)
        else Ok(entries[..i] + [e] + Demote(entries[i + 1..]))
  }

  /** Later saved confirmations have no authority while an earlier entry is unresolved. */
  method DemoteLater(saved: seq<Entry>, index: nat) returns (entries: seq<Entry>)
    requires index < |saved|
    ensures entries == saved[..index + 1] + Demote(saved[index + 1..])
  {
    entries := saved;
    var later := index + 1;
    while later < |entries|
      invariant index < later <= |entries| == |saved|
      invariant forall i | 0 <= i < |saved| ::
                  entries[i] == if index < i < later then saved[i].(state := Unknown) else saved[i]
    {
      entries := entries[later := entries[later].(state := Unknown)];
      later := later + 1;
    }
  }

  method ReconcileLoop(plan: Plan, saved: seq<Entry>, answers: nat -> Answers) returns (r: Result<seq<Entry>, Fault>)
    requires |plan.actions| == STEPS && ValidJournal(plan, saved)
    ensures r == Reconcile(plan, saved, answers, 0)
  {
    var entries := saved;
    var index := 0;
    while index < |entries|
      invariant index <= |entries| && ValidJournal(plan, entries)
      invariant Reconcile(plan, saved, answers, 0) == Reconcile(plan, entries, answers, index)
    {
      var seen := Observe(plan, entries[index], answers(index));
      if seen.Err? { return Err(seen.error); }
      if seen.value.state != Confirmed {
        var stopped := DemoteLater(entries[index := seen.value], index);
        assert stopped == entries[..index] + [seen.value] + Demote(entries[index + 1..]);
        return Ok(stopped);
      }
      entries := entries[index := seen.value];
      index := index + 1;
    }
    r := Ok(entries);
  }

  /** A reconciled journal: `k` confirmed entries, then at most one that is unresolved, then only UNKNOWN. */
  ghost predicate IsReconciled(plan: Plan, saved: seq<Entry>, answers: nat -> Answers, after: seq<Entry>, k: nat)
    requires |plan.actions| == STEPS && ValidJournal(plan, saved)
  {
    && |after| == |saved| && k <= |saved|
    && (forall i | 0 <= i < k :: ProvedAt(plan, saved, answers, after, i))
    && (k < |saved| ==> UnresolvedAt(plan, saved, answers, after, k))
    && (forall i | k < i < |saved| :: after[i] == saved[i].(state := Unknown))
  }

  predicate ProvedAt(plan: Plan, saved: seq<Entry>, answers: nat -> Answers, after: seq<Entry>, i: nat)
    requires |plan.actions| == STEPS && ValidJournal(plan, saved) && i < |saved| == |after|
  {
    assert ValidEntry(plan, saved[i], i);
    Proved(plan, saved[i], answers(i)) && Observe(plan, saved[i], answers(i)) == Ok(after[i]) && after[i].state == Confirmed
  }

  predicate UnresolvedAt(plan: Plan, saved: seq<Entry>, answers: nat -> Answers, after: seq<Entry>, k: nat)
    requires |plan.actions| == STEPS && ValidJournal(plan, saved) && k < |saved| == |after|
  {
    assert ValidEntry(plan, saved[k], k);
    Observe(plan, saved[k], answers(k)) == Ok(after[k]) && after[k].state != Confirmed
  }

  /** The result of a reconciliation has that shape, whatever was saved and whatever the chain answered. */
  lemma {:induction false} ReconciledShape(plan: Plan, saved: seq<Entry>, entries: seq<Entry>, answers: nat -> Answers, i: nat)
    returns (k: nat)
    requires |plan.actions| == STEPS && ValidJournal(plan, saved) && ValidJournal(plan, entries) && i <= |entries| == |saved|
    requires forall j | 0 <= j < i :: ProvedAt(plan, saved, answers, entries, j)
    requires entries[i..] == saved[i..]
    requires Reconcile(plan, entries, answers, i).Ok?
    ensures IsReconciled(plan, saved, answers, Reconcile(plan, entries, answers, i).value, k)
    decreases |entries| - i
  {
    if i == |entries| {
      k := i;
    } else {
      assert entries[i] == entries[i..][0] == saved[i..][0] == saved[i];
      assert ValidEntry(plan, entries[i], i);
      var e := Observe(plan, entries[i], answers(i)).value;
      ConfirmedIffProved(plan, entries[i], answers(i));
      ObserveKeepsEntry(plan, entries[i], answers(i));
      hide Observe, Proved;
      if e.state == Confirmed {
        var next := entries[i := e];
        forall j | 0 <= j < i + 1 ensures ProvedAt(plan, saved, answers, next, j) {
          if j < i { assert ProvedAt(plan, saved, answers, entries, j); }
        }
        assert next[i + 1..] == entries[i..][1..] == saved[i + 1..];
        k := ReconciledShape(plan, saved, next, answers, i + 1);
      } else {
        k := i;
        var after := entries[..i] + [e] + Demote(entries[i + 1..]);
        forall j | 0 <= j < i ensures ProvedAt(plan, saved, answers, after, j) {
          assert ProvedAt(plan, saved, answers, entries, j);
        }
        assert entries[i + 1..] == saved[i + 1..] by { assert entries[i..][1..] == saved[i..][1..]; }
        forall j | i < j < |saved| ensures after[j] == saved[j].(state := Unknown) {
          assert after[j] == Demote(entries[i + 1..])[j - i - 1];
        }
      }
    }
  }

  lemma Reconciled(plan: Plan, saved: seq<Entry>, answers: nat -> Answers) returns (k: nat)
    requires |plan.actions| == STEPS && ValidJournal(plan, saved) && Reconcile(plan, saved, answers, 0).Ok?
    ensures IsReconciled(plan, saved, answers, Reconcile(plan, saved, answers, 0).value, k)
  {
    k := ReconciledShape(plan, saved, saved, answers, 0);
  }

  lemma ObserveKeepsEntry(plan: Plan, e: Entry, a: Answers)
    requires e.index < |plan.actions| && ValidEntry(plan, e, e.index) && Observe(plan, e, a).Ok?
    ensures SameClaim(e, Observe(plan, e, a).value) && ValidEntry(plan, Observe(plan, e, a).value, e.index)
  {
  }

  /** Reconciling keeps the journal valid and keeps every hash and fee. */
  lemma {:induction false} ReconcileKeepsJournal(plan: Plan, saved: seq<Entry>, answers: nat -> Answers)
    requires |plan.actions| == STEPS && ValidJournal(plan, saved) && Reconcile(plan, saved, answers, 0).Ok?
    ensures var after := Reconcile(plan, saved, answers, 0).value;
            && |after| == |saved| && ValidJournal(plan, after)
            && forall i | 0 <= i < |saved| :: SameClaim(saved[i], after[i])
  {
    var k := Reconciled(plan, saved, answers);
    var after := Reconcile(plan, saved, answers, 0).value;
    forall i | 0 <= i < |saved| ensures SameClaim(saved[i], after[i]) && ValidEntry(plan, after[i], i) {
      assert ValidEntry(plan, saved[i], i);
      if i < k { assert ProvedAt(plan, saved, answers, after, i); }
      if i <= k { ObserveKeepsEntry(plan, saved[i], answers(i)); }
    }
  }

  ghost predicate SameClaims(p: seq<Entry>, q: seq<Entry>) {
    |p| == |q| && forall i | 0 <= i < |p| :: SameClaim(p[i], q[i])
  }

  /**
  Saved confirmations have no authority: journals that agree on hashes and fees
  reconcile to the same states, and to the same confirmed entries.
  */
  lemma {:induction false} SavedStatesDoNotMatter(plan: Plan, p: seq<Entry>, q: seq<Entry>, answers: nat -> Answers, i: nat)
    requires |plan.actions| == STEPS && ValidJournal(plan, p) && ValidJournal(plan, q) && SameClaims(p, q) && i <= |p|
    requires forall j | 0 <= j < i :: p[j] == q[j]
    ensures var a, b := Reconcile(plan, p, answers, i), Reconcile(plan, q, answers, i);
            && a.Ok? == b.Ok? && (a.Err? ==> a == b)
            && (a.Ok? ==> |a.value| == |b.value| && forall j | 0 <= j < |a.value| :: Agree(a.value[j], b.value[j]))
    decreases |p| - i
  {
    if i < |p| {
      assert ValidEntry(plan, p[i], i) && ValidEntry(plan, q[i], i) && SameClaim(p[i], q[i]);
      ObserveIgnoresSaved(plan, p[i], q[i], answers(i));
      var seen := Observe(plan, p[i], answers(i));
      if seen.Ok? {
        ConfirmedIffProved(plan, p[i], answers(i));
        if seen.value.state == Confirmed {
          ObserveKeepsEntry(plan, p[i], answers(i));
          SavedStatesDoNotMatter(plan, p[i := seen.value], q[i := seen.value], answers, i + 1);
        } else {
          AgreeAfterStop(p, q, i, seen.value, Observe(plan, q[i], answers(i)).value);
        }
      }
    }
  }

  predicate Agree(a: Entry, b: Entry) { a.state == b.state && (a.state == Confirmed ==> a == b) }

  lemma AgreeAfterStop(p: seq<Entry>, q: seq<Entry>, i: nat, e: Entry, f: Entry)
    requires i < |p| == |q| && (forall j | 0 <= j < i :: p[j] == q[j]) && e.state == f.state != Confirmed
    ensures var a, b := p[..i] + [e] + Demote(p[i + 1..]), q[..i] + [f] + Demote(q[i + 1..]);
            |a| == |b| && forall j | 0 <= j < |a| :: Agree(a[j], b[j])
  {
  }

  // ------------------------------------------------------------ exported receipts

  predicate AllConfirmed(entries: seq<Entry>) { forall i | 0 <= i < |entries| :: entries[i].state == Confirmed }

  predicate AllHashed(entries: seq<Entry>) { forall i | 0 <= i < |entries| :: entries[i].hash.Some? }

  /** `verificationReceipts`. */
  function Receipts(entries: seq<Entry>): Result<seq<Hash>, Fault> {
    if |entries| == STEPS && AllConfirmed(entries) && AllHashed(entries)
    then Ok(seq(|entries|, i requires 0 <= i < |entries| => entries[i].hash.value))
    else Err(ReceiptsRequired)
  }

  /** The answers of one chain that does not change: each hash has one answer. */
  ghost predicate OneChain(entries: seq<Entry>, answers: nat -> Answers, chain: Hash -> Answers) {
    forall i | 0 <= i < |entries| && entries[i].hash.Some? :: answers(i) == chain(entries[i].hash.value)
  }

  /** Each receipt is of the plan's own action at its nonce, and no hash is used twice. */
  ghost predicate ProvesPlan(plan: Plan, hashes: seq<Hash>, chain: Hash -> Answers)
    requires |plan.actions| == STEPS
  {
    && |hashes| == STEPS
    && (forall i | 0 <= i < STEPS :: ProvesAction(plan, hashes, chain, i))
    && (forall i, j | 0 <= i < j < STEPS :: hashes[i] != hashes[j])
  }

  predicate ProvesAction(plan: Plan, hashes: seq<Hash>, chain: Hash -> Answers, i: nat)
    requires |plan.actions| == STEPS == |hashes| && i < STEPS
  {
    var a := chain(hashes[i]);
    && a.tx.Some? && a.tx.value.hash == hashes[i] && a.tx.value.from == plan.admin && a.tx.value.nonce == i
    && a.tx.value.to == plan.actions[i].to && a.tx.value.input == plan.actions[i].data && a.tx.value.value == plan.actions[i].value
    && a.receipt.Some? && a.receipt.value.hash == hashes[i] && a.receipt.value.status == 1
  }

  /** Receipts exported after a reconciliation prove the whole plan. */
  lemma {:induction false} ReconciledReceipts(plan: Plan, saved: seq<Entry>, answers: nat -> Answers, chain: Hash -> Answers)
    requires |plan.actions| == STEPS && ValidJournal(plan, saved) && OneChain(saved, answers, chain)
    requires Reconcile(plan, saved, answers, 0).Ok? && Receipts(Reconcile(plan, saved, answers, 0).value).Ok?
    ensures ProvesPlan(plan, Receipts(Reconcile(plan, saved, answers, 0).value).value, chain)
  {
    var k := Reconciled(plan, saved, answers);
    ReconcileKeepsJournal(plan, saved, answers);
    var after := Reconcile(plan, saved, answers, 0).value;
    var hashes := Receipts(after).value;
    hide Reconcile, Observe;
    forall i | 0 <= i < STEPS ensures ProvesAction(plan, hashes, chain, i) {
      assert after[i].state == Confirmed;
      assert i < k;
      assert ProvedAt(plan, saved, answers, after, i) && SameClaim(saved[i], after[i]) && ValidEntry(plan, saved[i], i);
    }
    forall i, j | 0 <= i < j < STEPS ensures hashes[i] != hashes[j] {
      assert ProvesAction(plan, hashes, chain, i) && ProvesAction(plan, hashes, chain, j);
    }
  }

  /** A journal as it may come from storage: every entry confirmed under one hash. */
  function Forged(plan: Plan, hash: Hash): seq<Entry> {
    seq(STEPS, i requires 0 <= i => Entry(i, Confirmed, plan.budget.gas, plan.budget.fee, 0, Some(hash), None, None, None, None))
  }

  /** Exactly when reconciling the journal would leave it fully confirmed, every entry of it is proved by the chain. */
  lemma {:induction false} ConfirmedIffAllProved(plan: Plan, entries: seq<Entry>, answers: nat -> Answers, i: nat)
    requires |plan.actions| == STEPS && ValidJournal(plan, entries) && i <= |entries|
    requires forall j | 0 <= j < i :: entries[j].state == Confirmed
    ensures (Reconcile(plan, entries, answers, i).Ok? && AllConfirmed(Reconcile(plan, entries, answers, i).value)) <==>
            (forall j | i <= j < |entries| :: ProvedEntry(plan, entries[j], answers(j)))
    decreases |entries| - i
  {
    if i < |entries| {
      assert ValidEntry(plan, entries[i], i);
      ConfirmedIffProved(plan, entries[i], answers(i));
      var seen := Observe(plan, entries[i], answers(i));
      if seen.Ok? && seen.value.state == Confirmed {
        var next := entries[i := seen.value];
        ConfirmedIffAllProved(plan, next, answers, i + 1);
        assert forall j | i < j < |entries| :: next[j] == entries[j];
      } else if seen.Ok? {
        assert (entries[..i] + [seen.value] + Demote(entries[i + 1..]))[i] == seen.value;
      }
    }
  }

  predicate ProvedEntry(plan: Plan, e: Entry, a: Answers)
    requires |plan.actions| == STEPS
  {
    e.index < STEPS && Proved(plan, e, a)
  }

  /** The exported receipts are backed by the chain: it proves every entry under the very hash that is exported for it. */
  ghost predicate Backed(plan: Plan, entries: seq<Entry>, chain: Hash -> Answers)
    requires |plan.actions| == STEPS && Receipts(entries).Ok?
  {
    forall i | 0 <= i < STEPS :: ProvedEntry(plan, entries[i], chain(Receipts(entries).value[i]))
  }

  lemma BackedProvesPlan(plan: Plan, entries: seq<Entry>, chain: Hash -> Answers)
    requires |plan.actions| == STEPS && ValidJournal(plan, entries) && Receipts(entries).Ok? && Backed(plan, entries, chain)
    ensures ProvesPlan(plan, Receipts(entries).value, chain)
  {
    var hashes := Receipts(entries).value;
    forall i | 0 <= i < STEPS ensures ProvesAction(plan, hashes, chain, i) {
      assert ValidEntry(plan, entries[i], i) && ProvedEntry(plan, entries[i], chain(hashes[i]));
    }
    forall i, j | 0 <= i < j < STEPS ensures hashes[i] != hashes[j] {
      assert ProvesAction(plan, hashes, chain, i) && ProvesAction(plan, hashes, chain, j);
    }
  }

  /**
  Loading alone checks no chain: a forged journal is accepted and exports one hash 41 times,
  which no chain backs.
  */
  lemma LoadedReceiptsProveNothing(plan: Plan, hash: Hash, chain: Hash -> Answers)
    requires ValidPlan(plan)
    ensures ValidJournal(plan, Forged(plan, hash)) && Receipts(Forged(plan, hash)).Ok?
    ensures !Backed(plan, Forged(plan, hash), chain) && !ProvesPlan(plan, Receipts(Forged(plan, hash)).value, chain)
  {
    var entries := Forged(plan, hash);
    var hashes := Receipts(entries).value;
    assert hashes[0] == hashes[1];
    if Backed(plan, entries, chain) { BackedProvesPlan(plan, entries, chain); }
  }

  /** Receipts read from a journal are backed exactly when reconciling it against that chain leaves it fully confirmed. */
  lemma {:induction false} ReceiptsBackedIff(plan: Plan, entries: seq<Entry>, answers: nat -> Answers, chain: Hash -> Answers)
    requires |plan.actions| == STEPS && ValidJournal(plan, entries) && OneChain(entries, answers, chain)
    requires Receipts(entries).Ok?
    ensures Backed(plan, entries, chain) <==>
            Reconcile(plan, entries, answers, 0).Ok? && AllConfirmed(Reconcile(plan, entries, answers, 0).value)
  {
    hide Reconcile, Observe, ProvedEntry, ValidJournal;
    ConfirmedIffAllProved(plan, entries, answers, 0);
    assert forall i | 0 <= i < STEPS :: answers(i) == chain(Receipts(entries).value[i]);
  }

  // ------------------------------------------------------------ budgets

  function Cost(e: Entry): nat {
    if e.gasUsed.Some? && e.gasPrice.Some? then e.gasUsed.value * e.gasPrice.value else 0
  }

  /** The running total of `reconcile`, over confirmed entries. */
  function Spent(entries: seq<Entry>): nat {
    if entries == [] then 0
    else
      var last := entries[|entries| - 1];
      Spent(entries[..|entries| - 1]) + if last.state == Confirmed then Cost(last) else 0
  }

  function Unit(plan: Plan): nat { plan.budget.gas * plan.budget.fee }

  predicate CostBounded(plan: Plan, e: Entry) { e.state == Confirmed ==> Cost(e) <= Unit(plan) }

  lemma ProductBound(a: nat, b: nat, x: nat, y: nat)
    requires a <= x && b <= y
    ensures a * b <= x * y
  {
    assert a * b <= x * b;
    assert x * b <= x * y;
  }

  lemma {:induction false} SpentBound(plan: Plan, entries: seq<Entry>)
    requires forall i | 0 <= i < |entries| :: CostBounded(plan, entries[i])
    ensures Spent(entries) <= |entries| * Unit(plan)
  {
    if entries != [] {
      var n := |entries| - 1;
      SpentBound(plan, entries[..n]);
      assert CostBounded(plan, entries[n]);
      assert (n + 1) * Unit(plan) == n * Unit(plan) + Unit(plan);
    }
  }

  lemma {:induction false} ReconciledCosts(plan: Plan, saved: seq<Entry>, answers: nat -> Answers)
    requires |plan.actions| == STEPS && ValidJournal(plan, saved) && Reconcile(plan, saved, answers, 0).Ok?
    ensures var after := Reconcile(plan, saved, answers, 0).value;
            |after| == |saved| && forall i | 0 <= i < |after| :: CostBounded(plan, after[i])
  {
    var k := Reconciled(plan, saved, answers);
    var after := Reconcile(plan, saved, answers, 0).value;
    hide Reconcile, Observe;
    forall i | 0 <= i < |after| ensures CostBounded(plan, after[i]) {
      if i < k {
        assert ProvedAt(plan, saved, answers, after, i) && ValidEntry(plan, saved[i], i);
        ConfirmedIffProved(plan, saved[i], answers(i));
        var r := answers(i).receipt.value;
        ProductBound(r.gasUsed, r.gasPrice, plan.budget.gas, plan.budget.fee);
      }
    }
  }

  /** Neither total-gas guard can fire after a reconciliation of a valid plan. */
  lemma {:induction false} GasGuardsNeverFire(plan: Plan, saved: seq<Entry>, answers: nat -> Answers)
    requires ValidPlan(plan) && ValidJournal(plan, saved) && Reconcile(plan, saved, answers, 0).Ok?
    ensures var after := Reconcile(plan, saved, answers, 0).value;
            && Spent(after) <= plan.budget.totalGas
            && |after| <= STEPS && Spent(after) + (STEPS - |after|) * plan.budget.gas * plan.budget.fee <= plan.budget.totalGas
  {
    ReconciledCosts(plan, saved, answers);
    var after := Reconcile(plan, saved, answers, 0).value;
    SpentBound(plan, after);
    hide Reconcile, ValidJournal, TotalValue, Spent;
    WithinTotal(|after|, plan.budget.gas, plan.budget.fee, Spent(after), plan.budget.totalGas);
  }

  lemma WithinTotal(n: nat, gas: nat, fee: nat, spent: nat, total: nat)
    requires n <= STEPS && STEPS * gas * fee <= total && spent <= n * (gas * fee)
    ensures spent + (STEPS - n) * gas * fee <= total && spent <= total
  {
    var unit := gas * fee;
    assert (STEPS - n) * gas * fee == (STEPS - n) * unit;
    assert (STEPS - n) * unit == STEPS * unit - n * unit;
    assert 0 <= (STEPS - n) * unit;
  }

  /** The funding check of `sendNext` before step `k`. */
  predicate Funded(plan: Plan, k: nat, balance: int)
    requires k <= |plan.actions| == STEPS
  {
    balance >= (STEPS - k) * Unit(plan) + TotalValue(plan.actions[k..]) + plan.budget.retained
  }

  /** Step `k` of the plan took no more than its value and its gas within the entry's limits. */
  predicate Debited(plan: Plan, k: nat, e: Entry, before: int, after: int)
    requires k < |plan.actions| == STEPS
  {
    && ValidEntry(plan, e, k) && e.gasUsed.Some? && e.gasPrice.Some?
    && e.gasUsed.value <= e.gasLimit && e.gasPrice.value <= e.maxFee
    && after >= before - plan.actions[k].value - e.gasUsed.value * e.gasPrice.value
  }

  lemma FundingCarriesOver(plan: Plan, k: nat, e: Entry, before: int, after: int)
    requires k < |plan.actions| == STEPS && Funded(plan, k, before) && Debited(plan, k, e, before, after)
    ensures Funded(plan, k + 1, after)
  {
    ProductBound(e.gasUsed.value, e.gasPrice.value, plan.budget.gas, plan.budget.fee);
    assert plan.actions[k..][1..] == plan.actions[k + 1..];
    assert (STEPS - k) * Unit(plan) == (STEPS - (k + 1)) * Unit(plan) + Unit(plan);
  }

  /** Once the funding check passes, it passes at every later step, and the retained minimum is left at the end. */
  lemma {:induction false} FundingHolds(plan: Plan, k: nat, n: nat, entries: seq<Entry>, balances: seq<int>)
    requires |plan.actions| == STEPS && k <= n <= STEPS && |balances| > n && |entries| >= n && Funded(plan, k, balances[k])
    requires forall i | k <= i < n :: Debited(plan, i, entries[i], balances[i], balances[i + 1])
    ensures Funded(plan, n, balances[n]) && (n == STEPS ==> balances[n] >= plan.budget.retained)
    decreases n - k
  {
    if k < n {
      assert Debited(plan, k, entries[k], balances[k], balances[k + 1]);
      FundingCarriesOver(plan, k, entries[k], balances[k], balances[k + 1]);
      FundingHolds(plan, k + 1, n, entries, balances);
    }
  }
}
