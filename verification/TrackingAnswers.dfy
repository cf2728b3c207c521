/** What a tracking call must store and return for each answer of the chain and of the integration. */
module TrackingAnswers {
  import opened Results
  import opened Json
  import opened ChainTypes
  import opened ChainIndex
  import opened Tracking
  import opened SyncRuns
  import O = Operations
  import Q = OperationQueue

  /** The operation with the receipt of its transaction. */
  function Receipted(o: O.Operation, r: ReceiptReply): O.Operation {
    o.(state := if r.success then O.Mined else O.State.Reverted,
       receipt := Some(if r.success then O.Succeeded else O.Failed),
       blockNumber := Some(r.block.number), blockHash := Some(r.block.hash), txIndex := r.txIndex,
       confirmations := 0, canonical := true, reconciled := false, confirmedAt := None,
       error := if r.success then None else Some(O.TransactionReverted))
  }

  /** The operation whose events or contract state are not what the integration expects. */
  function Mismatched(o: O.Operation, stateMismatch: bool): O.Operation {
    o.(state := O.ReconciliationFailed, reconciled := false, confirmedAt := None,
       error := Some(if stateMismatch then O.ContractStateMismatch else O.EventEvidenceMismatch))
  }

  /** The operation that matches, `depth` blocks deep. */
  function Matched(o: O.Operation, depth: nat, softReady: nat, at: O.Time): O.Operation {
    o.(state := if depth >= softReady then O.Confirmed else O.Confirming, confirmations := depth, reconciled := true,
       confirmedAt := if depth >= softReady then Some(at) else None, error := None)
  }

  predicate Pending(o: O.Operation) { o.state == O.Submitted || o.state == O.Reorged }

  predicate Reconcilable(o: O.Operation) { o.state == O.Mined || o.state == O.Confirming || o.state == O.ReconciliationFailed }

  /** A trackable operation on a served store whose checkpoint is the synchronized head. */
  ghost predicate InReach(cfg: Config, ix: Index, ops: OpTable, id: string, latest: Ref) {
    && Inv(cfg.contract, ix) && OpsInv(cfg.contract, ix.chain, ops) && Served(ix) && Checkpoint(ix) == Some(latest)
    && id in ops && ValidId(id) && Trackable(cfg, ops[id])
  }

  /** The chain's answer proves nothing about the operation now. */
  predicate NoEvidence(ix: Index, reply: Option<ReceiptReply>) {
    reply.None? || (reply.value.matches && !InChain(ix.chain, reply.value.block.number, reply.value.block.hash))
  }

  /** A receipt of the operation in a block of the chain. */
  predicate Evidence(ix: Index, reply: Option<ReceiptReply>) {
    reply.Some? && reply.value.matches && InChain(ix.chain, reply.value.block.number, reply.value.block.hash)
  }

  /** After its receipt, the operation that goes on to the integration. */
  function Included(o: O.Operation, r: ReceiptReply): O.Operation { if Pending(o) then Receipted(o, r) else o }

  /** A match can be recorded: the depth has not gone down and no other operation is reconciled with the transaction. */
  predicate CanConfirm(cfg: Config, ops: OpTable, o: O.Operation, depth: nat, at: O.Time) {
    o.confirmations <= depth && !Taken(ops, o) && (depth >= cfg.softReady ==> at.parses)
  }

  /** What is stored under the id afterwards, and what the call returns, if it does not fail. */
  ghost predicate Answered(cfg: Config, ix: Index, ops: OpTable, id: string, latest: Ref, reply: Option<ReceiptReply>,
                           verdict: TrackerInput, after: OpTable, result: Option<O.Operation>)
    requires id in ops && verdict.Verdict?
  {
    var o := ops[id];
    if NoEvidence(ix, reply) then after == ops && result == Some(o)
    else if !Evidence(ix, reply) then after == ops && result == None
    else
      var r := reply.value;
      var now := Included(o, r);
      if !r.success || !Reconcilable(now) then after == ops[id := now] && result == Some(now)
      else if !verdict.matched then
        var next := if now.state == O.ReconciliationFailed then now else Mismatched(now, verdict.stateMismatch);
        after == ops[id := next] && result == Some(next)
      else
        && r.block.number <= latest.number
        && var depth := latest.number + 1 - r.block.number;
           if CanConfirm(cfg, ops, now, depth, verdict.at) then
             var next := Matched(now, depth, cfg.softReady, verdict.at);
             after == ops[id := next] && result == Some(next)
           else after == ops[id := now] && result == None
  }

  // ------------------------------------------------------------ the turns give these answers

  lemma ReceiptTransition(o: O.Operation, r: ReceiptReply)
    requires O.ValidEvidence(o) && Pending(o)
    ensures O.Transition(o, if r.success then O.ToMined(r.block.number, r.block.hash, r.txIndex)
                            else O.ToReverted(r.block.number, r.block.hash, r.txIndex)) == Some(Receipted(o, r))
    ensures O.ValidEvidence(Receipted(o, r))
  {
  }

  lemma ChainIsSafe(c: Contract, ix: Index, n: nat, hash: Hash)
    requires Inv(c, ix) && InChain(ix.chain, n, hash)
    ensures n <= Tip(ix.chain).number && n <= MAX_SAFE
  {
  }

  /** An unreconciled next state of a stored operation can always be saved; a reconciled one unless the transaction is taken. */
  lemma SaveIsAdmitted(cfg: Config, ix: Index, ops: OpTable, id: string, latest: Ref, o: O.Operation, next: O.Operation)
    requires Inv(cfg.contract, ix) && Served(ix) && Checkpoint(ix) == Some(latest) && ValidId(id)
    requires id in ops && ops[id] == o && o.id == id && O.ValidEvidence(next)
    requires O.SameIdentity(o, next) && next.tx == o.tx && o.tx.Some?
    requires next.blockNumber.Some? && next.blockNumber.value <= MAX_SAFE
    ensures CanSaveAt(ix, ops, next, o, latest) <==> !(next.reconciled && Taken(ops, next))
  {
    hide O.ValidEvidence, ValidId, Taken;
  }

  lemma ReceiptAnswer(cfg: Config, ix: Index, ops: OpTable, id: string, latest: Ref, reply: Option<ReceiptReply>)
    requires InReach(cfg, ix, ops, id, latest)
    ensures var o := ops[id];
            var out := ReceiptTurn(ix, ops, latest, o, reply);
            if !Evidence(ix, reply) then out == Closing
            else
              var r := reply.value;
              var now := Included(o, r);
              && out.saved == (if Pending(o) then Some(now) else None)
              && out.phase == (if r.success && Reconcilable(now) then AwaitVerdict(latest, now, r.block) else Closed)
  {
    var o := ops[id];
    if Evidence(ix, reply) && Pending(o) {
      var r := reply.value;
      ReceiptTransition(o, r);
      ChainIsSafe(cfg.contract, ix, r.block.number, r.block.hash);
      SaveIsAdmitted(cfg, ix, ops, id, latest, o, Receipted(o, r));
      hide Inv, OpsInv, CanSaveAt, O.Transition, O.ValidEvidence;
    }
  }

  lemma VerdictTransition(cfg: Config, o: O.Operation, latest: Ref, block: Ref, verdict: TrackerInput)
    requires O.ValidEvidence(o) && Reconcilable(o) && block.number <= latest.number && verdict.Verdict?
    ensures o.state != O.ReconciliationFailed ==>
              O.Transition(o, O.ToReconciliationFailed(verdict.stateMismatch)) == Some(Mismatched(o, verdict.stateMismatch)) &&
              O.ValidEvidence(Mismatched(o, verdict.stateMismatch))
    ensures var depth := latest.number + 1 - block.number;
            var next := Matched(o, depth, cfg.softReady, verdict.at);
            if o.confirmations <= depth && (depth >= cfg.softReady ==> verdict.at.parses)
            then Reconciled(cfg, latest, o, block, verdict.at) == Some(next) && O.ValidEvidence(next)
            else Reconciled(cfg, latest, o, block, verdict.at) == None
  {
  }

  lemma VerdictAnswer(cfg: Config, ix: Index, ops: OpTable, id: string, latest: Ref, block: Ref, verdict: TrackerInput)
    requires Inv(cfg.contract, ix) && Served(ix) && Checkpoint(ix) == Some(latest) && ValidId(id) && verdict.Verdict?
    requires id in ops && ops[id].id == id && ops[id].tx.Some? && O.ValidEvidence(ops[id]) && Reconcilable(ops[id])
    requires ops[id].blockNumber.Some? && ops[id].blockNumber.value <= MAX_SAFE && InChain(ix.chain, block.number, block.hash)
    ensures block.number <= latest.number
    ensures var o := ops[id];
            var out := VerdictTurn(cfg, ix, ops, Tracker(id, latest, AwaitVerdict(latest, o, block)), verdict);
            var depth := latest.number + 1 - block.number;
            && out.phase == Closed
            && out.saved == (if verdict.matched
                             then if CanConfirm(cfg, ops, o, depth, verdict.at) then Some(Matched(o, depth, cfg.softReady, verdict.at)) else None
                             else if o.state == O.ReconciliationFailed then None else Some(Mismatched(o, verdict.stateMismatch)))
  {
    var o := ops[id];
    ChainIsSafe(cfg.contract, ix, block.number, block.hash);
    VerdictTransition(cfg, o, latest, block, verdict);
    var next := if verdict.matched then Matched(o, latest.number + 1 - block.number, cfg.softReady, verdict.at)
                else Mismatched(o, verdict.stateMismatch);
    assert Taken(ops, next) <==> Taken(ops, o);
    if O.ValidEvidence(next) { SaveIsAdmitted(cfg, ix, ops, id, latest, o, next); }
    hide Inv, CanSaveAt, O.Transition, O.ValidEvidence, Taken, Reconciled;
  }

  /** On a served store a tracker opens, and its turns store what the answers settle. */
  lemma CallAnswers(cfg: Config, ix: Index, ops: OpTable, id: string, latest: Ref, reply: Option<ReceiptReply>, verdict: TrackerInput)
    requires InReach(cfg, ix, ops, id, latest) && verdict.Verdict?
    ensures OpenTurn(cfg, ix, ops, Tracker(id, latest, Opening)) == Tracked(AwaitReceipt(latest, ops[id]), None)
    ensures var o := ops[id];
            var taken := ReceiptTurn(ix, ops, latest, o, reply);
            var first := if taken.saved.Some? then ops[taken.saved.value.id := taken.saved.value] else ops;
            var now := if taken.saved.Some? then taken.saved.value else o;
            var fails := !(NoEvidence(ix, reply) || (Evidence(ix, reply) && (Pending(o) ==> taken.saved.Some?)));
            if taken.phase.Closed? then
              Answered(cfg, ix, ops, id, latest, reply, verdict, first, if fails then None else Some(now))
            else
              && !fails && taken.phase.AwaitVerdict? && taken.phase.operation == now
              && var said := VerdictTurn(cfg, ix, first, Tracker(id, latest, taken.phase), verdict);
                 var last := if said.saved.Some? then first[said.saved.value.id := said.saved.value] else first;
                 var result := if said.saved.Some? then Some(said.saved.value)
                               else if !verdict.matched && now.state == O.ReconciliationFailed then Some(now) else None;
                 Answered(cfg, ix, ops, id, latest, reply, verdict, last, result)
  {
    var o := ops[id];
    assert o.id == id;
    ReceiptAnswer(cfg, ix, ops, id, latest, reply);
    if Evidence(ix, reply) {
      var r := reply.value;
      var now := Included(o, r);
      var first := ops[id := now];
      assert Pending(o) || first == ops;
      if r.success && Reconcilable(now) {
        GoesOn(cfg, ix, ops, id, latest, r);
        TakenElsewhere(ops, id, now, now);
        VerdictAnswer(cfg, ix, first, id, latest, r.block, verdict);
        hide Inv, OpsInv, O.ValidEvidence, ReceiptTurn, VerdictTurn, Taken, InChain;
        var depth := latest.number + 1 - r.block.number;
        assert first[id := Mismatched(now, verdict.stateMismatch)] == ops[id := Mismatched(now, verdict.stateMismatch)];
        assert first[id := Matched(now, depth, cfg.softReady, verdict.at)] == ops[id := Matched(now, depth, cfg.softReady, verdict.at)];
      }
    }
  }

  /** An operation's own row does not take its transaction. */
  lemma TakenElsewhere(ops: OpTable, id: string, row: O.Operation, o: O.Operation)
    requires o.id == id
    ensures Taken(ops[id := row], o) <==> Taken(ops, o)
  {
    if x :| x in ops && x != o.id && ops[x].reconciled && ops[x].chainId == o.chainId && ops[x].tx == o.tx {
      assert ops[id := row][x] == ops[x];
    }
  }

  lemma GoesOn(cfg: Config, ix: Index, ops: OpTable, id: string, latest: Ref, r: ReceiptReply)
    requires InReach(cfg, ix, ops, id, latest) && Evidence(ix, Some(r)) && r.success && Reconcilable(Included(ops[id], r))
    ensures var now := Included(ops[id], r);
            && now.id == id && now.tx.Some? && O.ValidEvidence(now)
            && now.blockNumber.Some? && now.blockNumber.value <= MAX_SAFE
  {
    var o := ops[id];
    if Pending(o) {
      ReceiptTransition(o, r);
      ChainIsSafe(cfg.contract, ix, r.block.number, r.block.hash);
    } else {
      O.CanonicalIsSettled(o);
      ChainIsSafe(cfg.contract, ix, o.blockNumber.value, o.blockHash.value);
    }
  }

  // ------------------------------------------------------------ which operations are worth tracking

  /** Some answer of the chain and the integration makes a tracking call change the operation. */
  ghost predicate CanChange(cfg: Config, ix: Index, ops: OpTable, id: string, latest: Ref)
    requires id in ops
  {
    exists reply: Option<ReceiptReply>, verdict: TrackerInput, after: OpTable, result: Option<O.Operation> ::
      verdict.Verdict? && Answered(cfg, ix, ops, id, latest, reply, verdict, after, result) && after != ops
  }

  lemma Changes(cfg: Config, ix: Index, ops: OpTable, id: string, latest: Ref, r: ReceiptReply, matched: bool, next: O.Operation)
    requires InReach(cfg, ix, ops, id, latest) && Evidence(ix, Some(r)) && next != ops[id]
    requires Answered(cfg, ix, ops, id, latest, Some(r), Verdict(matched, false, O.Time("", true)), ops[id := next], Some(next))
    ensures CanChange(cfg, ix, ops, id, latest)
  {
    assert ops[id := next][id] == next;
  }

  lemma DepthWithinChain(c: Contract, ix: Index, n: nat, hash: Hash)
    requires Inv(c, ix) && InChain(ix.chain, n, hash)
    ensures n <= Tip(ix.chain).number && Tip(ix.chain).number + 1 - n <= |ix.chain|
    ensures var base := ix.chain[0].block; InChain(ix.chain, base.number, base.hash) && Tip(ix.chain).number + 1 - base.number == |ix.chain|
  {
  }

  lemma TipInChain(c: Contract, ix: Index)
    requires Inv(c, ix) && ix.chain != []
    ensures InChain(ix.chain, Tip(ix.chain).number, Tip(ix.chain).hash)
  {
  }

  /** The states of the query, where a failed reconciliation needs a long enough chain and a free transaction. */
  predicate Movable(ix: Index, ops: OpTable, o: O.Operation) {
    && Q.IsTrackable(o)
    && (o.state == O.ReconciliationFailed ==> o.confirmations <= |ix.chain| && !Taken(ops, o))
  }

  lemma MovableChanges(cfg: Config, ix: Index, ops: OpTable, id: string, latest: Ref)
    requires InReach(cfg, ix, ops, id, latest) && Movable(ix, ops, ops[id])
    ensures CanChange(cfg, ix, ops, id, latest)
  {
    var o := ops[id];
    TipInChain(cfg.contract, ix);
    DepthWithinChain(cfg.contract, ix, latest.number, latest.hash);
    hide Inv, OpsInv, Taken, InChain, CanChange;
    if Pending(o) {
      var r := ReceiptReply(latest, None, false, true);
      Changes(cfg, ix, ops, id, latest, r, false, Receipted(o, r));
    } else if o.state == O.ReconciliationFailed {
      var base := ix.chain[0].block;
      var r := ReceiptReply(Ref(base.number, base.hash), None, true, true);
      Changes(cfg, ix, ops, id, latest, r, true, Matched(o, |ix.chain|, cfg.softReady, O.Time("", true)));
    } else {
      var r := ReceiptReply(latest, None, true, true);
      Changes(cfg, ix, ops, id, latest, r, false, Mismatched(o, false));
    }
  }

  lemma OnlyMovableChanges(cfg: Config, ix: Index, ops: OpTable, id: string, latest: Ref, reply: Option<ReceiptReply>,
                           verdict: TrackerInput, after: OpTable, result: Option<O.Operation>)
    requires InReach(cfg, ix, ops, id, latest) && verdict.Verdict?
    requires Answered(cfg, ix, ops, id, latest, reply, verdict, after, result) && after != ops
    ensures Movable(ix, ops, ops[id])
  {
    assert Evidence(ix, reply);
    DepthWithinChain(cfg.contract, ix, reply.value.block.number, reply.value.block.hash);
    hide Inv, OpsInv, Taken, InChain;
    assert ops[id := ops[id]] == ops;
  }

  /** The states of the query are the right ones: an operation can still change exactly when it is movable. */
  lemma TrackableIffCanChange(cfg: Config, ix: Index, ops: OpTable, id: string, latest: Ref)
    requires InReach(cfg, ix, ops, id, latest)
    ensures CanChange(cfg, ix, ops, id, latest) <==>
            Q.IsTrackable(ops[id]) &&
            (ops[id].state == O.ReconciliationFailed ==> ops[id].confirmations <= |ix.chain| && !Taken(ops, ops[id]))
  {
    hide Inv, OpsInv, Answered;
    if Movable(ix, ops, ops[id]) { MovableChanges(cfg, ix, ops, id, latest); }
    if CanChange(cfg, ix, ops, id, latest) {
      var reply: Option<ReceiptReply>, verdict: TrackerInput, after: OpTable, result: Option<O.Operation> :|
        verdict.Verdict? && Answered(cfg, ix, ops, id, latest, reply, verdict, after, result) && after != ops;
      OnlyMovableChanges(cfg, ix, ops, id, latest, reply, verdict, after, result);
    }
  }
}
