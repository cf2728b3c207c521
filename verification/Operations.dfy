/** The life of a tracked wallet operation and the evidence that each state must carry. */
module Operations {
  import opened Results

  type Hash = string
  type Address = string

  datatype State =
    | AwaitingSignature | Submitted | Mined | Confirming | Confirmed | Rejected
    | Reverted | Replaced | Dropped | Reorged | ReconciliationFailed

  datatype ErrorCode =
    | WalletRejected | TransactionReverted | TransactionReplaced | TransactionDropped
    | ChainReorg | EventEvidenceMismatch | ContractStateMismatch | RpcUnavailable

  datatype Receipt = Succeeded | Failed

  /** A time text, and whether `Date.parse` accepts it. */
  datatype Time = Time(text: string, parses: bool)

  datatype Operation = Operation(
    id: string,
    chainId: nat,
    owner: Address,
    target: Address,
    calldata: Option<string>,
    state: State,
    tx: Option<Hash>,
    submittedAt: Option<Time>,
    blockNumber: Option<nat>,
    blockHash: Option<Hash>,
    txIndex: Option<nat>,
    receipt: Option<Receipt>,
    confirmations: nat,
    replacement: Option<Hash>,
    canonical: bool,
    reconciled: bool,
    confirmedAt: Option<Time>,
    error: Option<ErrorCode>)

  predicate ValidTime(t: Option<Time>) { t.Some? && t.value.parses }

  // ------------------------------------------------------------ evidence

  predicate Sent(o: Operation) { o.tx.Some? && ValidTime(o.submittedAt) }

  predicate NoBlock(o: Operation) {
    o.blockNumber.None? && o.blockHash.None? && o.txIndex.None? && o.receipt.None?
  }

  predicate InBlock(o: Operation) { o.blockNumber.Some? && o.blockHash.Some? && o.receipt.Some? }

  predicate BasePending(o: Operation) { o.confirmedAt.None? && !o.canonical && !o.reconciled }

  predicate PendingOrDisplaced(o: Operation) { (NoBlock(o) && o.confirmations == 0) || InBlock(o) }

  /** Exactly the operations that `validateOperationEvidence` lets through. */
  predicate ValidEvidence(o: Operation) {
    match o.state
    case AwaitingSignature =>
      o.tx.None? && o.submittedAt.None? && NoBlock(o) && o.confirmations == 0 && o.replacement.None? &&
      BasePending(o) && o.error.None?
    case Submitted =>
      Sent(o) && NoBlock(o) && o.confirmations == 0 && o.replacement.None? && BasePending(o) && o.error.None?
    case Mined =>
      Sent(o) && InBlock(o) && o.receipt.value == Succeeded && o.confirmations == 0 && o.replacement.None? &&
      o.canonical && !o.reconciled && o.confirmedAt.None? && o.error.None?
    case Confirming =>
      Sent(o) && InBlock(o) && o.receipt.value == Succeeded && o.replacement.None? && o.canonical &&
      o.confirmedAt.None? && o.error.None?
    case Confirmed =>
      Sent(o) && InBlock(o) && o.receipt.value == Succeeded && o.replacement.None? && o.canonical && o.reconciled &&
      ValidTime(o.confirmedAt) && o.error.None?
    case Rejected =>
      o.tx.None? && o.submittedAt.None? && NoBlock(o) && o.confirmations == 0 && o.replacement.None? &&
      BasePending(o) && o.error == Some(WalletRejected)
    case Reverted =>
      Sent(o) && InBlock(o) && o.receipt.value == Failed && o.replacement.None? && o.canonical && !o.reconciled &&
      o.confirmedAt.None? && o.error == Some(TransactionReverted)
    case Replaced =>
      Sent(o) && PendingOrDisplaced(o) && o.replacement.Some? && BasePending(o) &&
      o.error == Some(TransactionReplaced)
    case Dropped =>
      Sent(o) && PendingOrDisplaced(o) && o.replacement.None? && BasePending(o) &&
      o.error == Some(TransactionDropped)
    case Reorged =>
      Sent(o) && InBlock(o) && o.replacement.None? && BasePending(o) && o.error == Some(ChainReorg)
    case ReconciliationFailed =>
      Sent(o) && InBlock(o) && o.receipt.value == Succeeded && o.replacement.None? && o.canonical && !o.reconciled &&
      o.confirmedAt.None? && (o.error == Some(EventEvidenceMismatch) || o.error == Some(ContractStateMismatch))
  }

  // ------------------------------------------------------------ transitions

  datatype Update =
    | ToSubmitted(tx: Hash, at: Time)
    | ToRejected
    | ToMined(number: nat, hash: Hash, index: Option<nat>)
    | ToReverted(number: nat, hash: Hash, index: Option<nat>)
    | ToConfirming(confirmations: nat, verdict: Option<bool>)
    | ToConfirmed(confirmations: nat, at: Time, matched: bool)
    | ToReplaced(replacement: Option<Hash>)
    | ToDropped
    | ToReorged
    | ToReconciliationFailed(stateMismatch: bool)

  function Target(u: Update): State {
    match u
    case ToSubmitted(_, _) => Submitted
    case ToRejected => Rejected
    case ToMined(_, _, _) => Mined
    case ToReverted(_, _, _) => State.Reverted
    case ToConfirming(_, _) => Confirming
    case ToConfirmed(_, _, _) => Confirmed
    case ToReplaced(_) => Replaced
    case ToDropped => Dropped
    case ToReorged => Reorged
    case ToReconciliationFailed(_) => ReconciliationFailed
  }

  function Successors(s: State): set<State> {
    match s
    case AwaitingSignature => {Submitted, Rejected}
    case Submitted => {Mined, State.Reverted, Replaced, Dropped}
    case Mined => {Confirming, ReconciliationFailed, Reorged}
    case Confirming => {Confirming, Confirmed, ReconciliationFailed, Reorged}
    case Confirmed => {Reorged}
    case Rejected => {}
    case Reverted => {Reorged}
    case Replaced => {}
    case Dropped => {}
    case Reorged => {Mined, State.Reverted, Replaced, Dropped}
    case ReconciliationFailed => {Confirming, Reorged}
  }

  /** `transitionOperation`; a refused update gives nothing. */
  function Transition(o: Operation, u: Update): Option<Operation> {
    if Target(u) !in Successors(o.state) then None
    else
      var moved := o.(state := Target(u));
      var cleared := moved.(canonical := false, reconciled := false, confirmedAt := None);
      match u
      case ToSubmitted(tx, at) =>
        if at.parses then Some(moved.(tx := Some(tx), submittedAt := Some(at), error := None)) else None
      case ToRejected => Some(cleared.(error := Some(WalletRejected)))
      case ToDropped => Some(cleared.(error := Some(TransactionDropped)))
      case ToReorged => Some(cleared.(error := Some(ChainReorg)))
      case ToMined(number, hash, index) =>
        Some(cleared.(blockNumber := Some(number), blockHash := Some(hash), txIndex := index,
                      receipt := Some(Succeeded), confirmations := 0, canonical := true, error := None))
      case ToReverted(number, hash, index) =>
        Some(cleared.(blockNumber := Some(number), blockHash := Some(hash), txIndex := index,
                      receipt := Some(Failed), confirmations := 0, canonical := true,
                      error := Some(TransactionReverted)))
      case ToConfirming(confirmations, verdict) =>
        if confirmations < o.confirmations then None
        else Some(moved.(confirmations := confirmations, confirmedAt := None, error := None,
                         reconciled := if verdict.Some? then verdict.value else o.reconciled))
      case ToConfirmed(confirmations, at, matched) =>
        if !matched || confirmations < o.confirmations || !at.parses then None
        else Some(moved.(confirmations := confirmations, confirmedAt := Some(at), reconciled := true,
                         canonical := true, error := None))
      case ToReplaced(replacement) =>
        if replacement.None? || o.tx == replacement then None
        else Some(cleared.(replacement := replacement, error := Some(TransactionReplaced)))
      case ToReconciliationFailed(stateMismatch) =>
        Some(moved.(reconciled := false, confirmedAt := None,
                    error := Some(if stateMismatch then ContractStateMismatch else EventEvidenceMismatch)))
  }

  predicate SameIdentity(a: Operation, b: Operation) {
    a.id == b.id && a.chainId == b.chainId && a.owner == b.owner && a.target == b.target && a.calldata == b.calldata
  }

  /**
  The lifecycle never leaves the evidence rules, never changes what the operation is,
  and once a transaction hash is known never changes it.
  */
  lemma TransitionKeepsEvidence(o: Operation, u: Update)
    requires ValidEvidence(o) && Transition(o, u).Some?
    ensures ValidEvidence(Transition(o, u).value)
    ensures SameIdentity(o, Transition(o, u).value)
    ensures o.tx.Some? ==> Transition(o, u).value.tx == o.tx
  {
    hide Transition, ValidEvidence, SameIdentity;
    TransitionKeepsIdentity(o, u);
    if u.ToSubmitted? || u.ToRejected? || u.ToMined? || u.ToReverted? {
      EarlyTransition(o, u);
    } else {
      LateTransition(o, u);
    }
  }

  lemma TransitionKeepsIdentity(o: Operation, u: Update)
    requires ValidEvidence(o) && Transition(o, u).Some?
    ensures SameIdentity(o, Transition(o, u).value)
    ensures o.tx.Some? ==> Transition(o, u).value.tx == o.tx
  {
  }

  lemma EarlyTransition(o: Operation, u: Update)
    requires ValidEvidence(o) && Transition(o, u).Some? && (u.ToSubmitted? || u.ToRejected? || u.ToMined? || u.ToReverted?)
    ensures ValidEvidence(Transition(o, u).value)
  {
  }

  lemma LateTransition(o: Operation, u: Update)
    requires ValidEvidence(o) && Transition(o, u).Some? && !(u.ToSubmitted? || u.ToRejected? || u.ToMined? || u.ToReverted?)
    ensures ValidEvidence(Transition(o, u).value)
  {
  }

  // ------------------------------------------------------------ reorganisation

  /** The states whose rows the rollback statement rewrites. */
  predicate Settled(s: State) {
    s == Mined || s == Confirming || s == Confirmed || s == State.Reverted || s == ReconciliationFailed
  }

  /** The columns set by the rollback statement. */
  function Displaced(o: Operation): Operation {
    o.(state := Reorged, canonical := false, reconciled := false, confirmedAt := None, error := Some(ChainReorg))
  }

  /** The raw SQL rewrite is the lifecycle's own reorganisation step, so it keeps the evidence rules. */
  lemma DisplacedIsTransition(o: Operation)
    requires ValidEvidence(o) && Settled(o.state)
    ensures Transition(o, ToReorged) == Some(Displaced(o))
    ensures ValidEvidence(Displaced(o))
  {
    TransitionKeepsEvidence(o, ToReorged);
  }

  /** Only settled states carry the canonical flag, always with a block. */
  lemma CanonicalIsSettled(o: Operation)
    requires ValidEvidence(o)
    ensures o.canonical <==> Settled(o.state)
    ensures o.canonical ==> InBlock(o)
    ensures o.reconciled ==> o.canonical && o.tx.Some?
  {
  }
}
