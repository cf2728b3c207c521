/** Saving tracked operations: compare-and-swap against the checkpoint and the stored operation. */
module Tracking {
  import opened Results
  import opened Json
  import opened ChainTypes
  import opened ChainIndex
  import O = Operations

  type OpTable = map<string, O.Operation>

  function ContractOf(o: O.Operation): Contract { Contract(o.chainId, o.target) }

  predicate IdStart(ch: char) { 'A' <= ch <= 'Z' || 'a' <= ch <= 'z' || '0' <= ch <= '9' }

  predicate ValidId(id: string) {
    && 1 <= |id| <= 128 && IdStart(id[0])
    && forall i | 0 <= i < |id| :: IdStart(id[i]) || id[i] == '_' || id[i] == '-'
  }

  /** The unique index: one reconciled operation per chain transaction. */
  predicate Exclusive(ops: OpTable, o: O.Operation) {
    o.reconciled && o.tx.Some? ==> !Taken(ops, o)
  }

  /** Another operation is reconciled with the same chain transaction. */
  predicate Taken(ops: OpTable, o: O.Operation) {
    exists id | id in ops && id != o.id :: ops[id].reconciled && ops[id].chainId == o.chainId && ops[id].tx == o.tx
  }

  predicate IdentityFits(ops: OpTable, o: O.Operation) {
    o.id in ops ==>
      && O.SameIdentity(ops[o.id], o)
      && (ops[o.id].tx.Some? && o.tx.Some? ==> ops[o.id].tx == o.tx)
  }

  predicate CanSave(ops: OpTable, o: O.Operation) {
    && O.ValidEvidence(o) && ValidId(o.id) && IdentityFits(ops, o) && Exclusive(ops, o)
    && (o.blockNumber.Some? ==> o.blockNumber.value <= MAX_SAFE)
  }

  /** `saveOperationAtCheckpoint` succeeds exactly here. */
  predicate CanSaveAt(ix: Index, ops: OpTable, o: O.Operation, expected: O.Operation, ck: Ref) {
    && O.SameIdentity(o, expected) && o.tx == expected.tx
    && Served(ix) && ix.row.value.error.None? && ix.row.value.target.None? && Checkpoint(ix) == Some(ck)
    && expected.id in ops && ops[expected.id] == expected
    && CanSave(ops, o)
  }

  /** Why `saveOperation` refuses; a failed write is blamed on the transaction's owner where there is another one. */
  function SaveFault(ops: OpTable, o: O.Operation): (fault: Option<Fault>)
    ensures fault.None? <==> CanSave(ops, o)
  {
    if !O.ValidEvidence(o) then Some(InvalidEvidence)
    else if !ValidId(o.id) then Some(InvalidOperationId)
    else if !IdentityFits(ops, o) then Some(IdentityConflict)
    else if (o.blockNumber.Some? && o.blockNumber.value > MAX_SAFE) || !Exclusive(ops, o) then
      Some(if o.tx.Some? && Taken(ops, o) then IdentityConflict else NumberUnsupported)
    else None
  }

  /** Why `saveOperationAtCheckpoint` refuses. */
  function SaveAtFault(ix: Index, ops: OpTable, o: O.Operation, expected: O.Operation, ck: Ref): (fault: Option<Fault>)
    requires ix.chain != [] ==> Tip(ix.chain).number <= MAX_SAFE
    ensures fault.None? <==> CanSaveAt(ix, ops, o, expected, ck)
  {
    if !O.ValidEvidence(o) then Some(InvalidEvidence)
    else if !(O.SameIdentity(o, expected) && o.tx == expected.tx) then Some(IdentityConflict)
    else if ix.lease.Some? || ix.row.None? then Some(Superseded)
    else if ck.number > MAX_SAFE then Some(NumberUnsupported)
    else if !(Served(ix) && ix.row.value.error.None? && ix.row.value.target.None? && Checkpoint(ix) == Some(ck)) then Some(Superseded)
    else if !(expected.id in ops && ops[expected.id] == expected) then Some(Superseded)
    else SaveFault(ops, o)
  }

  /** The rollback statement on the operations of one contract. */
  function Displace(ops: OpTable, c: Contract, from: nat): OpTable {
    map id | id in ops ::
      var o := ops[id];
      if IsDisplaced(o, c, from) then O.Displaced(o) else o
  }

  predicate IsDisplaced(o: O.Operation, c: Contract, from: nat) {
    ContractOf(o) == c && O.Settled(o.state) && o.blockNumber.Some? && from <= o.blockNumber.value
  }

  /** The rows the statement meets are exactly those it changes. */
  lemma DisplacedRows(ops: OpTable, c: Contract, from: nat)
    ensures (set id | id in ops && IsDisplaced(ops[id], c, from)) == set id | id in ops && Displace(ops, c, from)[id] != ops[id]
  {
    forall id | id in ops ensures IsDisplaced(ops[id], c, from) <==> Displace(ops, c, from)[id] != ops[id] {
      assert O.Displaced(ops[id]).state == O.Reorged;
    }
  }

  /** Every stored operation is well evidenced, and a canonical one names a canonical block. */
  ghost predicate OpsInv(c: Contract, chain: seq<Indexed>, ops: OpTable) {
    forall id | id in ops ::
      && ops[id].id == id && O.ValidEvidence(ops[id]) && Exclusive(ops, ops[id])
      && (ops[id].canonical && ContractOf(ops[id]) == c ==>
            ops[id].blockNumber.Some? && ops[id].blockHash.Some? &&
            InChain(chain, ops[id].blockNumber.value, ops[id].blockHash.value))
  }

  lemma GrowKeeps(c: Contract, chain: seq<Indexed>, longer: seq<Indexed>, ops: OpTable)
    requires OpsInv(c, chain, ops) && chain <= longer
    ensures OpsInv(c, longer, ops)
  {
  }

  lemma SaveKeeps(c: Contract, chain: seq<Indexed>, ops: OpTable, o: O.Operation)
    requires OpsInv(c, chain, ops) && CanSave(ops, o)
    requires o.canonical && ContractOf(o) == c ==>
               o.blockNumber.Some? && o.blockHash.Some? && InChain(chain, o.blockNumber.value, o.blockHash.value)
    ensures OpsInv(c, chain, ops[o.id := o])
  {
    O.CanonicalIsSettled(o);
    forall id | id in ops ensures Exclusive(ops[o.id := o], ops[id]) {
      O.CanonicalIsSettled(ops[id]);
    }
  }

  lemma DisplaceKeeps(c: Contract, ix: Index, ops: OpTable, from: nat)
    requires Inv(c, ix) && OpsInv(c, ix.chain, ops)
    ensures OpsInv(c, RolledBack(ix, from).chain, Displace(ops, c, from))
  {
    RollbackKeeps(c, ix, from);
    var after, chain := Displace(ops, c, from), RolledBack(ix, from).chain;
    hide RolledBack, InChain, O.ValidEvidence, Exclusive;
    forall id | id in after
      ensures after[id].id == id && O.ValidEvidence(after[id]) && Exclusive(after, after[id])
      ensures after[id].canonical && ContractOf(after[id]) == c ==>
                after[id].blockNumber.Some? && after[id].blockHash.Some? &&
                InChain(chain, after[id].blockNumber.value, after[id].blockHash.value)
    {
      O.CanonicalIsSettled(ops[id]);
      if O.Settled(ops[id].state) { O.DisplacedIsTransition(ops[id]); }
      StaysExclusive(ops, c, from, id);
    }
  }

  /** The operation claims a block of `c` that is not in the chain. */
  predicate Orphaned(c: Contract, chain: seq<Indexed>, o: O.Operation) {
    o.canonical && ContractOf(o) == c &&
    !(o.blockNumber.Some? && o.blockHash.Some? && InChain(chain, o.blockNumber.value, o.blockHash.value))
  }

  /** Exactly the rows that lost their block are taken through the lifecycle's reorganisation; no other row is touched. */
  ghost predicate OnlyOrphanedMove(c: Contract, chain: seq<Indexed>, before: OpTable, after: OpTable) {
    && before.Keys == after.Keys
    && forall id | id in before ::
         if Orphaned(c, chain, before[id]) then O.Transition(before[id], O.ToReorged) == Some(after[id]) && after[id] != before[id]
         else after[id] == before[id]
  }

  /** A rollback moves exactly the operations whose block it takes off the chain. */
  lemma RollbackMovesOrphans(c: Contract, ix: Index, ops: OpTable, from: nat)
    requires Inv(c, ix) && OpsInv(c, ix.chain, ops)
    ensures OnlyOrphanedMove(c, RolledBack(ix, from).chain, ops, Displace(ops, c, from))
  {
    RollbackKeeps(c, ix, from);
    var after, chain := Displace(ops, c, from), RolledBack(ix, from).chain;
    hide RolledBack, InChain, O.ValidEvidence, Exclusive, O.Transition;
    forall id | id in ops
      ensures if Orphaned(c, chain, ops[id]) then O.Transition(ops[id], O.ToReorged) == Some(after[id]) && after[id] != ops[id]
              else after[id] == ops[id]
    {
      O.CanonicalIsSettled(ops[id]);
      if O.Settled(ops[id].state) { O.DisplacedIsTransition(ops[id]); }
    }
  }

  /** A chain that only grows orphans nothing. */
  lemma GrowthMovesNothing(c: Contract, chain: seq<Indexed>, longer: seq<Indexed>, ops: OpTable)
    requires OpsInv(c, chain, ops) && chain <= longer
    ensures OnlyOrphanedMove(c, longer, ops, ops)
  {
  }

  lemma StaysExclusive(ops: OpTable, c: Contract, from: nat, id: string)
    requires id in ops && Exclusive(ops, ops[id])
    ensures Exclusive(Displace(ops, c, from), Displace(ops, c, from)[id])
  {
  }

  /** Once a rollback has displaced an operation, nothing that was computed from its earlier row can be saved. */
  lemma RollbackIsNotOverwritten(c: Contract, ix: Index, ops: OpTable, from: nat, id: string, next: O.Operation, ck: Ref)
    requires id in ops && ops[id].id == id && ContractOf(ops[id]) == c && O.Settled(ops[id].state)
    requires ops[id].blockNumber.Some? && from <= ops[id].blockNumber.value
    ensures !CanSaveAt(ix, Displace(ops, c, from), next, ops[id], ck)
  {
    assert Displace(ops, c, from)[id].state == O.Reorged;
  }
}
