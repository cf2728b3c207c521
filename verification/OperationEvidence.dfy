/** What the product is told about an operation, and the walk over blocks that backs it. */
module OperationEvidence {
  import opened Results
  import opened ChainTypes
  import opened ChainIndex
  import opened ChainTables
  import opened ChainStore
  import opened Tracking
  import O = Operations

  const MAX_ANCESTRY := 2_000

  // ------------------------------------------------------------ ancestry

  /** `a` is reached from the canonical block `b` by following parent hashes through canonical rows. */
  predicate Ancestor(rows: BlockTable, a: Ref, b: Ref)
    decreases b.number
  {
    && b in rows && rows[b].canonical
    && (a == b || (a.number < b.number && Ancestor(rows, a, Ref(b.number - 1, rows[b].parent))))
  }

  ghost predicate OnePerHeight(rows: BlockTable) {
    forall a, b | a in CanonicalRefs(rows) && b in CanonicalRefs(rows) && a.number == b.number :: a == b
  }

  predicate Consecutive(rows: BlockTable, path: seq<Ref>, i: nat)
    requires 0 < i < |path| && path[i] in rows
  {
    path[i].number == path[i - 1].number + 1 && rows[path[i]].parent == path[i - 1].hash
  }

  /** A chain of canonical rows from `a` up to `b`. */
  ghost predicate IsPath(rows: BlockTable, path: seq<Ref>, a: Ref, b: Ref) {
    && path != [] && path[0] == a && path[|path| - 1] == b
    && (forall i | 0 <= i < |path| :: path[i] in CanonicalRefs(rows))
    && (forall i | 0 < i < |path| :: Consecutive(rows, path, i))
  }

  lemma {:induction false} PathHeights(rows: BlockTable, path: seq<Ref>, a: Ref, b: Ref, i: nat)
    requires IsPath(rows, path, a, b) && i < |path|
    ensures path[i].number == a.number + i
  {
    if i > 0 {
      PathHeights(rows, path, a, b, i - 1);
      assert Consecutive(rows, path, i);
    }
  }

  lemma {:induction false} PathIsAncestry(rows: BlockTable, path: seq<Ref>, a: Ref, b: Ref, i: nat, j: nat)
    requires IsPath(rows, path, a, b) && i <= j < |path|
    ensures Ancestor(rows, path[i], path[j])
    decreases j - i
  {
    assert path[j] in CanonicalRefs(rows);
    if i < j {
      PathIsAncestry(rows, path, a, b, i, j - 1);
      PathHeights(rows, path, a, b, i);
      PathHeights(rows, path, a, b, j);
      assert Consecutive(rows, path, j);
    }
  }

  lemma {:induction false} AncestryHasPath(rows: BlockTable, a: Ref, b: Ref) returns (path: seq<Ref>)
    requires Ancestor(rows, a, b)
    ensures IsPath(rows, path, a, b)
    decreases b.number
  {
    if a == b {
      path := [b];
    } else {
      var below := AncestryHasPath(rows, a, Ref(b.number - 1, rows[b].parent));
      path := below + [b];
      forall i | 0 < i < |path| ensures path[i] in rows && Consecutive(rows, path, i) {
        if i < |below| { assert below[i] in CanonicalRefs(rows) && Consecutive(rows, below, i); }
      }
    }
  }

  lemma {:induction false} AncestorThrough(rows: BlockTable, a: Ref, m: Ref, b: Ref)
    requires Ancestor(rows, a, m) && Ancestor(rows, m, b)
    ensures Ancestor(rows, a, b) && a.number <= m.number <= b.number
    decreases b.number
  {
    AncestorBelow(rows, a, m);
    AncestorBelow(rows, m, b);
    if m != b { AncestorThrough(rows, a, m, Ref(b.number - 1, rows[b].parent)); }
  }

  lemma {:induction false} AncestorBelow(rows: BlockTable, a: Ref, b: Ref)
    requires Ancestor(rows, a, b)
    ensures a.number <= b.number
  {
  }

  // ------------------------------------------------------------ the selected rows

  /** The answer of the query: the canonical rows of a range, by height. */
  ghost predicate Selected(rows: BlockTable, list: seq<Ref>, lo: int, hi: int) {
    && (forall r :: r in list <==> r in CanonicalRefs(rows) && lo <= r.number <= hi)
    && (forall i, j | 0 <= i < j < |list| :: list[i].number < list[j].number)
  }

  /** A path through the whole range is what the query returns. */
  lemma {:induction false} SelectedPath(rows: BlockTable, list: seq<Ref>, path: seq<Ref>, a: Ref, b: Ref, i: nat)
    requires OnePerHeight(rows) && Selected(rows, list, a.number, b.number) && IsPath(rows, path, a, b) && i < |path|
    ensures i < |list| && list[i] == path[i]
    decreases i
  {
    assert path[i] in CanonicalRefs(rows);
    PathHeights(rows, path, a, b, i);
    PathHeights(rows, path, a, b, |path| - 1);
    assert path[i] in list;
    var k :| 0 <= k < |list| && list[k] == path[i];
    if i > 0 {
      SelectedPath(rows, list, path, a, b, i - 1);
      PathHeights(rows, path, a, b, i - 1);
      assert i <= k;
    } else {
      assert list[0] in list;
    }
  }

  method SelectBlocks(rows: BlockTable, lo: nat, hi: nat) returns (list: seq<Ref>)
    requires OnePerHeight(rows)
    ensures Selected(rows, list, lo, hi)
  {
    list := [];
    var n := lo;
    while n <= hi
      invariant lo <= n <= Max(lo, hi + 1) && Selected(rows, list, lo, n - 1)
    {
      if r :| r in CanonicalRefs(rows) && r.number == n { list := list + [r]; }
      n := n + 1;
    }
  }

  // ------------------------------------------------------------ the walk

  /** Everything that the walk has seen of the first `n` rows when it has not stopped. */
  ghost predicate Climbs(rows: BlockTable, list: seq<Ref>, op: Ref, n: nat)
    requires n <= |list| && forall j | 0 <= j < |list| :: list[j] in rows
  {
    && (n > 0 ==> list[0] == op)
    && (forall j | 0 < j < n :: Consecutive(rows, list, j))
  }

  /** The walk stops at a row exactly when no path continues through it. */
  predicate Fits(rows: BlockTable, list: seq<Ref>, op: Ref, i: nat)
    requires i < |list| && list[i] in rows
  {
    && list[i].number == op.number + i
    && (i == 0 ==> list[i].hash == op.hash)
    && (i > 0 ==> rows[list[i]].parent == list[i - 1].hash)
  }

  lemma {:induction false} ClimbHeights(rows: BlockTable, list: seq<Ref>, op: Ref, n: nat, j: nat)
    requires n <= |list| && (forall j | 0 <= j < |list| :: list[j] in rows) && Climbs(rows, list, op, n) && j < n
    ensures list[j].number == op.number + j
  {
    if j > 0 {
      ClimbHeights(rows, list, op, n, j - 1);
      assert Consecutive(rows, list, j);
    }
  }

  lemma ClimbOn(rows: BlockTable, list: seq<Ref>, op: Ref, i: nat)
    requires i < |list| && (forall j | 0 <= j < |list| :: list[j] in rows) && Climbs(rows, list, op, i)
    ensures Climbs(rows, list, op, i + 1) <==> Fits(rows, list, op, i)
  {
    if i > 0 {
      ClimbHeights(rows, list, op, i, i - 1);
      if Climbs(rows, list, op, i + 1) { assert Consecutive(rows, list, i); }
    }
  }

  lemma SelectedRows(rows: BlockTable, list: seq<Ref>, lo: int, hi: int)
    requires Selected(rows, list, lo, hi)
    ensures forall j | 0 <= j < |list| :: list[j] in rows
  {
    assert forall j | 0 <= j < |list| :: list[j] in list;
  }

  lemma WitnessOn(rows: BlockTable, list: seq<Ref>, lo: int, hi: int, i: nat, p: Ref)
    requires Selected(rows, list, lo, hi) && i < |list|
    ensures p in list[..i + 1] <==> if list[i].number == p.number then list[i] == p else p in list[..i]
  {
    assert list[..i + 1] == list[..i] + [list[i]];
    if p in list[..i] { var j :| 0 <= j < i && list[..i][j] == p; assert list[j] == p; }
  }

  /** A walk to the end of the rows has found a path when the count and the last hash are right. */
  lemma WalkEnd(rows: BlockTable, list: seq<Ref>, op: Ref, checkpoint: Ref)
    requires Selected(rows, list, op.number, checkpoint.number) && forall j | 0 <= j < |list| :: list[j] in rows
    requires op.number <= checkpoint.number
    ensures IsPath(rows, list, op, checkpoint) <==>
            Climbs(rows, list, op, |list|) && |list| == checkpoint.number - op.number + 1 &&
            list[|list| - 1].hash == checkpoint.hash
  {
    assert forall j | 0 <= j < |list| :: list[j] in list;
    if Climbs(rows, list, op, |list|) && list != [] { ClimbHeights(rows, list, op, |list|, |list| - 1); }
  }

  lemma ClimbStart(rows: BlockTable, list: seq<Ref>, op: Ref)
    requires forall j | 0 <= j < |list| :: list[j] in rows
    ensures Climbs(rows, list, op, 0)
  {
  }

  lemma ClimbStops(rows: BlockTable, list: seq<Ref>, op: Ref, i: nat)
    requires i <= |list| && (forall j | 0 <= j < |list| :: list[j] in rows) && !Climbs(rows, list, op, i)
    ensures !Climbs(rows, list, op, |list|)
  {
  }

  /** The loop of `operationEvidence` over the selected rows. */
  method Walk(rows: BlockTable, list: seq<Ref>, op: Ref, projection: Ref, checkpoint: Ref) returns (ok: bool)
    requires op.number <= projection.number <= checkpoint.number && Selected(rows, list, op.number, checkpoint.number)
    ensures ok <==> IsPath(rows, list, op, checkpoint) && projection in list
  {
    SelectedRows(rows, list, op.number, checkpoint.number);
    hide Selected, Climbs, IsPath;
    WalkEnd(rows, list, op, checkpoint);
    ClimbStart(rows, list, op);
    var previous: Option<Hash> := None;
    var witnessed := false;
    for i := 0 to |list|
      invariant previous == if i == 0 then None else Some(list[i - 1].hash)
      invariant Climbs(rows, list, op, i)
      invariant witnessed <==> projection in list[..i]
    {
      var row := list[i];
      ClimbOn(rows, list, op, i);
      WitnessOn(rows, list, op.number, checkpoint.number, i, projection);
      if row.number != op.number + i || (i == 0 && row.hash != op.hash) ||
         (previous.Some? && rows[row].parent != previous.value) {
        ClimbStops(rows, list, op, i + 1);
        return false;
      }
      if row.number == projection.number { witnessed := row.hash == projection.hash; }
      previous := Some(row.hash);
    }
    assert list[..|list|] == list;
    ok := |list| == checkpoint.number - op.number + 1 && witnessed && previous == Some(checkpoint.hash);
  }

  /** The walk decides ancestry: it answers yes exactly when parent hashes lead from the checkpoint through the projection down to the operation. */
  lemma {:induction false} WalkIsAncestry(rows: BlockTable, list: seq<Ref>, op: Ref, projection: Ref, checkpoint: Ref)
    requires OnePerHeight(rows) && Selected(rows, list, op.number, checkpoint.number)
    ensures IsPath(rows, list, op, checkpoint) && projection in list <==>
            Ancestor(rows, op, projection) && Ancestor(rows, projection, checkpoint)
  {
    if IsPath(rows, list, op, checkpoint) && projection in list {
      var i :| 0 <= i < |list| && list[i] == projection;
      PathIsAncestry(rows, list, op, checkpoint, 0, i);
      PathIsAncestry(rows, list, op, checkpoint, i, |list| - 1);
    }
    if Ancestor(rows, op, projection) && Ancestor(rows, projection, checkpoint) {
      AncestorThrough(rows, op, projection, checkpoint);
      var path := AncestryHasPath(rows, op, checkpoint);
      assert list == path by { PathIsSelected(rows, list, path, op, checkpoint); }
      assert projection in CanonicalRefs(rows);
    }
  }

  lemma PathIsSelected(rows: BlockTable, list: seq<Ref>, path: seq<Ref>, a: Ref, b: Ref)
    requires OnePerHeight(rows) && Selected(rows, list, a.number, b.number) && IsPath(rows, path, a, b)
    ensures list == path
  {
    var n := |path|;
    PathHeights(rows, path, a, b, n - 1);
    SelectedPath(rows, list, path, a, b, n - 1);
    if n < |list| { assert list[n] in list && list[n - 1].number < list[n].number; }
    forall i | 0 <= i < n ensures list[i] == path[i] { SelectedPath(rows, list, path, a, b, i); }
  }

  // ------------------------------------------------------------ the evidence

  datatype Reconciliation = Failed | Matched | Unchecked
  datatype Milestone = Awaited | Stale | Ready
  datatype ChainStatus = Pending | Included | SoftReady | Reorganised | Unsuccessful
  datatype IndexerStatus = Syncing | Healthy | Degraded

  datatype Evidence = Evidence(
    lifecycle: O.State,
    receipt: Option<O.Receipt>,
    receiptCanonical: bool,
    confirmations: nat,
    reconciliation: Reconciliation,
    projection: Milestone,
    chainStatus: ChainStatus,
    indexerStatus: IndexerStatus,
    degradedReason: Option<SyncError>,
    productReady: bool)

  function ReconciliationOf(o: O.Operation): Reconciliation {
    if o.state == O.ReconciliationFailed then Failed else if o.reconciled then Matched else Unchecked
  }

  function ChainStatusOf(s: O.State): ChainStatus {
    match s
    case AwaitingSignature => Pending
    case Submitted => Pending
    case Mined => Included
    case Confirming => Included
    case Confirmed => SoftReady
    case Reorged => Reorganised
    case _ => Unsuccessful
  }

  /** The chain status of a well-evidenced operation, by its receipt, its flag and its fault. */
  lemma ChainStatusMeans(o: O.Operation)
    requires O.ValidEvidence(o)
    ensures ChainStatusOf(o.state) == Pending <==> o.receipt.None? && o.error.None?
    ensures ChainStatusOf(o.state) == Included <==> o.canonical && o.receipt.Some? && o.error.None? && o.confirmedAt.None?
    ensures ChainStatusOf(o.state) == SoftReady <==> o.canonical && o.confirmedAt.Some?
    ensures ChainStatusOf(o.state) == Reorganised <==> o.error == Some(O.ChainReorg)
    ensures ChainStatusOf(o.state) == Unsuccessful <==> o.error.Some? && o.error != Some(O.ChainReorg)
  {
  }

  /** `syncHealth` of a store that satisfies its invariants. */
  function HealthError(ix: Index): Option<SyncError> {
    if ix.lease.Some? then Some(SyncIncomplete) else if ix.row.None? then None else ix.row.value.error
  }

  function IndexerOf(ix: Index): IndexerStatus {
    if ix.chain == [] then Syncing
    else if HealthError(ix).None? then Healthy
    else if HealthError(ix) != Some(SyncIncomplete) then Degraded
    else Syncing
  }

  function Assemble(o: O.Operation, projection: Milestone, indexer: IndexerStatus, error: Option<SyncError>): Evidence {
    Evidence(o.state, o.receipt, o.receipt.Some? && o.canonical, o.confirmations, ReconciliationOf(o), projection,
             ChainStatusOf(o.state), indexer, if error == Some(SyncIncomplete) then None else error,
             o.state == O.Confirmed && o.canonical && ReconciliationOf(o) == Matched && projection == Ready && indexer == Healthy)
  }

  /** The guards before the walk: both heights are ordered and the span is short enough. */
  predicate InSpan(o: O.Operation, p: Projection, checkpoint: Ref) {
    && o.canonical && o.blockNumber.Some? && o.blockHash.Some?
    && o.blockNumber.value <= p.number <= checkpoint.number
    && checkpoint.number - o.blockNumber.value + 1 <= MAX_ANCESTRY
  }

  predicate Supported(chain: seq<Indexed>, o: O.Operation, p: Projection, checkpoint: Ref) {
    && InSpan(o, p, checkpoint)
    && InChain(chain, o.blockNumber.value, o.blockHash.value) && InChain(chain, p.number, p.hash)
    && InChain(chain, checkpoint.number, checkpoint.hash)
  }

  function MilestoneOf(ix: Index, o: O.Operation, key: string): Result<Milestone, Fault> {
    if o.state == O.Reorged || IndexerOf(ix) == Degraded then Ok(Stale)
    else if IndexerOf(ix) != Healthy then Ok(Awaited)
    else
      match ReadProjection(ix, o.owner, key)
      case Err(fault) => Err(fault)
      case Ok(None) => Ok(Awaited)
      case Ok(Some(p)) => Ok(if ix.chain != [] && Supported(ix.chain, o, p, Tip(ix.chain)) then Ready else Stale)
  }

  function EvidenceOf(ix: Index, o: O.Operation, key: string): Result<Evidence, Fault> {
    match MilestoneOf(ix, o, key)
    case Err(fault) => Err(fault)
    case Ok(milestone) => Ok(Assemble(o, milestone, IndexerOf(ix), HealthError(ix)))
  }

  lemma RowsOnePerHeight(rows: BlockTable, chain: seq<Indexed>)
    requires BlocksMatch(rows, chain) && Linked(chain)
    ensures OnePerHeight(rows)
  {
  }

  /** On the rows of a linked chain, ancestry is membership and height. */
  lemma {:induction false} AncestorOnChain(rows: BlockTable, chain: seq<Indexed>, a: Ref, b: Ref)
    requires BlocksMatch(rows, chain) && Linked(chain)
    ensures Ancestor(rows, a, b) <==>
            InChain(chain, a.number, a.hash) && InChain(chain, b.number, b.hash) && a.number <= b.number
    decreases b.number
  {
    CanonicalRow(rows, chain, a);
    CanonicalRow(rows, chain, b);
    if InChain(chain, b.number, b.hash) && a != b && a.number < b.number {
      var i := b.number - chain[0].block.number;
      AncestorOnChain(rows, chain, a, Ref(b.number - 1, rows[b].parent));
      if i > 0 { assert IsChild(chain, i); }
    }
  }

  /** The ancestry test of the source on the store's own rows. */
  method CheckAncestry(store: ChainStore, c: Contract, op: Ref, p: Ref, checkpoint: Ref) returns (ok: bool)
    requires store.Valid() && op.number <= p.number <= checkpoint.number
    ensures var rows := Rows(store.db, c);
            ok <==> Ancestor(rows, op, p) && Ancestor(rows, p, checkpoint)
    ensures var chain := store.Index(c).chain;
            ok <==> InChain(chain, op.number, op.hash) && InChain(chain, p.number, p.hash) &&
                    InChain(chain, checkpoint.number, checkpoint.hash)
  {
    assert Sound(store.db, store.chains, c);
    hide Represents, EventsMatch, Ancestor, IsPath, Selected;
    var rows := Rows(store.db, c);
    ghost var chain := store.Index(c).chain;
    RowsOnePerHeight(rows, chain);
    var list := SelectBlocks(rows, op.number, checkpoint.number);
    ok := Walk(rows, list, op, p, checkpoint);
    WalkIsAncestry(rows, list, op, p, checkpoint);
    AncestorOnChain(rows, chain, op, p);
    AncestorOnChain(rows, chain, p, checkpoint);
  }

  lemma HealthOf(c: Contract, ix: Index)
    requires Inv(c, ix)
    ensures IndexerOf(ix) == Healthy <==> ix.lease.None? && ix.row.Some? && ix.row.value.healthy
    ensures ix.row.Some? ==> ix.chain != []
  {
  }

  /** `operationEvidence`. */
  method ReadEvidence(store: ChainStore, id: string, key: string) returns (r: Result<Option<Evidence>, Fault>)
    requires store.Valid()
    ensures id !in store.db.operations ==> r == Ok(None)
    ensures id in store.db.operations ==>
              var o := store.db.operations[id];
              match EvidenceOf(store.Index(ContractOf(o)), o, key)
              case Ok(evidence) => r == Ok(Some(evidence))
              case Err(fault) => r == Err(fault)
  {
    hide Represents, InChain, ReadProjection;
    if id !in store.db.operations { return Ok(None); }
    var o := store.db.operations[id];
    var c := ContractOf(o);
    ghost var ix := store.Index(c);
    CheckpointedTip(store.db, store.chains, c);
    var checkpoint := store.Checkpoint(c);
    var db := store.db;
    var error := if c in db.leases then Some(SyncIncomplete) else if c in db.checkpoints then db.checkpoints[c].row.error else None;
    var indexer := if checkpoint.None? then Syncing else if error.None? then Healthy
                   else if error != Some(SyncIncomplete) then Degraded else Syncing;
    var milestone := Awaited;
    if o.state == O.Reorged || indexer == Degraded {
      milestone := Stale;
    } else if indexer == Healthy {
      var found := store.Projection(c, o.owner, key);
      if found.Err? { return Err(found.error); }
      if found.value.Some? {
        var p := found.value.value;
        milestone := Stale;
        if InSpan(o, p, checkpoint.value) {
          var linked := CheckAncestry(store, c, Ref(o.blockNumber.value, o.blockHash.value), Ref(p.number, p.hash), checkpoint.value);
          if linked { milestone := Ready; }
        }
      }
    }
    r := Ok(Some(Assemble(o, milestone, indexer, error)));
  }

  /** Where canonical operations name canonical blocks, the flag, the heights and the span decide the walk. */
  lemma FlagDecides(c: Contract, ix: Index, ops: OpTable, id: string, key: string, p: Projection)
    requires Inv(c, ix) && OpsInv(c, ix.chain, ops) && id in ops && ContractOf(ops[id]) == c
    requires ReadProjection(ix, ops[id].owner, key) == Ok(Some(p))
    ensures ix.chain != [] && (Supported(ix.chain, ops[id], p, Tip(ix.chain)) <==> InSpan(ops[id], p, Tip(ix.chain)))
  {
    ReadIffServed(c, ix, ops[id].owner, key);
  }

  /** `productReady` is exactly a confirmed, reconciled operation on the served chain with a projection at or above it. */
  lemma ReadyMeansServed(c: Contract, ix: Index, ops: OpTable, id: string, key: string, evidence: Evidence)
    requires Inv(c, ix) && OpsInv(c, ix.chain, ops) && id in ops && ContractOf(ops[id]) == c
    requires EvidenceOf(ix, ops[id], key) == Ok(evidence)
    ensures var o := ops[id];
            evidence.productReady <==>
              && o.state == O.Confirmed && o.canonical && o.reconciled && Served(ix)
              && (o.owner, key) in ix.projections && InSpan(o, ix.projections[(o.owner, key)], Tip(ix.chain))
    ensures evidence.productReady ==>
              InChain(ix.chain, ops[id].blockNumber.value, ops[id].blockHash.value)
  {
    var o := ops[id];
    HealthOf(c, ix);
    ReadIffServed(c, ix, o.owner, key);
    O.CanonicalIsSettled(o);
    var read := ReadProjection(ix, o.owner, key);
    if read.Ok? && read.value.Some? { FlagDecides(c, ix, ops, id, key, read.value.value); }
  }

  /** The fields of one record never contradict each other. */
  lemma EvidenceIsConsistent(c: Contract, ix: Index, ops: OpTable, id: string, key: string, evidence: Evidence)
    requires Inv(c, ix) && OpsInv(c, ix.chain, ops) && id in ops && ContractOf(ops[id]) == c
    requires EvidenceOf(ix, ops[id], key) == Ok(evidence)
    ensures evidence.receiptCanonical <==> O.Settled(evidence.lifecycle)
    ensures evidence.indexerStatus == Degraded <==> evidence.degradedReason.Some?
    ensures evidence.indexerStatus == Healthy ==> ix.lease.None? && ix.row.Some? && ix.row.value.healthy
    ensures evidence.reconciliation == Matched ==> evidence.receiptCanonical && evidence.receipt == Some(O.Succeeded)
    ensures evidence.reconciliation == Failed ==> evidence.chainStatus == Unsuccessful
    ensures evidence.projection == Ready ==> evidence.receiptCanonical && evidence.indexerStatus == Healthy && Served(ix)
    ensures evidence.lifecycle == O.Reorged ==> evidence.projection == Stale && evidence.chainStatus == Reorganised
    ensures evidence.productReady ==> evidence.chainStatus == SoftReady && evidence.receipt == Some(O.Succeeded)
    ensures evidence.confirmations == ops[id].confirmations
  {
    var o := ops[id];
    O.CanonicalIsSettled(o);
    HealthOf(c, ix);
    ReadIffServed(c, ix, o.owner, key);
  }
}
