/**
What the chain store keeps for one contract, seen without its tables: a stack of
canonical blocks with their events, a checkpoint row, a fencing lease and the
product projections. Every transaction of the store is one function here.
*/
module ChainIndex {
  import opened Results
  import opened ChainTypes
  import opened Fingerprints
  import opened Json

  datatype Indexed = Indexed(block: Block, events: set<Event>)

  datatype Projection = Projection(
    contract: Contract, owner: Address, key: string, number: nat, hash: Hash, state: Json)

  datatype SyncError = ReorgDepthExceeded | ReorgNoCommonAncestor | SyncIncomplete

  /** The columns of a checkpoint row other than the checkpoint itself. */
  datatype Row = Row(projected: Option<Ref>, healthy: bool, error: Option<SyncError>, target: Option<nat>)

  /** The defaults of a new checkpoint row. */
  const Fresh := Row(None, true, None, None)

  datatype Lease = Lease(token: Token, target: nat)

  datatype Index = Index(
    chain: seq<Indexed>,
    row: Option<Row>,
    lease: Option<Lease>,
    projections: map<(Address, string), Projection>)

  const Empty := Index([], None, None, map[])

  datatype Fault =
    | Superseded | TargetBehind | CheckpointNotFound | InvalidHealth | InvalidOwner | NumberUnsupported
    | InvalidBlock | InvalidTarget | InvalidEvent | EventConflict | BlockConflict | OutOfOrder | ParentMismatch
    | BlockNotCanonical | InvalidProjection | DuplicateProjection
    | InvalidEvidence | InvalidOperationId | IdentityConflict
    | Unhealthy | ProjectionPending | Corrupt | InvalidLimit

  // ------------------------------------------------------------ the chain

  function Tip(chain: seq<Indexed>): Ref
    requires chain != []
  {
    var top := chain[|chain| - 1].block;
    Ref(top.number, top.hash)
  }

  function Checkpoint(ix: Index): Option<Ref> {
    if ix.chain == [] then None else Some(Tip(ix.chain))
  }

  predicate HasHeight(chain: seq<Indexed>, n: int) {
    chain != [] && 0 <= n - chain[0].block.number < |chain|
  }

  function At(chain: seq<Indexed>, n: int): Indexed
    requires HasHeight(chain, n)
  {
    chain[n - chain[0].block.number]
  }

  /** Block `hash` at height `n` is canonical. */
  predicate InChain(chain: seq<Indexed>, n: int, hash: Hash) {
    HasHeight(chain, n) && At(chain, n).block.hash == hash
  }

  /** One block per height, no gap, each block the child of the one below. */
  predicate Linked(chain: seq<Indexed>) {
    && (forall i | 0 <= i < |chain| :: chain[i].block.number == chain[0].block.number + i)
    && (forall i | 0 < i < |chain| :: IsChild(chain, i))
  }

  predicate IsChild(chain: seq<Indexed>, i: nat)
    requires 0 < i < |chain|
  {
    chain[i].block.parent == chain[i - 1].block.hash
  }

  predicate Belongs(c: Contract, x: Indexed) {
    forall e | e in x.events ::
      e.contract == c && e.number == x.block.number && e.blockHash == x.block.hash && !e.removed
  }

  /** A chain starts at the deployment block. */
  predicate BasedAt(deploy: nat, chain: seq<Indexed>) { chain != [] ==> chain[0].block.number == deploy }

  predicate Indexes(c: Contract, chain: seq<Indexed>) {
    Linked(chain) && forall i | 0 <= i < |chain| :: Belongs(c, chain[i])
  }

  /** The order of `canonicalEvents`; events at one position are not ordered. */
  predicate NotAfter(a: Event, b: Event) {
    a.number < b.number || (a.number == b.number &&
    (a.txIndex < b.txIndex || (a.txIndex == b.txIndex && a.logIndex <= b.logIndex)))
  }

  /** In order, and no event twice. */
  predicate Sequenced(log: seq<Event>) {
    forall i, j | 0 <= i < j < |log| :: log[i] != log[j] && NotAfter(log[i], log[j])
  }

  ghost predicate Listing(events: set<Event>, log: seq<Event>) {
    (forall e :: e in log <==> e in events) && Sequenced(log)
  }

  function AllEvents(chain: seq<Indexed>): set<Event> {
    if chain == [] then {} else AllEvents(chain[..|chain| - 1]) + chain[|chain| - 1].events
  }

  /** `log` is the full event log of `chain`, in order. */
  ghost predicate IsLog(chain: seq<Indexed>, log: seq<Event>) {
    Listing(AllEvents(chain), log)
  }

  // ------------------------------------------------------------ legal states

  predicate LegalHealth(row: Row) {
    || (row.healthy && row.error.None? && row.target.None?)
    || (!row.healthy && row.target.None? &&
        (row.error == Some(ReorgDepthExceeded) || row.error == Some(ReorgNoCommonAncestor)))
    || (!row.healthy && row.error == Some(SyncIncomplete) && row.target.Some?)
  }

  ghost predicate Inv(c: Contract, ix: Index) {
    && Indexes(c, ix.chain)
    && (ix.chain != [] ==> Tip(ix.chain).number <= MAX_SAFE)
    && (ix.row.Some? <==> ix.chain != [])
    && (ix.row.Some? ==> LegalHealth(ix.row.value))
    && (ix.row.Some? && ix.row.value.projected.Some? ==>
          InChain(ix.chain, ix.row.value.projected.value.number, ix.row.value.projected.value.hash))
    && (ix.row.None? || ix.row.value.projected.None? ==> ix.projections == map[])
    && (forall k | k in ix.projections :: InChain(ix.chain, ix.projections[k].number, ix.projections[k].hash))
  }

  predicate AtTip(ix: Index) {
    ix.row.Some? && ix.row.value.projected.Some? && ix.row.value.projected == Checkpoint(ix)
  }

  /** The state in which `projection` answers at all. */
  predicate Served(ix: Index) {
    ix.lease.None? && ix.row.Some? && ix.row.value.healthy && AtTip(ix)
  }

  function ReadProjection(ix: Index, owner: Address, key: string): Result<Option<Projection>, Fault> {
    var found := if (owner, key) in ix.projections then Some(ix.projections[(owner, key)]) else None;
    if ix.lease.Some? then Err(Unhealthy)
    else if ix.row.None? then if found.Some? then Err(Corrupt) else Ok(None)
    else if !LegalHealth(ix.row.value) then Err(Corrupt)
    else if !ix.row.value.healthy then Err(Unhealthy)
    else if ix.row.value.projected != Checkpoint(ix) then Err(ProjectionPending)
    else Ok(found)
  }

  // ------------------------------------------------------------ transactions

  predicate Owns(ix: Index, token: Option<Token>) {
    if ix.lease.Some? then token == Some(ix.lease.value.token) else token.None?
  }

  function Raise(row: Row, target: nat): Row {
    row.(healthy := false, error := Some(SyncIncomplete),
         target := Some(if row.target.Some? then Max(row.target.value, target) else target))
  }

  function RaiseIndex(ix: Index, target: nat): Index {
    if ix.row.Some? then ix.(row := Some(Raise(ix.row.value, target))) else ix
  }

  function RequiredTarget(ix: Index): int {
    Max(if ix.lease.Some? then ix.lease.value.target else -1,
        if ix.row.Some? && ix.row.value.target.Some? then ix.row.value.target.value else -1)
  }

  function Claim(ix: Index, target: nat, token: Token): Result<Index, Fault> {
    if target < RequiredTarget(ix) then Err(TargetBehind)
    else Ok(RaiseIndex(ix, target).(lease := Some(Lease(token, target))))
  }

  function MarkUnhealthy(ix: Index, error: SyncError, target: Option<nat>, token: Option<Token>): Result<Index, Fault> {
    if (error == SyncIncomplete) != target.Some? then Err(InvalidHealth)
    else if !Owns(ix, token) then Err(Superseded)
    else if ix.row.None? then Err(CheckpointNotFound)
    else if error == SyncIncomplete then Ok(RaiseIndex(ix, target.value))
    else Ok(ix.(row := Some(ix.row.value.(healthy := false, error := Some(error), target := None)), lease := None))
  }

  /** The row that `markSyncHealthy` may turn healthy. */
  predicate Completes(ix: Index, completed: nat) {
    && ix.row.Some? && ix.chain != []
    && ix.row.value.error == Some(SyncIncomplete)
    && Tip(ix.chain).number >= completed
    && AtTip(ix)
    && ix.row.value.target.Some? && ix.row.value.target.value <= completed
  }

  function MarkHealthy(ix: Index, completed: nat, token: Option<Token>): Result<(Index, bool), Fault> {
    if !Owns(ix, token) then Err(Superseded)
    else if !Completes(ix, completed) then Ok((ix, false))
    else Ok((ix.(row := Some(ix.row.value.(healthy := true, error := None, target := None)), lease := None), true))
  }

  function ReleaseIncomplete(ix: Index, target: nat, token: Token): Result<Index, Fault> {
    if !Owns(ix, Some(token)) then Err(Superseded)
    else if ix.row.None? then Err(CheckpointNotFound)
    else Ok(RaiseIndex(ix, target).(lease := None))
  }

  // recording a block

  predicate NameStart(ch: char) { 'A' <= ch <= 'Z' || 'a' <= ch <= 'z' }

  predicate ValidName(name: string) {
    && 1 <= |name| <= 128 && NameStart(name[0])
    && forall i | 0 <= i < |name| ::
         NameStart(name[i]) || '0' <= name[i] <= '9' || name[i] == '.' || name[i] == '_' || name[i] == '-'
  }

  /** `validateEvent`, with the JSON that the fingerprint must be able to write. */
  predicate ValidEvent(c: Contract, block: Block, e: Event) {
    && e.contract == c && e.number == block.number && e.blockHash == block.hash && !e.removed
    && e.txIndex <= MAX_SAFE && e.logIndex <= MAX_SAFE
    && ValidName(e.name) && e.topics != [] && e.topics[0] == e.signature
    && e.normalized.Obj? && Writable(Obj(PayloadFields(e) + PositionFields(e)))
  }

  predicate DistinctIdentities(events: seq<Event>) {
    forall i, j | 0 <= i < j < |events| :: !(events[i].tx == events[j].tx && events[i].logIndex == events[j].logIndex)
  }

  predicate ValidEvents(c: Contract, block: Block, events: seq<Event>) {
    forall i | 0 <= i < |events| :: ValidEvent(c, block, events[i])
  }

  /** The checks that need no table. */
  predicate WellFormed(c: Contract, block: Block, events: seq<Event>, target: Option<nat>) {
    && block.number <= MAX_SAFE && block.timestamp >= 0 && |events| <= 10_000
    && (target.Some? ==> block.number <= target.value <= MAX_SAFE)
    && ValidEvents(c, block, events) && DistinctIdentities(events)
  }

  function SetOf(events: seq<Event>): set<Event> { set e | e in events }

  /** The block is the current tip once more, with the same events. */
  predicate Repeats(ix: Index, block: Block, events: seq<Event>) {
    && ix.chain != [] && Tip(ix.chain) == Ref(block.number, block.hash)
    && ix.chain[|ix.chain| - 1].events == SetOf(events)
  }

  /** The block continues the chain. */
  predicate Extends(ix: Index, block: Block) {
    ix.chain == [] || (block.number == Tip(ix.chain).number + 1 && block.parent == Tip(ix.chain).hash)
  }

  /** A record that does not meet a conflicting event row succeeds exactly here. */
  predicate CanRecord(c: Contract, ix: Index, block: Block, events: seq<Event>, target: Option<nat>, token: Option<Token>) {
    WellFormed(c, block, events, target) && Owns(ix, token) && (Extends(ix, block) || Repeats(ix, block, events))
  }

  function Push(ix: Index, block: Block, events: seq<Event>): Index {
    ix.(chain := ix.chain + [Indexed(block, SetOf(events))],
        row := if ix.row.Some? then ix.row else Some(Fresh))
  }

  function Recorded(ix: Index, block: Block, events: seq<Event>, target: Option<nat>): Index {
    var next := if Extends(ix, block) then Push(ix, block, events) else ix;
    if target.Some? then RaiseIndex(next, target.value) else next
  }

  function Truncate(chain: seq<Indexed>, from: nat): seq<Indexed> {
    if chain == [] || from <= chain[0].block.number then []
    else if from - chain[0].block.number >= |chain| then chain
    else chain[..from - chain[0].block.number]
  }

  function RolledBack(ix: Index, from: nat): Index {
    var chain := Truncate(ix.chain, from);
    ix.(chain := chain,
        row := if chain == [] || ix.row.None? then None else Some(ix.row.value.(projected := None)),
        projections := map[])
  }

  function Rollback(ix: Index, from: nat, token: Option<Token>): Result<Index, Fault> {
    if Owns(ix, token) then Ok(RolledBack(ix, from)) else Err(Superseded)
  }

  // committing projections

  predicate ValidProjection(c: Contract, ix: Index, block: Block, p: Projection) {
    && p.contract == c && p.number <= block.number && ValidName(p.key) && Writable(p.state)
    && InChain(ix.chain, p.number, p.hash)
  }

  predicate ValidProjections(c: Contract, ix: Index, block: Block, ps: seq<Projection>) {
    && (forall i | 0 <= i < |ps| :: ValidProjection(c, ix, block, ps[i]))
    && DistinctKeys(ps)
  }

  predicate DistinctKeys(ps: seq<Projection>) {
    forall i, j | 0 <= i < j < |ps| :: (ps[i].owner, ps[i].key) != (ps[j].owner, ps[j].key)
  }

  function ProjectionMap(ps: seq<Projection>): map<(Address, string), Projection> {
    if ps == [] then map[]
    else
      var p := ps[|ps| - 1];
      ProjectionMap(ps[..|ps| - 1])[(p.owner, p.key) := p]
  }

  predicate CanCommit(c: Contract, ix: Index, block: Block, ps: seq<Projection>, token: Option<Token>) {
    && Owns(ix, token) && ix.row.Some? && Checkpoint(ix) == Some(Ref(block.number, block.hash))
    && ValidProjections(c, ix, block, ps)
  }

  function Committed(ix: Index, block: Block, ps: seq<Projection>): Index
    requires ix.row.Some?
  {
    ix.(projections := ProjectionMap(ps),
        row := Some(ix.row.value.(projected := Some(Ref(block.number, block.hash)))))
  }

  // ------------------------------------------------------------ what they keep

  lemma ClaimKeeps(c: Contract, ix: Index, target: nat, token: Token)
    requires Inv(c, ix) && Claim(ix, target, token).Ok?
    ensures Inv(c, Claim(ix, target, token).value)
  {
  }

  lemma WellFormedBelongs(c: Contract, block: Block, events: seq<Event>, target: Option<nat>)
    requires WellFormed(c, block, events, target)
    ensures Belongs(c, Indexed(block, SetOf(events)))
  {
  }

  lemma PushKeeps(c: Contract, ix: Index, block: Block, events: seq<Event>)
    requires Inv(c, ix) && Extends(ix, block) && Belongs(c, Indexed(block, SetOf(events))) && block.number <= MAX_SAFE
    ensures Inv(c, Push(ix, block, events))
  {
    var next := Push(ix, block, events);
    forall i | 0 < i < |next.chain| ensures IsChild(next.chain, i) {
      if i < |ix.chain| { assert IsChild(ix.chain, i); }
    }
  }

  lemma RecordKeeps(c: Contract, ix: Index, block: Block, events: seq<Event>, target: Option<nat>, token: Option<Token>)
    requires Inv(c, ix) && CanRecord(c, ix, block, events, target, token)
    ensures Inv(c, Recorded(ix, block, events, target))
  {
    WellFormedBelongs(c, block, events, target);
    if Extends(ix, block) { PushKeeps(c, ix, block, events); }
  }

  lemma RollbackKeeps(c: Contract, ix: Index, from: nat)
    requires Inv(c, ix)
    ensures Inv(c, RolledBack(ix, from))
    ensures forall n, h :: InChain(RolledBack(ix, from).chain, n, h) <==> InChain(ix.chain, n, h) && n < from
  {
    var chain := Truncate(ix.chain, from);
    forall i | 0 < i < |chain| ensures IsChild(chain, i) { assert IsChild(ix.chain, i); }
  }

  lemma {:induction false} ProjectionMapOf(ps: seq<Projection>)
    ensures forall k | k in ProjectionMap(ps) ::
              ProjectionMap(ps)[k] in ps && k == (ProjectionMap(ps)[k].owner, ProjectionMap(ps)[k].key)
  {
    if ps != [] {
      ProjectionMapOf(ps[..|ps| - 1]);
      assert ps == ps[..|ps| - 1] + [ps[|ps| - 1]];
    }
  }

  lemma {:induction false} ProjectionMapKeys(ps: seq<Projection>, k: (Address, string))
    ensures k in ProjectionMap(ps) <==> exists j :: 0 <= j < |ps| && (ps[j].owner, ps[j].key) == k
  {
    if ps != [] {
      var n := |ps| - 1;
      ProjectionMapKeys(ps[..n], k);
      if j :| 0 <= j < |ps[..n]| && (ps[..n][j].owner, ps[..n][j].key) == k { assert (ps[j].owner, ps[j].key) == k; }
      if j :| 0 <= j < |ps| && (ps[j].owner, ps[j].key) == k {
        if j < n { assert (ps[..n][j].owner, ps[..n][j].key) == k; }
      }
    }
  }

  lemma DistinctLast(ps: seq<Projection>, i: nat)
    requires i < |ps| && DistinctKeys(ps[..i])
    ensures ProjectionMap(ps[..i + 1]).Keys == ProjectionMap(ps[..i]).Keys + {(ps[i].owner, ps[i].key)}
    ensures (ps[i].owner, ps[i].key) !in ProjectionMap(ps[..i]) ==> DistinctKeys(ps[..i + 1])
    ensures (ps[i].owner, ps[i].key) in ProjectionMap(ps[..i]) ==> !DistinctKeys(ps)
  {
    var last := (ps[i].owner, ps[i].key);
    assert ps[..i + 1][..i] == ps[..i];
    ProjectionMapKeys(ps[..i], last);
    if last in ProjectionMap(ps[..i]) {
      var j :| 0 <= j < i && (ps[..i][j].owner, ps[..i][j].key) == last;
      assert (ps[j].owner, ps[j].key) == last;
    }
  }

  lemma CommitKeeps(c: Contract, ix: Index, block: Block, ps: seq<Projection>, token: Option<Token>)
    requires Inv(c, ix) && CanCommit(c, ix, block, ps, token)
    ensures Inv(c, Committed(ix, block, ps))
  {
    ProjectionMapOf(ps);
  }

  /** A read that answers proves the state served, and conversely. */
  lemma ReadIffServed(c: Contract, ix: Index, owner: Address, key: string)
    requires Inv(c, ix)
    ensures ReadProjection(ix, owner, key).Ok? <==> Served(ix) || (ix.lease.None? && ix.chain == [])
    ensures ReadProjection(ix, owner, key).Ok? && ReadProjection(ix, owner, key).value.Some? ==> Served(ix)
    ensures ReadProjection(ix, owner, key) != Err(Corrupt)
  {
  }
}
