/**
The remote chain that a synchronization follows: where it agrees with the indexed
chain, what a rewind must leave, and when every block of it can be indexed.
*/
module RemoteChain {
  import opened Results
  import opened Json
  import opened ChainTypes
  import opened Fingerprints
  import opened ChainIndex
  import opened ChainTables
  import opened EventOrder
  import opened ChainStore

  /** The remote chain: its blocks by height, the decoded events of a block, and the rebuilt projections. */
  datatype Remote = Remote(
    block: nat -> Option<Block>,
    events: Block -> Option<seq<Event>>,
    rebuild: (Block, seq<Event>) -> Option<seq<Projection>>)

  datatype SyncFault =
    | Store(fault: Fault) | Reorg(error: SyncError) | HeadUnavailable | BlockUnavailable | BlockMismatch | LogMismatch
    | HeadBeforeDeployment | SyncTargetBehind | RangeExceeded | RebuildFailed | NotHealthy

  /** Each remote block sits on the one below it. */
  ghost predicate RemoteLinked(remote: Remote) {
    forall n: nat | remote.block(n).Some? :: RemoteAt(remote, n)
  }

  predicate RemoteAt(remote: Remote, n: nat)
    requires remote.block(n).Some?
  {
    && remote.block(n).value.number == n
    && (n > 0 ==> remote.block(n - 1).Some? && remote.block(n).value.parent == remote.block(n - 1).value.hash)
  }

  /** Height `i` of the chain is the remote block with the remote events. */
  predicate SameAsRemote(remote: Remote, x: Indexed) {
    && remote.block(x.block.number) == Some(x.block)
    && remote.events(x.block).Some? && x.events == SetOf(remote.events(x.block).value)
  }

  /** A hash stands for one block and one set of logs. */
  predicate HashDecides(remote: Remote, x: Indexed) {
    var there := remote.block(x.block.number);
    there.Some? && there.value.hash == x.block.hash ==> SameAsRemote(remote, x)
  }

  ghost predicate HashesDecide(remote: Remote, chain: seq<Indexed>) {
    forall i | 0 <= i < |chain| :: HashDecides(remote, chain[i])
  }

  ghost predicate AgreesTo(remote: Remote, chain: seq<Indexed>, n: nat) {
    n <= |chain| && forall i | 0 <= i < n :: SameAsRemote(remote, chain[i])
  }

  /** The longest common prefix of the chain and the remote chain. */
  function Common(remote: Remote, chain: seq<Indexed>): nat {
    if chain == [] then 0
    else
      var below := Common(remote, chain[..|chain| - 1]);
      if below == |chain| - 1 && SameAsRemote(remote, chain[|chain| - 1]) then |chain| else below
  }

  lemma {:induction false} CommonIsLongest(remote: Remote, chain: seq<Indexed>)
    ensures Common(remote, chain) <= |chain| && AgreesTo(remote, chain, Common(remote, chain))
    ensures Common(remote, chain) < |chain| ==> !SameAsRemote(remote, chain[Common(remote, chain)])
  {
    if chain != [] { CommonIsLongest(remote, chain[..|chain| - 1]); }
  }

  /** Where one height agrees, every lower height does. */
  lemma {:induction false} AgreementIsPrefix(remote: Remote, chain: seq<Indexed>, i: nat, j: nat)
    requires Linked(chain) && RemoteLinked(remote) && HashesDecide(remote, chain)
    requires i <= j < |chain| && SameAsRemote(remote, chain[j])
    ensures SameAsRemote(remote, chain[i])
    decreases j - i
  {
    if i < j {
      assert IsChild(chain, j) && RemoteAt(remote, chain[j].block.number);
      assert chain[j].block.number == chain[j - 1].block.number + 1;
      assert HashDecides(remote, chain[j - 1]);
      AgreementIsPrefix(remote, chain, i, j - 1);
    }
  }

  /** A height agrees exactly when it lies in the common prefix. */
  lemma {:induction false} AgreesIffCommon(remote: Remote, chain: seq<Indexed>, i: nat)
    requires Linked(chain) && RemoteLinked(remote) && HashesDecide(remote, chain) && i < |chain|
    ensures SameAsRemote(remote, chain[i]) <==> i < Common(remote, chain)
    ensures var there := remote.block(chain[i].block.number);
            there.Some? && there.value.hash == chain[i].block.hash <==> i < Common(remote, chain)
  {
    CommonIsLongest(remote, chain);
    assert HashDecides(remote, chain[i]);
    if i >= Common(remote, chain) && SameAsRemote(remote, chain[i]) {
      AgreementIsPrefix(remote, chain, Common(remote, chain), i);
    }
  }

  lemma {:induction false} RemoteBelow(remote: Remote, n: nat, m: nat)
    requires RemoteLinked(remote) && remote.block(n).Some? && m <= n
    ensures remote.block(m).Some?
    decreases n - m
  {
    if m < n {
      assert RemoteAt(remote, n);
      RemoteBelow(remote, n - 1, m);
    }
  }

  // ------------------------------------------------------------ rewinding

  /** The common prefix is not empty, its tip is not below deployment, and it is within the search limit. */
  predicate Reachable(chain: seq<Indexed>, common: nat, deploy: nat, limit: nat)
    requires common < |chain|
  {
    common > 0 && deploy <= chain[0].block.number + common - 1 && |chain| - common <= limit
  }

  function ReorgFault(tip: nat, deploy: nat, limit: nat): SyncError {
    if tip - limit - 1 >= deploy then ReorgDepthExceeded else ReorgNoCommonAncestor
  }

  /** What a rewind must answer and leave behind when the chain has left the remote one. */
  function Parted(ix: Index, common: nat, token: Token, deploy: nat, limit: nat): (Result<nat, SyncFault>, Index)
    requires common < |ix.chain|
  {
    if Reachable(ix.chain, common, deploy, limit) then
      match Rollback(ix, ix.chain[0].block.number + common, Some(token))
      case Ok(next) => (Ok(|ix.chain| - common), next)
      case Err(fault) => (Err(Store(fault)), ix)
    else
      var error := ReorgFault(Tip(ix.chain).number, deploy, limit);
      match MarkUnhealthy(ix, error, None, Some(token))
      case Ok(next) => (Err(Reorg(error)), next)
      case Err(fault) => (Err(Store(fault)), ix)
  }

  /** What `rewindIfNeeded` must answer and leave behind. */
  function Rewound(remote: Remote, ix: Index, token: Token, deploy: nat, limit: nat): (Result<nat, SyncFault>, Index) {
    if ix.chain == [] then (Ok(0), ix)
    else if remote.block(Tip(ix.chain).number).None? then (Err(BlockUnavailable), ix)
    else if Common(remote, ix.chain) >= |ix.chain| then (Ok(0), ix)
    else Parted(ix, Common(remote, ix.chain), token, deploy, limit)
  }

  // ------------------------------------------------------------ synchronizing

  /** The chain is the remote chain from deployment to its tip. */
  ghost predicate Follows(remote: Remote, deploy: nat, chain: seq<Indexed>) {
    BasedAt(deploy, chain) && AgreesTo(remote, chain, |chain|)
  }

  function NextHeight(deploy: nat, chain: seq<Indexed>): nat { if chain == [] then deploy else Tip(chain).number + 1 }

  lemma {:induction false} RewoundIsPrefix(remote: Remote, ix: Index, token: Token, deploy: nat, limit: nat)
    requires RemoteLinked(remote) && HashesDecide(remote, ix.chain) && Linked(ix.chain) && BasedAt(deploy, ix.chain)
    ensures var (r, next) := Rewound(remote, ix, token, deploy, limit);
            var common := Common(remote, ix.chain);
            && BasedAt(deploy, next.chain) && common <= |ix.chain|
            && (r.Ok? ==> r.value == |ix.chain| - common && next.chain == ix.chain[..common] &&
                          Follows(remote, deploy, next.chain))
  {
    CommonIsLongest(remote, ix.chain);
    var common := Common(remote, ix.chain);
    if 0 < common < |ix.chain| { TruncateAt(ix.chain, common); }
  }

  /** A chain that follows the remote one has the remote block and events at every height up to its tip. */
  lemma FollowsAtEveryHeight(remote: Remote, deploy: nat, chain: seq<Indexed>, n: nat)
    requires Follows(remote, deploy, chain) && Linked(chain) && chain != [] && deploy <= n <= Tip(chain).number
    ensures HasHeight(chain, n) && SameAsRemote(remote, At(chain, n)) && At(chain, n).block.number == n
  {
    assert SameAsRemote(remote, chain[n - deploy]);
  }

  function EventCount(chain: seq<Indexed>): nat {
    if chain == [] then 0 else EventCount(chain[..|chain| - 1]) + |chain[|chain| - 1].events|
  }

  lemma {:induction false} CountOn(chain: seq<Indexed>)
    requires chain != []
    ensures EventCount(chain) == EventCount(chain[..|chain| - 1]) + |chain[|chain| - 1].events|
  {
  }

  lemma FollowsOn(remote: Remote, deploy: nat, chain: seq<Indexed>)
    requires chain != []
    requires var below, x := chain[..|chain| - 1], chain[|chain| - 1];
             Follows(remote, deploy, below) && SameAsRemote(remote, x) && x.block.number == NextHeight(deploy, below)
    ensures Follows(remote, deploy, chain)
  {
    var below := chain[..|chain| - 1];
    forall i | 0 <= i < |chain| ensures SameAsRemote(remote, chain[i]) {
      if i < |below| { assert SameAsRemote(remote, below[i]); }
    }
  }

  lemma PopLast(chain: seq<Indexed>)
    requires chain != [] && Tip(chain).number == chain[0].block.number + |chain| - 1
    ensures Truncate(chain, Tip(chain).number) == chain[..|chain| - 1]
  {
  }

  lemma TruncateAt(chain: seq<Indexed>, n: nat)
    requires 0 < n < |chain|
    ensures Truncate(chain, chain[0].block.number + n) == chain[..n]
  {
  }

  lemma ChainHeights(db: Tables, chains: Chains, c: Contract)
    requires Represents(db, chains)
    ensures Linked(ChainOf(chains, c))
    ensures var chain := ChainOf(chains, c);
            chain != [] ==> Tip(chain).number == chain[0].block.number + |chain| - 1 && Tip(chain).number <= MAX_SAFE
  {
    assert Sound(db, chains, c);
  }

  /**
  The owner's rewind keeps exactly the longest common prefix when that can be found
  within the limit, and otherwise names the reorganisation fault that stopped the search.
  */
  lemma {:induction false} RewindKeepsCommonPrefix(remote: Remote, ix: Index, token: Token, deploy: nat, limit: nat)
    requires RemoteLinked(remote) && HashesDecide(remote, ix.chain) && Linked(ix.chain)
    requires ix.chain != [] && ix.row.Some? && Owns(ix, Some(token)) && remote.block(Tip(ix.chain).number).Some?
    ensures var (r, next) := Rewound(remote, ix, token, deploy, limit);
            var common := Common(remote, ix.chain);
            var searched := common < |ix.chain|;
            && (!searched || Reachable(ix.chain, common, deploy, limit) ==>
                  r == Ok(|ix.chain| - common) && next.chain == ix.chain[..common] && AgreesTo(remote, next.chain, common))
            && (searched && !Reachable(ix.chain, common, deploy, limit) ==>
                  && next.chain == ix.chain && next.lease.None? && !Served(next)
                  && r == Err(Reorg(if Tip(ix.chain).number - deploy > limit then ReorgDepthExceeded else ReorgNoCommonAncestor)))
  {
    CommonIsLongest(remote, ix.chain);
    var common := Common(remote, ix.chain);
    if 0 < common < |ix.chain| { TruncateAt(ix.chain, common); }
  }

  /** The head of a bounded round. */
  function BoundedHead(start: nat, latest: nat, maxBlocks: nat): nat
    requires maxBlocks > 0
  {
    if start <= latest && start + maxBlocks - 1 < latest then start + maxBlocks - 1 else latest
  }

  /**
  The bound is taken above the checkpoint before the rewind: a round without a reorganisation
  is always within its range, and one with a reorganisation exactly when the blocks to undo and
  the blocks above the checkpoint together are.
  */
  lemma {:induction false} BoundedRoundFits(remote: Remote, chain: seq<Indexed>, deploy: nat, latest: nat, maxBlocks: nat)
    requires Linked(chain) && BasedAt(deploy, chain) && maxBlocks > 0 && NextHeight(deploy, chain) <= latest
    ensures var bounded := BoundedHead(NextHeight(deploy, chain), latest, maxBlocks);
            var fits := bounded + 1 - deploy - Common(remote, chain) <= maxBlocks;
            && (Common(remote, chain) == |chain| ==> fits)
            && (fits <==> |chain| - Common(remote, chain) + Min(latest + 1 - NextHeight(deploy, chain), maxBlocks) <= maxBlocks)
  {
    CommonIsLongest(remote, chain);
  }

  // ------------------------------------------------------------ when a synchronization succeeds

  function RemoteEvents(remote: Remote, n: nat): seq<Event> {
    if remote.block(n).Some? && remote.events(remote.block(n).value).Some? then remote.events(remote.block(n).value).value else []
  }

  /** The remote answers for height `n` with a block and events that the store takes. */
  predicate RecordableAt(remote: Remote, c: Contract, n: nat, required: nat) {
    && remote.block(n).Some? && remote.events(remote.block(n).value).Some?
    && WellFormed(c, remote.block(n).value, RemoteEvents(remote, n), Some(required))
  }

  /** So it does up to `head`, and no log identity occurs in two blocks. */
  ghost predicate Recordable(remote: Remote, c: Contract, deploy: nat, head: nat, required: nat) {
    && (forall n: nat | deploy <= n <= head :: RecordableAt(remote, c, n, required))
    && (forall n: nat, m: nat, e, f |
          deploy <= n < m <= head && e in RemoteEvents(remote, n) && f in RemoteEvents(remote, m) :: KeyOf(e) != KeyOf(f))
  }

  predicate FitsRow(row: EventRow, e: Event) { Decode(row).Some? && SamePayload(Decode(row).value, e) }

  /** A row stored earlier under the identity of a remote event has its payload. */
  ghost predicate PayloadsFit(table: EventTable, remote: Remote, deploy: nat, head: nat) {
    forall n: nat, e | deploy <= n <= head && e in RemoteEvents(remote, n) && KeyOf(e) in table :: FitsRow(table[KeyOf(e)], e)
  }

  predicate RebuildsAt(remote: Remote, c: Contract, chain: seq<Indexed>, log: seq<Event>)
    requires chain != []
  {
    var block := chain[|chain| - 1].block;
    remote.rebuild(block, log).Some? && ValidProjections(c, Empty.(chain := chain), block, remote.rebuild(block, log).value)
  }

  /** The integration answers, with projections the store takes, for every chain of remote blocks from deployment on. */
  ghost predicate Rebuildable(remote: Remote, c: Contract, deploy: nat) {
    forall chain, log | chain != [] && Linked(chain) && Follows(remote, deploy, chain) && IsLog(chain, log) ::
      RebuildsAt(remote, c, chain, log)
  }

  ghost predicate Willing(remote: Remote, c: Contract, deploy: nat, head: nat, required: nat) {
    && deploy <= head <= required <= MAX_SAFE && RemoteLinked(remote)
    && Recordable(remote, c, deploy, head, required) && Rebuildable(remote, c, deploy)
  }

  /** The caller holds the lease, and an existing row waits for exactly its target. */
  predicate Holding(ix: Index, token: Token, required: nat) {
    && Owns(ix, Some(token))
    && (ix.row.Some? ==> ix.row.value.error == Some(SyncIncomplete) && ix.row.value.target == Some(required))
  }

  lemma ClaimHolds(ix: Index, token: Token, required: nat)
    requires RequiredTarget(ix) <= required
    ensures Claim(ix, required, token).Ok? && Holding(Claim(ix, required, token).value, token, required)
  {
  }

  /** The rewind finds what is left of the chain. */
  predicate Rewindable(remote: Remote, chain: seq<Indexed>, deploy: nat, limit: nat) {
    chain != [] ==>
      && remote.block(Tip(chain).number).Some?
      && (Common(remote, chain) < |chain| ==> Reachable(chain, Common(remote, chain), deploy, limit))
  }

  lemma RewoundHolds(remote: Remote, ix: Index, token: Token, deploy: nat, limit: nat, required: nat)
    requires Holding(ix, token, required) && Rewindable(remote, ix.chain, deploy, limit)
    ensures Rewound(remote, ix, token, deploy, limit).0.Ok?
    ensures Holding(Rewound(remote, ix, token, deploy, limit).1, token, required)
  {
  }

  lemma OnChainIsRemote(chains: Chains, c: Contract, remote: Remote, deploy: nat, e: Event)
    requires Linked(ChainOf(chains, c)) && Follows(remote, deploy, ChainOf(chains, c)) && e.contract == c && OnChain(chains, e)
    ensures e in RemoteEvents(remote, e.number) && deploy <= e.number < NextHeight(deploy, ChainOf(chains, c))
  {
    var chain := ChainOf(chains, c);
    assert SameAsRemote(remote, chain[e.number - deploy]);
  }

  /** A stored row of the same payload is not canonical when its event's height is still to come. */
  lemma EventFits(table: EventTable, chains: Chains, c: Contract, remote: Remote, deploy: nat, head: nat, required: nat, e: Event)
    requires EventsMatch(table, chains) && Linked(ChainOf(chains, c)) && Follows(remote, deploy, ChainOf(chains, c))
    requires Recordable(remote, c, deploy, head, required) && PayloadsFit(table, remote, deploy, head)
    requires var n := NextHeight(deploy, ChainOf(chains, c)); n <= head && e in RemoteEvents(remote, n) && e.contract == c
    ensures Agrees(table, e)
  {
    if KeyOf(e) in table {
      var row := table[KeyOf(e)];
      assert RowMatches(chains, KeyOf(e), row) && FitsRow(row, e);
      if row.canonical { OnChainIsRemote(chains, c, remote, deploy, Decode(row).value); }
    }
  }

  lemma EventsFit(table: EventTable, chains: Chains, c: Contract, remote: Remote, deploy: nat, head: nat, required: nat)
    requires EventsMatch(table, chains) && Linked(ChainOf(chains, c)) && Follows(remote, deploy, ChainOf(chains, c))
    requires Recordable(remote, c, deploy, head, required) && PayloadsFit(table, remote, deploy, head)
    requires NextHeight(deploy, ChainOf(chains, c)) <= head
    ensures NoConflict(table, RemoteEvents(remote, NextHeight(deploy, ChainOf(chains, c))))
  {
    var n := NextHeight(deploy, ChainOf(chains, c));
    var items := RemoteEvents(remote, n);
    assert RecordableAt(remote, c, n, required);
    hide EventsMatch, Linked, Follows, Recordable, PayloadsFit, Agrees;
    forall i | 0 <= i < |items| ensures Agrees(table, items[i]) {
      assert ValidEvent(c, remote.block(n).value, items[i]);
      EventFits(table, chains, c, remote, deploy, head, required, items[i]);
    }
  }

  /** The next remote block continues the chain and can be recorded by the holder of the lease. */
  lemma NextIsRecordable(remote: Remote, c: Contract, ix: Index, deploy: nat, head: nat, required: nat, token: Token)
    requires RemoteLinked(remote) && Linked(ix.chain) && Follows(remote, deploy, ix.chain) && Owns(ix, Some(token))
    requires Recordable(remote, c, deploy, head, required) && NextHeight(deploy, ix.chain) <= head
    ensures var n := NextHeight(deploy, ix.chain);
            && RecordableAt(remote, c, n, required) && remote.block(n).value.number == n
            && Extends(ix, remote.block(n).value)
            && CanRecord(c, ix, remote.block(n).value, RemoteEvents(remote, n), Some(required), Some(token))
  {
    hide WellFormed;
    var n := NextHeight(deploy, ix.chain);
    assert RecordableAt(remote, c, n, required) && RemoteAt(remote, n);
    if ix.chain != [] { assert SameAsRemote(remote, ix.chain[|ix.chain| - 1]); }
  }

  /** What a record stores under the identity of a remote event is that event. */
  lemma SuppliedFits(remote: Remote, c: Contract, deploy: nat, head: nat, required: nat, n: nat, m: nat, e: Event, f: Event)
    requires Recordable(remote, c, deploy, head, required) && deploy <= n <= head && deploy <= m <= head
    requires e in RemoteEvents(remote, m) && f in RemoteEvents(remote, n) && KeyOf(e) == KeyOf(f)
    ensures FitsRow(Encode(f, true), e)
  {
    assert RecordableAt(remote, c, n, required);
    assert n == m;
    var items := RemoteEvents(remote, n);
    SameIdentityOnce(items, e, f);
    var i :| 0 <= i < |items| && items[i] == f;
    assert ValidEvent(c, remote.block(n).value, items[i]);
    DecodeEncode(f, true);
  }

  lemma {:induction false} StoredFits(table: EventTable, remote: Remote, c: Contract, deploy: nat, head: nat, required: nat, n: nat, m: nat, e: Event)
    requires Recordable(remote, c, deploy, head, required) && PayloadsFit(table, remote, deploy, head)
    requires deploy <= n <= head && deploy <= m <= head && e in RemoteEvents(remote, m)
    requires KeyOf(e) in StoreAll(table, Sort(RemoteEvents(remote, n)))
    ensures FitsRow(StoreAll(table, Sort(RemoteEvents(remote, n)))[KeyOf(e)], e)
  {
    var items := RemoteEvents(remote, n);
    assert RecordableAt(remote, c, n, required);
    SortedPlaced(c, remote.block(n).value, items, Some(required));
    hide Recordable, RecordableAt, StoreAll, Placed, SameChain, DistinctIdentities, RemoteEvents, FitsRow, Encode;
    StoreAllAt(c, table, Sort(items));
    if i :| 0 <= i < |Sort(items)| && KeyOf(Sort(items)[i]) == KeyOf(e) {
      assert Sort(items)[i] in SetOf(Sort(items));
      SuppliedFits(remote, c, deploy, head, required, n, m, e, Sort(items)[i]);
    }
  }

  lemma SameIdentityOnce(items: seq<Event>, e: Event, f: Event)
    requires DistinctIdentities(items) && e in items && f in items && KeyOf(e) == KeyOf(f)
    ensures e == f
  {
    var i :| 0 <= i < |items| && items[i] == e;
    var j :| 0 <= j < |items| && items[j] == f;
  }

  lemma {:induction false} FitsAfterStore(table: EventTable, remote: Remote, c: Contract, deploy: nat, head: nat, required: nat, n: nat)
    requires Recordable(remote, c, deploy, head, required) && PayloadsFit(table, remote, deploy, head) && deploy <= n <= head
    ensures PayloadsFit(StoreAll(table, Sort(RemoteEvents(remote, n))), remote, deploy, head)
  {
    var table' := StoreAll(table, Sort(RemoteEvents(remote, n)));
    forall m: nat, e | deploy <= m <= head && e in RemoteEvents(remote, m) && KeyOf(e) in table' ensures FitsRow(table'[KeyOf(e)], e) {
      StoredFits(table, remote, c, deploy, head, required, n, m, e);
    }
  }

  lemma FitsAfterRoll(table: EventTable, c: Contract, from: nat, remote: Remote, deploy: nat, head: nat)
    requires PayloadsFit(table, remote, deploy, head)
    ensures PayloadsFit(EventsRolled(table, c, from), remote, deploy, head)
  {
    var table' := EventsRolled(table, c, from);
    forall n: nat, e | deploy <= n <= head && e in RemoteEvents(remote, n) && KeyOf(e) in table' ensures FitsRow(table'[KeyOf(e)], e) {
      assert FitsRow(table[KeyOf(e)], e);
    }
  }

  /** What the integration answers for a chain of remote blocks can be committed by the holder of the lease. */
  lemma RebuildCommits(remote: Remote, c: Contract, deploy: nat, ix: Index, log: seq<Event>, token: Token)
    requires Rebuildable(remote, c, deploy) && ix.chain != [] && Linked(ix.chain) && Follows(remote, deploy, ix.chain)
    requires IsLog(ix.chain, log) && Owns(ix, Some(token)) && ix.row.Some?
    ensures var block := ix.chain[|ix.chain| - 1].block;
            && remote.rebuild(block, log).Some?
            && CanCommit(c, ix, block, remote.rebuild(block, log).value, Some(token))
  {
    assert RebuildsAt(remote, c, ix.chain, log);
    var block := ix.chain[|ix.chain| - 1].block;
    var ps := remote.rebuild(block, log).value;
    forall i | 0 <= i < |ps| ensures ValidProjection(c, ix, block, ps[i]) {
      assert ValidProjection(c, Empty.(chain := ix.chain), block, ps[i]);
    }
  }

  lemma RecordedShape(ix: Index, block: Block, events: seq<Event>, required: nat)
    requires Extends(ix, block)
    ensures var next := Recorded(ix, block, events, Some(required));
            && next.chain == ix.chain + [Indexed(block, SetOf(events))] && next.lease == ix.lease && next.row.Some?
            && (forall token :: Holding(ix, token, required) ==> Holding(next, token, required))
  {
  }

  /** Recording the next remote block keeps following the remote chain. */
  lemma RecordedFollows(remote: Remote, deploy: nat, ix: Index, block: Block, events: seq<Event>, required: nat)
    requires Follows(remote, deploy, ix.chain) && Extends(ix, block) && block.number == NextHeight(deploy, ix.chain)
    requires remote.block(block.number) == Some(block) && remote.events(block) == Some(events)
    ensures var next := Recorded(ix, block, events, Some(required));
            && next.chain == ix.chain + [Indexed(block, SetOf(events))] && next.chain[..|next.chain| - 1] == ix.chain
            && Follows(remote, deploy, next.chain) && next.lease == ix.lease && next.row.Some?
            && (forall token :: Holding(ix, token, required) ==> Holding(next, token, required))
  {
    RecordedShape(ix, block, events, required);
    hide Recorded, Holding, Extends, Follows;
    var next := Recorded(ix, block, events, Some(required));
    assert next.chain[..|next.chain| - 1] == ix.chain;
    FollowsOn(remote, deploy, next.chain);
  }

  lemma CommittedHolds(c: Contract, ix: Index, block: Block, ps: seq<Projection>, token: Token)
    requires CanCommit(c, ix, block, ps, Some(token))
    ensures var next := Committed(ix, block, ps);
            && next.chain == ix.chain && next.lease == ix.lease && AtTip(next)
            && (forall required :: Holding(ix, token, required) ==> Holding(next, token, required))
  {
  }
}
