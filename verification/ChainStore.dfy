/**
The chain store: a database that each method rewrites in one transaction. The ghost
field `chains` is the stack of canonical blocks per contract that the rows stand for.
*/
module ChainStore {
  import opened Results
  import opened Json
  import opened ChainTypes
  import opened Fingerprints
  import opened ChainIndex
  import opened ChainLog
  import opened ChainTables
  import opened EventOrder
  import opened Tracking
  import O = Operations

  type ProjectionTable = map<(Address, string), Projection>

  datatype Tables = Tables(
    blocks: map<Contract, BlockTable>,
    events: EventTable,
    checkpoints: map<Contract, CheckpointRow>,
    leases: map<Contract, Lease>,
    projections: map<Contract, ProjectionTable>,
    operations: OpTable)

  // ------------------------------------------------------------ what the tables stand for

  function Rows(db: Tables, c: Contract): BlockTable { if c in db.blocks then db.blocks[c] else map[] }

  function Stored(db: Tables, c: Contract): Option<CheckpointRow> {
    if c in db.checkpoints then Some(db.checkpoints[c]) else None
  }

  function LeaseOf(db: Tables, c: Contract): Option<Lease> { if c in db.leases then Some(db.leases[c]) else None }

  function ProjectionsOf(db: Tables, c: Contract): ProjectionTable {
    if c in db.projections then db.projections[c] else map[]
  }

  function View(db: Tables, chains: Chains, c: Contract): Index {
    Index(ChainOf(chains, c), if c in db.checkpoints then Some(db.checkpoints[c].row) else None,
          LeaseOf(db, c), ProjectionsOf(db, c))
  }

  ghost predicate Sound(db: Tables, chains: Chains, c: Contract) {
    && BlocksMatch(Rows(db, c), ChainOf(chains, c))
    && Inv(c, View(db, chains, c))
    && (c in db.checkpoints ==> db.checkpoints[c].at == Tip(ChainOf(chains, c)))
  }

  /** The rows stand for these stacks of canonical blocks. */
  ghost predicate Represents(db: Tables, chains: Chains) {
    EventsMatch(db.events, chains) && forall c: Contract :: Sound(db, chains, c)
  }

  predicate SameAt(db: Tables, chains: Chains, db': Tables, chains': Chains, c: Contract) {
    Rows(db, c) == Rows(db', c) && Stored(db, c) == Stored(db', c) && View(db, chains, c) == View(db', chains', c)
  }

  /** A transaction on one contract leaves every other contract as it was. */
  ghost predicate OnlyAt(db: Tables, chains: Chains, db': Tables, chains': Chains, c: Contract) {
    forall d: Contract | d != c :: SameAt(db, chains, db', chains', d)
  }

  lemma OthersSound(db: Tables, chains: Chains, db': Tables, chains': Chains, c: Contract)
    requires Represents(db, chains) && OnlyAt(db, chains, db', chains', c)
    requires EventsMatch(db'.events, chains') && Sound(db', chains', c)
    ensures Represents(db', chains')
  {
    forall d: Contract ensures Sound(db', chains', d) {
      if d != c { assert SameAt(db, chains, db', chains', d) && Sound(db, chains, d); }
    }
  }

  predicate ValidToken(token: Token) {
    |token| == 36 && forall i | 0 <= i < 36 :: '0' <= token[i] <= '9' || 'a' <= token[i] <= 'f' || token[i] == '-'
  }

  /** Fewer identities than events. */
  predicate Repeated(events: seq<Event>)
    ensures Repeated(events) <==> !DistinctIdentities(events)
  {
    IdentityCount(Sort(events));
    SortDistinct(events);
    |Identities(Sort(events))| != |Sort(events)|
  }

  /** A target that is too large is found out only when the row is written. */
  function WritableTarget(target: Option<nat>): Option<nat> { if target.Some? && target.value > MAX_SAFE then None else target }

  /** The refusal that needs no table, in the order of the source's checks. */
  function BlockFault(c: Contract, block: Block, events: seq<Event>, target: Option<nat>): Option<Fault> {
    if block.number > MAX_SAFE then Some(NumberUnsupported)
    else if block.timestamp < 0 || |events| > 10_000 then Some(InvalidBlock)
    else if target.Some? && target.value < block.number then Some(InvalidTarget)
    else if !ValidEvents(c, block, events) then Some(InvalidEvent)
    else if Repeated(events) then Some(EventConflict)
    else None
  }

  lemma BlockFaultIff(c: Contract, block: Block, events: seq<Event>, target: Option<nat>)
    requires WritableTarget(target) == target
    ensures BlockFault(c, block, events, target).None? <==> WellFormed(c, block, events, target)
  {
    hide ValidEvents, DistinctIdentities;
  }

  // ------------------------------------------------------------ about one record

  lemma {:induction false} StoreAgain(events: EventTable, items: seq<Event>)
    requires forall i | 0 <= i < |items| :: StoredCanonical(events, items[i])
    ensures StoreAll(events, items) == events
  {
    if items != [] {
      assert StoredCanonical(events, items[|items| - 1]);
      StoreAgain(events, items[..|items| - 1]);
    }
  }

  /** Events that are stored as canonical meet no conflict and insert nothing. */
  lemma {:induction false} StoredAgain(events: EventTable, c: Contract, block: Block, items: seq<Event>)
    requires Placed(c, block, items) && forall i | 0 <= i < |items| :: StoredCanonical(events, items[i])
    ensures NoConflict(events, items) && StoreAll(events, items) == events && CountFresh(events, items) == 0
  {
    StoreAgain(events, items);
    CountFreshAll(events, items);
    forall i | 0 <= i < |items| ensures Agrees(events, items[i]) {
      assert StoredCanonical(events, items[i]);
      DecodeEncode(items[i], true);
    }
  }

  lemma {:induction false} NoConflictSorted(events: EventTable, items: seq<Event>)
    ensures NoConflict(events, Sort(items)) <==> NoConflict(events, items)
  {
    SortFacts(items);
    if NoConflict(events, items) {
      forall i | 0 <= i < |items| ensures Agrees(events, Sort(items)[i]) {
        assert Sort(items)[i] in items;
      }
    } else {
      var i :| 0 <= i < |items| && !Agrees(events, items[i]);
      assert items[i] in Sort(items);
    }
  }

  lemma {:induction false} SortedPlaced(c: Contract, block: Block, items: seq<Event>, target: Option<nat>)
    requires WellFormed(c, block, items, target)
    ensures Placed(c, block, Sort(items)) && SameChain(c, Sort(items)) && DistinctIdentities(Sort(items))
    ensures SameChain(c, items) && DistinctIdentities(items)
    ensures SetOf(Sort(items)) == SetOf(items) && |SetOf(items)| == |items| == |Sort(items)|
  {
    SortFacts(items);
    SortDistinct(items);
    IdentityCount(items);
    forall i | 0 <= i < |items| ensures Lives(c, block, Sort(items)[i]) {
      assert Sort(items)[i] in items;
    }
  }

  /** A new block meets only events that are not canonical, so every event of it is inserted or revived. */
  lemma {:induction false} AllFresh(events: EventTable, chains: Chains, c: Contract, block: Block, items: seq<Event>)
    requires EventsMatch(events, chains) && NoConflict(events, items) && Placed(c, block, items)
    requires !HasHeight(ChainOf(chains, c), block.number)
    ensures CountFresh(events, items) == |items|
  {
    forall i | 0 <= i < |items| ensures IsFresh(events, items[i]) {
      FreshIsNotCanonical(events, chains, items[i]);
    }
    CountFreshAll(events, items);
  }

  lemma MatchesAreSound(events: EventTable, chains: Chains)
    requires EventsMatch(events, chains)
    ensures RowsSound(events)
  {
    forall k | k in events
      ensures Decode(events[k]).Some? && KeyOf(Decode(events[k]).value) == k
      ensures events[k] == Encode(Decode(events[k]).value, events[k].canonical)
    {
      assert RowMatches(chains, k, events[k]);
    }
  }

  lemma WellFormedHere(db: Tables, chains: Chains, c: Contract, block: Block, items: seq<Event>, target: Option<nat>,
                       token: Option<Token>)
    requires Represents(db, chains)
    ensures var ix := View(db, chains, c);
            CanRecord(c, ix, block, items, target, token) ==>
              WellFormed(c, block, items, target) && RecordFault(ix, block, token).None?
    ensures var ix := View(db, chains, c);
            (&& WellFormed(c, block, items, target) && RecordFault(ix, block, token).None?
             && (Extends(ix, block) || Repeats(ix, block, items))) ==> CanRecord(c, ix, block, items, target, token)
  {
    hide EventsMatch, BlocksMatch, WellFormed;
    assert Sound(db, chains, c);
  }

  lemma TargetFits(c: Contract, block: Block, items: seq<Event>, target: Option<nat>)
    ensures WellFormed(c, block, items, target) ==> WritableTarget(target) == target
  {
  }

  /** The refusals of a well-formed record that need no event row. */
  function RecordFault(ix: Index, block: Block, token: Option<Token>): Option<Fault> {
    if !Owns(ix, token) then Some(Superseded)
    else if HasHeight(ix.chain, block.number) then
      if block.number < Tip(ix.chain).number then Some(OutOfOrder)
      else if At(ix.chain, block.number).block.hash != block.hash then Some(BlockConflict)
      else None
    else if Extends(ix, block) then None else Some(ParentMismatch)
  }

  lemma {:induction false} Appended(rows: BlockTable, events: EventTable, chains: Chains, c: Contract, ix: Index, block: Block,
                 items: seq<Event>, target: Option<nat>, token: Option<Token>)
    requires EventsMatch(events, chains) && BlocksMatch(rows, ix.chain) && Inv(c, ix) && ix.chain == ChainOf(chains, c)
    requires CanRecord(c, ix, block, items, target, token) && Extends(ix, block) && NoConflict(events, Sort(items))
    ensures var chain := ix.chain + [Indexed(block, SetOf(items))];
            && EventsMatch(StoreAll(events, Sort(items)), chains[c := chain])
            && BlocksMatch(rows[Ref(block.number, block.hash) := BlockRow(block.parent, block.timestamp, |items|, true)], chain)
            && Inv(c, Push(ix, block, items))
  {
    SortedPlaced(c, block, items, target);
    RecordEvents(events, chains, c, block, Sort(items), ix);
    RecordBlocks(rows, ix, block, items);
    WellFormedBelongs(c, block, items, target);
    PushKeeps(c, ix, block, items);
  }

  /** The checkpoint row, if there is one, and the lease of a contract set anew. */
  function Turned(db: Tables, c: Contract, row: Row, lease: Option<Lease>): Tables {
    db.(checkpoints := if c in db.checkpoints then db.checkpoints[c := db.checkpoints[c].(row := row)] else db.checkpoints,
        leases := if lease.Some? then db.leases[c := lease.value] else db.leases - {c})
  }

  lemma TurnedOnly(db: Tables, chains: Chains, c: Contract, row: Row, lease: Option<Lease>)
    ensures OnlyAt(db, chains, Turned(db, c, row, lease), chains, c)
    ensures View(Turned(db, c, row, lease), chains, c) ==
              View(db, chains, c).(row := if c in db.checkpoints then Some(row) else None, lease := lease)
  {
  }

  lemma TurnedInv(c: Contract, ix: Index, row: Row, lease: Option<Lease>)
    requires Inv(c, ix) && (ix.row.Some? ==> LegalHealth(row) && row.projected == ix.row.value.projected)
    ensures Inv(c, ix.(row := if ix.row.Some? then Some(row) else None, lease := lease))
  {
  }

  /** Setting a legal row with the same projected checkpoint changes the index of that contract only, as it says. */
  lemma TurnedSound(db: Tables, chains: Chains, c: Contract, row: Row, lease: Option<Lease>)
    requires Represents(db, chains)
    requires c in db.checkpoints ==> LegalHealth(row) && row.projected == db.checkpoints[c].row.projected
    ensures var db' := Turned(db, c, row, lease);
            && Represents(db', chains) && OnlyAt(db, chains, db', chains, c)
            && View(db', chains, c) ==
                 View(db, chains, c).(row := if c in db.checkpoints then Some(row) else None, lease := lease)
  {
    assert Sound(db, chains, c);
    TurnedOnly(db, chains, c, row, lease);
    TurnedInv(c, View(db, chains, c), row, lease);
    OthersSound(db, chains, Turned(db, c, row, lease), chains, c);
  }

  // a block that is already canonical

  lemma StoredBlock(db: Tables, chains: Chains, c: Contract, block: Block)
    requires Represents(db, chains) && InChain(ChainOf(chains, c), block.number, block.hash)
    ensures var at := At(ChainOf(chains, c), block.number);
            var row := Ref(block.number, block.hash);
            && CanonicalSetAt(db.events, c, block.number) == at.events
            && row in Rows(db, c) && Rows(db, c)[row].logCount == |at.events|
            && forall e | e in at.events :: e.contract == c
  {
    assert Sound(db, chains, c);
    CanonicalRow(Rows(db, c), ChainOf(chains, c), Ref(block.number, block.hash));
    CanonicalSetAtHeight(db.events, chains, c, block.number);
    assert Belongs(c, At(ChainOf(chains, c), block.number));
  }

  lemma {:induction false} BlockStoredAgain(db: Tables, chains: Chains, c: Contract, block: Block, items: seq<Event>, target: Option<nat>)
    requires Represents(db, chains) && HasHeight(ChainOf(chains, c), block.number)
    requires WellFormed(c, block, items, target) && At(ChainOf(chains, c), block.number).events == SetOf(items)
    ensures var sorted := Sort(items);
            NoConflict(db.events, sorted) && StoreAll(db.events, sorted) == db.events && CountFresh(db.events, sorted) == 0
  {
    hide EventsMatch, BlocksMatch, Inv, WellFormed, NoConflict;
    var chain, sorted := ChainOf(chains, c), Sort(items);
    SortedPlaced(c, block, items, target);
    forall i | 0 <= i < |sorted| ensures StoredCanonical(db.events, sorted[i]) {
      assert sorted[i] in SetOf(sorted);
      ChainEvent(db.events, chains, c, block.number - chain[0].block.number, sorted[i]);
    }
    StoredAgain(db.events, c, block, sorted);
  }

  lemma {:induction false} NewBlockFresh(db: Tables, chains: Chains, c: Contract, block: Block, items: seq<Event>, target: Option<nat>)
    requires Represents(db, chains) && !HasHeight(ChainOf(chains, c), block.number) && WellFormed(c, block, items, target)
    ensures RowsSound(db.events)
    ensures NoConflict(db.events, Sort(items)) <==> NoConflict(db.events, items)
    ensures NoConflict(db.events, items) ==> CountFresh(db.events, Sort(items)) == |items|
  {
    hide EventsMatch, WellFormed, NoConflict, Sound, RowsSound, Placed;
    SortedPlaced(c, block, items, target);
    MatchesAreSound(db.events, chains);
    NoConflictSorted(db.events, items);
    if NoConflict(db.events, items) { AllFresh(db.events, chains, c, block, Sort(items)); }
  }

  /** Past the refusals, a record either extends the chain or offers the tip again. */
  lemma RecordCases(db: Tables, chains: Chains, c: Contract, block: Block, items: seq<Event>, token: Option<Token>)
    requires Represents(db, chains) && RecordFault(View(db, chains, c), block, token).None?
    ensures var ix := View(db, chains, c);
            && (HasHeight(ix.chain, block.number) <==> !Extends(ix, block))
            && (HasHeight(ix.chain, block.number) ==> InChain(ix.chain, block.number, block.hash))
            && (HasHeight(ix.chain, block.number) ==>
                  (Repeats(ix, block, items) <==> At(ix.chain, block.number).events == SetOf(items)))
            && (Repeats(ix, block, items) ==> HasHeight(ix.chain, block.number))
            && (Extends(ix, block) <==> ix.chain == [] || Tip(ix.chain).number < block.number)
  {
    hide EventsMatch, BlocksMatch;
    assert Sound(db, chains, c);
  }

  lemma CheckpointedTip(db: Tables, chains: Chains, c: Contract)
    requires Represents(db, chains)
    ensures c in db.checkpoints <==> ChainOf(chains, c) != []
  {
    assert Sound(db, chains, c);
  }

  lemma OnlyAtReflexive(db: Tables, chains: Chains, c: Contract)
    ensures OnlyAt(db, chains, db, chains, c)
  {
  }

  lemma OnlyAtTransitive(a: Tables, x: Chains, b: Tables, y: Chains, d: Tables, z: Chains, c: Contract)
    requires OnlyAt(a, x, b, y, c) && OnlyAt(b, y, d, z, c)
    ensures OnlyAt(a, x, d, z, c)
  {
    forall e: Contract | e != c ensures SameAt(a, x, d, z, e) {
      assert SameAt(a, x, b, y, e) && SameAt(b, y, d, z, e);
    }
  }

  // appending

  function WithBlock(db: Tables, c: Contract, block: Block, count: nat, table: EventTable): Tables {
    var at := Ref(block.number, block.hash);
    db.(blocks := db.blocks[c := Rows(db, c)[at := BlockRow(block.parent, block.timestamp, count, true)]],
        events := table,
        checkpoints := db.checkpoints[c := CheckpointRow(at, if c in db.checkpoints then db.checkpoints[c].row else Fresh)])
  }

  lemma WithBlockOnly(db: Tables, chains: Chains, c: Contract, block: Block, items: seq<Event>, table: EventTable)
    requires c in db.checkpoints || ChainOf(chains, c) == []
    ensures var ix := View(db, chains, c);
            var db', chains' := WithBlock(db, c, block, |items|, table), chains[c := ix.chain + [Indexed(block, SetOf(items))]];
            OnlyAt(db, chains, db', chains', c) && View(db', chains', c) == Push(ix, block, items)
  {
  }

  lemma {:induction false} WithBlockSound(db: Tables, chains: Chains, c: Contract, block: Block, items: seq<Event>, target: Option<nat>,
                       token: Option<Token>)
    requires Represents(db, chains) && CanRecord(c, View(db, chains, c), block, items, target, token)
    requires Extends(View(db, chains, c), block) && NoConflict(db.events, Sort(items))
    ensures var ix := View(db, chains, c);
            var db' := WithBlock(db, c, block, |items|, StoreAll(db.events, Sort(items)));
            var chains' := chains[c := ix.chain + [Indexed(block, SetOf(items))]];
            Represents(db', chains') && OnlyAt(db, chains, db', chains', c) && View(db', chains', c) == Push(ix, block, items)
  {
    assert Sound(db, chains, c);
    var ix, table := View(db, chains, c), StoreAll(db.events, Sort(items));
    WithBlockOnly(db, chains, c, block, items, table);
    Appended(Rows(db, c), db.events, chains, c, ix, block, items, target, token);
    OthersSound(db, chains, WithBlock(db, c, block, |items|, table),
                chains[c := ix.chain + [Indexed(block, SetOf(items))]], c);
  }

  // rolling back

  function RolledTables(db: Tables, c: Contract, from: nat, previous: Option<Ref>): Tables {
    db.(blocks := db.blocks[c := BlocksRolled(Rows(db, c), from)],
        events := EventsRolled(db.events, c, from),
        operations := Displace(db.operations, c, from),
        projections := db.projections - {c},
        checkpoints :=
          if previous.None? then db.checkpoints - {c}
          else if c !in db.checkpoints then db.checkpoints
          else db.checkpoints[c := CheckpointRow(previous.value, db.checkpoints[c].row.(projected := None))])
  }

  lemma RolledOnly(db: Tables, chains: Chains, c: Contract, from: nat, previous: Option<Ref>)
    requires c in db.checkpoints <==> ChainOf(chains, c) != []
    requires previous == ChainIndex.Checkpoint(RolledBack(View(db, chains, c), from))
    ensures var db', chains' := RolledTables(db, c, from, previous), chains[c := Truncate(ChainOf(chains, c), from)];
            OnlyAt(db, chains, db', chains', c) && View(db', chains', c) == RolledBack(View(db, chains, c), from)
  {
  }

  lemma RolledSound(db: Tables, chains: Chains, c: Contract, from: nat, previous: Option<Ref>)
    requires Represents(db, chains) && previous == ChainIndex.Checkpoint(RolledBack(View(db, chains, c), from))
    ensures var db', chains' := RolledTables(db, c, from, previous), chains[c := Truncate(ChainOf(chains, c), from)];
            && Represents(db', chains') && OnlyAt(db, chains, db', chains', c)
            && View(db', chains', c) == RolledBack(View(db, chains, c), from)
  {
    assert Sound(db, chains, c);
    var db', chains' := RolledTables(db, c, from, previous), chains[c := Truncate(ChainOf(chains, c), from)];
    RolledOnly(db, chains, c, from, previous);
    RollBlocks(Rows(db, c), ChainOf(chains, c), from);
    RollEvents(db.events, chains, c, from);
    RollbackKeeps(c, View(db, chains, c), from);
    RolledHere(db, chains, db', chains', c);
  }

  lemma RolledHere(db: Tables, chains: Chains, db': Tables, chains': Chains, c: Contract)
    requires Represents(db, chains) && OnlyAt(db, chains, db', chains', c)
    requires EventsMatch(db'.events, chains') && BlocksMatch(Rows(db', c), ChainOf(chains', c))
    requires Inv(c, View(db', chains', c)) && (c in db'.checkpoints ==> db'.checkpoints[c].at == Tip(ChainOf(chains', c)))
    ensures Represents(db', chains')
  {
    OthersSound(db, chains, db', chains', c);
  }

  lemma OrphansMove(db: Tables, chains: Chains, c: Contract, from: nat)
    requires Represents(db, chains) && OpsInv(c, ChainOf(chains, c), db.operations)
    ensures OnlyOrphanedMove(c, Truncate(ChainOf(chains, c), from), db.operations, Displace(db.operations, c, from))
  {
    assert Sound(db, chains, c);
    RollbackMovesOrphans(c, View(db, chains, c), db.operations, from);
  }

  lemma EventsRolledHere(db: Tables, chains: Chains, c: Contract, from: nat)
    requires Represents(db, chains)
    ensures |CanonicalKeys(db.events, c) - CanonicalKeys(EventsRolled(db.events, c, from), c)| ==
            |AllEvents(ChainOf(chains, c))| - |AllEvents(Truncate(ChainOf(chains, c), from))|
  {
    assert Sound(db, chains, c);
    RolledKeysCount(db.events, chains, c, from);
  }

  lemma RolledCounts(db: Tables, chains: Chains, c: Contract, from: nat)
    requires Represents(db, chains)
    ensures var chain, chain' := ChainOf(chains, c), Truncate(ChainOf(chains, c), from);
            var before, after := Rows(db, c), BlocksRolled(Rows(db, c), from);
            && |CanonicalRefs(before) - CanonicalRefs(after)| == |chain| - |chain'|
            && (forall r :: IsHighest(after, r) <==> chain' != [] && r == Tip(chain'))
            && (chain' != [] ==> IsHighest(after, Tip(chain')))
  {
    hide EventsMatch, OnlyAt;
    assert Sound(db, chains, c);
    var chain, chain' := ChainOf(chains, c), Truncate(ChainOf(chains, c), from);
    var before, after := Rows(db, c), BlocksRolled(Rows(db, c), from);
    RollBlocks(before, chain, from);
    RollbackKeeps(c, View(db, chains, c), from);
    CanonicalRefsCount(before, chain);
    CanonicalRefsCount(after, chain');
    assert CanonicalRefs(after) <= CanonicalRefs(before);
    forall r ensures IsHighest(after, r) <==> chain' != [] && r == Tip(chain') { HighestIsTip(after, chain', r); }
  }

  /** The rows of each table that a rollback changes. */
  datatype Changes = Changes(blocks: nat, events: nat, operations: nat, projections: nat)

  // committing

  function CommittedTables(db: Tables, c: Contract, block: Block, ps: seq<Projection>): Tables
    requires c in db.checkpoints
  {
    db.(projections := db.projections[c := ProjectionMap(ps)],
        checkpoints := db.checkpoints[c := db.checkpoints[c].(row :=
          db.checkpoints[c].row.(projected := Some(Ref(block.number, block.hash))))])
  }

  /** The first of a projection's checks that refuses it, after those before it. */
  function ProjectionFault(c: Contract, ix: Index, block: Block, ps: seq<Projection>, i: nat): (fault: Option<Fault>)
    requires i < |ps|
    ensures fault.None? <==> ValidProjection(c, ix, block, ps[i]) && (ps[i].owner, ps[i].key) !in ProjectionMap(ps[..i])
  {
    var p := ps[i];
    if p.contract != c || block.number < p.number || !ValidName(p.key) then Some(InvalidProjection)
    else if !InChain(ix.chain, p.number, p.hash) then Some(BlockNotCanonical)
    else if (p.owner, p.key) in ProjectionMap(ps[..i]) then Some(DuplicateProjection)
    else if !Writable(p.state) then Some(InvalidProjection)
    else None
  }

  predicate AllFit(c: Contract, ix: Index, block: Block, ps: seq<Projection>, n: nat)
    requires n <= |ps|
  {
    forall j | 0 <= j < n :: ProjectionFault(c, ix, block, ps, j).None?
  }

  /** The fault is that of the first projection that is refused. */
  predicate FirstUnfit(c: Contract, ix: Index, block: Block, ps: seq<Projection>, i: nat, fault: Fault)
    requires i < |ps|
  {
    AllFit(c, ix, block, ps, i) && ProjectionFault(c, ix, block, ps, i) == Some(fault)
  }

  lemma NextFits(c: Contract, ix: Index, block: Block, ps: seq<Projection>, i: nat)
    requires i < |ps| && AllFit(c, ix, block, ps, i) && DistinctKeys(ps[..i])
    ensures var fault := ProjectionFault(c, ix, block, ps, i);
            if fault.None? then AllFit(c, ix, block, ps, i + 1)
            else FirstUnfit(c, ix, block, ps, i, fault.value) && !ValidProjections(c, ix, block, ps)
  {
    DistinctLast(ps, i);
  }

  lemma AllAreValid(c: Contract, ix: Index, block: Block, ps: seq<Projection>)
    requires AllFit(c, ix, block, ps, |ps|) && DistinctKeys(ps)
    ensures ValidProjections(c, ix, block, ps)
  {
    forall i | 0 <= i < |ps| ensures ValidProjection(c, ix, block, ps[i]) {
      assert ProjectionFault(c, ix, block, ps, i).None?;
    }
  }

  /** Why `commitProjections` refuses: the checks outside the transaction come first, then the owner. */
  ghost predicate CommitRefused(c: Contract, ix: Index, block: Block, ps: seq<Projection>, token: Option<Token>, fault: Fault) {
    if block.number > MAX_SAFE then fault == NumberUnsupported
    else if ChainIndex.Checkpoint(ix) != Some(Ref(block.number, block.hash)) then fault == BlockNotCanonical
    else if !ValidProjections(c, ix, block, ps) then exists i | 0 <= i < |ps| :: FirstUnfit(c, ix, block, ps, i, fault)
    else !Owns(ix, token) && fault == Superseded
  }

  lemma CommittedSound(db: Tables, chains: Chains, c: Contract, block: Block, ps: seq<Projection>, token: Option<Token>)
    requires Represents(db, chains) && CanCommit(c, View(db, chains, c), block, ps, token)
    ensures var db' := CommittedTables(db, c, block, ps);
            && Represents(db', chains) && OnlyAt(db, chains, db', chains, c)
            && View(db', chains, c) == Committed(View(db, chains, c), block, ps)
  {
    hide CanCommit, EventsMatch, BlocksMatch;
    assert Sound(db, chains, c);
    CommitKeeps(c, View(db, chains, c), block, ps, token);
    OthersSound(db, chains, CommittedTables(db, c, block, ps), chains, c);
  }

  class ChainStore {
    var db: Tables
    ghost var chains: Chains

    ghost predicate Valid()
      reads this
    {
      Represents(db, chains)
    }

    ghost function Index(c: Contract): Index
      reads this
    {
      View(db, chains, c)
    }

    /** Nothing but what the store keeps for `c` has changed. */
    twostate predicate Only(c: Contract)
      reads this
    {
      OnlyAt(old(db), old(chains), db, chains, c)
    }

    constructor ()
      ensures Valid() && db.operations == map[]
      ensures forall c: Contract :: Index(c) == Empty
    {
      db, chains := Tables(map[], map[], map[], map[], map[], map[]), map[];
    }

    // ---------------------------------------------------------- reading

    function Checkpoint(c: Contract): (at: Option<Ref>)
      requires Valid()
      reads this
      ensures at == ChainIndex.Checkpoint(Index(c))
    {
      assert Sound(db, chains, c);
      if c in db.checkpoints then Some(db.checkpoints[c].at) else None
    }

    predicate OwnsNow(c: Contract, token: Option<Token>)
      reads this
      ensures OwnsNow(c, token) <==> Owns(Index(c), token)
    {
      if c in db.leases then token == Some(db.leases[c].token) else token.None?
    }

    /** `canonicalBlock`: the canonical row at a height. */
    method CanonicalBlock(c: Contract, number: nat) returns (block: Option<Block>)
      requires Valid()
      ensures block == if HasHeight(Index(c).chain, number) then Some(At(Index(c).chain, number).block) else None
    {
      var rows := Rows(db, c);
      ghost var chain := Index(c).chain;
      assert Sound(db, chains, c);
      if r :| r in rows && r.number == number && rows[r].canonical {
        CanonicalRow(rows, chain, r);
        block := Some(Block(number, r.hash, rows[r].parent, rows[r].timestamp));
      } else {
        if HasHeight(chain, number) { CanonicalRow(rows, chain, RefOf(At(chain, number))); }
        block := None;
      }
    }

    /** `canonicalEvents`: the log of the chain, whatever was orphaned or mined again. */
    method CanonicalEvents(c: Contract) returns (log: seq<Event>)
      requires Valid()
      ensures IsLog(Index(c).chain, log)
    {
      CanonicalSetIsChain(db.events, chains, c);
      log := ReadInOrder(CanonicalSet(db.events, c));
    }

    /** `projection`, from the joined checkpoint, lease and projection rows. */
    method Projection(c: Contract, owner: Address, key: string) returns (r: Result<Option<Projection>, Fault>)
      requires Valid()
      ensures r == ReadProjection(Index(c), owner, key)
    {
      assert Sound(db, chains, c);
      var found := if (owner, key) in ProjectionsOf(db, c) then Some(ProjectionsOf(db, c)[(owner, key)]) else None;
      if c in db.leases { return Err(Unhealthy); }
      if c !in db.checkpoints { return if found.Some? then Err(Corrupt) else Ok(None); }
      var stored := db.checkpoints[c];
      if !LegalHealth(stored.row) { return Err(Corrupt); }
      if !stored.row.healthy { return Err(Unhealthy); }
      if stored.row.projected != Some(stored.at) { return Err(ProjectionPending); }
      r := Ok(found);
    }

    // ---------------------------------------------------------- leases and health

    method ClaimSync(c: Contract, target: nat, token: Token) returns (r: Result<(), Fault>)
      requires Valid()
      modifies this`db
      ensures Valid() && Only(c) && db.events == old(db.events) && db.operations == old(db.operations)
      ensures r.Err? ==> db == old(db)
      ensures !ValidToken(token) ==> r == Err(InvalidOwner)
      ensures ValidToken(token) && target > MAX_SAFE ==> r == Err(NumberUnsupported)
      ensures ValidToken(token) && target <= MAX_SAFE ==>
                match old(Claim(Index(c), target, token))
                case Ok(ix) => r.Ok? && Index(c) == ix
                case Err(fault) => r == Err(fault)
    {
      if !ValidToken(token) { return Err(InvalidOwner); }
      if target > MAX_SAFE { return Err(NumberUnsupported); }
      var leased := if c in db.leases then db.leases[c].target else -1;
      var stored :=
        if c in db.checkpoints && db.checkpoints[c].row.target.Some? then db.checkpoints[c].row.target.value else -1;
      var required := Max(leased, stored);
      if target < required { return Err(TargetBehind); }
      var row := if c in db.checkpoints then Raise(db.checkpoints[c].row, target) else Fresh;
      var lease := Some(Lease(token, Max(leased, target)));
      TurnedSound(db, chains, c, row, lease);
      db, r := Turned(db, c, row, lease), Ok(());
    }

    method MarkSyncUnhealthy(c: Contract, error: SyncError, target: Option<nat>, token: Option<Token>)
      returns (r: Result<(), Fault>)
      requires Valid()
      modifies this`db
      ensures Valid() && Only(c) && db.events == old(db.events) && db.operations == old(db.operations)
      ensures r.Err? ==> db == old(db)
      ensures error == SyncIncomplete && target.Some? && target.value > MAX_SAFE ==> r == Err(NumberUnsupported)
      ensures !(error == SyncIncomplete && target.Some? && target.value > MAX_SAFE) ==>
                match old(MarkUnhealthy(Index(c), error, target, token))
                case Ok(ix) => r.Ok? && Index(c) == ix
                case Err(fault) => r == Err(fault)
    {
      if (error == SyncIncomplete) != target.Some? { return Err(InvalidHealth); }
      if target.Some? && target.value > MAX_SAFE { return Err(NumberUnsupported); }
      assert Sound(db, chains, c);
      if !OwnsNow(c, token) { return Err(Superseded); }
      if c !in db.checkpoints { return Err(CheckpointNotFound); }
      var row := db.checkpoints[c].row;
      var marked := if target.Some? then Raise(row, target.value)
                    else row.(healthy := false, error := Some(error), target := None);
      var lease := if target.Some? then LeaseOf(db, c) else None;
      TurnedSound(db, chains, c, marked, lease);
      db, r := Turned(db, c, marked, lease), Ok(());
    }

    /** `r.value` says whether the row was turned healthy. */
    method MarkSyncHealthy(c: Contract, completed: nat, token: Option<Token>) returns (r: Result<bool, Fault>)
      requires Valid()
      modifies this`db
      ensures Valid() && Only(c) && db.events == old(db.events) && db.operations == old(db.operations)
      ensures r != Ok(true) ==> db == old(db)
      ensures completed > MAX_SAFE ==> r == Err(NumberUnsupported)
      ensures completed <= MAX_SAFE ==>
                match old(MarkHealthy(Index(c), completed, token))
                case Ok((ix, done)) => r == Ok(done) && Index(c) == ix
                case Err(fault) => r == Err(fault)
    {
      if completed > MAX_SAFE { return Err(NumberUnsupported); }
      assert Sound(db, chains, c);
      if !OwnsNow(c, token) { return Err(Superseded); }
      if c !in db.checkpoints { return Ok(false); }
      var at, row := db.checkpoints[c].at, db.checkpoints[c].row;
      if row.error != Some(SyncIncomplete) || at.number < completed || row.projected != Some(at) ||
         row.target.None? || completed < row.target.value {
        return Ok(false);
      }
      var marked := row.(healthy := true, error := None, target := None);
      TurnedSound(db, chains, c, marked, None);
      db, r := Turned(db, c, marked, None), Ok(true);
    }

    method ReleaseSyncIncomplete(c: Contract, target: nat, token: Token) returns (r: Result<(), Fault>)
      requires Valid()
      modifies this`db
      ensures Valid() && Only(c) && db.events == old(db.events) && db.operations == old(db.operations)
      ensures r.Err? ==> db == old(db)
      ensures target > MAX_SAFE ==> r == Err(NumberUnsupported)
      ensures target <= MAX_SAFE ==>
                match old(ReleaseIncomplete(Index(c), target, token))
                case Ok(ix) => r.Ok? && Index(c) == ix
                case Err(fault) => r == Err(fault)
    {
      if target > MAX_SAFE { return Err(NumberUnsupported); }
      if !OwnsNow(c, Some(token)) { return Err(Superseded); }
      if c !in db.checkpoints { return Err(CheckpointNotFound); }
      var row := Raise(db.checkpoints[c].row, target);
      TurnedSound(db, chains, c, row, None);
      db, r := Turned(db, c, row, None), Ok(());
    }

    // ---------------------------------------------------------- blocks

    /** The comparison with a block that is already canonical, and the storing of its events. */
    method StoreBlockEvents(c: Contract, block: Block, items: seq<Event>, target: Option<nat>, token: Option<Token>)
      returns (r: Result<(EventTable, nat), Fault>)
      requires Valid() && WellFormed(c, block, items, target) && RecordFault(Index(c), block, token).None?
      ensures r.Ok? ==> NoConflict(db.events, Sort(items)) && r.value.0 == StoreAll(db.events, Sort(items))
      ensures r.Ok? && Extends(Index(c), block) ==> r.value.1 == |items|
      ensures r.Ok? && !Extends(Index(c), block) ==>
                Repeats(Index(c), block, items) && r.value.0 == db.events && r.value.1 == 0
      ensures Extends(Index(c), block) && NoConflict(db.events, items) ==> r.Ok?
      ensures Repeats(Index(c), block, items) && DistinctPositions(SetOf(items)) ==> r.Ok?
      ensures r.Err? ==> r.error == BlockConflict || r.error == EventConflict
    {
      hide Represents, WellFormed, NoConflict, RowsSound, Placed, SameChain, DistinctIdentities, Extends, Repeats, DistinctPositions;
      SortedPlaced(c, block, items, target);
      RecordCases(db, chains, c, block, items, token);
      var existing := CanonicalBlock(c, block.number);
      if existing.Some? {
        StoredBlock(db, chains, c, block);
        var differs := CompareBlock(c, Rows(db, c)[Ref(block.number, block.hash)].logCount,
                                    CanonicalSetAt(db.events, c, block.number), items);
        if differs.Some? { return Err(differs.value); }
        BlockStoredAgain(db, chains, c, block, items, target);
        r := Ok((db.events, 0));
      } else {
        NewBlockFresh(db, chains, c, block, items, target);
        var ok, table, inserted := StoreEvents(db.events, Sort(items), c);
        if !ok { return Err(EventConflict); }
        r := Ok((table, inserted));
      }
    }

    method CheckRecord(c: Contract, block: Block, token: Option<Token>) returns (fault: Option<Fault>)
      requires Valid()
      ensures fault == RecordFault(Index(c), block, token)
    {
      hide EventsMatch, BlocksMatch;
      assert Sound(db, chains, c);
      if !OwnsNow(c, token) { return Some(Superseded); }
      var current := Checkpoint(c);
      var existing := CanonicalBlock(c, block.number);
      if existing.Some? {
        if current.Some? && block.number < current.value.number { return Some(OutOfOrder); }
        if existing.value.hash != block.hash { return Some(BlockConflict); }
      } else if current.Some? && (block.number != current.value.number + 1 || block.parent != current.value.hash) {
        return Some(ParentMismatch);
      }
      fault := None;
    }

    /** The statement that marks a checkpoint row incomplete up to a target; without a row it changes nothing. */
    method RaiseTarget(c: Contract, target: nat)
      requires Valid()
      modifies this`db
      ensures Valid() && Only(c) && db.events == old(db.events) && db.operations == old(db.operations)
      ensures Index(c) == RaiseIndex(old(Index(c)), target)
    {
      if c in db.checkpoints {
        var row := Raise(db.checkpoints[c].row, target);
        TurnedSound(db, chains, c, row, LeaseOf(db, c));
        db := Turned(db, c, row, LeaseOf(db, c));
      }
    }

    /**
    `recordCanonicalBlock`. A refusal changes nothing; a success leaves the index that
    `Recorded` describes and reports how many events it inserted or revived.
    */
    method RecordCanonicalBlock(c: Contract, block: Block, items: seq<Event>, target: Option<nat>, token: Option<Token>)
      returns (r: Result<nat, Fault>)
      requires Valid()
      modifies this
      ensures Valid() && Only(c) && db.operations == old(db.operations)
      ensures r.Err? ==> db == old(db) && chains == old(chains)
      ensures r.Ok? ==> old(CanRecord(c, Index(c), block, items, target, token)) && NoConflict(old(db.events), Sort(items))
      ensures r.Ok? ==> Index(c) == old(Recorded(Index(c), block, items, target))
      ensures r.Ok? ==> r.value == if old(Extends(Index(c), block)) then |items| else 0
      ensures r.Ok? && old(Extends(Index(c), block)) ==> db.events == StoreAll(old(db.events), Sort(items))
      ensures r.Ok? && !old(Extends(Index(c), block)) ==> db.events == old(db.events) && chains == old(chains)
      ensures (&& old(CanRecord(c, Index(c), block, items, target, token))
               && old(Extends(Index(c), block)) && NoConflict(old(db.events), items)) ==> r.Ok?
      ensures (&& old(CanRecord(c, Index(c), block, items, target, token))
               && old(Repeats(Index(c), block, items)) && DistinctPositions(SetOf(items))) ==> r.Ok?
      ensures var fault := BlockFault(c, block, items, WritableTarget(target));
              fault.Some? ==> r == Err(fault.value)
      ensures BlockFault(c, block, items, WritableTarget(target)).None? && old(RecordFault(Index(c), block, token)).Some? ==>
                r == Err(old(RecordFault(Index(c), block, token)).value)
    {
      hide Represents, WellFormed, NoConflict, DistinctPositions, OnlyAt, BlockFault, RecordFault, Extends, Repeats, CanRecord;
      ghost var ix := Index(c);
      OnlyAtReflexive(db, chains, c);
      var written := WritableTarget(target);
      WellFormedHere(db, chains, c, block, items, written, token);
      WellFormedHere(db, chains, c, block, items, target, token);
      TargetFits(c, block, items, target);
      BlockFaultIff(c, block, items, written);
      var malformed := BlockFault(c, block, items, written);
      if malformed.Some? { return Err(malformed.value); }
      var refused := CheckRecord(c, block, token);
      if refused.Some? { return Err(refused.value); }
      var stored := StoreBlockEvents(c, block, items, written, token);
      if stored.Err? { return Err(stored.error); }
      if written != target { return Err(NumberUnsupported); }
      RecordCases(db, chains, c, block, items, token);
      var at := Checkpoint(c);
      if at.None? || at.value.number < block.number {
        WithBlockSound(db, chains, c, block, items, target, token);
        db, chains := WithBlock(db, c, block, |items|, stored.value.0), chains[c := ix.chain + [Indexed(block, SetOf(items))]];
      }
      ghost var db', chains' := db, chains;
      if target.Some? {
        RaiseTarget(c, target.value);
        OnlyAtTransitive(old(db), old(chains), db', chains', db, chains, c);
      }
      r := Ok(stored.value.1);
    }

    /** How many rows of each table the four statements of a rollback meet. */
    method CountChanges(c: Contract, from: nat) returns (changes: Changes)
      requires Valid()
      ensures var chain, chain' := Index(c).chain, Truncate(Index(c).chain, from);
              && changes.blocks == |chain| - |chain'| && changes.events == |AllEvents(chain)| - |AllEvents(chain')|
              && changes.projections == |Index(c).projections|
      ensures changes.operations == |set id | id in db.operations && Displace(db.operations, c, from)[id] != db.operations[id]|
    {
      hide Represents, IsHighest, BlocksRolled, EventsRolled, CanonicalRefs, CanonicalKeys, Displace, IsDisplaced, Truncate, AllEvents;
      RolledCounts(db, chains, c, from);
      EventsRolledHere(db, chains, c, from);
      DisplacedRows(db.operations, c, from);
      changes := Changes(|CanonicalRefs(Rows(db, c)) - CanonicalRefs(BlocksRolled(Rows(db, c), from))|,
                         |CanonicalKeys(db.events, c) - CanonicalKeys(EventsRolled(db.events, c, from), c)|,
                         |set id | id in db.operations && IsDisplaced(db.operations[id], c, from)|,
                         |ProjectionsOf(db, c)|);
    }

    /** `rollbackFromBlock`, with the number of rows it changes in each table. */
    method RollbackFromBlock(c: Contract, from: nat, token: Option<Token>) returns (r: Result<Changes, Fault>)
      requires Valid()
      modifies this
      ensures Valid() && Only(c)
      ensures r.Err? ==> db == old(db) && chains == old(chains)
      ensures from > MAX_SAFE ==> r == Err(NumberUnsupported)
      ensures from <= MAX_SAFE ==>
                match old(Rollback(Index(c), from, token))
                case Ok(ix) => r.Ok? && Index(c) == ix
                case Err(fault) => r == Err(fault)
      ensures db.operations == if r.Ok? then Displace(old(db.operations), c, from) else old(db.operations)
      ensures db.events == if r.Ok? then EventsRolled(old(db.events), c, from) else old(db.events)
      ensures r.Ok? ==>
                && r.value.blocks == old(|Index(c).chain|) - |Index(c).chain|
                && r.value.events == old(|AllEvents(Index(c).chain)|) - |AllEvents(Index(c).chain)|
                && r.value.operations == |set id | id in old(db.operations) && db.operations[id] != old(db.operations)[id]|
                && r.value.projections == old(|Index(c).projections|)
      ensures r.Ok? && old(OpsInv(c, Index(c).chain, db.operations)) ==>
                OnlyOrphanedMove(c, Index(c).chain, old(db.operations), db.operations)
    {
      hide Represents, OnlyAt, IsHighest, BlocksRolled, EventsRolled, CanonicalRefs, Displace, Truncate, AllEvents;
      hide OpsInv, OnlyOrphanedMove;
      OnlyAtReflexive(db, chains, c);
      if from > MAX_SAFE { return Err(NumberUnsupported); }
      if !OwnsNow(c, token) { return Err(Superseded); }
      if OpsInv(c, Index(c).chain, db.operations) { OrphansMove(db, chains, c, from); }
      var changes := CountChanges(c, from);
      RolledCounts(db, chains, c, from);
      var previous := HighestRow(BlocksRolled(Rows(db, c), from));
      RolledSound(db, chains, c, from, previous);
      db, chains := RolledTables(db, c, from, previous), chains[c := Truncate(ChainOf(chains, c), from)];
      r := Ok(changes);
    }

    // ---------------------------------------------------------- projections

    method CheckProjections(c: Contract, block: Block, ps: seq<Projection>) returns (fault: Option<Fault>)
      requires Valid()
      ensures fault.None? <==> ValidProjections(c, Index(c), block, ps)
      ensures fault.Some? ==> exists i | 0 <= i < |ps| :: FirstUnfit(c, Index(c), block, ps, i, fault.value)
    {
      hide Represents, Writable, View, ValidName;
      ghost var ix := Index(c);
      var keys: set<(Address, string)> := {};
      assert DistinctKeys(ps[..0]) && ProjectionMap(ps[..0]).Keys == {} && AllFit(c, ix, block, ps, 0);
      hide ProjectionMap, DistinctKeys, AllFit, FirstUnfit;
      for i := 0 to |ps|
        invariant keys == ProjectionMap(ps[..i]).Keys && DistinctKeys(ps[..i]) && AllFit(c, ix, block, ps, i)
      {
        DistinctLast(ps, i);
        NextFits(c, ix, block, ps, i);
        var p := ps[i];
        if p.contract != c || block.number < p.number || !ValidName(p.key) { return Some(InvalidProjection); }
        var at := CanonicalBlock(c, p.number);
        if at.None? || at.value.hash != p.hash { return Some(BlockNotCanonical); }
        if (p.owner, p.key) in keys { return Some(DuplicateProjection); }
        keys := keys + {(p.owner, p.key)};
        if !Writable(p.state) { return Some(InvalidProjection); }
      }
      assert ps[..|ps|] == ps;
      AllAreValid(c, ix, block, ps);
      fault := None;
    }

    /** `commitProjections`: the checks outside the transaction, then the owner, then the replacement of every projection. */
    method CommitProjections(c: Contract, block: Block, ps: seq<Projection>, token: Option<Token>) returns (r: Result<(), Fault>)
      requires Valid()
      modifies this`db
      ensures Valid() && Only(c) && db.events == old(db.events) && db.operations == old(db.operations)
      ensures r.Ok? <==> block.number <= MAX_SAFE && old(CanCommit(c, Index(c), block, ps, token))
      ensures r.Ok? ==> old(Index(c).row.Some?) && Index(c) == Committed(old(Index(c)), block, ps)
      ensures r.Err? ==> db == old(db) && CommitRefused(c, old(Index(c)), block, ps, token, r.error)
    {
      hide Represents, OnlyAt, ValidProjections, FirstUnfit;
      OnlyAtReflexive(db, chains, c);
      if block.number > MAX_SAFE { return Err(NumberUnsupported); }
      CheckpointedTip(db, chains, c);
      var at := Checkpoint(c);
      if at != Some(Ref(block.number, block.hash)) { return Err(BlockNotCanonical); }
      var fault := CheckProjections(c, block, ps);
      if fault.Some? { return Err(fault.value); }
      if !OwnsNow(c, token) { return Err(Superseded); }
      CommittedSound(db, chains, c, block, ps, token);
      db, r := CommittedTables(db, c, block, ps), Ok(());
    }

    // ---------------------------------------------------------- operations

    /** `saveOperation`. */
    method SaveOperation(o: O.Operation) returns (r: Result<(), Fault>)
      requires Valid()
      modifies this`db
      ensures Valid() && forall c: Contract :: SameAt(old(db), chains, db, chains, c)
      ensures db == old(db).(operations := db.operations)
      ensures r == match SaveFault(old(db.operations), o) case None => Ok(()) case Some(fault) => Err(fault)
      ensures db.operations == if r.Ok? then old(db.operations)[o.id := o] else old(db.operations)
    {
      if !O.ValidEvidence(o) { return Err(InvalidEvidence); }
      if !ValidId(o.id) { return Err(InvalidOperationId); }
      if !IdentityFits(db.operations, o) { return Err(IdentityConflict); }
      if (o.blockNumber.Some? && o.blockNumber.value > MAX_SAFE) || !Exclusive(db.operations, o) {
        return Err(if o.tx.Some? && Taken(db.operations, o) then IdentityConflict else NumberUnsupported);
      }
      var saved := db.(operations := db.operations[o.id := o]);
      forall c: Contract ensures Sound(saved, chains, c) { assert Sound(db, chains, c); }
      db, r := saved, Ok(());
    }

    ghost predicate HasSafeTip(c: Contract)
      reads this
    {
      Index(c).chain != [] ==> Tip(Index(c).chain).number <= MAX_SAFE
    }

    /** `saveOperationAtCheckpoint`: nothing is overwritten unless both the checkpoint and the operation are as expected. */
    method SaveOperationAtCheckpoint(o: O.Operation, expected: O.Operation, ck: Ref) returns (r: Result<(), Fault>)
      requires Valid()
      modifies this`db
      ensures Valid() && forall c: Contract :: SameAt(old(db), chains, db, chains, c)
      ensures db == old(db).(operations := db.operations)
      ensures old(HasSafeTip(ContractOf(o)))
      ensures r == match old(SaveAtFault(Index(ContractOf(o)), db.operations, o, expected, ck))
                   case None => Ok(())
                   case Some(fault) => Err(fault)
      ensures db.operations == if r.Ok? then old(db.operations)[o.id := o] else old(db.operations)
    {
      hide EventsMatch, BlocksMatch;
      var c := ContractOf(o);
      assert Sound(db, chains, c);
      if !O.ValidEvidence(o) { return Err(InvalidEvidence); }
      if !O.SameIdentity(o, expected) || o.tx != expected.tx { return Err(IdentityConflict); }
      if !OwnsNow(c, None) { return Err(Superseded); }
      if c !in db.checkpoints { return Err(Superseded); }
      if ck.number > MAX_SAFE { return Err(NumberUnsupported); }
      var at, row := db.checkpoints[c].at, db.checkpoints[c].row;
      if at != ck || row.projected != Some(at) || !row.healthy || row.error.Some? || row.target.Some? {
        return Err(Superseded);
      }
      if expected.id !in db.operations || db.operations[expected.id] != expected { return Err(Superseded); }
      r := SaveOperation(o);
    }
  }
}
