/** The rows behind a chain index, and how they stand for a stack of canonical blocks. */
module ChainTables {
  import opened Results
  import opened Json
  import opened ChainTypes
  import opened Fingerprints
  import opened ChainIndex
  import opened ChainLog

  datatype BlockRow = BlockRow(parent: Hash, timestamp: int, logCount: nat, canonical: bool)

  datatype EventKey = EventKey(chainId: nat, tx: Hash, logIndex: nat)

  datatype EventRow = EventRow(
    contract: Contract, number: nat, blockHash: Hash, tx: Hash, txIndex: nat, logIndex: nat, data: string,
    topicsJson: string, signature: string, name: string, normalizedJson: string, canonical: bool)

  datatype CheckpointRow = CheckpointRow(at: Ref, row: Row)

  type BlockTable = map<Ref, BlockRow>
  type EventTable = map<EventKey, EventRow>
  type Chains = map<Contract, seq<Indexed>>

  // ------------------------------------------------------------ event rows

  function KeyOf(e: Event): EventKey { EventKey(e.contract.chainId, e.tx, e.logIndex) }

  function Encode(e: Event, canonical: bool): EventRow {
    EventRow(e.contract, e.number, e.blockHash, e.tx, e.txIndex, e.logIndex, e.data,
             Stable(Texts(e.topics)), e.signature, e.name, Stable(e.normalized), canonical)
  }

  predicate AllText(items: seq<Json>) { forall i | 0 <= i < |items| :: items[i].Str? }

  function Strings(items: seq<Json>): seq<string>
    requires AllText(items)
  {
    seq(|items|, i requires 0 <= i < |items| => items[i].s)
  }

  /** `decodeEvent`; nothing where the source reports a corrupt database. */
  function Decode(row: EventRow): Option<Event> {
    var topics := Parse(row.topicsJson);
    var normalized := Parse(row.normalizedJson);
    if topics.Got? && normalized.Got? && topics.value.Arr? && AllText(topics.value.items) && normalized.value.Obj? then
      Some(Event(row.contract, row.number, row.blockHash, row.tx, row.txIndex, row.logIndex, row.data,
                 Strings(topics.value.items), false, row.signature, row.name, normalized.value))
    else None
  }

  /** Reading a stored event gives the event that was stored. */
  lemma DecodeEncode(e: Event, canonical: bool)
    requires e.normalized.Obj? && !e.removed
    ensures Decode(Encode(e, canonical)) == Some(e)
  {
    ParseStable(Texts(e.topics));
    ParseStable(e.normalized);
    assert Strings(Texts(e.topics).items) == e.topics;
  }

  // ------------------------------------------------------------ the refinement

  function ChainOf(chains: Chains, c: Contract): seq<Indexed> { if c in chains then chains[c] else [] }

  function RefOf(x: Indexed): Ref { Ref(x.block.number, x.block.hash) }

  /** The canonical rows are exactly the blocks of the chain. */
  ghost predicate BlocksMatch(rows: BlockTable, chain: seq<Indexed>) {
    && (forall r | r in rows :: rows[r].canonical <==> InChain(chain, r.number, r.hash))
    && (forall i | 0 <= i < |chain| :: BlockStored(rows, chain, i))
  }

  predicate BlockStored(rows: BlockTable, chain: seq<Indexed>, i: nat)
    requires i < |chain|
  {
    var x := chain[i];
    RefOf(x) in rows && rows[RefOf(x)] == BlockRow(x.block.parent, x.block.timestamp, |x.events|, true)
  }

  lemma CanonicalRow(rows: BlockTable, chain: seq<Indexed>, r: Ref)
    requires BlocksMatch(rows, chain) && Linked(chain)
    ensures r in rows && rows[r].canonical <==> InChain(chain, r.number, r.hash)
    ensures InChain(chain, r.number, r.hash) ==>
              var x := At(chain, r.number);
              RefOf(x) == r && rows[r] == BlockRow(x.block.parent, x.block.timestamp, |x.events|, true)
  {
    if InChain(chain, r.number, r.hash) { assert BlockStored(rows, chain, r.number - chain[0].block.number); }
  }

  predicate OnChain(chains: Chains, e: Event) {
    HasHeight(ChainOf(chains, e.contract), e.number) && e in At(ChainOf(chains, e.contract), e.number).events
  }

  /** A row is a stored event under its own key, and a canonical one lies in its block on the chain. */
  ghost predicate RowMatches(chains: Chains, k: EventKey, row: EventRow) {
    && Decode(row).Some?
    && var e := Decode(row).value;
       && KeyOf(e) == k && e.normalized.Obj? && row == Encode(e, row.canonical)
       && (row.canonical ==> OnChain(chains, e))
  }

  /** What matters here of a valid event of a block. */
  predicate Lives(c: Contract, block: Block, e: Event) {
    e.contract == c && e.number == block.number && !e.removed && e.normalized.Obj?
  }

  predicate StoredCanonical(events: EventTable, e: Event) {
    KeyOf(e) in events && events[KeyOf(e)] == Encode(e, true)
  }

  /** The canonical event rows of every contract are exactly the events of its chain. */
  ghost predicate EventsMatch(events: EventTable, chains: Chains) {
    && (forall k | k in events :: RowMatches(chains, k, events[k]))
    && (forall c, i | c in chains && 0 <= i < |chains[c]| :: HoldsBlock(events, c, chains[c][i]))
  }

  /** Every event of the block is stored as canonical. */
  predicate HoldsBlock(events: EventTable, c: Contract, x: Indexed) {
    forall e | e in x.events :: Lives(c, x.block, e) && StoredCanonical(events, e)
  }

  lemma ChainEvent(events: EventTable, chains: Chains, c: Contract, i: nat, e: Event)
    requires EventsMatch(events, chains) && c in chains && i < |chains[c]| && e in chains[c][i].events
    ensures Lives(c, chains[c][i].block, e) && StoredCanonical(events, e)
  {
    assert HoldsBlock(events, c, chains[c][i]);
  }

  /** The canonical events of one contract, as its rows give them. */
  function CanonicalSet(events: EventTable, c: Contract): set<Event> {
    set k | k in events && events[k].canonical && events[k].contract == c && Decode(events[k]).Some? ::
      Decode(events[k]).value
  }

  function CanonicalSetAt(events: EventTable, c: Contract, n: nat): set<Event> {
    set e | e in CanonicalSet(events, c) && e.number == n
  }

  lemma CanonicalIsOnChain(events: EventTable, chains: Chains, c: Contract, e: Event)
    requires EventsMatch(events, chains) && e in CanonicalSet(events, c)
    ensures e.contract == c && OnChain(chains, e)
  {
    var k :| k in events && events[k].canonical && events[k].contract == c && Decode(events[k]).Some? &&
      Decode(events[k]).value == e;
    assert RowMatches(chains, k, events[k]);
  }

  lemma OnChainIsCanonical(events: EventTable, chains: Chains, c: Contract, i: nat, e: Event)
    requires EventsMatch(events, chains) && c in chains && i < |chains[c]| && e in chains[c][i].events
    ensures e in CanonicalSet(events, c) && e.number == chains[c][i].block.number
  {
    ChainEvent(events, chains, c, i, e);
    DecodeEncode(e, true);
  }

  lemma CanonicalMember(events: EventTable, chains: Chains, c: Contract, e: Event)
    requires EventsMatch(events, chains)
    ensures e in CanonicalSet(events, c) <==> e in AllEvents(ChainOf(chains, c))
  {
    hide EventsMatch, CanonicalSet, AllEvents;
    var chain := ChainOf(chains, c);
    AllEventsAt(chain, e);
    if e in CanonicalSet(events, c) {
      CanonicalIsOnChain(events, chains, c, e);
      assert e in chain[e.number - chain[0].block.number].events;
    }
    if i :| 0 <= i < |chain| && e in chain[i].events { OnChainIsCanonical(events, chains, c, i, e); }
  }

  /** The canonical rows are the events of the chain, wherever they were mined before. */
  lemma CanonicalSetIsChain(events: EventTable, chains: Chains, c: Contract)
    requires EventsMatch(events, chains)
    ensures CanonicalSet(events, c) == AllEvents(ChainOf(chains, c))
  {
    hide EventsMatch, CanonicalSet, AllEvents;
    forall e ensures e in CanonicalSet(events, c) <==> e in AllEvents(ChainOf(chains, c)) { CanonicalMember(events, chains, c, e); }
  }

  lemma CanonicalMemberAt(events: EventTable, chains: Chains, c: Contract, n: nat, e: Event)
    requires EventsMatch(events, chains) && Linked(ChainOf(chains, c)) && HasHeight(ChainOf(chains, c), n)
    ensures e in CanonicalSetAt(events, c, n) <==> e in At(ChainOf(chains, c), n).events
  {
    hide EventsMatch, CanonicalSet, Linked;
    var chain := ChainOf(chains, c);
    HeightAt(chain, n);
    if e in CanonicalSet(events, c) { CanonicalIsOnChain(events, chains, c, e); }
    if e in At(chain, n).events { OnChainIsCanonical(events, chains, c, n - chain[0].block.number, e); }
  }

  lemma HeightAt(chain: seq<Indexed>, n: nat)
    requires Linked(chain) && HasHeight(chain, n)
    ensures At(chain, n).block.number == n
  {
  }

  lemma CanonicalSetAtHeight(events: EventTable, chains: Chains, c: Contract, n: nat)
    requires EventsMatch(events, chains) && Linked(ChainOf(chains, c)) && HasHeight(ChainOf(chains, c), n)
    ensures CanonicalSetAt(events, c, n) == At(ChainOf(chains, c), n).events
  {
    hide EventsMatch, CanonicalSetAt, Linked;
    forall e ensures e in CanonicalSetAt(events, c, n) <==> e in At(ChainOf(chains, c), n).events {
      CanonicalMemberAt(events, chains, c, n, e);
    }
  }

  // ------------------------------------------------------------ recording

  /** No supplied event meets a row that says something else. */
  predicate NoConflict(events: EventTable, items: seq<Event>) {
    forall i | 0 <= i < |items| :: Agrees(events, items[i])
  }

  predicate Agrees(events: EventTable, e: Event) {
    KeyOf(e) in events ==>
      var row := events[KeyOf(e)];
      Decode(row).Some? && if row.canonical then Decode(row).value == e else SamePayload(Decode(row).value, e)
  }

  function StoreAll(events: EventTable, items: seq<Event>): EventTable {
    if items == [] then events
    else
      var e := items[|items| - 1];
      StoreAll(events, items[..|items| - 1])[KeyOf(e) := Encode(e, true)]
  }

  predicate SameChain(c: Contract, items: seq<Event>) { forall i | 0 <= i < |items| :: items[i].contract == c }

  lemma {:induction false} StoreAllHas(c: Contract, events: EventTable, items: seq<Event>, i: nat)
    requires DistinctIdentities(items) && SameChain(c, items) && i < |items|
    ensures StoredCanonical(StoreAll(events, items), items[i])
    decreases |items|
  {
    hide Encode;
    var n := |items| - 1;
    if i < n {
      StoreAllHas(c, events, items[..n], i);
      assert items[..n][i] == items[i];
      assert KeyOf(items[i]) != KeyOf(items[n]);
    }
  }

  predicate Supplies(items: seq<Event>, k: EventKey) { exists i :: 0 <= i < |items| && KeyOf(items[i]) == k }

  lemma {:induction false} StoreAllElse(events: EventTable, items: seq<Event>, k: EventKey)
    ensures k in events ==> k in StoreAll(events, items)
    ensures k in StoreAll(events, items) && !Supplies(items, k) ==> k in events && StoreAll(events, items)[k] == events[k]
  {
    if items != [] {
      hide Encode, KeyOf;
      var n := |items| - 1;
      StoreAllElse(events, items[..n], k);
      if i :| 0 <= i < n && KeyOf(items[..n][i]) == k { assert KeyOf(items[i]) == k; }
      assert KeyOf(items[n]) == k ==> Supplies(items, k);
    }
  }

  lemma {:induction false} StoreAllAt(c: Contract, events: EventTable, items: seq<Event>)
    requires DistinctIdentities(items) && SameChain(c, items)
    ensures forall i | 0 <= i < |items| :: StoredCanonical(StoreAll(events, items), items[i])
    ensures forall k | k in events :: k in StoreAll(events, items)
    ensures forall k | k in StoreAll(events, items) :: Supplies(items, k) || (k in events && StoreAll(events, items)[k] == events[k])
  {
    hide StoreAll, StoredCanonical, Supplies;
    forall i | 0 <= i < |items| ensures StoredCanonical(StoreAll(events, items), items[i]) { StoreAllHas(c, events, items, i); }
    forall k { StoreAllElse(events, items, k); }
  }

  predicate Placed(c: Contract, block: Block, items: seq<Event>) { forall i | 0 <= i < |items| :: Lives(c, block, items[i]) }

  lemma EncodedMatches(chains: Chains, e: Event, canonical: bool)
    requires !e.removed && e.normalized.Obj? && (canonical ==> OnChain(chains, e))
    ensures RowMatches(chains, KeyOf(e), Encode(e, canonical))
  {
    DecodeEncode(e, canonical);
  }

  lemma RowStillMatches(chains: Chains, chains': Chains, k: EventKey, row: EventRow)
    requires RowMatches(chains, k, row)
    requires row.canonical && OnChain(chains, Decode(row).value) ==> OnChain(chains', Decode(row).value)
    ensures RowMatches(chains', k, row)
  {
  }

  lemma OnChainAfterPush(chains: Chains, c: Contract, x: Indexed, e: Event)
    requires OnChain(chains, e)
    ensures OnChain(chains[c := ChainOf(chains, c) + [x]], e)
  {
    var chain, chain' := ChainOf(chains, c), ChainOf(chains, c) + [x];
    if e.contract == c { assert At(chain', e.number) == At(chain, e.number); }
  }

  /** A fresh block cannot meet a canonical row: that row's event would already be on the chain at its height. */
  lemma FreshIsNotCanonical(events: EventTable, chains: Chains, e: Event)
    requires EventsMatch(events, chains) && Agrees(events, e)
    requires !HasHeight(ChainOf(chains, e.contract), e.number)
    ensures KeyOf(e) in events ==> !events[KeyOf(e)].canonical
  {
    if KeyOf(e) in events {
      assert RowMatches(chains, KeyOf(e), events[KeyOf(e)]);
    }
  }

  lemma {:induction false} RecordedRow(events: EventTable, chains: Chains, c: Contract, block: Block, items: seq<Event>, ix: Index, k: EventKey)
    requires EventsMatch(events, chains) && ix.chain == ChainOf(chains, c) && Linked(ix.chain) && Extends(ix, block)
    requires Placed(c, block, items) && DistinctIdentities(items) && k in StoreAll(events, items)
    ensures RowMatches(chains[c := ix.chain + [Indexed(block, SetOf(items))]], k, StoreAll(events, items)[k])
  {
    StoreAllAt(c, events, items);
    var x := Indexed(block, SetOf(items));
    var chains' := chains[c := ix.chain + [x]];
    if i :| 0 <= i < |items| && KeyOf(items[i]) == k {
      assert StoredCanonical(StoreAll(events, items), items[i]);
      assert items[i] in SetOf(items) && At(ix.chain + [x], block.number) == x;
      EncodedMatches(chains', items[i], true);
    } else {
      var row := events[k];
      assert RowMatches(chains, k, row);
      if row.canonical { OnChainAfterPush(chains, c, x, Decode(row).value); }
      RowStillMatches(chains, chains', k, row);
    }
  }

  lemma {:induction false} KeptEvent(events: EventTable, chains: Chains, c: Contract, block: Block, items: seq<Event>, e: Event)
    requires EventsMatch(events, chains) && StoredCanonical(events, e) && NoConflict(events, items)
    requires !HasHeight(ChainOf(chains, c), block.number) && DistinctIdentities(items) && Placed(c, block, items)
    ensures StoredCanonical(StoreAll(events, items), e)
  {
    StoreAllAt(c, events, items);
    if i :| 0 <= i < |items| && KeyOf(items[i]) == KeyOf(e) {
      FreshIsNotCanonical(events, chains, items[i]);
    }
  }

  lemma {:induction false} NewBlockHeld(events: EventTable, c: Contract, block: Block, items: seq<Event>)
    requires Placed(c, block, items) && DistinctIdentities(items)
    ensures HoldsBlock(StoreAll(events, items), c, Indexed(block, SetOf(items)))
  {
    StoreAllAt(c, events, items);
    forall e | e in SetOf(items) ensures Lives(c, block, e) && StoredCanonical(StoreAll(events, items), e) {
      var i :| 0 <= i < |items| && items[i] == e;
    }
  }

  lemma {:induction false} OldBlockHeld(events: EventTable, chains: Chains, c: Contract, block: Block, items: seq<Event>, d: Contract, j: nat)
    requires EventsMatch(events, chains) && NoConflict(events, items) && d in chains && j < |chains[d]|
    requires !HasHeight(ChainOf(chains, c), block.number) && DistinctIdentities(items) && Placed(c, block, items)
    ensures HoldsBlock(StoreAll(events, items), d, chains[d][j])
  {
    forall e | e in chains[d][j].events
      ensures Lives(d, chains[d][j].block, e) && StoredCanonical(StoreAll(events, items), e)
    {
      ChainEvent(events, chains, d, j, e);
      KeptEvent(events, chains, c, block, items, e);
    }
  }

  lemma {:induction false} RecordEvents(events: EventTable, chains: Chains, c: Contract, block: Block, items: seq<Event>, ix: Index)
    requires EventsMatch(events, chains) && ix.chain == ChainOf(chains, c) && Linked(ix.chain) && Extends(ix, block)
    requires Placed(c, block, items) && DistinctIdentities(items) && NoConflict(events, items)
    ensures EventsMatch(StoreAll(events, items), chains[c := ix.chain + [Indexed(block, SetOf(items))]])
  {
    var events', chains' := StoreAll(events, items), chains[c := ix.chain + [Indexed(block, SetOf(items))]];
    forall k | k in events' ensures RowMatches(chains', k, events'[k]) {
      RecordedRow(events, chains, c, block, items, ix, k);
    }
    forall d, j | d in chains' && 0 <= j < |chains'[d]| ensures HoldsBlock(events', d, chains'[d][j]) {
      if d == c && j == |ix.chain| {
        NewBlockHeld(events, c, block, items);
      } else {
        assert d in chains && chains'[d][j] == chains[d][j];
        OldBlockHeld(events, chains, c, block, items, d, j);
      }
    }
  }

  lemma RecordBlocks(rows: BlockTable, ix: Index, block: Block, items: seq<Event>)
    requires BlocksMatch(rows, ix.chain) && Linked(ix.chain) && Extends(ix, block)
    ensures BlocksMatch(rows[Ref(block.number, block.hash) := BlockRow(block.parent, block.timestamp, |SetOf(items)|, true)],
                        ix.chain + [Indexed(block, SetOf(items))])
  {
    var chain' := ix.chain + [Indexed(block, SetOf(items))];
    var rows' := rows[Ref(block.number, block.hash) := BlockRow(block.parent, block.timestamp, |SetOf(items)|, true)];
    forall i | 0 <= i < |chain'| ensures BlockStored(rows', chain', i) {
      if i < |ix.chain| { assert BlockStored(rows, ix.chain, i); }
    }
  }

  // ------------------------------------------------------------ rolling back

  function BlocksRolled(rows: BlockTable, from: nat): BlockTable {
    map r | r in rows :: if from <= r.number then rows[r].(canonical := false) else rows[r]
  }

  function EventsRolled(events: EventTable, c: Contract, from: nat): EventTable {
    map k | k in events ::
      if events[k].contract == c && from <= events[k].number then events[k].(canonical := false) else events[k]
  }

  lemma RollBlocks(rows: BlockTable, chain: seq<Indexed>, from: nat)
    requires BlocksMatch(rows, chain) && Linked(chain)
    ensures BlocksMatch(BlocksRolled(rows, from), Truncate(chain, from))
  {
    var chain' := Truncate(chain, from);
    forall i | 0 <= i < |chain'| ensures BlockStored(BlocksRolled(rows, from), chain', i) {
      assert BlockStored(rows, chain, i);
    }
  }

  lemma RolledOnChain(chains: Chains, c: Contract, from: nat, e: Event)
    requires OnChain(chains, e) && (e.contract == c ==> e.number < from)
    ensures OnChain(chains[c := Truncate(ChainOf(chains, c), from)], e)
  {
  }

  lemma RolledRow(events: EventTable, chains: Chains, c: Contract, from: nat, k: EventKey)
    requires EventsMatch(events, chains) && k in events
    ensures RowMatches(chains[c := Truncate(ChainOf(chains, c), from)], k, EventsRolled(events, c, from)[k])
  {
    var chains' := chains[c := Truncate(ChainOf(chains, c), from)];
    assert RowMatches(chains, k, events[k]);
    var e := Decode(events[k]).value;
    if e.contract == c && from <= e.number {
      EncodedMatches(chains', e, false);
    } else {
      if events[k].canonical { RolledOnChain(chains, c, from, e); }
      RowStillMatches(chains, chains', k, events[k]);
    }
  }

  lemma KeptAfterRoll(events: EventTable, chains: Chains, c: Contract, from: nat, d: Contract, j: nat, e: Event)
    requires EventsMatch(events, chains) && Linked(ChainOf(chains, c))
    requires d in chains && j < |chains[d]| && e in chains[d][j].events
    requires d == c ==> j < |Truncate(chains[c], from)|
    ensures Lives(d, chains[d][j].block, e) && StoredCanonical(EventsRolled(events, c, from), e)
  {
    ChainEvent(events, chains, d, j, e);
  }

  lemma RollEvents(events: EventTable, chains: Chains, c: Contract, from: nat)
    requires EventsMatch(events, chains) && Linked(ChainOf(chains, c))
    ensures EventsMatch(EventsRolled(events, c, from), chains[c := Truncate(ChainOf(chains, c), from)])
  {
    var events', chains' := EventsRolled(events, c, from), chains[c := Truncate(ChainOf(chains, c), from)];
    forall k | k in events' ensures RowMatches(chains', k, events'[k]) {
      RolledRow(events, chains, c, from, k);
    }
    forall d, j | d in chains' && 0 <= j < |chains'[d]| ensures HoldsBlock(events', d, chains'[d][j]) {
      assert d in chains && chains'[d][j] == chains[d][j];
      forall e | e in chains[d][j].events ensures Lives(d, chains[d][j].block, e) && StoredCanonical(events', e) {
        KeptAfterRoll(events, chains, c, from, d, j, e);
      }
    }
  }

  // ------------------------------------------------------------ counting and the highest block

  function CanonicalRefs(rows: BlockTable): set<Ref> { set r | r in rows && rows[r].canonical }

  function RefsOf(chain: seq<Indexed>): set<Ref> { set i | 0 <= i < |chain| :: RefOf(chain[i]) }

  lemma {:induction false} RefsOfCount(chain: seq<Indexed>)
    requires Linked(chain)
    ensures |RefsOf(chain)| == |chain|
  {
    if chain != [] {
      var n := |chain| - 1;
      forall i | 0 < i < n ensures IsChild(chain[..n], i) { assert IsChild(chain, i); }
      RefsOfCount(chain[..n]);
      assert RefsOf(chain) == RefsOf(chain[..n]) + {RefOf(chain[n])} by {
        assert forall i | 0 <= i < n :: chain[..n][i] == chain[i];
      }
    }
  }

  lemma CanonicalRefsCount(rows: BlockTable, chain: seq<Indexed>)
    requires BlocksMatch(rows, chain) && Linked(chain)
    ensures |CanonicalRefs(rows)| == |chain|
  {
    forall r ensures r in CanonicalRefs(rows) <==> r in RefsOf(chain) {
      CanonicalRow(rows, chain, r);
      if r in CanonicalRefs(rows) { assert r == RefOf(chain[r.number - chain[0].block.number]); }
    }
    assert CanonicalRefs(rows) == RefsOf(chain);
    RefsOfCount(chain);
  }

  /** The keys of the canonical event rows of one contract. */
  function CanonicalKeys(events: EventTable, c: Contract): set<EventKey> {
    set k | k in events && events[k].canonical && events[k].contract == c
  }

  function KeysOf(events: set<Event>): set<EventKey> { set e | e in events :: KeyOf(e) }

  lemma {:induction false} KeysCount(events: set<Event>)
    requires forall e, f | e in events && f in events && KeyOf(e) == KeyOf(f) :: e == f
    ensures |KeysOf(events)| == |events|
  {
    if events != {} {
      var e :| e in events;
      KeysCount(events - {e});
      assert KeysOf(events) == KeysOf(events - {e}) + {KeyOf(e)};
    }
  }

  /** One canonical row for each event of the chain. */
  lemma CanonicalKeysCount(events: EventTable, chains: Chains, c: Contract)
    requires EventsMatch(events, chains)
    ensures |CanonicalKeys(events, c)| == |AllEvents(ChainOf(chains, c))|
  {
    var all := CanonicalSet(events, c);
    forall k | k in CanonicalKeys(events, c) ensures k in KeysOf(all) {
      assert RowMatches(chains, k, events[k]) && Decode(events[k]).value in all;
    }
    forall e | e in all ensures KeyOf(e) in CanonicalKeys(events, c) && e == Decode(events[KeyOf(e)]).value {
      var k :| k in events && events[k].canonical && events[k].contract == c && Decode(events[k]).Some? && Decode(events[k]).value == e;
      assert RowMatches(chains, k, events[k]);
    }
    assert KeysOf(all) == CanonicalKeys(events, c);
    KeysCount(all);
    CanonicalSetIsChain(events, chains, c);
  }

  lemma KeysRolled(events: EventTable, c: Contract, from: nat)
    ensures CanonicalKeys(EventsRolled(events, c, from), c) <= CanonicalKeys(events, c)
  {
  }

  /** The event rows a rollback orphans are the events above the cut. */
  lemma RolledKeysCount(events: EventTable, chains: Chains, c: Contract, from: nat)
    requires EventsMatch(events, chains) && Linked(ChainOf(chains, c))
    ensures |CanonicalKeys(events, c) - CanonicalKeys(EventsRolled(events, c, from), c)| ==
            |AllEvents(ChainOf(chains, c))| - |AllEvents(Truncate(ChainOf(chains, c), from))|
  {
    hide EventsMatch, Truncate, AllEvents, EventsRolled, CanonicalKeys, Linked;
    var events', chains' := EventsRolled(events, c, from), chains[c := Truncate(ChainOf(chains, c), from)];
    RollEvents(events, chains, c, from);
    CanonicalKeysCount(events, chains, c);
    CanonicalKeysCount(events', chains', c);
    KeysRolled(events, c, from);
  }

  predicate IsHighest(rows: BlockTable, r: Ref) {
    r in CanonicalRefs(rows) && forall q | q in CanonicalRefs(rows) :: q.number <= r.number
  }

  method HighestRow(rows: BlockTable) returns (r: Option<Ref>)
    ensures r.Some? ==> IsHighest(rows, r.value)
    ensures r.None? ==> forall q :: !IsHighest(rows, q)
  {
    r := None;
    if tip :| tip in CanonicalRefs(rows) && IsHighest(rows, tip) { r := Some(tip); }
  }

  /** The canonical row of greatest height is the tip. */
  lemma HighestIsTip(rows: BlockTable, chain: seq<Indexed>, r: Ref)
    requires BlocksMatch(rows, chain) && Linked(chain)
    ensures IsHighest(rows, r) <==> chain != [] && r == Tip(chain)
  {
    CanonicalRow(rows, chain, r);
    if chain != [] {
      CanonicalRow(rows, chain, Tip(chain));
      if r == Tip(chain) {
        forall q | q in CanonicalRefs(rows) ensures q.number <= r.number { CanonicalRow(rows, chain, q); }
      }
    }
  }
}
