/**
The synchronizer: one undisturbed call against a remote chain that does not change
meanwhile. Each method says which turns of a worker it makes, so a call is a part of a run.
*/
module ChainSync {
  import opened Results
  import opened Json
  import opened ChainTypes
  import opened ChainIndex
  import opened ChainTables
  import opened EventOrder
  import opened ChainStore
  import opened RemoteChain
  import opened SyncCalls
  import opened Tracking
  import opened TrackingAnswers
  import S = SyncRuns
  import O = Operations

  datatype SyncResult = SyncResult(scannedBlocks: nat, insertedEvents: nat, reorgedBlocks: nat)

  /** The integration's answers during one call. */
  ghost function Answers(remote: Remote): S.Rebuild { (block, log, ps) => remote.rebuild(block, log) == Some(ps) }

  datatype TrackFault =
    | NotFound | NotTrackable | Outdated | EvidenceMismatch | NoTransition | OutOfRange | Refused(fault: Fault)

  lemma SameOperation(o: O.Operation, u: O.Update)
    requires O.Transition(o, u).Some?
    ensures O.SameIdentity(o, O.Transition(o, u).value) && ContractOf(O.Transition(o, u).value) == ContractOf(o)
  {
  }

  class ChainSynchronizer {
    const store: ChainStore
    const contract: Contract
    const deploy: nat
    const searchLimit: nat
    const maxBlocks: nat
    const softReady: nat

    constructor (store: ChainStore, contract: Contract, deploy: nat, searchLimit: nat, maxBlocks: nat, softReady: nat)
      ensures this.store == store && this.contract == contract && this.deploy == deploy
      ensures this.searchLimit == searchLimit && this.maxBlocks == maxBlocks && this.softReady == softReady
    {
      this.store, this.contract, this.deploy, this.softReady := store, contract, deploy, softReady;
      this.searchLimit, this.maxBlocks := searchLimit, maxBlocks;
    }

    ghost function Ix(): Index
      reads store
    {
      store.Index(contract)
    }

    ghost function Cfg(): S.Config { S.Config(contract, deploy, searchLimit, maxBlocks, softReady) }

    /** The store as the worker `w` sees it. */
    ghost function Here(w: S.Worker): Lone
      reads store
    {
      Lone(Ix(), store.db.operations, w)
    }

    ghost function Settled(w: S.Worker, out: S.Outcome): Lone
      reads store
    {
      Settle(Cfg(), store.db.operations, w, out)
    }

    /** The turns with these inputs lead from `a` to `b`. */
    ghost predicate Ran(remote: Remote, token: Token, a: Lone, inputs: seq<S.Input>, b: Lone) {
      After(Cfg(), Answers(remote), token, a, inputs) == Some(b)
    }

    lemma RanOn(remote: Remote, token: Token, a: Lone, p: seq<S.Input>, b: Lone, q: seq<S.Input>, d: Lone)
      requires Ran(remote, token, a, p, b) && Ran(remote, token, b, q, d)
      ensures Ran(remote, token, a, p + q, d)
    {
      AfterMore(Cfg(), Answers(remote), token, a, p, b, q);
    }

    /** The lease is held for this target, and no stored row speaks against the remote events up to `head`. */
    ghost predicate OnTrack(remote: Remote, token: Token, head: nat, required: nat)
      reads store
    {
      Holding(Ix(), token, required) && PayloadsFit(store.db.events, remote, deploy, head)
    }

    // ---------------------------------------------------------- rewinding

    /** Whether the local and the remote block of a height agree. */
    method MatchesAt(remote: Remote, ghost tip: nat, candidate: nat) returns (matches: bool)
      requires store.Valid() && RemoteLinked(remote) && HashesDecide(remote, Ix().chain)
      requires remote.block(tip).Some? && candidate <= tip && Ix().chain != []
      ensures matches <==> HasHeight(Ix().chain, candidate) && candidate - Ix().chain[0].block.number < Common(remote, Ix().chain)
      ensures remote.block(candidate).Some?
      ensures matches <==> InChain(Ix().chain, candidate, remote.block(candidate).value.hash)
    {
      hide Represents, HashesDecide, RemoteLinked, SameAsRemote, Common;
      ghost var chain := Ix().chain;
      ChainHeights(store.db, store.chains, contract);
      var local := store.CanonicalBlock(contract, candidate);
      RemoteBelow(remote, tip, candidate);
      if HasHeight(chain, candidate) { AgreesIffCommon(remote, chain, candidate - chain[0].block.number); }
      matches := local.Some? && local.value.hash == remote.block(candidate).value.hash;
    }

    /** The highest height from `tip - 1` down, within the limit, whose local and remote blocks agree. */
    method SearchAncestor(remote: Remote, tip: nat, ghost token: Token, ghost w: S.Worker, ghost a: Lone, ghost before: seq<S.Input>)
      returns (found: Option<nat>, candidate: int, ghost searched: nat, ghost inputs: seq<S.Input>)
      requires store.Valid() && RemoteLinked(remote) && HashesDecide(remote, Ix().chain)
      requires Ix().chain != [] && tip == Tip(Ix().chain).number && remote.block(tip).Some?
      requires Common(remote, Ix().chain) < |Ix().chain|
      requires Ran(remote, token, a, before, Settled(w, S.Search(Cfg(), Ix(), token, tip - 1, 1)))
      ensures found.Some? <==> Reachable(Ix().chain, Common(remote, Ix().chain), deploy, searchLimit)
      ensures found.Some? ==> 0 < Common(remote, Ix().chain) && found.value == Ix().chain[0].block.number + Common(remote, Ix().chain) - 1
      ensures found.None? ==> (candidate >= deploy <==> tip - searchLimit - 1 >= deploy)
      ensures found.Some? ==> Ran(remote, token, a, inputs, Settled(w, S.RollbackTurn(Ix(), token, found.value + 1, S.Recover)))
      ensures found.None? ==> !(candidate >= deploy && searched <= searchLimit)
      ensures found.None? ==> Ran(remote, token, a, inputs, Settled(w, S.Search(Cfg(), Ix(), token, candidate, searched)))
    {
      hide Represents, HashesDecide, RemoteLinked, Linked, Common, After, Settle, S.Search, S.RollbackTurn;
      ChainHeights(store.db, store.chains, contract);
      candidate := tip - 1;
      var count := 1;
      inputs := before;
      while candidate >= deploy && count <= searchLimit
        invariant candidate == tip - count && 1 <= count <= Max(1, searchLimit + 1)
        invariant candidate >= deploy - 1 || count == 1
        invariant Common(remote, Ix().chain) <= Max(0, candidate - Ix().chain[0].block.number + 1)
        invariant Ran(remote, token, a, inputs, Settled(w, S.Search(Cfg(), Ix(), token, candidate, count)))
        decreases candidate
      {
        var matches := MatchesAt(remote, tip, candidate);
        SearchTurn(Cfg(), Answers(remote), token, a, inputs, Ix(), store.db.operations, w, candidate, count,
                   remote.block(candidate).value);
        inputs := inputs + [S.BlockReply(Some(remote.block(candidate).value))];
        searched := count;
        if matches { return Some(candidate), candidate, searched, inputs; }
        candidate := candidate - 1;
        count := count + 1;
      }
      found, searched := None, count;
    }

    /** The rollback to the ancestor found. */
    method RollBack(from: nat, token: Token, ghost w: S.Worker) returns (r: Result<nat, SyncFault>)
      requires store.Valid() && from <= MAX_SAFE
      modifies store
      ensures store.Valid() && store.Only(contract)
      ensures match old(Rollback(Ix(), from, Some(token)))
              case Ok(next) => r == Ok(old(|Ix().chain|) - |next.chain|) && Ix() == next
              case Err(fault) => r == Err(Store(fault)) && Ix() == old(Ix())
      ensures Here(w.(phase := if r.Ok? then S.Recover else S.Stopped(false))) ==
              old(Settled(w, S.RollbackTurn(Ix(), token, from, S.Recover)))
      ensures store.db.events == if r.Ok? then EventsRolled(old(store.db.events), contract, from) else old(store.db.events)
    {
      hide Represents, Linked, OnlyAt, Truncate, EventsRolled, Displace, Settle, S.RollbackTurn, OpsInv, OnlyOrphanedMove;
      RollbackSettles(Cfg(), store.db.operations, w, Ix(), token, from, S.Recover);
      var rolled := store.RollbackFromBlock(contract, from, Some(token));
      r := if rolled.Ok? then Ok(rolled.value.blocks) else Err(Store(rolled.error));
    }

    /** The rewind of a chain whose tip the remote chain no longer has. */
    method RewindFrom(remote: Remote, tip: nat, token: Token, ghost w: S.Worker, ghost a: Lone, ghost before: seq<S.Input>)
      returns (r: Result<nat, SyncFault>, ghost inputs: seq<S.Input>)
      requires store.Valid() && RemoteLinked(remote) && HashesDecide(remote, Ix().chain)
      requires Ix().chain != [] && tip == Tip(Ix().chain).number && remote.block(tip).Some?
      requires Common(remote, Ix().chain) < |Ix().chain|
      requires Ran(remote, token, a, before, Settled(w, S.Search(Cfg(), Ix(), token, tip - 1, 1)))
      modifies store
      ensures store.Valid() && store.Only(contract)
      ensures (r, Ix()) == Parted(old(Ix()), Common(remote, old(Ix().chain)), token, deploy, searchLimit)
      ensures Ran(remote, token, a, inputs, Here(w.(phase := if r.Ok? then S.Recover else S.Stopped(false))))
      ensures store.db.events == old(store.db.events) ||
              exists from :: store.db.events == EventsRolled(old(store.db.events), contract, from)
    {
      hide Represents, HashesDecide, RemoteLinked, Linked, Common, OnlyAt, Truncate, EventsRolled, Displace, After, Settle;
      hide S.Search, S.RollbackTurn, AllEvents, OpsInv, OnlyOrphanedMove, SameAsRemote, SetOf, Reachable, MarkUnhealthy;
      OnlyAtReflexive(store.db, store.chains, contract);
      ChainHeights(store.db, store.chains, contract);
      ghost var chain, cfg := Ix().chain, Cfg();
      var found, candidate;
      ghost var searched;
      found, candidate, searched, inputs := SearchAncestor(remote, tip, token, w, a, before);
      if found.Some? {
        TruncateAt(chain, Common(remote, chain));
        r := RollBack(found.value + 1, token, w);
        return;
      }
      var error := if candidate >= deploy then ReorgDepthExceeded else ReorgNoCommonAncestor;
      SearchEnds(cfg, store.db.operations, w, Ix(), token, candidate, searched);
      var marked := store.MarkSyncUnhealthy(contract, error, None, Some(token));
      r := if marked.Ok? then Err(Reorg(error)) else Err(Store(marked.error));
    }

    /** `rewindIfNeeded`. */
    method RewindIfNeeded(remote: Remote, token: Token, ghost w: S.Worker)
      returns (r: Result<nat, SyncFault>, ghost inputs: seq<S.Input>)
      requires store.Valid() && RemoteLinked(remote) && HashesDecide(remote, Ix().chain) && w.phase == S.Enter(Ix())
      modifies store
      ensures store.Valid() && store.Only(contract)
      ensures (r, Ix()) == Rewound(remote, old(Ix()), token, deploy, searchLimit)
      ensures Ran(remote, token, old(Here(w)), inputs, Here(w.(phase := if r.Ok? then S.Recover else S.Stopped(false))))
      ensures store.db.events == old(store.db.events) ||
              exists from :: store.db.events == EventsRolled(old(store.db.events), contract, from)
    {
      hide Represents, HashesDecide, RemoteLinked, Linked, Common, OnlyAt, EventsRolled, After, Settle, Parted, S.Search;
      OnlyAtReflexive(store.db, store.chains, contract);
      ChainHeights(store.db, store.chains, contract);
      ghost var chain, a, cfg := Ix().chain, Here(w), Cfg();
      AfterNone(cfg, Answers(remote), token, a);
      var checkpoint := store.Checkpoint(contract);
      if checkpoint.None? { return Ok(0), []; }
      var there := remote.block(checkpoint.value.number);
      TipTurn(cfg, Answers(remote), token, Ix(), store.db.operations, w, there);
      StopSettles(cfg, store.db.operations, w, Ix());
      inputs := [S.BlockReply(there)];
      if there.None? { return Err(BlockUnavailable), inputs; }
      AgreesIffCommon(remote, chain, |chain| - 1);
      CommonIsLongest(remote, chain);
      if there.value.hash == checkpoint.value.hash { return Ok(0), inputs; }
      r, inputs := RewindFrom(remote, checkpoint.value.number, token, w, a, inputs);
    }

    // ---------------------------------------------------------- projections

    /** `rebuildProjection`: the integration sees the full canonical log of the store. */
    method RebuildProjection(remote: Remote, block: Block, token: Token)
      returns (r: Result<(), SyncFault>, ghost log: seq<Event>, ghost ps: Option<seq<Projection>>)
      requires store.Valid()
      modifies store`db
      ensures store.Valid() && store.Only(contract)
      ensures store.db.events == old(store.db.events) && store.db.operations == old(store.db.operations)
      ensures IsLog(old(Ix().chain), log) && ps == remote.rebuild(block, log)
      ensures r.Ok? <==> ps.Some? && old(CanCommit(contract, Ix(), block, ps.value, Some(token)))
      ensures r.Ok? ==> old(Ix().row.Some?) && Ix() == Committed(old(Ix()), block, ps.value)
      ensures r.Err? ==> Ix() == old(Ix())
    {
      hide Represents, OnlyAt, IsLog, Linked, ValidProjections, Committed;
      OnlyAtReflexive(store.db, store.chains, contract);
      ChainHeights(store.db, store.chains, contract);
      var events := store.CanonicalEvents(contract);
      log := events;
      var answer := remote.rebuild(block, events);
      ps := answer;
      if answer.None? { return Err(RebuildFailed), log, ps; }
      var committed := store.CommitProjections(contract, block, answer.value, Some(token));
      r := if committed.Ok? then Ok(()) else Err(Store(committed.error));
    }

    /**
    `recoverProjection`: after it, the projection is at the tip or there is no tip. The row of
    the checkpoint is always there, so the source's own check for it cannot fail.
    */
    method RecoverProjection(remote: Remote, token: Token, ghost w: S.Worker)
      returns (r: Result<(), SyncFault>, ghost inputs: seq<S.Input>)
      requires store.Valid() && w.phase == S.Recover
      modifies store`db
      ensures store.Valid() && store.Only(contract) && store.db.events == old(store.db.events)
      ensures Ix().chain == old(Ix().chain) && Ix().lease == old(Ix().lease)
      ensures r.Ok? ==> Ix().chain == [] || AtTip(Ix())
      ensures Ran(remote, token, old(Here(w)), inputs, Here(w.(phase := if r.Ok? then S.Begin else S.Stopped(false))))
      ensures Rebuildable(remote, contract, deploy) && old(Follows(remote, deploy, Ix().chain) && Owns(Ix(), Some(token))) ==> r.Ok?
      ensures old(Holding(Ix(), token, w.required)) ==> Holding(Ix(), token, w.required)
    {
      hide Represents, OnlyAt, IsLog, Linked, Follows, ValidProjections, After, Rebuildable, RebuildsAt;
      OnlyAtReflexive(store.db, store.chains, contract);
      CheckpointedTip(store.db, store.chains, contract);
      ChainHeights(store.db, store.chains, contract);
      ghost var ix, ops, a := Ix(), store.db.operations, Here(w);
      var checkpoint := store.Checkpoint(contract);
      inputs := [S.Resume([])];
      if checkpoint.None? {
        RecoverTurns(Cfg(), Answers(remote), token, ix, ops, w, []);
        return Ok(()), inputs;
      }
      if store.db.checkpoints[contract].row.projected == checkpoint {
        RecoverTurns(Cfg(), Answers(remote), token, ix, ops, w, []);
        return Ok(()), inputs;
      }
      var block := store.CanonicalBlock(contract, checkpoint.value.number);
      assert block == Some(ix.chain[|ix.chain| - 1].block);
      ghost var log, ps;
      r, log, ps := RebuildProjection(remote, block.value, token);
      if r.Err? && r.error != Store(Superseded) { r := Err(RebuildFailed); }
      RecoverTurns(Cfg(), Answers(remote), token, ix, ops, w, log);
      ghost var waiting := w.(phase := S.AwaitRebuild(block.value, log, false));
      RebuildTurns(Cfg(), Answers(remote), token, ix, ops, waiting, ps);
      RanOn(remote, token, a, [S.Resume(log)], Lone(ix, ops, waiting), [S.RebuildReply(ps)],
            Here(w.(phase := if r.Ok? then S.Begin else S.Stopped(false))));
      inputs := [S.Resume(log)] + [S.RebuildReply(ps)];
      if Rebuildable(remote, contract, deploy) && Follows(remote, deploy, ix.chain) && Owns(ix, Some(token)) {
        RebuildCommits(remote, contract, deploy, ix, log, token);
      }
    }

    // ---------------------------------------------------------- indexing

    /** Fetching the next block and recording it. */
    method AddBlock(remote: Remote, number: nat, required: nat, token: Token, ghost w: S.Worker)
      returns (r: Result<(Block, nat), SyncFault>, ghost events: seq<Event>, ghost inputs: seq<S.Input>)
      requires store.Valid() && number == NextHeight(deploy, Ix().chain)
      requires w.phase == S.AwaitBlock(number) && w.required == required
      modifies store
      ensures store.Valid() && store.Only(contract) && store.db.operations == old(store.db.operations)
      ensures r.Err? ==> Ix() == old(Ix()) && store.db.events == old(store.db.events)
      ensures r.Err? ==> Ran(remote, token, old(Here(w)), inputs, Here(w.(phase := S.Stopped(false))))
      ensures r.Ok? ==> remote.block(number) == Some(r.value.0) && remote.events(r.value.0) == Some(events)
      ensures r.Ok? ==>
                && S.BlockTurn(old(Ix()), number, Some(r.value.0)).AwaitLogs?
                && old(CanRecord(contract, Ix(), r.value.0, events, Some(required), Some(token)))
                && old(Extends(Ix(), r.value.0)) && Ix() == Recorded(old(Ix()), r.value.0, events, Some(required))
                && store.db.events == StoreAll(old(store.db.events), Sort(events)) && r.value.1 == |events| == |SetOf(events)|
      ensures old(CanAdd(remote, number, required, token)) ==> r.Ok?
    {
      hide Represents, OnlyAt, Linked, WellFormed, NoConflict, RecordFault, BlockFault, After, Recorded, StoreAll;
      OnlyAtReflexive(store.db, store.chains, contract);
      ghost var ix, ops := Ix(), store.db.operations;
      var current := remote.block(number);
      BlockTurns(Cfg(), Answers(remote), token, ix, ops, w, current);
      inputs, events := [S.BlockReply(current)], [];
      if current.None? { return Err(BlockUnavailable), events, inputs; }
      var block := current.value;
      if block.number != number { return Err(BlockMismatch), events, inputs; }
      var previous := store.Checkpoint(contract);
      if previous.Some? && block.parent != previous.value.hash { return Err(BlockMismatch), events, inputs; }
      var logs := remote.events(block);
      RefusedTurns(Cfg(), Answers(remote), token, ix, ops, w, block);
      inputs := [S.BlockReply(Some(block)), S.LogsReply(None, true, [])];
      if logs.None? { return Err(LogMismatch), events, inputs; }
      events := logs.value;
      var recorded := store.RecordCanonicalBlock(contract, block, logs.value, Some(required), Some(token));
      if recorded.Err? { return Err(Store(recorded.error)), events, inputs; }
      SortedPlaced(contract, block, logs.value, Some(required));
      r := Ok((block, recorded.value));
    }

    /** The remote answers for this height with a block that continues the chain and can be recorded. */
    ghost predicate CanAdd(remote: Remote, number: nat, required: nat, token: Token)
      reads store
    {
      && remote.block(number).Some? && remote.events(remote.block(number).value).Some?
      && var block, items := remote.block(number).value, remote.events(remote.block(number).value).value;
         && block.number == number && Extends(Ix(), block)
         && CanRecord(contract, Ix(), block, items, Some(required), Some(token)) && NoConflict(store.db.events, items)
    }

    /** The rollback after a failed rebuild. The owner's rollback is not refused, so its error path is never taken here. */
    method UndoBlock(number: nat, token: Token)
      requires store.Valid() && Ix().chain != [] && Tip(Ix().chain).number == number && Owns(Ix(), Some(token))
      modifies store
      ensures store.Valid() && store.Only(contract)
      ensures Ix() == RolledBack(old(Ix()), number) && Ix().chain == old(Ix().chain[..|Ix().chain| - 1])
      ensures store.db.operations == Displace(old(store.db.operations), contract, number)
    {
      hide Represents, OnlyAt, Linked, Truncate, Displace, OpsInv, OnlyOrphanedMove, AllEvents;
      ChainHeights(store.db, store.chains, contract);
      PopLast(Ix().chain);
      var _ := store.RollbackFromBlock(contract, number, Some(token));
    }

    /** The rebuild for a block just recorded; where it fails the block is undone. */
    method RebuildOrUndo(remote: Remote, block: Block, number: nat, token: Token)
      returns (r: Result<(), SyncFault>, ghost log: seq<Event>, ghost ps: Option<seq<Projection>>)
      requires store.Valid() && Ix().chain != [] && Tip(Ix().chain).number == number && Owns(Ix(), Some(token))
      modifies store
      ensures store.Valid() && store.Only(contract)
      ensures IsLog(old(Ix().chain), log) && ps == remote.rebuild(block, log)
      ensures r.Ok? <==> ps.Some? && old(CanCommit(contract, Ix(), block, ps.value, Some(token)))
      ensures r.Ok? ==> Ix() == Committed(old(Ix()), block, ps.value)
      ensures r.Ok? ==> store.db.events == old(store.db.events) && store.db.operations == old(store.db.operations)
      ensures r.Err? ==> Ix() == RolledBack(old(Ix()), number) && Ix().chain == old(Ix().chain[..|Ix().chain| - 1])
      ensures r.Err? ==> store.db.operations == Displace(old(store.db.operations), contract, number)
    {
      hide Represents, OnlyAt, IsLog, CanCommit, Committed, RolledBack, Displace;
      r, log, ps := RebuildProjection(remote, block, token);
      if r.Ok? { return; }
      ghost var db', chains' := store.db, store.chains;
      UndoBlock(number, token);
      OnlyAtTransitive(old(store.db), old(store.chains), db', chains', store.db, store.chains, contract);
      if r.error != Store(Superseded) { r := Err(RebuildFailed); }
    }

    lemma TrackAdds(remote: Remote, number: nat, head: nat, required: nat, token: Token)
      requires store.Valid() && Follows(remote, deploy, Ix().chain) && number == NextHeight(deploy, Ix().chain) <= head
      requires Willing(remote, contract, deploy, head, required) && OnTrack(remote, token, head, required)
      ensures CanAdd(remote, number, required, token) && deploy <= number
    {
      hide Linked, AgreesTo, Recordable, PayloadsFit, Rebuildable, RemoteLinked;
      ChainHeights(store.db, store.chains, contract);
      NextIsRecordable(remote, contract, Ix(), deploy, head, required, token);
      EventsFit(store.db.events, store.chains, contract, remote, deploy, head, required);
    }

    /** The next remote block on top of the chain. */
    method AddNext(remote: Remote, number: nat, required: nat, token: Token, ghost w: S.Worker)
      returns (r: Result<(Block, nat), SyncFault>, ghost events: seq<Event>, ghost inputs: seq<S.Input>)
      requires store.Valid() && Follows(remote, deploy, Ix().chain) && number == NextHeight(deploy, Ix().chain)
      requires w.phase == S.AwaitBlock(number) && w.required == required && number <= w.head
      modifies store
      ensures store.Valid() && store.Only(contract) && store.db.operations == old(store.db.operations)
      ensures r.Err? ==> Ix() == old(Ix()) && Ran(remote, token, old(Here(w)), inputs, Here(w.(phase := S.Stopped(false))))
      ensures r.Ok? ==>
                && S.BlockTurn(old(Ix()), number, Some(r.value.0)).AwaitLogs? && r.value.0.number == number
                && old(CanRecord(contract, Ix(), r.value.0, events, Some(required), Some(token)))
                && Ix() == Recorded(old(Ix()), r.value.0, events, Some(required))
                && Ix().chain == old(Ix().chain) + [Indexed(r.value.0, SetOf(events))] && r.value.1 == |SetOf(events)|
                && Follows(remote, deploy, Ix().chain) && Owns(Ix(), Some(token)) && Ix().row.Some?
      ensures Willing(remote, contract, deploy, w.head, required) && old(OnTrack(remote, token, w.head, required)) ==>
                r.Ok? && OnTrack(remote, token, w.head, required)
    {
      hide Represents, OnlyAt, SameAsRemote, Follows, PayloadsFit, Willing, After, Recorded, CanAdd, StoreAll;
      hide CanRecord, Extends, S.BlockTurn, Holding, SetOf, Sort;
      ghost var ix := Ix();
      ghost var sure := Willing(remote, contract, deploy, w.head, required) && OnTrack(remote, token, w.head, required);
      if sure { TrackAdds(remote, number, w.head, required, token); }
      r, events, inputs := AddBlock(remote, number, required, token, w);
      if r.Ok? {
        RecordedHere(remote, ix, r.value.0, events, number, required, token);
        if sure { AddedFits(remote, old(store.db.events), number, w.head, required); }
      }
    }

    /** One turn of the block loop. A failure leaves the chain as it was. */
    method IndexBlock(remote: Remote, number: nat, required: nat, token: Token, ghost w: S.Worker)
      returns (r: Result<nat, SyncFault>, ghost inputs: seq<S.Input>)
      requires store.Valid() && Follows(remote, deploy, Ix().chain) && number == NextHeight(deploy, Ix().chain)
      requires w.phase == S.AwaitBlock(number) && w.required == required && number <= w.head
      modifies store
      ensures store.Valid() && store.Only(contract)
      ensures r.Err? ==> Ix().chain == old(Ix().chain)
      ensures r.Ok? ==> Ix().chain != [] && Tip(Ix().chain).number == number
      ensures r.Ok? ==> Ix().chain[..|Ix().chain| - 1] == old(Ix().chain)
      ensures r.Ok? ==> Follows(remote, deploy, Ix().chain) && AtTip(Ix())
      ensures r.Ok? ==> r.value == |Ix().chain[|Ix().chain| - 1].events|
      ensures Ran(remote, token, old(Here(w)), inputs, Here(w.(phase := if r.Ok? then Onward(w, number) else S.Stopped(false))))
      ensures Willing(remote, contract, deploy, w.head, required) && old(OnTrack(remote, token, w.head, required)) ==>
                r.Ok? && OnTrack(remote, token, w.head, required)
    {
      hide Represents, OnlyAt, IsLog, SameAsRemote, Follows, PayloadsFit, Willing, After, Recorded, SetOf, NextHeight;
      hide CanRecord, CanCommit, Committed, RolledBack, Displace, S.BlockTurn, Holding, AtTip;
      ghost var ix, ops, a := Ix(), store.db.operations, Here(w);
      var added, rebuilt;
      ghost var events, log, ps;
      added, events, inputs := AddNext(remote, number, required, token, w);
      if added.Err? { return Err(added.error), inputs; }
      ghost var block, next := added.value.0, Ix();
      ghost var db', chains' := store.db, store.chains;
      rebuilt, log, ps := RebuildOrUndo(remote, added.value.0, number, token);
      OnlyAtTransitive(old(store.db), old(store.chains), db', chains', store.db, store.chains, contract);
      IndexTurns(Cfg(), Answers(remote), token, ix, ops, w, block, events, log, ps);
      inputs := [S.BlockReply(Some(block)), S.LogsReply(Some(events), false, log)] + [S.RebuildReply(ps)];
      if Willing(remote, contract, deploy, w.head, required) { WillingCommits(remote, db', chains', w.head, required, log, token); }
      if rebuilt.Err? { return Err(rebuilt.error), inputs; }
      CommittedHolds(contract, next, block, ps.value, token);
      r := Ok(added.value.1);
    }

    lemma RecordedHere(remote: Remote, ix: Index, block: Block, events: seq<Event>, number: nat, required: nat, token: Token)
      requires Follows(remote, deploy, ix.chain) && Extends(ix, block) && number == NextHeight(deploy, ix.chain)
      requires S.BlockTurn(ix, number, Some(block)).AwaitLogs?
      requires CanRecord(contract, ix, block, events, Some(required), Some(token))
      requires remote.block(number) == Some(block) && remote.events(block) == Some(events)
      ensures var next := Recorded(ix, block, events, Some(required));
              && next.chain == ix.chain + [Indexed(block, SetOf(events))] && next.chain[..|next.chain| - 1] == ix.chain
              && Follows(remote, deploy, next.chain) && Owns(next, Some(token)) && next.row.Some? && block.number == number
              && (Holding(ix, token, required) ==> Holding(next, token, required))
    {
      RecordedFollows(remote, deploy, ix, block, events, required);
    }

    lemma {:induction false} AddedFits(remote: Remote, table: EventTable, number: nat, head: nat, required: nat)
      requires Willing(remote, contract, deploy, head, required) && PayloadsFit(table, remote, deploy, head) && deploy <= number <= head
      requires remote.block(number).Some? && remote.events(remote.block(number).value).Some?
      ensures PayloadsFit(StoreAll(table, Sort(remote.events(remote.block(number).value).value)), remote, deploy, head)
    {
      FitsAfterStore(table, remote, contract, deploy, head, required, number);
    }

    lemma WillingCommits(remote: Remote, db: Tables, chains: Chains, head: nat, required: nat, log: seq<Event>, token: Token)
      requires Represents(db, chains) && Willing(remote, contract, deploy, head, required)
      requires var ix := View(db, chains, contract);
               && ix.chain != [] && Follows(remote, deploy, ix.chain) && IsLog(ix.chain, log) && Owns(ix, Some(token)) && ix.row.Some?
      ensures var ix := View(db, chains, contract);
              var block := ix.chain[|ix.chain| - 1].block;
              && remote.rebuild(block, log).Some?
              && CanCommit(contract, ix, block, remote.rebuild(block, log).value, Some(token))
    {
      ChainHeights(db, chains, contract);
      RebuildCommits(remote, contract, deploy, View(db, chains, contract), log, token);
    }

    /** The block loop. */
    method IndexBlocks(remote: Remote, head: nat, required: nat, token: Token, ghost w: S.Worker)
      returns (r: Result<nat, SyncFault>, ghost inputs: seq<S.Input>)
      requires store.Valid() && Follows(remote, deploy, Ix().chain) && NextHeight(deploy, Ix().chain) <= head
      requires w == S.Worker(head, required, S.AwaitBlock(NextHeight(deploy, Ix().chain)))
      modifies store
      ensures store.Valid() && store.Only(contract) && BasedAt(deploy, Ix().chain)
      ensures r.Ok? ==> Follows(remote, deploy, Ix().chain) && NextHeight(deploy, Ix().chain) == head + 1 && AtTip(Ix())
      ensures r.Ok? ==> |Ix().chain| == old(|Ix().chain|) + head + 1 - old(NextHeight(deploy, Ix().chain))
      ensures r.Ok? ==> old(Ix().chain) <= Ix().chain
      ensures r.Ok? ==> r.value == EventCount(Ix().chain) - EventCount(old(Ix().chain))
      ensures Ran(remote, token, old(Here(w)), inputs, Here(w.(phase := if r.Ok? then S.Finish else S.Stopped(false))))
      ensures Willing(remote, contract, deploy, head, required) && old(OnTrack(remote, token, head, required)) ==>
                r.Ok? && OnTrack(remote, token, head, required)
    {
      hide Represents, OnlyAt, SameAsRemote, AgreesTo, After, Willing, OnTrack, AtTip, EventCount;
      OnlyAtReflexive(store.db, store.chains, contract);
      var checkpoint := store.Checkpoint(contract);
      var start := if checkpoint.Some? then checkpoint.value.number + 1 else deploy;
      var inserted := 0;
      var number := start;
      ghost var a := Here(w);
      inputs := [];
      AfterNone(Cfg(), Answers(remote), token, a);
      while number <= head
        invariant start <= number <= head + 1 && number == NextHeight(deploy, Ix().chain)
        invariant store.Valid() && Follows(remote, deploy, Ix().chain) && store.Only(contract)
        invariant |Ix().chain| == old(|Ix().chain|) + number - start && old(Ix().chain) <= Ix().chain
        invariant number > start ==> AtTip(Ix())
        invariant inserted == EventCount(Ix().chain) - EventCount(old(Ix().chain))
        invariant Ran(remote, token, a, inputs, Here(w.(phase := if number <= head then S.AwaitBlock(number) else S.Finish)))
        invariant Willing(remote, contract, deploy, head, required) && old(OnTrack(remote, token, head, required)) ==>
                    OnTrack(remote, token, head, required)
      {
        ghost var db', chains', chain, b := store.db, store.chains, Ix().chain, Here(w.(phase := S.AwaitBlock(number)));
        var turned;
        ghost var more;
        turned, more := IndexBlock(remote, number, required, token, w.(phase := S.AwaitBlock(number)));
        OnlyAtTransitive(old(store.db), old(store.chains), db', chains', store.db, store.chains, contract);
        RanOn(remote, token, a, inputs, b, more,
              Here(w.(phase := if turned.Ok? then Onward(w, number) else S.Stopped(false))));
        inputs := inputs + more;
        if turned.Err? { return Err(turned.error), inputs; }
        CountOn(Ix().chain);
        inserted := inserted + turned.value;
        number := number + 1;
      }
      r := Ok(inserted);
    }

    /** The end of a round: only a round that reached its own target turns the store healthy. */
    method FinishSync(ghost remote: Remote, head: nat, required: nat, token: Token)
      returns (r: Result<(), SyncFault>, ghost inputs: seq<S.Input>)
      requires store.Valid()
      modifies store`db
      ensures store.Valid() && store.Only(contract) && Ix().chain == old(Ix().chain)
      ensures r.Ok? ==> Ix().lease.None? && Ix().chain != []
      ensures r.Ok? && head < required ==> !Served(Ix())
      ensures r.Ok? && head >= required ==> Served(Ix()) && Tip(Ix().chain).number >= head
      ensures head <= required <= MAX_SAFE ==>
                Ran(remote, token, old(Here(S.Worker(head, required, S.Finish))), inputs,
                    Here(S.Worker(head, required, S.Stopped(r.Ok?))))
      ensures head <= required <= MAX_SAFE && old(Holding(Ix(), token, required) && AtTip(Ix()) && Tip(Ix().chain).number >= head) ==> r.Ok?
    {
      hide Represents, OnlyAt, Linked, After;
      OnlyAtReflexive(store.db, store.chains, contract);
      CheckpointedTip(store.db, store.chains, contract);
      FinishTurns(Cfg(), Answers(remote), token, Ix(), store.db.operations, S.Worker(head, required, S.Finish));
      inputs := [S.Resume([])];
      if head < required {
        var released := store.ReleaseSyncIncomplete(contract, required, token);
        return if released.Ok? then Ok(()) else Err(Store(released.error)), inputs;
      }
      var marked := store.MarkSyncHealthy(contract, head, Some(token));
      r := if marked.Err? then Err(Store(marked.error)) else if marked.value then Ok(()) else Err(NotHealthy);
    }

    // ---------------------------------------------------------- the whole call

    /**
    Nothing stands in the way of a synchronization: the token and the target are admitted, what is
    left after the rewind can be found, the stored rows and the remote chain do not contradict each
    other, the integration answers, and there are not too many blocks to index.
    */
    ghost predicate Clear(remote: Remote, head: nat, required: nat, token: Token)
      reads store
    {
      && Willing(remote, contract, deploy, head, required) && ValidToken(token) && RequiredTarget(Ix()) <= required
      && Rewindable(remote, Ix().chain, deploy, searchLimit) && PayloadsFit(store.db.events, remote, deploy, head)
      && head + 1 - deploy - Common(remote, Ix().chain) <= maxBlocks
    }

    /** Claim, rewind and recover: after it the chain is its longest common prefix with the remote chain. */
    method Prepare(remote: Remote, ghost head: nat, required: nat, token: Token)
      returns (r: Result<nat, SyncFault>, ghost started: bool, ghost inputs: seq<S.Input>)
      requires store.Valid() && RemoteLinked(remote) && HashesDecide(remote, Ix().chain) && BasedAt(deploy, Ix().chain)
      modifies store
      ensures store.Valid() && store.Only(contract) && BasedAt(deploy, Ix().chain)
      ensures r.Ok? ==>
                var common := Common(remote, old(Ix().chain));
                && common <= old(|Ix().chain|) && r.value == old(|Ix().chain|) - common
                && Ix().chain == old(Ix().chain)[..common] && Follows(remote, deploy, Ix().chain)
                && (Ix().chain == [] || AtTip(Ix())) && NextHeight(deploy, Ix().chain) == deploy + common
      ensures !started ==> r.Err? && Ix() == old(Ix()) && store.db.operations == old(store.db.operations)
      ensures started ==>
                && required <= MAX_SAFE && old(Claim(Ix(), required, token).Ok?)
                && Ran(remote, token, old(Claimed(Ix(), store.db.operations, token, head, required)), inputs,
                       Here(S.Worker(head, required, if r.Ok? then S.Begin else S.Stopped(false))))
      ensures old(Clear(remote, head, required, token)) ==> r.Ok? && OnTrack(remote, token, head, required)
    {
      hide Represents, OnlyAt, Linked, RemoteLinked, HashesDecide, Common, Rewound, Follows, After, PayloadsFit, Willing;
      hide EventsRolled, Rewindable, Reachable;
      OnlyAtReflexive(store.db, store.chains, contract);
      ghost var sure := Clear(remote, head, required, token);
      if sure { ClaimHolds(Ix(), token, required); WillingTarget(remote, head, required); }
      started, inputs := false, [];
      ghost var db', chains' := store.db, store.chains;
      var claimed := store.ClaimSync(contract, required, token);
      if claimed.Err? { return Err(Store(claimed.error)), started, inputs; }
      started := true;
      db', chains' := store.db, store.chains;
      ghost var ix, w := Ix(), S.Worker(head, required, S.Enter(Ix()));
      ghost var a := Here(w);
      ChainHeights(store.db, store.chains, contract);
      RewoundIsPrefix(remote, ix, token, deploy, searchLimit);
      if sure { RewoundHolds(remote, ix, token, deploy, searchLimit, required); }
      var rewound;
      rewound, inputs := RewindIfNeeded(remote, token, w);
      OnlyAtTransitive(old(store.db), old(store.chains), db', chains', store.db, store.chains, contract);
      if rewound.Err? { return Err(rewound.error), started, inputs; }
      if sure { RewoundFits(remote, db'.events, store.db.events, head); }
      db', chains' := store.db, store.chains;
      ghost var b := Here(w.(phase := S.Recover));
      var recovered;
      ghost var more;
      recovered, more := RecoverProjection(remote, token, w.(phase := S.Recover));
      OnlyAtTransitive(old(store.db), old(store.chains), db', chains', store.db, store.chains, contract);
      RanOn(remote, token, a, inputs, b, more, Here(w.(phase := if recovered.Ok? then S.Begin else S.Stopped(false))));
      inputs := inputs + more;
      ChainHeights(store.db, store.chains, contract);
      r := if recovered.Ok? then rewound else Err(recovered.error);
    }

    /** Indexing what is missing and finishing the round; the answer counts blocks and events. */
    method Proceed(remote: Remote, head: nat, required: nat, token: Token)
      returns (r: Result<(nat, nat), SyncFault>, ghost inputs: seq<S.Input>)
      requires store.Valid() && Follows(remote, deploy, Ix().chain) && (Ix().chain == [] || AtTip(Ix()))
      requires deploy <= head <= required <= MAX_SAFE
      modifies store
      ensures store.Valid() && store.Only(contract) && BasedAt(deploy, Ix().chain)
      ensures r.Ok? ==> Ix().chain != [] && Tip(Ix().chain).number >= head && Follows(remote, deploy, Ix().chain)
      ensures r.Ok? ==> (Served(Ix()) <==> head == required)
      ensures r.Ok? ==> old(Ix().chain) <= Ix().chain && r.value.0 == |Ix().chain| - old(|Ix().chain|)
      ensures r.Ok? ==> NextHeight(deploy, Ix().chain) == Max(head + 1, old(NextHeight(deploy, Ix().chain)))
      ensures r.Ok? ==> r.value.1 == EventCount(Ix().chain) - EventCount(old(Ix().chain))
      ensures Ran(remote, token, old(Here(S.Worker(head, required, S.Begin))), inputs, Here(S.Worker(head, required, S.Stopped(r.Ok?))))
      ensures (&& Willing(remote, contract, deploy, head, required) && old(OnTrack(remote, token, head, required))
               && head + 1 - old(NextHeight(deploy, Ix().chain)) <= maxBlocks) ==> r.Ok?
    {
      hide Represents, OnlyAt, Linked, AgreesTo, Served, AtTip, After, Willing, PayloadsFit, Holding;
      OnlyAtReflexive(store.db, store.chains, contract);
      ghost var db', chains', w := store.db, store.chains, S.Worker(head, required, S.Begin);
      ghost var a := Here(w);
      BeginTurns(Cfg(), Answers(remote), token, Ix(), store.db.operations, w);
      inputs := [S.Resume([])];
      var checkpoint := store.Checkpoint(contract);
      var start := if checkpoint.Some? then checkpoint.value.number + 1 else deploy;
      var count, inserted := 0, 0;
      ghost var more;
      if start <= head {
        count := head - start + 1;
        if count > maxBlocks { return Err(RangeExceeded), inputs; }
        w := w.(phase := S.AwaitBlock(start));
        ghost var b := Here(w);
        var indexed;
        indexed, more := IndexBlocks(remote, head, required, token, w);
        OnlyAtTransitive(old(store.db), old(store.chains), db', chains', store.db, store.chains, contract);
        RanOn(remote, token, a, inputs, b, more, Here(w.(phase := if indexed.Ok? then S.Finish else S.Stopped(false))));
        inputs := inputs + more;
        if indexed.Err? { return Err(indexed.error), inputs; }
        inserted := indexed.value;
      }
      db', chains' := store.db, store.chains;
      ghost var b := Here(S.Worker(head, required, S.Finish));
      var finished;
      finished, more := FinishSync(remote, head, required, token);
      OnlyAtTransitive(old(store.db), old(store.chains), db', chains', store.db, store.chains, contract);
      RanOn(remote, token, a, inputs, b, more, Here(S.Worker(head, required, S.Stopped(finished.Ok?))));
      inputs := inputs + more;
      r := if finished.Ok? then Ok((count, inserted)) else Err(finished.error);
    }

    lemma WillingTarget(remote: Remote, head: nat, required: nat)
      requires Willing(remote, contract, deploy, head, required)
      ensures deploy <= head <= required <= MAX_SAFE && remote.block(head).Some? && remote.block(head).value.number == head
      ensures Rebuildable(remote, contract, deploy)
    {
      assert RecordableAt(remote, contract, head, required) && RemoteAt(remote, head);
    }

    lemma RewoundFits(remote: Remote, table: EventTable, table': EventTable, head: nat)
      requires PayloadsFit(table, remote, deploy, head)
      requires table' == table || exists from :: table' == EventsRolled(table, contract, from)
      ensures PayloadsFit(table', remote, deploy, head)
    {
      hide PayloadsFit, EventsRolled;
      if from :| table' == EventsRolled(table, contract, from) { FitsAfterRoll(table, contract, from, remote, deploy, head); }
    }

    /**
    `syncTo`. A success means that every height from deployment to `head` is the remote
    block with the remote events, and that the store serves exactly when the whole target was
    reached. Once the claim was made the call is `inputs` turns of one worker; a call that
    nothing stands in the way of succeeds.
    */
    method SyncTo(remote: Remote, head: nat, required: nat, token: Token)
      returns (r: Result<SyncResult, SyncFault>, ghost started: bool, ghost inputs: seq<S.Input>)
      requires store.Valid() && RemoteLinked(remote) && HashesDecide(remote, Ix().chain) && BasedAt(deploy, Ix().chain)
      modifies store
      ensures store.Valid() && store.Only(contract) && BasedAt(deploy, Ix().chain)
      ensures r.Ok? ==> Ix().chain != [] && Tip(Ix().chain).number >= head && Follows(remote, deploy, Ix().chain)
      ensures r.Ok? ==> (Served(Ix()) <==> head == required)
      ensures r.Ok? ==>
                var kept := Common(remote, old(Ix().chain));
                && kept <= old(|Ix().chain|) && old(Ix().chain)[..kept] <= Ix().chain
                && Tip(Ix().chain).number + 1 == Max(head + 1, deploy + kept)
                && r.value.reorgedBlocks == old(|Ix().chain|) - kept && r.value.scannedBlocks == |Ix().chain| - kept
                && r.value.insertedEvents == EventCount(Ix().chain) - EventCount(old(Ix().chain)[..kept])
      ensures !started ==> r.Err? && Ix() == old(Ix()) && store.db.operations == old(store.db.operations)
      ensures started ==>
                && deploy <= head <= required && old(Claim(Ix(), required, token).Ok?)
                && Ran(remote, token, old(Claimed(Ix(), store.db.operations, token, head, required)), inputs,
                       Here(S.Worker(head, required, S.Stopped(r.Ok?))))
      ensures old(Clear(remote, head, required, token)) ==> r.Ok?
    {
      hide Represents, OnlyAt, Linked, RemoteLinked, HashesDecide, Common, Follows, Served, AtTip, After, Willing, OnTrack;
      hide Claimed, Claim, Rewindable, PayloadsFit, EventCount;
      OnlyAtReflexive(store.db, store.chains, contract);
      ghost var sure := Clear(remote, head, required, token);
      if sure { WillingTarget(remote, head, required); }
      started, inputs := false, [];
      if head < deploy { return Err(HeadBeforeDeployment), started, inputs; }
      if required < head { return Err(SyncTargetBehind), started, inputs; }
      var there := remote.block(head);
      if there.None? { return Err(HeadUnavailable), started, inputs; }
      if there.value.number != head { return Err(BlockMismatch), started, inputs; }
      var prepared;
      prepared, started, inputs := Prepare(remote, head, required, token);
      if prepared.Err? { return Err(prepared.error), started, inputs; }
      ghost var db', chains', b := store.db, store.chains, Here(S.Worker(head, required, S.Begin));
      var done;
      ghost var more;
      done, more := Proceed(remote, head, required, token);
      OnlyAtTransitive(old(store.db), old(store.chains), db', chains', store.db, store.chains, contract);
      RanOn(remote, token, old(Claimed(Ix(), store.db.operations, token, head, required)), inputs, b, more,
            Here(S.Worker(head, required, S.Stopped(done.Ok?))));
      inputs := inputs + more;
      r := if done.Ok? then Ok(SyncResult(done.value.0, done.value.1, prepared.value)) else Err(done.error);
    }

    /**
    A round of the runtime for one contract: at most `maxBlocks` heights above the checkpoint,
    toward the latest head. The answer says whether the contract has caught up with it.
    */
    method SyncBounded(remote: Remote, latest: nat, token: Token) returns (r: Result<(SyncResult, bool), SyncFault>)
      requires store.Valid() && RemoteLinked(remote) && HashesDecide(remote, Ix().chain) && BasedAt(deploy, Ix().chain) && maxBlocks > 0
      modifies store
      ensures store.Valid() && store.Only(contract) && BasedAt(deploy, Ix().chain)
      ensures r.Ok? ==> Ix().chain != [] && Follows(remote, deploy, Ix().chain) && (r.value.1 <==> Served(Ix()))
      ensures r.Ok? ==> (r.value.1 <==> latest < old(NextHeight(deploy, Ix().chain)) + maxBlocks)
      ensures r.Ok? && !r.value.1 ==> Tip(Ix().chain).number + 1 == old(NextHeight(deploy, Ix().chain)) + maxBlocks
      ensures r.Ok? && r.value.1 ==> Tip(Ix().chain).number >= latest
      ensures old(Clear(remote, BoundedHead(NextHeight(deploy, Ix().chain), latest, maxBlocks), latest, token)) ==> r.Ok?
    {
      hide Represents, OnlyAt, Linked, RemoteLinked, HashesDecide, Common, Follows, Served, Clear, After, Claimed, Claim;
      ChainHeights(store.db, store.chains, contract);
      CommonIsLongest(remote, Ix().chain);
      var checkpoint := store.Checkpoint(contract);
      var start := if checkpoint.Some? then checkpoint.value.number + 1 else deploy;
      var bounded := BoundedHead(start, latest, maxBlocks);
      var synced;
      ghost var started, inputs;
      synced, started, inputs := SyncTo(remote, bounded, latest, token);
      r := if synced.Ok? then Ok((synced.value, bounded >= latest)) else Err(synced.error);
    }

    /** The store is what the run led to. */
    ghost predicate ReachedBy(rebuild: S.Rebuild, worlds: seq<S.World>, steps: seq<S.Step>)
      reads store
    {
      && S.IsRun(Cfg(), rebuild, worlds, steps)
      && worlds[|steps|].ix == Ix() && worlds[|steps|].ops == store.db.operations
    }

    /**
    A call with a new token, from a store that any run of workers, trackers and other saves led
    to, leaves a store that a longer run leads to; so what is served afterwards is current.
    */
    method SyncInRun(remote: Remote, head: nat, required: nat, token: Token,
                     ghost rebuild: S.Rebuild, ghost worlds: seq<S.World>, ghost steps: seq<S.Step>)
      returns (r: Result<SyncResult, SyncFault>, ghost worlds': seq<S.World>, ghost steps': seq<S.Step>)
      requires store.Valid() && RemoteLinked(remote) && HashesDecide(remote, Ix().chain) && Within(Answers(remote), rebuild)
      requires ReachedBy(rebuild, worlds, steps) && token !in worlds[|steps|].workers
      modifies store
      ensures store.Valid() && ReachedBy(rebuild, worlds', steps') && worlds <= worlds' && steps <= steps'
      ensures Served(Ix()) ==> S.Backed(rebuild, Ix())
      ensures r.Ok? && head == required ==> Served(Ix()) && Follows(remote, deploy, Ix().chain)
    {
      S.RunKeeps(Cfg(), rebuild, worlds, steps, |steps|);
      hide Represents, RemoteLinked, HashesDecide, Follows, Served, After, Claimed, Claim, S.StepAt, S.Backed, OpsInv;
      ghost var ix, ops := Ix(), store.db.operations;
      ghost var started, inputs;
      r, started, inputs := SyncTo(remote, head, required, token);
      worlds', steps' := worlds, steps;
      if started {
        worlds', steps' := CallContinuesRun(Cfg(), Answers(remote), rebuild, worlds, steps, token, head, required, inputs,
                                            Here(S.Worker(head, required, S.Stopped(r.Ok?))));
      } else {
        S.ServedIsBacked(Cfg(), rebuild, worlds, steps);
      }
    }

    // ---------------------------------------------------------- tracking

    /** The compare-and-swap of a tracking turn: the new operation is stored, or nothing is and the call fails. */
    method SaveTracked(next: O.Operation, expected: O.Operation, ck: Ref) returns (r: Result<(), TrackFault>)
      requires store.Valid() && ContractOf(next) == contract
      modifies store`db
      ensures store.Valid() && Ix() == old(Ix()) && store.db == old(store.db).(operations := store.db.operations)
      ensures r.Ok? <==> CanSaveAt(Ix(), old(store.db.operations), next, expected, ck)
      ensures store.db.operations == if r.Ok? then old(store.db.operations)[next.id := next] else old(store.db.operations)
    {
      hide CanSaveAt, Represents;
      var saved := store.SaveOperationAtCheckpoint(next, expected, ck);
      assert SameAt(old(store.db), store.chains, store.db, store.chains, contract);
      r := if saved.Ok? then Ok(()) else Err(Refused(saved.error));
    }

    /** The operation to track, on a healthy store whose checkpoint is the head that was synchronized. */
    method OpenTracking(id: string, latest: Ref) returns (r: Result<O.Operation, TrackFault>)
      requires store.Valid()
      ensures S.OpenTurn(Cfg(), Ix(), store.db.operations, S.Tracker(id, latest, S.Opening)) ==
              if r.Ok? then S.Tracked(S.AwaitReceipt(latest, r.value), None) else S.Closing
      ensures r.Ok? ==> id in store.db.operations && r.value == store.db.operations[id] && ContractOf(r.value) == contract
    {
      hide Represents;
      CheckpointedTip(store.db, store.chains, contract);
      if id !in store.db.operations { return Err(NotFound); }
      var o := store.db.operations[id];
      if o.tx.None? || ContractOf(o) != contract { return Err(NotTrackable); }
      var checkpoint := store.Checkpoint(contract);
      if checkpoint != Some(latest) || contract in store.db.leases || !store.db.checkpoints[contract].row.healthy {
        return Err(Outdated);
      }
      r := Ok(o);
    }

    /** From the receipt's answer to the reconciliation: the operation so far, and the block to reconcile in if the call goes on. */
    method TakeReceipt(o: O.Operation, ck: Ref, reply: Option<S.ReceiptReply>)
      returns (r: Result<(O.Operation, Option<Ref>), TrackFault>)
      requires store.Valid() && ContractOf(o) == contract
      modifies store`db
      ensures store.Valid() && Ix() == old(Ix()) && store.db == old(store.db).(operations := store.db.operations)
      ensures var out := S.ReceiptTurn(Ix(), old(store.db.operations), ck, o, reply);
              && store.db.operations == WithSaved(old(store.db.operations), out.saved)
              && out.phase == (if r.Ok? && r.value.1.Some? then S.AwaitVerdict(ck, r.value.0, r.value.1.value) else S.Closed)
              && (r.Ok? ==> r.value.0 == (if out.saved.Some? then out.saved.value else o) && O.SameIdentity(o, r.value.0))
              && (r.Ok? <==> NoEvidence(Ix(), reply) || (Evidence(Ix(), reply) && (Pending(o) ==> out.saved.Some?)))
    {
      hide Represents, CanSaveAt, O.Transition;
      if reply.None? { return Ok((o, None)); }
      var receipt := reply.value;
      if !receipt.matches { return Err(EvidenceMismatch); }
      var block := store.CanonicalBlock(contract, receipt.block.number);
      if block.None? || block.value.hash != receipt.block.hash { return Ok((o, None)); }
      var now := o;
      if o.state == O.Submitted || o.state == O.Reorged {
        var update := if receipt.success then O.ToMined(receipt.block.number, receipt.block.hash, receipt.txIndex)
                      else O.ToReverted(receipt.block.number, receipt.block.hash, receipt.txIndex);
        var next := O.Transition(o, update);
        if next.None? { return Err(NoTransition); }
        SameOperation(o, update);
        var saved := SaveTracked(next.value, o, ck);
        if saved.Err? { return Err(saved.error); }
        now := next.value;
      }
      if !receipt.success || !(now.state == O.Mined || now.state == O.Confirming || now.state == O.ReconciliationFailed) {
        return Ok((now, None));
      }
      r := Ok((now, Some(receipt.block)));
    }

    /** From the integration's verdict to the end of the call. */
    method TakeVerdict(ghost id: string, o: O.Operation, latest: Ref, block: Ref, matched: bool, stateMismatch: bool, at: O.Time)
      returns (r: Result<O.Operation, TrackFault>)
      requires store.Valid() && ContractOf(o) == contract
      modifies store`db
      ensures store.Valid() && Ix() == old(Ix()) && store.db == old(store.db).(operations := store.db.operations)
      ensures var waiting := S.Tracker(id, latest, S.AwaitVerdict(latest, o, block));
              var out := S.VerdictTurn(Cfg(), Ix(), old(store.db.operations), waiting, S.Verdict(matched, stateMismatch, at));
              && store.db.operations == WithSaved(old(store.db.operations), out.saved) && out.phase == S.Closed
              && (r.Ok? ==> r.value == (if out.saved.Some? then out.saved.value else o) && O.SameIdentity(o, r.value))
              && (r.Ok? <==> out.saved.Some? || (!matched && o.state == O.ReconciliationFailed))
    {
      hide Represents, CanSaveAt, O.Transition;
      if !matched && o.state == O.ReconciliationFailed { return Ok(o); }
      if matched && latest.number + 1 < block.number { return Err(OutOfRange); }
      var confirmations: nat := if matched then latest.number + 1 - block.number else 0;
      var update := if matched then O.ToConfirming(confirmations, Some(true)) else O.ToReconciliationFailed(stateMismatch);
      var next := O.Transition(o, update);
      if next.None? { return Err(NoTransition); }
      SameOperation(o, update);
      if matched && confirmations >= softReady {
        var confirming := next.value;
        next := O.Transition(confirming, O.ToConfirmed(confirmations, at, true));
        if next.None? { return Err(NoTransition); }
        SameOperation(confirming, O.ToConfirmed(confirmations, at, true));
      }
      var saved := SaveTracked(next.value, o, latest);
      r := if saved.Ok? then Ok(next.value) else Err(saved.error);
    }

    /**
    `trackOperation` against a synchronized head, with the answers it gets: `inputs` turns of one
    tracker, which end closed. A call that succeeds returns the operation as it is then stored;
    on a served store what is stored and returned is settled case by case (`Answered`).
    */
    method TrackOperation(id: string, latest: Ref, receipt: Option<S.ReceiptReply>, matched: bool, stateMismatch: bool, at: O.Time)
      returns (r: Result<O.Operation, TrackFault>, ghost inputs: seq<S.TrackerInput>)
      requires store.Valid()
      modifies store`db
      ensures store.Valid() && Ix() == old(Ix()) && store.db == old(store.db).(operations := store.db.operations)
      ensures TrackedAfter(Cfg(), Ix(), old(store.db.operations), S.Tracker(id, latest, S.Opening), inputs) ==
              Some((store.db.operations, S.Tracker(id, latest, S.Closed)))
      ensures r.Ok? ==> id in old(store.db.operations)
      ensures r.Ok? && old(store.db.operations)[id].id == id ==> id in store.db.operations && store.db.operations[id] == r.value
      ensures old(InReach(Cfg(), Ix(), store.db.operations, id, latest)) ==>
                && Answered(Cfg(), Ix(), old(store.db.operations), id, latest, receipt, S.Verdict(matched, stateMismatch, at),
                            store.db.operations, if r.Ok? then Some(r.value) else None)
    {
      hide Represents, TrackedAfter, S.OpenTurn, S.ReceiptTurn, S.VerdictTurn, InReach, Answered;
      ghost var cfg, ix, ops, t := Cfg(), Ix(), store.db.operations, S.Tracker(id, latest, S.Opening);
      ghost var verdict := S.Verdict(matched, stateMismatch, at);
      if InReach(cfg, ix, ops, id, latest) { CallAnswers(cfg, ix, ops, id, latest, receipt, verdict); }
      TrackedNone(cfg, ix, ops, t);
      TrackedOn(cfg, ix, ops, t, [], ops, t, S.Open);
      inputs := [] + [S.Open];
      var found := OpenTracking(id, latest);
      if found.Err? { return Err(found.error), inputs; }
      ghost var waiting := t.(phase := S.AwaitReceipt(latest, found.value));
      TrackedOn(cfg, ix, ops, t, inputs, ops, waiting, S.Receipt(receipt));
      inputs := inputs + [S.Receipt(receipt)];
      var taken := TakeReceipt(found.value, latest, receipt);
      if taken.Err? { return Err(taken.error), inputs; }
      if taken.value.1.None? { return Ok(taken.value.0), inputs; }
      var o, block := taken.value.0, taken.value.1.value;
      waiting := t.(phase := S.AwaitVerdict(latest, o, block));
      TrackedOn(cfg, ix, ops, t, inputs, store.db.operations, waiting, S.Verdict(matched, stateMismatch, at));
      inputs := inputs + [S.Verdict(matched, stateMismatch, at)];
      r := TakeVerdict(id, o, latest, block, matched, stateMismatch, at);
    }

    /** A tracking call, from a store that a run led to, leaves a store that a longer run leads to. */
    method TrackInRun(id: string, latest: Ref, receipt: Option<S.ReceiptReply>, matched: bool, stateMismatch: bool, at: O.Time,
                      ghost n: nat, ghost rebuild: S.Rebuild, ghost worlds: seq<S.World>, ghost steps: seq<S.Step>)
      returns (r: Result<O.Operation, TrackFault>, ghost worlds': seq<S.World>, ghost steps': seq<S.Step>)
      requires store.Valid() && ReachedBy(rebuild, worlds, steps) && n !in worlds[|steps|].trackers
      modifies store`db
      ensures store.Valid() && ReachedBy(rebuild, worlds', steps') && worlds <= worlds' && steps <= steps'
      ensures Ix() == old(Ix()) && OpsInv(contract, Ix().chain, store.db.operations)
      ensures r.Ok? ==> id in store.db.operations && store.db.operations[id] == r.value
    {
      S.RunKeeps(Cfg(), rebuild, worlds, steps, |steps|);
      assert id in store.db.operations ==> store.db.operations[id].id == id;
      hide Represents, TrackedAfter, OpsInv, S.StepAt, S.Good, View;
      ghost var inputs;
      r, inputs := TrackOperation(id, latest, receipt, matched, stateMismatch, at);
      worlds', steps' := TrackingContinuesRun(Cfg(), rebuild, worlds, steps, n, id, latest, inputs, store.db.operations,
                                              S.Tracker(id, latest, S.Closed));
    }
  }
}
