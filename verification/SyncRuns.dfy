/**
Any number of synchronization workers, operation trackers and other saves of operations on one
contract, interleaved at every `await`. A worker is never told that it was superseded:
it finds out only when the store refuses its token.
*/
module SyncRuns {
  import opened Results
  import opened ChainTypes
  import opened ChainIndex
  import opened Tracking
  import O = Operations

  datatype Config = Config(contract: Contract, deploy: nat, searchLimit: nat, maxBlocks: nat, softReady: nat)

  /** The answers that `rebuildProjections` may give for a block and an event log. */
  type Rebuild = (Block, seq<Event>, seq<Projection>) -> bool

  // ------------------------------------------------------------ sync workers

  datatype Phase =
    | AwaitTip(checkpoint: Ref)
    | AwaitSearch(candidate: nat, searched: nat, local: Option<Block>)
    | Recover
    | Begin
    | AwaitBlock(number: nat)
    | AwaitLogs(block: Block)
    | AwaitRebuild(block: Block, log: seq<Event>, looping: bool)
    | Finish
    | Stopped(success: bool)

  datatype Worker = Worker(head: nat, required: nat, phase: Phase)

  /** What a turn receives: an RPC or integration answer, and what it reads from the event table. */
  datatype Input =
    | Resume(log: seq<Event>)
    | BlockReply(block: Option<Block>)
    | LogsReply(events: Option<seq<Event>>, conflict: bool, log: seq<Event>)
    | RebuildReply(projections: Option<seq<Projection>>)

  /** The store after a turn, the height of a rollback in it, and where the worker waits next. */
  datatype Outcome = Outcome(ix: Index, rolledBack: Option<nat>, phase: Phase)

  function Stop(ix: Index): Outcome { Outcome(ix, None, Stopped(false)) }

  function Enter(ix: Index): Phase {
    if ix.chain == [] then Recover else AwaitTip(Tip(ix.chain))
  }

  function Search(cfg: Config, ix: Index, token: Token, candidate: int, searched: nat): Outcome {
    if cfg.deploy <= candidate && searched <= cfg.searchLimit then
      var local := if HasHeight(ix.chain, candidate) then Some(At(ix.chain, candidate).block) else None;
      Outcome(ix, None, AwaitSearch(candidate, searched, local))
    else
      var fault := if cfg.deploy <= candidate then ReorgDepthExceeded else ReorgNoCommonAncestor;
      var marked := MarkUnhealthy(ix, fault, None, Some(token));
      Stop(if marked.Ok? then marked.value else ix)
  }

  function RollbackTurn(ix: Index, token: Token, from: nat, next: Phase): Outcome {
    if Rollback(ix, from, Some(token)).Ok? then Outcome(RolledBack(ix, from), Some(from), next) else Stop(ix)
  }

  function RecoverTurn(ix: Index, log: seq<Event>): Phase {
    if ix.chain == [] || AtTip(ix) then Begin else AwaitRebuild(ix.chain[|ix.chain| - 1].block, log, false)
  }

  function BeginTurn(cfg: Config, ix: Index, w: Worker): Phase {
    var start := if ix.chain == [] then cfg.deploy else Tip(ix.chain).number + 1;
    if start > w.head then Finish
    else if w.head - start + 1 > cfg.maxBlocks then Stopped(false)
    else AwaitBlock(start)
  }

  function BlockTurn(ix: Index, number: nat, reply: Option<Block>): Phase {
    if reply.None? || reply.value.number != number then Stopped(false)
    else if ix.chain != [] && reply.value.parent != Tip(ix.chain).hash then Stopped(false)
    else AwaitLogs(reply.value)
  }

  function LogsTurn(cfg: Config, ix: Index, token: Token, w: Worker, block: Block, i: Input): Outcome
    requires i.LogsReply?
  {
    if i.events.Some? && !i.conflict &&
       CanRecord(cfg.contract, ix, block, i.events.value, Some(w.required), Some(token)) then
      Outcome(Recorded(ix, block, i.events.value, Some(w.required)), None, AwaitRebuild(block, i.log, true))
    else Stop(ix)
  }

  function RebuildTurn(cfg: Config, ix: Index, token: Token, w: Worker, ps: Option<seq<Projection>>): Outcome
    requires w.phase.AwaitRebuild?
  {
    var block := w.phase.block;
    if ps.Some? && CanCommit(cfg.contract, ix, block, ps.value, Some(token)) then
      Outcome(Committed(ix, block, ps.value), None,
              if !w.phase.looping then Begin
              else if block.number < w.head then AwaitBlock(block.number + 1)
              else Finish)
    else if w.phase.looping then RollbackTurn(ix, token, block.number, Stopped(false))
    else Stop(ix)
  }

  function FinishTurn(ix: Index, token: Token, w: Worker): Outcome {
    if w.head < w.required then
      var released := ReleaseIncomplete(ix, w.required, token);
      if released.Ok? then Outcome(released.value, None, Stopped(true)) else Stop(ix)
    else
      var marked := MarkHealthy(ix, w.head, Some(token));
      if marked.Ok? && marked.value.1 then Outcome(marked.value.0, None, Stopped(true)) else Stop(ix)
  }

  /** The kind of answer each phase waits for. */
  predicate Fits(phase: Phase, i: Input) {
    match phase
    case AwaitTip(_) => i.BlockReply?
    case AwaitSearch(_, _, _) => i.BlockReply?
    case AwaitBlock(_) => i.BlockReply?
    case AwaitLogs(_) => i.LogsReply?
    case AwaitRebuild(_, _, _) => i.RebuildReply?
    case Stopped(_) => false
    case _ => i.Resume?
  }

  function Turn(cfg: Config, ix: Index, token: Token, w: Worker, i: Input): Outcome
    requires Fits(w.phase, i)
  {
    match w.phase
    case AwaitTip(ck) =>
      if i.block.None? then Stop(ix)
      else if i.block.value.hash == ck.hash then Outcome(ix, None, Recover)
      else Search(cfg, ix, token, ck.number - 1, 1)
    case AwaitSearch(candidate, searched, local) =>
      if i.block.None? then Stop(ix)
      else if local.Some? && local.value.hash == i.block.value.hash then
        RollbackTurn(ix, token, candidate + 1, Recover)
      else Search(cfg, ix, token, candidate - 1, searched + 1)
    case Recover => Outcome(ix, None, RecoverTurn(ix, i.log))
    case Begin => Outcome(ix, None, BeginTurn(cfg, ix, w))
    case AwaitBlock(number) => Outcome(ix, None, BlockTurn(ix, number, i.block))
    case AwaitLogs(block) => LogsTurn(cfg, ix, token, w, block, i)
    case AwaitRebuild(_, _, _) => RebuildTurn(cfg, ix, token, w, i.projections)
    case Finish => FinishTurn(ix, token, w)
  }

  /** A log taken into a rebuild is that of the store as the turn leaves it; the integration answers within `rebuild`. */
  ghost predicate Honest(cfg: Config, rebuild: Rebuild, ix: Index, token: Token, w: Worker, i: Input) {
    && Fits(w.phase, i)
    && (var out := Turn(cfg, ix, token, w, i);
        out.phase.AwaitRebuild? ==> IsLog(out.ix.chain, out.phase.log))
    && (w.phase.AwaitRebuild? && i.projections.Some? ==> rebuild(w.phase.block, w.phase.log, i.projections.value))
  }

  // ------------------------------------------------------------ trackers

  datatype TrackerPhase =
    | Opening
    | AwaitReceipt(checkpoint: Ref, operation: O.Operation)
    | AwaitVerdict(checkpoint: Ref, operation: O.Operation, block: Ref)
    | Closed

  datatype Tracker = Tracker(id: string, latest: Ref, phase: TrackerPhase)

  datatype ReceiptReply = ReceiptReply(block: Ref, txIndex: Option<nat>, success: bool, matches: bool)

  datatype TrackerInput =
    | Open
    | Receipt(receipt: Option<ReceiptReply>)
    | Verdict(matched: bool, stateMismatch: bool, at: O.Time)

  /** Where the tracker waits next and the operation it stores, if any. */
  datatype Tracked = Tracked(phase: TrackerPhase, saved: Option<O.Operation>)

  const Closing := Tracked(Closed, None)

  predicate Trackable(cfg: Config, o: O.Operation) { o.tx.Some? && ContractOf(o) == cfg.contract }

  function OpenTurn(cfg: Config, ix: Index, ops: OpTable, t: Tracker): Tracked {
    if t.id !in ops || !Trackable(cfg, ops[t.id]) then Closing
    else if Checkpoint(ix) != Some(t.latest) || ix.lease.Some? || ix.row.None? || !ix.row.value.healthy then Closing
    else Tracked(AwaitReceipt(t.latest, ops[t.id]), None)
  }

  /** After the receipt step: an operation in one of these states goes on to reconciliation. */
  function Reconciling(ck: Ref, o: O.Operation, block: Ref): TrackerPhase {
    if o.state == O.Mined || o.state == O.Confirming || o.state == O.ReconciliationFailed
    then AwaitVerdict(ck, o, block) else Closed
  }

  function ReceiptTurn(ix: Index, ops: OpTable, ck: Ref, o: O.Operation, reply: Option<ReceiptReply>): Tracked {
    if reply.None? || !reply.value.matches then Closing
    else
      var r := reply.value;
      if !InChain(ix.chain, r.block.number, r.block.hash) then Closing
      else if o.state == O.Submitted || o.state == O.Reorged then
        var next := O.Transition(o, if r.success then O.ToMined(r.block.number, r.block.hash, r.txIndex)
                                    else O.ToReverted(r.block.number, r.block.hash, r.txIndex));
        if next.Some? && CanSaveAt(ix, ops, next.value, o, ck)
        then Tracked(if r.success then Reconciling(ck, next.value, r.block) else Closed, Some(next.value))
        else Closing
      else Tracked(if r.success then Reconciling(ck, o, r.block) else Closed, None)
  }

  function Reconciled(cfg: Config, latest: Ref, o: O.Operation, block: Ref, at: O.Time): Option<O.Operation> {
    if latest.number + 1 < block.number then None
    else
      var confirmations: nat := latest.number + 1 - block.number;
      var next := O.Transition(o, O.ToConfirming(confirmations, Some(true)));
      if next.None? || confirmations < cfg.softReady then next
      else O.Transition(next.value, O.ToConfirmed(confirmations, at, true))
  }

  function VerdictTurn(cfg: Config, ix: Index, ops: OpTable, t: Tracker, i: TrackerInput): Tracked
    requires t.phase.AwaitVerdict? && i.Verdict?
  {
    var o := t.phase.operation;
    var next :=
      if i.matched then Reconciled(cfg, t.latest, o, t.phase.block, i.at)
      else if o.state == O.ReconciliationFailed then None
      else O.Transition(o, O.ToReconciliationFailed(i.stateMismatch));
    if next.Some? && CanSaveAt(ix, ops, next.value, o, t.phase.checkpoint)
    then Tracked(Closed, next) else Closing
  }

  predicate TrackerFits(phase: TrackerPhase, i: TrackerInput) {
    match phase
    case Opening => i.Open?
    case AwaitReceipt(_, _) => i.Receipt?
    case AwaitVerdict(_, _, _) => i.Verdict?
    case Closed => false
  }

  function TrackerTurn(cfg: Config, ix: Index, ops: OpTable, t: Tracker, i: TrackerInput): Tracked
    requires TrackerFits(t.phase, i)
  {
    match t.phase
    case Opening => OpenTurn(cfg, ix, ops, t)
    case AwaitReceipt(ck, o) => ReceiptTurn(ix, ops, ck, o, i.receipt)
    case AwaitVerdict(_, _, _) => VerdictTurn(cfg, ix, ops, t, i)
  }

  // ------------------------------------------------------------ the world

  datatype World = World(ix: Index, ops: OpTable, workers: map<Token, Worker>, trackers: map<nat, Tracker>)

  datatype Step =
    | Start(token: Token, head: nat, required: nat)
    | Work(token: Token, input: Input)
    | Follow(tracker: nat, id: string, latest: Ref)
    | Track(tracker: nat, reply: TrackerInput)
    | Report(operation: O.Operation)

  /**
  Any save outside tracking: an operation that awaits its signature, a submission, a replacement or a
  drop, also one computed from a row that has changed since. It claims no block of the chain.
  */
  predicate Reportable(ops: OpTable, o: O.Operation) { CanSave(ops, o) && !o.canonical }

  ghost predicate Enabled(cfg: Config, rebuild: Rebuild, w: World, step: Step) {
    match step
    case Start(token, head, required) =>
      token !in w.workers && cfg.deploy <= head <= required && Claim(w.ix, required, token).Ok?
    case Work(token, input) => token in w.workers && Honest(cfg, rebuild, w.ix, token, w.workers[token], input)
    case Follow(t, _, _) => t !in w.trackers
    case Track(t, reply) => t in w.trackers && TrackerFits(w.trackers[t].phase, reply)
    case Report(o) => Reportable(w.ops, o)
  }

  ghost function Apply(cfg: Config, rebuild: Rebuild, w: World, step: Step): World
    requires Enabled(cfg, rebuild, w, step)
  {
    match step
    case Start(token, head, required) =>
      var ix := Claim(w.ix, required, token).value;
      w.(ix := ix, workers := w.workers[token := Worker(head, required, Enter(ix))])
    case Work(token, input) =>
      var out := Turn(cfg, w.ix, token, w.workers[token], input);
      w.(ix := out.ix,
         ops := if out.rolledBack.Some? then Displace(w.ops, cfg.contract, out.rolledBack.value) else w.ops,
         workers := w.workers[token := w.workers[token].(phase := out.phase)])
    case Follow(t, id, latest) => w.(trackers := w.trackers[t := Tracker(id, latest, Opening)])
    case Track(t, reply) =>
      var out := TrackerTurn(cfg, w.ix, w.ops, w.trackers[t], reply);
      w.(ops := if out.saved.Some? then w.ops[out.saved.value.id := out.saved.value] else w.ops,
         trackers := w.trackers[t := w.trackers[t].(phase := out.phase)])
    case Report(o) => w.(ops := w.ops[o.id := o])
  }

  const Initial := World(Empty, map[], map[], map[])

  /** A run: worlds joined by enabled steps, from the empty store. */
  ghost predicate IsRun(cfg: Config, rebuild: Rebuild, worlds: seq<World>, steps: seq<Step>) {
    && |worlds| == |steps| + 1 && worlds[0] == Initial
    && forall i | 0 <= i < |steps| :: StepAt(cfg, rebuild, worlds, steps, i)
  }

  ghost predicate StepAt(cfg: Config, rebuild: Rebuild, worlds: seq<World>, steps: seq<Step>, i: nat)
    requires |worlds| == |steps| + 1 && i < |steps|
  {
    Enabled(cfg, rebuild, worlds[i], steps[i]) && worlds[i + 1] == Apply(cfg, rebuild, worlds[i], steps[i])
  }

  // ------------------------------------------------------------ the invariant

  /** The stored projections are an answer of the integration for the tip and the full log below it. */
  ghost predicate Backed(rebuild: Rebuild, ix: Index) {
    ix.chain != [] && exists log, ps ::
      IsLog(ix.chain, log) && rebuild(ix.chain[|ix.chain| - 1].block, log, ps) && ix.projections == ProjectionMap(ps)
  }

  predicate Held(ix: Index, token: Token) { ix.lease.Some? && ix.lease.value.token == token }

  /** The next block to record, seen from a store whose projection is at its tip. */
  predicate Next(cfg: Config, ix: Index, number: nat) {
    if ix.chain == [] then number == cfg.deploy else AtTip(ix) && number == Tip(ix.chain).number + 1
  }

  /** What the worker that holds the lease knows while it waits. */
  ghost predicate Knows(cfg: Config, ix: Index, w: Worker) {
    match w.phase
    case AwaitTip(ck) => Checkpoint(ix) == Some(ck)
    case AwaitSearch(candidate, _, _) => ix.chain != [] && cfg.deploy <= candidate < Tip(ix.chain).number
    case Recover => true
    case Begin => ix.chain != [] ==> AtTip(ix)
    case AwaitBlock(number) => Next(cfg, ix, number) && number <= w.head
    case AwaitLogs(block) => Next(cfg, ix, block.number) && block.number <= w.head
    case AwaitRebuild(block, log, looping) =>
      ix.chain != [] && ix.chain[|ix.chain| - 1].block == block && IsLog(ix.chain, log) &&
      (looping ==> block.number <= w.head)
    case Finish => AtTip(ix) && Tip(ix.chain).number >= w.head
    case Stopped(_) => true
  }

  ghost predicate Holder(cfg: Config, ix: Index, w: Worker) {
    && cfg.deploy <= w.head <= w.required
    && ix.lease.Some? && ix.lease.value.target == w.required
    && (ix.row.Some? ==> ix.row.value.error == Some(SyncIncomplete) && ix.row.value.target == Some(w.required))
    && Knows(cfg, ix, w)
  }

  ghost predicate Good(cfg: Config, rebuild: Rebuild, ix: Index) {
    Inv(cfg.contract, ix) && BasedAt(cfg.deploy, ix.chain) && (AtTip(ix) ==> Backed(rebuild, ix))
  }

  ghost predicate WorldInv(cfg: Config, rebuild: Rebuild, w: World) {
    && Good(cfg, rebuild, w.ix)
    && OpsInv(cfg.contract, w.ix.chain, w.ops)
    && (w.ix.lease.Some? ==>
          w.ix.lease.value.token in w.workers && Holder(cfg, w.ix, w.workers[w.ix.lease.value.token]))
  }

  // ------------------------------------------------------------ each turn keeps it

  /** A turn of a worker without the lease leaves the store and every operation as they were. */
  lemma Fenced(cfg: Config, ix: Index, token: Token, w: Worker, i: Input)
    requires Fits(w.phase, i) && !Held(ix, token)
    ensures Turn(cfg, ix, token, w, i).ix == ix && Turn(cfg, ix, token, w, i).rolledBack.None?
  {
  }

  ghost predicate Keeps(cfg: Config, rebuild: Rebuild, ix: Index, w: Worker, out: Outcome) {
    && Good(cfg, rebuild, out.ix)
    && (out.ix.lease.Some? ==> out.ix.lease == ix.lease && Holder(cfg, out.ix, w.(phase := out.phase)))
    && (out.rolledBack.Some? ==> out.ix == RolledBack(ix, out.rolledBack.value))
    && (out.rolledBack.None? ==> ix.chain <= out.ix.chain)
  }

  lemma SearchKeeps(cfg: Config, rebuild: Rebuild, ix: Index, token: Token, w: Worker, candidate: int, searched: nat)
    requires Good(cfg, rebuild, ix) && Held(ix, token) && Holder(cfg, ix, w)
    requires ix.chain != [] && candidate < Tip(ix.chain).number
    ensures Keeps(cfg, rebuild, ix, w, Search(cfg, ix, token, candidate, searched))
  {
  }

  lemma RollbackTurnKeeps(cfg: Config, rebuild: Rebuild, ix: Index, token: Token, w: Worker, from: nat, next: Phase)
    requires Good(cfg, rebuild, ix) && Held(ix, token) && Holder(cfg, ix, w)
    requires next.Recover? || next.Stopped?
    ensures Keeps(cfg, rebuild, ix, w, RollbackTurn(ix, token, from, next))
  {
    RollbackKeeps(cfg.contract, ix, from);
  }

  /** A record by the holder adds the block on top, where no projection is yet. */
  lemma RecordedNext(cfg: Config, rebuild: Rebuild, ix: Index, token: Token, w: Worker, events: seq<Event>)
    requires Good(cfg, rebuild, ix) && Held(ix, token) && Holder(cfg, ix, w) && w.phase.AwaitLogs?
    requires CanRecord(cfg.contract, ix, w.phase.block, events, Some(w.required), Some(token))
    ensures var next := Recorded(ix, w.phase.block, events, Some(w.required));
            && next.chain == ix.chain + [Indexed(w.phase.block, SetOf(events))] && next.lease == ix.lease && next.row.Some?
            && next.row.value.error == Some(SyncIncomplete) && next.row.value.target == Some(w.required) && !AtTip(next)
            && BasedAt(cfg.deploy, next.chain)
  {
    hide Backed, WellFormed;
  }

  lemma RecordedGood(cfg: Config, rebuild: Rebuild, ix: Index, token: Token, w: Worker, events: seq<Event>)
    requires Good(cfg, rebuild, ix) && Held(ix, token) && Holder(cfg, ix, w) && w.phase.AwaitLogs?
    requires CanRecord(cfg.contract, ix, w.phase.block, events, Some(w.required), Some(token))
    ensures Good(cfg, rebuild, Recorded(ix, w.phase.block, events, Some(w.required)))
  {
    hide Inv, CanRecord, Recorded, Backed, AtTip, BasedAt, Holder;
    RecordKeeps(cfg.contract, ix, w.phase.block, events, Some(w.required), Some(token));
    RecordedNext(cfg, rebuild, ix, token, w, events);
  }

  lemma RecordTurnKeeps(cfg: Config, rebuild: Rebuild, ix: Index, token: Token, w: Worker, events: seq<Event>, log: seq<Event>)
    requires Good(cfg, rebuild, ix) && Held(ix, token) && Holder(cfg, ix, w) && w.phase.AwaitLogs?
    requires CanRecord(cfg.contract, ix, w.phase.block, events, Some(w.required), Some(token))
    requires IsLog(Recorded(ix, w.phase.block, events, Some(w.required)).chain, log)
    ensures Keeps(cfg, rebuild, ix, w,
                  Outcome(Recorded(ix, w.phase.block, events, Some(w.required)), None, AwaitRebuild(w.phase.block, log, true)))
  {
    hide Good, CanRecord, Recorded, IsLog, AtTip, SetOf, BasedAt;
    RecordedGood(cfg, rebuild, ix, token, w, events);
    RecordedNext(cfg, rebuild, ix, token, w, events);
  }

  lemma LogsTurnKeeps(cfg: Config, rebuild: Rebuild, ix: Index, token: Token, w: Worker, i: Input)
    requires Good(cfg, rebuild, ix) && Held(ix, token) && Holder(cfg, ix, w)
    requires w.phase.AwaitLogs? && Honest(cfg, rebuild, ix, token, w, i)
    ensures Keeps(cfg, rebuild, ix, w, LogsTurn(cfg, ix, token, w, w.phase.block, i))
  {
    hide Good, Holder, Keeps, CanRecord, Recorded, IsLog;
    var out := LogsTurn(cfg, ix, token, w, w.phase.block, i);
    if out.phase.AwaitRebuild? {
      RecordTurnKeeps(cfg, rebuild, ix, token, w, i.events.value, i.log);
    } else {
      StopKeeps(cfg, rebuild, ix, w);
    }
  }

  lemma CommitTurnKeeps(cfg: Config, rebuild: Rebuild, ix: Index, token: Token, w: Worker, ps: seq<Projection>, next: Phase)
    requires Good(cfg, rebuild, ix) && Held(ix, token) && Holder(cfg, ix, w) && w.phase.AwaitRebuild?
    requires CanCommit(cfg.contract, ix, w.phase.block, ps, Some(token)) && rebuild(w.phase.block, w.phase.log, ps)
    requires next == if !w.phase.looping then Begin
                     else if w.phase.block.number < w.head then AwaitBlock(w.phase.block.number + 1) else Finish
    ensures Keeps(cfg, rebuild, ix, w, Outcome(Committed(ix, w.phase.block, ps), None, next))
  {
    var block, after := w.phase.block, Committed(ix, w.phase.block, ps);
    CommitKeeps(cfg.contract, ix, block, ps, Some(token));
    hide Inv, CanCommit, IsLog;
    assert IsLog(after.chain, w.phase.log) && after.projections == ProjectionMap(ps);
    hide ProjectionMap;
  }

  lemma StopKeeps(cfg: Config, rebuild: Rebuild, ix: Index, w: Worker)
    requires Good(cfg, rebuild, ix) && Holder(cfg, ix, w)
    ensures Keeps(cfg, rebuild, ix, w, Stop(ix))
  {
    hide Good;
  }

  lemma RebuildTurnKeeps(cfg: Config, rebuild: Rebuild, ix: Index, token: Token, w: Worker, i: Input)
    requires Good(cfg, rebuild, ix) && Held(ix, token) && Holder(cfg, ix, w)
    requires w.phase.AwaitRebuild? && Honest(cfg, rebuild, ix, token, w, i)
    ensures Keeps(cfg, rebuild, ix, w, RebuildTurn(cfg, ix, token, w, i.projections))
  {
    hide Good, Holder, Keeps, CanCommit, Committed, RollbackTurn, Turn;
    var ps := i.projections;
    if ps.Some? && CanCommit(cfg.contract, ix, w.phase.block, ps.value, Some(token)) {
      CommitTurnKeeps(cfg, rebuild, ix, token, w, ps.value, RebuildTurn(cfg, ix, token, w, ps).phase);
    } else if w.phase.looping {
      RollbackTurnKeeps(cfg, rebuild, ix, token, w, w.phase.block.number, Stopped(false));
    } else {
      StopKeeps(cfg, rebuild, ix, w);
    }
  }

  lemma ReadingTurnKeeps(cfg: Config, rebuild: Rebuild, ix: Index, token: Token, w: Worker, i: Input)
    requires Good(cfg, rebuild, ix) && Held(ix, token) && Holder(cfg, ix, w) && Honest(cfg, rebuild, ix, token, w, i)
    requires w.phase.Recover? || w.phase.Begin? || w.phase.AwaitBlock?
    ensures Keeps(cfg, rebuild, ix, w, Turn(cfg, ix, token, w, i))
  {
  }

  lemma FinishTurnKeeps(cfg: Config, rebuild: Rebuild, ix: Index, token: Token, w: Worker)
    requires Good(cfg, rebuild, ix) && Held(ix, token) && Holder(cfg, ix, w) && w.phase.Finish?
    ensures Keeps(cfg, rebuild, ix, w, FinishTurn(ix, token, w))
  {
    var out := FinishTurn(ix, token, w);
    assert out.ix.chain == ix.chain && out.ix.projections == ix.projections;
    assert Backed(rebuild, ix) ==> Backed(rebuild, out.ix);
  }

  lemma TipTurnKeeps(cfg: Config, rebuild: Rebuild, ix: Index, token: Token, w: Worker, i: Input)
    requires Good(cfg, rebuild, ix) && Held(ix, token) && Holder(cfg, ix, w) && Fits(w.phase, i) && w.phase.AwaitTip?
    ensures Keeps(cfg, rebuild, ix, w, Turn(cfg, ix, token, w, i))
  {
    hide Search, Inv, Backed;
    SearchKeeps(cfg, rebuild, ix, token, w, w.phase.checkpoint.number - 1, 1);
  }

  lemma SearchTurnKeeps(cfg: Config, rebuild: Rebuild, ix: Index, token: Token, w: Worker, i: Input)
    requires Good(cfg, rebuild, ix) && Held(ix, token) && Holder(cfg, ix, w) && Fits(w.phase, i) && w.phase.AwaitSearch?
    ensures Keeps(cfg, rebuild, ix, w, Turn(cfg, ix, token, w, i))
  {
    hide Good, Inv, RolledBack, Search, RollbackTurn;
    var local := w.phase.local;
    if i.block.Some? && local.Some? && local.value.hash == i.block.value.hash {
      RollbackTurnKeeps(cfg, rebuild, ix, token, w, w.phase.candidate + 1, Recover);
    } else if i.block.Some? {
      SearchKeeps(cfg, rebuild, ix, token, w, w.phase.candidate - 1, w.phase.searched + 1);
    }
  }

  lemma TurnKeeps(cfg: Config, rebuild: Rebuild, ix: Index, token: Token, w: Worker, i: Input)
    requires Good(cfg, rebuild, ix) && Held(ix, token) && Holder(cfg, ix, w) && Honest(cfg, rebuild, ix, token, w, i)
    ensures Keeps(cfg, rebuild, ix, w, Turn(cfg, ix, token, w, i))
  {
    hide Good, Holder, Keeps;
    if w.phase.AwaitTip? {
      TipTurnKeeps(cfg, rebuild, ix, token, w, i);
    } else if w.phase.AwaitSearch? {
      SearchTurnKeeps(cfg, rebuild, ix, token, w, i);
    } else if w.phase.AwaitLogs? {
      LogsTurnKeeps(cfg, rebuild, ix, token, w, i);
    } else if w.phase.AwaitRebuild? {
      RebuildTurnKeeps(cfg, rebuild, ix, token, w, i);
    } else if w.phase.Finish? {
      FinishTurnKeeps(cfg, rebuild, ix, token, w);
    } else {
      ReadingTurnKeeps(cfg, rebuild, ix, token, w, i);
    }
  }

  lemma TrackKeeps(cfg: Config, ix: Index, ops: OpTable, t: Tracker, i: TrackerInput)
    requires TrackerFits(t.phase, i) && OpsInv(cfg.contract, ix.chain, ops)
    ensures var out := TrackerTurn(cfg, ix, ops, t, i);
            out.saved.Some? ==> OpsInv(cfg.contract, ix.chain, ops[out.saved.value.id := out.saved.value])
  {
    hide Exclusive, IdentityFits;
    var out := TrackerTurn(cfg, ix, ops, t, i);
    if out.saved.Some? {
      SaveKeeps(cfg.contract, ix.chain, ops, out.saved.value);
    }
  }

  /** A receipt is stored with its own block and outcome, and only while that block is canonical. */
  lemma ReceiptIsRecorded(ix: Index, ops: OpTable, ck: Ref, o: O.Operation, reply: Option<ReceiptReply>)
    requires ReceiptTurn(ix, ops, ck, o, reply).saved.Some?
    ensures var saved := ReceiptTurn(ix, ops, ck, o, reply).saved.value;
            var r := reply.value;
            && saved.blockNumber == Some(r.block.number) && saved.blockHash == Some(r.block.hash) && saved.txIndex == r.txIndex
            && saved.receipt == Some(if r.success then O.Succeeded else O.Failed)
            && saved.state == (if r.success then O.Mined else O.State.Reverted)
            && saved.confirmations == 0 && saved.canonical && InChain(ix.chain, r.block.number, r.block.hash)
  {
  }

  /** A matched operation records exactly its depth below the synchronized head, and is confirmed exactly at the soft-ready depth. */
  lemma DepthIsRecorded(cfg: Config, latest: Ref, o: O.Operation, block: Ref, at: O.Time)
    requires Reconciled(cfg, latest, o, block, at).Some?
    ensures var next := Reconciled(cfg, latest, o, block, at).value;
            && next.confirmations == latest.number + 1 - block.number >= o.confirmations
            && next.reconciled && (next.state == O.Confirmed <==> next.confirmations >= cfg.softReady)
            && (next.state == O.Confirmed || next.state == O.Confirming)
            && (next.state == O.Confirmed ==> next.confirmedAt == Some(at))
  {
  }

  lemma ReportKeeps(cfg: Config, ix: Index, ops: OpTable, o: O.Operation)
    requires OpsInv(cfg.contract, ix.chain, ops) && Reportable(ops, o)
    ensures OpsInv(cfg.contract, ix.chain, ops[o.id := o])
  {
    SaveKeeps(cfg.contract, ix.chain, ops, o);
  }

  lemma StartKeeps(cfg: Config, rebuild: Rebuild, w: World, token: Token, head: nat, required: nat)
    requires WorldInv(cfg, rebuild, w) && Enabled(cfg, rebuild, w, Start(token, head, required))
    ensures WorldInv(cfg, rebuild, Apply(cfg, rebuild, w, Start(token, head, required)))
    ensures !Served(Apply(cfg, rebuild, w, Start(token, head, required)).ix)
  {
    hide OpsInv, Inv;
    ClaimKeeps(cfg.contract, w.ix, required, token);
    var ix := Claim(w.ix, required, token).value;
    assert Backed(rebuild, w.ix) ==> Backed(rebuild, ix);
  }

  lemma WorkKeeps(cfg: Config, rebuild: Rebuild, w: World, token: Token, input: Input)
    requires WorldInv(cfg, rebuild, w) && Enabled(cfg, rebuild, w, Work(token, input))
    ensures WorldInv(cfg, rebuild, Apply(cfg, rebuild, w, Work(token, input)))
  {
    hide Turn, OpsInv, Displace, Knows, Inv, Backed;
    var worker := w.workers[token];
    var out := Turn(cfg, w.ix, token, worker, input);
    if Held(w.ix, token) {
      TurnKeeps(cfg, rebuild, w.ix, token, worker, input);
      if out.rolledBack.Some? { DisplaceKeeps(cfg.contract, w.ix, w.ops, out.rolledBack.value); }
      else { GrowKeeps(cfg.contract, w.ix.chain, out.ix.chain, w.ops); }
    } else {
      Fenced(cfg, w.ix, token, worker, input);
    }
  }

  /** In every step of every worker exactly the operations whose block leaves the chain are reorganised. */
  lemma WorkMovesOrphans(cfg: Config, rebuild: Rebuild, w: World, token: Token, input: Input)
    requires WorldInv(cfg, rebuild, w) && Enabled(cfg, rebuild, w, Work(token, input))
    ensures var after := Apply(cfg, rebuild, w, Work(token, input));
            OnlyOrphanedMove(cfg.contract, after.ix.chain, w.ops, after.ops)
  {
    hide Turn, OpsInv, Displace, Knows, Inv, Backed, OnlyOrphanedMove;
    var worker := w.workers[token];
    var out := Turn(cfg, w.ix, token, worker, input);
    if Held(w.ix, token) {
      TurnKeeps(cfg, rebuild, w.ix, token, worker, input);
      if out.rolledBack.Some? { RollbackMovesOrphans(cfg.contract, w.ix, w.ops, out.rolledBack.value); }
      else { GrowthMovesNothing(cfg.contract, w.ix.chain, out.ix.chain, w.ops); }
    } else {
      Fenced(cfg, w.ix, token, worker, input);
      GrowthMovesNothing(cfg.contract, w.ix.chain, w.ix.chain, w.ops);
    }
  }

  lemma StepKeeps(cfg: Config, rebuild: Rebuild, w: World, step: Step)
    requires WorldInv(cfg, rebuild, w) && Enabled(cfg, rebuild, w, step)
    ensures WorldInv(cfg, rebuild, Apply(cfg, rebuild, w, step))
  {
    hide OpsInv, Good, Turn, TrackerTurn, Honest, Reportable, Claim;
    match step
    case Start(token, head, required) => StartKeeps(cfg, rebuild, w, token, head, required);
    case Work(token, input) => WorkKeeps(cfg, rebuild, w, token, input);
    case Follow(_, _, _) =>
    case Track(t, reply) => TrackKeeps(cfg, w.ix, w.ops, w.trackers[t], reply);
    case Report(o) => ReportKeeps(cfg, w.ix, w.ops, o);
  }

  lemma {:induction false} RunKeeps(cfg: Config, rebuild: Rebuild, worlds: seq<World>, steps: seq<Step>, k: nat)
    requires IsRun(cfg, rebuild, worlds, steps) && k < |worlds|
    ensures WorldInv(cfg, rebuild, worlds[k])
  {
    if k > 0 {
      RunKeeps(cfg, rebuild, worlds, steps, k - 1);
      assert StepAt(cfg, rebuild, worlds, steps, k - 1);
      StepKeeps(cfg, rebuild, worlds[k - 1], steps[k - 1]);
    }
  }

  // ------------------------------------------------------------ the main results

  /**
  Whenever the store serves, the projections in it are what `rebuildProjections` gave for
  the current checkpoint block and the full current canonical log, whatever other
  workers did in between; every projection read is one of them, at a canonical block.
  */
  lemma ServedIsCurrent(cfg: Config, rebuild: Rebuild, worlds: seq<World>, steps: seq<Step>, k: nat, owner: Address, key: string)
    requires IsRun(cfg, rebuild, worlds, steps) && k < |worlds|
    ensures var ix := worlds[k].ix;
            var read := ReadProjection(ix, owner, key);
            && (Served(ix) ==> Backed(rebuild, ix))
            && (read.Ok? && read.value.Some? ==>
                  && Served(ix)
                  && InChain(ix.chain, read.value.value.number, read.value.value.hash)
                  && exists log, ps :: IsLog(ix.chain, log) && rebuild(ix.chain[|ix.chain| - 1].block, log, ps) &&
                       ix.projections == ProjectionMap(ps) && read.value.value in ps)
  {
    RunKeeps(cfg, rebuild, worlds, steps, k);
    var ix := worlds[k].ix;
    ReadIffServed(cfg.contract, ix, owner, key);
    var read := ReadProjection(ix, owner, key);
    if read.Ok? && read.value.Some? {
      var log, ps :| IsLog(ix.chain, log) && rebuild(ix.chain[|ix.chain| - 1].block, log, ps) &&
        ix.projections == ProjectionMap(ps);
      ProjectionMapOf(ps);
    }
  }

  lemma ServedIsBacked(cfg: Config, rebuild: Rebuild, worlds: seq<World>, steps: seq<Step>)
    requires IsRun(cfg, rebuild, worlds, steps)
    ensures Served(worlds[|steps|].ix) ==> Backed(rebuild, worlds[|steps|].ix)
  {
    RunKeeps(cfg, rebuild, worlds, steps, |steps|);
  }

  /** The round of `token` ends in this step: its tip reached its own target and the projection is at the tip. */
  ghost predicate Completion(w: World, step: Step) {
    && step.Work? && step.token in w.workers && Held(w.ix, step.token)
    && var worker := w.workers[step.token];
       worker.phase.Finish? && AtTip(w.ix) && Tip(w.ix.chain).number >= worker.head == worker.required
  }

  lemma OnlyCompletionServes(cfg: Config, rebuild: Rebuild, w: World, step: Step)
    requires WorldInv(cfg, rebuild, w) && Enabled(cfg, rebuild, w, step)
    requires !Served(w.ix) && Served(Apply(cfg, rebuild, w, step).ix)
    ensures Completion(w, step)
  {
    if step.Work? {
      ServesOnlyByFinish(cfg, w.ix, step.token, w.workers[step.token], step.input);
    }
  }

  lemma ServesOnlyByFinish(cfg: Config, ix: Index, token: Token, w: Worker, i: Input)
    requires Fits(w.phase, i)
    ensures !Held(ix, token) ==> Turn(cfg, ix, token, w, i).ix == ix
    ensures !w.phase.Finish? ==>
              Turn(cfg, ix, token, w, i).ix.lease == ix.lease || !Turn(cfg, ix, token, w, i).ix.row.Some? ||
              !Turn(cfg, ix, token, w, i).ix.row.value.healthy
  {
  }

  /** From a claim on, nothing is served until some round completes. */
  lemma {:induction false} ClaimHidesUntilCompletion(
    cfg: Config, rebuild: Rebuild, worlds: seq<World>, steps: seq<Step>, claim: nat, k: nat)
    requires IsRun(cfg, rebuild, worlds, steps) && claim < k < |worlds| && steps[claim].Start?
    requires Served(worlds[k].ix)
    ensures exists j :: claim < j < k && Completion(worlds[j], steps[j])
    decreases k
  {
    RunKeeps(cfg, rebuild, worlds, steps, k - 1);
    assert StepAt(cfg, rebuild, worlds, steps, k - 1);
    if k == claim + 1 {
      StartKeeps(cfg, rebuild, worlds[claim], steps[claim].token, steps[claim].head, steps[claim].required);
    } else if Served(worlds[k - 1].ix) {
      ClaimHidesUntilCompletion(cfg, rebuild, worlds, steps, claim, k - 1);
    } else {
      OnlyCompletionServes(cfg, rebuild, worlds[k - 1], steps[k - 1]);
    }
  }

  /** A round that still holds its lease at the end passes the final health check and is served. */
  lemma HeldRoundSucceeds(cfg: Config, rebuild: Rebuild, worlds: seq<World>, steps: seq<Step>, k: nat, token: Token)
    requires IsRun(cfg, rebuild, worlds, steps) && k < |worlds| && token in worlds[k].workers
    requires Held(worlds[k].ix, token) && worlds[k].workers[token].phase.Finish?
    ensures var w := worlds[k].workers[token];
            var out := FinishTurn(worlds[k].ix, token, w);
            out.phase == Stopped(true) && out.ix.lease.None? && (Served(out.ix) <==> w.head == w.required)
  {
    RunKeeps(cfg, rebuild, worlds, steps, k);
  }

  /** In every reachable state the store is one linked chain and every operation is well evidenced on it. */
  lemma ReachableStore(cfg: Config, rebuild: Rebuild, worlds: seq<World>, steps: seq<Step>, k: nat, id: string)
    requires IsRun(cfg, rebuild, worlds, steps) && k < |worlds|
    ensures Inv(cfg.contract, worlds[k].ix)
    ensures id in worlds[k].ops ==>
              var o := worlds[k].ops[id];
              O.ValidEvidence(o) && (o.canonical && ContractOf(o) == cfg.contract ==>
                o.blockNumber.Some? && o.blockHash.Some? &&
                InChain(worlds[k].ix.chain, o.blockNumber.value, o.blockHash.value))
  {
    RunKeeps(cfg, rebuild, worlds, steps, k);
  }
}
