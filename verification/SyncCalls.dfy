/** The turns of one worker that nobody disturbs, and how they continue a run of the whole system. */
module SyncCalls {
  import opened Results
  import opened ChainTypes
  import opened ChainIndex
  import opened Tracking
  import opened SyncRuns
  import O = Operations

  /** What one worker works on: the index of its contract, the operations and its own state. */
  datatype Lone = Lone(ix: Index, ops: OpTable, worker: Worker)

  function Settle(cfg: Config, ops: OpTable, w: Worker, out: Outcome): Lone {
    Lone(out.ix, if out.rolledBack.Some? then Displace(ops, cfg.contract, out.rolledBack.value) else ops, w.(phase := out.phase))
  }

  /** The state after the turns with these inputs, as long as each of them can happen. */
  ghost function After(cfg: Config, rebuild: Rebuild, token: Token, a: Lone, inputs: seq<Input>): Option<Lone> {
    if inputs == [] then Some(a)
    else
      var last := inputs[|inputs| - 1];
      match After(cfg, rebuild, token, a, inputs[..|inputs| - 1])
      case None => None
      case Some(b) =>
        if Honest(cfg, rebuild, b.ix, token, b.worker, last)
        then Some(Settle(cfg, b.ops, b.worker, Turn(cfg, b.ix, token, b.worker, last))) else None
  }

  lemma {:induction false} AfterNone(cfg: Config, rebuild: Rebuild, token: Token, a: Lone)
    ensures After(cfg, rebuild, token, a, []) == Some(a)
  {
  }

  lemma {:induction false} AfterOne(cfg: Config, rebuild: Rebuild, token: Token, a: Lone, inputs: seq<Input>, b: Lone, input: Input)
    requires After(cfg, rebuild, token, a, inputs) == Some(b) && Honest(cfg, rebuild, b.ix, token, b.worker, input)
    ensures After(cfg, rebuild, token, a, inputs + [input]) ==
            Some(Settle(cfg, b.ops, b.worker, Turn(cfg, b.ix, token, b.worker, input)))
  {
    assert (inputs + [input])[..|inputs|] == inputs;
  }

  lemma {:induction false} AfterMore(cfg: Config, rebuild: Rebuild, token: Token, a: Lone, p: seq<Input>, b: Lone, q: seq<Input>)
    requires After(cfg, rebuild, token, a, p) == Some(b)
    ensures After(cfg, rebuild, token, a, p + q) == After(cfg, rebuild, token, b, q)
    decreases |q|
  {
    hide Honest, Turn, Settle;
    if q == [] {
      assert p + q == p;
    } else {
      var n := |q| - 1;
      AfterMore(cfg, rebuild, token, a, p, b, q[..n]);
      assert (p + q)[..|p| + n] == p + q[..n] && (p + q)[|p| + n] == q[n];
    }
  }

  // ------------------------------------------------------------ the turns of a call

  lemma {:induction false} AfterTurn(cfg: Config, rebuild: Rebuild, token: Token, a: Lone, input: Input)
    requires Honest(cfg, rebuild, a.ix, token, a.worker, input)
    ensures After(cfg, rebuild, token, a, [input]) == Some(Settle(cfg, a.ops, a.worker, Turn(cfg, a.ix, token, a.worker, input)))
  {
    AfterOne(cfg, rebuild, token, a, [], a, input);
    assert [] + [input] == [input];
  }

  /** The answer for the checkpoint's height: go on, or search below it. */
  lemma {:induction false} TipTurn(cfg: Config, rebuild: Rebuild, token: Token, ix: Index, ops: OpTable, w: Worker, reply: Option<Block>)
    requires ix.chain != [] && w.phase == Enter(ix)
    ensures After(cfg, rebuild, token, Lone(ix, ops, w), [BlockReply(reply)]) ==
            Some(Settle(cfg, ops, w,
                        if reply.None? then Stop(ix)
                        else if reply.value.hash == Tip(ix.chain).hash then Outcome(ix, None, Recover)
                        else Search(cfg, ix, token, Tip(ix.chain).number - 1, 1)))
  {
    AfterTurn(cfg, rebuild, token, Lone(ix, ops, w), BlockReply(reply));
  }

  /** One height of the search: roll back above it, or go on below it. */
  lemma {:induction false} SearchTurn(cfg: Config, rebuild: Rebuild, token: Token, a: Lone, inputs: seq<Input>, ix: Index, ops: OpTable, w: Worker,
                   candidate: nat, searched: nat, block: Block)
    requires After(cfg, rebuild, token, a, inputs) == Some(Settle(cfg, ops, w, Search(cfg, ix, token, candidate, searched)))
    requires cfg.deploy <= candidate && searched <= cfg.searchLimit
    ensures After(cfg, rebuild, token, a, inputs + [BlockReply(Some(block))]) ==
            Some(Settle(cfg, ops, w,
                        if InChain(ix.chain, candidate, block.hash) then RollbackTurn(ix, token, candidate + 1, Recover)
                        else Search(cfg, ix, token, candidate - 1, searched + 1)))
  {
    var waiting := w.(phase := Seeking(ix, candidate, searched));
    assert Settle(cfg, ops, w, Search(cfg, ix, token, candidate, searched)) == Lone(ix, ops, waiting);
    hide After, Search, RollbackTurn, Turn, Honest, InChain;
    SeekingTurn(cfg, rebuild, token, ix, waiting, candidate, searched, block);
    AfterOne(cfg, rebuild, token, a, inputs, Lone(ix, ops, waiting), BlockReply(Some(block)));
  }

  function Seeking(ix: Index, candidate: nat, searched: nat): Phase {
    AwaitSearch(candidate, searched, if HasHeight(ix.chain, candidate) then Some(At(ix.chain, candidate).block) else None)
  }

  lemma SeekingTurn(cfg: Config, rebuild: Rebuild, token: Token, ix: Index, w: Worker, candidate: nat, searched: nat, block: Block)
    requires w.phase == Seeking(ix, candidate, searched)
    ensures Honest(cfg, rebuild, ix, token, w, BlockReply(Some(block)))
    ensures Turn(cfg, ix, token, w, BlockReply(Some(block))) ==
            if InChain(ix.chain, candidate, block.hash) then RollbackTurn(ix, token, candidate + 1, Recover)
            else Search(cfg, ix, token, candidate - 1, searched + 1)
  {
    hide MarkUnhealthy, RolledBack, IsLog;
  }

  lemma StopSettles(cfg: Config, ops: OpTable, w: Worker, ix: Index)
    ensures Settle(cfg, ops, w, Stop(ix)) == Lone(ix, ops, w.(phase := Stopped(false)))
    ensures forall phase :: Settle(cfg, ops, w, Outcome(ix, None, phase)) == Lone(ix, ops, w.(phase := phase))
  {
  }

  lemma RollbackSettles(cfg: Config, ops: OpTable, w: Worker, ix: Index, token: Token, from: nat, next: Phase)
    ensures Settle(cfg, ops, w, RollbackTurn(ix, token, from, next)) ==
            if Owns(ix, Some(token)) then Lone(RolledBack(ix, from), Displace(ops, cfg.contract, from), w.(phase := next))
            else Lone(ix, ops, w.(phase := Stopped(false)))
  {
  }

  /** A search that went too far leaves the store marked, if the worker still may. */
  lemma SearchEnds(cfg: Config, ops: OpTable, w: Worker, ix: Index, token: Token, candidate: int, searched: nat)
    requires !(cfg.deploy <= candidate && searched <= cfg.searchLimit)
    ensures var fault := if cfg.deploy <= candidate then ReorgDepthExceeded else ReorgNoCommonAncestor;
            var marked := MarkUnhealthy(ix, fault, None, Some(token));
            Settle(cfg, ops, w, Search(cfg, ix, token, candidate, searched)) ==
            Lone(if marked.Ok? then marked.value else ix, ops, w.(phase := Stopped(false)))
  {
  }

  lemma {:induction false} RecoverTurns(cfg: Config, rebuild: Rebuild, token: Token, ix: Index, ops: OpTable, w: Worker, log: seq<Event>)
    requires w.phase.Recover? && (ix.chain == [] || AtTip(ix) || IsLog(ix.chain, log))
    ensures After(cfg, rebuild, token, Lone(ix, ops, w), [Resume(log)]) == Some(Lone(ix, ops, w.(phase := RecoverTurn(ix, log))))
  {
    AfterTurn(cfg, rebuild, token, Lone(ix, ops, w), Resume(log));
  }

  /** Where the block loop goes after a height. */
  function Onward(w: Worker, number: nat): Phase { if number < w.head then AwaitBlock(number + 1) else Finish }

  function NextPhase(w: Worker): Phase
    requires w.phase.AwaitRebuild?
  {
    if w.phase.looping then Onward(w, w.phase.block.number) else Begin
  }

  /** The integration's answer is committed, or the call ends, in the loop with its block undone by the holder of the lease. */
  lemma {:induction false} RebuildTurns(cfg: Config, rebuild: Rebuild, token: Token, ix: Index, ops: OpTable, w: Worker, ps: Option<seq<Projection>>)
    requires w.phase.AwaitRebuild? && (ps.Some? ==> rebuild(w.phase.block, w.phase.log, ps.value))
    ensures var block := w.phase.block;
            After(cfg, rebuild, token, Lone(ix, ops, w), [RebuildReply(ps)]) ==
            Some(if ps.Some? && CanCommit(cfg.contract, ix, block, ps.value, Some(token))
                 then Lone(Committed(ix, block, ps.value), ops, w.(phase := NextPhase(w)))
                 else if w.phase.looping && Owns(ix, Some(token))
                 then Lone(RolledBack(ix, block.number), Displace(ops, cfg.contract, block.number), w.(phase := Stopped(false)))
                 else Lone(ix, ops, w.(phase := Stopped(false))))
  {
    hide Committed, RolledBack, Displace;
    AfterTurn(cfg, rebuild, token, Lone(ix, ops, w), RebuildReply(ps));
  }

  lemma {:induction false} BeginTurns(cfg: Config, rebuild: Rebuild, token: Token, ix: Index, ops: OpTable, w: Worker)
    requires w.phase.Begin?
    ensures After(cfg, rebuild, token, Lone(ix, ops, w), [Resume([])]) == Some(Lone(ix, ops, w.(phase := BeginTurn(cfg, ix, w))))
  {
    AfterTurn(cfg, rebuild, token, Lone(ix, ops, w), Resume([]));
  }

  lemma {:induction false} BlockTurns(cfg: Config, rebuild: Rebuild, token: Token, ix: Index, ops: OpTable, w: Worker, reply: Option<Block>)
    requires w.phase.AwaitBlock?
    ensures After(cfg, rebuild, token, Lone(ix, ops, w), [BlockReply(reply)]) ==
            Some(Lone(ix, ops, w.(phase := BlockTurn(ix, w.phase.number, reply))))
  {
    AfterTurn(cfg, rebuild, token, Lone(ix, ops, w), BlockReply(reply));
  }

  /** A record that is refused, for whatever reason, ends the call. */
  lemma {:induction false} RefusedTurns(cfg: Config, rebuild: Rebuild, token: Token, ix: Index, ops: OpTable, w: Worker, block: Block)
    requires w.phase.AwaitBlock? && BlockTurn(ix, w.phase.number, Some(block)).AwaitLogs?
    ensures After(cfg, rebuild, token, Lone(ix, ops, w), [BlockReply(Some(block)), LogsReply(None, true, [])]) ==
            Some(Lone(ix, ops, w.(phase := Stopped(false))))
  {
    BlockTurns(cfg, rebuild, token, ix, ops, w, Some(block));
    var b := Lone(ix, ops, w.(phase := AwaitLogs(block)));
    AfterOne(cfg, rebuild, token, Lone(ix, ops, w), [BlockReply(Some(block))], b, LogsReply(None, true, []));
    assert [BlockReply(Some(block))] + [LogsReply(None, true, [])] == [BlockReply(Some(block)), LogsReply(None, true, [])];
  }

  lemma {:induction false} RecordTurns(cfg: Config, rebuild: Rebuild, token: Token, ix: Index, ops: OpTable, w: Worker, block: Block,
                    events: seq<Event>, log: seq<Event>)
    requires w.phase.AwaitBlock? && BlockTurn(ix, w.phase.number, Some(block)).AwaitLogs?
    requires CanRecord(cfg.contract, ix, block, events, Some(w.required), Some(token))
    requires IsLog(Recorded(ix, block, events, Some(w.required)).chain, log)
    ensures After(cfg, rebuild, token, Lone(ix, ops, w), [BlockReply(Some(block)), LogsReply(Some(events), false, log)]) ==
            Some(Lone(Recorded(ix, block, events, Some(w.required)), ops, w.(phase := AwaitRebuild(block, log, true))))
  {
    hide CanRecord, Recorded, IsLog;
    BlockTurns(cfg, rebuild, token, ix, ops, w, Some(block));
    var b := Lone(ix, ops, w.(phase := AwaitLogs(block)));
    AfterOne(cfg, rebuild, token, Lone(ix, ops, w), [BlockReply(Some(block))], b, LogsReply(Some(events), false, log));
    assert [BlockReply(Some(block))] + [LogsReply(Some(events), false, log)] ==
           [BlockReply(Some(block)), LogsReply(Some(events), false, log)];
  }

  /** One block of the loop: recorded, then committed or undone. */
  lemma {:induction false} IndexTurns(cfg: Config, rebuild: Rebuild, token: Token, ix: Index, ops: OpTable, w: Worker, block: Block,
                   events: seq<Event>, log: seq<Event>, ps: Option<seq<Projection>>)
    requires w.phase.AwaitBlock? && BlockTurn(ix, w.phase.number, Some(block)).AwaitLogs?
    requires CanRecord(cfg.contract, ix, block, events, Some(w.required), Some(token))
    requires IsLog(Recorded(ix, block, events, Some(w.required)).chain, log) && (ps.Some? ==> rebuild(block, log, ps.value))
    ensures var next := Recorded(ix, block, events, Some(w.required));
            After(cfg, rebuild, token, Lone(ix, ops, w),
                  [BlockReply(Some(block)), LogsReply(Some(events), false, log)] + [RebuildReply(ps)]) ==
            Some(if ps.Some? && CanCommit(cfg.contract, next, block, ps.value, Some(token))
                 then Lone(Committed(next, block, ps.value), ops, w.(phase := Onward(w, block.number)))
                 else Lone(RolledBack(next, block.number), Displace(ops, cfg.contract, block.number), w.(phase := Stopped(false))))
  {
    RecordTurns(cfg, rebuild, token, ix, ops, w, block, events, log);
    var next := Recorded(ix, block, events, Some(w.required));
    assert Owns(next, Some(token));
    hide CanRecord, Recorded, IsLog, Committed, RolledBack, Displace, CanCommit, After, BlockTurn;
    var waiting := w.(phase := AwaitRebuild(block, log, true));
    RebuildTurns(cfg, rebuild, token, next, ops, waiting, ps);
    AfterMore(cfg, rebuild, token, Lone(ix, ops, w), [BlockReply(Some(block)), LogsReply(Some(events), false, log)],
              Lone(next, ops, waiting), [RebuildReply(ps)]);
  }

  lemma {:induction false} FinishTurns(cfg: Config, rebuild: Rebuild, token: Token, ix: Index, ops: OpTable, w: Worker)
    requires w.phase.Finish?
    ensures After(cfg, rebuild, token, Lone(ix, ops, w), [Resume([])]) == Some(Settle(cfg, ops, w, FinishTurn(ix, token, w)))
  {
    hide MarkHealthy, ReleaseIncomplete;
    AfterTurn(cfg, rebuild, token, Lone(ix, ops, w), Resume([]));
  }

  // ------------------------------------------------------------ calls continue runs

  ghost predicate Within(answers: Rebuild, rebuild: Rebuild) {
    forall block, log, ps | answers(block, log, ps) :: rebuild(block, log, ps)
  }

  function Placed(w: World, token: Token, b: Lone): World {
    w.(ix := b.ix, ops := b.ops, workers := w.workers[token := b.worker])
  }

  lemma StepOn(cfg: Config, rebuild: Rebuild, worlds: seq<World>, steps: seq<Step>, step: Step)
    requires IsRun(cfg, rebuild, worlds, steps) && Enabled(cfg, rebuild, worlds[|steps|], step)
    ensures IsRun(cfg, rebuild, worlds + [Apply(cfg, rebuild, worlds[|steps|], step)], steps + [step])
  {
    hide Enabled, Apply;
    var worlds', steps' := worlds + [Apply(cfg, rebuild, worlds[|steps|], step)], steps + [step];
    forall i | 0 <= i < |steps'| ensures StepAt(cfg, rebuild, worlds', steps', i) {
      if i < |steps| { assert StepAt(cfg, rebuild, worlds, steps, i); }
    }
  }

  lemma {:induction false} TurnsContinueRun(cfg: Config, answers: Rebuild, rebuild: Rebuild, worlds: seq<World>, steps: seq<Step>,
                                            token: Token, a: Lone, inputs: seq<Input>, b: Lone)
    returns (worlds': seq<World>, steps': seq<Step>)
    requires IsRun(cfg, rebuild, worlds, steps) && Within(answers, rebuild)
    requires token in worlds[|steps|].workers && worlds[|steps|] == Placed(worlds[|steps|], token, a)
    requires After(cfg, answers, token, a, inputs) == Some(b)
    ensures IsRun(cfg, rebuild, worlds', steps') && worlds <= worlds' && steps <= steps'
    ensures worlds'[|steps'|] == Placed(worlds[|steps|], token, b)
    decreases |inputs|
  {
    hide Turn, StepAt;
    if inputs == [] {
      worlds', steps' := worlds, steps;
    } else {
      var n := |inputs| - 1;
      var mid := After(cfg, answers, token, a, inputs[..n]).value;
      worlds', steps' := TurnsContinueRun(cfg, answers, rebuild, worlds, steps, token, a, inputs[..n], mid);
      var w, step := worlds'[|steps'|], Work(token, inputs[n]);
      assert Honest(cfg, answers, mid.ix, token, mid.worker, inputs[n]);
      assert Enabled(cfg, rebuild, w, step);
      StepOn(cfg, rebuild, worlds', steps', step);
      worlds', steps' := worlds' + [Apply(cfg, rebuild, w, step)], steps' + [step];
    }
  }

  /** Where a call of the synchronizer stands after its claim. */
  function Claimed(ix: Index, ops: OpTable, token: Token, head: nat, required: nat): Lone
    requires Claim(ix, required, token).Ok?
  {
    var claimed := Claim(ix, required, token).value;
    Lone(claimed, ops, Worker(head, required, Enter(claimed)))
  }

  /**
  The turns of a call whose token is new continue any run that led to its store, so
  everything proved of runs holds of the store after the call.
  */
  lemma CallContinuesRun(cfg: Config, answers: Rebuild, rebuild: Rebuild, worlds: seq<World>, steps: seq<Step>,
                         token: Token, head: nat, required: nat, inputs: seq<Input>, b: Lone)
    returns (worlds': seq<World>, steps': seq<Step>)
    requires IsRun(cfg, rebuild, worlds, steps) && Within(answers, rebuild)
    requires token !in worlds[|steps|].workers && cfg.deploy <= head <= required && Claim(worlds[|steps|].ix, required, token).Ok?
    requires After(cfg, answers, token, Claimed(worlds[|steps|].ix, worlds[|steps|].ops, token, head, required), inputs) == Some(b)
    ensures IsRun(cfg, rebuild, worlds', steps') && worlds <= worlds' && steps <= steps'
    ensures worlds'[|steps'|].ix == b.ix && worlds'[|steps'|].ops == b.ops
    ensures worlds'[|steps'|].workers == worlds[|steps|].workers[token := b.worker]
    ensures Inv(cfg.contract, b.ix) && OpsInv(cfg.contract, b.ix.chain, b.ops) && (Served(b.ix) ==> Backed(rebuild, b.ix))
  {
    var w, step := worlds[|steps|], Start(token, head, required);
    StepOn(cfg, rebuild, worlds, steps, step);
    var started := Apply(cfg, rebuild, w, step);
    worlds', steps' := TurnsContinueRun(cfg, answers, rebuild, worlds + [started], steps + [step], token,
                                        Claimed(w.ix, w.ops, token, head, required), inputs, b);
    RunKeeps(cfg, rebuild, worlds', steps', |steps'|);
  }

  // ------------------------------------------------------------ a tracker that nobody disturbs

  /** The operations and the tracker after one turn. */
  function TrackedBy(cfg: Config, ix: Index, ops: OpTable, t: Tracker, input: TrackerInput): (OpTable, Tracker)
    requires TrackerFits(t.phase, input)
  {
    var out := TrackerTurn(cfg, ix, ops, t, input);
    (WithSaved(ops, out.saved), t.(phase := out.phase))
  }

  function WithSaved(ops: OpTable, saved: Option<O.Operation>): OpTable {
    if saved.Some? then ops[saved.value.id := saved.value] else ops
  }

  /** The operations and the tracker after the turns with these inputs, as long as each of them can happen. */
  function TrackedAfter(cfg: Config, ix: Index, ops: OpTable, t: Tracker, inputs: seq<TrackerInput>): Option<(OpTable, Tracker)> {
    if inputs == [] then Some((ops, t))
    else
      var last := inputs[|inputs| - 1];
      match TrackedAfter(cfg, ix, ops, t, inputs[..|inputs| - 1])
      case None => None
      case Some((now, at)) => if TrackerFits(at.phase, last) then Some(TrackedBy(cfg, ix, now, at, last)) else None
  }

  lemma {:induction false} TrackedOn(cfg: Config, ix: Index, ops: OpTable, t: Tracker, inputs: seq<TrackerInput>, now: OpTable, at: Tracker,
                  input: TrackerInput)
    requires TrackedAfter(cfg, ix, ops, t, inputs) == Some((now, at)) && TrackerFits(at.phase, input)
    ensures TrackedAfter(cfg, ix, ops, t, inputs + [input]) == Some(TrackedBy(cfg, ix, now, at, input))
  {
    assert (inputs + [input])[..|inputs|] == inputs;
  }

  lemma {:induction false} TrackedNone(cfg: Config, ix: Index, ops: OpTable, t: Tracker)
    ensures TrackedAfter(cfg, ix, ops, t, []) == Some((ops, t))
  {
  }

  lemma {:induction false} TrackContinuesRun(cfg: Config, rebuild: Rebuild, worlds: seq<World>, steps: seq<Step>, n: nat,
                                             inputs: seq<TrackerInput>, ops: OpTable, t: Tracker)
    returns (worlds': seq<World>, steps': seq<Step>)
    requires IsRun(cfg, rebuild, worlds, steps) && n in worlds[|steps|].trackers
    requires TrackedAfter(cfg, worlds[|steps|].ix, worlds[|steps|].ops, worlds[|steps|].trackers[n], inputs) == Some((ops, t))
    ensures IsRun(cfg, rebuild, worlds', steps') && worlds <= worlds' && steps <= steps'
    ensures worlds'[|steps'|] == worlds[|steps|].(ops := ops, trackers := worlds[|steps|].trackers[n := t])
    decreases |inputs|
  {
    hide TrackerTurn, StepAt;
    var w := worlds[|steps|];
    if inputs == [] {
      worlds', steps' := worlds, steps;
    } else {
      var last := |inputs| - 1;
      var (now, at) := TrackedAfter(cfg, w.ix, w.ops, w.trackers[n], inputs[..last]).value;
      worlds', steps' := TrackContinuesRun(cfg, rebuild, worlds, steps, n, inputs[..last], now, at);
      var mid, step := worlds'[|steps'|], Track(n, inputs[last]);
      StepOn(cfg, rebuild, worlds', steps', step);
      worlds', steps' := worlds' + [Apply(cfg, rebuild, mid, step)], steps' + [step];
    }
  }

  /** The turns of one tracking call continue any run that led to its store. */
  lemma TrackingContinuesRun(cfg: Config, rebuild: Rebuild, worlds: seq<World>, steps: seq<Step>, n: nat, id: string, latest: Ref,
                             inputs: seq<TrackerInput>, ops: OpTable, t: Tracker)
    returns (worlds': seq<World>, steps': seq<Step>)
    requires IsRun(cfg, rebuild, worlds, steps) && n !in worlds[|steps|].trackers
    requires TrackedAfter(cfg, worlds[|steps|].ix, worlds[|steps|].ops, Tracker(id, latest, Opening), inputs) == Some((ops, t))
    ensures IsRun(cfg, rebuild, worlds', steps') && worlds <= worlds' && steps <= steps'
    ensures worlds'[|steps'|].ix == worlds[|steps|].ix && worlds'[|steps'|].ops == ops
    ensures OpsInv(cfg.contract, worlds[|steps|].ix.chain, ops)
  {
    var w, step := worlds[|steps|], Follow(n, id, latest);
    StepOn(cfg, rebuild, worlds, steps, step);
    var followed := Apply(cfg, rebuild, w, step);
    worlds', steps' := TrackContinuesRun(cfg, rebuild, worlds + [followed], steps + [step], n, inputs, ops, t);
    RunKeeps(cfg, rebuild, worlds', steps', |steps'|);
  }
}
