/** What a run never takes back: the identity of an operation, and the target of a claim. */
module SyncHistory {
  import opened Results
  import opened ChainTypes
  import opened ChainIndex
  import opened Tracking
  import opened SyncRuns
  import O = Operations

  // ------------------------------------------------------------ operations

  /** The step saves the operation without a transaction hash. */
  predicate Forgets(step: Step, id: string) { step.Report? && step.operation.id == id && step.operation.tx.None? }

  lemma DisplacedSame(ops: OpTable, c: Contract, from: nat, id: string)
    requires id in ops
    ensures id in Displace(ops, c, from) && O.SameIdentity(ops[id], Displace(ops, c, from)[id])
    ensures Displace(ops, c, from)[id].tx == ops[id].tx
  {
  }

  /** What a tracker saves is the operation it read, under the same hash. */
  lemma TrackedSame(cfg: Config, ix: Index, ops: OpTable, t: Tracker, i: TrackerInput)
    requires TrackerFits(t.phase, i) && TrackerTurn(cfg, ix, ops, t, i).saved.Some?
    ensures var o := TrackerTurn(cfg, ix, ops, t, i).saved.value;
            o.id in ops && O.SameIdentity(ops[o.id], o) && ops[o.id].tx == o.tx
  {
    hide O.Transition, CanSave;
  }

  /** One step keeps what an operation is, and keeps a known hash exactly unless it saves the operation without one. */
  lemma StepKeepsIdentity(cfg: Config, rebuild: Rebuild, w: World, step: Step, id: string)
    requires WorldInv(cfg, rebuild, w) && Enabled(cfg, rebuild, w, step) && id in w.ops
    ensures var after := Apply(cfg, rebuild, w, step);
            && id in after.ops && O.SameIdentity(w.ops[id], after.ops[id])
            && (w.ops[id].tx.Some? ==> (after.ops[id].tx == w.ops[id].tx <==> !Forgets(step, id)))
  {
    hide Good, Turn, TrackerTurn, Displace, O.ValidEvidence, Exclusive;
    if step.Work? {
      var out := Turn(cfg, w.ix, step.token, w.workers[step.token], step.input);
      if out.rolledBack.Some? { DisplacedSame(w.ops, cfg.contract, out.rolledBack.value, id); }
    } else if step.Track? {
      var out := TrackerTurn(cfg, w.ix, w.ops, w.trackers[step.tracker], step.reply);
      if out.saved.Some? { TrackedSame(cfg, w.ix, w.ops, w.trackers[step.tracker], step.reply); }
    }
  }

  /** Between any two points of a run an operation stays what it is; a known hash stays unless a save without one comes between. */
  lemma {:induction false} IdentityIsForever(cfg: Config, rebuild: Rebuild, worlds: seq<World>, steps: seq<Step>, j: nat, k: nat, id: string)
    requires IsRun(cfg, rebuild, worlds, steps) && j <= k < |worlds| && id in worlds[j].ops
    ensures id in worlds[k].ops && O.SameIdentity(worlds[j].ops[id], worlds[k].ops[id])
    ensures worlds[j].ops[id].tx.Some? && (forall i | j <= i < k :: !Forgets(steps[i], id)) ==>
              worlds[k].ops[id].tx == worlds[j].ops[id].tx
    decreases k
  {
    if j < k {
      IdentityIsForever(cfg, rebuild, worlds, steps, j, k - 1, id);
      RunKeeps(cfg, rebuild, worlds, steps, k - 1);
      assert StepAt(cfg, rebuild, worlds, steps, k - 1);
      hide Apply, Enabled, WorldInv;
      StepKeepsIdentity(cfg, rebuild, worlds[k - 1], steps[k - 1], id);
    }
  }

  /** The store does admit such a save: an operation that awaits its signature again takes a known hash away. */
  lemma HashCanBeForgotten(ops: OpTable, o: O.Operation)
    requires o.id in ops && ops[o.id] == o && O.ValidEvidence(o) && o.state == O.Submitted && ValidId(o.id)
    ensures var again := o.(state := O.AwaitingSignature, tx := None, submittedAt := None);
            Reportable(ops, again) && Forgets(Report(again), o.id) && o.tx.Some?
  {
  }

  // ------------------------------------------------------------ targets

  /** The step ends a round that reached its target, or gives up on a reorganisation. */
  ghost predicate Releases(cfg: Config, rebuild: Rebuild, w: World, step: Step)
    requires Enabled(cfg, rebuild, w, step)
  {
    || Completion(w, step)
    || (step.Work? && Held(w.ix, step.token) && (w.workers[step.token].phase.AwaitTip? || w.workers[step.token].phase.AwaitSearch?) &&
        Apply(cfg, rebuild, w, step).ix.lease.None?)
  }

  lemma TurnKeepsTarget(cfg: Config, rebuild: Rebuild, ix: Index, token: Token, w: Worker, i: Input)
    requires Good(cfg, rebuild, ix) && Held(ix, token) && Holder(cfg, ix, w) && Honest(cfg, rebuild, ix, token, w, i)
    requires Turn(cfg, ix, token, w, i).ix.lease.Some? || (w.phase.Finish? && w.head < w.required)
    ensures RequiredTarget(Turn(cfg, ix, token, w, i).ix) >= RequiredTarget(ix)
  {
    hide Inv, Backed, Knows, CanRecord, CanCommit, IsLog, Truncate;
  }

  /** No step lowers what a claim must reach, but the end of a round or a reorganisation that is given up on. */
  lemma StepKeepsTarget(cfg: Config, rebuild: Rebuild, w: World, step: Step)
    requires WorldInv(cfg, rebuild, w) && Enabled(cfg, rebuild, w, step) && !Releases(cfg, rebuild, w, step)
    ensures RequiredTarget(Apply(cfg, rebuild, w, step).ix) >= RequiredTarget(w.ix)
    ensures step.Start? ==> step.required >= RequiredTarget(w.ix) && RequiredTarget(Apply(cfg, rebuild, w, step).ix) == step.required
  {
    if step.Work? {
      var worker := w.workers[step.token];
      if Held(w.ix, step.token) {
        TurnKeeps(cfg, rebuild, w.ix, step.token, worker, step.input);
        LeaseGoesOnly(cfg, rebuild, w.ix, step.token, worker, step.input);
        hide Turn;
        TurnKeepsTarget(cfg, rebuild, w.ix, step.token, worker, step.input);
      } else {
        Fenced(cfg, w.ix, step.token, worker, step.input);
      }
    }
  }

  /** Where a turn of the holder gives the lease away. */
  lemma LeaseGoesOnly(cfg: Config, rebuild: Rebuild, ix: Index, token: Token, w: Worker, i: Input)
    requires Good(cfg, rebuild, ix) && Held(ix, token) && Holder(cfg, ix, w) && Honest(cfg, rebuild, ix, token, w, i)
    ensures Turn(cfg, ix, token, w, i).ix.lease.Some? || w.phase.Finish? || w.phase.AwaitTip? || w.phase.AwaitSearch?
    ensures w.phase.Finish? && w.head == w.required ==> AtTip(ix) && Tip(ix.chain).number >= w.head
  {
    hide Inv, Backed, CanRecord, CanCommit, IsLog, Truncate;
  }

  /** The targets of successive claims never go down until a round completes or a reorganisation is given up on. */
  lemma {:induction false} TargetsNeverFall(cfg: Config, rebuild: Rebuild, worlds: seq<World>, steps: seq<Step>, a: nat, b: nat)
    requires IsRun(cfg, rebuild, worlds, steps) && a < b < |steps| && steps[a].Start? && steps[b].Start?
    requires forall i | a < i < b :: StepAt(cfg, rebuild, worlds, steps, i) && !Releases(cfg, rebuild, worlds[i], steps[i])
    ensures steps[a].required <= steps[b].required
  {
    TargetHolds(cfg, rebuild, worlds, steps, a, b);
    assert StepAt(cfg, rebuild, worlds, steps, b);
  }

  lemma {:induction false} TargetHolds(cfg: Config, rebuild: Rebuild, worlds: seq<World>, steps: seq<Step>, a: nat, k: nat)
    requires IsRun(cfg, rebuild, worlds, steps) && a < k <= |steps| && steps[a].Start?
    requires forall i | a < i < k :: StepAt(cfg, rebuild, worlds, steps, i) && !Releases(cfg, rebuild, worlds[i], steps[i])
    ensures RequiredTarget(worlds[k].ix) >= steps[a].required
    decreases k
  {
    RunKeeps(cfg, rebuild, worlds, steps, k - 1);
    assert StepAt(cfg, rebuild, worlds, steps, k - 1);
    if k - 1 == a {
      assert RequiredTarget(worlds[k].ix) >= steps[a].required;
    } else {
      TargetHolds(cfg, rebuild, worlds, steps, a, k - 1);
      StepKeepsTarget(cfg, rebuild, worlds[k - 1], steps[k - 1]);
    }
  }
}
