/** The deployment session as an object; each of its calls is a sequence of steps of a run. */
module WalletSession {
  import opened Results
  import opened Wallet
  import opened WalletRuns
  import opened WalletReplies

  /** What lies outside the session: the durable journal, and the offers made to the wallet. */
  class Outside {
    var durable: seq<Entry>
    ghost var prompts: seq<nat>

    constructor ()
      ensures durable == [] && prompts == []
    {
      durable, prompts := [], [];
    }
  }

  /** The world after `steps`, from any world of a run. */
  ghost function RunFrom(plan: Plan, w: World, steps: seq<Step>): (after: World)
    requires ValidPlan(plan) && Inv(plan, w)
    ensures Inv(plan, after)
    decreases |steps|
  {
    if steps == [] then w
    else
      var before, step := RunFrom(plan, w, steps[..|steps| - 1]), steps[|steps| - 1];
      if Enabled(before, step) then
        StepKeeps(plan, before, step);
        Apply(plan, before, step)
      else before
  }

  lemma {:induction false} RunFromOne(plan: Plan, w: World, steps: seq<Step>, step: Step)
    requires ValidPlan(plan) && Inv(plan, w)
    ensures var before := RunFrom(plan, w, steps);
            RunFrom(plan, w, steps + [step]) == if Enabled(before, step) then Apply(plan, before, step) else before
  {
    assert (steps + [step])[..|steps|] == steps;
  }

  /** Steps made by calls continue a run. */
  lemma {:induction false} RunContinues(plan: Plan, done: seq<Step>, steps: seq<Step>)
    requires ValidPlan(plan)
    ensures Run(plan, done + steps) == RunFrom(plan, Run(plan, done), steps)
    decreases |steps|
  {
    hide Apply, Inv, Enabled;
    if steps == [] {
      assert done + steps == done;
    } else {
      var n := |steps| - 1;
      RunContinues(plan, done, steps[..n]);
      assert (done + steps)[..|done| + n] == done + steps[..n] && (done + steps)[|done| + n] == steps[n];
    }
  }

  /** Everything the environment decides during one `sendNext`. */
  datatype SendInput = SendInput(
    first: Step, passes: bool, estimate: nat, second: Step, stops: bool,
    ready: bool, expired: bool, intentSave: Save, returned: Option<Hash>, replySave: Save, last: Step)

  predicate ValidInput(input: SendInput) {
    input.first.ReconcileTurn? && input.second.ReconcileTurn? && input.last.ReconcileTurn?
  }

  class DeploymentWalletSession {
    const plan: Plan
    const outside: Outside
    var journal: seq<Entry>
    var storageFailed: bool
    var stopped: bool
    ghost var stage: Stage

    ghost function View(): World
      reads this, outside
    {
      World(outside.durable, Some(Session(journal, storageFailed, stopped, stage)), outside.prompts)
    }

    ghost predicate Valid()
      reads this, outside
    {
      ValidPlan(plan) && Inv(plan, View())
    }

    /** A session loaded from the durable journal. */
    constructor (plan: Plan, outside: Outside)
      requires ValidPlan(plan) && Inv(plan, World(outside.durable, None, outside.prompts))
      ensures Valid() && this.plan == plan && this.outside == outside && stage == Idle
      ensures View() == Apply(plan, World(outside.durable, None, outside.prompts), Load)
    {
      this.plan, this.outside := plan, outside;
      journal, storageFailed, stopped, stage := outside.durable, false, false, Idle;
    }

    /** `persist`: the new journal is kept in memory only when storage took it. */
    method Persist(next: seq<Entry>, save: Save) returns (ok: bool)
      modifies this`journal, this`storageFailed, outside`durable
      ensures var w := old(View());
              var (w', s', done) := WalletRuns.Persist(w, w.session.value, next, save);
              ok == done && View() == w'.(session := Some(s'))
    {
      ok := save.Saved?;
      if !save.ThrewBeforeWriting? { outside.durable := next; }
      if ok { journal := next; } else { storageFailed := true; }
    }

    method SpentGas(entries: seq<Entry>) returns (spent: nat)
      ensures spent == Spent(entries)
    {
      spent := 0;
      for i := 0 to |entries|
        invariant spent == Spent(entries[..i])
      {
        assert entries[..i + 1][..i] == entries[..i];
        if entries[i].state == Confirmed { spent := spent + Cost(entries[i]); }
      }
      assert entries[..|entries|] == entries;
    }

    /** `reconcile`, inside a call or as a call of its own. */
    method Reconcile(input: Step) returns (ok: bool)
      requires Valid() && input.ReconcileTurn? && Reconciling(stage)
      modifies this, outside`durable
      ensures Valid() && View() == Apply(plan, old(View()), input)
      ensures !ok ==> stage == Idle
      ensures ok ==> stage == Continue(old(stage), journal)
    {
      StepKeeps(plan, View(), input);
      hide Inv;
      if !input.reached {
        stage, ok := Idle, false;
        return;
      }
      var after := ReconcileLoop(plan, journal, input.answers);
      if after.Err? {
        stage, ok := Idle, false;
        return;
      }
      ok := Persist(after.value, input.save);
      var spent := SpentGas(after.value);
      ok := ok && spent <= plan.budget.totalGas;
      stage := if ok then Continue(stage, journal) else Idle;
    }

    /** The turn that records the intent and opens the wallet prompt, without an await in between. */
    method Open(entry: Entry, ready: bool, expired: bool, save: Save) returns (prompted: bool)
      requires Valid() && stage == Ready(entry)
      modifies this, outside
      ensures Valid() && View() == Apply(plan, old(View()), OpenPrompt(ready, expired, save))
      ensures stage == if prompted then Prompted(entry) else Idle
      ensures outside.prompts == if prompted then old(outside.prompts) + [entry.index] else old(outside.prompts)
    {
      StepKeeps(plan, View(), OpenPrompt(ready, expired, save));
      hide Inv;
      prompted := false;
      if ready && !stopped {
        var ok := Persist(journal + [entry], save);
        prompted := ok && !expired;
        if prompted { outside.prompts := outside.prompts + [entry.index]; }
      }
      stage := if prompted then Prompted(entry) else Idle;
    }

    /** The wallet's answer, recorded under the same index. */
    method Record(entry: Entry, returned: Option<Hash>, save: Save) returns (ok: bool)
      requires Valid() && stage == Prompted(entry)
      modifies this, outside`durable
      ensures Valid() && View() == Apply(plan, old(View()), Reply(returned, save))
      ensures stage == if ok then Settling else Idle
      ensures ok <==> save.Saved? && returned.Some?
    {
      StepKeeps(plan, View(), Reply(returned, save));
      var current := journal[entry.index];
      var next := if returned.Some? then current.(state := Submitted, hash := returned) else current.(state := Unknown);
      hide Inv;
      ok := Persist(journal[entry.index := next], save);
      ok := ok && returned.Some?;
      stage := if ok then Settling else Idle;
    }

    /** The checks before the intent, and the entry they lead to. */
    method Estimate(passes: bool, estimate: nat) returns (entry: Option<Entry>)
      requires Valid() && stage == Checking
      modifies this`stage
      ensures Valid() && View() == Apply(plan, old(View()), Check(passes, estimate))
      ensures stage == if entry.Some? then Preflight(entry.value) else Idle
    {
      StepKeeps(plan, View(), Check(passes, estimate));
      hide Inv;
      entry := None;
      if passes && 0 < estimate <= plan.budget.gas { entry := Some(NewEntry(plan, |journal|, estimate)); }
      stage := if entry.Some? then Preflight(entry.value) else Idle;
    }

    method StopSignal()
      requires Valid()
      modifies this`stopped
      ensures Valid() && View() == Apply(plan, old(View()), Stop) && stage == old(stage)
    {
      StepKeeps(plan, View(), Stop);
      stopped := true;
    }

    /** The start of `sendNext`: refused after the stop signal or a failed save. */
    method Begin() returns (ok: bool)
      requires Valid() && stage == Idle
      modifies this`stage
      ensures Valid() && View() == Apply(plan, old(View()), BeginSend)
      ensures ok == (!stopped && !storageFailed) && stage == if ok then Opening else Idle
    {
      StepKeeps(plan, View(), BeginSend);
      hide Inv;
      ok := !stopped && !storageFailed;
      if ok { stage := Opening; }
    }

    /** `sendNext` up to the open prompt. The steps it makes are a ghost result. */
    method PrepareSend(input: SendInput) returns (entry: Option<Entry>, ghost steps: seq<Step>)
      requires Valid() && ValidInput(input) && stage == Idle
      modifies this, outside`durable
      ensures Valid() && View() == RunFrom(plan, old(View()), steps)
      ensures stage == if entry.Some? then Ready(entry.value) else Idle
    {
      hide Inv, Apply, RunFrom, NextIndex;
      ghost var w := View();
      RunFromNothing(plan, w);
      entry, steps := None, [];
      RunFromOne(plan, w, steps, BeginSend);
      var ok := Begin();
      steps := steps + [BeginSend];
      if !ok { return; }
      RunFromOne(plan, w, steps, input.first);
      ok := Reconcile(input.first);
      steps := steps + [input.first];
      if NextIndex(journal) != |journal| || |journal| >= STEPS { ok := false; }
      if !ok { return; }
      RunFromOne(plan, w, steps, Check(input.passes, input.estimate));
      var intent := Estimate(input.passes, input.estimate);
      steps := steps + [Check(input.passes, input.estimate)];
      if intent.None? { return; }
      RunFromOne(plan, w, steps, input.second);
      ok := Reconcile(input.second);
      steps := steps + [input.second];
      if ok && NextIndex(journal) == |journal| == intent.value.index { entry := intent; }
    }

    /**
    `sendNext`: one call is one sequence of steps of a run, and ends idle. If it made an offer and the
    wallet's answer was saved, the entry of that offer holds the answer.
    */
    method SendNext(input: SendInput) returns (ghost steps: seq<Step>)
      requires Valid() && ValidInput(input) && stage == Idle
      modifies this, outside
      ensures Valid() && View() == RunFrom(plan, old(View()), steps) && stage == Idle
      ensures outside.prompts == old(outside.prompts) || (outside.prompts != [] && old(outside.prompts) == outside.prompts[..|outside.prompts| - 1])
      ensures outside.prompts != old(outside.prompts) && input.replySave.Saved? ==>
                Kept(journal, outside.durable, outside.prompts[|outside.prompts| - 1], input.returned, input.last.reached)
    {
      hide Inv, Apply, RunFrom, Kept;
      ghost var w := View();
      var entry;
      entry, steps := PrepareSend(input);
      if entry.None? { return; }
      if input.stops {
        RunFromOne(plan, w, steps, Stop);
        StopSignal();
        steps := steps + [Stop];
      }
      RunFromOne(plan, w, steps, OpenPrompt(input.ready, input.expired, input.intentSave));
      var prompted := Open(entry.value, input.ready, input.expired, input.intentSave);
      steps := steps + [OpenPrompt(input.ready, input.expired, input.intentSave)];
      if !prompted { return; }
      if input.replySave.Saved? { CallKeepsAnswer(plan, View(), input.returned, input.last); }
      RunFromOne(plan, w, steps, Reply(input.returned, input.replySave));
      var ok := Record(entry.value, input.returned, input.replySave);
      steps := steps + [Reply(input.returned, input.replySave)];
      if !ok { return; }
      RunFromOne(plan, w, steps, input.last);
      ok := Reconcile(input.last);
      steps := steps + [input.last];
    }

    /** `recover` before its reconciliation: it only reads the chain and never opens a prompt. */
    method Restore(reached: bool, hash: Hash, answer: Answers, save: Save) returns (ok: bool)
      requires Valid() && stage == Idle
      modifies this, outside
      ensures Valid() && View() == Apply(plan, old(View()), WalletRuns.Recover(reached, hash, answer, save))
      ensures outside.prompts == old(outside.prompts) && stage == if ok then Settling else Idle
    {
      StepKeeps(plan, View(), WalletRuns.Recover(reached, hash, answer, save));
      var index := NextIndex(journal);
      if !reached || index == |journal| { return false; }
      assert ValidEntry(plan, journal[index], index);
      var seen := Observe(plan, journal[index].(hash := Some(hash)), answer);
      if seen.Err? || seen.value.state == Unknown || seen.value.state == Reorged { return false; }
      hide Inv, Observe;
      ok := Persist(journal[index := seen.value], save);
      stage := if ok then Settling else Idle;
    }

    /** `recover`: its steps contain no open prompt. */
    method RecoverCall(reached: bool, hash: Hash, answer: Answers, save: Save, last: Step) returns (ghost steps: seq<Step>)
      requires Valid() && stage == Idle && last.ReconcileTurn?
      modifies this, outside
      ensures Valid() && View() == RunFrom(plan, old(View()), steps) && stage == Idle
      ensures forall i | 0 <= i < |steps| :: !steps[i].OpenPrompt?
    {
      hide Inv, Apply, RunFrom;
      ghost var w := View();
      RunFromNothing(plan, w);
      steps := [];
      var step := WalletRuns.Recover(reached, hash, answer, save);
      RunFromOne(plan, w, steps, step);
      var ok := Restore(reached, hash, answer, save);
      steps := steps + [step];
      if !ok { return; }
      RunFromOne(plan, w, steps, last);
      ok := Reconcile(last);
      steps := steps + [last];
    }
  }

  lemma {:induction false} RunFromNothing(plan: Plan, w: World)
    requires ValidPlan(plan) && Inv(plan, w)
    ensures RunFrom(plan, w, []) == w
  {
  }
}
