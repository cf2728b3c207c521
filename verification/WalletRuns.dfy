/**
Every run of the deployment wallet: crashes, reloads from the durable journal, saves
that throw after or before writing, wallet errors, reorganisations, recoveries and the
stop signal. The session is busy during a call, so within one call only a crash or the
stop signal can come between two awaits.
*/
module WalletRuns {
  import opened Results
  import opened Wallet

  /** Where a call waits. `Idle` is between calls. */
  datatype Stage =
    | Idle
    | Opening
    | Checking
    | Preflight(entry: Entry)
    | Ready(entry: Entry)
    | Prompted(entry: Entry)
    | Settling

  datatype Session = Session(journal: seq<Entry>, storageFailed: bool, stopped: bool, stage: Stage)

  datatype World = World(durable: seq<Entry>, session: Option<Session>, prompts: seq<nat>)

  datatype Save = Saved | ThrewAfterWriting | ThrewBeforeWriting

  datatype Step =
    | Load
    | Crash
    | Stop
    | Arm
    | BeginSend
    | ReconcileTurn(reached: bool, answers: nat -> Answers, save: Save)
    | Check(passes: bool, estimate: nat)
    | OpenPrompt(passes: bool, expired: bool, save: Save)
    | Reply(returned: Option<Hash>, save: Save)
    | Recover(reached: bool, hash: Hash, answer: Answers, save: Save)

  // ------------------------------------------------------------ parts of a call

  /** `nextIndex`: the first entry that is not confirmed, or the length. */
  function NextIndex(entries: seq<Entry>): (i: nat)
    ensures i <= |entries| && (forall j | 0 <= j < i :: entries[j].state == Confirmed)
    ensures i < |entries| ==> entries[i].state != Confirmed
  {
    NextFrom(entries, 0)
  }

  function NextFrom(entries: seq<Entry>, from: nat): (i: nat)
    requires from <= |entries|
    ensures from <= i <= |entries| && (forall j | from <= j < i :: entries[j].state == Confirmed)
    ensures i < |entries| ==> entries[i].state != Confirmed
    decreases |entries| - from
  {
    if from < |entries| && entries[from].state == Confirmed then NextFrom(entries, from + 1) else from
  }

  /** The gas limit of a new entry: the estimate and a fifth, rounded up, within the budget. */
  function GasLimit(estimate: nat, gas: nat): nat {
    var buffered := (estimate * 120 + 99) / 100;
    if buffered > gas then gas else buffered
  }

  function NewEntry(plan: Plan, index: nat, estimate: nat): Entry {
    Entry(index, Intent, GasLimit(estimate, plan.budget.gas), plan.budget.fee, plan.budget.priority, None, None, None, None, None)
  }

  /** `persist`: what storage and memory hold afterwards, and whether the call goes on. */
  function Persist(w: World, s: Session, journal: seq<Entry>, save: Save): (World, Session, bool) {
    match save
    case Saved => (w.(durable := journal), s.(journal := journal), true)
    case ThrewAfterWriting => (w.(durable := journal), s.(storageFailed := true), false)
    case ThrewBeforeWriting => (w, s.(storageFailed := true), false)
  }

  function Put(w: World, s: Session, stage: Stage): World { w.(session := Some(s.(stage := stage))) }

  /** Where a call continues after its reconciliation left this journal. */
  function Continue(stage: Stage, journal: seq<Entry>): Stage {
    var index := NextIndex(journal);
    match stage
    case Opening => if index == |journal| < STEPS then Checking else Idle
    case Preflight(e) => if index == |journal| == e.index then Ready(e) else Idle
    case _ => Idle
  }

  predicate Reconciling(stage: Stage) { stage.Idle? || stage.Opening? || stage.Preflight? || stage.Settling? }

  function ReconcileStep(plan: Plan, w: World, s: Session, step: Step): World
    requires |plan.actions| == STEPS && ValidJournal(plan, s.journal) && step.ReconcileTurn?
  {
    var after := Reconcile(plan, s.journal, step.answers, 0);
    if !step.reached || after.Err? then Put(w, s, Idle)
    else
      var (w', s', ok) := Persist(w, s, after.value, step.save);
      if !ok || Spent(after.value) > plan.budget.totalGas then Put(w', s', Idle)
      else Put(w', s', Continue(s.stage, s'.journal))
  }

  function OpenStep(w: World, s: Session, step: Step): World
    requires s.stage.Ready? && step.OpenPrompt?
  {
    var e := s.stage.entry;
    if !step.passes || s.stopped then Put(w, s, Idle)
    else
      var (w', s', ok) := Persist(w, s, s.journal + [e], step.save);
      if !ok || step.expired then Put(w', s', Idle)
      else Put(w'.(prompts := w.prompts + [e.index]), s', Prompted(e))
  }

  function ReplyStep(w: World, s: Session, step: Step): World
    requires s.stage.Prompted? && s.stage.entry.index < |s.journal| && step.Reply?
  {
    var i := s.stage.entry.index;
    var e := s.journal[i];
    var next := if step.returned.Some? then e.(state := Submitted, hash := step.returned) else e.(state := Unknown);
    var (w', s', ok) := Persist(w, s, s.journal[i := next], step.save);
    Put(w', s', if ok && step.returned.Some? then Settling else Idle)
  }

  function RecoverStep(plan: Plan, w: World, s: Session, step: Step): World
    requires |plan.actions| == STEPS && ValidJournal(plan, s.journal) && step.Recover?
  {
    var i := NextIndex(s.journal);
    if !step.reached || i == |s.journal| then w
    else
      assert ValidEntry(plan, s.journal[i], i);
      var seen := Observe(plan, s.journal[i].(hash := Some(step.hash)), step.answer);
      if seen.Err? || seen.value.state == Unknown || seen.value.state == Reorged then w
      else
        var (w', s', ok) := Persist(w, s, s.journal[i := seen.value], step.save);
        Put(w', s', if ok then Settling else Idle)
  }

  predicate Enabled(w: World, step: Step) {
    match step
    case Load => w.session.None?
    case _ =>
      && w.session.Some?
      && var stage := w.session.value.stage;
         match step
         case Arm => stage.Idle?
         case BeginSend => stage.Idle?
         case ReconcileTurn(_, _, _) => Reconciling(stage)
         case Check(_, _) => stage.Checking?
         case OpenPrompt(_, _, _) => stage.Ready?
         case Reply(_, _) => stage.Prompted?
         case Recover(_, _, _, _) => stage.Idle?
         case _ => true
  }

  function Apply(plan: Plan, w: World, step: Step): World
    requires ValidPlan(plan) && Inv(plan, w) && Enabled(w, step)
  {
    if step.Load? then w.(session := Some(Session(w.durable, false, false, Idle)))
    else
      var s := w.session.value;
      match step
      case Crash => w.(session := None)
      case Stop => w.(session := Some(s.(stopped := true)))
      case Arm => w.(session := Some(s.(stopped := false)))
      case BeginSend => if s.stopped || s.storageFailed then w else Put(w, s, Opening)
      case ReconcileTurn(_, _, _) => ReconcileStep(plan, w, s, step)
      case Check(passes, estimate) =>
        if passes && 0 < estimate <= plan.budget.gas then Put(w, s, Preflight(NewEntry(plan, |s.journal|, estimate))) else Put(w, s, Idle)
      case OpenPrompt(_, _, _) => OpenStep(w, s, step)
      case Reply(_, _) => ReplyStep(w, s, step)
      case Recover(_, _, _, _) => RecoverStep(plan, w, s, step)
  }

  // ------------------------------------------------------------ the invariant

  predicate Ascending(prompts: seq<nat>) { forall i, j | 0 <= i < j < |prompts| :: prompts[i] < prompts[j] }

  predicate Below(prompts: seq<nat>, n: nat) { forall i | 0 <= i < |prompts| :: prompts[i] < n }

  /** The new entry fits at the end of the journal. */
  predicate Fits(plan: Plan, journal: seq<Entry>, e: Entry) {
    |journal| < STEPS && ValidEntry(plan, e, |journal|) && e.state == Intent && e.hash.None?
  }

  predicate StageFits(plan: Plan, s: Session) {
    match s.stage
    case Checking => |s.journal| < STEPS && AllConfirmed(s.journal)
    case Preflight(e) => Fits(plan, s.journal, e)
    case Ready(e) => Fits(plan, s.journal, e) && AllConfirmed(s.journal)
    case Prompted(e) =>
      && |s.journal| == e.index + 1 && s.journal[e.index] == e && e.state == Intent && e.hash.None?
      && AllConfirmed(s.journal[..e.index])
    case _ => true
  }

  /** Every index ever offered to the wallet is in the durable journal and in memory. */
  predicate Inv(plan: Plan, w: World) {
    && ValidJournal(plan, w.durable) && Ascending(w.prompts) && Below(w.prompts, |w.durable|)
    && (w.session.Some? ==>
          var s := w.session.value;
          ValidJournal(plan, s.journal) && Below(w.prompts, |s.journal|) && StageFits(plan, s))
  }

  lemma PersistKeeps(plan: Plan, w: World, s: Session, journal: seq<Entry>, save: Save)
    requires Inv(plan, w) && w.session == Some(s) && ValidJournal(plan, journal) && |s.journal| <= |journal|
    ensures var (w', s', ok) := Persist(w, s, journal, save);
            && ValidJournal(plan, w'.durable) && Below(w.prompts, |w'.durable|) && w'.prompts == w.prompts
            && ValidJournal(plan, s'.journal) && Below(w.prompts, |s'.journal|) && s'.stopped == s.stopped
            && (ok ==> s'.journal == journal == w'.durable)
  {
  }

  lemma ReconcileStepKeeps(plan: Plan, w: World, step: Step)
    requires ValidPlan(plan) && Inv(plan, w) && step.ReconcileTurn? && Enabled(w, step)
    ensures Inv(plan, Apply(plan, w, step))
  {
    var s := w.session.value;
    var after := Reconcile(plan, s.journal, step.answers, 0);
    if step.reached && after.Ok? {
      ReconcileKeepsJournal(plan, s.journal, step.answers);
      PersistKeeps(plan, w, s, after.value, step.save);
    }
  }

  lemma OpenStepKeeps(plan: Plan, w: World, step: Step)
    requires ValidPlan(plan) && Inv(plan, w) && step.OpenPrompt? && Enabled(w, step)
    ensures Inv(plan, Apply(plan, w, step))
  {
    var s := w.session.value;
    PersistKeeps(plan, w, s, s.journal + [s.stage.entry], step.save);
  }

  lemma ReplyStepKeeps(plan: Plan, w: World, step: Step)
    requires ValidPlan(plan) && Inv(plan, w) && step.Reply? && Enabled(w, step)
    ensures Inv(plan, Apply(plan, w, step))
  {
    var s := w.session.value;
    var i := s.stage.entry.index;
    var e := s.journal[i];
    assert ValidEntry(plan, e, i);
    var next := if step.returned.Some? then e.(state := Submitted, hash := step.returned) else e.(state := Unknown);
    PersistKeeps(plan, w, s, s.journal[i := next], step.save);
  }

  lemma RecoverStepKeeps(plan: Plan, w: World, step: Step)
    requires ValidPlan(plan) && Inv(plan, w) && step.Recover? && Enabled(w, step)
    ensures Inv(plan, Apply(plan, w, step))
  {
    var s := w.session.value;
    var i := NextIndex(s.journal);
    if i < |s.journal| {
      assert ValidEntry(plan, s.journal[i], i);
      var claimed := s.journal[i].(hash := Some(step.hash));
      var seen := Observe(plan, claimed, step.answer);
      if seen.Ok? {
        ObserveKeepsEntry(plan, claimed, step.answer);
        PersistKeeps(plan, w, s, s.journal[i := seen.value], step.save);
      }
    }
  }

  /** The limit covers the estimate with a fifth on top, unless the budget caps it. */
  lemma GasLimitCovers(estimate: nat, gas: nat)
    requires estimate <= gas
    ensures estimate <= GasLimit(estimate, gas) <= gas
    ensures GasLimit(estimate, gas) == gas || (estimate * 120 <= GasLimit(estimate, gas) * 100 < estimate * 120 + 100)
  {
  }

  lemma NewEntryFits(plan: Plan, journal: seq<Entry>, estimate: nat)
    requires ValidPlan(plan) && |journal| < STEPS && 0 < estimate <= plan.budget.gas
    ensures Fits(plan, journal, NewEntry(plan, |journal|, estimate))
  {
  }

  lemma StepKeeps(plan: Plan, w: World, step: Step)
    requires ValidPlan(plan) && Inv(plan, w) && Enabled(w, step)
    ensures Inv(plan, Apply(plan, w, step))
  {
    match step
    case ReconcileTurn(_, _, _) => ReconcileStepKeeps(plan, w, step);
    case OpenPrompt(_, _, _) => OpenStepKeeps(plan, w, step);
    case Reply(_, _) => ReplyStepKeeps(plan, w, step);
    case Recover(_, _, _, _) => RecoverStepKeeps(plan, w, step);
    case Check(_, estimate) => if 0 < estimate <= plan.budget.gas { NewEntryFits(plan, w.session.value.journal, estimate); }
    case _ =>
  }

  // ------------------------------------------------------------ runs

  const Start := World([], None, [])

  /** The world after any sequence of steps; a step that cannot happen then changes nothing. */
  ghost function Run(plan: Plan, steps: seq<Step>): (w: World)
    requires ValidPlan(plan)
    ensures Inv(plan, w)
  {
    if steps == [] then Start
    else
      var before, step := Run(plan, steps[..|steps| - 1]), steps[|steps| - 1];
      if Enabled(before, step) then
        StepKeeps(plan, before, step);
        Apply(plan, before, step)
      else before
  }

  lemma {:induction false} RunOn(plan: Plan, steps: seq<Step>, k: nat)
    requires ValidPlan(plan) && k < |steps|
    ensures var before := Run(plan, steps[..k]);
            Run(plan, steps[..k + 1]) == if Enabled(before, steps[k]) then Apply(plan, before, steps[k]) else before
  {
    assert steps[..k + 1][..k] == steps[..k];
  }

  lemma {:induction false} AscendingCount(prompts: seq<nat>, n: nat)
    requires Ascending(prompts) && Below(prompts, n)
    ensures |prompts| <= n
  {
    if prompts != [] {
      var last := |prompts| - 1;
      AscendingCount(prompts[..last], prompts[last]);
    }
  }

  /** In every run each index is offered to the wallet at most once, in order, and there are at most 41 offers. */
  lemma {:induction false} NoIndexPromptedTwice(plan: Plan, steps: seq<Step>)
    requires ValidPlan(plan)
    ensures var prompts := Run(plan, steps).prompts;
            |prompts| <= STEPS && forall i, j | 0 <= i < |prompts| && 0 <= j < |prompts| && prompts[i] == prompts[j] :: i == j
  {
    var w := Run(plan, steps);
    AscendingCount(w.prompts, |w.durable|);
  }

  lemma ProvedByClaim(plan: Plan, e: Entry, f: Entry, a: Answers)
    requires e.index < |plan.actions| && SameClaim(e, f) && Proved(plan, e, a)
    ensures Proved(plan, f, a)
  {
  }

  /** The reconciliation that lets a call go on to its prompt has proved every entry with its own answers. */
  lemma ReadyIsProved(plan: Plan, w: World, step: Step, i: nat)
    requires ValidPlan(plan) && Inv(plan, w) && step.ReconcileTurn? && Enabled(w, step)
    requires Apply(plan, w, step).session.value.stage.Ready? && i < |Apply(plan, w, step).session.value.journal|
    ensures ProvedEntry(plan, Apply(plan, w, step).session.value.journal[i], step.answers(i))
  {
    hide Observe, Proved;
    var saved, journal := w.session.value.journal, Apply(plan, w, step).session.value.journal;
    assert Reconcile(plan, saved, step.answers, 0) == Ok(journal);
    var k := Reconciled(plan, saved, step.answers);
    ReconcileKeepsJournal(plan, saved, step.answers);
    hide Reconcile, Apply;
    assert ValidEntry(plan, journal[i], i);
    assert journal[i].state == Confirmed && i < k;
    assert ProvedAt(plan, saved, step.answers, journal, i);
    ProvedByClaim(plan, saved[i], journal[i], step.answers(i));
  }

  predicate ReadyToPrompt(w: World) { w.session.Some? && w.session.value.stage.Ready? && !w.session.value.stopped }

  /** Only a reconciliation makes a call ready to prompt. */
  lemma ReadyOnlyByReconcile(plan: Plan, w: World, step: Step)
    requires ValidPlan(plan) && Inv(plan, w) && Enabled(w, step) && ReadyToPrompt(Apply(plan, w, step))
    ensures step.ReconcileTurn?
  {
  }

  predicate ProvedBy(plan: Plan, w: World, step: Step)
    requires |plan.actions| == STEPS && w.session.Some? && step.ReconcileTurn?
  {
    var journal := w.session.value.journal;
    forall i | 0 <= i < |journal| :: ProvedEntry(plan, journal[i], step.answers(i))
  }

  lemma ReconcileProves(plan: Plan, w: World, step: Step)
    requires ValidPlan(plan) && Inv(plan, w) && Enabled(w, step) && ReadyToPrompt(Apply(plan, w, step))
    ensures step.ReconcileTurn? && ProvedBy(plan, Apply(plan, w, step), step)
  {
    ReadyOnlyByReconcile(plan, w, step);
    hide Apply, Inv, Enabled, ProvedEntry;
    forall i | 0 <= i < |Apply(plan, w, step).session.value.journal|
      ensures ProvedEntry(plan, Apply(plan, w, step).session.value.journal[i], step.answers(i))
    {
      ReadyIsProved(plan, w, step, i);
    }
  }

  /** The step of the run that proved the journal of a call ready to prompt; nothing has changed since. */
  lemma {:induction false} LastReconcile(plan: Plan, steps: seq<Step>, k: nat) returns (j: nat)
    requires ValidPlan(plan) && k <= |steps| && ReadyToPrompt(Run(plan, steps[..k]))
    ensures j < k && steps[j].ReconcileTurn? && Enabled(Run(plan, steps[..j]), steps[j])
    ensures Run(plan, steps[..j + 1]) == Run(plan, steps[..k])
    ensures ProvedBy(plan, Run(plan, steps[..k]), steps[j])
    decreases k
  {
    hide Apply, Inv, Enabled, ProvedBy;
    assert 0 < k by { assert Run(plan, []) == Start; }
    hide Run;
    RunOn(plan, steps, k - 1);
    var w := Run(plan, steps[..k - 1]);
    if Enabled(w, steps[k - 1]) {
      j := k - 1;
      ReconcileProves(plan, w, steps[j]);
    } else {
      j := LastReconcile(plan, steps, k - 1);
    }
  }

  /** Only the open-prompt turn changes the list of offers. */
  lemma OnlyOpenPrompts(plan: Plan, w: World, step: Step)
    requires ValidPlan(plan) && Inv(plan, w) && Enabled(w, step) && Apply(plan, w, step).prompts != w.prompts
    ensures step.OpenPrompt? && step.passes && w.session.Some? && w.session.value.stage.Ready? && !w.session.value.stopped
    ensures var n := |w.session.value.journal|;
            && Apply(plan, w, step).prompts == w.prompts + [n]
            && Apply(plan, w, step).durable == w.session.value.journal + [w.session.value.stage.entry]
  {
  }

  /**
  An index is offered only when a reconciliation of the same call, step `j` of the run, proved
  every earlier entry with the answers the chain gave in it, nothing has changed since, the
  intent is already durable, and the stop signal has not been given.
  */
  lemma PromptNeedsProof(plan: Plan, steps: seq<Step>, k: nat) returns (j: nat)
    requires ValidPlan(plan) && k < |steps| && Run(plan, steps[..k + 1]).prompts != Run(plan, steps[..k]).prompts
    ensures var w, after := Run(plan, steps[..k]), Run(plan, steps[..k + 1]);
            && w.session.Some? && !w.session.value.stopped
            && var journal := w.session.value.journal;
               && after.prompts == w.prompts + [|journal|]
               && |after.durable| == |journal| + 1 && after.durable[..|journal|] == journal
               && after.durable[|journal|].state == Intent && after.durable[|journal|].index == |journal|
    ensures j < k && steps[j].ReconcileTurn? && Enabled(Run(plan, steps[..j]), steps[j])
    ensures Run(plan, steps[..j + 1]) == Run(plan, steps[..k])
    ensures forall i | 0 <= i < |Run(plan, steps[..k]).session.value.journal| ::
              ProvedEntry(plan, Run(plan, steps[..k]).session.value.journal[i], steps[j].answers(i))
  {
    RunOn(plan, steps, k);
    OnlyOpenPrompts(plan, Run(plan, steps[..k]), steps[k]);
    j := LastReconcile(plan, steps, k);
  }

  predicate Halted(w: World) { w.session.Some? ==> w.session.value.stopped }

  lemma HaltedStays(plan: Plan, w: World, step: Step)
    requires ValidPlan(plan) && Inv(plan, w) && Enabled(w, step) && Halted(w) && !step.Load? && !step.Arm?
    ensures Halted(Apply(plan, w, step)) && Apply(plan, w, step).prompts == w.prompts
  {
  }

  lemma StopHalts(plan: Plan, w: World)
    requires ValidPlan(plan) && Inv(plan, w) && w.session.Some?
    ensures Enabled(w, Stop) && Halted(Apply(plan, w, Stop)) && Apply(plan, w, Stop).prompts == w.prompts
  {
  }

  /** After the stop signal nothing is offered until a new run is started. */
  lemma {:induction false} NoPromptAfterStop(plan: Plan, steps: seq<Step>, stop: nat, k: nat)
    requires ValidPlan(plan) && stop < k <= |steps| && steps[stop] == Stop && Run(plan, steps[..stop]).session.Some?
    requires forall j | stop < j < k :: !steps[j].Load? && !steps[j].Arm?
    ensures Halted(Run(plan, steps[..k])) && Run(plan, steps[..k]).prompts == Run(plan, steps[..stop]).prompts
    decreases k
  {
    hide Apply, Run, Inv, Enabled;
    RunOn(plan, steps, k - 1);
    if stop == k - 1 {
      StopHalts(plan, Run(plan, steps[..stop]));
    } else {
      NoPromptAfterStop(plan, steps, stop, k - 1);
      var w := Run(plan, steps[..k - 1]);
      if Enabled(w, steps[k - 1]) { HaltedStays(plan, w, steps[k - 1]); }
    }
  }

  // ------------------------------------------------------------ the sequence runner

  datatype Decision = Complete | Wait(hash: Hash) | Send | NeedsRecovery

  /** What one turn of the sequence loop does with the session's journal. */
  function Decide(journal: seq<Entry>): Decision {
    var index := NextIndex(journal);
    if index == STEPS then if |journal| == STEPS then Complete else NeedsRecovery
    else if index < |journal| then
      var e := journal[index];
      if (e.state == Submitted || e.state == Included) && e.hash.Some? then Wait(e.hash.value) else NeedsRecovery
    else Send
  }

  /** The runner completes exactly when receipts can be exported, and sends exactly when a prompt may follow. */
  lemma DecisionIsRight(plan: Plan, journal: seq<Entry>)
    requires ValidJournal(plan, journal)
    ensures Decide(journal) == Complete <==> Receipts(journal).Ok?
    ensures Decide(journal) == Send <==> AllConfirmed(journal) && |journal| < STEPS
    ensures var i := NextIndex(journal);
            && (forall h :: Decide(journal) == Wait(h) <==>
                  i < |journal| && journal[i].hash == Some(h) && (journal[i].state == Submitted || journal[i].state == Included))
            && (Decide(journal) == NeedsRecovery <==>
                  i < |journal| && !(journal[i].hash.Some? && (journal[i].state == Submitted || journal[i].state == Included)))
  {
    assert forall i | 0 <= i < |journal| :: ValidEntry(plan, journal[i], i);
  }
}
