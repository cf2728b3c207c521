/** What the wallet answers to an offer, and what becomes of it along a run. */
module WalletReplies {
  import opened Results
  import opened Wallet
  import opened WalletRuns

  /** The journal with what the wallet answered for its last entry. */
  function Answered(journal: seq<Entry>, returned: Option<Hash>): seq<Entry>
    requires journal != []
  {
    var last := journal[|journal| - 1];
    journal[|journal| - 1 := if returned.Some? then last.(state := Submitted, hash := returned) else last.(state := Unknown)]
  }

  lemma OpenPromptJournal(plan: Plan, w: World)
    requires Inv(plan, w) && w.session.Some? && w.session.value.stage.Prompted?
    ensures var s := w.session.value;
            var i := s.stage.entry.index;
            && |s.journal| == i + 1 && s.journal[i].state == Intent && s.journal[i].index == i && s.journal[i].hash.None?
            && AllConfirmed(s.journal[..i])
  {
    assert ValidEntry(plan, w.session.value.journal[w.session.value.stage.entry.index], w.session.value.stage.entry.index);
  }

  lemma NextOf(journal: seq<Entry>, i: nat)
    requires i < |journal| && AllConfirmed(journal[..i]) && journal[i].state != Confirmed
    ensures NextIndex(journal) == i
  {
    assert forall j | 0 <= j < i :: journal[..i][j] == journal[j];
  }

  /** A hash is waited for; without one the operator must recover. */
  lemma AnswerDecides(journal: seq<Entry>, returned: Option<Hash>)
    requires journal != [] && |journal| <= STEPS && AllConfirmed(journal[..|journal| - 1])
    ensures Decide(Answered(journal, returned)) == if returned.Some? then Wait(returned.value) else NeedsRecovery
  {
    var next := Answered(journal, returned);
    assert next[..|next| - 1] == journal[..|journal| - 1];
    hide NextIndex;
    NextOf(next, |next| - 1);
  }

  lemma ReplyEffect(plan: Plan, w: World, step: Step)
    requires ValidPlan(plan) && Inv(plan, w) && step.Reply? && Enabled(w, step)
    ensures var journal := w.session.value.journal;
            var after := Apply(plan, w, step);
            && journal != [] && after.prompts == w.prompts && after.session.Some? && !after.session.value.stage.Prompted?
            && after.durable == (if step.save.ThrewBeforeWriting? then w.durable else Answered(journal, step.returned))
            && after.session.value.journal == (if step.save.Saved? then Answered(journal, step.returned) else journal)
  {
  }

  /**
  The wallet's answer to the offer of index `i` goes to entry `i` alone: a hash makes it SUBMITTED
  under that hash and the runner waits for it, anything else makes it UNKNOWN and asks for recovery.
  */
  lemma ReplyIsRecorded(plan: Plan, w: World, step: Step)
    requires ValidPlan(plan) && Inv(plan, w) && step.Reply? && Enabled(w, step)
    ensures var journal := w.session.value.journal;
            var i := w.session.value.stage.entry.index;
            var after := Apply(plan, w, step);
            && |journal| == i + 1 && journal[i].state == Intent && journal[i].index == i && journal[i].hash.None?
            && after.prompts == w.prompts && after.session.Some?
            && after.durable == (if step.save.ThrewBeforeWriting? then w.durable else Answered(journal, step.returned))
            && after.session.value.journal == (if step.save.Saved? then Answered(journal, step.returned) else journal)
            && (step.save.Saved? ==>
                  Decide(after.session.value.journal) ==
                  if step.returned.Some? then Wait(step.returned.value) else NeedsRecovery)
  {
    OpenPromptJournal(plan, w);
    ReplyEffect(plan, w, step);
    hide Apply, Answered, Decide;
    AnswerDecides(w.session.value.journal, step.returned);
  }

  /** What a finished call has made of the wallet's answer to the offer of `i`, if it was saved. */
  predicate Kept(journal: seq<Entry>, durable: seq<Entry>, i: nat, returned: Option<Hash>, reached: bool) {
    && |journal| == i + 1 && i < |durable|
    && match returned
       case Some(h) =>
         && journal[i].hash == durable[i].hash == Some(h)
         && (!reached ==> journal == durable && journal[i].state == Submitted && Decide(journal) == Wait(h))
       case None => journal == durable && journal[i].state == Unknown && journal[i].hash.None? && Decide(journal) == NeedsRecovery
  }

  /** The saved answer, and the reconciliation that follows a hash. */
  lemma CallKeepsAnswer(plan: Plan, w: World, returned: Option<Hash>, last: Step)
    requires ValidPlan(plan) && Inv(plan, w) && Enabled(w, Reply(returned, Saved)) && last.ReconcileTurn?
    ensures var i := w.session.value.stage.entry.index;
            var b := Apply(plan, w, Reply(returned, Saved));
            && Inv(plan, b) && b.session.Some?
            && (returned.None? ==> Kept(b.session.value.journal, b.durable, i, None, last.reached))
            && (returned.Some? && Enabled(b, last) ==>
                  var d := Apply(plan, b, last);
                  d.session.Some? && Kept(d.session.value.journal, d.durable, i, returned, last.reached))
  {
    var i, b := w.session.value.stage.entry.index, Apply(plan, w, Reply(returned, Saved));
    ReplyIsRecorded(plan, w, Reply(returned, Saved));
    ReplyEffect(plan, w, Reply(returned, Saved));
    StepKeeps(plan, w, Reply(returned, Saved));
    if returned.Some? && Enabled(b, last) {
      hide Apply, Reconcile, Inv, Decide;
      HashKeptByReconcile(plan, b, last, i, returned.value);
      ReconcileEffect(plan, b, last);
      LengthKept(plan, b, last);
    }
  }

  lemma LengthKept(plan: Plan, w: World, step: Step)
    requires ValidPlan(plan) && Inv(plan, w) && Enabled(w, step) && step.ReconcileTurn?
    ensures Apply(plan, w, step).session.Some? && |Apply(plan, w, step).session.value.journal| == |w.session.value.journal|
  {
    var s := w.session.value;
    ReconcileEffect(plan, w, step);
    hide Apply, Reconcile;
    if Reconcile(plan, s.journal, step.answers, 0).Ok? { ReconcileKeepsJournal(plan, s.journal, step.answers); }
  }

  /**
  A recovery of the first unconfirmed entry puts the hash it was given there, with what the chain says of
  it, exactly when the chain knows the plan's transaction under it; otherwise nothing changes.
  */
  lemma RecoveryIsRecorded(plan: Plan, w: World, step: Step)
    requires ValidPlan(plan) && Inv(plan, w) && step.Recover? && Enabled(w, step)
    ensures var journal, after := w.session.value.journal, Apply(plan, w, step);
            var i := NextIndex(journal);
            if !step.reached || i == |journal| then after == w
            else
              && journal[i].index == i
              && var seen := Observe(plan, journal[i].(hash := Some(step.hash)), step.answer);
                 if seen.Err? || seen.value.state == Unknown || seen.value.state == Reorged then after == w
                 else
                   && seen.value.hash == Some(step.hash) && after.prompts == w.prompts && after.session.Some?
                   && after.durable == (if step.save.ThrewBeforeWriting? then w.durable else journal[i := seen.value])
                   && after.session.value.journal == (if step.save.Saved? then journal[i := seen.value] else journal)
  {
    var journal := w.session.value.journal;
    var i := NextIndex(journal);
    if i < |journal| {
      assert ValidEntry(plan, journal[i], i);
      var claimed := journal[i].(hash := Some(step.hash));
      if Observe(plan, claimed, step.answer).Ok? { ObserveKeepsEntry(plan, claimed, step.answer); }
    }
    hide Observe, NextIndex;
  }

  // ------------------------------------------------------------ along a run

  /** Entry `i` is kept under hash `h` wherever the journal is, and no prompt for it is open. */
  predicate Keeps(w: World, i: nat, h: Hash) {
    && i < |w.durable| && w.durable[i].hash == Some(h)
    && (w.session.Some? ==> Holds(w.session.value, i, h))
  }

  predicate Holds(s: Session, i: nat, h: Hash) {
    i < |s.journal| && s.journal[i].hash == Some(h) && (s.stage.Prompted? ==> i < s.stage.entry.index)
  }

  /** The step is a recovery of entry `i`. */
  predicate Recovers(w: World, step: Step, i: nat) {
    step.Recover? && w.session.Some? && NextIndex(w.session.value.journal) == i
  }

  lemma HashKeptByReconcile(plan: Plan, w: World, step: Step, i: nat, h: Hash)
    requires ValidPlan(plan) && Inv(plan, w) && Enabled(w, step) && Keeps(w, i, h) && step.ReconcileTurn?
    ensures Keeps(Apply(plan, w, step), i, h)
  {
    var s := w.session.value;
    ReconcileEffect(plan, w, step);
    hide Apply, Reconcile;
    if Reconcile(plan, s.journal, step.answers, 0).Ok? { ReconcileKeepsHash(plan, s.journal, step.answers, i); }
  }

  lemma {:induction false} ReconcileEffect(plan: Plan, w: World, step: Step)
    requires ValidPlan(plan) && Inv(plan, w) && Enabled(w, step) && step.ReconcileTurn?
    ensures var seen := Reconcile(plan, w.session.value.journal, step.answers, 0);
            var after := Apply(plan, w, step);
            && after.session.Some? && !after.session.value.stage.Prompted?
            && (!step.reached ==> after.durable == w.durable && after.session.value.journal == w.session.value.journal)
            && (after.durable == w.durable || (seen.Ok? && after.durable == seen.value))
            && (after.session.value.journal == w.session.value.journal || (seen.Ok? && after.session.value.journal == seen.value))
  {
    hide Reconcile, NextIndex, Spent, ValidEntry;
  }

  lemma {:induction false} ReconcileKeepsHash(plan: Plan, saved: seq<Entry>, answers: nat -> Answers, i: nat)
    requires |plan.actions| == STEPS && ValidJournal(plan, saved) && i < |saved| && Reconcile(plan, saved, answers, 0).Ok?
    ensures var after := Reconcile(plan, saved, answers, 0).value; i < |after| && after[i].hash == saved[i].hash
  {
    ReconcileKeepsJournal(plan, saved, answers);
    var after := Reconcile(plan, saved, answers, 0).value;
    assert SameClaim(saved[i], after[i]);
  }

  lemma HashKeptByOpen(plan: Plan, w: World, step: Step, i: nat, h: Hash)
    requires ValidPlan(plan) && Inv(plan, w) && Enabled(w, step) && Keeps(w, i, h) && step.OpenPrompt?
    ensures Keeps(Apply(plan, w, step), i, h)
  {
    var s := w.session.value;
    assert (s.journal + [s.stage.entry])[i] == s.journal[i];
  }

  lemma HashKeptByReply(plan: Plan, w: World, step: Step, i: nat, h: Hash)
    requires ValidPlan(plan) && Inv(plan, w) && Enabled(w, step) && Keeps(w, i, h) && step.Reply?
    ensures Keeps(Apply(plan, w, step), i, h)
  {
    OpenPromptJournal(plan, w);
    ReplyEffect(plan, w, step);
    hide Apply;
  }

  lemma HashKeptByRecover(plan: Plan, w: World, step: Step, i: nat, h: Hash)
    requires ValidPlan(plan) && Inv(plan, w) && Enabled(w, step) && Keeps(w, i, h) && step.Recover? && !Recovers(w, step, i)
    ensures Keeps(Apply(plan, w, step), i, h)
  {
    hide Observe, NextIndex;
  }

  lemma HashKept(plan: Plan, w: World, step: Step, i: nat, h: Hash)
    requires ValidPlan(plan) && Inv(plan, w) && Enabled(w, step) && Keeps(w, i, h) && !Recovers(w, step, i)
    ensures Keeps(Apply(plan, w, step), i, h)
  {
    match step
    case ReconcileTurn(_, _, _) => HashKeptByReconcile(plan, w, step, i, h);
    case OpenPrompt(_, _, _) => HashKeptByOpen(plan, w, step, i, h);
    case Reply(_, _) => HashKeptByReply(plan, w, step, i, h);
    case Recover(_, _, _, _) => HashKeptByRecover(plan, w, step, i, h);
    case _ =>
  }

  ghost predicate NotRecovered(plan: Plan, steps: seq<Step>, from: nat, k: nat, i: nat)
    requires ValidPlan(plan) && k <= |steps|
  {
    forall j | from <= j < k :: !Recovers(Run(plan, steps[..j]), steps[j], i)
  }

  lemma {:induction false} HashStays(plan: Plan, steps: seq<Step>, from: nat, k: nat, i: nat, h: Hash)
    requires ValidPlan(plan) && from <= k <= |steps| && Keeps(Run(plan, steps[..from]), i, h)
    requires NotRecovered(plan, steps, from, k, i)
    ensures Keeps(Run(plan, steps[..k]), i, h)
    decreases k
  {
    hide Apply, Run, Inv, Enabled, Keeps, Recovers;
    if from < k {
      HashStays(plan, steps, from, k - 1, i, h);
      RunOn(plan, steps, k - 1);
      var w := Run(plan, steps[..k - 1]);
      if Enabled(w, steps[k - 1]) { HashKept(plan, w, steps[k - 1], i, h); }
    }
  }

  /** In a run, the wallet answered the offer of index `i` with hash `h`, and the answer was saved. */
  ghost predicate Returned(plan: Plan, steps: seq<Step>, at: nat, i: nat, h: Hash)
    requires ValidPlan(plan) && at < |steps|
  {
    && steps[at] == Reply(Some(h), Saved) && Enabled(Run(plan, steps[..at]), steps[at])
    && Run(plan, steps[..at]).session.value.stage.entry.index == i
  }

  lemma {:induction false} KeptFromReply(plan: Plan, steps: seq<Step>, at: nat, i: nat, h: Hash)
    requires ValidPlan(plan) && at < |steps| && Returned(plan, steps, at, i, h)
    ensures Keeps(Run(plan, steps[..at + 1]), i, h)
  {
    RunOn(plan, steps, at);
    OpenPromptJournal(plan, Run(plan, steps[..at]));
    ReplyEffect(plan, Run(plan, steps[..at]), steps[at]);
    hide Apply, Run;
  }

  /**
  A hash that the wallet returned and that was saved stays with its index, in storage and in memory,
  through crashes, reloads and reconciliations, until a recovery of that index; whenever the runner
  waits for the entry it waits for this hash.
  */
  lemma {:induction false} ReturnedHashStays(plan: Plan, steps: seq<Step>, at: nat, k: nat, i: nat, h: Hash)
    requires ValidPlan(plan) && at < k <= |steps| && Returned(plan, steps, at, i, h) && NotRecovered(plan, steps, at + 1, k, i)
    ensures var w := Run(plan, steps[..k]);
            && i < |w.durable| && w.durable[i].hash == Some(h)
            && (w.session.Some? ==>
                  var journal := w.session.value.journal;
                  && i < |journal| && journal[i].hash == Some(h)
                  && (NextIndex(journal) == i && Decide(journal).Wait? ==> Decide(journal) == Wait(h)))
  {
    hide Run, Returned, NotRecovered, NextIndex;
    KeptFromReply(plan, steps, at, i, h);
    HashStays(plan, steps, at + 1, k, i, h);
  }
}
