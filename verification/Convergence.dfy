/**
 Once pushes and spec edits stop and no fallback schedule is set, alternating reconciles with
 Job completions reaches, within five rounds, a state that Reconcile leaves as it is: the
 generation observed, nothing pending, the last Job reflected.
 */
module Convergence {
  import opened GitMirrorStatus
  import opened Scheduling
  import opened Invariants
  import opened Runs

  /** The work left: three steps for a launch, two for a running Job, one for an unreflected one. */
  function Measure(w: World): nat {
    if Unobserved(w.mirror) then 3
    else
      (if w.mirror.status.pendingResync then 3 else 0)
      + (if !Unsettled(w) then 0 else if JobActive(LastJob(w)) then 2 else 1)
  }

  predicate Quiescent(w: World) {
    !Unsettled(w) && !Unobserved(w.mirror) && !w.mirror.status.pendingResync
  }

  /** A reconcile, after which the Job it finds or leaves running finishes with `phase`. */
  datatype Round = Round(order: seq<JobName>, now: Time, phase: Phase)

  ghost predicate RoundEnabled(w: World, r: Round) {
    IsListing(r.order, w.jobs) && r.now > w.history.clock && r.phase != Running
  }

  function AfterReconcile(w: World, phase: Phase): World {
    if Unsettled(w) && JobActive(LastJob(w)) then FinishJob(w, w.mirror.status.lastJobName.value, phase) else w
  }

  ghost function Play(w: World, r: Round, cron: Cron): World
    requires RoundEnabled(w, r)
  {
    AfterReconcile(Reconcile(w, r.order, cron, r.now), r.phase)
  }

  ghost predicate ValidRounds(w: World, rounds: seq<Round>, cron: Cron)
    decreases |rounds|
  {
    rounds == [] || (RoundEnabled(w, rounds[0]) && ValidRounds(Play(w, rounds[0], cron), rounds[1..], cron))
  }

  ghost function PlayAll(w: World, rounds: seq<Round>, cron: Cron): World
    requires ValidRounds(w, rounds, cron)
    decreases |rounds|
  {
    if rounds == [] then w else PlayAll(Play(w, rounds[0], cron), rounds[1..], cron)
  }

  /**
   Without a schedule every Job carries the revision requested when it was created, so the
   last Job carries the latest one unless a newer push is pending.
   */
  predicate Unscheduled(w: World) {
    var c, st := w.history.created, w.mirror.status;
    && w.mirror.schedule == ""
    && (c != [] && !st.pendingResync ==> c[|c| - 1].revision == st.lastRequestedRevision)
    && (st.lastRequestedRevision == "" ==> forall i :: 0 <= i < |c| ==> c[i].revision == "")
  }

  /******* Progress *******/

  /** Reconcile is the identity exactly when no work is left or the last Job is still running. */
  lemma ReconcileProgress(w: World, cron: Cron, now: Time)
    requires Shape(w) && w.mirror.schedule == "" && now > w.history.clock
    ensures var w' := ReconcileResult(w, cron, now);
            if Measure(w) == 0 || (Unsettled(w) && JobActive(LastJob(w)))
            then w' == Tick(w, now)
            else Measure(w') < Measure(w)
  {}

  lemma FinishProgress(w: World, phase: Phase)
    requires Inv(w) && phase != Running
    ensures var w' := AfterReconcile(w, phase);
            var kept := Inv(w');
            && kept && w'.mirror == w.mirror && w'.history == w.history
            && Measure(w') <= Measure(w)
            && (Unsettled(w) && JobActive(LastJob(w)) ==> Measure(w') < Measure(w))
            && (Measure(w) == 0 ==> w' == w)
  {
    if Unsettled(w) && JobActive(LastJob(w)) {
      assert JobRecorded(w, w.mirror.status.lastJobName.value);
      FinishInv(w, w.mirror.status.lastJobName.value, phase);
    }
  }

  /** The clock plays no part in the measure. */
  lemma TickMeasure(w: World, now: Time)
    ensures Measure(Tick(w, now)) == Measure(w)
    ensures Unsettled(Tick(w, now)) == Unsettled(w)
  {}

  /** One round strictly decreases the measure until it is zero, and then changes nothing. */
  lemma RoundProgress(w: World, r: Round, cron: Cron)
    requires Inv(w) && w.mirror.schedule == "" && RoundEnabled(w, r)
    ensures var w' := Play(w, r, cron);
            && Inv(w') && w'.mirror.schedule == ""
            && (Measure(w) > 0 ==> Measure(w') < Measure(w))
            && (Measure(w) == 0 ==> w' == Tick(w, r.now))
  {
    ReconcileIsResult(w, r.order, cron, r.now);
    ReconcileInv(w, cron, r.now);
    ReconcileProgress(w, cron, r.now);
    ReconcileEffect(w, cron, r.now);
    var w1 := ReconcileResult(w, cron, r.now);
    assert Play(w, r, cron) == AfterReconcile(w1, r.phase);
    FinishProgress(w1, r.phase);
    TickMeasure(w, r.now);
  }

  lemma {:induction false} RoundsProgress(w: World, rounds: seq<Round>, cron: Cron)
    requires Inv(w) && w.mirror.schedule == "" && ValidRounds(w, rounds, cron)
    ensures var w' := PlayAll(w, rounds, cron);
            Inv(w') && w'.mirror.schedule == "" && (Measure(w) <= |rounds| ==> Measure(w') == 0)
    decreases |rounds|
  {
    if rounds != [] {
      RoundProgress(w, rounds[0], cron);
      RoundsProgress(Play(w, rounds[0], cron), rounds[1..], cron);
    }
  }

  /******* The last Job carries the latest revision *******/

  lemma EffectUnscheduled(w: World, w': World, cron: Cron, now: Time)
    requires Unscheduled(w) && Effect(w, w', cron, now)
    ensures Unscheduled(w')
  {}

  /** A run whose edits never set a schedule. */
  predicate NeverScheduled(steps: seq<Step>) {
    forall i :: 0 <= i < |steps| && steps[i].EditStep? ==> steps[i].schedule == ""
  }

  lemma StepUnscheduled(w: World, s: Step, cron: Cron)
    requires Inv(w) && Unscheduled(w) && Enabled(w, s) && (s.EditStep? ==> s.schedule == "")
    ensures Unscheduled(Next(w, s, cron))
  {
    if s.ReconcileStep? {
      ReconcileIsResult(w, s.order, cron, s.now);
      ReconcileEffect(w, cron, s.now);
      EffectUnscheduled(w, ReconcileResult(w, cron, s.now), cron, s.now);
    }
  }

  lemma {:induction false} RunUnscheduled(w: World, steps: seq<Step>, cron: Cron)
    requires Inv(w) && Unscheduled(w) && ValidRun(w, steps, cron) && NeverScheduled(steps)
    ensures Unscheduled(Execute(w, steps, cron))
    decreases |steps|
  {
    if steps != [] {
      StepInv(w, steps[0], cron);
      StepUnscheduled(w, steps[0], cron);
      assert NeverScheduled(steps[1..]);
      RunUnscheduled(Next(w, steps[0], cron), steps[1..], cron);
    }
  }

  lemma FinishUnscheduled(w: World, phase: Phase)
    requires Unscheduled(w)
    ensures Unscheduled(AfterReconcile(w, phase))
  {}

  lemma RoundUnscheduled(w: World, r: Round, cron: Cron)
    requires Inv(w) && Unscheduled(w) && RoundEnabled(w, r)
    ensures Unscheduled(Play(w, r, cron))
  {
    ReconcileIsResult(w, r.order, cron, r.now);
    ReconcileEffect(w, cron, r.now);
    EffectUnscheduled(w, ReconcileResult(w, cron, r.now), cron, r.now);
    FinishUnscheduled(ReconcileResult(w, cron, r.now), r.phase);
  }

  lemma {:induction false} RoundsUnscheduled(w: World, rounds: seq<Round>, cron: Cron)
    requires Inv(w) && Unscheduled(w) && ValidRounds(w, rounds, cron)
    ensures Unscheduled(PlayAll(w, rounds, cron))
    decreases |rounds|
  {
    if rounds != [] {
      RoundProgress(w, rounds[0], cron);
      RoundUnscheduled(w, rounds[0], cron);
      RoundsUnscheduled(Play(w, rounds[0], cron), rounds[1..], cron);
    }
  }

  lemma {:induction false} NothingMirrored(w: World, k: nat)
    requires Inv(w) && k <= |w.history.reflected|
    requires forall i :: 0 <= i < |w.history.created| ==> w.history.created[i].revision == ""
    ensures LatestMirrored(w.history.reflected[..k]) == ""
    decreases k
  {
    var rs := w.history.reflected;
    if k > 0 {
      NothingMirrored(w, k - 1);
      assert rs[..k][..k - 1] == rs[..k - 1];
      assert rs[k - 1].revision == w.history.created[rs[k - 1].serial].revision;
    }
  }

  /** A quiescent state whose last sync succeeded has mirrored the latest requested revision. */
  lemma QuiescentMirrored(w: World)
    requires Inv(w) && Unscheduled(w) && Quiescent(w) && w.mirror.status.lastError == ""
    ensures w.mirror.status.lastMirroredRevision == w.mirror.status.lastRequestedRevision
  {
    var rs, c, st := w.history.reflected, w.history.created, w.mirror.status;
    var last := st.lastJobName.value;
    assert st.lastCompletedJobName == st.lastJobName by {
      if last in w.jobs {
        assert JobRecorded(w, last);
        LastSerial(w, last);
      }
    }
    if st.lastRequestedRevision == "" {
      NothingMirrored(w, |rs|);
      assert rs[..|rs|] == rs;
    } else {
      assert rs[|rs| - 1].serial == |c| - 1;
    }
  }

  /** Reconcile leaves a quiescent state as it is, and nothing in it is running. */
  lemma QuiescentStable(w: World, cron: Cron)
    requires Inv(w) && w.mirror.schedule == "" && Quiescent(w)
    ensures forall n :: !ActiveNow(w, n)
    ensures forall order, now :: IsListing(order, w.jobs) && now > w.history.clock ==>
              Reconcile(w, order, cron, now) == Tick(w, now)
  {
    forall order, now | IsListing(order, w.jobs) && now > w.history.clock
      ensures Reconcile(w, order, cron, now) == Tick(w, now)
    {
      ReconcileIsResult(w, order, cron, now);
      ReconcileProgress(w, cron, now);
    }
  }

  /** What the end of a convergence looks like. */
  ghost predicate Converged(w: World, cron: Cron) {
    var st := w.mirror.status;
    && st.observedGeneration == w.mirror.generation
    && !st.pendingResync
    && (forall n :: !ActiveNow(w, n))
    && (forall order, now :: IsListing(order, w.jobs) && now > w.history.clock ==>
          Reconcile(w, order, cron, now) == Tick(w, now))
    && (st.lastError == "" ==> st.lastMirroredRevision == st.lastRequestedRevision)
  }

  lemma QuiescentConverged(w: World, cron: Cron)
    requires Inv(w) && Unscheduled(w) && Measure(w) == 0
    ensures Converged(w, cron)
  {
    QuiescentStable(w, cron);
    if w.mirror.status.lastError == "" {
      QuiescentMirrored(w);
    }
  }

  /** A schedule-free run ends in the invariant, with the last Job carrying the latest revision. */
  lemma RunEndsUnscheduled(clock: Time, steps: seq<Step>, cron: Cron)
    requires ValidRun(Initial("", clock), steps, cron) && NeverScheduled(steps)
    ensures var w := Execute(Initial("", clock), steps, cron); Inv(w) && Unscheduled(w) && Measure(w) <= 5
  {
    var w0 := Initial("", clock);
    InitialInv("", clock);
    RunInv(w0, steps, cron);
    RunUnscheduled(w0, steps, cron);
  }

  /** From such a state enough rounds converge. */
  lemma RoundsConverge(w: World, rounds: seq<Round>, cron: Cron)
    requires Inv(w) && Unscheduled(w) && ValidRounds(w, rounds, cron) && |rounds| >= Measure(w)
    ensures Converged(PlayAll(w, rounds, cron), cron)
  {
    RoundsProgress(w, rounds, cron);
    RoundsUnscheduled(w, rounds, cron);
    QuiescentConverged(PlayAll(w, rounds, cron), cron);
  }

  /**
   Convergence: after any schedule-free run, five or more rounds of Reconcile and Job
   completion end in a state that Reconcile leaves as it is, with the generation observed
   and nothing pending; if the last sync succeeded, the mirrored revision is the requested one.
   */
  lemma Converges(clock: Time, steps: seq<Step>, rounds: seq<Round>, cron: Cron)
    requires ValidRun(Initial("", clock), steps, cron) && NeverScheduled(steps)
    requires ValidRounds(Execute(Initial("", clock), steps, cron), rounds, cron) && |rounds| >= 5
    ensures Converged(PlayAll(Execute(Initial("", clock), steps, cron), rounds, cron), cron)
  {
    RunEndsUnscheduled(clock, steps, cron);
    RoundsConverge(Execute(Initial("", clock), steps, cron), rounds, cron);
  }
}
