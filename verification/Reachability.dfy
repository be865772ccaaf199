/**
 Building failure-free runs: one state reaches another if some run without spec edits leads
 from the first to the second.  Used to exhibit runs.
 */
module Reachability {
  import opened GitMirrorStatus
  import opened Scheduling
  import opened Invariants
  import opened Runs

  predicate NoEdits(steps: seq<Step>) {
    forall i :: 0 <= i < |steps| ==> !steps[i].EditStep?
  }

  ghost predicate Reaches(w: World, w': World, cron: Cron) {
    exists steps :: NoEdits(steps) && ValidRun(w, steps, cron) && Execute(w, steps, cron) == w'
  }

  lemma {:induction false} RunsConcatenate(w: World, a: seq<Step>, b: seq<Step>, cron: Cron)
    requires ValidRun(w, a, cron) && ValidRun(Execute(w, a, cron), b, cron)
    ensures ValidRun(w, a + b, cron) && Execute(w, a + b, cron) == Execute(Execute(w, a, cron), b, cron)
    decreases |a|
  {
    if a == [] {
      assert a + b == b;
    } else {
      var w1, ab := Next(w, a[0], cron), a + b;
      assert ab[0] == a[0] && ab[1..] == a[1..] + b;
      RunsConcatenate(w1, a[1..], b, cron);
      assert ValidRun(w1, ab[1..], cron);
    }
  }

  lemma ReachesTrans(w: World, w1: World, w2: World, cron: Cron)
    requires Reaches(w, w1, cron) && Reaches(w1, w2, cron)
    ensures Reaches(w, w2, cron)
  {
    var a :| NoEdits(a) && ValidRun(w, a, cron) && Execute(w, a, cron) == w1;
    var b :| NoEdits(b) && ValidRun(w1, b, cron) && Execute(w1, b, cron) == w2;
    RunsConcatenate(w, a, b, cron);
    assert NoEdits(a + b);
  }

  lemma ReachesNext(w: World, s: Step, cron: Cron)
    requires Enabled(w, s) && !s.EditStep?
    ensures Reaches(w, Next(w, s, cron), cron)
  {
    var steps := [s];
    assert steps[1..] == [];
    assert ValidRun(Next(w, s, cron), [], cron);
    assert NoEdits(steps) && ValidRun(w, steps, cron) && Execute(w, steps, cron) == Next(w, s, cron);
  }

  /** Every set of Jobs can be listed. */
  lemma {:induction false} ListingExists(names: set<JobName>) returns (order: seq<JobName>)
    ensures forall n :: n in names <==> n in order
    ensures forall i, j :: 0 <= i < j < |order| ==> order[i] != order[j]
    decreases |names|
  {
    if names == {} {
      order := [];
    } else {
      var n :| n in names;
      var rest := ListingExists(names - {n});
      order := rest + [n];
    }
  }

  lemma ReachesReconcile(w: World, cron: Cron, now: Time)
    requires Inv(w) && now > w.history.clock
    ensures Reaches(w, ReconcileResult(w, cron, now), cron) && Inv(ReconcileResult(w, cron, now))
  {
    var order := ListingExists(w.jobs.Keys);
    assert IsListing(order, w.jobs);
    ReachesNext(w, ReconcileStep(order, now), cron);
    ReconcileIsResult(w, order, cron, now);
    ReconcileInv(w, cron, now);
  }

  /** The last Job is of this generation and runs; nothing is pending. */
  ghost predicate Busy(w: World) {
    Inv(w) && Unsettled(w) && JobActive(LastJob(w)) && !w.mirror.status.pendingResync
  }

  /** The running last Job completes. */
  function Finished(w: World): World
    requires Unsettled(w)
  {
    FinishJob(w, w.mirror.status.lastJobName.value, Complete)
  }

  lemma ReachesFinished(w: World, cron: Cron)
    requires Inv(w) && Unsettled(w) && JobActive(LastJob(w))
    ensures var w1 := Finished(w);
            Reaches(w, w1, cron) && Inv(w1) && Unsettled(w1) && JobFinished(LastJob(w1))
  {
    var n := w.mirror.status.lastJobName.value;
    ReachesNext(w, FinishStep(n, Complete), cron);
    FinishInv(w, n, Complete);
  }

  /** The first reconcile starts the Job of the first generation. */
  lemma ReachesFirstSync(schedule: string, clock: Time, cron: Cron, now: Time) returns (w: World)
    requires now > clock
    ensures Reaches(Initial(schedule, clock), w, cron) && Busy(w)
    ensures w == Launch(Tick(Initial(schedule, clock), now), ForGeneration(1), "", now)
    ensures w.history.created == [Created(ForGeneration(1), 1, "")] && w.jobs.Keys == {ForGeneration(1)}
  {
    var w0 := Initial(schedule, clock);
    InitialInv(schedule, clock);
    ReachesReconcile(w0, cron, now);
    w := ReconcileResult(w0, cron, now);
  }
}
