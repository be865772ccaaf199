/**
 Failure-free runs that reach the failing side of the limits on crashes, reused delivery ids
 and removals (see `Limits`), and two that no caller can tell apart.
 */
module RunWitnesses {
  import opened Base
  import opened GitMirrorStatus
  import opened Scheduling
  import opened Invariants
  import opened Runs
  import opened Convergence
  import opened Limits
  import opened Reachability

  /** At rest, without a schedule. */
  ghost predicate Calm(w: World) {
    Inv(w) && Quiescent(w) && w.mirror.schedule == ""
  }

  /** Nothing but the last Job's outcome has changed. */
  predicate SameHistory(w: World, w': World) {
    && w'.jobs.Keys == w.jobs.Keys && w'.history.created == w.history.created
    && w'.mirror.generation == w.mirror.generation && w'.mirror.status.lastJobName == w.mirror.status.lastJobName
    && w'.mirror.status.lastDeliveryID == w.mirror.status.lastDeliveryID
    && w'.mirror.status.lastRequestedRevision == w.mirror.status.lastRequestedRevision
  }

  lemma SettledCalm(w: World, cron: Cron, now: Time)
    requires Inv(w) && Unsettled(w) && JobFinished(LastJob(w)) && !w.mirror.status.pendingResync
    requires w.mirror.schedule == "" && now > w.history.clock
    ensures var w' := ReconcileResult(w, cron, now); Quiescent(w') && w'.mirror.schedule == "" && SameHistory(w, w')
  {}

  /** The running Job completes and is reflected. */
  lemma SettleCycle(w: World, cron: Cron) returns (w': World)
    requires Busy(w) && w.mirror.schedule == ""
    ensures var calm := Calm(w'); Reaches(w, w', cron) && calm && SameHistory(w, w')
  {
    var w1, now := Finished(w), w.history.clock + 1;
    ReachesFinished(w, cron);
    ReachesReconcile(w1, cron, now);
    SettledCalm(w1, cron, now);
    w' := ReconcileResult(w1, cron, now);
    ReachesTrans(w, w1, w', cron);
  }

  /** The Job a push without a revision asks for. */
  function Delivered(w: World, id: string): Created {
    Created(ForDelivery(id), w.mirror.generation, w.mirror.status.lastRequestedRevision)
  }

  /** With a push into a state at rest the next reconcile launches its Job. */
  lemma DeliveryResult(w: World, id: string, cron: Cron, now: Time)
    requires Quiescent(w) && id != "" && w.mirror.status.lastDeliveryID != id && ForDelivery(id) !in w.jobs
    ensures var w1 := Push(w, id, "", 0);
            var w2 := Launch(Tick(w1, now), ForDelivery(id), w1.mirror.status.lastRequestedRevision, now);
            && ReconcileResult(w1, cron, now) == w2
            && w2.mirror.schedule == w.mirror.schedule && w2.mirror.generation == w.mirror.generation
            && w2.mirror.status.lastDeliveryID == id && w2.mirror.status.lastJobName == Some(ForDelivery(id))
            && w2.jobs.Keys == w.jobs.Keys + {ForDelivery(id)}
            && w2.history.created == w.history.created + [Delivered(w, id)]
  {}

  /** A push into a state at rest starts its Job at the next reconcile. */
  lemma DeliveryStarts(w: World, id: string, cron: Cron, now: Time)
    requires Calm(w) && id != "" && w.mirror.status.lastDeliveryID != id && Fresh(w, ForDelivery(id))
    requires now > w.history.clock
    ensures var w1 := Push(w, id, "", 0);
            var inv := Inv(w1);
            && inv
            && var w2 := ReconcileResult(w1, cron, now);
            var busy := Busy(w2);
            && busy && w2.mirror.schedule == "" && w2.mirror.generation == w.mirror.generation
            && w2.mirror.status.lastDeliveryID == id && w2.mirror.status.lastJobName == Some(ForDelivery(id))
            && w2.jobs.Keys == w.jobs.Keys + {ForDelivery(id)}
            && w2.history.created == w.history.created + [Delivered(w, id)]
  {
    var w1 := Push(w, id, "", 0);
    PushInv(w, id, "", 0);
    TickInv(w1, now);
    FreshNotStored(w, ForDelivery(id));
    DeliveryResult(w, id, cron, now);
    LaunchInv(Tick(w1, now), ForDelivery(id), w1.mirror.status.lastRequestedRevision, now);
  }

  /** A push comes in, its Job runs, completes and is reflected. */
  lemma DeliveryCycle(w: World, id: string, cron: Cron) returns (w': World)
    requires Calm(w) && id != "" && w.mirror.status.lastDeliveryID != id && Fresh(w, ForDelivery(id))
    ensures var calm := Calm(w'); Reaches(w, w', cron) && calm && w'.mirror.generation == w.mirror.generation
    ensures w'.mirror.status.lastDeliveryID == id && w'.mirror.status.lastJobName == Some(ForDelivery(id))
    ensures w'.jobs.Keys == w.jobs.Keys + {ForDelivery(id)}
    ensures w'.history.created == w.history.created + [Delivered(w, id)]
  {
    var w1, now := Push(w, id, "", 0), w.history.clock + 1;
    DeliveryStarts(w, id, cron, now);
    ReachesNext(w, PushStep(id, "", 0), cron);
    ReachesReconcile(w1, cron, now);
    var w2 := ReconcileResult(w1, cron, now);
    ReachesTrans(w, w1, w2, cron);
    w' := SettleCycle(w2, cron);
    ReachesTrans(w, w2, w', cron);
  }

  lemma FirstSyncQuiet(w: World)
    requires w == Launch(Tick(Initial("", 0), 1), ForGeneration(1), "", 1)
    ensures w.mirror.schedule == "" && w.mirror.status.lastDeliveryID == "" && w.mirror.generation == 1
    ensures w.mirror.status.lastRequestedRevision == ""
  {}

  /** After the first sync. */
  lemma FirstCalm(cron: Cron) returns (w: World)
    ensures var calm := Calm(w); Reaches(Initial("", 0), w, cron) && calm && w.mirror.status.lastDeliveryID == ""
    ensures w.history.created == [Created(ForGeneration(1), 1, "")] && w.jobs.Keys == {ForGeneration(1)}
    ensures w.mirror.generation == 1 && w.mirror.status.lastRequestedRevision == ""
  {
    var w1 := ReachesFirstSync("", 0, cron, 1);
    FirstSyncQuiet(w1);
    w := SettleCycle(w1, cron);
    ReachesTrans(Initial("", 0), w1, w, cron);
  }

  lemma PushWhileBusy(w: World, id: string, revision: string, at: Time)
    requires Busy(w) && id != "" && w.mirror.status.lastDeliveryID != id && Fresh(w, ForDelivery(id))
    ensures var w1 := Push(w, id, revision, at);
            var inv := Inv(w1);
            && inv && Unsettled(w1) && JobActive(LastJob(w1)) && w1.mirror.status.pendingResync
            && Unserved(w1.history)
  {
    PushInv(w, id, revision, at);
  }

  lemma UnservedIsLost(w: World, now: Time)
    requires Inv(w) && Unsettled(w) && JobFinished(LastJob(w)) && Unserved(w.history)
    ensures !PushCovered(Reflect(w, LastJob(w), now))
  {
    assert JobRecorded(w, w.mirror.status.lastJobName.value);
  }

  /** A push comes in while the first sync runs, which then completes: a crash now loses the push. */
  lemma CrashLossReached(cron: Cron, revision: string) returns (w: World)
    ensures Reaches(Initial("", 0), w, cron) && Inv(w) && Unsettled(w) && JobFinished(LastJob(w))
    ensures w.mirror.status.pendingResync && forall now :: !PushCovered(Reflect(w, LastJob(w), now))
  {
    var w0 := Initial("", 0);
    var w1 := ReachesFirstSync("", 0, cron, 1);
    FirstSyncQuiet(w1);
    PushWhileBusy(w1, "delivery", revision, 2);
    var w2 := Push(w1, "delivery", revision, 2);
    ReachesNext(w1, PushStep("delivery", revision, 2), cron);
    ReachesTrans(w0, w1, w2, cron);
    w := FinishAfterTick(w0, w2, cron);
    forall now ensures !PushCovered(Reflect(w, LastJob(w), now)) {
      UnservedIsLost(w, now);
    }
  }

  /** Two Jobs of the first generation, the second for a delivery and last. */
  predicate TwoJobs(w: World) {
    && w.jobs.Keys == {ForGeneration(1), ForDelivery("first")} && w.mirror.generation == 1
    && w.mirror.status.lastDeliveryID == "first" && w.mirror.status.lastJobName == Some(ForDelivery("first"))
    && w.history.created == [Created(ForGeneration(1), 1, ""), Created(ForDelivery("first"), 1, "")]
  }

  /** After the first sync and a delivery. */
  lemma FirstDelivery(cron: Cron) returns (w: World)
    ensures var calm := Calm(w); Reaches(Initial("", 0), w, cron) && calm && TwoJobs(w)
  {
    var w1 := FirstCalm(cron);
    FirstFresh(w1);
    w := DeliveryCycle(w1, "first", cron);
    ReachesTrans(Initial("", 0), w1, w, cron);
    TwoJobsLeft(w1, w);
  }

  lemma TwoJobsLeft(w1: World, w: World)
    requires w1.jobs.Keys == {ForGeneration(1)} && w1.history.created == [Created(ForGeneration(1), 1, "")]
    requires w1.mirror.generation == w.mirror.generation == 1 && w1.mirror.status.lastRequestedRevision == ""
    requires w.jobs.Keys == w1.jobs.Keys + {ForDelivery("first")}
    requires w.history.created == w1.history.created + [Delivered(w1, "first")]
    requires w.mirror.status.lastDeliveryID == "first" && w.mirror.status.lastJobName == Some(ForDelivery("first"))
    ensures TwoJobs(w)
  {}

  lemma FirstFresh(w: World)
    requires w.history.created == [Created(ForGeneration(1), 1, "")]
    ensures Fresh(w, ForDelivery("first"))
  {}

  /** A first delivery id comes again after another: its push is lost. */
  lemma ReusedTriggerReached(cron: Cron, revision: string, at: Time, now: Time) returns (w: World)
    ensures Reaches(Initial("", 0), w, cron) && Quiescent(w)
    ensures w.mirror.status.lastDeliveryID != "first" && ForDelivery("first") in w.jobs
    ensures var w1 := Push(w, "first", revision, at); !PushCovered(PendingResync(w1, w1.mirror, false, now).1)
  {
    var w1 := FirstDelivery(cron);
    w := DeliveryCycle(w1, "second", cron);
    ReachesTrans(Initial("", 0), w1, w, cron);
    PendingPushServed(w, "first", revision, at, now);
  }

  /** The last Job is removed while an older one is stored: the next reconcile reflects that one again. */
  lemma RemovalReached(cron: Cron) returns (w: World, n: JobName)
    ensures Reaches(Initial("", 0), w, cron) && Current(w, n) && !Unsettled(w)
    ensures forall order, now :: IsListing(order, RemoveJob(w, n).jobs) && now > w.history.clock ==>
              !Increasing(Reconcile(RemoveJob(w, n), order, cron, now).history.reflected)
  {
    w := FirstDelivery(cron);
    n := ForDelivery("first");
    TwoCurrent(w);
    forall order, now | IsListing(order, RemoveJob(w, n).jobs) && now > w.history.clock
      ensures !Increasing(Reconcile(RemoveJob(w, n), order, cron, now).history.reflected)
    {
      RemovalKeepsOrder(w, n, order, cron, now);
    }
  }

  lemma TwoCurrent(w: World)
    requires Inv(w) && TwoJobs(w)
    ensures Current(w, ForDelivery("first")) && Current(w, ForGeneration(1))
  {}

  /******* A crash that only the order of events decides *******/

  /**
   With a schedule the stored state does not tell whether a crash loses the push: two runs end
   in states that differ only in when the push came, and a crash loses it in one of them.
   */
  lemma StoredStateCannotTell(schedule: string, cron: Cron) returns (a: World, b: World)
    requires schedule != "" && cron.parses(schedule)
    requires cron.next(schedule, 1).Some? ==> cron.next(schedule, 1).value <= 2
    ensures Reaches(Initial(schedule, 0), a, cron) && Reaches(Initial(schedule, 0), b, cron)
    ensures a.mirror == b.mirror && a.jobs == b.jobs && a.lease == b.lease && a.mirror.status.pendingResync
    ensures Unsettled(a) && Unsettled(b) && JobFinished(LastJob(a)) && JobFinished(LastJob(b))
    ensures forall now :: PushCovered(Reflect(a, LastJob(a), now)) && !PushCovered(Reflect(b, LastJob(b), now))
  {
    a := PushThenSync(schedule, cron);
    b := SyncThenPush(schedule, cron);
    assert a.mirror.status.conditions == b.mirror.status.conditions;
    forall now ensures PushCovered(Reflect(a, LastJob(a), now)) && !PushCovered(Reflect(b, LastJob(b), now)) {
      assert JobRecorded(a, ForGeneration(1)) && JobRecorded(b, ForGeneration(1));
    }
  }

  /** Pending is set by the tick alone, or by the push and the tick: the states look the same. */
  predicate Coalesced(w: World, schedule: string, mark: nat) {
    var st := w.mirror.status;
    && w.mirror.generation == 1 && w.mirror.schedule == schedule
    && st == EMPTY_STATUS.(observedGeneration := 1, lastWebhookAt := Some(2), lastDeliveryID := "scheduled",
                           lastTriggeredAt := Some(1), lastJobName := Some(ForGeneration(1)), pendingResync := true,
                           conditions := map[SYNC_PENDING := Condition(true, 1, "ActiveJobExists")])
    && w.jobs == map[ForGeneration(1) := Job(ForGeneration(1), At(1), "", Complete, false, 0)]
    && w.lease == Held(Some(ForGeneration(1)))
    && w.history.created == [Created(ForGeneration(1), 1, "")] && w.history.pushMark == Some(mark)
  }

  lemma PushThenSync(schedule: string, cron: Cron) returns (w: World)
    requires schedule != "" && cron.parses(schedule)
    requires cron.next(schedule, 1).Some? ==> cron.next(schedule, 1).value <= 2
    ensures Reaches(Initial(schedule, 0), w, cron) && Inv(w) && Coalesced(w, schedule, 0)
  {
    var w0 := Initial(schedule, 0);
    var w1 := Push(w0, "delivery", "", 1);
    InitialInv(schedule, 0);
    ReachesNext(w0, PushStep("delivery", "", 1), cron);
    PushInv(w0, "delivery", "", 1);
    ReachesReconcile(w1, cron, 1);
    var w2 := ReconcileResult(w1, cron, 1);
    ReachesTrans(w0, w1, w2, cron);
    w := TickThenFinish(w0, w2, schedule, 0, cron);
  }

  lemma SyncThenPush(schedule: string, cron: Cron) returns (w: World)
    requires schedule != "" && cron.parses(schedule)
    requires cron.next(schedule, 1).Some? ==> cron.next(schedule, 1).value <= 2
    ensures Reaches(Initial(schedule, 0), w, cron) && Inv(w) && Coalesced(w, schedule, 1)
  {
    var w0 := Initial(schedule, 0);
    var w1 := ReachesFirstSync(schedule, 0, cron, 1);
    var w2 := Push(w1, "delivery", "", 2);
    ReachesNext(w1, PushStep("delivery", "", 2), cron);
    PushInv(w1, "delivery", "", 2);
    ReachesTrans(w0, w1, w2, cron);
    w := TickThenFinish(w0, w2, schedule, 1, cron);
  }

  lemma TickCoalesces(w: World, cron: Cron)
    requires Unsettled(w) && JobActive(LastJob(w)) && w.mirror.status.lastTriggeredAt == Some(1)
    requires w.mirror.schedule != "" && cron.parses(w.mirror.schedule)
    requires cron.next(w.mirror.schedule, 1).Some? ==> cron.next(w.mirror.schedule, 1).value <= 2
    ensures ReconcileResult(w, cron, 2) == Coalesce(Tick(w, 2), 2)
  {}

  /** The running Job is found at a due tick, which coalesces, and then completes. */
  lemma TickThenFinish(w0: World, w2: World, schedule: string, mark: nat, cron: Cron) returns (w: World)
    requires schedule != "" && cron.parses(schedule)
    requires cron.next(schedule, 1).Some? ==> cron.next(schedule, 1).value <= 2
    requires Reaches(w0, w2, cron) && Inv(w2) && w2.history.clock < 2
    requires w2.mirror.generation == 1 && w2.mirror.schedule == schedule
    requires w2.jobs == map[ForGeneration(1) := Job(ForGeneration(1), At(1), "", Phase.Running, false, 0)]
    requires w2.lease == Held(Some(ForGeneration(1)))
    requires w2.history.created == [Created(ForGeneration(1), 1, "")] && w2.history.pushMark == Some(mark)
    requires var st := w2.mirror.status;
             && st.observedGeneration == 1 && st.lastTriggeredAt == Some(1) && st.lastJobName == Some(ForGeneration(1))
             && st.lastCompletedJobName == None && st.lastSuccessAt == None && st.lastFailureAt == None
             && st.lastError == st.lastRequestedRevision == st.lastMirroredRevision == ""
             && st.conditions.Keys == {SYNC_PENDING}
    ensures var inv := Inv(w); Reaches(w0, w, cron) && inv && Coalesced(w, schedule, mark)
  {
    ReachesReconcile(w2, cron, 2);
    var w3 := ReconcileResult(w2, cron, 2);
    TickCoalesces(w2, cron);
    ReachesTrans(w0, w2, w3, cron);
    w := FinishAfterTick(w0, w3, cron);
    assert w.mirror.status.conditions == map[SYNC_PENDING := Condition(true, 1, "ActiveJobExists")];
  }

  lemma FinishAfterTick(w0: World, w3: World, cron: Cron) returns (w: World)
    requires Reaches(w0, w3, cron) && Inv(w3) && Unsettled(w3) && JobActive(LastJob(w3))
    ensures Reaches(w0, w, cron) && Inv(w) && w == Finished(w3) && Unsettled(w) && JobFinished(LastJob(w))
  {
    ReachesFinished(w3, cron);
    w := Finished(w3);
    ReachesTrans(w0, w3, w, cron);
  }
}
