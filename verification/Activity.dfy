/**
 Which Jobs count as running, by phase, deletion timestamp and generation annotation, and
 what follows: a running Job keeps every other out, one that is being deleted none.

 The states here are arbitrary, with Jobs of any generation or none.
 */
module Activity {
  import opened Base
  import opened GitMirrorStatus
  import opened Scheduling
  import opened Invariants
  import Runs

  /** The lease is held for this running, undeleted Job of the generation or without one. */
  predicate Holds(w: World, h: JobName, generation: int) {
    && w.lease == Held(Some(h)) && h in w.jobs && w.jobs[h].name == h
    && w.jobs[h].phase == Phase.Running && !w.jobs[h].deleting
    && (w.jobs[h].annotation == Absent || w.jobs[h].annotation == At(generation))
  }

  /** A caller of the generation is refused exactly if such a Job of another name holds the lease. */
  lemma AcquireExactly(w: World, generation: int, name: JobName)
    requires forall n :: n in w.jobs ==> w.jobs[n].name == n
    ensures var (acquired, w') := Acquire(w, generation, name);
            && (!acquired <==> exists h :: h != name && Holds(w, h, generation))
            && w' == if acquired then w.(lease := Held(Some(name))) else w
  {
    if w.lease.Held? && w.lease.holder.Some? {
      assert Holds(w, w.lease.holder.value, generation)
        <==> ActiveForGeneration(w.jobs, w.lease.holder.value, generation);
    }
  }

  /** Then locked creations of the generation change nothing, unless for that very name. */
  lemma HolderRefuses(w: World, h: JobName, generation: int, name: JobName, revision: string)
    requires Holds(w, h, generation)
    ensures CreateLocked(w, generation, name, revision) == (name == h, w)
  {}

  /******* A running holder *******/

  /** The completion loop leaves the Jobs, the lease and the creation history alone. */
  lemma {:induction false} LoopKeeps(w: World, snap: Mirror, items: seq<Job>, i: nat, h: JobName, now: Time)
    requires i <= |items| && Holds(w, h, snap.generation)
    requires forall k :: 0 <= k < |items| ==> items[k].name != h || items[k].phase == Phase.Running
    ensures var (_, w') := CompletedJobs(w, snap, items, i, now);
            && w'.jobs == w.jobs && w'.lease == w.lease && w'.history.created == w.history.created
            && w'.mirror.generation == w.mirror.generation
    decreases |items| - i
  {
    if i < |items| {
      if Skips(snap, items, items[i]) {
        LoopKeeps(w, snap, items, i + 1, h, now);
      } else {
        var revision, w1 := w.mirror.status.lastRequestedRevision, Reflect(w, items[i], now);
        assert Release(w1, items[i].name) == w1;
        HolderRefuses(w1, h, snap.generation, ForResync(now), revision);
        var (stop, w2) := CompleteOne(w, snap, items[i], now);
        if !stop {
          LoopKeeps(w2, snap, items, i + 1, h, now);
        }
      }
    }
  }

  /** No later phase creates a Job. */
  lemma PhasesKeep(w: World, snap: Mirror, active: bool, h: JobName, cron: Cron, now: Time)
    requires Holds(w, h, snap.generation) && Holds(w, h, w.mirror.generation)
    ensures var w' := AfterCompleted(w, snap, active, cron, now);
            w'.jobs == w.jobs && w'.lease == w.lease && w'.history.created == w.history.created
  {
    var g, st := w.mirror.generation, w.mirror.status;
    HolderRefuses(w, h, g, ForGeneration(g), st.lastRequestedRevision);
    HolderRefuses(w, h, g, PendingTrigger(st, now), st.lastRequestedRevision);
    HolderRefuses(w, h, snap.generation, ForSchedule(now), "");
    var w1 := Schedule(w, PendingTrigger(st, now), g, now);
    HolderRefuses(w1, h, snap.generation, ForSchedule(now), "");
  }

  /**
   While a running, undeleted Job of the stored generation, or one without the annotation,
   holds the lease, no reconcile creates a Job or changes the lease, whatever else is stored,
   pending or due.
   */
  lemma RunningHolderStopsAll(w: World, h: JobName, order: seq<JobName>, cron: Cron, now: Time)
    requires Holds(w, h, w.mirror.generation)
    requires (forall n :: n in w.jobs ==> w.jobs[n].name == n) && IsListing(order, w.jobs)
    ensures var w' := Reconcile(w, order, cron, now);
            w'.jobs == w.jobs && w'.lease == w.lease && w'.history.created == w.history.created
  {
    var w0, g := Tick(w, now), w.mirror.generation;
    var items := JobsForGeneration(Listed(order, w.jobs), g);
    ListedItems(w.jobs, order, g, items);
    LoopKeeps(w0, w.mirror, items, 0, h, now);
    var (stop, w1) := CompletedJobs(w0, w.mirror, items, 0, now);
    if !stop {
      PhasesKeep(w1, w.mirror, ActiveJobExists(items), h, cron, now);
    }
  }

  /**
   Even without the lease a running, undeleted Job that is listed for the generation stops the
   creating phases, which follow the completion loop.
   */
  lemma RunningJobStopsPhases(w: World, snap: Mirror, h: JobName, order: seq<JobName>, cron: Cron, now: Time)
    requires h in w.jobs && w.jobs[h].phase == Phase.Running && !w.jobs[h].deleting
    requires w.jobs[h].annotation == Absent || w.jobs[h].annotation == At(snap.generation)
    requires (forall n :: n in w.jobs ==> w.jobs[n].name == n) && IsListing(order, w.jobs)
    ensures var active := ActiveJobExists(JobsForGeneration(Listed(order, w.jobs), snap.generation));
            var w' := AfterCompleted(w, snap, active, cron, now);
            w'.jobs == w.jobs && w'.lease == w.lease && w'.history.created == w.history.created
  {
    var items := JobsForGeneration(Listed(order, w.jobs), snap.generation);
    ListedItems(w.jobs, order, snap.generation, items);
    assert w.jobs[h] in items;
  }

  /******* A holder that is being deleted *******/

  /** Whoever asks gets a lease whose holder is being deleted. */
  lemma DeletingHolderYields(w: World, h: JobName, generation: int, name: JobName)
    requires w.lease == Held(Some(h)) && h in w.jobs && w.jobs[h].deleting
    ensures Acquire(w, generation, name) == (true, w.(lease := Held(Some(name))))
  {}

  /** The last Job gets its deletion timestamp, and a push comes in. */
  function DeletedThenPushed(w: World, n: JobName, id: string, revision: string, at: Time): World
    requires n in w.jobs
  {
    Push(w.(jobs := w.jobs[n := w.jobs[n].(deleting := true)]), id, revision, at)
  }

  /**
   After any run that leaves a Job running, its deletion timestamp is enough: the Job of a new
   push is created in the very next reconcile, beside the one that is going, and takes the lease.
   */
  lemma DeletedJobMakesWay(schedule: string, clock: Time, steps: seq<Runs.Step>, cron: Cron,
                           n: JobName, id: string, revision: string, at: Time, order: seq<JobName>, now: Time)
    requires Runs.ValidRun(Initial(schedule, clock), steps, cron)
    requires var w := Runs.Execute(Initial(schedule, clock), steps, cron);
             && ActiveNow(w, n) && now > w.history.clock && id != "" && Fresh(w, ForDelivery(id))
             && w.mirror.status.lastDeliveryID != id
             && IsListing(order, DeletedThenPushed(w, n, id, revision, at).jobs)
    ensures var w1 := DeletedThenPushed(Runs.Execute(Initial(schedule, clock), steps, cron), n, id, revision, at);
            var w2, name := Reconcile(w1, order, cron, now), ForDelivery(id);
            var asked := w1.mirror.status.lastRequestedRevision;
            && w2.history.created == w1.history.created + [Created(name, w1.mirror.generation, asked)]
            && w2.jobs.Keys == w1.jobs.Keys + {name} && w2.jobs[name].phase == Phase.Running
            && !w2.jobs[name].deleting && w2.jobs[name].revision == asked
            && w2.lease == Held(Some(name)) && !w2.mirror.status.pendingResync
  {
    InitialInv(schedule, clock);
    Runs.RunInv(Initial(schedule, clock), steps, cron);
    var w := Runs.Execute(Initial(schedule, clock), steps, cron);
    MakesWay(w, n, id, revision, at, order, cron, now);
  }

  lemma MakesWay(w: World, n: JobName, id: string, revision: string, at: Time,
                 order: seq<JobName>, cron: Cron, now: Time)
    requires Shape(w) && ActiveNow(w, n) && now > w.history.clock && id != "" && Fresh(w, ForDelivery(id))
    requires w.mirror.status.lastDeliveryID != id
    requires IsListing(order, DeletedThenPushed(w, n, id, revision, at).jobs)
    ensures var w1 := DeletedThenPushed(w, n, id, revision, at);
            Reconcile(w1, order, cron, now) ==
            Launch(Tick(w1, now), ForDelivery(id), w1.mirror.status.lastRequestedRevision, now)
    ensures ForDelivery(id) !in w.jobs
  {
    var w1 := DeletedThenPushed(w, n, id, revision, at);
    var g, w0 := w.mirror.generation, Tick(w1, now);
    var items := JobsForGeneration(Listed(order, w1.jobs), g);
    FreshNotStored(w, ForDelivery(id));
    NoneLeft(w, w1, n, order, items);
    AllSkipped(w0, w1.mirror, items, 0, now);
    PushLaunches(w0, w1.mirror, id, cron, now);
  }

  /** Every listed Job is passed over, and none of them runs. */
  lemma NoneLeft(w: World, w1: World, n: JobName, order: seq<JobName>, items: seq<Job>)
    requires Shape(w) && ActiveNow(w, n)
    requires w1.jobs == w.jobs[n := w.jobs[n].(deleting := true)] && w1.mirror.generation == w.mirror.generation
    requires w1.mirror.status.lastJobName == w.mirror.status.lastJobName
    requires IsListing(order, w1.jobs) && items == JobsForGeneration(Listed(order, w1.jobs), w.mirror.generation)
    ensures !ActiveJobExists(items)
    ensures forall k :: 0 <= k < |items| ==> Skips(w1.mirror, items, items[k])
    ensures !Unobserved(w.mirror)
  {
    var g := w.mirror.generation;
    assert forall k :: k in w.jobs ==> JobRecorded(w, k);
    assert w.mirror.status.lastJobName == Some(n);
    ListedItems(w1.jobs, order, g, items);
    assert GenerationMatches(w1.jobs[n], g) && w1.jobs[n] in items;
    var p :| 0 <= p < |items| && items[p] == w1.jobs[n];
    assert JobNameExists(items, n);
    forall k | 0 <= k < |items| ensures Skips(w1.mirror, items, items[k]) && !JobActive(items[k]) {
      assert JobRecorded(w, items[k].name);
      assert items[k].name != n ==> Current(w, items[k].name);
    }
  }

  lemma PushLaunches(w: World, snap: Mirror, id: string, cron: Cron, now: Time)
    requires snap == w.mirror && !Unobserved(snap) && snap.status.pendingResync && id != ""
    requires snap.status.lastDeliveryID == id && ForDelivery(id) !in w.jobs
    requires Takeable(w.lease, w.jobs, snap.generation, ForDelivery(id))
    ensures AfterCompleted(w, snap, false, cron, now)
         == Launch(w, ForDelivery(id), snap.status.lastRequestedRevision, now)
  {
    LockTaken(w, ForDelivery(id), snap.status.lastRequestedRevision, now, ForSchedule(now));
  }
}
