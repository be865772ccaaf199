/**
 Which Job a reconcile creates, told from the fields of the stored objects: the generation,
 phase and deletion of the Jobs, the status, and the times the schedule gives.

 After every failure-free run `CreatedExactly` names the one Job, if any, that the next
 reconcile creates; `ScheduledSyncStarts` and `ScheduledSyncWaits` say when the fallback
 schedule is the reason.  `FallbackExact` is the same for the fallback phase alone, in any
 state, also one that no failure-free run leads to.
 */
module Decisions {
  import opened Base
  import opened GitMirrorStatus
  import opened Scheduling
  import opened Invariants
  import Runs

  /** A Job of the stored generation runs and is not being deleted. */
  ghost predicate SomeRuns(w: World) {
    exists n :: n in w.jobs && RunsNow(w, w.jobs[n])
  }

  predicate RunsNow(w: World, job: Job) {
    job.annotation == At(w.mirror.generation) && job.phase == Phase.Running && !job.deleting
  }

  /** The last Job is of the stored generation, has ended, and is not reflected. */
  predicate ToReflect(w: World) {
    var st := w.mirror.status;
    && st.lastJobName.Some? && st.lastJobName != st.lastCompletedJobName && st.lastJobName.value in w.jobs
    && w.jobs[st.lastJobName.value].annotation == At(w.mirror.generation)
    && w.jobs[st.lastJobName.value].phase != Phase.Running
  }

  /** The schedule can be read, and its time after the last trigger is not ahead. */
  predicate TimeIsUp(cron: Cron, m: Mirror, now: Time) {
    && m.schedule != "" && cron.parses(m.schedule)
    && match m.status.lastTriggeredAt
       case None => true
       case Some(t) =>
         match cron.next(m.schedule, t)
         case None => true
         case Some(n) => n <= now
  }

  /** The one Job a reconcile at `now` has reason to create, or none. */
  ghost function Wanted(w: World, cron: Cron, now: Time): Option<Created> {
    var g, st := w.mirror.generation, w.mirror.status;
    if SomeRuns(w) then None
    else if ToReflect(w) && st.pendingResync then Some(Created(ForResync(now), g, st.lastRequestedRevision))
    else if st.observedGeneration != g then Some(Created(ForGeneration(g), g, st.lastRequestedRevision))
    else if st.pendingResync then
      Some(Created(if st.lastDeliveryID == "" then ForResync(now) else ForDelivery(st.lastDeliveryID), g,
                   st.lastRequestedRevision))
    else if TimeIsUp(cron, w.mirror, now) then Some(Created(ForSchedule(now), g, ""))
    else None
  }

  lemma SomeRunsExactly(w: World)
    requires Shape(w)
    ensures SomeRuns(w) <==> Unsettled(w) && JobActive(LastJob(w))
    ensures ToReflect(w) <==> Unsettled(w) && JobFinished(LastJob(w))
    ensures ToReflect(w) ==> w.mirror.status.observedGeneration == w.mirror.generation
  {
    if w.mirror.status.lastJobName.Some? && w.mirror.status.lastJobName.value in w.jobs {
      Runs.LastJobRecord(w, w.mirror.status.lastJobName.value);
      assert JobRecorded(w, w.mirror.status.lastJobName.value);
    }
    if n :| n in w.jobs && RunsNow(w, w.jobs[n]) {
      assert Current(w, n) && JobRecorded(w, n);
    }
  }

  lemma LaunchCreates(w: World, name: JobName, revision: string, now: Time)
    requires name !in w.jobs
    ensures Launch(w, name, revision, now).history.created
         == w.history.created + [Created(name, w.mirror.generation, revision)]
  {}

  lemma ResultCreates(w: World, cron: Cron, now: Time)
    requires Shape(w) && now > w.history.clock
    ensures ReconcileResult(w, cron, now).history.created
         == w.history.created + (if Wanted(w, cron, now).Some? then [Wanted(w, cron, now).value] else [])
  {
    SomeRunsExactly(w);
    NewNames(w, now);
    var w0, st := Tick(w, now), w.mirror.status;
    FreshNotStored(w, ForSchedule(now));
    if ToReflect(w) {
      Runs.LastJobRecord(w, st.lastJobName.value);
      FreshNotStored(w, ForResync(now));
      var w1 := Settle(w0, now);
      LaunchCreates(w1, ForResync(now), st.lastRequestedRevision, now);
      LaunchCreates(w1.(mirror := WebhookState(w1.mirror, "scheduled", now, false)), ForSchedule(now), "", now);
    } else if !Unsettled(w) {
      IdleCreates(w, cron, now);
    } else {
      Runs.LastJobRecord(w, st.lastJobName.value);
    }
  }

  lemma IdleCreates(w: World, cron: Cron, now: Time)
    requires Shape(w) && now > w.history.clock && !Unsettled(w) && !SomeRuns(w) && !ToReflect(w)
    ensures ReconcileResult(w, cron, now).history.created
         == w.history.created + (if Wanted(w, cron, now).Some? then [Wanted(w, cron, now).value] else [])
  {
    NewNames(w, now);
    var w0, st := Tick(w, now), w.mirror.status;
    if Unobserved(w.mirror) {
      FreshNotStored(w, ForGeneration(w.mirror.generation));
      LaunchCreates(w0, ForGeneration(w.mirror.generation), st.lastRequestedRevision, now);
    } else if st.pendingResync {
      FreshNotStored(w, PendingTrigger(st, now));
      LaunchCreates(w0, PendingTrigger(st, now), st.lastRequestedRevision, now);
    } else {
      FreshNotStored(w, ForSchedule(now));
      LaunchCreates(w0.(mirror := WebhookState(w0.mirror, "scheduled", now, false)), ForSchedule(now), "", now);
    }
  }

  /** After every run the next reconcile creates exactly the Job it has reason to create. */
  lemma CreatedExactly(schedule: string, clock: Time, steps: seq<Runs.Step>, cron: Cron,
                       order: seq<JobName>, now: Time)
    requires Runs.ValidRun(Initial(schedule, clock), steps, cron)
    requires var w := Runs.Execute(Initial(schedule, clock), steps, cron);
             IsListing(order, w.jobs) && now > w.history.clock
    ensures var w := Runs.Execute(Initial(schedule, clock), steps, cron);
            Reconcile(w, order, cron, now).history.created
            == w.history.created + (if Wanted(w, cron, now).Some? then [Wanted(w, cron, now).value] else [])
  {
    InitialInv(schedule, clock);
    Runs.RunInv(Initial(schedule, clock), steps, cron);
    var w := Runs.Execute(Initial(schedule, clock), steps, cron);
    ReconcileIsResult(w, order, cron, now);
    ResultCreates(w, cron, now);
  }

  /******* The schedule *******/

  /** Observed, nothing pending, last triggered at `t`, after which the schedule's time is `n`. */
  predicate NextIs(w: World, cron: Cron, t: Time, n: Time) {
    var m := w.mirror;
    && m.status.observedGeneration == m.generation && !m.status.pendingResync
    && m.schedule != "" && cron.parses(m.schedule)
    && m.status.lastTriggeredAt == Some(t) && cron.next(m.schedule, t) == Some(n)
  }

  /**
   With no Job running, the reconcile starts a scheduled sync exactly if the schedule's next
   time is not ahead: one Job, of this generation and without a revision, which then runs,
   holds the lease, and counts as the last trigger.
   */
  lemma ScheduledSyncStarts(schedule: string, clock: Time, steps: seq<Runs.Step>, cron: Cron,
                            order: seq<JobName>, now: Time, t: Time, n: Time)
    requires Runs.ValidRun(Initial(schedule, clock), steps, cron)
    requires var w := Runs.Execute(Initial(schedule, clock), steps, cron);
             IsListing(order, w.jobs) && now > w.history.clock && NextIs(w, cron, t, n) && !SomeRuns(w)
    ensures var w := Runs.Execute(Initial(schedule, clock), steps, cron);
            var w' := Reconcile(w, order, cron, now);
            if n <= now then
              && w'.history.created == w.history.created + [Created(ForSchedule(now), w.mirror.generation, "")]
              && ForSchedule(now) in w'.jobs && RunsNow(w', w'.jobs[ForSchedule(now)])
              && w'.lease == Held(Some(ForSchedule(now))) && w'.mirror.status.lastTriggeredAt == Some(now)
              && w'.mirror.status.lastJobName == Some(ForSchedule(now))
            else w'.jobs == w.jobs && w'.history.created == w.history.created
  {
    InitialInv(schedule, clock);
    Runs.RunInv(Initial(schedule, clock), steps, cron);
    var w := Runs.Execute(Initial(schedule, clock), steps, cron);
    CreatedExactly(schedule, clock, steps, cron, order, now);
    ReconcileIsResult(w, order, cron, now);
    ScheduledResult(w, cron, now, t, n);
  }

  lemma ScheduledResult(w: World, cron: Cron, now: Time, t: Time, n: Time)
    requires Shape(w) && now > w.history.clock && NextIs(w, cron, t, n) && !SomeRuns(w)
    ensures var w' := ReconcileResult(w, cron, now);
            if n <= now then
              && ForSchedule(now) in w'.jobs && RunsNow(w', w'.jobs[ForSchedule(now)])
              && w'.lease == Held(Some(ForSchedule(now))) && w'.mirror.status.lastTriggeredAt == Some(now)
              && w'.mirror.status.lastJobName == Some(ForSchedule(now))
            else w'.jobs == w.jobs
  {
    SomeRunsExactly(w);
    NewNames(w, now);
    FreshNotStored(w, ForSchedule(now));
    if Unsettled(w) {
      Runs.LastJobRecord(w, w.mirror.status.lastJobName.value);
    }
  }

  /** While a Job runs, a reconcile creates nothing; if the time is not ahead it asks for a resync. */
  lemma ScheduledSyncWaits(schedule: string, clock: Time, steps: seq<Runs.Step>, cron: Cron,
                           order: seq<JobName>, now: Time, t: Time, n: Time)
    requires Runs.ValidRun(Initial(schedule, clock), steps, cron)
    requires var w := Runs.Execute(Initial(schedule, clock), steps, cron);
             IsListing(order, w.jobs) && now > w.history.clock && NextIs(w, cron, t, n) && SomeRuns(w)
    ensures var w := Runs.Execute(Initial(schedule, clock), steps, cron);
            var w' := Reconcile(w, order, cron, now);
            && w'.jobs == w.jobs && w'.lease == w.lease && w'.history.created == w.history.created
            && w'.mirror.status == if n <= now then CoalescedAt(w.mirror, now) else w.mirror.status
  {
    InitialInv(schedule, clock);
    Runs.RunInv(Initial(schedule, clock), steps, cron);
    var w := Runs.Execute(Initial(schedule, clock), steps, cron);
    ReconcileIsResult(w, order, cron, now);
    SomeRunsExactly(w);
  }

  /** The status of a coalesced trigger. */
  function CoalescedAt(m: Mirror, now: Time): Status {
    m.status.(lastWebhookAt := Some(now), lastDeliveryID := "scheduled", pendingResync := true,
              conditions := m.status.conditions[SYNC_PENDING := Condition(true, m.generation, "ActiveJobExists")])
  }

  /** The lease is held for a running, undeleted Job that counts for this generation, under another name. */
  predicate HeldByOther(w: World, generation: int, name: JobName) {
    && w.lease.Held? && w.lease.holder.Some? && w.lease.holder.value != name
    && w.lease.holder.value in w.jobs
    && var job := w.jobs[w.lease.holder.value];
    job.phase == Phase.Running && !job.deleting && (job.annotation == Absent || job.annotation == At(generation))
  }

  /**
   The fallback phase in any state, `active` being what the list showed: nothing before the
   schedule's time; then a coalesced trigger, or, unless the lease is another's, one Job.
   */
  lemma FallbackExact(w: World, snap: Mirror, active: bool, cron: Cron, now: Time)
    requires snap.generation == w.mirror.generation && ForSchedule(now) !in w.jobs
    ensures var w', name := Fallback(w, snap, active, cron, now), ForSchedule(now);
            if !TimeIsUp(cron, snap, now) then w' == w
            else if active then w' == w.(mirror := w.mirror.(status := CoalescedAt(w.mirror, now)))
            else if HeldByOther(w, snap.generation, name) then w' == w
            else
              && w'.history.created == w.history.created + [Created(name, snap.generation, "")]
              && w'.jobs.Keys == w.jobs.Keys + {name} && RunsNow(w', w'.jobs[name]) && w'.jobs[name].revision == ""
              && w'.lease == Held(Some(name)) && w'.mirror.status.lastTriggeredAt == Some(now)
              && w'.mirror.status.lastJobName == Some(name) && !w'.mirror.status.pendingResync
              && w'.mirror.status.lastDeliveryID == "scheduled" && w'.mirror.status.lastWebhookAt == Some(now)
  {}
}
