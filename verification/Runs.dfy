/**
 Whole runs at the atomic granularity: any interleaving of pushes, spec edits, Job
 completions, Job removals and reconciles, from a freshly created GitMirror.

 `Enabled` states what a run assumes of its environment: a delivery id names a fresh Job, the
 reconciler's clock strictly increases, and the last Job of the current generation is removed
 only once it is reflected and alone, which removing reflected Jobs oldest first implies.
 */
module Runs {
  import opened Base
  import opened GitMirrorStatus
  import opened Scheduling
  import opened Invariants

  datatype Step =
    | PushStep(id: string, revision: string, at: Time)
    | EditStep(schedule: string)
    | FinishStep(name: JobName, phase: Phase)
    | RemoveStep(name: JobName)
    | ReconcileStep(order: seq<JobName>, now: Time)

  predicate WasReflected(h: History, serial: nat) {
    exists i :: 0 <= i < |h.reflected| && h.reflected[i].serial == serial
  }

  /** Garbage collection: the last Job, if current, goes only when it is reflected and alone. */
  ghost predicate Removable(w: World, n: JobName) {
    && n in w.jobs
    && (Current(w, n) && w.mirror.status.lastJobName == Some(n) ==>
          !Unsettled(w) && forall k :: Current(w, k) ==> k == n)
  }

  /** The usual policy: of the current generation only finished and reflected Jobs go, oldest first. */
  ghost predicate OldestFirst(w: World, n: JobName) {
    && n in w.jobs
    && (Current(w, n) ==>
          && JobFinished(w.jobs[n])
          && WasReflected(w.history, w.jobs[n].serial)
          && forall k :: Current(w, k) && k != n ==> w.jobs[n].serial < w.jobs[k].serial)
  }

  ghost predicate Enabled(w: World, s: Step) {
    match s
    case PushStep(id, _, _) => id != "" && (w.mirror.status.lastDeliveryID == id || Fresh(w, ForDelivery(id)))
    case EditStep(_) => true
    case FinishStep(n, phase) => n in w.jobs && w.jobs[n].phase == Running && phase != Running
    case RemoveStep(n) => Removable(w, n)
    case ReconcileStep(order, now) => IsListing(order, w.jobs) && now > w.history.clock
  }

  ghost function Next(w: World, s: Step, cron: Cron): World
    requires Enabled(w, s)
  {
    match s
    case PushStep(id, revision, at) => Push(w, id, revision, at)
    case EditStep(schedule) => EditSpec(w, schedule)
    case FinishStep(n, phase) => FinishJob(w, n, phase)
    case RemoveStep(n) => RemoveJob(w, n)
    case ReconcileStep(order, now) => Reconcile(w, order, cron, now)
  }

  ghost predicate ValidRun(w: World, steps: seq<Step>, cron: Cron)
    decreases |steps|
  {
    steps == [] || (Enabled(w, steps[0]) && ValidRun(Next(w, steps[0], cron), steps[1..], cron))
  }

  ghost function Execute(w: World, steps: seq<Step>, cron: Cron): World
    requires ValidRun(w, steps, cron)
    decreases |steps|
  {
    if steps == [] then w else Execute(Next(w, steps[0], cron), steps[1..], cron)
  }

  /******* The operations of Reconcile keep the invariants *******/

  /** Shape looks only at the Jobs, the creation history, and four fields of the GitMirror. */
  lemma ShapeFrame(w: World, w1: World)
    requires Shape(w)
    requires w1.jobs == w.jobs && w1.history.created == w.history.created && w1.history.clock >= w.history.clock
    requires w1.mirror.generation == w.mirror.generation
    requires w1.mirror.status.lastJobName == w.mirror.status.lastJobName
    requires w1.mirror.status.observedGeneration == w.mirror.status.observedGeneration
    requires w1.lease == w.lease || (Unsettled(w) ==> !JobActive(LastJob(w)))
    requires w1.mirror.status.pendingResync ==>
               || Unsettled(w1)
               || !WasCreated(w1.history, ForDelivery(w1.mirror.status.lastDeliveryID))
               || (w.mirror.status.pendingResync
                   && Unsettled(w1) == Unsettled(w)
                   && w1.mirror.status.lastDeliveryID == w.mirror.status.lastDeliveryID)
    ensures Shape(w1)
  {}

  lemma LastSerial(w: World, n: JobName)
    requires Shape(w) && n in w.jobs && w.mirror.status.lastJobName == Some(n)
    ensures w.jobs[n].serial == |w.history.created| - 1
  {}

  lemma SettleShape(w: World, now: Time)
    requires Shape(w) && Unsettled(w) && JobFinished(LastJob(w))
    ensures var w1 := Settle(w, now);
            && Shape(w1) && !Unsettled(w1) && !w1.mirror.status.pendingResync
            && w1.mirror.generation == w.mirror.generation
  {
    assert JobRecorded(w, w.mirror.status.lastJobName.value);
    ShapeFrame(w, Settle(w, now));
  }

  /** What the status says once a Job is reflected. */
  predicate SettledShown(st: Status, st': Status, j: Job, generation: int, now: Time) {
    && READY in st'.conditions && st'.conditions[READY].status == (j.phase == Complete)
    && st'.conditions[READY].generation == generation
    && st'.lastSuccessAt == (if j.phase == Complete then Some(now) else st.lastSuccessAt)
    && st'.lastFailureAt == (if j.phase == Complete then st.lastFailureAt else Some(now))
    && (j.phase.Failed? ==> Tells(st'.lastError, j.phase.reason, j.phase.message))
  }

  /** Settling appends the last Job to the reflections, as the newest of them. */
  lemma SettleReflects(w: World, now: Time)
    requires Shape(w) && Unsettled(w) && JobFinished(LastJob(w))
    ensures var w1, j := Settle(w, now), LastJob(w);
            && w1.history.created == w.history.created
            && w1.history.reflected == w.history.reflected
                                       + [Reflection(|w.history.created| - 1, j.phase, j.revision, now)]
            && w1.jobs == w.jobs && w1.mirror.status.lastJobName == w.mirror.status.lastJobName
            && w1.mirror.status.lastCompletedJobName == w.mirror.status.lastJobName
            && w1.mirror.status.lastMirroredRevision ==
               (if j.phase == Complete && j.revision != "" then j.revision else w.mirror.status.lastMirroredRevision)
            && (w1.mirror.status.lastError == "" <==> j.phase == Complete)
            && SettledShown(w.mirror.status, w1.mirror.status, j, w.mirror.generation, now)
            && j.annotation == At(w.history.created[|w.history.created| - 1].generation) == At(w.mirror.generation)
            && j.revision == w.history.created[|w.history.created| - 1].revision
  {
    var n := w.mirror.status.lastJobName.value;
    assert JobRecorded(w, n);
    LastSerial(w, n);
  }

  lemma AppendOrdered(rs: seq<Reflection>, c: seq<Created>, x: Reflection)
    requires Increasing(rs) && Recorded(rs, c) && x.serial < |c| && x.revision == c[x.serial].revision
    requires rs != [] ==> rs[|rs| - 1].serial < x.serial
    ensures Increasing(rs + [x]) && Recorded(rs + [x], c)
    ensures forall success :: LatestTime(rs + [x], success) ==
                              if x.Succeeded() == success then Some(x.at) else LatestTime(rs, success)
    ensures LatestMirrored(rs + [x]) == if x.Succeeded() && x.revision != "" then x.revision else LatestMirrored(rs)
  {
    assert (rs + [x])[..|rs|] == rs;
  }

  /** An unreflected last Job is newer than every reflected one. */
  lemma LastIsNewest(w: World)
    requires Shape(w) && Ordered(w) && Unsettled(w) && JobFinished(LastJob(w)) && w.history.reflected != []
    ensures var rs := w.history.reflected; rs[|rs| - 1].serial < |w.history.created| - 1
  {
    LastSerial(w, w.mirror.status.lastJobName.value);
  }

  /** With the last Job reflected as the newest, a status that shows it is in order. */
  lemma NewestOrdered(w: World, rs: seq<Reflection>, x: Reflection)
    requires w.history.reflected == rs + [x] && Increasing(rs + [x]) && Recorded(rs + [x], w.history.created)
    requires x.serial < |w.history.created|
    requires w.mirror.status.lastCompletedJobName == Some(w.history.created[x.serial].name)
    requires w.mirror.status.lastMirroredRevision == LatestMirrored(rs + [x])
    requires w.mirror.status.lastError == "" <==> x.Succeeded()
    requires w.mirror.status.lastJobName == w.mirror.status.lastCompletedJobName
    requires OutcomeShown(rs + [x], w.history.created, w.mirror.status)
    requires forall n :: n in w.jobs && w.mirror.status.lastJobName == Some(n) ==> w.jobs[n].phase != Running
    ensures Ordered(w)
  {}

  lemma SettleOrdered(w: World, now: Time)
    requires Shape(w) && Ordered(w) && Unsettled(w) && JobFinished(LastJob(w))
    ensures Ordered(Settle(w, now))
  {
    SettleReflects(w, now);
    if w.history.reflected != [] {
      LastIsNewest(w);
    }
    var j := LastJob(w);
    var x := Reflection(|w.history.created| - 1, j.phase, j.revision, now);
    AppendOrdered(w.history.reflected, w.history.created, x);
    NewestOrdered(Settle(w, now), w.history.reflected, x);
  }

  lemma LaunchExclusive(w: World, name: JobName, revision: string, now: Time)
    requires Shape(w) && !Unsettled(w) && name !in w.jobs
    ensures Exclusive(Launch(w, name, revision, now))
  {}

  lemma LaunchRecorded(w: World, name: JobName, revision: string, now: Time)
    requires Shape(w) && Fresh(w, name) && name !in w.jobs
    requires NameSpent(Launch(w, name, revision, now), name)
    ensures var w1 := Launch(w, name, revision, now);
            CreatedOk(w1) && forall n :: n in w1.jobs ==> JobRecorded(w1, n)
  {}

  lemma LaunchShape(w: World, name: JobName, revision: string, now: Time)
    requires Shape(w) && !Unsettled(w) && Fresh(w, name)
    requires NameSpent(Launch(w, name, revision, now), name)
    ensures Shape(Launch(w, name, revision, now))
  {
    FreshNotStored(w, name);
    LaunchExclusive(w, name, revision, now);
    LaunchRecorded(w, name, revision, now);
  }

  lemma LaunchPush(w: World, name: JobName, revision: string, now: Time)
    requires PushRecorded(w) && name !in w.jobs
    requires revision == w.mirror.status.lastRequestedRevision || (PushCovered(w) && !w.mirror.status.pendingResync)
    ensures PushCovered(Launch(w, name, revision, now))
  {
    var c, c' := w.history.created, Launch(w, name, revision, now).history.created;
    assert c' == c + [Created(name, w.mirror.generation, revision)];
    assert forall i :: 0 <= i < |c| ==> c'[i] == c[i];
  }

  /** The status still shows the reflections, which the new Job is not among. */
  lemma LaunchOrdered(w: World, name: JobName, revision: string, now: Time)
    requires Shape(w) && Ordered(w) && Fresh(w, name) && name !in w.jobs
    ensures var w1 := Launch(w, name, revision, now); Ordered(w1) && LeaseShown(w1)
  {
    var c, c' := w.history.created, Launch(w, name, revision, now).history.created;
    assert c' == c + [Created(name, w.mirror.generation, revision)];
    assert forall i :: 0 <= i < |c| ==> c'[i] == c[i];
  }

  lemma LaunchReflected(w: World, name: JobName, revision: string, now: Time)
    requires Shape(w) && Ordered(w) && !Unsettled(w) && name !in w.jobs
    ensures OthersReflected(Launch(w, name, revision, now))
  {}

  /** A launch with a fresh name restores every invariant, also after a consumed pending push. */
  lemma LaunchInv(w: World, name: JobName, revision: string, now: Time)
    requires Shape(w) && Ordered(w) && PushRecorded(w) && Dated(w.history) && !Unsettled(w) && Fresh(w, name)
    requires revision == w.mirror.status.lastRequestedRevision || (PushCovered(w) && !w.mirror.status.pendingResync)
    requires w.history.clock == now
    requires NameSpent(Launch(w, name, revision, now), name)
    ensures var w1 := Launch(w, name, revision, now);
            && Inv(w1) && Unsettled(w1) && JobActive(LastJob(w1)) && !w1.mirror.status.pendingResync
            && w1.history.created == w.history.created + [Created(name, w.mirror.generation, revision)]
  {
    FreshNotStored(w, name);
    LaunchShape(w, name, revision, now);
    LaunchPush(w, name, revision, now);
    LaunchOrdered(w, name, revision, now);
    LaunchReflected(w, name, revision, now);
  }

  /** Settling leaves the push record and releases the lease. */
  lemma SettlePush(w: World, now: Time)
    requires Shape(w) && PushCovered(w) && LeaseShown(w) && Unsettled(w) && JobFinished(LastJob(w))
    ensures var w1 := Settle(w, now);
            && PushRecorded(w1) && w1.lease == NoLease
            && !w1.mirror.status.pendingResync && !Unobserved(w1.mirror)
            && w1.mirror.status.lastRequestedRevision == w.mirror.status.lastRequestedRevision
            && w1.history.created == w.history.created
            && (!w.mirror.status.pendingResync ==> PushCovered(w1))
  {
    assert JobRecorded(w, w.mirror.status.lastJobName.value);
  }

  /** What it leaves of the pending flag and the clock. */
  lemma SettleRest(w: World, now: Time)
    requires Shape(w) && PendingShown(w.mirror) && Timed(w) && Unsettled(w) && JobFinished(LastJob(w))
    requires w.history.clock == now
    ensures var w1 := Settle(w, now);
            PendingShown(w1.mirror) && Timed(w1) && w1.history.clock == now
  {
    assert JobRecorded(w, w.mirror.status.lastJobName.value);
  }

  lemma SettleInv(w: World, now: Time)
    requires Inv(w) && Unsettled(w) && JobFinished(LastJob(w)) && w.history.clock == now
    ensures var w1 := Settle(w, now);
            && Shape(w1) && Ordered(w1) && PushRecorded(w1) && PendingShown(w1.mirror) && Timed(w1)
            && w1.lease == NoLease && !Unsettled(w1) && !w1.mirror.status.pendingResync && !Unobserved(w1.mirror)
            && w1.mirror.status.lastRequestedRevision == w.mirror.status.lastRequestedRevision
            && w1.history.created == w.history.created && w1.history.clock == now
            && (!w.mirror.status.pendingResync ==> PushCovered(w1))
  {
    SettleShape(w, now);
    SettleOrdered(w, now);
    SettlePush(w, now);
    SettleRest(w, now);
  }

  /** The scheduled-state patch touches nothing Shape looks at, beyond pending and the delivery id. */
  lemma ScheduledStateShape(w: World, now: Time, active: bool)
    requires Shape(w) && Unsettled(w) == active
    ensures var w1 := w.(mirror := WebhookState(w.mirror, "scheduled", now, active));
            Shape(w1) && Unsettled(w1) == active
  {}

  lemma ScheduledLaunchInv(w: World, now: Time)
    requires Shape(w) && Ordered(w) && PushCovered(w) && Dated(w.history)
    requires !Unsettled(w) && !w.mirror.status.pendingResync
    requires Fresh(w, ForSchedule(now)) && w.history.clock == now
    ensures var w1 := LaunchScheduled(w, now);
            && Inv(w1) && Unsettled(w1) && JobActive(LastJob(w1)) && !w1.mirror.status.pendingResync
            && w1.history.created == w.history.created + [Created(ForSchedule(now), w.mirror.generation, "")]
  {
    ScheduledStateShape(w, now, false);
    LaunchInv(w.(mirror := WebhookState(w.mirror, "scheduled", now, false)), ForSchedule(now), "", now);
  }

  lemma TickInv(w: World, now: Time)
    requires Inv(w) && now > w.history.clock
    ensures Inv(Tick(w, now))
  {
    ShapeFrame(w, Tick(w, now));
  }

  /** Settling the last Job and then following up on a pending push. */
  lemma FollowupInv(w: World, now: Time)
    requires Inv(w) && w.history.clock == now && Unsettled(w) && JobFinished(LastJob(w))
    requires Fresh(w, ForResync(now))
    ensures var w1 := Launch(Settle(w, now), ForResync(now), w.mirror.status.lastRequestedRevision, now);
            Inv(w1) && Unsettled(w1) && JobActive(LastJob(w1)) && !w1.mirror.status.pendingResync
  {
    SettleInv(w, now);
    FreshSame(w, Settle(w, now), ForResync(now));
    LaunchInv(Settle(w, now), ForResync(now), w.mirror.status.lastRequestedRevision, now);
  }

  lemma SettleOthers(w: World, now: Time)
    requires Shape(w) && Ordered(w) && OthersReflected(w) && Unsettled(w) && JobFinished(LastJob(w))
    ensures OthersReflected(Settle(w, now))
  {
    SettleReflects(w, now);
    assert forall n :: n in w.jobs ==> JobRecorded(w, n);
  }

  /** Settling it and nothing else. */
  lemma SettledInv(w: World, now: Time)
    requires Inv(w) && w.history.clock == now && Unsettled(w) && JobFinished(LastJob(w))
    requires !w.mirror.status.pendingResync
    ensures var kept := Inv(Settle(w, now)); kept
  {
    SettleInv(w, now);
    SettleOthers(w, now);
  }

  /** Settling it and then starting a scheduled sync. */
  lemma SettledLaunchInv(w: World, now: Time)
    requires Inv(w) && w.history.clock == now && Unsettled(w) && JobFinished(LastJob(w))
    requires Fresh(w, ForSchedule(now)) && !w.mirror.status.pendingResync
    ensures var kept := Inv(LaunchScheduled(Settle(w, now), now)); kept
  {
    SettleInv(w, now);
    FreshSame(w, Settle(w, now), ForSchedule(now));
    ScheduledLaunchInv(Settle(w, now), now);
  }

  lemma FreshSame(w: World, w1: World, n: JobName)
    requires Fresh(w, n) && w1.history.created == w.history.created
    ensures Fresh(w1, n)
  {}

  lemma CoalesceInv(w: World, now: Time)
    requires Inv(w) && Unsettled(w)
    ensures Inv(Coalesce(w, now))
  {
    ScheduledStateShape(w, now, true);
  }

  lemma RunningInv(w: World, cron: Cron, now: Time)
    requires Inv(w) && now > w.history.clock && Unsettled(w) && JobActive(LastJob(w))
    ensures var kept := Inv(ReconcileResult(w, cron, now)); kept
  {
    TickInv(w, now);
    CoalesceInv(Tick(w, now), now);
  }

  lemma FinishedInv(w: World, cron: Cron, now: Time)
    requires Inv(w) && now > w.history.clock && Unsettled(w) && JobFinished(LastJob(w))
    ensures var kept := Inv(ReconcileResult(w, cron, now)); kept
  {
    TickInv(w, now);
    NewNames(w, now);
    var w0, st := Tick(w, now), w.mirror.status;
    if st.pendingResync {
      FollowupInv(w0, now);
      FinishedResult(w, cron, now);
    } else {
      SettledInv(w0, now);
      SettledLaunchInv(w0, now);
      FinishedResult(w, cron, now);
    }
  }

  lemma FinishedResult(w: World, cron: Cron, now: Time)
    requires Unsettled(w) && JobFinished(LastJob(w))
    ensures var w1, st := Settle(Tick(w, now), now), w.mirror.status;
            ReconcileResult(w, cron, now) ==
            if st.pendingResync then Launch(w1, ForResync(now), st.lastRequestedRevision, now)
            else if FallbackDue(cron, w.mirror, now) then LaunchScheduled(w1, now) else w1
  {}

  lemma IdleInv(w: World, cron: Cron, now: Time)
    requires Inv(w) && now > w.history.clock && !Unsettled(w)
    ensures var kept := Inv(ReconcileResult(w, cron, now)); kept
  {
    var w0, st := Tick(w, now), w.mirror.status;
    TickInv(w, now);
    NewNames(w, now);
    if Unobserved(w.mirror) {
      LaunchInv(w0, ForGeneration(w.mirror.generation), st.lastRequestedRevision, now);
    } else if st.pendingResync {
      LaunchInv(w0, PendingTrigger(st, now), st.lastRequestedRevision, now);
    } else if FallbackDue(cron, w.mirror, now) {
      ScheduledLaunchInv(w0, now);
    }
  }

  /** Reconcile keeps the invariant. */
  lemma ReconcileInv(w: World, cron: Cron, now: Time)
    requires Inv(w) && now > w.history.clock
    ensures var kept := Inv(ReconcileResult(w, cron, now)); kept
  {
    if !Unsettled(w) {
      IdleInv(w, cron, now);
    } else if JobActive(LastJob(w)) {
      RunningInv(w, cron, now);
    } else {
      LastJobRecord(w, LastJob(w).name);
      FinishedInv(w, cron, now);
    }
  }

  /******* Every step keeps the invariant *******/

  lemma PushInv(w: World, id: string, revision: string, at: Time)
    requires Inv(w) && Enabled(w, PushStep(id, revision, at))
    ensures Inv(Push(w, id, revision, at))
  {
    ShapeFrame(w, Push(w, id, revision, at));
  }

  lemma EditInv(w: World, schedule: string)
    requires Inv(w)
    ensures Inv(EditSpec(w, schedule))
  {}

  lemma FinishExclusive(w: World, n: JobName, phase: Phase)
    requires Shape(w) && Ordered(w) && Enabled(w, FinishStep(n, phase))
    ensures Exclusive(FinishJob(w, n, phase))
    ensures Unsettled(w) ==> Unsettled(FinishJob(w, n, phase))
  {
    var w1 := FinishJob(w, n, phase);
    assert JobRecorded(w, n);
    forall k ensures Current(w1, k) == Current(w, k) {
      assert k != n && k in w.jobs ==> w1.jobs[k] == w.jobs[k];
    }
  }

  lemma FinishShape(w: World, n: JobName, phase: Phase)
    requires Shape(w) && Ordered(w) && Enabled(w, FinishStep(n, phase))
    ensures var kept := Shape(FinishJob(w, n, phase)); kept
  {
    var w1 := FinishJob(w, n, phase);
    forall k | k in w1.jobs ensures JobRecorded(w1, k) {
      assert JobRecorded(w, k);
    }
    assert forall k :: NameSpent(w, k) ==> NameSpent(w1, k);
    FinishExclusive(w, n, phase);
  }

  lemma FinishInv(w: World, n: JobName, phase: Phase)
    requires Inv(w) && Enabled(w, FinishStep(n, phase))
    ensures Inv(FinishJob(w, n, phase))
  {
    FinishShape(w, n, phase);
  }

  /** Removing oldest first never removes the last Job of the generation too early. */
  lemma OldestFirstRemovable(w: World, n: JobName)
    requires Inv(w) && OldestFirst(w, n)
    ensures Removable(w, n)
  {}

  lemma RemoveExclusive(w: World, n: JobName)
    requires Shape(w) && Removable(w, n)
    ensures Exclusive(RemoveJob(w, n))
    ensures Unsettled(w) ==> Unsettled(RemoveJob(w, n))
  {
    var w1 := RemoveJob(w, n);
    assert forall k :: Current(w1, k) <==> Current(w, k) && k != n;
  }

  lemma RemoveShape(w: World, n: JobName)
    requires Shape(w) && Removable(w, n)
    ensures Shape(RemoveJob(w, n))
  {
    var w1 := RemoveJob(w, n);
    forall k | k in w1.jobs ensures JobRecorded(w1, k) {
      assert JobRecorded(w, k);
    }
    assert forall k :: NameSpent(w, k) ==> NameSpent(w1, k);
    RemoveExclusive(w, n);
  }

  lemma RemoveInv(w: World, n: JobName)
    requires Inv(w) && Enabled(w, RemoveStep(n))
    ensures Inv(RemoveJob(w, n))
  {
    RemoveShape(w, n);
  }

  lemma StepInv(w: World, s: Step, cron: Cron)
    requires Inv(w) && Enabled(w, s)
    ensures Inv(Next(w, s, cron))
  {
    match s
    case PushStep(id, revision, at) => PushInv(w, id, revision, at);
    case EditStep(schedule) => EditInv(w, schedule);
    case FinishStep(n, phase) => FinishInv(w, n, phase);
    case RemoveStep(n) => RemoveInv(w, n);
    case ReconcileStep(order, now) =>
      ReconcileIsResult(w, order, cron, now);
      ReconcileInv(w, cron, now);
  }

  /** Every state of every run satisfies the invariant. */
  lemma {:induction false} RunInv(w: World, steps: seq<Step>, cron: Cron)
    requires Inv(w) && ValidRun(w, steps, cron)
    ensures Inv(Execute(w, steps, cron))
    decreases |steps|
  {
    if steps != [] {
      StepInv(w, steps[0], cron);
      RunInv(Next(w, steps[0], cron), steps[1..], cron);
    }
  }

  /******* Theorems about every run from a freshly created GitMirror *******/

  /** At most one Job of the current generation is active, and it holds the lease. */
  lemma MutualExclusion(schedule: string, clock: Time, steps: seq<Step>, cron: Cron, m: JobName, n: JobName)
    requires ValidRun(Initial(schedule, clock), steps, cron)
    requires var w := Execute(Initial(schedule, clock), steps, cron); ActiveNow(w, m) && ActiveNow(w, n)
    ensures m == n && Execute(Initial(schedule, clock), steps, cron).lease == Held(Some(m))
  {
    RunInv(Initial(schedule, clock), steps, cron);
  }

  /**
   After any run the last accepted push is still pending, or the first Job created after it
   carries the latest requested revision; and the SyncPending condition says which.
   */
  lemma NoPushForgotten(schedule: string, clock: Time, steps: seq<Step>, cron: Cron)
    requires ValidRun(Initial(schedule, clock), steps, cron)
    ensures var w := Execute(Initial(schedule, clock), steps, cron);
            var h, st := w.history, w.mirror.status;
            && (h.pushMark.Some? ==>
                  if h.pushMark.value >= |h.created| then st.pendingResync
                  else h.created[h.pushMark.value].revision == st.lastRequestedRevision)
            && (st.pendingResync <==> SYNC_PENDING in st.conditions && st.conditions[SYNC_PENDING].status)
  {
    RunInv(Initial(schedule, clock), steps, cron);
  }

  /**
   Jobs are reflected in strictly increasing order of creation, within and across
   generations; LastCompletedJobName is the newest reflected Job, LastError tells its
   outcome, and LastMirroredRevision is the revision of the newest reflected success that
   carried one.
   */
  lemma StatusNeverRunsBackwards(schedule: string, clock: Time, steps: seq<Step>, cron: Cron)
    requires ValidRun(Initial(schedule, clock), steps, cron)
    ensures var w := Execute(Initial(schedule, clock), steps, cron);
            var rs, c, st := w.history.reflected, w.history.created, w.mirror.status;
            && (forall i, j :: 0 <= i < j < |rs| ==> rs[i].serial < rs[j].serial < |c| && rs[i].at <= rs[j].at)
            && (rs != [] ==> rs[|rs| - 1].serial < |c|
                             && st.lastCompletedJobName == Some(c[rs[|rs| - 1].serial].name)
                             && (st.lastError == "" <==> rs[|rs| - 1].phase == Complete))
            && st.lastMirroredRevision == LatestMirrored(rs)
  {
    RunInv(Initial(schedule, clock), steps, cron);
  }

  /** The newest reflection with this outcome is the k-th. */
  predicate NewestWith(rs: seq<Reflection>, k: nat, success: bool) {
    && k < |rs| && (rs[k].phase == Complete) == success
    && forall j :: k < j < |rs| ==> (rs[j].phase == Complete) != success
  }

  /** Nothing with this outcome has been reflected, or `at` is when the newest was. */
  ghost predicate LastSeen(rs: seq<Reflection>, at: Option<Time>, success: bool) {
    if at.None? then forall i :: 0 <= i < |rs| ==> (rs[i].phase == Complete) != success
    else exists k: nat :: NewestWith(rs, k, success) && rs[k].at == at.value
  }

  lemma {:induction false} LatestTimeMeaning(rs: seq<Reflection>, success: bool)
    ensures LastSeen(rs, LatestTime(rs, success), success)
  {
    if rs != [] {
      var init := rs[..|rs| - 1];
      LatestTimeMeaning(init, success);
      if rs[|rs| - 1].Succeeded() == success {
        assert NewestWith(rs, |rs| - 1, success);
      } else if LatestTime(init, success).Some? {
        var k: nat :| NewestWith(init, k, success) && init[k].at == LatestTime(init, success).value;
        assert forall j :: 0 <= j < |init| ==> rs[j] == init[j];
        assert NewestWith(rs, k, success);
      }
    }
  }

  /**
   Once a Job has been reflected, Ready is true exactly if the newest of them completed, and
   belongs to that Job's generation; LastError is the failure's reason and message, or empty.
   LastSuccessAt and LastFailureAt are when the newest success and the newest failure were
   reflected, if any was.
   */
  lemma OutcomeReported(schedule: string, clock: Time, steps: seq<Step>, cron: Cron)
    requires ValidRun(Initial(schedule, clock), steps, cron)
    ensures var w := Execute(Initial(schedule, clock), steps, cron);
            var rs, c, st := w.history.reflected, w.history.created, w.mirror.status;
            && (rs == [] ==> READY !in st.conditions)
            && (rs != [] ==>
                  var last := rs[|rs| - 1];
                  && READY in st.conditions && last.serial < |c|
                  && st.conditions[READY].generation == c[last.serial].generation
                  && (last.phase == Complete || last.phase.Failed?)
                  && (last.phase == Complete ==> st.conditions[READY].status && st.lastError == "")
                  && (last.phase.Failed? ==>
                        !st.conditions[READY].status && Tells(st.lastError, last.phase.reason, last.phase.message)))
            && LastSeen(rs, st.lastSuccessAt, true) && LastSeen(rs, st.lastFailureAt, false)
  {
    RunInv(Initial(schedule, clock), steps, cron);
    var w := Execute(Initial(schedule, clock), steps, cron);
    LatestTimeMeaning(w.history.reflected, true);
    LatestTimeMeaning(w.history.reflected, false);
  }

  /**
   Which outcome is shown: a reconcile reflects the stored last Job if that is of the current
   generation, finished and not yet reflected, with its phase, its revision and the time of
   the reconcile; and nothing else.
   */
  lemma ReflectsLastJob(w: World, order: seq<JobName>, cron: Cron, now: Time)
    requires Inv(w) && Enabled(w, ReconcileStep(order, now))
    ensures var st, rs, rs' := w.mirror.status, w.history.reflected, Reconcile(w, order, cron, now).history.reflected;
            if st.lastJobName.Some? && st.lastJobName.value in w.jobs && st.lastCompletedJobName != st.lastJobName
               && w.jobs[st.lastJobName.value].annotation == At(w.mirror.generation)
               && w.jobs[st.lastJobName.value].phase != Running
            then
              var j := w.jobs[st.lastJobName.value];
              rs' == rs + [Reflection(|w.history.created| - 1, j.phase, j.revision, now)]
            else rs' == rs
  {
    ReconcileIsResult(w, order, cron, now);
    ResultReflects(w, cron, now);
    LastReflection(w, now);
  }

  lemma LastReflection(w: World, now: Time)
    requires Shape(w)
    ensures var st, rs := w.mirror.status, w.history.reflected;
            if st.lastJobName.Some? && st.lastJobName.value in w.jobs && st.lastCompletedJobName != st.lastJobName
               && w.jobs[st.lastJobName.value].annotation == At(w.mirror.generation)
               && w.jobs[st.lastJobName.value].phase != Running
            then
              var j := w.jobs[st.lastJobName.value];
              && Unsettled(w) && JobFinished(LastJob(w))
              && Reflect(w, LastJob(w), now).history.reflected
                 == rs + [Reflection(|w.history.created| - 1, j.phase, j.revision, now)]
            else !(Unsettled(w) && JobFinished(LastJob(w)))
  {
    if w.mirror.status.lastJobName.Some? && w.mirror.status.lastJobName.value in w.jobs {
      LastJobRecord(w, w.mirror.status.lastJobName.value);
    }
  }

  lemma LastJobRecord(w: World, n: JobName)
    requires Shape(w) && n in w.jobs && w.mirror.status.lastJobName == Some(n)
    ensures w.jobs[n].serial == |w.history.created| - 1 && w.jobs[n].name == n && !w.jobs[n].deleting
  {
    LastSerial(w, n);
    assert JobRecorded(w, n);
  }

  lemma LaunchReflects(w: World, name: JobName, revision: string, now: Time)
    ensures Launch(w, name, revision, now).history.reflected == w.history.reflected
  {}

  /** Of a reconcile's operations only settling reflects. */
  lemma ResultReflects(w: World, cron: Cron, now: Time)
    requires Shape(w)
    ensures ReconcileResult(w, cron, now).history.reflected ==
            if Unsettled(w) && JobFinished(LastJob(w)) then Reflect(w, LastJob(w), now).history.reflected
            else w.history.reflected
  {
    var w0, st := Tick(w, now), w.mirror.status;
    if !Unsettled(w) {
      LaunchReflects(w0, ForGeneration(w.mirror.generation), st.lastRequestedRevision, now);
      LaunchReflects(w0, PendingTrigger(st, now), st.lastRequestedRevision, now);
      LaunchReflects(w0.(mirror := WebhookState(w0.mirror, "scheduled", now, false)), ForSchedule(now), "", now);
    } else if JobFinished(LastJob(w)) {
      var w1 := Settle(w0, now);
      assert JobRecorded(w, st.lastJobName.value);
      assert w1.history.reflected == Reflect(w, LastJob(w), now).history.reflected;
      LaunchReflects(w1, ForResync(now), st.lastRequestedRevision, now);
      LaunchReflects(w1.(mirror := WebhookState(w1.mirror, "scheduled", now, false)), ForSchedule(now), "", now);
    } else {
      assert JobRecorded(w, st.lastJobName.value);
    }
  }

  /** The Lease exists only while the last Job is not reflected, and then that Job holds it. */
  lemma LeaseFollowsLastJob(schedule: string, clock: Time, steps: seq<Step>, cron: Cron)
    requires ValidRun(Initial(schedule, clock), steps, cron)
    ensures var w := Execute(Initial(schedule, clock), steps, cron);
            var c, st := w.history.created, w.mirror.status;
            w.lease != NoLease ==>
              && c != [] && w.lease == Held(Some(c[|c| - 1].name))
              && st.lastCompletedJobName != Some(c[|c| - 1].name)
  {
    RunInv(Initial(schedule, clock), steps, cron);
  }

  /** LatestMirrored is what its name says: a success carries it and no later success carries one. */
  lemma {:induction false} LatestMirroredMeaning(rs: seq<Reflection>)
    ensures LatestMirrored(rs) == "" ==> forall i :: 0 <= i < |rs| && rs[i].Succeeded() ==> rs[i].revision == ""
    ensures LatestMirrored(rs) != "" ==>
              exists i :: 0 <= i < |rs| && rs[i].Succeeded() && rs[i].revision == LatestMirrored(rs)
                          && forall j :: i < j < |rs| && rs[j].Succeeded() ==> rs[j].revision == ""
  {
    if rs != [] {
      var init, last := rs[..|rs| - 1], rs[|rs| - 1];
      LatestMirroredMeaning(init);
      if last.Succeeded() && last.revision != "" {
        assert rs[|rs| - 1] == last;
      } else if LatestMirrored(init) != "" {
        var i :| 0 <= i < |init| && init[i].Succeeded() && init[i].revision == LatestMirrored(init)
                 && forall j :: i < j < |init| && init[j].Succeeded() ==> init[j].revision == "";
        assert rs[i] == init[i];
        assert forall j :: i < j < |rs| - 1 ==> rs[j] == init[j];
      } else {
        assert forall i :: 0 <= i < |init| ==> rs[i] == init[i];
      }
    }
  }

  /******* What a reconcile may do, in terms of the history *******/

  /** A Job that a reconcile of `w` may create: scheduled and due, or for the requested revision. */
  predicate MayCreate(w: World, x: Created, cron: Cron, now: Time) {
    && (Unsettled(w) ==> JobFinished(LastJob(w)))
    && if x.name.ForSchedule? then x.name.at == now && FallbackDue(cron, w.mirror, now) && !Unobserved(w.mirror)
       else x.revision == w.mirror.status.lastRequestedRevision
  }

  ghost predicate Effect(w: World, w': World, cron: Cron, now: Time) {
    var c, c', st, st' := w.history.created, w'.history.created, w.mirror.status, w'.mirror.status;
    && w'.mirror.schedule == w.mirror.schedule
    && w'.history.clock == now
    && st'.lastRequestedRevision == st.lastRequestedRevision
    && (|| (&& c' == c
            && st'.lastTriggeredAt == st.lastTriggeredAt
            && (st'.pendingResync == st.pendingResync || FallbackDue(cron, w.mirror, now)))
        || (exists x :: c' == c + [x] && MayCreate(w, x, cron, now)
                        && st'.lastTriggeredAt == Some(now) && !st'.pendingResync))
  }

  lemma LaunchEffect(w: World, w1: World, cron: Cron, name: JobName, revision: string, now: Time)
    requires w1.history.created == w.history.created && w1.history.clock == now && name !in w1.jobs
    requires w1.mirror.schedule == w.mirror.schedule
    requires w1.mirror.status.lastRequestedRevision == w.mirror.status.lastRequestedRevision
    requires MayCreate(w, Created(name, w1.mirror.generation, revision), cron, now)
    ensures Effect(w, Launch(w1, name, revision, now), cron, now)
  {}

  lemma FinishedEffect(w: World, cron: Cron, now: Time)
    requires Shape(w) && now > w.history.clock && Unsettled(w) && JobFinished(LastJob(w))
    ensures Effect(w, ReconcileResult(w, cron, now), cron, now)
  {
    NewNames(w, now);
    FreshNotStored(w, ForResync(now));
    FreshNotStored(w, ForSchedule(now));
    assert JobRecorded(w, w.mirror.status.lastJobName.value);
    var w1 := Settle(Tick(w, now), now);
    if w.mirror.status.pendingResync {
      LaunchEffect(w, w1, cron, ForResync(now), w.mirror.status.lastRequestedRevision, now);
    } else if FallbackDue(cron, w.mirror, now) {
      LaunchEffect(w, w1.(mirror := WebhookState(w1.mirror, "scheduled", now, false)), cron, ForSchedule(now), "", now);
    }
  }

  lemma ReconcileEffect(w: World, cron: Cron, now: Time)
    requires Shape(w) && now > w.history.clock
    ensures Effect(w, ReconcileResult(w, cron, now), cron, now)
  {
    var w0, st := Tick(w, now), w.mirror.status;
    if Unsettled(w) {
      assert JobRecorded(w, st.lastJobName.value);
      if JobFinished(LastJob(w)) {
        FinishedEffect(w, cron, now);
      }
    } else {
      NewNames(w, now);
      if Unobserved(w.mirror) {
        FreshNotStored(w, ForGeneration(w.mirror.generation));
        LaunchEffect(w, w0, cron, ForGeneration(w.mirror.generation), st.lastRequestedRevision, now);
      } else if st.pendingResync {
        FreshNotStored(w, PendingTrigger(st, now));
        LaunchEffect(w, w0, cron, PendingTrigger(st, now), st.lastRequestedRevision, now);
      } else if FallbackDue(cron, w.mirror, now) {
        FreshNotStored(w, ForSchedule(now));
        var w1 := w0.(mirror := WebhookState(w0.mirror, "scheduled", now, false));
        LaunchEffect(w, w1, cron, ForSchedule(now), "", now);
      }
    }
  }

  /**
   A reconcile creates at most one Job, and none while a Job of its generation is active; the
   Job is a due scheduled sync, or carries the requested revision.
   */
  lemma CreatesOnlyWhenIdle(w: World, order: seq<JobName>, cron: Cron, now: Time)
    requires Inv(w) && Enabled(w, ReconcileStep(order, now))
    ensures var c, c' := w.history.created, Reconcile(w, order, cron, now).history.created;
            c' == c || exists x :: c' == c + [x] && MayCreate(w, x, cron, now) && forall n :: !ActiveNow(w, n)
  {
    ReconcileIsResult(w, order, cron, now);
    ReconcileEffect(w, cron, now);
  }
}
