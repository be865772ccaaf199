/**
 What every state of a failure-free run satisfies, and the closed form of Reconcile in such
 a state.

 The closed form (`ReconcileResult`) is the reference the four phases of Reconcile are
 proved equal to: it names the one Job that can matter, and does not mention the order in
 which the API server lists Jobs.
 */
module Invariants {
  import opened Base
  import opened GitMirrorStatus
  import opened Scheduling

  /** A Job annotated with the stored generation. */
  predicate Current(w: World, n: JobName) {
    n in w.jobs && w.jobs[n].annotation == At(w.mirror.generation)
  }

  predicate ActiveNow(w: World, n: JobName) {
    Current(w, n) && JobActive(w.jobs[n])
  }

  predicate WasCreated(h: History, n: JobName) {
    exists i :: 0 <= i < |h.created| && h.created[i].name == n
  }

  function LastCreated(h: History): Option<JobName> {
    if h.created == [] then None else Some(h.created[|h.created| - 1].name)
  }

  /** The last Job is of this generation and still running, or finished and not yet reflected. */
  predicate Unsettled(w: World) {
    var st := w.mirror.status;
    && st.lastJobName.Some?
    && Current(w, st.lastJobName.value)
    && (JobActive(w.jobs[st.lastJobName.value]) || st.lastCompletedJobName != st.lastJobName)
  }

  /******* Invariants *******/

  predicate JobRecorded(w: World, n: JobName)
    requires n in w.jobs
  {
    var j, c := w.jobs[n], w.history.created;
    && j.name == n
    && !j.deleting
    && j.serial < |c|
    && c[j.serial].name == n
    && j.annotation == At(c[j.serial].generation)
    && j.revision == c[j.serial].revision
  }

  /** Timed names are in the past, a generation's own name marks it observed. */
  predicate NameSpent(w: World, n: JobName) {
    match n
    case ForGeneration(k) =>
      k <= w.mirror.generation && (k == w.mirror.generation ==> !Unobserved(w.mirror))
    case ForDelivery(_) => true
    case ForResync(t) => t <= w.history.clock
    case ForSchedule(t) => t <= w.history.clock
  }

  predicate Distinct(c: seq<Created>) {
    forall i, j :: 0 <= i < j < |c| ==> c[i].name != c[j].name
  }

  predicate CreatedOk(w: World) {
    var c, m := w.history.created, w.mirror;
    && Distinct(c)
    && (forall i :: 0 <= i < |c| ==>
          && NameSpent(w, c[i].name)
          && c[i].generation <= m.generation
          && (c[i].generation == m.generation ==> !Unobserved(m)))
  }

  /** Mutual exclusion: any other Job of this generation is finished; an active one holds the lease. */
  ghost predicate Exclusive(w: World) {
    var last := w.mirror.status.lastJobName;
    && (forall n :: Current(w, n) ==>
          last.Some? && Current(w, last.value) && (n != last.value ==> JobFinished(w.jobs[n])))
    && (last.Some? && ActiveNow(w, last.value) ==> w.lease == Held(last))
  }

  ghost predicate Shape(w: World) {
    var m, c := w.mirror, w.history.created;
    && (forall n :: n in w.jobs ==> JobRecorded(w, n))
    && CreatedOk(w)
    && m.status.lastJobName == LastCreated(w.history)
    && m.status.observedGeneration <= m.generation
    && (!Unobserved(m) ==> c != [] && c[|c| - 1].generation == m.generation)
    && Exclusive(w)
    && (m.status.pendingResync ==>
          || Unsettled(w)
          || Unobserved(m)
          || m.status.lastDeliveryID == ""
          || !WasCreated(w.history, ForDelivery(m.status.lastDeliveryID)))
  }

  /** The revision of the latest reflected success that carried one. */
  function LatestMirrored(rs: seq<Reflection>): string {
    if rs == [] then ""
    else
      var last := rs[|rs| - 1];
      if last.Succeeded() && last.revision != "" then last.revision else LatestMirrored(rs[..|rs| - 1])
  }

  predicate Increasing(rs: seq<Reflection>) {
    forall i, j :: 0 <= i < j < |rs| ==> rs[i].serial < rs[j].serial
  }

  predicate Recorded(rs: seq<Reflection>, c: seq<Created>) {
    forall i :: 0 <= i < |rs| ==> rs[i].serial < |c| && rs[i].revision == c[rs[i].serial].revision
  }

  /** When the latest reflected success, or failure, was reflected. */
  function LatestTime(rs: seq<Reflection>, success: bool): Option<Time> {
    if rs == [] then None
    else
      var last := rs[|rs| - 1];
      if last.Succeeded() == success then Some(last.at) else LatestTime(rs[..|rs| - 1], success)
  }

  /** Ready and LastError tell how the newest reflected Job ended, the two times when each outcome was last seen. */
  predicate OutcomeShown(rs: seq<Reflection>, c: seq<Created>, st: Status) {
    && st.lastSuccessAt == LatestTime(rs, true)
    && st.lastFailureAt == LatestTime(rs, false)
    && (READY in st.conditions <==> rs != [])
    && (rs != [] && rs[|rs| - 1].serial < |c| ==>
          var last := rs[|rs| - 1];
          && last.phase != Running
          && st.conditions[READY].status == last.Succeeded()
          && st.conditions[READY].generation == c[last.serial].generation
          && (last.phase.Failed? ==> Tells(st.lastError, last.phase.reason, last.phase.message)))
  }

  /** Reflections follow the order of creation, and status shows the latest of them. */
  predicate Ordered(w: World) {
    var rs, c, st := w.history.reflected, w.history.created, w.mirror.status;
    && Increasing(rs)
    && Recorded(rs, c)
    && st.lastCompletedJobName == (if rs == [] then None else Some(c[rs[|rs| - 1].serial].name))
    && st.lastMirroredRevision == LatestMirrored(rs)
    && OutcomeShown(rs, c, st)
    && (st.lastError == "" <==> rs == [] || rs[|rs| - 1].Succeeded())
    && (st.lastJobName.Some? && st.lastJobName.value in w.jobs && w.jobs[st.lastJobName.value].phase == Running ==>
          st.lastCompletedJobName != st.lastJobName)
    && (!Unobserved(w.mirror) && st.lastJobName.Some? && st.lastJobName.value !in w.jobs ==>
          st.lastCompletedJobName == st.lastJobName)
  }

  /** Of the current generation only the last Job can be newer than the newest reflection. */
  predicate OthersReflected(w: World) {
    var rs := w.history.reflected;
    forall n :: n in w.jobs && Current(w, n) && w.mirror.status.lastJobName != Some(n) ==>
      rs != [] && w.jobs[n].serial <= rs[|rs| - 1].serial
  }

  /** The first Job created after the last accepted push carries the requested revision. */
  predicate PushRecorded(w: World) {
    var h := w.history;
    h.pushMark.Some? ==>
      && h.pushMark.value <= |h.created|
      && (h.pushMark.value < |h.created| ==>
            h.created[h.pushMark.value].revision == w.mirror.status.lastRequestedRevision)
  }

  /** No Job has been created since the last accepted push. */
  predicate Unserved(h: History) {
    h.pushMark == Some(|h.created|)
  }

  /** The last accepted push is pending until a Job for it is created. */
  predicate PushCovered(w: World) {
    PushRecorded(w) && (Unserved(w.history) ==> w.mirror.status.pendingResync)
  }

  /** The SyncPending condition tells the truth about PendingResync. */
  predicate PendingShown(m: Mirror) {
    var c := m.status.conditions;
    m.status.pendingResync <==> SYNC_PENDING in c && c[SYNC_PENDING].status
  }

  /** Reflections follow the clock. */
  predicate Dated(h: History) {
    && (forall i, j :: 0 <= i < j < |h.reflected| ==> h.reflected[i].at <= h.reflected[j].at)
    && (forall i :: 0 <= i < |h.reflected| ==> h.reflected[i].at <= h.clock)
  }

  predicate Timed(w: World) {
    var st := w.mirror.status;
    && (st.lastTriggeredAt.Some? ==> st.lastTriggeredAt.value <= w.history.clock)
    && (st.lastTriggeredAt.None? ==> w.history.created == [])
    && Dated(w.history)
  }

  /** The lease is held by the last Job until that is reflected, and by no one else. */
  predicate LeaseShown(w: World) {
    var st := w.mirror.status;
    w.lease != NoLease ==>
      w.lease == Held(st.lastJobName) && st.lastJobName.Some? && st.lastCompletedJobName != st.lastJobName
  }

  ghost predicate Inv(w: World) {
    && Shape(w) && Ordered(w) && OthersReflected(w) && PushCovered(w) && PendingShown(w.mirror) && Timed(w)
    && LeaseShown(w)
  }

  lemma InitialInv(schedule: string, clock: Time)
    ensures Inv(Initial(schedule, clock))
  {}

  /******* The operations Reconcile is made of *******/

  function Tick(w: World, now: Time): World {
    w.(history := w.history.(clock := now))
  }

  function LastJob(w: World): Job
    requires Unsettled(w)
  {
    w.jobs[w.mirror.status.lastJobName.value]
  }

  function Settle(w: World, now: Time): World
    requires Unsettled(w)
  {
    Release(Reflect(w, LastJob(w), now), LastJob(w).name)
  }

  function Launch(w: World, name: JobName, revision: string, now: Time): World {
    var g := w.mirror.generation;
    Schedule(CreateJob(w.(lease := Held(Some(name))), g, name, revision), name, g, now)
  }

  function Coalesce(w: World, now: Time): World {
    w.(mirror := WebhookState(w.mirror, "scheduled", now, true))
  }

  function LaunchScheduled(w: World, now: Time): World {
    Launch(w.(mirror := WebhookState(w.mirror, "scheduled", now, false)), ForSchedule(now), "", now)
  }

  function ReconcileResult(w: World, cron: Cron, now: Time): World {
    var w0, st := Tick(w, now), w.mirror.status;
    var due := FallbackDue(cron, w.mirror, now);
    if Unsettled(w) then
      if JobActive(LastJob(w)) then
        if due then Coalesce(w0, now) else w0
      else
        var w1 := Settle(w0, now);
        if st.pendingResync then Launch(w1, ForResync(now), st.lastRequestedRevision, now)
        else if due then LaunchScheduled(w1, now) else w1
    else if Unobserved(w.mirror) then
      Launch(w0, ForGeneration(w.mirror.generation), st.lastRequestedRevision, now)
    else if st.pendingResync then
      Launch(w0, PendingTrigger(st, now), st.lastRequestedRevision, now)
    else if due then LaunchScheduled(w0, now) else w0
  }

  /******* The phases compute the closed form *******/

  lemma {:induction false} AllSkipped(w: World, snap: Mirror, items: seq<Job>, i: nat, now: Time)
    requires i <= |items|
    requires forall k :: i <= k < |items| ==> Skips(snap, items, items[k])
    ensures CompletedJobs(w, snap, items, i, now) == (false, w)
    decreases |items| - i
  {
    if i < |items| {
      AllSkipped(w, snap, items, i + 1, now);
    }
  }

  lemma {:induction false} OneCompleted(w: World, snap: Mirror, items: seq<Job>, i: nat, p: nat, now: Time)
    requires i <= p < |items|
    requires forall k :: i <= k < |items| ==> (Skips(snap, items, items[k]) <==> k != p)
    ensures CompletedJobs(w, snap, items, i, now) == CompleteOne(w, snap, items[p], now)
    decreases p - i
  {
    if i < p {
      OneCompleted(w, snap, items, i + 1, p, now);
    } else {
      var (stop, w1) := CompleteOne(w, snap, items[p], now);
      if !stop {
        AllSkipped(w1, snap, items, p + 1, now);
      }
    }
  }

  /** The current-generation list, whatever its order, holds exactly the current Jobs once each. */
  lemma CurrentItems(w: World, order: seq<JobName>)
    requires Shape(w) && IsListing(order, w.jobs)
    ensures var items := JobsForGeneration(Listed(order, w.jobs), w.mirror.generation);
            && NamesDistinct(items)
            && (forall k :: 0 <= k < |items| ==> Current(w, items[k].name) && items[k] == w.jobs[items[k].name])
            && (forall n :: Current(w, n) ==> JobNameExists(items, n))
  {
    var all, g := Listed(order, w.jobs), w.mirror.generation;
    var items := JobsForGeneration(all, g);
    assert NamesDistinct(all) by {
      forall i, j | 0 <= i < j < |all| ensures all[i].name != all[j].name {
        assert JobRecorded(w, order[i]) && JobRecorded(w, order[j]);
      }
    }
    FilterDistinct(all, g);
    assert forall n :: n in w.jobs ==> JobRecorded(w, n);
    ListedItems(w.jobs, order, g, items);
    forall k | 0 <= k < |items| ensures Current(w, items[k].name) && items[k] == w.jobs[items[k].name] {
      assert JobRecorded(w, items[k].name);
    }
    forall n | Current(w, n) ensures JobNameExists(items, n) {
      assert w.jobs[n] in items;
    }
  }

  /** In a non-empty current list the last Job occurs, and every other item is passed over. */
  lemma LastItem(w: World, items: seq<Job>) returns (p: nat)
    requires Shape(w) && items != [] && NamesDistinct(items)
    requires forall k :: 0 <= k < |items| ==> Current(w, items[k].name) && items[k] == w.jobs[items[k].name]
    requires forall n :: Current(w, n) ==> JobNameExists(items, n)
    ensures p < |items| && w.mirror.status.lastJobName == Some(items[p].name)
    ensures forall k :: 0 <= k < |items| && k != p ==> Skips(w.mirror, items, items[k]) && !JobActive(items[k])
  {
    assert Current(w, items[0].name);
    var last := w.mirror.status.lastJobName.value;
    assert JobNameExists(items, last);
    p :| 0 <= p < |items| && items[p].name == last;
    forall k | 0 <= k < |items| && k != p
      ensures Skips(w.mirror, items, items[k]) && !JobActive(items[k])
    {
      assert items[k].name != last;
    }
  }

  /** The completed-Jobs loop acts on the last Job if it is finished and unreflected, else on none. */
  lemma CompletedLoop(w: World, order: seq<JobName>, now: Time)
    requires Shape(w) && IsListing(order, w.jobs)
    ensures var items := JobsForGeneration(Listed(order, w.jobs), w.mirror.generation);
            && ActiveJobExists(items) == (Unsettled(w) && JobActive(LastJob(w)))
            && CompletedJobs(Tick(w, now), w.mirror, items, 0, now) ==
               if Unsettled(w) && JobFinished(LastJob(w)) then CompleteOne(Tick(w, now), w.mirror, LastJob(w), now)
               else (false, Tick(w, now))
  {
    CurrentItems(w, order);
    var items := JobsForGeneration(Listed(order, w.jobs), w.mirror.generation);
    if items == [] {
      AllSkipped(Tick(w, now), w.mirror, items, 0, now);
    } else {
      var p := LastItem(w, items);
      assert JobRecorded(w, items[p].name);
      if Unsettled(w) && JobFinished(LastJob(w)) {
        OneCompleted(Tick(w, now), w.mirror, items, 0, p, now);
      } else {
        AllSkipped(Tick(w, now), w.mirror, items, 0, now);
      }
    }
  }

  /** With no active current Job left, the lease can always be taken. */
  lemma LockFree(w: World, holder: JobName)
    requires Shape(w)
    requires Unsettled(w) ==> JobFinished(LastJob(w))
    ensures Takeable(w.lease, w.jobs, w.mirror.generation, holder)
  {}

  /** A freshly launched Job keeps everyone else away from the lease. */
  lemma LockTaken(w: World, name: JobName, revision: string, now: Time, rival: JobName)
    requires name !in w.jobs && rival != name
    ensures var w1 := Launch(w, name, revision, now);
            !Takeable(w1.lease, w1.jobs, w1.mirror.generation, rival)
  {}

  predicate Fresh(w: World, n: JobName) {
    !WasCreated(w.history, n)
  }

  lemma FreshNotStored(w: World, n: JobName)
    requires Shape(w) && Fresh(w, n)
    ensures n !in w.jobs
  {}

  /** Names built from the clock or from an unobserved generation have never been used. */
  lemma NewNames(w: World, now: Time)
    requires Shape(w) && now > w.history.clock
    ensures Fresh(w, ForResync(now)) && Fresh(w, ForSchedule(now))
    ensures Unobserved(w.mirror) ==> Fresh(w, ForGeneration(w.mirror.generation))
    ensures w.mirror.status.pendingResync && !Unsettled(w) && !Unobserved(w.mirror) ==>
              Fresh(w, PendingTrigger(w.mirror.status, now))
  {}

  /** After a settled last Job nothing of this generation is active, and the lease is free to take. */
  lemma SettledLock(w: World, now: Time, holder: JobName)
    requires Shape(w) && Unsettled(w) && JobFinished(LastJob(w))
    ensures var w1 := Settle(w, now);
            Takeable(w1.lease, w1.jobs, w1.mirror.generation, holder)
  {
    LockFree(w, holder);
    assert JobRecorded(w, w.mirror.status.lastJobName.value);
  }

  /** The finished last Job: reflect it, then follow up, or fall back to the schedule. */
  lemma FollowUpCase(w: World, cron: Cron, now: Time)
    requires Shape(w) && now > w.history.clock && Unsettled(w) && JobFinished(LastJob(w))
    requires w.mirror.status.pendingResync
    ensures var (stop, w1) := CompleteOne(Tick(w, now), w.mirror, LastJob(w), now);
            !stop && AfterCompleted(w1, w.mirror, false, cron, now) == ReconcileResult(w, cron, now)
  {
    assert JobRecorded(w, w.mirror.status.lastJobName.value);
    var w1, revision := Settle(Tick(w, now), now), w.mirror.status.lastRequestedRevision;
    NewNames(w, now);
    SettledLock(w, now, ForResync(now));
    FreshNotStored(w, ForResync(now));
    var w2 := Launch(w1, ForResync(now), revision, now);
    LockTaken(w1, ForResync(now), revision, now, ForSchedule(now));
    assert CompleteOne(Tick(w, now), w.mirror, LastJob(w), now) == (false, w2);
    assert AfterCompleted(w2, w.mirror, false, cron, now) == w2;
  }

  lemma FinishedCase(w: World, cron: Cron, now: Time)
    requires Shape(w) && now > w.history.clock && Unsettled(w) && JobFinished(LastJob(w))
    ensures var (stop, w1) := CompleteOne(Tick(w, now), w.mirror, LastJob(w), now);
            !stop && AfterCompleted(w1, w.mirror, false, cron, now) == ReconcileResult(w, cron, now)
  {
    if w.mirror.status.pendingResync {
      FollowUpCase(w, cron, now);
    } else {
      assert JobRecorded(w, w.mirror.status.lastJobName.value);
      SettledLock(w, now, ForSchedule(now));
      assert CompleteOne(Tick(w, now), w.mirror, LastJob(w), now) == (false, Settle(Tick(w, now), now));
    }
  }

  /** No completion to reflect: an active Job, a new generation, a pending push, or the schedule. */
  lemma OtherCase(w: World, cron: Cron, now: Time)
    requires Shape(w) && now > w.history.clock
    requires Unsettled(w) ==> JobActive(LastJob(w))
    ensures AfterCompleted(Tick(w, now), w.mirror, Unsettled(w), cron, now) == ReconcileResult(w, cron, now)
  {
    var w0 := Tick(w, now);
    if Unsettled(w) {
    } else if Unobserved(w.mirror) {
      LockFree(w, ForGeneration(w.mirror.generation));
    } else if w.mirror.status.pendingResync {
      NewNames(w, now);
      var name, revision := PendingTrigger(w.mirror.status, now), w.mirror.status.lastRequestedRevision;
      LockFree(w, name);
      FreshNotStored(w, name);
      LockTaken(w0, name, revision, now, ForSchedule(now));
    } else {
      LockFree(w, ForSchedule(now));
    }
  }

  /** Reconcile equals its closed form in every state of the invariant, for every listing order. */
  lemma ReconcileIsResult(w: World, order: seq<JobName>, cron: Cron, now: Time)
    requires Shape(w) && IsListing(order, w.jobs) && now > w.history.clock
    ensures Reconcile(w, order, cron, now) == ReconcileResult(w, cron, now)
  {
    CompletedLoop(w, order, now);
    if Unsettled(w) {
      assert JobRecorded(w, w.mirror.status.lastJobName.value);
      if JobFinished(LastJob(w)) {
        FinishedCase(w, cron, now);
      } else {
        OtherCase(w, cron, now);
      }
    } else {
      OtherCase(w, cron, now);
    }
  }
}
