/**
 The reconciler of internal/controller/gitmirror_controller.go and the push handler of
 internal/webhook/server.go, working on the cluster call by call.

 `Cluster` holds what the API server stores.  Reads hand out a fresh in-memory GitMirror,
 transitions overwrite that copy, and the merge patch writes the difference back; with no
 other writer in between this stores the copy, as `PatchIsMerge` says.  Each method is
 specified by the function of `Scheduling` that gives its meaning.
 */
module Controller {
  import opened Base
  import opened GitMirrorStatus
  import opened Scheduling
  import StatusPatch

  /******* Filters *******/

  method FilterGeneration(items: seq<Job>, generation: int) returns (current: seq<Job>)
    ensures current == JobsForGeneration(items, generation)
    ensures forall j :: j in current <==> j in items && (j.annotation == Absent || j.annotation == At(generation))
  {
    current := [];
    for i := 0 to |items|
      invariant current == JobsForGeneration(items[..i], generation)
    {
      assert items[..i + 1][..i] == items[..i];
      if GenerationMatches(items[i], generation) {
        current := current + [items[i]];
      }
    }
    assert items[..|items|] == items;
    FilterMembers(items, generation);
  }

  method AnyActive(items: seq<Job>) returns (active: bool)
    ensures active == ActiveJobExists(items)
    ensures active <==> exists k :: 0 <= k < |items| && items[k].phase == Running && !items[k].deleting
  {
    for i := 0 to |items|
      invariant forall k :: 0 <= k < i ==> !JobActive(items[k])
    {
      if JobActive(items[i]) {
        return true;
      }
    }
    return false;
  }

  method NameExists(items: seq<Job>, name: JobName) returns (found: bool)
    ensures found == JobNameExists(items, name)
  {
    for i := 0 to |items|
      invariant forall k :: 0 <= k < i ==> items[k].name != name
    {
      if items[i].name == name {
        return true;
      }
    }
    return false;
  }

  /******* The cluster *******/

  class Cluster {
    var mirror: Mirror
    var jobs: map<JobName, Job>
    var lease: Lease
    /** A recorder: written beside the effects, read by no decision. */
    var history: History

    function View(): World
      reads this
    {
      World(mirror, jobs, lease, history)
    }

    constructor (schedule: string, clock: Time)
      ensures View() == Initial(schedule, clock)
    {
      mirror, jobs, lease := Mirror(1, schedule, EMPTY_STATUS), map[], NoLease;
      history := History([], [], None, clock);
    }

    method Get() returns (copy: GitMirror)
      ensures fresh(copy) && copy.Value() == mirror
    {
      copy := new GitMirror(mirror);
    }

    /** Sends the merge patch that turns `base` into the copy's status. */
    method PatchStatus(base: Status, copy: GitMirror)
      modifies this`mirror
      ensures mirror == old(mirror).(status := StatusPatch.Merge(base, copy.status, old(mirror.status)))
    {
      mirror := mirror.(status := StatusPatch.Patched(base, copy.status, mirror.status));
      StatusPatch.PatchIsMerge(base, copy.status, old(mirror.status));
    }

    /******* Lease and Jobs *******/

    /** Creates the lease, or takes it over from a holder that is not active in this generation. */
    method AcquireSyncLease(generation: int, holder: JobName, r: Replies) returns (verdict: Verdict)
      modifies this`lease
      ensures (verdict, View()) == AcquireWith(old(View()), generation, holder, r)
      ensures lease == if verdict == Acquired then Held(Some(holder)) else old(lease)
      ensures r == SMOOTH ==>
                && verdict != Errored
                && (verdict == Refused <==>
                      && old(lease).Held? && old(lease).holder.Some? && old(lease).holder.value != holder
                      && old(lease).holder.value in jobs
                      && var job := jobs[old(lease).holder.value];
                      && job.phase == Running && !job.deleting
                      && (job.annotation == Absent || job.annotation == At(generation)))
      ensures verdict == Errored <==>
                || r.leaseCreateFails
                || (old(lease) != NoLease
                    && (|| r.leaseGetFails
                        || (old(lease).holder.Some? && old(lease).holder.value != holder && r.holderGetFails)
                        || (r.update == UpdateFailed && Takeable(old(lease), jobs, generation, holder))))
    {
      if r.leaseCreateFails {
        return Errored;
      }
      if lease == NoLease {
        lease := Held(Some(holder));
        return Acquired;
      }
      if r.leaseGetFails {
        return Errored;
      }
      var currentHolder := lease.holder;
      if currentHolder.Some? && currentHolder.value != holder {
        if r.holderGetFails {
          return Errored;
        }
        var active := JobNameActiveForGeneration(currentHolder.value, generation);
        if active {
          return Refused;
        }
      }
      match r.update {
        case Updated =>
          lease := Held(Some(holder));
          return Acquired;
        case Conflicted =>
          return Refused;
        case UpdateFailed =>
          return Errored;
      }
    }

    method JobNameActiveForGeneration(name: JobName, generation: int) returns (active: bool)
      ensures active == ActiveForGeneration(jobs, name, generation)
      ensures active <==>
                && name in jobs && jobs[name].phase == Running && !jobs[name].deleting
                && (jobs[name].annotation == Absent || jobs[name].annotation == At(generation))
    {
      if name !in jobs {
        return false;
      }
      return JobActive(jobs[name]) && GenerationMatches(jobs[name], generation);
    }

    method ReleaseSyncLease(holder: JobName)
      modifies this`lease
      ensures View() == Release(old(View()), holder)
      ensures lease == if old(lease) == Held(Some(holder)) then NoLease else old(lease)
    {
      if lease == NoLease {
        return;
      }
      if lease.holder != Some(holder) {
        return;
      }
      lease := NoLease;
    }

    /** Creates the Job under the lease; a create that reports an error gives the lease back. */
    method CreateLockedSyncJob(generation: int, name: JobName, revision: string, r: Replies)
      returns (verdict: Verdict)
      modifies this`lease, this`jobs, this`history
      ensures (verdict, View()) == CreateLockedWith(old(View()), generation, name, revision, r)
      ensures verdict == Acquired ==> lease == Held(Some(name)) && name in jobs
      ensures forall n :: n in old(jobs) ==> n in jobs && jobs[n] == old(jobs)[n]
      ensures forall n :: n in jobs && n !in old(jobs) ==>
                n == name && jobs[n] == Job(name, At(generation), revision, Running, false, |old(history).created|)
      ensures verdict == Refused ==> View() == old(View())
    {
      verdict := AcquireSyncLease(generation, name, r);
      if verdict != Acquired {
        return;
      }
      if name !in jobs && r.create != Rejected {
        jobs := jobs[name := Job(name, At(generation), revision, Running, false, |history.created|)];
        history := history.(created := history.created + [Created(name, generation, revision)]);
      }
      if r.create != Stored {
        if !r.releaseFails {
          ReleaseSyncLease(name);
        }
        return Errored;
      }
    }

    method PatchScheduled(name: JobName, generation: int, now: Time)
      modifies this`mirror
      ensures View() == Schedule(old(View()), name, generation, now)
    {
      var current := Get();
      var base := current.status;
      var _ := current.ApplySyncScheduledForGeneration(name, generation, now);
      PatchStatus(base, current);
    }

    /******* The phases of Reconcile *******/

    method PatchCompleted(job: Job, now: Time) returns (followup: bool, revision: string)
      modifies this`mirror, this`history
      ensures View() == Reflect(old(View()), job, now)
      ensures followup == Reflected(old(mirror), job, now).1
      ensures followup ==> revision == old(mirror.status.lastRequestedRevision)
    {
      followup, revision := false, "";
      var current := Get();
      var base := current.status;
      if current.status.lastCompletedJobName != Some(job.name) {
        match job.annotation {
          case Absent =>
            followup := current.ApplyCompletedLegacyJobStatus(job, now);
            revision := current.status.lastRequestedRevision;
          case Malformed =>
          case At(g) =>
            followup := current.ApplyCompletedJobStatusForGeneration(job, g, now);
            revision := current.status.lastRequestedRevision;
        }
      }
      if Reflects(mirror, job) {
        history := history.(reflected := history.reflected
                                         + [Reflection(job.serial, job.phase, job.revision, now)]);
      }
      PatchStatus(base, current);
    }

    method ReconcileCompletedJobs(snap: Mirror, items: seq<Job>, now: Time) returns (handled: bool)
      modifies this`mirror, this`lease, this`jobs, this`history
      ensures (handled, View()) == CompletedJobs(old(View()), snap, items, 0, now)
    {
      for i := 0 to |items|
        invariant CompletedJobs(View(), snap, items, i, now) == CompletedJobs(old(View()), snap, items, 0, now)
      {
        var job := items[i];
        if !JobFinished(job) || snap.status.lastCompletedJobName == Some(job.name) {
          continue;
        }
        if snap.status.lastJobName.Some? && snap.status.lastJobName.value != job.name {
          var lastListed := NameExists(items, snap.status.lastJobName.value);
          if lastListed {
            continue;
          }
        }
        var followup, revision := PatchCompleted(job, now);
        ReleaseSyncLease(job.name);
        if followup {
          SmoothCreate(View(), snap.generation, ForResync(now), revision);
          var verdict := CreateLockedSyncJob(snap.generation, ForResync(now), revision, SMOOTH);
          if verdict != Acquired {
            return true;
          }
          PatchScheduled(ForResync(now), snap.generation, now);
        }
      }
      return false;
    }

    method ReconcileUnobservedGeneration(snap: Mirror, active: bool, now: Time) returns (handled: bool)
      modifies this`mirror, this`lease, this`jobs, this`history
      ensures (handled, View()) == UnobservedGeneration(old(View()), snap, active, now)
    {
      if snap.status.observedGeneration == snap.generation {
        return false;
      }
      if active {
        return false;
      }
      var current := Get();
      if current.status.observedGeneration == current.generation {
        return false;
      }
      var name := ForGeneration(current.generation);
      SmoothCreate(View(), current.generation, name, current.status.lastRequestedRevision);
      var verdict := CreateLockedSyncJob(current.generation, name, current.status.lastRequestedRevision, SMOOTH);
      if verdict == Acquired {
        PatchScheduled(name, current.generation, now);
      }
      return true;
    }

    method ReconcilePendingResync(snap: Mirror, active: bool, now: Time) returns (handled: bool)
      modifies this`mirror, this`lease, this`jobs, this`history
      ensures (handled, View()) == PendingResync(old(View()), snap, active, now)
    {
      if !snap.status.pendingResync || active {
        return false;
      }
      var current := Get();
      if !current.status.pendingResync {
        return false;
      }
      var name := PendingTrigger(current.status, now);
      SmoothCreate(View(), current.generation, name, current.status.lastRequestedRevision);
      var verdict := CreateLockedSyncJob(current.generation, name, current.status.lastRequestedRevision, SMOOTH);
      if verdict != Acquired {
        return true;
      }
      PatchScheduled(name, current.generation, now);
      return false;
    }

    method ReconcileFallback(snap: Mirror, active: bool, cron: Cron, now: Time)
      modifies this`mirror, this`lease, this`jobs, this`history
      ensures View() == Fallback(old(View()), snap, active, cron, now)
    {
      if snap.schedule == "" || !cron.parses(snap.schedule) {
        return;
      }
      if snap.status.lastTriggeredAt.Some? {
        var next := cron.next(snap.schedule, snap.status.lastTriggeredAt.value);
        if next.Some? && next.value > now {
          return;
        }
      }
      var created := false;
      if !active {
        SmoothCreate(View(), snap.generation, ForSchedule(now), "");
        var verdict := CreateLockedSyncJob(snap.generation, ForSchedule(now), "", SMOOTH);
        if verdict != Acquired {
          return;
        }
        created := true;
      }
      var current := Get();
      var base := current.status;
      var create := current.ApplyWebhookState("scheduled", now, active);
      if create && created {
        var _ := current.ApplySyncScheduledForGeneration(ForSchedule(now), snap.generation, now);
      }
      PatchStatus(base, current);
    }

    /** One failure-free reconcile; `order` is the order in which the Jobs happen to be listed. */
    method Reconcile(order: seq<JobName>, cron: Cron, now: Time)
      requires IsListing(order, jobs)
      modifies this
      ensures View() == Scheduling.Reconcile(old(View()), order, cron, now)
    {
      history := history.(clock := now);
      var snap := mirror;
      var items := FilterGeneration(Listed(order, jobs), snap.generation);
      var handled := ReconcileCompletedJobs(snap, items, now);
      if handled {
        return;
      }
      var active := AnyActive(items);
      handled := ReconcileUnobservedGeneration(snap, active, now);
      if handled {
        return;
      }
      handled := ReconcilePendingResync(snap, active, now);
      if handled {
        return;
      }
      ReconcileFallback(snap, active, cron, now);
    }

    /******* The push handler *******/

    /** A verified push: a repeat of the last delivery is dropped, anything else recorded. */
    method HandlePush(deliveryID: string, revision: string, now: Time) returns (queued: bool)
      modifies this`mirror, this`history
      ensures queued == (old(mirror.status.lastDeliveryID) != deliveryID)
      ensures if !queued then View() == old(View())
              else
                && mirror.status.lastDeliveryID == deliveryID && mirror.status.lastWebhookAt == Some(now)
                && mirror.status.pendingResync
                && mirror.status.lastRequestedRevision ==
                   (if revision == "" then old(mirror.status.lastRequestedRevision) else revision)
                && history.created == old(history).created && history.pushMark == Some(|old(history).created|)
      ensures View() == Push(old(View()), deliveryID, revision, now)
    {
      if mirror.status.lastDeliveryID == deliveryID {
        return false;
      }
      var current := Get();
      var base := current.status;
      current.ApplyWebhookIntent(deliveryID, revision, now);
      PatchStatus(base, current);
      history := history.(pushMark := Some(|history.created|));
      return true;
    }
  }
}
