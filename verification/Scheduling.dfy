/**
 The cluster state the reconciler works on and the meaning of its phases, with Reconcile as
 one failure-free step (internal/controller/gitmirror_controller.go).

 `World` holds the stored GitMirror, the Jobs, the sync Lease, and a history that no code
 reads: the Jobs in order of creation, the completions in order of reflection, the number
 of Jobs that existed at the last accepted push, and the time of the last reconcile.
 */
module Scheduling {
  import opened Base
  import opened GitMirrorStatus

  datatype Lease = NoLease | Held(holder: Option<JobName>)

  datatype Created = Created(name: JobName, generation: int, revision: string)

  /** A completion as it was reflected: which Job in order of creation, how it ended, and when. */
  datatype Reflection = Reflection(serial: nat, phase: Phase, revision: string, at: Time) {
    predicate Succeeded() { phase == Complete }
  }

  datatype History = History(
    created: seq<Created>,
    reflected: seq<Reflection>,
    pushMark: Option<nat>,
    clock: Time)

  datatype World = World(mirror: Mirror, jobs: map<JobName, Job>, lease: Lease, history: History)

  /** cron.ParseStandard and Schedule.Next; no next time is None, the library's zero time. */
  datatype Cron = Cron(parses: string -> bool, next: (string, Time) -> Option<Time>)

  /******* Listing and filters *******/

  /** `order` lists every Job exactly once, in any order. */
  predicate IsListing(order: seq<JobName>, jobs: map<JobName, Job>) {
    && (forall i :: 0 <= i < |order| ==> order[i] in jobs)
    && (forall n :: n in jobs ==> n in order)
    && (forall i, j :: 0 <= i < j < |order| ==> order[i] != order[j])
  }

  function Listed(order: seq<JobName>, jobs: map<JobName, Job>): (items: seq<Job>)
    requires forall i :: 0 <= i < |order| ==> order[i] in jobs
    ensures |items| == |order|
    ensures forall i :: 0 <= i < |order| ==> items[i] == jobs[order[i]]
  {
    seq(|order|, i requires 0 <= i < |order| => jobs[order[i]])
  }

  function JobsForGeneration(items: seq<Job>, generation: int): seq<Job> {
    if items == [] then []
    else
      var rest := JobsForGeneration(items[..|items| - 1], generation);
      if GenerationMatches(items[|items| - 1], generation) then rest + [items[|items| - 1]] else rest
  }

  predicate ActiveJobExists(items: seq<Job>) {
    exists i :: 0 <= i < |items| && JobActive(items[i])
  }

  predicate JobNameExists(items: seq<Job>, name: JobName) {
    exists i :: 0 <= i < |items| && items[i].name == name
  }

  /******* The lease *******/

  predicate ActiveForGeneration(jobs: map<JobName, Job>, name: JobName, generation: int) {
    name in jobs && JobActive(jobs[name]) && GenerationMatches(jobs[name], generation)
  }

  /** The lease may be taken by `holder`: it is free, already its own, or its holder is stale. */
  predicate Takeable(lease: Lease, jobs: map<JobName, Job>, generation: int, holder: JobName) {
    match lease
    case NoLease => true
    case Held(None) => true
    case Held(Some(h)) => h == holder || !ActiveForGeneration(jobs, h, generation)
  }

  function Acquire(w: World, generation: int, holder: JobName): (bool, World) {
    if Takeable(w.lease, w.jobs, generation, holder) then (true, w.(lease := Held(Some(holder)))) else (false, w)
  }

  function Release(w: World, holder: JobName): World {
    if w.lease == Held(Some(holder)) then w.(lease := NoLease) else w
  }

  /** Creating a Job whose name is taken leaves everything as it is and counts as success. */
  function CreateJob(w: World, generation: int, name: JobName, revision: string): World {
    if name in w.jobs then w
    else
      w.(jobs := w.jobs[name := Job(name, At(generation), revision, Running, false, |w.history.created|)],
         history := w.history.(created := w.history.created + [Created(name, generation, revision)]))
  }

  function CreateLocked(w: World, generation: int, name: JobName, revision: string): (bool, World) {
    var (acquired, w1) := Acquire(w, generation, name);
    if acquired then (true, CreateJob(w1, generation, name, revision)) else (false, w1)
  }

  /******* The same calls with the answers the API server may give *******/

  datatype UpdateReply = Updated | Conflicted | UpdateFailed

  datatype CreateReply = Stored | Rejected | Unclear      // Unclear: stored, and reported as an error

  /** How each call of a locked creation is answered. */
  datatype Replies = Replies(
    leaseCreateFails: bool,
    leaseGetFails: bool,
    holderGetFails: bool,
    update: UpdateReply,
    create: CreateReply,
    releaseFails: bool)

  const SMOOTH := Replies(false, false, false, Updated, Stored, false)

  datatype Verdict = Acquired | Refused | Errored

  /** Any error ends the attempt; a conflict on update counts as a refusal. */
  function AcquireWith(w: World, generation: int, holder: JobName, r: Replies): (Verdict, World) {
    var taken := w.(lease := Held(Some(holder)));
    if r.leaseCreateFails then (Errored, w)
    else if w.lease == NoLease then (Acquired, taken)
    else if r.leaseGetFails then (Errored, w)
    else if w.lease.holder.Some? && w.lease.holder.value != holder && r.holderGetFails then (Errored, w)
    else if !Takeable(w.lease, w.jobs, generation, holder) then (Refused, w)
    else
      match r.update
      case Updated => (Acquired, taken)
      case Conflicted => (Refused, w)
      case UpdateFailed => (Errored, w)
  }

  /** A create that reports an error gives the lease back, if that call succeeds. */
  function CreateLockedWith(w: World, generation: int, name: JobName, revision: string, r: Replies): (Verdict, World) {
    var (verdict, w1) := AcquireWith(w, generation, name, r);
    if verdict != Acquired then (verdict, w1)
    else
      var w2 := if r.create == Rejected then w1 else CreateJob(w1, generation, name, revision);
      if r.create == Stored then (Acquired, w2)
      else (Errored, if r.releaseFails then w2 else Release(w2, name))
  }

  /** Answered smoothly, they are the calls the phases are made of. */
  lemma SmoothCreate(w: World, generation: int, name: JobName, revision: string)
    ensures AcquireWith(w, generation, name, SMOOTH) ==
            var (ok, w1) := Acquire(w, generation, name); (if ok then Acquired else Refused, w1)
    ensures CreateLockedWith(w, generation, name, revision, SMOOTH) ==
            var (ok, w1) := CreateLocked(w, generation, name, revision); (if ok then Acquired else Refused, w1)
  {}

  /******* Status patches *******/

  function Schedule(w: World, name: JobName, generation: int, now: Time): World {
    w.(mirror := SyncScheduledFor(w.mirror, name, generation, now))
  }

  /** True iff the completion patch of `job` writes the outcome into the stored status. */
  predicate Reflects(m: Mirror, job: Job) {
    && m.status.lastCompletedJobName != Some(job.name)
    && (job.annotation.Absent? || job.annotation == At(m.generation))
  }

  function Reflect(w: World, job: Job, now: Time): World {
    var (m, _) := Reflected(w.mirror, job, now);
    w.(mirror := m,
       history := if !Reflects(w.mirror, job) then w.history
                  else w.history.(reflected := w.history.reflected
                                               + [Reflection(job.serial, job.phase, job.revision, now)]))
  }

  /******* The phases of Reconcile *******/

  /** The loop over completed Jobs passes over `job`. */
  predicate Skips(snap: Mirror, items: seq<Job>, job: Job) {
    || !JobFinished(job)
    || snap.status.lastCompletedJobName == Some(job.name)
    || (&& snap.status.lastJobName.Some?
        && snap.status.lastJobName.value != job.name
        && JobNameExists(items, snap.status.lastJobName.value))
  }

  /** Reflection of one finished Job, release of its lease and the follow-up; true = stop. */
  function CompleteOne(w: World, snap: Mirror, job: Job, now: Time): (bool, World) {
    var (_, followup) := Reflected(w.mirror, job, now);
    var revision := w.mirror.status.lastRequestedRevision;
    var w1 := Release(Reflect(w, job, now), job.name);
    if !followup then (false, w1)
    else
      var (acquired, w2) := CreateLocked(w1, snap.generation, ForResync(now), revision);
      if !acquired then (true, w2) else (false, Schedule(w2, ForResync(now), snap.generation, now))
  }

  function CompletedJobs(w: World, snap: Mirror, items: seq<Job>, i: nat, now: Time): (bool, World)
    requires i <= |items|
    decreases |items| - i
  {
    if i == |items| then (false, w)
    else if Skips(snap, items, items[i]) then CompletedJobs(w, snap, items, i + 1, now)
    else
      var (stop, w1) := CompleteOne(w, snap, items[i], now);
      if stop then (true, w1) else CompletedJobs(w1, snap, items, i + 1, now)
  }

  predicate Unobserved(m: Mirror) {
    m.status.observedGeneration != m.generation
  }

  function UnobservedGeneration(w: World, snap: Mirror, active: bool, now: Time): (bool, World) {
    if !Unobserved(snap) || active || !Unobserved(w.mirror) then (false, w)
    else
      var g := w.mirror.generation;
      var (acquired, w1) := CreateLocked(w, g, ForGeneration(g), w.mirror.status.lastRequestedRevision);
      (true, if acquired then Schedule(w1, ForGeneration(g), g, now) else w1)
  }

  function PendingTrigger(st: Status, now: Time): JobName {
    if st.lastDeliveryID == "" then ForResync(now) else ForDelivery(st.lastDeliveryID)
  }

  function PendingResync(w: World, snap: Mirror, active: bool, now: Time): (bool, World) {
    if !snap.status.pendingResync || active || !w.mirror.status.pendingResync then (false, w)
    else
      var g, name := w.mirror.generation, PendingTrigger(w.mirror.status, now);
      var (acquired, w1) := CreateLocked(w, g, name, w.mirror.status.lastRequestedRevision);
      if !acquired then (true, w1) else (false, Schedule(w1, name, g, now))
  }

  /** A next time is not after `now`; the zero time never is. */
  predicate HasCome(next: Option<Time>, now: Time) {
    next.None? || next.value <= now
  }

  predicate FallbackDue(cron: Cron, snap: Mirror, now: Time) {
    && snap.schedule != ""
    && cron.parses(snap.schedule)
    && (snap.status.lastTriggeredAt.Some? ==> HasCome(cron.next(snap.schedule, snap.status.lastTriggeredAt.value), now))
  }

  function Fallback(w: World, snap: Mirror, active: bool, cron: Cron, now: Time): World {
    if !FallbackDue(cron, snap, now) then w
    else if active then w.(mirror := WebhookState(w.mirror, "scheduled", now, true))
    else
      var (acquired, w1) := CreateLocked(w, snap.generation, ForSchedule(now), "");
      if !acquired then w1
      else
        var w2 := w1.(mirror := WebhookState(w1.mirror, "scheduled", now, false));
        Schedule(w2, ForSchedule(now), snap.generation, now)
  }

  function AfterCompleted(w: World, snap: Mirror, active: bool, cron: Cron, now: Time): World {
    var (stop1, w1) := UnobservedGeneration(w, snap, active, now);
    if stop1 then w1
    else
      var (stop2, w2) := PendingResync(w1, snap, active, now);
      if stop2 then w2 else Fallback(w2, snap, active, cron, now)
  }

  function Reconcile(w: World, order: seq<JobName>, cron: Cron, now: Time): World
    requires IsListing(order, w.jobs)
  {
    var w0 := w.(history := w.history.(clock := now));
    var items := JobsForGeneration(Listed(order, w.jobs), w.mirror.generation);
    var (stop, w1) := CompletedJobs(w0, w.mirror, items, 0, now);
    if stop then w1 else AfterCompleted(w1, w.mirror, ActiveJobExists(items), cron, now)
  }

  /******* The environment *******/

  /** A verified GitHub push: dropped when it repeats the last delivery, else recorded. */
  function Push(w: World, deliveryID: string, revision: string, now: Time): World {
    if w.mirror.status.lastDeliveryID == deliveryID then w
    else
      w.(mirror := WebhookIntent(w.mirror, deliveryID, revision, now),
         history := w.history.(pushMark := Some(|w.history.created|)))
  }

  /** A spec edit: the generation grows and the fallback schedule may change. */
  function EditSpec(w: World, schedule: string): World {
    w.(mirror := w.mirror.(generation := w.mirror.generation + 1, schedule := schedule))
  }

  function FinishJob(w: World, name: JobName, phase: Phase): World
    requires name in w.jobs
  {
    w.(jobs := w.jobs[name := w.jobs[name].(phase := phase)])
  }

  function RemoveJob(w: World, name: JobName): World {
    w.(jobs := w.jobs - {name})
  }

  /** A freshly created GitMirror: first generation, empty status, no Job, no Lease. */
  function Initial(schedule: string, clock: Time): World {
    World(Mirror(1, schedule, EMPTY_STATUS), map[], NoLease, History([], [], None, clock))
  }

  /******* Facts about the filters *******/

  lemma {:induction false} FilterMembers(items: seq<Job>, generation: int)
    ensures forall j :: j in JobsForGeneration(items, generation) <==>
              j in items && (j.annotation == Absent || j.annotation == At(generation))
  {
    if items != [] {
      FilterMembers(items[..|items| - 1], generation);
      assert items == items[..|items| - 1] + [items[|items| - 1]];
    }
  }

  /** Whatever the order, the filtered list holds exactly the stored Jobs that match. */
  lemma ListedItems(jobs: map<JobName, Job>, order: seq<JobName>, generation: int, items: seq<Job>)
    requires IsListing(order, jobs) && items == JobsForGeneration(Listed(order, jobs), generation)
    requires forall n :: n in jobs ==> jobs[n].name == n
    ensures forall k :: 0 <= k < |items| ==>
              items[k].name in jobs && items[k] == jobs[items[k].name] && GenerationMatches(items[k], generation)
    ensures forall n :: n in jobs && GenerationMatches(jobs[n], generation) ==> jobs[n] in items
  {
    var all := Listed(order, jobs);
    FilterMembers(all, generation);
    forall k | 0 <= k < |items|
      ensures items[k].name in jobs && items[k] == jobs[items[k].name] && GenerationMatches(items[k], generation)
    {
      assert items[k] in items && items[k] in all;
      var i :| 0 <= i < |all| && all[i] == items[k];
    }
    forall n | n in jobs && GenerationMatches(jobs[n], generation) ensures jobs[n] in items {
      assert n in order;
      var i :| 0 <= i < |order| && order[i] == n;
      assert all[i] in all;
    }
  }

  predicate NamesDistinct(items: seq<Job>) {
    forall i, j :: 0 <= i < j < |items| ==> items[i].name != items[j].name
  }

  lemma {:induction false} FilterDistinct(items: seq<Job>, generation: int)
    requires NamesDistinct(items)
    ensures NamesDistinct(JobsForGeneration(items, generation))
  {
    if items != [] {
      var init, last := items[..|items| - 1], items[|items| - 1];
      FilterDistinct(init, generation);
      FilterMembers(init, generation);
      var r := JobsForGeneration(init, generation);
      forall i | 0 <= i < |r| ensures r[i].name != last.name {
        assert r[i] in init;
        var k :| 0 <= k < |init| && init[k] == r[i];
        assert items[k] == r[i];
      }
      assert NamesDistinct(r + [last]);
    }
  }
}
