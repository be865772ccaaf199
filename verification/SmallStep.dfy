/**
 Reconcile one API call at a time.

 `Pc` says which call comes next and what the calls before it returned.  Between any two
 calls the environment may act and the reconcile may die (a crash, or an error that makes
 Reconcile return).  `Uninterrupted` connects the two granularities: with nobody in between,
 the calls amount to the atomic `Scheduling.Reconcile`.
 */
module SmallStep {
  import opened Base
  import opened GitMirrorStatus
  import opened Scheduling
  import opened Invariants
  import StatusPatch

  /** What the first two calls returned: the GitMirror and its current-generation Jobs. */
  datatype Context = Context(snap: Mirror, items: seq<Job>, now: Time)

  datatype Purpose = Followup(index: nat) | NewGeneration | PendingSync | ScheduledSync

  datatype Request = Request(purpose: Purpose, generation: int, name: JobName, revision: string)

  datatype Pc =
    | Idle
    | ListJobs(snap: Mirror, now: Time)
    | Loop(ctx: Context, i: nat)
    | ReflectPatch(ctx: Context, i: nat, read: Mirror)
    | ReleaseGet(ctx: Context, i: nat, followup: bool, revision: string)
    | ReleaseDelete(ctx: Context, i: nat, followup: bool, revision: string)
    | LeaseCreate(ctx: Context, req: Request)
    | LeaseGet(ctx: Context, req: Request)
    | HolderGet(ctx: Context, req: Request, holder: JobName)
    | LeaseUpdate(ctx: Context, req: Request)
    | JobCreate(ctx: Context, req: Request)
    | UndoGet(ctx: Context, req: Request)
    | UndoDelete(ctx: Context, req: Request)
    | ScheduleGet(ctx: Context, req: Request)
    | SchedulePatch(ctx: Context, req: Request, read: Mirror)
    | GenerationCheck(ctx: Context)
    | PendingCheck(ctx: Context)
    | FallbackCheck(ctx: Context)
    | CoalescePatch(ctx: Context, read: Mirror)

  /** Indices into the job list are in range. */
  predicate Ok(pc: Pc) {
    match pc
    case Loop(ctx, i) => i <= |ctx.items|
    case ReflectPatch(ctx, i, _) => i < |ctx.items|
    case ReleaseGet(ctx, i, _, _) => i < |ctx.items|
    case ReleaseDelete(ctx, i, _, _) => i < |ctx.items|
    case LeaseCreate(ctx, req) => OkRequest(ctx, req)
    case LeaseGet(ctx, req) => OkRequest(ctx, req)
    case HolderGet(ctx, req, _) => OkRequest(ctx, req)
    case LeaseUpdate(ctx, req) => OkRequest(ctx, req)
    case JobCreate(ctx, req) => OkRequest(ctx, req)
    case ScheduleGet(ctx, req) => OkRequest(ctx, req)
    case SchedulePatch(ctx, req, _) => OkRequest(ctx, req)
    case _ => true
  }

  predicate OkRequest(ctx: Context, req: Request) {
    req.purpose.Followup? ==> req.purpose.index < |ctx.items|
  }

  /** The server applies the merge patch between what was read and what the mutation made of it. */
  function PatchMirror(w: World, read: Mirror, mutated: Mirror): World {
    w.(mirror := w.mirror.(status := StatusPatch.Merge(read.status, mutated.status, w.mirror.status)))
  }

  function AfterRelease(ctx: Context, i: nat, followup: bool, revision: string): Pc {
    if followup then LeaseCreate(ctx, Request(Followup(i), ctx.snap.generation, ForResync(ctx.now), revision))
    else Loop(ctx, i + 1)
  }

  function AfterSchedule(ctx: Context, req: Request): Pc {
    match req.purpose
    case Followup(i) => Loop(ctx, i + 1)
    case NewGeneration => Idle
    case PendingSync => FallbackCheck(ctx)
    case ScheduledSync => Idle
  }

  function ScheduleMutation(ctx: Context, req: Request, read: Mirror): Mirror {
    var m := if req.purpose.ScheduledSync? then WebhookState(read, "scheduled", ctx.now, false) else read;
    SyncScheduledFor(m, req.name, req.generation, ctx.now)
  }

  /** The next call of the reconcile, when it is answered normally. */
  function Do(w: World, pc: Pc, cron: Cron): (World, Pc)
    requires Ok(pc) && !pc.Idle? && !pc.ListJobs?
  {
    match pc
    case Loop(ctx, i) =>
      if i == |ctx.items| then (w, GenerationCheck(ctx))
      else if Skips(ctx.snap, ctx.items, ctx.items[i]) then (w, Loop(ctx, i + 1))
      else (w, ReflectPatch(ctx, i, w.mirror))
    case ReflectPatch(ctx, i, read) =>
      var (m, followup) := Reflected(read, ctx.items[i], ctx.now);
      var w1 := PatchMirror(w, read, m);
      var j := ctx.items[i];
      var h := if !Reflects(read, j) then w.history
               else w.history.(reflected := w.history.reflected
                                            + [Reflection(j.serial, j.phase, j.revision, ctx.now)]);
      (w1.(history := h), ReleaseGet(ctx, i, followup, read.status.lastRequestedRevision))
    case ReleaseGet(ctx, i, followup, revision) =>
      if w.lease == Held(Some(ctx.items[i].name)) then (w, ReleaseDelete(ctx, i, followup, revision))
      else (w, AfterRelease(ctx, i, followup, revision))
    case ReleaseDelete(ctx, i, followup, revision) =>
      (w.(lease := NoLease), AfterRelease(ctx, i, followup, revision))
    case LeaseCreate(ctx, req) =>
      if w.lease == NoLease then (w.(lease := Held(Some(req.name))), JobCreate(ctx, req)) else (w, LeaseGet(ctx, req))
    case LeaseGet(ctx, req) =>
      if w.lease == NoLease then (w, Idle)
      else if w.lease.holder.None? || w.lease.holder == Some(req.name) then (w, LeaseUpdate(ctx, req))
      else (w, HolderGet(ctx, req, w.lease.holder.value))
    case HolderGet(ctx, req, holder) =>
      if ActiveForGeneration(w.jobs, holder, req.generation) then (w, Idle) else (w, LeaseUpdate(ctx, req))
    case LeaseUpdate(ctx, req) =>
      if w.lease == NoLease then (w, Idle) else (w.(lease := Held(Some(req.name))), JobCreate(ctx, req))
    case JobCreate(ctx, req) =>
      (CreateJob(w, req.generation, req.name, req.revision), ScheduleGet(ctx, req))
    case UndoGet(ctx, req) =>
      if w.lease == Held(Some(req.name)) then (w, UndoDelete(ctx, req)) else (w, Idle)
    case UndoDelete(ctx, req) => (w.(lease := NoLease), Idle)
    case ScheduleGet(ctx, req) => (w, SchedulePatch(ctx, req, w.mirror))
    case SchedulePatch(ctx, req, read) =>
      (PatchMirror(w, read, ScheduleMutation(ctx, req, read)), AfterSchedule(ctx, req))
    case GenerationCheck(ctx) =>
      if !Unobserved(ctx.snap) || ActiveJobExists(ctx.items) || !Unobserved(w.mirror) then (w, PendingCheck(ctx))
      else
        var g := w.mirror.generation;
        (w, LeaseCreate(ctx, Request(NewGeneration, g, ForGeneration(g), w.mirror.status.lastRequestedRevision)))
    case PendingCheck(ctx) =>
      if !ctx.snap.status.pendingResync || ActiveJobExists(ctx.items) || !w.mirror.status.pendingResync
      then (w, FallbackCheck(ctx))
      else
        (w, LeaseCreate(ctx, Request(PendingSync, w.mirror.generation, PendingTrigger(w.mirror.status, ctx.now),
                                     w.mirror.status.lastRequestedRevision)))
    case FallbackCheck(ctx) =>
      if !FallbackDue(cron, ctx.snap, ctx.now) then (w, Idle)
      else if ActiveJobExists(ctx.items) then (w, CoalescePatch(ctx, w.mirror))
      else (w, LeaseCreate(ctx, Request(ScheduledSync, ctx.snap.generation, ForSchedule(ctx.now), "")))
    case CoalescePatch(ctx, read) =>
      (PatchMirror(w, read, WebhookState(read, "scheduled", ctx.now, true)), Idle)
  }

  /******* The system: one reconcile at a time, among its environment *******/

  datatype Sys = Sys(w: World, pc: Pc)

  datatype Act =
    | Begin(now: Time)
    | List(order: seq<JobName>)
    | Call
    | Die                                    // crash, or an error return, after the last call
    | Conflict                               // the lease changed under the update
    | CreateFails                            // the API server refuses the Job
    | CreateUnclear                          // it stores the Job, and the call reports an error
    | Deliver(id: string, revision: string, moment: Time)
    | Webhook(at: Option<Time>, id: string, revision: string, pending: bool, conditions: map<string, Condition>)
    | Edit(schedule: string)
    | Finish(name: JobName, phase: Phase)
    | Terminate(name: JobName)               // a deletion timestamp
    | Remove(name: JobName)

  /**
   What an act needs.  A Job name is used for one Job only: a create finds the name taken by
   a stored Job (and counts as done), or never used before.  `Deliver` is an accepted push,
   `Webhook` an arbitrary change of the fields a push can change.
   */
  predicate Enabled(s: Sys, a: Act) {
    match a
    case Begin(_) => s.pc.Idle?
    case List(order) => s.pc.ListJobs? && IsListing(order, s.w.jobs)
    case Call =>
      && Ok(s.pc) && !s.pc.Idle? && !s.pc.ListJobs?
      && (s.pc.JobCreate? ==> s.pc.req.name in s.w.jobs || Fresh(s.w, s.pc.req.name))
    case Die => !s.pc.Idle?
    case Conflict => s.pc.LeaseUpdate?
    case CreateFails => s.pc.JobCreate?
    case CreateUnclear => s.pc.JobCreate? && s.pc.req.name !in s.w.jobs && Fresh(s.w, s.pc.req.name)
    case Deliver(_, _, _) => true
    case Webhook(_, _, _, _, _) => true
    case Edit(_) => true
    case Finish(n, phase) => n in s.w.jobs && s.w.jobs[n].phase == Running && phase != Running
    case Terminate(n) => n in s.w.jobs
    case Remove(n) => n in s.w.jobs
  }

  function Next(s: Sys, a: Act, cron: Cron): Sys
    requires Enabled(s, a)
  {
    match a
    case Begin(now) => Sys(Tick(s.w, now), ListJobs(s.w.mirror, now))
    case List(order) =>
      var snap := s.pc.snap;
      s.(pc := Loop(Context(snap, JobsForGeneration(Listed(order, s.w.jobs), snap.generation), s.pc.now), 0))
    case Call =>
      var (w, pc) := Do(s.w, s.pc, cron);
      Sys(w, pc)
    case Die => s.(pc := Idle)
    case Conflict => s.(pc := Idle)
    case CreateFails => s.(pc := UndoGet(s.pc.ctx, s.pc.req))
    case CreateUnclear =>
      var req := s.pc.req;
      Sys(CreateJob(s.w, req.generation, req.name, req.revision), UndoGet(s.pc.ctx, req))
    case Deliver(id, revision, at) => s.(w := Push(s.w, id, revision, at))
    case Webhook(at, id, revision, pending, conditions) =>
      var st := s.w.mirror.status.(lastWebhookAt := at, lastDeliveryID := id, lastRequestedRevision := revision,
                                   pendingResync := pending, conditions := conditions);
      s.(w := s.w.(mirror := s.w.mirror.(status := st)))
    case Edit(schedule) => s.(w := EditSpec(s.w, schedule))
    case Finish(n, phase) => s.(w := FinishJob(s.w, n, phase))
    case Terminate(n) => s.(w := s.w.(jobs := s.w.jobs[n := s.w.jobs[n].(deleting := true)]))
    case Remove(n) => s.(w := RemoveJob(s.w, n))
  }

  predicate ValidRun(s: Sys, acts: seq<Act>, cron: Cron)
    decreases |acts|
  {
    acts == [] || (Enabled(s, acts[0]) && ValidRun(Next(s, acts[0], cron), acts[1..], cron))
  }

  function Execute(s: Sys, acts: seq<Act>, cron: Cron): Sys
    requires ValidRun(s, acts, cron)
    decreases |acts|
  {
    if acts == [] then s else Execute(Next(s, acts[0], cron), acts[1..], cron)
  }

  /******* Without interruption the calls amount to the atomic step *******/

  function RequestRank(ctx: Context, req: Request): int {
    match req.purpose
    case Followup(i) => 8 + 12 * (|ctx.items| - i)
    case NewGeneration => 10
    case PendingSync => 9
    case ScheduledSync => 1
  }

  /** A bound on the calls left. */
  function Rank(pc: Pc): int {
    match pc
    case Idle => 0
    case ListJobs(_, _) => 0
    case Loop(ctx, i) => 19 + 12 * (|ctx.items| - i)
    case ReflectPatch(ctx, i, _) => 18 + 12 * (|ctx.items| - i)
    case ReleaseGet(ctx, i, _, _) => 17 + 12 * (|ctx.items| - i)
    case ReleaseDelete(ctx, i, _, _) => 16 + 12 * (|ctx.items| - i)
    case LeaseCreate(ctx, req) => RequestRank(ctx, req) + 7
    case LeaseGet(ctx, req) => RequestRank(ctx, req) + 6
    case HolderGet(ctx, req, _) => RequestRank(ctx, req) + 5
    case LeaseUpdate(ctx, req) => RequestRank(ctx, req) + 4
    case JobCreate(ctx, req) => RequestRank(ctx, req) + 3
    case ScheduleGet(ctx, req) => RequestRank(ctx, req) + 2
    case SchedulePatch(ctx, req, _) => RequestRank(ctx, req) + 1
    case UndoGet(_, _) => 2
    case UndoDelete(_, _) => 1
    case GenerationCheck(_) => 18
    case PendingCheck(_) => 17
    case FallbackCheck(_) => 9
    case CoalescePatch(_, _) => 1
  }

  lemma CallProgress(w: World, pc: Pc, cron: Cron)
    requires Ok(pc) && !pc.Idle? && !pc.ListJobs?
    ensures var (_, pc') := Do(w, pc, cron);
            Ok(pc') && !pc'.ListJobs? && 0 <= Rank(pc') < Rank(pc)
  {}

  /** Every remaining call, answered normally and without interference. */
  function RunToEnd(w: World, pc: Pc, cron: Cron): World
    requires Ok(pc) && !pc.ListJobs?
    decreases Rank(pc)
  {
    if pc.Idle? then w
    else
      CallProgress(w, pc, cron);
      var (w', pc') := Do(w, pc, cron);
      RunToEnd(w', pc', cron)
  }

  lemma LockCalls(w: World, ctx: Context, req: Request, cron: Cron)
    requires OkRequest(ctx, req)
    ensures RunToEnd(w, LeaseCreate(ctx, req), cron) ==
            var (acquired, w1) := CreateLocked(w, req.generation, req.name, req.revision);
            if acquired then RunToEnd(w1, ScheduleGet(ctx, req), cron) else w1
  {
    var w1 := w.(lease := Held(Some(req.name)));
    var created := RunToEnd(CreateJob(w1, req.generation, req.name, req.revision), ScheduleGet(ctx, req), cron);
    assert RunToEnd(w1, JobCreate(ctx, req), cron) == created;
    if w.lease != NoLease {
      assert RunToEnd(w, LeaseUpdate(ctx, req), cron) == created;
      if w.lease.holder.Some? && w.lease.holder != Some(req.name) {
        var h := w.lease.holder.value;
        assert RunToEnd(w, HolderGet(ctx, req, h), cron) ==
               if ActiveForGeneration(w.jobs, h, req.generation) then w else created;
      }
    }
  }

  lemma ScheduleCalls(w: World, ctx: Context, req: Request, cron: Cron)
    requires OkRequest(ctx, req)
    ensures RunToEnd(w, ScheduleGet(ctx, req), cron) ==
            RunToEnd(w.(mirror := ScheduleMutation(ctx, req, w.mirror)), AfterSchedule(ctx, req), cron)
  {
    var m := ScheduleMutation(ctx, req, w.mirror);
    assert PatchMirror(w, w.mirror, m) == w.(mirror := m);
    assert RunToEnd(w, SchedulePatch(ctx, req, w.mirror), cron)
        == RunToEnd(w.(mirror := m), AfterSchedule(ctx, req), cron);
  }

  lemma ReleaseCalls(w: World, ctx: Context, i: nat, followup: bool, revision: string, cron: Cron)
    requires i < |ctx.items|
    ensures RunToEnd(w, ReleaseGet(ctx, i, followup, revision), cron) ==
            RunToEnd(Release(w, ctx.items[i].name), AfterRelease(ctx, i, followup, revision), cron)
  {
    if w.lease == Held(Some(ctx.items[i].name)) {
      assert RunToEnd(w, ReleaseDelete(ctx, i, followup, revision), cron)
          == RunToEnd(w.(lease := NoLease), AfterRelease(ctx, i, followup, revision), cron);
    }
  }

  lemma ReflectCalls(w: World, ctx: Context, i: nat, cron: Cron)
    requires i < |ctx.items| && !Skips(ctx.snap, ctx.items, ctx.items[i])
    ensures var (_, followup) := Reflected(w.mirror, ctx.items[i], ctx.now);
            RunToEnd(w, Loop(ctx, i), cron) ==
            RunToEnd(Reflect(w, ctx.items[i], ctx.now),
                     ReleaseGet(ctx, i, followup, w.mirror.status.lastRequestedRevision), cron)
  {
    var (m, followup) := Reflected(w.mirror, ctx.items[i], ctx.now);
    assert PatchMirror(w, w.mirror, m) == w.(mirror := m);
    assert Do(w, ReflectPatch(ctx, i, w.mirror), cron) ==
           (Reflect(w, ctx.items[i], ctx.now), ReleaseGet(ctx, i, followup, w.mirror.status.lastRequestedRevision));
  }

  lemma FollowupCalls(w: World, ctx: Context, i: nat, revision: string, cron: Cron)
    requires i < |ctx.items|
    ensures var (acquired, w1) := CreateLocked(w, ctx.snap.generation, ForResync(ctx.now), revision);
            RunToEnd(w, AfterRelease(ctx, i, true, revision), cron) ==
            if !acquired then w1
            else RunToEnd(Schedule(w1, ForResync(ctx.now), ctx.snap.generation, ctx.now), Loop(ctx, i + 1), cron)
  {
    var req := Request(Followup(i), ctx.snap.generation, ForResync(ctx.now), revision);
    LockCalls(w, ctx, req, cron);
    var (acquired, w1) := CreateLocked(w, req.generation, req.name, req.revision);
    if acquired {
      ScheduleCalls(w1, ctx, req, cron);
    }
  }

  /** One item of the loop: reflect, release, and possibly follow up. */
  lemma ItemCalls(w: World, ctx: Context, i: nat, cron: Cron)
    requires i < |ctx.items| && !Skips(ctx.snap, ctx.items, ctx.items[i])
    ensures RunToEnd(w, Loop(ctx, i), cron) ==
            var (stop, w1) := CompleteOne(w, ctx.snap, ctx.items[i], ctx.now);
            if stop then w1 else RunToEnd(w1, Loop(ctx, i + 1), cron)
  {
    var job, revision := ctx.items[i], w.mirror.status.lastRequestedRevision;
    var (_, followup) := Reflected(w.mirror, job, ctx.now);
    var w1 := Reflect(w, job, ctx.now);
    ReflectCalls(w, ctx, i, cron);
    ReleaseCalls(w1, ctx, i, followup, revision, cron);
    if followup {
      FollowupCalls(Release(w1, job.name), ctx, i, revision, cron);
    }
  }

  lemma {:induction false} LoopCalls(w: World, ctx: Context, i: nat, cron: Cron)
    requires i <= |ctx.items|
    ensures RunToEnd(w, Loop(ctx, i), cron) ==
            var (stop, w1) := CompletedJobs(w, ctx.snap, ctx.items, i, ctx.now);
            if stop then w1 else RunToEnd(w1, GenerationCheck(ctx), cron)
    decreases |ctx.items| - i
  {
    if i < |ctx.items| {
      if Skips(ctx.snap, ctx.items, ctx.items[i]) {
        LoopCalls(w, ctx, i + 1, cron);
      } else {
        ItemCalls(w, ctx, i, cron);
        var (stop, w1) := CompleteOne(w, ctx.snap, ctx.items[i], ctx.now);
        if !stop {
          LoopCalls(w1, ctx, i + 1, cron);
        }
      }
    }
  }

  lemma FallbackCalls(w: World, ctx: Context, cron: Cron)
    ensures RunToEnd(w, FallbackCheck(ctx), cron) ==
            Fallback(w, ctx.snap, ActiveJobExists(ctx.items), cron, ctx.now)
  {
    if FallbackDue(cron, ctx.snap, ctx.now) {
      if ActiveJobExists(ctx.items) {
        var m := WebhookState(w.mirror, "scheduled", ctx.now, true);
        assert PatchMirror(w, w.mirror, m) == w.(mirror := m);
        assert RunToEnd(w, CoalescePatch(ctx, w.mirror), cron) == w.(mirror := m);
      } else {
        var req := Request(ScheduledSync, ctx.snap.generation, ForSchedule(ctx.now), "");
        LockCalls(w, ctx, req, cron);
        var (acquired, w1) := CreateLocked(w, req.generation, req.name, req.revision);
        if acquired {
          ScheduleCalls(w1, ctx, req, cron);
        }
      }
    }
  }

  lemma PendingCalls(w: World, ctx: Context, cron: Cron)
    ensures RunToEnd(w, PendingCheck(ctx), cron) ==
            var (stop, w1) := PendingResync(w, ctx.snap, ActiveJobExists(ctx.items), ctx.now);
            if stop then w1 else RunToEnd(w1, FallbackCheck(ctx), cron)
  {
    if ctx.snap.status.pendingResync && !ActiveJobExists(ctx.items) && w.mirror.status.pendingResync {
      var req := Request(PendingSync, w.mirror.generation, PendingTrigger(w.mirror.status, ctx.now),
                         w.mirror.status.lastRequestedRevision);
      LockCalls(w, ctx, req, cron);
      var (acquired, w1) := CreateLocked(w, req.generation, req.name, req.revision);
      if acquired {
        ScheduleCalls(w1, ctx, req, cron);
      }
    }
  }

  lemma GenerationCalls(w: World, ctx: Context, cron: Cron)
    ensures RunToEnd(w, GenerationCheck(ctx), cron) ==
            AfterCompleted(w, ctx.snap, ActiveJobExists(ctx.items), cron, ctx.now)
  {
    if Unobserved(ctx.snap) && !ActiveJobExists(ctx.items) && Unobserved(w.mirror) {
      var g := w.mirror.generation;
      var req := Request(NewGeneration, g, ForGeneration(g), w.mirror.status.lastRequestedRevision);
      LockCalls(w, ctx, req, cron);
      var (acquired, w1) := CreateLocked(w, req.generation, req.name, req.revision);
      if acquired {
        ScheduleCalls(w1, ctx, req, cron);
      }
    } else {
      PendingCalls(w, ctx, cron);
      var (stop, w1) := PendingResync(w, ctx.snap, ActiveJobExists(ctx.items), ctx.now);
      if !stop {
        FallbackCalls(w1, ctx, cron);
      }
    }
  }

  /** The calls of an uninterrupted reconcile add up to the atomic Reconcile. */
  lemma Uninterrupted(w: World, order: seq<JobName>, cron: Cron, now: Time)
    requires IsListing(order, w.jobs)
    ensures var s0 := Sys(w, Idle);
            && Enabled(s0, Begin(now))
            && var s1 := Next(s0, Begin(now), cron);
            && Enabled(s1, List(order))
            && var s2 := Next(s1, List(order), cron);
            && Ok(s2.pc) && !s2.pc.ListJobs?
            && RunToEnd(s2.w, s2.pc, cron) == Reconcile(w, order, cron, now)
  {
    var ctx := Context(w.mirror, JobsForGeneration(Listed(order, w.jobs), w.mirror.generation), now);
    LoopCalls(Tick(w, now), ctx, 0, cron);
    var (stop, w1) := CompletedJobs(Tick(w, now), ctx.snap, ctx.items, 0, now);
    if !stop {
      GenerationCalls(w1, ctx, cron);
    }
  }
}
