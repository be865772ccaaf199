/**
 What becomes of a push that lands while a reconcile is under way: between any two of its
 calls, the rest of which nobody interrupts.

 `Survives` says for every point of the reconcile, from what is known there before the push,
 whether the push is kept: still pending at the end, or served by a Job with its revision
 created since.  `PushDuringReconcile` proves it exact, after every failure-free run.  `Fate`
 is the same prediction for any later point, and no call changes it.
 */
module PushFate {
  import opened Base
  import opened GitMirrorStatus
  import opened Scheduling
  import opened Invariants
  import opened SmallStep
  import Runs

  /** A Job with the requested revision has been created since the last accepted push. */
  predicate Served(w: World) {
    var h := w.history;
    h.pushMark.Some? &&
    exists i :: h.pushMark.value <= i < |h.created| && h.created[i].revision == w.mirror.status.lastRequestedRevision
  }

  predicate Kept(w: World) {
    w.mirror.status.pendingResync || Served(w)
  }

  /******* Which point decides what *******/

  /** The completion loop still has a Job to reflect. */
  predicate LeftItem(ctx: Context, i: nat) {
    exists j :: i <= j < |ctx.items| && !Skips(ctx.snap, ctx.items, ctx.items[j])
  }

  /** The due fallback of this snapshot would start a sync. */
  predicate FallbackStarts(w: World, ctx: Context, cron: Cron) {
    && FallbackDue(cron, ctx.snap, ctx.now) && !ActiveJobExists(ctx.items)
    && Takeable(w.lease, w.jobs, ctx.snap.generation, ForSchedule(ctx.now))
  }

  /** This request finds the lease taken and ends the reconcile. */
  predicate IsRefused(w: World, req: Request) {
    !Takeable(w.lease, w.jobs, req.generation, req.name)
  }

  predicate SurvivesFallback(w: World, ctx: Context, cron: Cron, revision: string) {
    FallbackStarts(w, ctx, cron) ==> revision == ""
  }

  predicate SurvivesPending(w: World, ctx: Context, cron: Cron, revision: string) {
    (ctx.snap.status.pendingResync && !ActiveJobExists(ctx.items)) || SurvivesFallback(w, ctx, cron, revision)
  }

  predicate SurvivesGeneration(w: World, ctx: Context, cron: Cron, revision: string) {
    || (Unobserved(ctx.snap) && Unobserved(w.mirror) && !ActiveJobExists(ctx.items))
    || SurvivesPending(w, ctx, cron, revision)
  }

  /**
   Whether a push that lands here and asks for `revision` is kept.  A request already formed
   serves it only with the same revision; a Job already created does not; a patch clears the
   flag only if it was set when the patch read; a fallback clears it and mirrors no revision.
   */
  predicate Survives(w: World, pc: Pc, cron: Cron, revision: string) {
    match pc
    case Idle => true
    case ListJobs(_, _) => true
    case Loop(ctx, i) => LeftItem(ctx, i) || SurvivesGeneration(w, ctx, cron, revision)
    case ReflectPatch(ctx, _, read) =>
      if read.status.pendingResync then read.status.lastRequestedRevision == revision
      else SurvivesFallback(w, ctx, cron, revision)
    case ReleaseGet(ctx, _, followup, asked) =>
      if followup then asked == revision else SurvivesFallback(w, ctx, cron, revision)
    case ReleaseDelete(ctx, _, followup, asked) =>
      if followup then asked == revision else SurvivesFallback(w, ctx, cron, revision)
    case LeaseCreate(_, req) => IsRefused(w, req) || req.revision == revision
    case LeaseGet(_, req) => IsRefused(w, req) || req.revision == revision
    case HolderGet(_, req, _) => IsRefused(w, req) || req.revision == revision
    case LeaseUpdate(_, req) => req.revision == revision
    case JobCreate(_, req) => req.revision == revision
    case UndoGet(_, _) => true
    case UndoDelete(_, _) => true
    case ScheduleGet(_, _) => false
    case SchedulePatch(_, _, read) => !read.status.pendingResync
    case GenerationCheck(ctx) => SurvivesGeneration(w, ctx, cron, revision)
    case PendingCheck(ctx) => SurvivesPending(w, ctx, cron, revision)
    case FallbackCheck(ctx) => SurvivesFallback(w, ctx, cron, revision)
    case CoalescePatch(_, _) => true
  }

  /******* The same prediction once the push has landed *******/

  function Wanted(w: World): string { w.mirror.status.lastRequestedRevision }

  predicate FateFallback(w: World, ctx: Context, cron: Cron) {
    if !FallbackDue(cron, ctx.snap, ctx.now) then Kept(w)
    else if ActiveJobExists(ctx.items) then true
    else if FallbackStarts(w, ctx, cron) then Served(w) || Wanted(w) == ""
    else Kept(w)
  }

  predicate FatePending(w: World, ctx: Context, cron: Cron) {
    || (ctx.snap.status.pendingResync && !ActiveJobExists(ctx.items) && w.mirror.status.pendingResync)
    || FateFallback(w, ctx, cron)
  }

  predicate FateGeneration(w: World, ctx: Context, cron: Cron) {
    || (Unobserved(ctx.snap) && Unobserved(w.mirror) && !ActiveJobExists(ctx.items))
    || FatePending(w, ctx, cron)
  }

  predicate FateRequest(w: World, req: Request) {
    if IsRefused(w, req) then Kept(w) else Served(w) || req.revision == Wanted(w)
  }

  predicate Fate(w: World, pc: Pc, cron: Cron) {
    match pc
    case Idle => Kept(w)
    case ListJobs(_, _) => Kept(w)
    case Loop(ctx, i) => LeftItem(ctx, i) || FateGeneration(w, ctx, cron)
    case ReflectPatch(ctx, _, read) =>
      if read.status.pendingResync then Served(w) || read.status.lastRequestedRevision == Wanted(w)
      else FateFallback(w, ctx, cron)
    case ReleaseGet(ctx, _, followup, asked) =>
      if followup then Served(w) || asked == Wanted(w) else FateFallback(w, ctx, cron)
    case ReleaseDelete(ctx, _, followup, asked) =>
      if followup then Served(w) || asked == Wanted(w) else FateFallback(w, ctx, cron)
    case LeaseCreate(_, req) => FateRequest(w, req)
    case LeaseGet(_, req) => FateRequest(w, req)
    case HolderGet(_, req, _) => FateRequest(w, req)
    case LeaseUpdate(_, req) => Served(w) || req.revision == Wanted(w)
    case JobCreate(_, req) => Served(w) || req.revision == Wanted(w)
    case UndoGet(_, _) => Kept(w)
    case UndoDelete(_, _) => Kept(w)
    case ScheduleGet(_, _) => Served(w)
    case SchedulePatch(_, _, read) => Served(w) || (w.mirror.status.pendingResync && !read.status.pendingResync)
    case GenerationCheck(ctx) => FateGeneration(w, ctx, cron)
    case PendingCheck(ctx) => FatePending(w, ctx, cron)
    case FallbackCheck(ctx) => FateFallback(w, ctx, cron)
    case CoalescePatch(_, _) => true
  }

  /******* Where an uninterrupted reconcile of a failure-free run can be *******/

  /** No active Job of the caller's generation holds the lease: whoever asks may take it. */
  predicate Open(w: World) {
    w.lease.Held? && w.lease.holder.Some? ==> !ActiveForGeneration(w.jobs, w.lease.holder.value, w.mirror.generation)
  }

  /** The reconcile has created no Job yet; the names it may use, and the push's own, are free. */
  predicate Before(w: World, ctx: Context, id: string) {
    && (ActiveJobExists(ctx.items) || Open(w))
    && ForSchedule(ctx.now) !in w.jobs && ForDelivery(id) !in w.jobs
  }

  /** It has created the Job `n`, which runs and holds the lease. */
  predicate After(w: World, ctx: Context, n: JobName) {
    && !ActiveJobExists(ctx.items) && w.lease == Held(Some(n)) && ActiveForGeneration(w.jobs, n, w.mirror.generation)
    && !Unobserved(w.mirror)
  }

  /** That Job has another name. */
  predicate AfterOther(w: World, ctx: Context, name: JobName) {
    w.lease.Held? && w.lease.holder.Some? && w.lease.holder.value != name && After(w, ctx, w.lease.holder.value)
  }

  /** What is pending is the push that landed. */
  predicate OnlyThePush(w: World, id: string) {
    w.mirror.status.pendingResync ==> w.mirror.status.lastDeliveryID == id
  }

  /** Between requests, up to the pending check. */
  predicate Between(w: World, ctx: Context, id: string) {
    || (&& Before(w, ctx, id)
        && (Unobserved(w.mirror) ==> Unobserved(ctx.snap) && ForGeneration(w.mirror.generation) !in w.jobs)
        && (!ActiveJobExists(ctx.items) && w.mirror.status.pendingResync && !Unobserved(w.mirror) ==>
              PendingTrigger(w.mirror.status, ctx.now) !in w.jobs))
    || (After(w, ctx, ForResync(ctx.now)) && OnlyThePush(w, id))
  }

  /** A finished Job of this generation that is still to be reflected, the only one from i on. */
  predicate ToReflect(w: World, ctx: Context, i: nat, id: string)
    requires i < |ctx.items|
  {
    var job := ctx.items[i];
    && !Skips(ctx.snap, ctx.items, job) && !LeftItem(ctx, i + 1)
    && job.annotation == At(w.mirror.generation)
    && Before(w, ctx, id) && !ActiveJobExists(ctx.items) && !Unobserved(w.mirror) && ForResync(ctx.now) !in w.jobs
  }

  predicate LoopOk(w: World, ctx: Context, i: nat, id: string)
    requires i <= |ctx.items|
  {
    if LeftItem(ctx, i) then
      exists p :: i <= p < |ctx.items| && ToReflect(w, ctx, p, id)
                  && (forall j :: i <= j < p ==> Skips(ctx.snap, ctx.items, ctx.items[j]))
                  && w.mirror.status.lastCompletedJobName != Some(ctx.items[p].name)
                  && (ctx.snap.status.pendingResync ==> w.mirror.status.pendingResync)
    else Between(w, ctx, id)
  }

  /** What a formed request may rely on, by its purpose. */
  predicate RequestOk(w: World, ctx: Context, req: Request, id: string) {
    && OkRequest(ctx, req) && req.generation == w.mirror.generation && !ActiveJobExists(ctx.items)
    && match req.purpose
       case Followup(i) =>
         && req.name == ForResync(ctx.now) && !LeftItem(ctx, i + 1) && OnlyThePush(w, id) && !Unobserved(w.mirror)
       case NewGeneration => true
       case PendingSync => req.name != ForSchedule(ctx.now) && !Unobserved(w.mirror)
       case ScheduledSync => req.name == ForSchedule(ctx.now) && req.revision == ""
  }

  /** The lease is open and the name free; or the Job of an earlier request keeps this one out. */
  predicate Asking(w: World, ctx: Context, req: Request) {
    || (Open(w) && req.name !in w.jobs)
    || ((req.purpose.PendingSync? || req.purpose.ScheduledSync?) && AfterOther(w, ctx, req.name))
  }

  /** The Job of the request runs and holds the lease. */
  predicate Running(w: World, req: Request) {
    w.lease == Held(Some(req.name)) && ActiveForGeneration(w.jobs, req.name, w.mirror.generation)
  }

  predicate PathOk(w: World, pc: Pc, id: string) {
    match pc
    case Idle => true
    case ListJobs(_, _) => false
    case UndoGet(_, _) => false
    case UndoDelete(_, _) => false
    case _ =>
      Ok(pc) && pc.ctx.snap.generation == w.mirror.generation && PointOk(w, pc, id)
  }

  predicate PointOk(w: World, pc: Pc, id: string)
    requires Ok(pc)
  {
    match pc
    case Loop(ctx, i) => LoopOk(w, ctx, i, id)
    case ReflectPatch(ctx, i, read) =>
      && ToReflect(w, ctx, i, id) && read.generation == w.mirror.generation
      && read.status.observedGeneration == w.mirror.status.observedGeneration
      && read.status.lastCompletedJobName != Some(ctx.items[i].name)
      && (ctx.snap.status.pendingResync ==> read.status.pendingResync)
      && (!read.status.pendingResync ==> OnlyThePush(w, id))
    case ReleaseGet(ctx, i, followup, _) => ReleaseOk(w, ctx, i, followup, id)
    case ReleaseDelete(ctx, i, followup, _) => ReleaseOk(w, ctx, i, followup, id)
    case LeaseCreate(ctx, req) => RequestOk(w, ctx, req, id) && Asking(w, ctx, req)
    case LeaseGet(ctx, req) => RequestOk(w, ctx, req, id) && Asking(w, ctx, req) && w.lease != NoLease
    case HolderGet(ctx, req, holder) =>
      RequestOk(w, ctx, req, id) && Asking(w, ctx, req) && w.lease == Held(Some(holder)) && holder != req.name
    case LeaseUpdate(ctx, req) => RequestOk(w, ctx, req, id) && w.lease != NoLease && req.name !in w.jobs
    case JobCreate(ctx, req) => RequestOk(w, ctx, req, id) && w.lease == Held(Some(req.name)) && req.name !in w.jobs
    case ScheduleGet(ctx, req) => RequestOk(w, ctx, req, id) && Running(w, req)
    case SchedulePatch(ctx, req, read) =>
      && RequestOk(w, ctx, req, id) && Running(w, req) && read.generation == w.mirror.generation
      && read.status.observedGeneration == w.mirror.status.observedGeneration
    case GenerationCheck(ctx) => Between(w, ctx, id)
    case PendingCheck(ctx) => Between(w, ctx, id) && (ActiveJobExists(ctx.items) || !Unobserved(w.mirror))
    case FallbackCheck(ctx) => Before(w, ctx, id) || AfterOther(w, ctx, ForSchedule(ctx.now))
    case CoalescePatch(_, read) => read.status.pendingResync ==> w.mirror.status.pendingResync
    case _ => false
  }

  predicate ReleaseOk(w: World, ctx: Context, i: nat, followup: bool, id: string)
    requires i < |ctx.items|
  {
    && !LeftItem(ctx, i + 1) && Before(w, ctx, id) && !ActiveJobExists(ctx.items) && !Unobserved(w.mirror)
    && ForResync(ctx.now) !in w.jobs && OnlyThePush(w, id) && (!followup ==> !ctx.snap.status.pendingResync)
  }

  /** What is known of the push once it has landed. */
  predicate Landed(w: World, pc: Pc) {
    && w.history.pushMark.Some? && w.history.pushMark.value <= |w.history.created|
    && (pc.Loop? && LeftItem(pc.ctx, pc.i) ==> w.mirror.status.pendingResync)
  }

  /******* One call at a time *******/

  lemma CreationServes(w: World, generation: int, name: JobName, revision: string)
    requires name !in w.jobs && w.history.pushMark.Some? && w.history.pushMark.value <= |w.history.created|
    ensures Served(CreateJob(w, generation, name, revision)) <==> Served(w) || revision == Wanted(w)
  {
    var c, c' := w.history.created, CreateJob(w, generation, name, revision).history.created;
    assert c' == c + [Created(name, generation, revision)];
    assert c'[|c|].revision == revision;
    assert forall i :: 0 <= i < |c| ==> c'[i] == c[i];
  }

  /** The next call stays on the path and leaves the push its fate. */
  predicate FateStays(w: World, pc: Pc, id: string, cron: Cron)
    requires Ok(pc) && !pc.Idle? && !pc.ListJobs?
  {
    var (w', pc') := Do(w, pc, cron);
    var onPath := PathOk(w', pc', id);
    && onPath
    && (Landed(w, pc) ==> Landed(w', pc') && Fate(w', pc', cron) == Fate(w, pc, cron))
  }

  lemma LoopCall(w: World, pc: Pc, id: string, cron: Cron)
    ensures PathOk(w, pc, id) && id != "" && pc.Loop? ==> FateStays(w, pc, id, cron)
  {}

  lemma ReflectConsuming(w: World, pc: Pc, id: string, cron: Cron)
    ensures PathOk(w, pc, id) && id != "" && pc.ReflectPatch? && pc.read.status.pendingResync ==>
              FateStays(w, pc, id, cron)
  {}

  lemma ReflectOnly(w: World, pc: Pc, id: string, cron: Cron)
    ensures PathOk(w, pc, id) && id != "" && pc.ReflectPatch? && !pc.read.status.pendingResync ==>
              FateStays(w, pc, id, cron)
  {}

  lemma ReleaseGetCall(w: World, pc: Pc, id: string, cron: Cron)
    ensures PathOk(w, pc, id) && id != "" && pc.ReleaseGet? ==> FateStays(w, pc, id, cron)
  {}

  lemma ReleaseDeleteCall(w: World, pc: Pc, id: string, cron: Cron)
    ensures PathOk(w, pc, id) && id != "" && pc.ReleaseDelete? ==> FateStays(w, pc, id, cron)
  {}

  lemma GenerationCall(w: World, pc: Pc, id: string, cron: Cron)
    ensures PathOk(w, pc, id) && id != "" && pc.GenerationCheck? ==> FateStays(w, pc, id, cron)
  {}

  lemma PendingCall(w: World, pc: Pc, id: string, cron: Cron)
    ensures PathOk(w, pc, id) && id != "" && pc.PendingCheck? ==> FateStays(w, pc, id, cron)
  {}

  lemma FallbackCall(w: World, pc: Pc, id: string, cron: Cron)
    ensures PathOk(w, pc, id) && id != "" && (pc.FallbackCheck? || pc.CoalescePatch?) ==> FateStays(w, pc, id, cron)
  {}

  lemma AskCall(w: World, pc: Pc, id: string, cron: Cron)
    ensures PathOk(w, pc, id) && id != "" && (pc.LeaseCreate? || pc.LeaseGet?) ==> FateStays(w, pc, id, cron)
  {}

  lemma TakeCall(w: World, pc: Pc, id: string, cron: Cron)
    ensures PathOk(w, pc, id) && id != "" && (pc.HolderGet? || pc.LeaseUpdate?) ==> FateStays(w, pc, id, cron)
  {}

  lemma CreateCall(w: World, pc: Pc, id: string, cron: Cron)
    ensures PathOk(w, pc, id) && id != "" && pc.JobCreate? ==> FateStays(w, pc, id, cron)
  {
    if PathOk(w, pc, id) && pc.JobCreate? && Landed(w, pc) {
      CreationServes(w, pc.req.generation, pc.req.name, pc.req.revision);
    }
  }

  lemma ReadCall(w: World, pc: Pc, id: string, cron: Cron)
    ensures PathOk(w, pc, id) && id != "" && pc.ScheduleGet? ==> FateStays(w, pc, id, cron)
  {}

  lemma RecordFollowup(w: World, pc: Pc, id: string, cron: Cron)
    ensures PathOk(w, pc, id) && id != "" && pc.SchedulePatch? && pc.req.purpose.Followup? ==>
              FateStays(w, pc, id, cron)
  {}

  lemma RecordOther(w: World, pc: Pc, id: string, cron: Cron)
    ensures PathOk(w, pc, id) && id != "" && pc.SchedulePatch? && !pc.req.purpose.Followup? ==>
              FateStays(w, pc, id, cron)
  {}

  lemma CallFate(w: World, pc: Pc, id: string, cron: Cron)
    ensures PathOk(w, pc, id) && id != "" && !pc.Idle? ==> FateStays(w, pc, id, cron)
  {
    LoopCall(w, pc, id, cron);
    ReflectConsuming(w, pc, id, cron);
    ReflectOnly(w, pc, id, cron);
    ReleaseGetCall(w, pc, id, cron);
    ReleaseDeleteCall(w, pc, id, cron);
    AskCall(w, pc, id, cron);
    TakeCall(w, pc, id, cron);
    CreateCall(w, pc, id, cron);
    ReadCall(w, pc, id, cron);
    RecordFollowup(w, pc, id, cron);
    RecordOther(w, pc, id, cron);
    GenerationCall(w, pc, id, cron);
    PendingCall(w, pc, id, cron);
    FallbackCall(w, pc, id, cron);
  }

  /** The rest of the reconcile, uninterrupted, fulfils the prediction. */
  lemma {:induction false} FateFulfilled(w: World, pc: Pc, id: string, cron: Cron)
    requires Ok(pc) && !pc.ListJobs?
    ensures PathOk(w, pc, id) && Landed(w, pc) && id != "" ==> (Kept(RunToEnd(w, pc, cron)) <==> Fate(w, pc, cron))
    decreases Rank(pc)
  {
    if !pc.Idle? {
      CallFate(w, pc, id, cron);
      CallProgress(w, pc, cron);
      var (w', pc') := Do(w, pc, cron);
      FateFulfilled(w', pc', id, cron);
    }
  }

  /******* The push lands *******/

  lemma PushStaysOnPath(w: World, pc: Pc, id: string, revision: string, at: Time)
    ensures var w1 := Push(w, id, revision, at);
            var onPath := PathOk(w1, pc, id);
            PathOk(w, pc, id) && id != "" && w.mirror.status.lastDeliveryID != id ==> onPath && Landed(w1, pc)
  {}

  lemma FateOfPush(w: World, pc: Pc, id: string, revision: string, at: Time, cron: Cron)
    requires Ok(pc) && w.mirror.status.lastDeliveryID != id
    ensures var w1 := Push(w, id, revision, at); Fate(w1, pc, cron) <==> Survives(w, pc, cron, Wanted(w1))
  {}

  /** k calls of a reconcile, or fewer if it ends before. */
  function Advance(w: World, pc: Pc, cron: Cron, k: nat): Sys
    requires Ok(pc) && !pc.ListJobs?
    decreases k
  {
    if k == 0 || pc.Idle? then Sys(w, pc)
    else
      CallProgress(w, pc, cron);
      var (w', pc') := Do(w, pc, cron);
      Advance(w', pc', cron, k - 1)
  }

  lemma {:induction false} AdvanceOnPath(w: World, pc: Pc, cron: Cron, k: nat, id: string)
    requires Ok(pc) && !pc.ListJobs?
    ensures var s := Advance(w, pc, cron, k);
            var onPath := PathOk(s.w, s.pc, id);
            PathOk(w, pc, id) && id != "" ==> onPath
    decreases k
  {
    if k > 0 && !pc.Idle? {
      CallFate(w, pc, id, cron);
      CallProgress(w, pc, cron);
      var (w', pc') := Do(w, pc, cron);
      AdvanceOnPath(w', pc', cron, k - 1, id);
    }
  }

  /** What the first two calls of a reconcile returned. */
  function ContextOf(w: World, order: seq<JobName>, now: Time): Context
    requires IsListing(order, w.jobs)
  {
    Context(w.mirror, JobsForGeneration(Listed(order, w.jobs), w.mirror.generation), now)
  }

  /** A reconcile of a failure-free run begins on the path. */
  lemma BeginsOnPath(w: World, order: seq<JobName>, now: Time, id: string)
    requires Inv(w) && IsListing(order, w.jobs) && now > w.history.clock && id != "" && Fresh(w, ForDelivery(id))
    ensures var begun := LoopOk(Tick(w, now), ContextOf(w, order, now), 0, id); begun
  {
    var ctx := ContextOf(w, order, now);
    CompletedLoop(w, order, now);
    if Unsettled(w) && JobFinished(LastJob(w)) {
      BeginsReflecting(w, order, now, id);
    } else {
      NothingToReflect(w, order, now);
      if Unsettled(w) {
        LastActive(w);
      }
      BeginsBetween(w, ctx, id);
    }
  }

  lemma LastActive(w: World)
    requires Shape(w) && Unsettled(w) && !JobFinished(LastJob(w))
    ensures JobActive(LastJob(w))
  {
    assert JobRecorded(w, w.mirror.status.lastJobName.value);
  }

  lemma NothingToReflect(w: World, order: seq<JobName>, now: Time)
    requires Shape(w) && IsListing(order, w.jobs) && !(Unsettled(w) && JobFinished(LastJob(w)))
    ensures !LeftItem(ContextOf(w, order, now), 0)
  {
    CurrentItems(w, order);
    var items := ContextOf(w, order, now).items;
    if items != [] {
      var p := LastItem(w, items);
      assert JobRecorded(w, items[p].name);
    }
  }

  lemma BeginsReflecting(w: World, order: seq<JobName>, now: Time, id: string)
    requires Inv(w) && IsListing(order, w.jobs) && now > w.history.clock && id != "" && Fresh(w, ForDelivery(id))
    requires Unsettled(w) && JobFinished(LastJob(w))
    ensures var begun := LoopOk(Tick(w, now), ContextOf(w, order, now), 0, id); begun
  {
    var ctx, items := ContextOf(w, order, now), ContextOf(w, order, now).items;
    CurrentItems(w, order);
    CompletedLoop(w, order, now);
    FreshNames(w, now, id);
    var p := LastItem(w, items);
    assert JobRecorded(w, items[p].name);
    LockFree(w, ForDelivery(id));
    assert ToReflect(Tick(w, now), ctx, p, id);
  }

  /** The names the reconcile may use, and the push's own, are free. */
  lemma FreshNames(w: World, now: Time, id: string)
    requires Shape(w) && now > w.history.clock && Fresh(w, ForDelivery(id))
    ensures ForSchedule(now) !in w.jobs && ForResync(now) !in w.jobs && ForDelivery(id) !in w.jobs
  {
    NewNames(w, now);
    FreshNotStored(w, ForSchedule(now));
    FreshNotStored(w, ForResync(now));
    FreshNotStored(w, ForDelivery(id));
  }

  lemma BeginsBetween(w: World, ctx: Context, id: string)
    requires Inv(w) && ctx.now > w.history.clock && ctx.snap == w.mirror && Fresh(w, ForDelivery(id))
    requires ActiveJobExists(ctx.items) == (Unsettled(w) && JobActive(LastJob(w)))
    requires Unsettled(w) ==> JobActive(LastJob(w))
    ensures var between := Between(Tick(w, ctx.now), ctx, id); between
  {
    NewNames(w, ctx.now);
    FreshNames(w, ctx.now, id);
    if Unobserved(w.mirror) {
      FreshNotStored(w, ForGeneration(w.mirror.generation));
    }
  }

  /**
   A push during a reconcile: after any failure-free run the next reconcile begins, and after
   any number of its calls a push lands, whose delivery id is new.  If the calls left are not
   interrupted, the push is kept exactly if it survives where it lands.
   */
  lemma PushDuringReconcile(schedule: string, clock: Time, steps: seq<Runs.Step>, cron: Cron,
                            order: seq<JobName>, now: Time, k: nat, id: string, revision: string, at: Time)
    requires Runs.ValidRun(Initial(schedule, clock), steps, cron)
    requires var w0 := Runs.Execute(Initial(schedule, clock), steps, cron);
             && IsListing(order, w0.jobs) && now > w0.history.clock && id != "" && Fresh(w0, ForDelivery(id))
             && var s := Advance(Tick(w0, now), Loop(ContextOf(w0, order, now), 0), cron, k);
             s.w.mirror.status.lastDeliveryID != id
    ensures var w0 := Runs.Execute(Initial(schedule, clock), steps, cron);
            var s := Advance(Tick(w0, now), Loop(ContextOf(w0, order, now), 0), cron, k);
            var w1 := Push(s.w, id, revision, at);
            && Ok(s.pc) && !s.pc.ListJobs?
            && (Kept(RunToEnd(w1, s.pc, cron)) <==> Survives(s.w, s.pc, cron, Wanted(w1)))
  {
    InitialInv(schedule, clock);
    Runs.RunInv(Initial(schedule, clock), steps, cron);
    PushAlongPath(Runs.Execute(Initial(schedule, clock), steps, cron), cron, order, now, k, id, revision, at);
  }

  lemma PushAlongPath(w0: World, cron: Cron, order: seq<JobName>, now: Time, k: nat,
                      id: string, revision: string, at: Time)
    requires Inv(w0) && IsListing(order, w0.jobs) && now > w0.history.clock && id != "" && Fresh(w0, ForDelivery(id))
    requires var s := Advance(Tick(w0, now), Loop(ContextOf(w0, order, now), 0), cron, k);
             s.w.mirror.status.lastDeliveryID != id
    ensures var s := Advance(Tick(w0, now), Loop(ContextOf(w0, order, now), 0), cron, k);
            var w1 := Push(s.w, id, revision, at);
            && Ok(s.pc) && !s.pc.ListJobs?
            && (Kept(RunToEnd(w1, s.pc, cron)) <==> Survives(s.w, s.pc, cron, Wanted(w1)))
  {
    BeginsOnPath(w0, order, now, id);
    AdvanceOnPath(Tick(w0, now), Loop(ContextOf(w0, order, now), 0), cron, k, id);
    var s := Advance(Tick(w0, now), Loop(ContextOf(w0, order, now), 0), cron, k);
    PushStaysOnPath(s.w, s.pc, id, revision, at);
    FateFulfilled(Push(s.w, id, revision, at), s.pc, id, cron);
    FateOfPush(s.w, s.pc, id, revision, at, cron);
  }

  /** A push between the two reads that begin a reconcile fares as one right after them. */
  lemma PushBeforeListing(w: World, order: seq<JobName>, now: Time, id: string, revision: string, at: Time, cron: Cron)
    requires IsListing(order, w.jobs)
    ensures var s := Sys(Push(Tick(w, now), id, revision, at), ListJobs(w.mirror, now));
            && Enabled(s, List(order))
            && Next(s, List(order), cron) ==
               Sys(Push(Tick(w, now), id, revision, at), Loop(ContextOf(w, order, now), 0))
  {}
}
