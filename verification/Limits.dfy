/**
 Where the guarantees end.  Each lemma takes an assumption away and says exactly when the
 guarantee survives; `Witnesses`, `SoloWitness`, `Crews` and `RunWitnesses` give runs that reach
 the failing side of each.
 */
module Limits {
  import opened Base
  import opened GitMirrorStatus
  import opened Scheduling
  import opened Invariants
  import opened SmallStep
  import opened Exclusion
  import opened Convergence
  import opened PushFate
  import Runs

  /******* Exclusion *******/

  function CreateIf(acquired: bool, w: World, generation: int, name: JobName, revision: string): World {
    if acquired then CreateJob(w, generation, name, revision) else w
  }

  /**
   Two reconcilers that both acquire before either creates: exclusion survives exactly when
   the first finds the lease taken.  A holder whose Job does not exist yet reads as stale, so
   a lease free to one is free to both.
   */
  lemma InterleavedCreatesBreakExclusion(w: World, a: JobName, b: JobName, ra: string, rb: string)
    requires Safe(w) && a != b && a !in w.jobs && b !in w.jobs
    ensures var g := w.mirror.generation;
            var (gotA, w1) := Acquire(w, g, a);
            var (gotB, w2) := Acquire(w1, g, b);
            var w3 := CreateIf(gotB, CreateIf(gotA, w2, g, a, ra), g, b, rb);
            AtMostOneActive(w3) <==> !Takeable(w.lease, w.jobs, g, a)
  {
    var g := w.mirror.generation;
    if Takeable(w.lease, w.jobs, g, a) {
      var w3 := CreateJob(CreateJob(w.(lease := Held(Some(b))), g, a, ra), g, b, rb);
      assert ActiveNow(w3, a) && ActiveNow(w3, b);
    }
  }

  /** Every stored Job is annotated and an active current one holds the lease. */
  ghost predicate Locked(w: World) {
    && (forall n :: n in w.jobs ==> w.jobs[n].annotation.At?)
    && (forall n :: ActiveNow(w, n) ==> w.lease == Held(Some(n)))
  }

  lemma CreateKeepsLocked(w: World, name: JobName, revision: string)
    requires Locked(w) && name !in w.jobs
    ensures Locked(CreateLocked(w, w.mirror.generation, name, revision).1)
  {}

  /**
   A caller with generation `stale`, then one with the stored generation: exclusion survives
   exactly when the first was up to date or nothing was running.  The holder's activity is
   judged against the caller's generation, so a stale caller takes the lease from a running
   Job and then gives it up to the next.
   */
  lemma StaleGenerationBreaksExclusion(w: World, stale: int, a: JobName, b: JobName, ra: string, rb: string)
    requires Safe(w) && a !in w.jobs && b !in w.jobs && a != b
    ensures var (_, w1) := CreateLocked(w, stale, a, ra);
            var (_, w2) := CreateLocked(w1, w.mirror.generation, b, rb);
            AtMostOneActive(w2) <==> stale == w.mirror.generation || forall n :: !ActiveNow(w, n)
  {
    var (_, w1) := CreateLocked(w, stale, a, ra);
    var (_, w2) := CreateLocked(w1, w.mirror.generation, b, rb);
    assert Locked(w) by {
      assert forall n :: n in w.jobs ==> Annotated(w, n);
    }
    if stale == w.mirror.generation {
      CreateKeepsLocked(w, a, ra);
      CreateKeepsLocked(w1, b, rb);
    } else if n :| ActiveNow(w, n) {
      assert ActiveNow(w2, n) && ActiveNow(w2, b);
    } else {
      forall n ensures !ActiveNow(w1, n) {
        assert !ActiveNow(w, n);
        assert n != a && n in w1.jobs ==> w1.jobs[n] == w.jobs[n];
      }
      CreateKeepsLocked(w1, b, rb);
    }
  }

  /**
   A create that reports failure: giving the lease back is safe exactly when the Job was not
   stored after all.  If it was, the next caller gets in beside it.
   */
  lemma AmbiguousCreateBreaksExclusion(w: World, ctx: Context, req: Request, stored: bool, cron: Cron,
                                       b: JobName, rb: string)
    requires Safe(w) && w.lease == Held(Some(req.name)) && req.generation == w.mirror.generation
    requires req.name !in w.jobs && b !in w.jobs && b != req.name
    ensures var w1 := CreateIf(stored, w, req.generation, req.name, req.revision);
            && Do(w1, UndoGet(ctx, req), cron) == (w1, UndoDelete(ctx, req))
            && var (w2, pc) := Do(w1, UndoDelete(ctx, req), cron);
            && pc == Idle && (ActiveHolds(w2) <==> !stored)
            && var (got, w3) := CreateLocked(w2, req.generation, b, rb);
            && got && (AtMostOneActive(w3) <==> !stored)
  {
    var w1 := CreateIf(stored, w, req.generation, req.name, req.revision);
    var w2 := w1.(lease := NoLease);
    var w3 := CreateLocked(w2, req.generation, b, rb).1;
    if stored {
      assert ActiveNow(w2, req.name);
      assert ActiveNow(w3, req.name) && ActiveNow(w3, b);
    } else {
      assert forall n :: ActiveNow(w2, n) == ActiveNow(w, n);
      assert forall n :: ActiveNow(w3, n) ==> n == b || ActiveNow(w, n);
    }
  }

  /**
   A locked creation with whatever answers: active Jobs still hold the lease exactly unless the
   create reports an error, the lease is given back, and a Job of that name runs.
   */
  lemma LockedCreationExact(w: World, name: JobName, revision: string, r: Replies)
    requires Safe(w) && (name in w.jobs || Fresh(w, name))
    ensures var g := w.mirror.generation;
            var acquired := AcquireWith(w, g, name, r).0 == Acquired;
            var (verdict, w1) := CreateLockedWith(w, g, name, revision, r);
            && AllAnnotated(w1) && (verdict == Acquired ==> name in w1.jobs)
            && (ActiveHolds(w1) <==>
                  !(acquired && r.create != Stored && !r.releaseFails
                    && (if name in w.jobs then ActiveNow(w, name) else r.create == Unclear)))
  {
    var g := w.mirror.generation;
    var (verdict, w0) := AcquireWith(w, g, name, r);
    if verdict == Acquired {
      TakenLease(w, name, r);
      HeldCreation(w0, name, revision, r.create);
      var w2 := if r.create == Rejected then w0 else CreateJob(w0, g, name, revision);
      LeaseFrame(w2, w2.(lease := NoLease));
    }
  }

  lemma TakenLease(w: World, name: JobName, r: Replies)
    requires Safe(w) && AcquireWith(w, w.mirror.generation, name, r).0 == Acquired
    ensures var w0 := AcquireWith(w, w.mirror.generation, name, r).1;
            Safe(w0) && w0.lease == Held(Some(name)) && (ActiveNow(w0, name) <==> ActiveNow(w, name))
  {
    assert forall k :: k in w.jobs ==> Annotated(w, k);
    assert OnlyActive(w, name);
    LeaseFrame(w, AcquireWith(w, w.mirror.generation, name, r).1);
  }

  lemma HeldCreation(w: World, name: JobName, revision: string, create: CreateReply)
    requires Safe(w) && w.lease == Held(Some(name)) && (name in w.jobs || Fresh(w, name))
    ensures var w2 := if create == Rejected then w else CreateJob(w, w.mirror.generation, name, revision);
            && Safe(w2)
            && (ActiveNow(w2, name) <==> (if name in w.jobs then ActiveNow(w, name) else create != Rejected))
  {
    CreateFrame(w, w.mirror.generation, name, revision);
  }

  /******* Pushes *******/

  /** In schedule-free runs the pending flag means that no Job has been created since the push. */
  predicate PendingIsUnserved(w: World) {
    w.mirror.schedule == "" && (w.mirror.status.pendingResync ==> Unserved(w.history))
  }

  lemma StepPending(w: World, s: Runs.Step, cron: Cron)
    requires Inv(w) && PendingIsUnserved(w) && Runs.Enabled(w, s) && (s.EditStep? ==> s.schedule == "")
    ensures PendingIsUnserved(Runs.Next(w, s, cron))
  {
    if s.ReconcileStep? {
      ReconcileIsResult(w, s.order, cron, s.now);
      Runs.ReconcileEffect(w, cron, s.now);
      ReconcileKeepsMark(w, cron, s.now);
    }
  }

  lemma ReconcileKeepsMark(w: World, cron: Cron, now: Time)
    ensures ReconcileResult(w, cron, now).history.pushMark == w.history.pushMark
  {}

  lemma {:induction false} RunPending(w: World, steps: seq<Runs.Step>, cron: Cron)
    requires Inv(w) && PendingIsUnserved(w) && Runs.ValidRun(w, steps, cron) && NeverScheduled(steps)
    ensures Inv(Runs.Execute(w, steps, cron)) && PendingIsUnserved(Runs.Execute(w, steps, cron))
    decreases |steps|
  {
    if steps != [] {
      Runs.StepInv(w, steps[0], cron);
      StepPending(w, steps[0], cron);
      assert NeverScheduled(steps[1..]);
      RunPending(Runs.Next(w, steps[0], cron), steps[1..], cron);
    }
  }

  /**
   A crash right after the completion patch keeps the last push exactly when a Job has been
   created since: the patch clears PendingResync before the follow-up Job exists.
   */
  lemma CrashAfterReflect(schedule: string, clock: Time, steps: seq<Runs.Step>, cron: Cron, now: Time)
    requires Runs.ValidRun(Initial(schedule, clock), steps, cron)
    requires var w := Runs.Execute(Initial(schedule, clock), steps, cron); Unsettled(w) && JobFinished(LastJob(w))
    ensures var w := Runs.Execute(Initial(schedule, clock), steps, cron);
            PushCovered(Reflect(w, LastJob(w), now)) <==> !Unserved(w.history)
  {
    InitialInv(schedule, clock);
    Runs.RunInv(Initial(schedule, clock), steps, cron);
    var w := Runs.Execute(Initial(schedule, clock), steps, cron);
    assert JobRecorded(w, w.mirror.status.lastJobName.value);
  }

  /** Without a schedule the guard of the follow-up decides: the push is lost iff one was pending. */
  lemma CrashAfterReflectUnscheduled(clock: Time, steps: seq<Runs.Step>, cron: Cron, now: Time)
    requires Runs.ValidRun(Initial("", clock), steps, cron) && NeverScheduled(steps)
    requires var w := Runs.Execute(Initial("", clock), steps, cron); Unsettled(w) && JobFinished(LastJob(w))
    ensures var w := Runs.Execute(Initial("", clock), steps, cron);
            PushCovered(Reflect(w, LastJob(w), now)) <==> !w.mirror.status.pendingResync
  {
    InitialInv("", clock);
    RunPending(Initial("", clock), steps, cron);
    CrashAfterReflect("", clock, steps, cron, now);
  }

  /** What a lost push leaves: at rest, nothing pending, and no Job created since. */
  ghost predicate Lost(w: World) {
    && Shape(w) && Ordered(w) && Quiescent(w) && w.mirror.schedule == ""
    && Unserved(w.history)
  }

  lemma LostAtRest(w: World, now: Time)
    requires Inv(w) && Unsettled(w) && JobFinished(LastJob(w)) && w.mirror.schedule == "" && Unserved(w.history)
    ensures Lost(Reflect(w, LastJob(w), now))
  {
    LostShape(w, now);
    LostOrder(w, now);
  }

  lemma LostShape(w: World, now: Time)
    requires Shape(w) && Unsettled(w) && JobFinished(LastJob(w))
    ensures var w1 := Reflect(w, LastJob(w), now); Shape(w1) && Quiescent(w1)
  {
    assert JobRecorded(w, w.mirror.status.lastJobName.value);
    Runs.ShapeFrame(w, Reflect(w, LastJob(w), now));
  }

  lemma LostOrder(w: World, now: Time)
    requires Shape(w) && Ordered(w) && Unsettled(w) && JobFinished(LastJob(w))
    ensures Ordered(Reflect(w, LastJob(w), now))
  {
    Runs.SettleOrdered(w, now);
  }

  /** A run without pushes and edits: reconciles, completions and removals. */
  predicate NoNews(steps: seq<Runs.Step>) {
    forall i :: 0 <= i < |steps| ==> !steps[i].PushStep? && !steps[i].EditStep?
  }

  lemma StepStaysLost(w: World, s: Runs.Step, cron: Cron)
    requires Lost(w) && Runs.Enabled(w, s) && !s.PushStep? && !s.EditStep?
    ensures var w1 := Runs.Next(w, s, cron);
            Lost(w1) && w1.mirror == w.mirror && w1.history.created == w.history.created
  {
    match s
    case ReconcileStep(order, now) => ReconcileStaysLost(w, order, cron, now);
    case FinishStep(n, phase) => FinishStaysLost(w, n, phase);
    case RemoveStep(n) => RemoveStaysLost(w, n);
  }

  lemma FinishStaysLost(w: World, n: JobName, phase: Phase)
    requires Lost(w) && n in w.jobs && w.jobs[n].phase == Running && phase != Running
    ensures Lost(FinishJob(w, n, phase))
  {
    Runs.FinishShape(w, n, phase);
  }

  lemma RemoveStaysLost(w: World, n: JobName)
    requires Lost(w) && Runs.Removable(w, n)
    ensures Lost(RemoveJob(w, n))
  {
    Runs.RemoveShape(w, n);
  }

  lemma ReconcileStaysLost(w: World, order: seq<JobName>, cron: Cron, now: Time)
    requires Lost(w) && IsListing(order, w.jobs) && now > w.history.clock
    ensures Reconcile(w, order, cron, now) == Tick(w, now) && Lost(Tick(w, now))
  {
    ReconcileIsResult(w, order, cron, now);
    Runs.ShapeFrame(w, Tick(w, now));
  }

  lemma {:induction false} StaysLost(w: World, steps: seq<Runs.Step>, cron: Cron)
    requires Lost(w) && Runs.ValidRun(w, steps, cron) && NoNews(steps)
    ensures var w1 := Runs.Execute(w, steps, cron);
            !PushCovered(w1) && w1.mirror == w.mirror && w1.history.created == w.history.created
    decreases |steps|
  {
    if steps != [] {
      StepStaysLost(w, steps[0], cron);
      assert NoNews(steps[1..]);
      StaysLost(Runs.Next(w, steps[0], cron), steps[1..], cron);
    }
  }

  /**
   Such a loss is permanent: without a schedule, an edit or a new push no later reconcile
   creates a Job or changes the status.
   */
  lemma CrashLossIsPermanent(clock: Time, steps: seq<Runs.Step>, cron: Cron, now: Time, later: seq<Runs.Step>)
    requires Runs.ValidRun(Initial("", clock), steps, cron) && NeverScheduled(steps)
    requires var w := Runs.Execute(Initial("", clock), steps, cron);
             Unsettled(w) && JobFinished(LastJob(w)) && w.mirror.status.pendingResync
             && Runs.ValidRun(Reflect(w, LastJob(w), now), later, cron) && NoNews(later)
    ensures var w := Runs.Execute(Initial("", clock), steps, cron);
            var w1 := Reflect(w, LastJob(w), now);
            var w2 := Runs.Execute(w1, later, cron);
            !PushCovered(w2) && w2.mirror == w1.mirror && w2.history.created == w1.history.created
  {
    InitialInv("", clock);
    RunPending(Initial("", clock), steps, cron);
    var w := Runs.Execute(Initial("", clock), steps, cron);
    LostAtRest(w, now);
    StaysLost(Reflect(w, LastJob(w), now), later, cron);
  }

  /** The scheduling patch of this request leaves PendingResync alone: its generation is outdated. */
  predicate PatchAbstains(m: Mirror, req: Request) {
    m.generation != req.generation && !req.purpose.ScheduledSync?
  }

  /** The cluster after a request that gets the lease: its Job created and recorded. */
  function RequestEnd(w: World, ctx: Context, req: Request): World {
    var w1 := CreateJob(w.(lease := Held(Some(req.name))), req.generation, req.name, req.revision);
    w1.(mirror := ScheduleMutation(ctx, req, w1.mirror))
  }

  /**
   A push that lands after a request was formed and before its first call, in any state: by
   the end of the request it is kept exactly if the request is refused, its patch abstains, or
   its Job is created and carries the revision the push asks for.
   */
  lemma PushBeforeRequest(w: World, ctx: Context, req: Request, cron: Cron, id: string, revision: string, at: Time)
    requires OkRequest(ctx, req) && w.mirror.status.lastDeliveryID != id
    ensures var w1, taken := Push(w, id, revision, at), Takeable(w.lease, w.jobs, req.generation, req.name);
            var w2 := if taken then RequestEnd(w1, ctx, req) else w1;
            && RunToEnd(w1, LeaseCreate(ctx, req), cron) ==
               (if taken then RunToEnd(w2, AfterSchedule(ctx, req), cron) else w2)
            && (Kept(w2) <==>
                  !taken || PatchAbstains(w.mirror, req) || (req.name !in w.jobs && req.revision == Wanted(w1)))
  {
    var w1 := Push(w, id, revision, at);
    LockCalls(w1, ctx, req, cron);
    if Takeable(w.lease, w.jobs, req.generation, req.name) {
      ScheduleCalls(CreateLocked(w1, req.generation, req.name, req.revision).1, ctx, req, cron);
      RequestServes(w1, ctx, req);
    }
  }

  /** The same between taking the lease and creating the Job. */
  lemma PushBeforeCreate(w: World, ctx: Context, req: Request, cron: Cron, id: string, revision: string, at: Time)
    requires OkRequest(ctx, req) && w.mirror.status.lastDeliveryID != id && w.lease == Held(Some(req.name))
    ensures var w1 := Push(w, id, revision, at);
            var w2 := RequestEnd(w1, ctx, req);
            && RunToEnd(w1, JobCreate(ctx, req), cron) == RunToEnd(w2, AfterSchedule(ctx, req), cron)
            && (Kept(w2) <==> PatchAbstains(w.mirror, req) || (req.name !in w.jobs && req.revision == Wanted(w1)))
  {
    var w1 := Push(w, id, revision, at);
    var w2 := CreateJob(w1, req.generation, req.name, req.revision);
    ScheduleCalls(w2, ctx, req, cron);
    RequestServes(w1, ctx, req);
  }

  lemma RequestServes(w: World, ctx: Context, req: Request)
    requires Unserved(w.history) && w.mirror.status.pendingResync
    ensures Kept(RequestEnd(w, ctx, req)) <==>
            PatchAbstains(w.mirror, req) || (req.name !in w.jobs && req.revision == Wanted(w))
  {
    var w1 := w.(lease := Held(Some(req.name)));
    if req.name !in w.jobs {
      CreationServes(w1, req.generation, req.name, req.revision);
    }
    var w2 := CreateJob(w1, req.generation, req.name, req.revision);
    assert Served(RequestEnd(w, ctx, req)) == Served(w2);
  }

  /**
   One that lands after the new Job was created and before the scheduling patch reads the
   object is kept exactly when that patch abstains: else it clears the flag just set.
   */
  lemma PushBeforeScheduleRead(w: World, ctx: Context, req: Request, cron: Cron, id: string, revision: string, at: Time)
    requires OkRequest(ctx, req) && w.mirror.status.lastDeliveryID != id
    ensures var w1 := Push(w, id, revision, at);
            var (w2, pc) := Do(w1, ScheduleGet(ctx, req), cron);
            && Ok(pc) && pc.SchedulePatch?
            && var (w3, _) := Do(w2, pc, cron);
            Kept(w3) <==> PatchAbstains(w.mirror, req)
  {}

  /**
   One that lands between that read and the patch is kept iff nothing was pending at the read,
   or the patch abstains.
   */
  lemma PushAfterScheduleRead(w: World, ctx: Context, req: Request, cron: Cron, id: string, revision: string, at: Time)
    requires OkRequest(ctx, req) && w.mirror.status.lastDeliveryID != id
    ensures var (w1, pc) := Do(w, ScheduleGet(ctx, req), cron);
            && Ok(pc) && pc.SchedulePatch?
            && var (w2, _) := Do(Push(w1, id, revision, at), pc, cron);
            Kept(w2) <==> !w.mirror.status.pendingResync || PatchAbstains(w.mirror, req)
  {}

  /** One that lands between read and write of a completion patch is kept iff that patch asks for no follow-up. */
  lemma PushDuringReflect(w: World, ctx: Context, i: nat, read: Mirror, cron: Cron,
                          id: string, revision: string, at: Time)
    requires i < |ctx.items| && w.mirror.status.lastDeliveryID != id
    ensures var (w1, _) := Do(Push(w, id, revision, at), ReflectPatch(ctx, i, read), cron);
            Kept(w1) <==> !Reflected(read, ctx.items[i], ctx.now).1
  {}

  /**
   One that lands before the fallback of an older snapshot is kept iff that starts no sync, or
   creates a Job when no revision is asked for.
   */
  lemma PushBeforeFallback(w: World, ctx: Context, cron: Cron, id: string, revision: string, at: Time)
    requires w.mirror.status.lastDeliveryID != id
    ensures var w1 := Push(w, id, revision, at);
            Kept(RunToEnd(w1, FallbackCheck(ctx), cron)) <==>
            (FallbackStarts(w, ctx, cron) ==> Wanted(w1) == "" && ForSchedule(ctx.now) !in w.jobs)
  {
    var w1 := Push(w, id, revision, at);
    FallbackCalls(w1, ctx, cron);
    if FallbackStarts(w, ctx, cron) {
      var req := Request(ScheduledSync, ctx.snap.generation, ForSchedule(ctx.now), "");
      RequestServes(w1, ctx, req);
    }
  }

  /**
   A push whose delivery id may have been used before, in a state at rest after any run: the
   pending flag is cleared in any case, and the push is kept iff no Job of that name is stored.
   */
  lemma ReusedTriggerLosesPush(schedule: string, clock: Time, steps: seq<Runs.Step>, cron: Cron,
                               id: string, revision: string, at: Time, now: Time)
    requires Runs.ValidRun(Initial(schedule, clock), steps, cron) && id != ""
    requires var w := Runs.Execute(Initial(schedule, clock), steps, cron);
             Quiescent(w) && w.mirror.status.lastDeliveryID != id
    ensures var w := Runs.Execute(Initial(schedule, clock), steps, cron);
            var w1 := Push(w, id, revision, at);
            var (stop, w2) := PendingResync(w1, w1.mirror, false, now);
            && !stop && !w2.mirror.status.pendingResync
            && (PushCovered(w2) <==> ForDelivery(id) !in w.jobs)
  {
    InitialInv(schedule, clock);
    Runs.RunInv(Initial(schedule, clock), steps, cron);
    PendingPushServed(Runs.Execute(Initial(schedule, clock), steps, cron), id, revision, at, now);
  }

  lemma PendingPushServed(w: World, id: string, revision: string, at: Time, now: Time)
    requires Inv(w) && Quiescent(w) && id != "" && w.mirror.status.lastDeliveryID != id
    ensures var w1 := Push(w, id, revision, at);
            var (stop, w2) := PendingResync(w1, w1.mirror, false, now);
            && !stop && !w2.mirror.status.pendingResync
            && (PushCovered(w2) <==> ForDelivery(id) !in w.jobs)
  {
    LockFree(w, ForDelivery(id));
    var w1 := Push(w, id, revision, at);
    var (_, w2) := PendingResync(w1, w1.mirror, false, now);
    var c, c' := w.history.created, w2.history.created;
    if ForDelivery(id) in w.jobs {
      assert c' == c;
    } else {
      assert c' == c + [Created(ForDelivery(id), w.mirror.generation, w1.mirror.status.lastRequestedRevision)];
    }
  }

  /******* Order *******/

  lemma {:induction false} LoopExtends(w: World, snap: Mirror, items: seq<Job>, i: nat, now: Time)
    requires i <= |items|
    ensures w.history.reflected <= CompletedJobs(w, snap, items, i, now).1.history.reflected
    decreases |items| - i
  {
    if i < |items| {
      if Skips(snap, items, items[i]) {
        LoopExtends(w, snap, items, i + 1, now);
      } else {
        var (stop, w1) := CompleteOne(w, snap, items[i], now);
        if !stop {
          LoopExtends(w1, snap, items, i + 1, now);
        }
      }
    }
  }

  lemma CompleteOneReflects(w: World, snap: Mirror, job: Job, now: Time)
    requires Reflects(w.mirror, job)
    ensures CompleteOne(w, snap, job, now).1.history.reflected ==
            w.history.reflected + [Reflection(job.serial, job.phase, job.revision, now)]
  {}

  lemma LaterPhasesReflectNothing(w: World, snap: Mirror, active: bool, cron: Cron, now: Time)
    ensures AfterCompleted(w, snap, active, cron, now).history.reflected == w.history.reflected
  {}

  /** If some Job in the list is not passed over, such a Job is reflected next. */
  lemma {:induction false} LoopReflects(w: World, snap: Mirror, items: seq<Job>, i: nat, now: Time) returns (j: nat)
    requires exists k :: i <= k < |items| && !Skips(snap, items, items[k])
    requires forall k :: i <= k < |items| && !Skips(snap, items, items[k]) ==> Reflects(w.mirror, items[k])
    ensures i <= j < |items| && !Skips(snap, items, items[j])
    ensures w.history.reflected + [Reflection(items[j].serial, items[j].phase, items[j].revision, now)]
            <= CompletedJobs(w, snap, items, i, now).1.history.reflected
    decreases |items| - i
  {
    if Skips(snap, items, items[i]) {
      j := LoopReflects(w, snap, items, i + 1, now);
    } else {
      j := i;
      var (stop, w1) := CompleteOne(w, snap, items[i], now);
      CompleteOneReflects(w, snap, items[i], now);
      if !stop {
        LoopExtends(w1, snap, items, i + 1, now);
      }
    }
  }

  /** The newest reflection is that of LastCompletedJobName; other current Jobs but the last are older. */
  lemma OthersOlder(w: World, k: JobName)
    requires Inv(w) && Current(w, k) && w.mirror.status.lastJobName != Some(k)
    requires w.mirror.status.lastCompletedJobName != Some(k)
    ensures var rs := w.history.reflected; rs != [] && w.jobs[k].serial < rs[|rs| - 1].serial
  {
    assert JobRecorded(w, k);
  }

  /** Every other Job of the generation is the one LastCompletedJobName names. */
  ghost predicate OnlyCompletedBeside(w: World, n: JobName) {
    forall k :: Current(w, k) && k != n ==> w.mirror.status.lastCompletedJobName == Some(k)
  }

  /**
   Removing a Job of the current generation, in whatever phase, keeps the next reconcile's
   reflections in order of creation exactly when it is not the last Job, or none is stored
   beside it but the last completed one: any other is reflected once more, and
   LastCompletedJobName steps back.
   */
  lemma RemovalKeepsOrder(w: World, n: JobName, order: seq<JobName>, cron: Cron, now: Time)
    requires Inv(w) && Current(w, n)
    requires IsListing(order, RemoveJob(w, n).jobs) && now > w.history.clock
    ensures Increasing(Reconcile(RemoveJob(w, n), order, cron, now).history.reflected)
            <==> w.mirror.status.lastJobName != Some(n) || OnlyCompletedBeside(w, n)
  {
    var w1 := RemoveJob(w, n);
    if w.mirror.status.lastJobName != Some(n) {
      Runs.RemoveInv(w, n);
      ReconcileIsResult(w1, order, cron, now);
      Runs.ReconcileInv(w1, cron, now);
    } else if OnlyCompletedBeside(w, n) {
      RemovalReflectsNothing(w, n, order, cron, now);
    } else {
      RemovalStepsBack(w, n, order, cron, now);
    }
  }

  /** What is left of the current list: the other current Jobs, all finished. */
  lemma RemainingItems(w: World, n: JobName, order: seq<JobName>, items: seq<Job>)
    requires Inv(w) && Current(w, n) && w.mirror.status.lastJobName == Some(n)
    requires IsListing(order, RemoveJob(w, n).jobs)
    requires items == JobsForGeneration(Listed(order, RemoveJob(w, n).jobs), w.mirror.generation)
    ensures forall k :: 0 <= k < |items| ==>
              Current(w, items[k].name) && items[k].name != n
              && items[k] == w.jobs[items[k].name] && JobFinished(items[k])
    ensures forall k :: Current(w, k) && k != n ==> w.jobs[k] in items
  {
    var w1, g := RemoveJob(w, n), w.mirror.generation;
    assert forall k :: k in w1.jobs ==> JobRecorded(w, k);
    ListedItems(w1.jobs, order, g, items);
    forall k | 0 <= k < |items|
      ensures Current(w, items[k].name) && items[k].name != n && items[k] == w.jobs[items[k].name]
    {
      assert JobRecorded(w, items[k].name);
    }
    forall k | Current(w, k) && k != n ensures w.jobs[k] in items {
      assert w1.jobs[k] == w.jobs[k] && GenerationMatches(w1.jobs[k], g);
    }
  }

  lemma RemovalReflectsNothing(w: World, n: JobName, order: seq<JobName>, cron: Cron, now: Time)
    requires Inv(w) && Current(w, n) && w.mirror.status.lastJobName == Some(n) && OnlyCompletedBeside(w, n)
    requires IsListing(order, RemoveJob(w, n).jobs)
    ensures Reconcile(RemoveJob(w, n), order, cron, now).history.reflected == w.history.reflected
  {
    var w1 := RemoveJob(w, n);
    var items := JobsForGeneration(Listed(order, w1.jobs), w.mirror.generation);
    RemainingItems(w, n, order, items);
    AllSkipped(Tick(w1, now), w.mirror, items, 0, now);
    LaterPhasesReflectNothing(Tick(w1, now), w.mirror, ActiveJobExists(items), cron, now);
  }

  lemma RemovalStepsBack(w: World, n: JobName, order: seq<JobName>, cron: Cron, now: Time)
    requires Inv(w) && Current(w, n) && w.mirror.status.lastJobName == Some(n) && !OnlyCompletedBeside(w, n)
    requires IsListing(order, RemoveJob(w, n).jobs)
    ensures !Increasing(Reconcile(RemoveJob(w, n), order, cron, now).history.reflected)
  {
    var w1 := Tick(RemoveJob(w, n), now);
    var items := JobsForGeneration(Listed(order, w1.jobs), w.mirror.generation);
    RemainingItems(w, n, order, items);
    var other :| Current(w, other) && other != n && w.mirror.status.lastCompletedJobName != Some(other);
    assert w.jobs[other] in items && JobRecorded(w, other);
    OlderReflected(w, n, items, w1, other, cron, now);
  }

  lemma OlderReflected(w: World, n: JobName, items: seq<Job>, w1: World, other: JobName, cron: Cron, now: Time)
    requires Inv(w) && w.mirror.status.lastJobName == Some(n) && w1.mirror == w.mirror
    requires w1.history.reflected == w.history.reflected
    requires forall k :: 0 <= k < |items| ==>
               Current(w, items[k].name) && items[k].name != n
               && items[k] == w.jobs[items[k].name] && JobFinished(items[k])
    requires other in w.jobs && w.jobs[other] in items && w.jobs[other].name == other
    requires w.mirror.status.lastCompletedJobName != Some(other)
    ensures var (stop, w2) := CompletedJobs(w1, w.mirror, items, 0, now);
            && !Increasing(w2.history.reflected)
            && !Increasing(AfterCompleted(w2, w.mirror, ActiveJobExists(items), cron, now).history.reflected)
  {
    var p :| 0 <= p < |items| && items[p] == w.jobs[other];
    assert !Skips(w.mirror, items, items[p]);
    var j := LoopReflects(w1, w.mirror, items, 0, now);
    OthersOlder(w, items[j].name);
    var (stop, w2) := CompletedJobs(w1, w.mirror, items, 0, now);
    var rs, rs' := w.history.reflected, w2.history.reflected;
    assert rs'[|rs| - 1] == rs[|rs| - 1] && rs'[|rs|].serial == items[j].serial;
    LaterPhasesReflectNothing(w2, w.mirror, ActiveJobExists(items), cron, now);
  }
}
