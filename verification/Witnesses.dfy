/**
 Runs of one reconciler, call by call from a freshly created GitMirror, that lose a push or
 the lease of a running Job (see `Limits` and `PushFate`).  `SoloWitness`, `Crews` and
 `RunWitnesses` hold the other runs.
 */
module Witnesses {
  import opened Base
  import opened GitMirrorStatus
  import opened Scheduling
  import opened Invariants
  import opened SmallStep
  import opened Exclusion
  import opened Limits
  import opened PushFate

  /******* One reconciler, call by call *******/

  ghost predicate Leads(s: Sys, s': Sys, cron: Cron) {
    exists acts :: ValidRun(s, acts, cron) && Execute(s, acts, cron) == s'
  }

  lemma {:induction false} ActsConcatenate(s: Sys, a: seq<Act>, b: seq<Act>, cron: Cron)
    requires ValidRun(s, a, cron) && ValidRun(Execute(s, a, cron), b, cron)
    ensures ValidRun(s, a + b, cron) && Execute(s, a + b, cron) == Execute(Execute(s, a, cron), b, cron)
    decreases |a|
  {
    if a == [] {
      assert a + b == b;
    } else {
      ActsConcatenate(Next(s, a[0], cron), a[1..], b, cron);
      assert (a + b)[0] == a[0] && (a + b)[1..] == a[1..] + b;
    }
  }

  lemma Then(s: Sys, s1: Sys, s2: Sys, cron: Cron)
    requires Leads(s, s1, cron) && Leads(s1, s2, cron)
    ensures Leads(s, s2, cron)
  {
    var a :| ValidRun(s, a, cron) && Execute(s, a, cron) == s1;
    var b :| ValidRun(s1, b, cron) && Execute(s1, b, cron) == s2;
    ActsConcatenate(s, a, b, cron);
  }

  lemma One(s: Sys, a: Act, cron: Cron)
    requires Enabled(s, a)
    ensures Leads(s, Next(s, a, cron), cron)
  {
    var acts := [a];
    assert acts[1..] == [];
    assert ValidRun(Next(s, a, cron), [], cron);
    assert ValidRun(s, acts, cron) && Execute(s, acts, cron) == Next(s, a, cron);
  }

  /** One more act. */
  lemma Step(s: Sys, s1: Sys, a: Act, cron: Cron)
    requires Leads(s, s1, cron) && Enabled(s1, a)
    ensures Leads(s, Next(s1, a, cron), cron)
  {
    One(s1, a, cron);
    Then(s, s1, Next(s1, a, cron), cron);
  }

  /** The two reads that begin a reconcile. */
  lemma Listing(w: World, order: seq<JobName>, now: Time, cron: Cron)
    requires IsListing(order, w.jobs)
    ensures Leads(Sys(w, Idle), Sys(Tick(w, now), Loop(ContextOf(w, order, now), 0)), cron)
  {
    One(Sys(w, Idle), Begin(now), cron);
    Step(Sys(w, Idle), Sys(Tick(w, now), ListJobs(w.mirror, now)), List(order), cron);
  }

  /** A completion loop with nothing to reflect goes on to the generation check. */
  lemma {:induction false} SkipCalls(w: World, ctx: Context, i: nat, cron: Cron)
    requires i <= |ctx.items| && !LeftItem(ctx, i)
    ensures Leads(Sys(w, Loop(ctx, i)), Sys(w, GenerationCheck(ctx)), cron)
    decreases |ctx.items| - i
  {
    One(Sys(w, Loop(ctx, i)), Call, cron);
    if i < |ctx.items| {
      SkipCalls(w, ctx, i + 1, cron);
      Then(Sys(w, Loop(ctx, i)), Sys(w, Loop(ctx, i + 1)), Sys(w, GenerationCheck(ctx)), cron);
    }
  }

  /** A reconcile that finds no Jobs, up to the generation check. */
  lemma Opening(w: World, now: Time, cron: Cron)
    requires w.jobs == map[]
    ensures Leads(Sys(w, Idle), Sys(Tick(w, now), GenerationCheck(Context(w.mirror, [], now))), cron)
  {
    Listing(w, [], now, cron);
    assert ContextOf(w, [], now) == Context(w.mirror, [], now);
    Step(Sys(w, Idle), Sys(Tick(w, now), Loop(Context(w.mirror, [], now), 0)), Call, cron);
  }

  /** Taking the lease, in whatever number of calls it needs. */
  lemma Locking(w: World, ctx: Context, req: Request, cron: Cron)
    requires OkRequest(ctx, req) && Takeable(w.lease, w.jobs, req.generation, req.name)
    ensures Leads(Sys(w, LeaseCreate(ctx, req)), Sys(w.(lease := Held(Some(req.name))), JobCreate(ctx, req)), cron)
  {
    var s0, s1, s2 := Sys(w, LeaseCreate(ctx, req)), Sys(w, LeaseGet(ctx, req)), Sys(w, LeaseUpdate(ctx, req));
    One(s0, Call, cron);
    if w.lease.Held? {
      Step(s0, s1, Call, cron);
      if w.lease.holder.Some? && w.lease.holder != Some(req.name) {
        Step(s0, Sys(w, HolderGet(ctx, req, w.lease.holder.value)), Call, cron);
      }
      Step(s0, s2, Call, cron);
    }
  }

  lemma Creating(w: World, ctx: Context, req: Request, cron: Cron)
    requires OkRequest(ctx, req) && req.name !in w.jobs && Fresh(w, req.name)
    ensures Leads(Sys(w, JobCreate(ctx, req)),
                  Sys(CreateJob(w, req.generation, req.name, req.revision), ScheduleGet(ctx, req)), cron)
  {
    One(Sys(w, JobCreate(ctx, req)), Call, cron);
  }

  /** Recording the new Job in status. */
  lemma Recording(w: World, ctx: Context, req: Request, cron: Cron)
    requires OkRequest(ctx, req)
    ensures Leads(Sys(w, ScheduleGet(ctx, req)),
                  Sys(w.(mirror := ScheduleMutation(ctx, req, w.mirror)), AfterSchedule(ctx, req)), cron)
  {
    var m := ScheduleMutation(ctx, req, w.mirror);
    assert PatchMirror(w, w.mirror, m) == w.(mirror := m);
    One(Sys(w, ScheduleGet(ctx, req)), Call, cron);
    Step(Sys(w, ScheduleGet(ctx, req)), Sys(w, SchedulePatch(ctx, req, w.mirror)), Call, cron);
  }

  function NewGenerationRequest(m: Mirror): Request {
    Request(NewGeneration, m.generation, ForGeneration(m.generation), m.status.lastRequestedRevision)
  }

  function PendingRequest(m: Mirror, now: Time): Request {
    Request(PendingSync, m.generation, PendingTrigger(m.status, now), m.status.lastRequestedRevision)
  }

  /** From nothing to the creation of the Job of an unobserved generation. */
  lemma ToNewGeneration(w: World, now: Time, cron: Cron)
    requires w.jobs == map[] && Unobserved(w.mirror)
    ensures var ctx, req := Context(w.mirror, [], now), NewGenerationRequest(w.mirror);
            Leads(Sys(w, Idle), Sys(Tick(w, now).(lease := Held(Some(req.name))), JobCreate(ctx, req)), cron)
  {
    var ctx, req, w1 := Context(w.mirror, [], now), NewGenerationRequest(w.mirror), Tick(w, now);
    Opening(w, now, cron);
    Step(Sys(w, Idle), Sys(w1, GenerationCheck(ctx)), Call, cron);
    Locking(w1, ctx, req, cron);
    var locked := Sys(w1.(lease := Held(Some(req.name))), JobCreate(ctx, req));
    Then(Sys(w, Idle), Sys(w1, LeaseCreate(ctx, req)), locked, cron);
  }

  /** From nothing to the request for a pending push. */
  lemma ToPendingRequest(w: World, now: Time, cron: Cron)
    requires w.jobs == map[] && !Unobserved(w.mirror) && w.mirror.status.pendingResync
    ensures var ctx := Context(w.mirror, [], now);
            Leads(Sys(w, Idle), Sys(Tick(w, now), LeaseCreate(ctx, PendingRequest(w.mirror, now))), cron)
  {
    var ctx, w1 := Context(w.mirror, [], now), Tick(w, now);
    Opening(w, now, cron);
    Step(Sys(w, Idle), Sys(w1, GenerationCheck(ctx)), Call, cron);
    Step(Sys(w, Idle), Sys(w1, PendingCheck(ctx)), Call, cron);
  }

  lemma ToPendingCreate(w: World, now: Time, cron: Cron)
    requires w.jobs == map[] && !Unobserved(w.mirror) && w.mirror.status.pendingResync
    ensures var ctx, req := Context(w.mirror, [], now), PendingRequest(w.mirror, now);
            Leads(Sys(w, Idle), Sys(Tick(w, now).(lease := Held(Some(req.name))), JobCreate(ctx, req)), cron)
  {
    var ctx, req, w1 := Context(w.mirror, [], now), PendingRequest(w.mirror, now), Tick(w, now);
    ToPendingRequest(w, now, cron);
    Locking(w1, ctx, req, cron);
    var locked := Sys(w1.(lease := Held(Some(req.name))), JobCreate(ctx, req));
    Then(Sys(w, Idle), Sys(w1, LeaseCreate(ctx, req)), locked, cron);
  }

  /** The Job of a request is created and recorded, the lease being held. */
  lemma Launching(w: World, ctx: Context, req: Request, cron: Cron)
    requires OkRequest(ctx, req) && req.name !in w.jobs && Fresh(w, req.name) && w.lease == Held(Some(req.name))
    ensures Leads(Sys(w, JobCreate(ctx, req)), Sys(RequestEnd(w, ctx, req), AfterSchedule(ctx, req)), cron)
  {
    var w1 := CreateJob(w, req.generation, req.name, req.revision);
    Creating(w, ctx, req, cron);
    Recording(w1, ctx, req, cron);
    Then(Sys(w, JobCreate(ctx, req)), Sys(w1, ScheduleGet(ctx, req)),
         Sys(RequestEnd(w, ctx, req), AfterSchedule(ctx, req)), cron);
  }

  /** A request from its first call to its last: the lease taken, the Job created and recorded. */
  lemma Serving(w: World, ctx: Context, req: Request, cron: Cron)
    requires OkRequest(ctx, req) && Takeable(w.lease, w.jobs, req.generation, req.name)
    requires req.name !in w.jobs && Fresh(w, req.name)
    ensures Leads(Sys(w, LeaseCreate(ctx, req)), Sys(RequestEnd(w, ctx, req), AfterSchedule(ctx, req)), cron)
  {
    var w1 := w.(lease := Held(Some(req.name)));
    Locking(w, ctx, req, cron);
    Launching(w1, ctx, req, cron);
    assert RequestEnd(w1, ctx, req) == RequestEnd(w, ctx, req);
    Then(Sys(w, LeaseCreate(ctx, req)), Sys(w1, JobCreate(ctx, req)),
         Sys(RequestEnd(w, ctx, req), AfterSchedule(ctx, req)), cron);
  }

  /** With the generation observed and nothing pending, the checks lead to the fallback. */
  lemma ToFallbackCheck(w: World, ctx: Context, cron: Cron)
    requires !Unobserved(ctx.snap) && !(ctx.snap.status.pendingResync && w.mirror.status.pendingResync)
    ensures Leads(Sys(w, GenerationCheck(ctx)), Sys(w, FallbackCheck(ctx)), cron)
  {
    One(Sys(w, GenerationCheck(ctx)), Call, cron);
    Step(Sys(w, GenerationCheck(ctx)), Sys(w, PendingCheck(ctx)), Call, cron);
  }

  /** The Job of the first generation runs, holds the lease and is recorded. */
  predicate FirstRunning(w: World, schedule: string) {
    var st := w.mirror.status;
    && w.jobs == map[ForGeneration(1) := Job(ForGeneration(1), At(1), "", Phase.Running, false, 0)]
    && w.lease == Held(Some(ForGeneration(1)))
    && w.mirror.generation == 1 && w.mirror.schedule == schedule
    && st.observedGeneration == 1 && !st.pendingResync && st.lastDeliveryID == "" && st.lastRequestedRevision == ""
    && st.lastTriggeredAt == Some(1) && st.lastJobName == Some(ForGeneration(1)) && st.lastCompletedJobName == None
    && w.history.created == [Created(ForGeneration(1), 1, "")]
  }

  lemma FirstSyncRuns(schedule: string, cron: Cron) returns (w: World)
    ensures FirstRunning(w, schedule) && Leads(Start(schedule, 0), Sys(w, Idle), cron)
  {
    var w0, s0 := Initial(schedule, 0), Start(schedule, 0);
    var ctx, req := Context(w0.mirror, [], 1), NewGenerationRequest(w0.mirror);
    var w1 := Tick(w0, 1).(lease := Held(Some(req.name)));
    ToNewGeneration(w0, 1, cron);
    Launching(w1, ctx, req, cron);
    w := RequestEnd(w1, ctx, req);
    Then(s0, Sys(w1, JobCreate(ctx, req)), Sys(w, Idle), cron);
  }

  /** The first generation is observed, and its Job already gone. */
  predicate Emptied(w: World, schedule: string) {
    && w.jobs == map[] && w.lease == Held(Some(ForGeneration(1)))
    && w.mirror.generation == 1 && w.mirror.schedule == schedule
    && w.mirror.status.observedGeneration == 1 && !w.mirror.status.pendingResync
    && w.mirror.status.lastDeliveryID == "" && w.mirror.status.lastTriggeredAt == Some(1)
    && w.history.created == [Created(ForGeneration(1), 1, "")]
  }

  lemma EmptiedReached(schedule: string, cron: Cron) returns (w: World)
    ensures Emptied(w, schedule) && Leads(Start(schedule, 0), Sys(w, Idle), cron)
  {
    var w1 := FirstSyncRuns(schedule, cron);
    w := RemoveJob(w1, ForGeneration(1));
    Step(Start(schedule, 0), Sys(w1, Idle), Remove(ForGeneration(1)), cron);
    assert w.jobs == map[];
  }

  /******* Pushes while a request is under way *******/

  /** A push before the Job is created, which carries the revision asked for earlier. */
  lemma PushBeforeCreateReached(cron: Cron, revision: string) returns (s: Sys)
    requires revision != ""
    ensures Leads(Start("", 0), s, cron) && s.pc == Idle && !Kept(s.w)
  {
    var w0, s0 := Initial("", 0), Start("", 0);
    var ctx, req := Context(w0.mirror, [], 1), NewGenerationRequest(w0.mirror);
    var w1 := Tick(w0, 1).(lease := Held(Some(req.name)));
    ToNewGeneration(w0, 1, cron);
    Step(s0, Sys(w1, JobCreate(ctx, req)), Deliver("delivery", revision, 2), cron);
    var w2 := Push(w1, "delivery", revision, 2);
    Launching(w2, ctx, req, cron);
    s := Sys(RequestEnd(w2, ctx, req), Idle);
    Then(s0, Sys(w2, JobCreate(ctx, req)), s, cron);
  }

  /** A push before any request: the due fallback of the older snapshot syncs and clears the flag. */
  lemma PushBeforeFallbackReached(schedule: string, cron: Cron, revision: string) returns (s: Sys)
    requires schedule != "" && cron.parses(schedule) && revision != ""
    requires cron.next(schedule, 1).Some? ==> cron.next(schedule, 1).value <= 2
    ensures Leads(Start(schedule, 0), s, cron) && s.pc == Idle && !Kept(s.w)
  {
    var s0 := Start(schedule, 0);
    var w := EmptiedReached(schedule, cron);
    var ctx, w1 := Context(w.mirror, [], 2), Tick(w, 2);
    Opening(w, 2, cron);
    Then(s0, Sys(w, Idle), Sys(w1, GenerationCheck(ctx)), cron);
    Step(s0, Sys(w1, GenerationCheck(ctx)), Deliver("delivery", revision, 2), cron);
    var w2 := Push(w1, "delivery", revision, 2);
    s := FallbackIgnores(w2, ctx, schedule, cron);
    Then(s0, Sys(w2, GenerationCheck(ctx)), s, cron);
  }

  lemma FallbackIgnores(w: World, ctx: Context, schedule: string, cron: Cron) returns (s: Sys)
    requires schedule != "" && cron.parses(schedule)
    requires cron.next(schedule, 1).Some? ==> cron.next(schedule, 1).value <= 2
    requires ctx.items == [] && ctx.now == 2 && Emptied(w.(mirror := ctx.snap), schedule)
    requires w.mirror.generation == 1 && w.mirror.status.lastRequestedRevision != "" && w.history.pushMark == Some(1)
    ensures Leads(Sys(w, GenerationCheck(ctx)), s, cron) && s.pc == Idle && !Kept(s.w)
  {
    var req := Request(ScheduledSync, 1, ForSchedule(2), "");
    var s0 := Sys(w, GenerationCheck(ctx));
    ToFallbackCheck(w, ctx, cron);
    assert Do(w, FallbackCheck(ctx), cron) == (w, LeaseCreate(ctx, req));
    Step(s0, Sys(w, FallbackCheck(ctx)), Call, cron);
    Serving(w, ctx, req, cron);
    s := Sys(RequestEnd(w, ctx, req), Idle);
    Then(s0, Sys(w, LeaseCreate(ctx, req)), s, cron);
    RequestForgets(w, ctx, req);
  }

  lemma RequestForgets(w: World, ctx: Context, req: Request)
    requires w.mirror.status.lastRequestedRevision != req.revision && w.history.pushMark == Some(1)
    requires |w.history.created| == 1 && req.name !in w.jobs && req.generation == w.mirror.generation
    ensures !Kept(RequestEnd(w, ctx, req))
  {}

  /******* A push around the completion patch *******/

  /** One Job of the generation: the list holds it alone. */
  lemma OneListed(w: World, n: JobName)
    requires w.jobs.Keys == {n} && w.jobs[n].annotation == At(w.mirror.generation)
    ensures IsListing([n], w.jobs) && JobsForGeneration(Listed([n], w.jobs), w.mirror.generation) == [w.jobs[n]]
  {
    var items := Listed([n], w.jobs);
    assert n in w.jobs.Keys && items == [w.jobs[n]] && items[..0] == [];
  }

  /** The first sync has completed while a push was pending. */
  predicate FirstFinished(w: World, revision: string) {
    var st := w.mirror.status;
    && w.jobs == map[ForGeneration(1) := Job(ForGeneration(1), At(1), "", Phase.Complete, false, 0)]
    && w.lease == Held(Some(ForGeneration(1))) && w.mirror.generation == 1 && w.mirror.schedule == ""
    && st.observedGeneration == 1 && st.pendingResync && st.lastDeliveryID == "first"
    && st.lastRequestedRevision == revision
    && st.lastJobName == Some(ForGeneration(1)) && st.lastCompletedJobName == None
    && w.history.created == [Created(ForGeneration(1), 1, "")]
  }

  lemma FirstFinishedReached(cron: Cron, revision: string) returns (w: World)
    ensures FirstFinished(w, revision) && Leads(Start("", 0), Sys(w, Idle), cron)
  {
    var w1 := FirstSyncRuns("", cron);
    var w2 := Push(w1, "first", revision, 2);
    Step(Start("", 0), Sys(w1, Idle), Deliver("first", revision, 2), cron);
    Step(Start("", 0), Sys(w2, Idle), Finish(ForGeneration(1), Phase.Complete), cron);
    w := FinishJob(w2, ForGeneration(1), Phase.Complete);
  }

  /** A second push between read and write of the completion patch: the follow-up serves only the first. */
  lemma PushDuringReflectReached(cron: Cron, r1: string, r2: string) returns (s: Sys)
    requires r2 != "" && r1 != r2
    ensures Leads(Start("", 0), s, cron) && s.pc == Idle && !Kept(s.w)
  {
    var s0 := Start("", 0);
    var w := FirstFinishedReached(cron, r1);
    OneListed(w, ForGeneration(1));
    Listing(w, [ForGeneration(1)], 3, cron);
    var ctx, w1 := ContextOf(w, [ForGeneration(1)], 3), Tick(w, 3);
    Then(s0, Sys(w, Idle), Sys(w1, Loop(ctx, 0)), cron);
    Step(s0, Sys(w1, Loop(ctx, 0)), Call, cron);
    Step(s0, Sys(w1, ReflectPatch(ctx, 0, w.mirror)), Deliver("second", r2, 4), cron);
    var w2 := Push(w1, "second", r2, 4);
    var w3 := FollowupAsked(w2, ctx, r1, r2, cron);
    Then(s0, Sys(w2, ReflectPatch(ctx, 0, w.mirror)), Sys(w3, LeaseCreate(ctx, FollowupRequest(r1))), cron);
    s := FollowupForgets(w3, ctx, r1, cron);
    Then(s0, Sys(w3, LeaseCreate(ctx, FollowupRequest(r1))), s, cron);
  }

  function FollowupRequest(revision: string): Request {
    Request(Followup(0), 1, ForResync(3), revision)
  }

  lemma FollowupAsked(w: World, ctx: Context, r1: string, r2: string, cron: Cron) returns (w1: World)
    requires FirstFinished(w.(mirror := ctx.snap), r1) && ctx == Context(ctx.snap, [w.jobs[ForGeneration(1)]], 3)
    requires w.mirror.generation == 1 && w.mirror.status.lastRequestedRevision == r2
    ensures Leads(Sys(w, ReflectPatch(ctx, 0, ctx.snap)), Sys(w1, LeaseCreate(ctx, FollowupRequest(r1))), cron)
    ensures w1.jobs == w.jobs && w1.lease == NoLease && w1.history.created == w.history.created
    ensures w1.history.pushMark == w.history.pushMark && w1.mirror.generation == 1
    ensures w1.mirror.status.lastRequestedRevision == r2
  {
    var s0 := Sys(w, ReflectPatch(ctx, 0, ctx.snap));
    One(s0, Call, cron);
    var w2 := Do(w, s0.pc, cron).0;
    Step(s0, Sys(w2, ReleaseGet(ctx, 0, true, r1)), Call, cron);
    Step(s0, Sys(w2, ReleaseDelete(ctx, 0, true, r1)), Call, cron);
    w1 := w2.(lease := NoLease);
  }

  lemma FollowupForgets(w: World, ctx: Context, r1: string, cron: Cron) returns (s: Sys)
    requires |ctx.items| == 1 && JobFinished(ctx.items[0]) && ctx.now == 3 && !Unobserved(ctx.snap)
    requires ctx.snap.schedule == "" && w.lease == NoLease && w.mirror.generation == 1
    requires w.jobs.Keys == {ForGeneration(1)} && w.history.created == [Created(ForGeneration(1), 1, "")]
    requires w.history.pushMark == Some(1) && w.mirror.status.lastRequestedRevision != r1
    ensures Leads(Sys(w, LeaseCreate(ctx, FollowupRequest(r1))), s, cron) && s.pc == Idle && !Kept(s.w)
  {
    var req := FollowupRequest(r1);
    var s0, w1 := Sys(w, LeaseCreate(ctx, req)), RequestEnd(w, ctx, req);
    Serving(w, ctx, req, cron);
    SkipCalls(w1, ctx, 1, cron);
    Then(s0, Sys(w1, Loop(ctx, 1)), Sys(w1, GenerationCheck(ctx)), cron);
    ToFallbackCheck(w1, ctx, cron);
    Then(s0, Sys(w1, GenerationCheck(ctx)), Sys(w1, FallbackCheck(ctx)), cron);
    s := Sys(w1, Idle);
    Step(s0, Sys(w1, FallbackCheck(ctx)), Call, cron);
  }

  /******* Pushes around the scheduling patch *******/

  lemma PushBeforeReadReached(cron: Cron, revision: string) returns (s: Sys)
    ensures Leads(Start("", 0), s, cron) && s.pc == Idle && !Kept(s.w)
  {
    var w0, s0 := Initial("", 0), Start("", 0);
    var ctx, req := Context(w0.mirror, [], 1), NewGenerationRequest(w0.mirror);
    var w1 := Tick(w0, 1).(lease := Held(Some(req.name)));
    ToNewGeneration(w0, 1, cron);
    Creating(w1, ctx, req, cron);
    var w2 := CreateJob(w1, req.generation, req.name, req.revision);
    Then(s0, Sys(w1, JobCreate(ctx, req)), Sys(w2, ScheduleGet(ctx, req)), cron);
    Step(s0, Sys(w2, ScheduleGet(ctx, req)), Deliver("delivery", revision, 2), cron);
    var w3 := Push(w2, "delivery", revision, 2);
    Recording(w3, ctx, req, cron);
    s := Sys(w3.(mirror := ScheduleMutation(ctx, req, w3.mirror)), Idle);
    Then(s0, Sys(w3, ScheduleGet(ctx, req)), s, cron);
  }

  lemma PushAfterReadReached(cron: Cron, r1: string, r2: string) returns (s: Sys)
    ensures Leads(Start("", 0), s, cron) && s.pc == Idle && !Kept(s.w)
  {
    var s0, w0 := Start("", 0), Push(Initial("", 0), "first", r1, 1);
    One(s0, Deliver("first", r1, 1), cron);
    var ctx, req := Context(w0.mirror, [], 1), NewGenerationRequest(w0.mirror);
    var w1 := Tick(w0, 1).(lease := Held(Some(req.name)));
    ToNewGeneration(w0, 1, cron);
    Then(s0, Sys(w0, Idle), Sys(w1, JobCreate(ctx, req)), cron);
    Creating(w1, ctx, req, cron);
    var w2 := CreateJob(w1, req.generation, req.name, req.revision);
    Then(s0, Sys(w1, JobCreate(ctx, req)), Sys(w2, ScheduleGet(ctx, req)), cron);
    Step(s0, Sys(w2, ScheduleGet(ctx, req)), Call, cron);
    Step(s0, Sys(w2, SchedulePatch(ctx, req, w2.mirror)), Deliver("second", r2, 2), cron);
    var s3 := Sys(Push(w2, "second", r2, 2), SchedulePatch(ctx, req, w2.mirror));
    Step(s0, s3, Call, cron);
    s := Next(s3, Call, cron);
  }

  /** An outdated fallback takes the lease from the Job of a newer generation. */
  lemma StolenLeaseReached(schedule: string, cron: Cron) returns (s: Sys)
    requires schedule != "" && cron.parses(schedule)
    requires cron.next(schedule, 1).Some? ==> cron.next(schedule, 1).value <= 2
    ensures Leads(Start(schedule, 0), s, cron) && !ActiveHolds(s.w)
  {
    var s0 := Start(schedule, 0);
    var w := EmptiedReached(schedule, cron);
    var w0 := Push(w, "delivery", "", 2);
    Step(s0, Sys(w, Idle), Deliver("delivery", "", 2), cron);
    var ctx, w1 := Context(w0.mirror, [], 2), Tick(w0, 2);
    Opening(w0, 2, cron);
    Then(s0, Sys(w0, Idle), Sys(w1, GenerationCheck(ctx)), cron);
    Step(s0, Sys(w1, GenerationCheck(ctx)), Call, cron);
    Step(s0, Sys(w1, PendingCheck(ctx)), Edit(schedule), cron);
    var w2 := EditSpec(w1, schedule);
    Step(s0, Sys(w2, PendingCheck(ctx)), Call, cron);
    s := StolenLease(w2, ctx, schedule, cron);
    Then(s0, Sys(w2, LeaseCreate(ctx, PendingRequest(w2.mirror, 2))), s, cron);
  }

  lemma StolenLease(w: World, ctx: Context, schedule: string, cron: Cron) returns (s: Sys)
    requires schedule != "" && cron.parses(schedule)
    requires cron.next(schedule, 1).Some? ==> cron.next(schedule, 1).value <= 2
    requires w.jobs == map[] && w.mirror.generation == 2 && w.mirror.status.lastDeliveryID == "delivery"
    requires w.history.created == [Created(ForGeneration(1), 1, "")]
    requires ctx.items == [] && ctx.now == 2 && ctx.snap.generation == 1 && ctx.snap.schedule == schedule
    requires ctx.snap.status.lastTriggeredAt == Some(1)
    ensures Leads(Sys(w, LeaseCreate(ctx, PendingRequest(w.mirror, 2))), s, cron) && !ActiveHolds(s.w)
  {
    var req := PendingRequest(w.mirror, 2);
    var s0, w1 := Sys(w, LeaseCreate(ctx, req)), w.(lease := Held(Some(req.name)));
    Locking(w, ctx, req, cron);
    Creating(w1, ctx, req, cron);
    var w2 := CreateJob(w1, req.generation, req.name, req.revision);
    Then(s0, Sys(w1, JobCreate(ctx, req)), Sys(w2, ScheduleGet(ctx, req)), cron);
    Recording(w2, ctx, req, cron);
    var w3 := w2.(mirror := ScheduleMutation(ctx, req, w2.mirror));
    Then(s0, Sys(w2, ScheduleGet(ctx, req)), Sys(w3, FallbackCheck(ctx)), cron);
    Step(s0, Sys(w3, FallbackCheck(ctx)), Call, cron);
    var stale := Request(ScheduledSync, 1, ForSchedule(2), "");
    Locking(w3, ctx, stale, cron);
    s := Sys(w3.(lease := Held(Some(stale.name))), JobCreate(ctx, stale));
    Then(s0, Sys(w3, LeaseCreate(ctx, stale)), s, cron);
    assert ActiveNow(s.w, req.name);
  }
}
