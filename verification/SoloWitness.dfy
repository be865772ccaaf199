/**
 One reconciler alone breaks mutual exclusion once a create stores its Job, reports an error,
 and the lease is given back: the excluded case of `Exclusion.MutualExclusion`.

 The Job of a first delivery is created, but the reconcile dies before it is recorded; the
 Job of a second is created by a call that reports an error.  When the Job of the generation,
 still recorded as the last one, is removed, the first delivery's Job is taken for the last,
 and its follow-up finds the lease free beside the second delivery's Job.
 */
module SoloWitness {
  import opened Base
  import opened GitMirrorStatus
  import opened Scheduling
  import opened Invariants
  import opened SmallStep
  import opened Exclusion
  import opened PushFate
  import opened Witnesses

  /** A finished Job of the first generation. */
  function Done(n: JobName, serial: nat): Job {
    Job(n, At(1), "", Phase.Complete, false, serial)
  }

  /** The status of the first generation's GitMirror, whose own Job is the last recorded and reflected. */
  predicate Recorded(m: Mirror, id: string) {
    var st := m.status;
    && m.generation == 1 && m.schedule == "" && !Unobserved(m) && st.lastDeliveryID == id
    && st.lastRequestedRevision == "" && st.lastJobName == st.lastCompletedJobName == Some(ForGeneration(1))
  }

  /** The first generation's Job is complete and reflected. */
  predicate Synced(w: World) {
    && Recorded(w.mirror, "") && w.jobs == map[ForGeneration(1) := Done(ForGeneration(1), 0)]
    && w.lease == Held(Some(ForGeneration(1))) && w.history.created == [Created(ForGeneration(1), 1, "")]
  }

  lemma SyncedReached(cron: Cron) returns (w: World)
    ensures Synced(w) && Leads(Start("", 0), Sys(w, Idle), cron)
  {
    var s0 := Start("", 0);
    var w0 := FirstSyncRuns("", cron);
    var w1 := FinishJob(w0, ForGeneration(1), Phase.Complete);
    Step(s0, Sys(w0, Idle), Finish(ForGeneration(1), Phase.Complete), cron);
    OneListed(w1, ForGeneration(1));
    Listing(w1, [ForGeneration(1)], 2, cron);
    var ctx, w2 := ContextOf(w1, [ForGeneration(1)], 2), Tick(w1, 2);
    Then(s0, Sys(w1, Idle), Sys(w2, Loop(ctx, 0)), cron);
    w := FirstReflected(w2, ctx, cron);
    Then(s0, Sys(w2, Loop(ctx, 0)), Sys(w, Idle), cron);
  }

  lemma FirstReflected(w: World, ctx: Context, cron: Cron) returns (w1: World)
    requires FirstRunning(w.(jobs := map[ForGeneration(1) := Done(ForGeneration(1), 0).(phase := Phase.Running)]), "")
    requires w.jobs == map[ForGeneration(1) := Done(ForGeneration(1), 0)]
    requires ctx == Context(w.mirror, [Done(ForGeneration(1), 0)], 2)
    ensures Synced(w1) && Leads(Sys(w, Loop(ctx, 0)), Sys(w1, Idle), cron)
  {
    var s0, pc := Sys(w, Loop(ctx, 0)), ReflectPatch(ctx, 0, w.mirror);
    One(s0, Call, cron);
    Step(s0, Sys(w, pc), Call, cron);
    w1 := Do(w, pc, cron).0;
    Step(s0, Sys(w1, ReleaseGet(ctx, 0, false, "")), Die, cron);
  }

  /** A reconcile that passes over every listed Job gets to create the Job of the pending push. */
  lemma ToCreate(w: World, ctx: Context, cron: Cron)
    requires !LeftItem(ctx, 0) && !ActiveJobExists(ctx.items) && !Unobserved(ctx.snap)
    requires ctx.snap.status.pendingResync && w.mirror.status.pendingResync
    requires Takeable(w.lease, w.jobs, w.mirror.generation, PendingRequest(w.mirror, ctx.now).name)
    ensures var req := PendingRequest(w.mirror, ctx.now);
            Leads(Sys(w, Loop(ctx, 0)), Sys(w.(lease := Held(Some(req.name))), JobCreate(ctx, req)), cron)
  {
    var s0, req := Sys(w, Loop(ctx, 0)), PendingRequest(w.mirror, ctx.now);
    SkipCalls(w, ctx, 0, cron);
    Step(s0, Sys(w, GenerationCheck(ctx)), Call, cron);
    Step(s0, Sys(w, PendingCheck(ctx)), Call, cron);
    Locking(w, ctx, req, cron);
    Then(s0, Sys(w, LeaseCreate(ctx, req)), Sys(w.(lease := Held(Some(req.name))), JobCreate(ctx, req)), cron);
  }

  /** The Job of the first delivery is complete, but was never recorded. */
  predicate Unrecorded(w: World) {
    && Recorded(w.mirror, "first") && w.mirror.status.pendingResync
    && w.jobs == map[ForGeneration(1) := Done(ForGeneration(1), 0),
                     ForDelivery("first") := Done(ForDelivery("first"), 1)]
    && w.lease == Held(Some(ForDelivery("first")))
    && w.history.created == [Created(ForGeneration(1), 1, ""), Created(ForDelivery("first"), 1, "")]
  }

  lemma UnrecordedReached(cron: Cron) returns (w: World)
    ensures Unrecorded(w) && Leads(Start("", 0), Sys(w, Idle), cron)
  {
    var s0 := Start("", 0);
    var w0 := SyncedReached(cron);
    var w1 := Push(w0, "first", "", 2);
    Step(s0, Sys(w0, Idle), Deliver("first", "", 2), cron);
    OneListed(w1, ForGeneration(1));
    Listing(w1, [ForGeneration(1)], 3, cron);
    var ctx, w2 := ContextOf(w1, [ForGeneration(1)], 3), Tick(w1, 3);
    Then(s0, Sys(w1, Idle), Sys(w2, Loop(ctx, 0)), cron);
    w := UnrecordedCreated(w2, ctx, cron);
    Then(s0, Sys(w2, Loop(ctx, 0)), Sys(w, Idle), cron);
  }

  lemma UnrecordedCreated(w: World, ctx: Context, cron: Cron) returns (w1: World)
    requires Recorded(w.mirror, "first") && w.mirror.status.pendingResync
    requires Synced(w.(mirror := w.mirror.(status := w.mirror.status.(lastDeliveryID := ""))))
    requires ctx == Context(w.mirror, [Done(ForGeneration(1), 0)], 3)
    ensures Unrecorded(w1) && Leads(Sys(w, Loop(ctx, 0)), Sys(w1, Idle), cron)
  {
    var s0, req := Sys(w, Loop(ctx, 0)), PendingRequest(w.mirror, 3);
    ToCreate(w, ctx, cron);
    var w2 := w.(lease := Held(Some(req.name)));
    Creating(w2, ctx, req, cron);
    var w3 := CreateJob(w2, 1, req.name, "");
    Then(s0, Sys(w2, JobCreate(ctx, req)), Sys(w3, ScheduleGet(ctx, req)), cron);
    Step(s0, Sys(w3, ScheduleGet(ctx, req)), Die, cron);
    Step(s0, Sys(w3, Idle), Finish(req.name, Phase.Complete), cron);
    w1 := FinishJob(w3, req.name, Phase.Complete);
  }

  /** Two Jobs of the generation: the list holds them both. */
  lemma TwoListed(w: World, m: JobName, n: JobName)
    requires m != n && w.jobs.Keys == {m, n}
    requires w.jobs[m].annotation == w.jobs[n].annotation == At(w.mirror.generation)
    ensures IsListing([m, n], w.jobs)
    ensures JobsForGeneration(Listed([m, n], w.jobs), w.mirror.generation) == [w.jobs[m], w.jobs[n]]
  {
    var items := Listed([m, n], w.jobs);
    assert m in w.jobs.Keys && n in w.jobs.Keys;
    assert items == [w.jobs[m], w.jobs[n]] && items[..1] == [w.jobs[m]] && items[..1][..0] == [];
    assert JobsForGeneration(items[..1], w.mirror.generation) == [w.jobs[m]];
  }

  /** The second delivery's Job runs without a lease, beside the unrecorded one. */
  predicate Ungoverned(w: World) {
    && Recorded(w.mirror, "second") && w.mirror.status.pendingResync && w.lease == NoLease
    && w.jobs == map[ForDelivery("first") := Done(ForDelivery("first"), 1),
                     ForDelivery("second") := Job(ForDelivery("second"), At(1), "", Phase.Running, false, 2)]
    && Fresh(w, ForResync(5))
  }

  lemma UngovernedReached(cron: Cron) returns (w: World)
    ensures Ungoverned(w) && Leads(Start("", 0), Sys(w, Idle), cron)
  {
    var s0 := Start("", 0);
    var w0 := UnrecordedReached(cron);
    var w1 := Push(w0, "second", "", 4);
    Step(s0, Sys(w0, Idle), Deliver("second", "", 4), cron);
    TwoListed(w1, ForGeneration(1), ForDelivery("first"));
    var order := [ForGeneration(1), ForDelivery("first")];
    Listing(w1, order, 4, cron);
    var ctx, w2 := ContextOf(w1, order, 4), Tick(w1, 4);
    Then(s0, Sys(w1, Idle), Sys(w2, Loop(ctx, 0)), cron);
    w := UngovernedCreated(w2, ctx, cron);
    Then(s0, Sys(w2, Loop(ctx, 0)), Sys(w, Idle), cron);
  }

  /** A create stores the Job but reports an error, and the lease is given back. */
  lemma GivenBackAlone(w: World, ctx: Context, req: Request, cron: Cron)
    requires OkRequest(ctx, req) && w.lease == Held(Some(req.name)) && req.name !in w.jobs && Fresh(w, req.name)
    ensures Leads(Sys(w, JobCreate(ctx, req)),
                  Sys(CreateJob(w, req.generation, req.name, req.revision).(lease := NoLease), Idle), cron)
  {
    var s0, w1 := Sys(w, JobCreate(ctx, req)), CreateJob(w, req.generation, req.name, req.revision);
    One(s0, CreateUnclear, cron);
    Step(s0, Sys(w1, UndoGet(ctx, req)), Call, cron);
    Step(s0, Sys(w1, UndoDelete(ctx, req)), Call, cron);
  }

  lemma UngovernedCreated(w: World, ctx: Context, cron: Cron) returns (w1: World)
    requires Recorded(w.mirror, "second") && w.mirror.status.pendingResync
    requires Unrecorded(w.(mirror := w.mirror.(status := w.mirror.status.(lastDeliveryID := "first"))))
    requires ctx == Context(w.mirror, [Done(ForGeneration(1), 0), Done(ForDelivery("first"), 1)], 4)
    ensures Ungoverned(w1) && Leads(Sys(w, Loop(ctx, 0)), Sys(w1, Idle), cron)
  {
    var s0, req := Sys(w, Loop(ctx, 0)), PendingRequest(w.mirror, 4);
    assert JobNameExists(ctx.items, ForGeneration(1)) by {
      assert ctx.items[0].name == ForGeneration(1);
    }
    ToCreate(w, ctx, cron);
    var w2 := w.(lease := Held(Some(req.name)));
    var w3 := CreateJob(w, 1, req.name, "").(lease := NoLease);
    GivenBackAlone(w2, ctx, req, cron);
    Then(s0, Sys(w2, JobCreate(ctx, req)), Sys(w3, Idle), cron);
    Step(s0, Sys(w3, Idle), Remove(ForGeneration(1)), cron);
    w1 := RemoveJob(w3, ForGeneration(1));
  }

  /** One reconciler ends with two active Jobs of the current generation. */
  lemma SoloExclusionLost(cron: Cron) returns (s: Sys)
    ensures Leads(Start("", 0), s, cron) && !AtMostOneActive(s.w)
  {
    var s0 := Start("", 0);
    var w0 := UngovernedReached(cron);
    var order := [ForDelivery("first"), ForDelivery("second")];
    TwoListed(w0, ForDelivery("first"), ForDelivery("second"));
    Listing(w0, order, 5, cron);
    var ctx, w1 := ContextOf(w0, order, 5), Tick(w0, 5);
    Then(s0, Sys(w0, Idle), Sys(w1, Loop(ctx, 0)), cron);
    s := FollowupBeside(w1, ctx, cron);
    Then(s0, Sys(w1, Loop(ctx, 0)), s, cron);
  }

  lemma FollowupBeside(w: World, ctx: Context, cron: Cron) returns (s: Sys)
    requires Ungoverned(w)
    requires ctx == Context(w.mirror, [w.jobs[ForDelivery("first")], w.jobs[ForDelivery("second")]], 5)
    ensures Leads(Sys(w, Loop(ctx, 0)), s, cron) && !AtMostOneActive(s.w)
  {
    var s0, req := Sys(w, Loop(ctx, 0)), Request(Followup(0), 1, ForResync(5), "");
    var w1 := UnrecordedReflected(w, ctx, req, cron);
    var w2 := w1.(lease := Held(Some(req.name)));
    Locking(w1, ctx, req, cron);
    Then(s0, Sys(w1, LeaseCreate(ctx, req)), Sys(w2, JobCreate(ctx, req)), cron);
    Creating(w2, ctx, req, cron);
    s := Sys(CreateJob(w2, 1, req.name, ""), ScheduleGet(ctx, req));
    Then(s0, Sys(w2, JobCreate(ctx, req)), s, cron);
    assert ActiveNow(s.w, ForDelivery("second")) && ActiveNow(s.w, req.name);
  }

  /** The unrecorded Job is reflected; the lease is not its own, so the follow-up finds it free. */
  lemma UnrecordedReflected(w: World, ctx: Context, req: Request, cron: Cron) returns (w1: World)
    requires Ungoverned(w) && req == Request(Followup(0), 1, ForResync(5), "")
    requires ctx == Context(w.mirror, [w.jobs[ForDelivery("first")], w.jobs[ForDelivery("second")]], 5)
    ensures Leads(Sys(w, Loop(ctx, 0)), Sys(w1, LeaseCreate(ctx, req)), cron)
    ensures w1.jobs == w.jobs && w1.lease == NoLease && w1.mirror.generation == 1
    ensures w1.history.created == w.history.created
  {
    var s0, pc := Sys(w, Loop(ctx, 0)), ReflectPatch(ctx, 0, w.mirror);
    One(s0, Call, cron);
    Step(s0, Sys(w, pc), Call, cron);
    w1 := Do(w, pc, cron).0;
    Step(s0, Sys(w1, ReleaseGet(ctx, 0, true, "")), Call, cron);
  }
}
