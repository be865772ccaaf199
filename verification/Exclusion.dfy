/**
 Mutual exclusion call by call, with one reconcile at a time.

 Whatever crashes, errors, conflicts, pushes, completions, deletions, removals and spec edits
 fall between any two calls, at most one Job of the current generation is active
 (`AtMostOneActive`).  It holds the lease exactly as long as no request of an outdated
 generation takes the lease from it (`LeaseHeldExactly`), which edits between reconciles never
 cause (`SerialisedExclusion`).  The one assumption is that the lease of a Job which is running
 is not given back after a create that reported an error but stored the Job.
 */
module Exclusion {
  import opened Base
  import opened GitMirrorStatus
  import opened Scheduling
  import opened Invariants
  import opened SmallStep

  /** Some Job was created under this name and generation. */
  predicate CreatedAs(h: History, n: JobName, generation: int) {
    exists i :: 0 <= i < |h.created| && h.created[i].name == n && h.created[i].generation == generation
  }

  predicate Annotated(w: World, n: JobName)
    requires n in w.jobs
  {
    && w.jobs[n].name == n
    && w.jobs[n].annotation.At?
    && CreatedAs(w.history, n, w.jobs[n].annotation.generation)
  }

  /** Jobs are annotated, and their creation recorded, with no generation from the future. */
  ghost predicate AllAnnotated(w: World) {
    && (forall n :: n in w.jobs ==> Annotated(w, n))
    && (forall i :: 0 <= i < |w.history.created| ==> w.history.created[i].generation <= w.mirror.generation)
  }

  /** Every active Job of the current generation is the lease holder, so there is at most one. */
  ghost predicate ActiveHolds(w: World) {
    forall n :: ActiveNow(w, n) ==> w.lease == Held(Some(n))
  }

  ghost predicate Safe(w: World) {
    AllAnnotated(w) && ActiveHolds(w)
  }

  /** At most one name was ever used for a Job of the current generation. */
  predicate SingleName(w: World) {
    forall i, j :: 0 <= i < |w.history.created| && 0 <= j < |w.history.created|
                   && w.history.created[i].generation == w.mirror.generation
                   && w.history.created[j].generation == w.mirror.generation ==>
                     w.history.created[i].name == w.history.created[j].name
  }

  /** No Job of the current generation was ever created. */
  predicate Untouched(w: World) {
    forall i :: 0 <= i < |w.history.created| ==> w.history.created[i].generation < w.mirror.generation
  }

  /** An active current Job holds the lease, or is the only Job ever created for its generation. */
  ghost predicate Guarded(w: World) {
    AllAnnotated(w) && (ActiveHolds(w) || SingleName(w))
  }

  ghost predicate AtMostOneActive(w: World) {
    forall m, n :: ActiveNow(w, m) && ActiveNow(w, n) ==> m == n
  }

  /** A name that was used and is not active now will never be active again. */
  predicate Spent(w: World, n: JobName) {
    WasCreated(w.history, n) && (n in w.jobs ==> !JobActive(w.jobs[n]))
  }

  /** What the snapshot's list shows as finished stays finished. */
  predicate FinishedSpent(w: World, ctx: Context) {
    forall k :: 0 <= k < |ctx.items| && JobFinished(ctx.items[k]) ==> Spent(w, ctx.items[k].name)
  }

  /** Either active Jobs hold the lease, or the list shows one Job, running, and nothing else. */
  ghost predicate Barred(w: World, ctx: Context) {
    ActiveHolds(w) || (ctx.items != [] && forall k :: 0 <= k < |ctx.items| ==> JobActive(ctx.items[k]))
  }

  ghost predicate OnlyActive(w: World, n: JobName) {
    forall k :: ActiveNow(w, k) ==> k == n
  }

  predicate UpToDate(w: World, ctx: Context) {
    ctx.snap.generation == w.mirror.generation
  }

  predicate HasContext(pc: Pc) {
    !pc.Idle? && !pc.ListJobs?
  }

  predicate HasRequest(pc: Pc) {
    || pc.LeaseCreate? || pc.LeaseGet? || pc.HolderGet? || pc.LeaseUpdate? || pc.JobCreate?
    || pc.UndoGet? || pc.UndoDelete? || pc.ScheduleGet? || pc.SchedulePatch?
  }

  /** What the calls so far have established about the lease, whatever the generation. */
  predicate LeaseOk(w: World, pc: Pc)
    requires Ok(pc)
  {
    && (pc.ReleaseDelete? ==> w.lease == Held(Some(pc.ctx.items[pc.i].name)))
    && (pc.HolderGet? ==> w.lease == Held(Some(pc.holder)) && pc.holder != pc.req.name)
    && (pc.JobCreate? || pc.UndoDelete? ==> w.lease == Held(Some(pc.req.name)))
  }

  /** A reconcile of the stored generation: what each point may rely on. */
  ghost predicate CurrentOk(w: World, pc: Pc)
    requires HasContext(pc) && Ok(pc)
  {
    && FinishedSpent(w, pc.ctx) && Barred(w, pc.ctx)
    && (pc.ReflectPatch? || pc.ReleaseGet? || pc.ReleaseDelete? ==> JobFinished(pc.ctx.items[pc.i]))
    && (HasRequest(pc) ==> ActiveHolds(w) && pc.req.generation == w.mirror.generation)
    && (pc.LeaseUpdate? ==> OnlyActive(w, pc.req.name))
  }

  /** One outdated by an edit: it has created nothing of the stored generation, or just one Job. */
  ghost predicate OutdatedOk(w: World, pc: Pc)
    requires HasContext(pc)
  {
    && pc.ctx.snap.generation < w.mirror.generation
    && SingleName(w)
    && (HasRequest(pc) ==> pc.req.generation <= w.mirror.generation)
    && (HasRequest(pc) && (pc.req.purpose.Followup? || pc.req.purpose.ScheduledSync?) ==>
          pc.req.generation < w.mirror.generation)
    && (BeforeCreation(pc) ==> Untouched(w))
  }

  /** The reconcile can still create a Job of a generation it reads later than its snapshot. */
  predicate BeforeCreation(pc: Pc) {
    || pc.Loop? || pc.ReflectPatch? || pc.ReleaseGet? || pc.ReleaseDelete? || pc.GenerationCheck? || pc.PendingCheck?
    || (HasRequest(pc) && pc.req.purpose.Followup?)
    || ((pc.LeaseCreate? || pc.LeaseGet? || pc.HolderGet? || pc.LeaseUpdate? || pc.JobCreate?)
        && !pc.req.purpose.ScheduledSync?)
  }

  ghost predicate PcOk(w: World, pc: Pc) {
    match pc
    case Idle => true
    case ListJobs(snap, _) =>
      snap.generation == w.mirror.generation || (snap.generation < w.mirror.generation && Untouched(w))
    case _ =>
      && Ok(pc) && LeaseOk(w, pc)
      && if UpToDate(w, pc.ctx) then CurrentOk(w, pc) else OutdatedOk(w, pc)
  }

  ghost predicate Good(s: Sys) {
    var pcOk := PcOk(s.w, s.pc);
    Guarded(s.w) && pcOk
  }

  lemma GuardedAtMostOne(w: World)
    requires Guarded(w)
    ensures AtMostOneActive(w)
  {}

  /******* What each kind of change keeps *******/

  /** Steps that store nothing but status. */
  lemma StatusFrame(w: World, w1: World)
    requires AllAnnotated(w) && w1.jobs == w.jobs && w1.lease == w.lease
    requires w1.mirror.generation == w.mirror.generation && w1.history.created == w.history.created
    ensures AllAnnotated(w1)
    ensures forall n :: ActiveNow(w1, n) == ActiveNow(w, n)
    ensures forall n :: Spent(w1, n) == Spent(w, n)
  {}

  /** Taking or dropping the lease. */
  lemma LeaseFrame(w: World, w1: World)
    requires AllAnnotated(w) && w1 == w.(lease := w1.lease)
    ensures AllAnnotated(w1)
    ensures forall n :: ActiveNow(w1, n) == ActiveNow(w, n)
    ensures forall n :: Spent(w1, n) == Spent(w, n)
  {}

  /** Jobs that only become less active, names that are not reused. */
  lemma QuietFrame(w: World, w1: World)
    requires AllAnnotated(w) && w1 == w.(jobs := w1.jobs)
    requires forall n :: n in w1.jobs ==>
               n in w.jobs && w1.jobs[n].name == w.jobs[n].name && w1.jobs[n].annotation == w.jobs[n].annotation
               && (JobActive(w1.jobs[n]) ==> JobActive(w.jobs[n]))
    ensures AllAnnotated(w1)
    ensures forall n :: ActiveNow(w1, n) ==> ActiveNow(w, n)
    ensures forall n :: Spent(w, n) ==> Spent(w1, n)
  {}

  /** A new Job adds one active Job at most, and revives none. */
  lemma CreateFrame(w: World, generation: int, name: JobName, revision: string)
    requires AllAnnotated(w) && generation <= w.mirror.generation && (name in w.jobs || Fresh(w, name))
    ensures var w1 := CreateJob(w, generation, name, revision);
            && AllAnnotated(w1)
            && (forall n :: ActiveNow(w1, n) ==> ActiveNow(w, n) || (n == name && generation == w.mirror.generation))
            && (forall n :: Spent(w, n) ==> Spent(w1, n))
  {
    var w1 := CreateJob(w, generation, name, revision);
    if name !in w.jobs {
      var c, c' := w.history.created, w1.history.created;
      assert c'[|c|] == Created(name, generation, revision);
      assert forall i :: 0 <= i < |c| ==> c'[i] == c[i];
      forall n | n in w1.jobs ensures Annotated(w1, n) {
        assert n != name ==> Annotated(w, n);
      }
      forall n | Spent(w, n) ensures Spent(w1, n) {
        var i :| 0 <= i < |c| && c[i].name == n;
        assert c'[i].name == n;
      }
    }
  }

  /** A new Job of the current generation is the first of its name; an older one is of no account. */
  lemma CreateNames(w: World, generation: int, name: JobName, revision: string)
    requires generation <= w.mirror.generation && SingleName(w)
    requires generation == w.mirror.generation ==> Untouched(w)
    ensures var w1 := CreateJob(w, generation, name, revision);
            SingleName(w1) && (Untouched(w) && generation < w.mirror.generation ==> Untouched(w1))
  {}

  /** Where nothing but status changes, or Jobs only become less active, each point relies on what it did. */
  lemma PcFrame(w: World, w1: World, pc: Pc)
    requires PcOk(w, pc) && w1.lease == w.lease
    requires w1.mirror.generation == w.mirror.generation && w1.history.created == w.history.created
    requires forall n :: ActiveNow(w1, n) ==> ActiveNow(w, n)
    requires forall n :: Spent(w, n) ==> Spent(w1, n)
    ensures PcOk(w1, pc) && (ActiveHolds(w) ==> ActiveHolds(w1))
  {}

  /** A holder that is not active leaves nobody active. */
  lemma StaleHolder(w: World, h: JobName)
    requires Safe(w) && w.lease == Held(Some(h)) && !ActiveForGeneration(w.jobs, h, w.mirror.generation)
    ensures forall k :: !ActiveNow(w, k)
  {}

  /******* The calls of an up-to-date reconcile *******/

  lemma NothingBarred(w: World, ctx: Context)
    requires Barred(w, ctx)
    requires !ActiveJobExists(ctx.items) || exists k :: 0 <= k < |ctx.items| && JobFinished(ctx.items[k])
    ensures ActiveHolds(w)
  {
    if ctx.items != [] {
      assert JobActive(ctx.items[0]) ==> ActiveJobExists(ctx.items);
    }
  }

  lemma CurrentLeaseCall(w: World, pc: Pc, cron: Cron)
    requires Good(Sys(w, pc)) && HasContext(pc) && UpToDate(w, pc.ctx)
    requires pc.LeaseCreate? || pc.LeaseGet? || pc.HolderGet? || pc.LeaseUpdate?
    ensures var (w', pc') := Do(w, pc, cron); Good(Sys(w', pc')) && ActiveHolds(w')
  {
    var (w', pc') := Do(w, pc, cron);
    LeaseFrame(w, w');
    if pc.HolderGet? && pc'.LeaseUpdate? {
      StaleHolder(w, pc.holder);
    }
  }

  lemma CurrentReleaseCall(w: World, pc: Pc, cron: Cron)
    requires Good(Sys(w, pc)) && HasContext(pc) && UpToDate(w, pc.ctx)
    requires pc.ReleaseGet? || pc.ReleaseDelete? || pc.UndoGet? || pc.UndoDelete?
    requires pc.UndoDelete? ==> !ActiveNow(w, pc.req.name)
    ensures var (w', pc') := Do(w, pc, cron); Good(Sys(w', pc')) && ActiveHolds(w')
  {
    var (w', pc') := Do(w, pc, cron);
    LeaseFrame(w, w');
    if pc.ReleaseGet? || pc.ReleaseDelete? {
      NothingBarred(w, pc.ctx);
      assert Spent(w, pc.ctx.items[pc.i].name);
    }
  }

  lemma CurrentCreate(w: World, ctx: Context, req: Request, next: Pc)
    requires next == ScheduleGet(ctx, req) || next == UndoGet(ctx, req)
    requires Good(Sys(w, JobCreate(ctx, req))) && UpToDate(w, ctx) && (req.name in w.jobs || Fresh(w, req.name))
    ensures var w' := CreateJob(w, req.generation, req.name, req.revision);
            Good(Sys(w', next)) && ActiveHolds(w')
  {
    CreateFrame(w, req.generation, req.name, req.revision);
  }

  /** The reads and decisions, which store nothing. */
  lemma CurrentReadCall(w: World, pc: Pc, cron: Cron)
    requires Good(Sys(w, pc)) && HasContext(pc) && UpToDate(w, pc.ctx)
    requires pc.Loop? || pc.ScheduleGet? || pc.GenerationCheck? || pc.PendingCheck? || pc.FallbackCheck?
    ensures var (w', pc') := Do(w, pc, cron); w' == w && Good(Sys(w', pc'))
  {
    if Do(w, pc, cron).1.LeaseCreate? {
      NothingBarred(w, pc.ctx);
    }
  }

  /******* The calls of an outdated one *******/

  /** What a lease that changes hands and a Job of some generation leave of the single name. */
  lemma OutdatedCreateWorld(w: World, ctx: Context, req: Request)
    requires Good(Sys(w, JobCreate(ctx, req))) && !UpToDate(w, ctx) && (req.name in w.jobs || Fresh(w, req.name))
    ensures var w' := CreateJob(w, req.generation, req.name, req.revision);
            && AllAnnotated(w') && SingleName(w') && (ActiveHolds(w) ==> ActiveHolds(w'))
            && (req.purpose.Followup? ==> Untouched(w'))
  {
    CreateFrame(w, req.generation, req.name, req.revision);
    CreateNames(w, req.generation, req.name, req.revision);
    if Untouched(w) {
      UntouchedHolds(w);
    }
  }

  lemma OutdatedCreated(w: World, ctx: Context, req: Request, next: Pc)
    requires next == ScheduleGet(ctx, req) || next == UndoGet(ctx, req)
    requires AllAnnotated(w) && SingleName(w) && ctx.snap.generation < w.mirror.generation && OkRequest(ctx, req)
    requires req.generation <= w.mirror.generation
    requires req.purpose.Followup? ==> Untouched(w)
    requires req.purpose.Followup? || req.purpose.ScheduledSync? ==> req.generation < w.mirror.generation
    ensures Good(Sys(w, next))
  {}

  lemma OutdatedCreate(w: World, ctx: Context, req: Request, next: Pc)
    requires next == ScheduleGet(ctx, req) || next == UndoGet(ctx, req)
    requires Good(Sys(w, JobCreate(ctx, req))) && !UpToDate(w, ctx) && (req.name in w.jobs || Fresh(w, req.name))
    ensures var w' := CreateJob(w, req.generation, req.name, req.revision);
            Good(Sys(w', next)) && (ActiveHolds(w) ==> ActiveHolds(w'))
  {
    OutdatedCreateWorld(w, ctx, req);
    OutdatedCreated(CreateJob(w, req.generation, req.name, req.revision), ctx, req, next);
  }

  lemma UntouchedHolds(w: World)
    requires AllAnnotated(w) && Untouched(w)
    ensures forall n :: !ActiveNow(w, n)
  {}

  lemma OutdatedLeaseCall(w: World, pc: Pc, cron: Cron)
    requires Good(Sys(w, pc)) && HasContext(pc) && !UpToDate(w, pc.ctx)
    requires pc.LeaseCreate? || pc.LeaseGet? || pc.HolderGet? || pc.LeaseUpdate?
    ensures var (w', pc') := Do(w, pc, cron); Good(Sys(w', pc'))
  {
    LeaseFrame(w, Do(w, pc, cron).0);
  }

  lemma OutdatedReleaseCall(w: World, pc: Pc, cron: Cron)
    requires Good(Sys(w, pc)) && HasContext(pc) && !UpToDate(w, pc.ctx)
    requires pc.ReleaseGet? || pc.ReleaseDelete? || pc.UndoGet? || pc.UndoDelete?
    ensures var (w', pc') := Do(w, pc, cron); Good(Sys(w', pc'))
  {
    LeaseFrame(w, Do(w, pc, cron).0);
  }

  /** The reads and decisions, which store nothing. */
  lemma OutdatedReadCall(w: World, pc: Pc, cron: Cron)
    requires Good(Sys(w, pc)) && HasContext(pc) && !UpToDate(w, pc.ctx)
    requires pc.Loop? || pc.ScheduleGet? || pc.GenerationCheck? || pc.PendingCheck? || pc.FallbackCheck?
    ensures var (w', pc') := Do(w, pc, cron); w' == w && Good(Sys(w', pc'))
  {}

  /******* The patches *******/

  predicate IsPatch(pc: Pc) {
    pc.ReflectPatch? || pc.SchedulePatch? || pc.CoalescePatch?
  }

  /** Where a patch leads depends on nothing it changes. */
  lemma PatchAdvances(w: World, w1: World, pc: Pc, cron: Cron)
    requires IsPatch(pc) && Ok(pc) && Good(Sys(w1, pc))
    ensures Good(Sys(w1, Do(w, pc, cron).1))
  {}

  lemma PatchCall(w: World, pc: Pc, cron: Cron)
    requires IsPatch(pc) && Good(Sys(w, pc))
    ensures var (w', pc') := Do(w, pc, cron); Good(Sys(w', pc')) && (ActiveHolds(w) ==> ActiveHolds(w'))
  {
    var (w', _) := Do(w, pc, cron);
    StatusGood(w, w', pc);
    PatchAdvances(w, w', pc, cron);
  }

  /******* Every act *******/

  predicate IsLeaseCall(pc: Pc) {
    pc.LeaseCreate? || pc.LeaseGet? || pc.HolderGet? || pc.LeaseUpdate?
  }

  predicate IsReleaseCall(pc: Pc) {
    pc.ReleaseGet? || pc.ReleaseDelete? || pc.UndoGet? || pc.UndoDelete?
  }

  /** The lease of a running Job is given back, as its create had reported an error. */
  predicate GivesBack(s: Sys, a: Act) {
    a.Call? && s.pc.UndoDelete? && ActiveNow(s.w, s.pc.req.name)
  }

  /** A request takes the lease from a running Job of the current generation. */
  ghost predicate Steals(s: Sys, a: Act) {
    a.Call? && s.pc.LeaseUpdate? && s.w.lease != NoLease && exists n :: ActiveNow(s.w, n) && n != s.pc.req.name
  }

  lemma CallGood(s: Sys, cron: Cron)
    requires Good(s) && Enabled(s, Call) && !GivesBack(s, Call)
    ensures Good(Next(s, Call, cron))
  {
    if UpToDate(s.w, s.pc.ctx) {
      CurrentCall(s.w, s.pc, cron);
    } else {
      OutdatedCall(s.w, s.pc, cron);
    }
  }

  lemma CurrentCall(w: World, pc: Pc, cron: Cron)
    requires Good(Sys(w, pc)) && Enabled(Sys(w, pc), Call) && !GivesBack(Sys(w, pc), Call) && UpToDate(w, pc.ctx)
    ensures var (w', pc') := Do(w, pc, cron); Good(Sys(w', pc')) && (ActiveHolds(w) ==> ActiveHolds(w'))
  {
    if IsLeaseCall(pc) {
      CurrentLeaseCall(w, pc, cron);
    } else if IsReleaseCall(pc) {
      CurrentReleaseCall(w, pc, cron);
    } else if pc.JobCreate? {
      CurrentCreate(w, pc.ctx, pc.req, ScheduleGet(pc.ctx, pc.req));
    } else if pc.ReflectPatch? || pc.SchedulePatch? || pc.CoalescePatch? {
      PatchCall(w, pc, cron);
    } else {
      CurrentReadCall(w, pc, cron);
    }
  }

  lemma OutdatedCall(w: World, pc: Pc, cron: Cron)
    requires Good(Sys(w, pc)) && Enabled(Sys(w, pc), Call) && !UpToDate(w, pc.ctx)
    ensures var (w', pc') := Do(w, pc, cron);
            && Good(Sys(w', pc'))
            && (!IsLeaseCall(pc) && !IsReleaseCall(pc) && ActiveHolds(w) ==> ActiveHolds(w'))
  {
    if IsLeaseCall(pc) {
      OutdatedLeaseCall(w, pc, cron);
    } else if IsReleaseCall(pc) {
      OutdatedReleaseCall(w, pc, cron);
    } else if pc.JobCreate? {
      OutdatedCreate(w, pc.ctx, pc.req, ScheduleGet(pc.ctx, pc.req));
    } else if pc.ReflectPatch? || pc.SchedulePatch? || pc.CoalescePatch? {
      PatchCall(w, pc, cron);
    } else {
      OutdatedReadCall(w, pc, cron);
    }
  }

  lemma QuietGood(w: World, w1: World, pc: Pc)
    requires Good(Sys(w, pc)) && w1 == w.(jobs := w1.jobs)
    requires forall n :: n in w1.jobs ==>
               n in w.jobs && w1.jobs[n].name == w.jobs[n].name && w1.jobs[n].annotation == w.jobs[n].annotation
               && (JobActive(w1.jobs[n]) ==> JobActive(w.jobs[n]))
    ensures Good(Sys(w1, pc)) && (ActiveHolds(w) ==> ActiveHolds(w1))
  {
    QuietFrame(w, w1);
    PcFrame(w, w1, pc);
  }

  lemma StatusGood(w: World, w1: World, pc: Pc)
    requires Good(Sys(w, pc)) && w1.jobs == w.jobs && w1.lease == w.lease
    requires w1.mirror.generation == w.mirror.generation && w1.history.created == w.history.created
    ensures Good(Sys(w1, pc)) && (ActiveHolds(w) ==> ActiveHolds(w1))
  {
    StatusFrame(w, w1);
    PcFrame(w, w1, pc);
  }

  /** Beginning, dying, and the failures that end a reconcile or turn it to undoing. */
  lemma ControlGood(s: Sys, a: Act, cron: Cron)
    requires Good(s) && Enabled(s, a) && (a.Begin? || a.Die? || a.Conflict? || a.CreateFails?)
    ensures var s' := Next(s, a, cron); Good(s') && (ActiveHolds(s.w) ==> ActiveHolds(s'.w))
  {
    StatusFrame(s.w, Next(s, a, cron).w);
  }

  lemma RemovalGood(s: Sys, a: Act, cron: Cron)
    requires Good(s) && Enabled(s, a) && (a.Finish? || a.Terminate? || a.Remove?)
    ensures var s' := Next(s, a, cron); Good(s') && (ActiveHolds(s.w) ==> ActiveHolds(s'.w))
  {
    QuietGood(s.w, Next(s, a, cron).w, s.pc);
  }

  /** A spec edit: nothing of the new generation exists yet, so every reconcile in flight is outdated. */
  lemma EditGood(s: Sys, schedule: string, cron: Cron)
    requires Good(s)
    ensures var s' := Next(s, Edit(schedule), cron); Good(s') && ActiveHolds(s'.w)
  {
    var w1 := EditSpec(s.w, schedule);
    assert forall n :: n in s.w.jobs ==> Annotated(s.w, n) && Annotated(w1, n);
    assert Untouched(w1);
    UntouchedHolds(w1);
  }

  /** If an active current Job does not hold the lease, the list shows that Job and no other. */
  lemma ListBars(w: World, items: seq<Job>, order: seq<JobName>)
    requires Guarded(w) && IsListing(order, w.jobs)
    requires items == JobsForGeneration(Listed(order, w.jobs), w.mirror.generation)
    ensures ActiveHolds(w) || (items != [] && forall k :: 0 <= k < |items| ==> JobActive(items[k]))
  {
    assert forall n :: n in w.jobs ==> Annotated(w, n);
    ListedItems(w.jobs, order, w.mirror.generation, items);
    if !ActiveHolds(w) {
      var n :| ActiveNow(w, n) && w.lease != Held(Some(n));
      assert w.jobs[n] in items;
      forall k | 0 <= k < |items| ensures JobActive(items[k]) {
        assert Annotated(w, items[k].name) && Annotated(w, n);
      }
    }
  }

  lemma ListGood(s: Sys, order: seq<JobName>, cron: Cron)
    requires Good(s) && Enabled(s, List(order))
    ensures var s' := Next(s, List(order), cron); Good(s') && s'.w == s.w
  {
    var g := s.pc.snap.generation;
    var items := JobsForGeneration(Listed(order, s.w.jobs), g);
    assert forall n :: n in s.w.jobs ==> Annotated(s.w, n);
    ListedItems(s.w.jobs, order, g, items);
    if g == s.w.mirror.generation {
      ListBars(s.w, items, order);
      forall k | 0 <= k < |items| && JobFinished(items[k]) ensures Spent(s.w, items[k].name) {
        assert Annotated(s.w, items[k].name);
      }
    }
  }

  lemma UnclearGood(s: Sys, cron: Cron)
    requires Good(s) && Enabled(s, CreateUnclear)
    ensures Good(Next(s, CreateUnclear, cron)) && (ActiveHolds(s.w) ==> ActiveHolds(Next(s, CreateUnclear, cron).w))
  {
    if UpToDate(s.w, s.pc.ctx) {
      CurrentCreate(s.w, s.pc.ctx, s.pc.req, UndoGet(s.pc.ctx, s.pc.req));
    } else {
      OutdatedCreate(s.w, s.pc.ctx, s.pc.req, UndoGet(s.pc.ctx, s.pc.req));
    }
  }

  lemma EnvironmentGood(s: Sys, a: Act, cron: Cron)
    requires Good(s) && Enabled(s, a) && !a.Call? && !a.List? && !a.CreateUnclear? && !a.Edit?
    ensures var s' := Next(s, a, cron); Good(s') && (ActiveHolds(s.w) ==> ActiveHolds(s'.w))
  {
    if a.Finish? || a.Terminate? || a.Remove? {
      RemovalGood(s, a, cron);
    } else if a.Webhook? || a.Deliver? {
      StatusGood(s.w, Next(s, a, cron).w, s.pc);
    } else {
      ControlGood(s, a, cron);
    }
  }

  /** Every act but giving back a running Job's lease keeps the invariant. */
  lemma StepGood(s: Sys, a: Act, cron: Cron)
    requires Good(s) && Enabled(s, a) && !GivesBack(s, a)
    ensures Good(Next(s, a, cron))
  {
    if a.Call? {
      CallGood(s, cron);
    } else {
      OtherActGood(s, a, cron);
    }
  }

  lemma OtherActGood(s: Sys, a: Act, cron: Cron)
    requires Good(s) && Enabled(s, a) && !a.Call?
    ensures Good(Next(s, a, cron)) && (ActiveHolds(s.w) ==> ActiveHolds(Next(s, a, cron).w))
  {
    if a.List? {
      ListGood(s, a.order, cron);
    } else if a.CreateUnclear? {
      UnclearGood(s, cron);
    } else if a.Edit? {
      EditGood(s, a.schedule, cron);
    } else {
      EnvironmentGood(s, a, cron);
    }
  }

  /** A run in which no running Job's lease is given back. */
  predicate CleanRun(s: Sys, acts: seq<Act>, cron: Cron)
    decreases |acts|
  {
    acts == [] || (Enabled(s, acts[0]) && !GivesBack(s, acts[0]) && CleanRun(Next(s, acts[0], cron), acts[1..], cron))
  }

  lemma {:induction false} RunGood(s: Sys, acts: seq<Act>, cron: Cron)
    requires Good(s) && CleanRun(s, acts, cron)
    ensures ValidRun(s, acts, cron) && Good(Execute(s, acts, cron))
    decreases |acts|
  {
    if acts != [] {
      StepGood(s, acts[0], cron);
      RunGood(Next(s, acts[0], cron), acts[1..], cron);
    }
  }

  function Start(schedule: string, clock: Time): Sys {
    Sys(Initial(schedule, clock), Idle)
  }

  /** Mutual exclusion: spec edits may fall between any two calls. */
  lemma MutualExclusion(schedule: string, clock: Time, acts: seq<Act>, cron: Cron)
    requires CleanRun(Start(schedule, clock), acts, cron)
    ensures ValidRun(Start(schedule, clock), acts, cron)
    ensures AtMostOneActive(Execute(Start(schedule, clock), acts, cron).w)
  {
    RunGood(Start(schedule, clock), acts, cron);
    GuardedAtMostOne(Execute(Start(schedule, clock), acts, cron).w);
  }

  /******* Who holds the lease *******/

  /** A step loses the lease of an active current Job exactly by stealing it or giving it back. */
  lemma LeaseStepExact(s: Sys, a: Act, cron: Cron)
    requires Good(s) && ActiveHolds(s.w) && Enabled(s, a)
    ensures ActiveHolds(Next(s, a, cron).w) <==> !Steals(s, a) && !GivesBack(s, a)
  {
    if a.Call? {
      LeaseCallExact(s, cron);
    } else {
      OtherActGood(s, a, cron);
    }
  }

  lemma LeaseCallExact(s: Sys, cron: Cron)
    requires Good(s) && ActiveHolds(s.w) && Enabled(s, Call)
    ensures ActiveHolds(Next(s, Call, cron).w) <==> !Steals(s, Call) && !GivesBack(s, Call)
  {
    if IsLeaseCall(s.pc) {
      LeaseFrame(s.w, Do(s.w, s.pc, cron).0);
    } else if IsReleaseCall(s.pc) {
      ReleaseCallExact(s, cron);
    } else if UpToDate(s.w, s.pc.ctx) {
      CurrentCall(s.w, s.pc, cron);
    } else {
      OutdatedCall(s.w, s.pc, cron);
    }
  }

  lemma ReleaseCallExact(s: Sys, cron: Cron)
    requires Good(s) && ActiveHolds(s.w) && Enabled(s, Call) && IsReleaseCall(s.pc)
    ensures ActiveHolds(Next(s, Call, cron).w) <==> !GivesBack(s, Call)
  {
    LeaseFrame(s.w, Do(s.w, s.pc, cron).0);
    if s.pc.ReleaseDelete? {
      ReleaseHarmless(s.w, s.pc);
    }
  }

  /** A lease is released only for a finished Job, or before anything of a new generation runs. */
  lemma ReleaseHarmless(w: World, pc: Pc)
    requires Good(Sys(w, pc)) && ActiveHolds(w) && pc.ReleaseDelete?
    ensures forall n :: !ActiveNow(w, n)
  {}

  /** Only the fallback of an outdated snapshot can steal: every other request has an open lease or its own. */
  lemma OnlyOutdatedFallbackSteals(s: Sys, a: Act)
    requires Good(s) && Enabled(s, a) && Steals(s, a)
    ensures s.pc.req.purpose.ScheduledSync? && s.pc.req.generation < s.w.mirror.generation
    ensures s.pc.ctx.snap.generation < s.w.mirror.generation
  {
    if !UpToDate(s.w, s.pc.ctx) && Untouched(s.w) {
      UntouchedHolds(s.w);
    }
  }

  /** In every state of the run, the last included, active current Jobs hold the lease. */
  ghost predicate AlwaysHeld(s: Sys, acts: seq<Act>, cron: Cron)
    requires ValidRun(s, acts, cron)
    decreases |acts|
  {
    ActiveHolds(s.w) && (acts != [] ==> AlwaysHeld(Next(s, acts[0], cron), acts[1..], cron))
  }

  ghost predicate NeverLost(s: Sys, acts: seq<Act>, cron: Cron)
    requires ValidRun(s, acts, cron)
    decreases |acts|
  {
    acts == [] || (!Steals(s, acts[0]) && !GivesBack(s, acts[0]) && NeverLost(Next(s, acts[0], cron), acts[1..], cron))
  }

  lemma {:induction false} HeldExactly(s: Sys, acts: seq<Act>, cron: Cron)
    requires Good(s) && ActiveHolds(s.w) && ValidRun(s, acts, cron)
    ensures AlwaysHeld(s, acts, cron) <==> NeverLost(s, acts, cron)
    decreases |acts|
  {
    if acts != [] {
      var s' := Next(s, acts[0], cron);
      LeaseStepExact(s, acts[0], cron);
      if ActiveHolds(s'.w) {
        StepGood(s, acts[0], cron);
        HeldExactly(s', acts[1..], cron);
      } else {
        LostAtOnce(s', acts[1..], cron);
      }
    }
  }

  lemma LostAtOnce(s: Sys, acts: seq<Act>, cron: Cron)
    requires ValidRun(s, acts, cron) && !ActiveHolds(s.w)
    ensures !AlwaysHeld(s, acts, cron)
  {}

  /** Over every run: active current Jobs hold the lease throughout iff no step takes or gives it away. */
  lemma LeaseHeldExactly(schedule: string, clock: Time, acts: seq<Act>, cron: Cron)
    requires ValidRun(Start(schedule, clock), acts, cron)
    ensures AlwaysHeld(Start(schedule, clock), acts, cron) <==> NeverLost(Start(schedule, clock), acts, cron)
  {
    HeldExactly(Start(schedule, clock), acts, cron);
  }

  /******* Edits between reconciles *******/

  /** Spec edits happen only between reconciles. */
  predicate SerialRun(s: Sys, acts: seq<Act>, cron: Cron)
    decreases |acts|
  {
    acts == [] || (&& Enabled(s, acts[0]) && !GivesBack(s, acts[0])
                   && (acts[0].Edit? ==> s.pc.Idle?)
                   && SerialRun(Next(s, acts[0], cron), acts[1..], cron))
  }

  /** The reconcile in flight has the stored generation. */
  predicate InStep(s: Sys) {
    && (s.pc.ListJobs? ==> s.pc.snap.generation == s.w.mirror.generation)
    && (HasContext(s.pc) ==> UpToDate(s.w, s.pc.ctx))
  }

  lemma {:induction false} SerialHeld(s: Sys, acts: seq<Act>, cron: Cron)
    requires Good(s) && ActiveHolds(s.w) && InStep(s) && SerialRun(s, acts, cron)
    ensures ValidRun(s, acts, cron) && ActiveHolds(Execute(s, acts, cron).w)
    decreases |acts|
  {
    if acts != [] {
      StepGood(s, acts[0], cron);
      LeaseStepExact(s, acts[0], cron);
      StaysInStep(s, acts[0], cron);
      SerialHeld(Next(s, acts[0], cron), acts[1..], cron);
    }
  }

  lemma {:induction false} SerialClean(s: Sys, acts: seq<Act>, cron: Cron)
    requires SerialRun(s, acts, cron)
    ensures CleanRun(s, acts, cron)
    decreases |acts|
  {
    if acts != [] {
      SerialClean(Next(s, acts[0], cron), acts[1..], cron);
    }
  }

  lemma StaysInStep(s: Sys, a: Act, cron: Cron)
    requires Good(s) && InStep(s) && Enabled(s, a) && (a.Edit? ==> s.pc.Idle?)
    ensures InStep(Next(s, a, cron)) && !Steals(s, a)
  {}

  /** With edits only between reconciles the one active current Job always holds the lease. */
  lemma SerialisedExclusion(schedule: string, clock: Time, acts: seq<Act>, cron: Cron, m: JobName, n: JobName)
    requires SerialRun(Start(schedule, clock), acts, cron) && ValidRun(Start(schedule, clock), acts, cron)
    requires var w := Execute(Start(schedule, clock), acts, cron).w; ActiveNow(w, m) && ActiveNow(w, n)
    ensures m == n && Execute(Start(schedule, clock), acts, cron).w.lease == Held(Some(m))
  {
    SerialHeld(Start(schedule, clock), acts, cron);
  }

  /******* Creates that tell the truth *******/

  /** Whenever a create reports an error, no Job of that name is stored. */
  predicate ClearRun(s: Sys, acts: seq<Act>, cron: Cron)
    decreases |acts|
  {
    acts == [] || (&& Enabled(s, acts[0]) && Truthful(s, acts[0]) && ClearRun(Next(s, acts[0], cron), acts[1..], cron))
  }

  predicate Truthful(s: Sys, a: Act)
    requires Enabled(s, a)
  {
    !a.CreateUnclear? && (a.CreateFails? ==> s.pc.req.name !in s.w.jobs)
  }

  /** Then no running Job's lease is given back. */
  lemma {:induction false} ClearRunIsClean(s: Sys, acts: seq<Act>, cron: Cron)
    requires ClearRun(s, acts, cron)
    requires s.pc.UndoGet? || s.pc.UndoDelete? ==> s.pc.req.name !in s.w.jobs
    ensures CleanRun(s, acts, cron)
    decreases |acts|
  {
    if acts != [] {
      UndoKeeps(s, acts[0], cron);
      ClearRunIsClean(Next(s, acts[0], cron), acts[1..], cron);
    }
  }

  lemma UndoKeeps(s: Sys, a: Act, cron: Cron)
    requires Enabled(s, a) && Truthful(s, a)
    requires s.pc.UndoGet? || s.pc.UndoDelete? ==> s.pc.req.name !in s.w.jobs
    ensures var s' := Next(s, a, cron); s'.pc.UndoGet? || s'.pc.UndoDelete? ==> s'.pc.req.name !in s'.w.jobs
  {}
}
