/**
 Three reconcilers on one cluster, call by call and in any interleaving, and the runs in which
 they break mutual exclusion (see `Limits`).
 */
module Crews {
  import opened Base
  import opened GitMirrorStatus
  import opened Scheduling
  import opened Invariants
  import opened SmallStep
  import opened Exclusion
  import opened Witnesses

  datatype Slot = First | Second | Third

  datatype Crew = Crew(w: World, first: Pc, second: Pc, third: Pc)

  datatype Turn = Turn(slot: Slot, act: Act)

  /** What one reconciler sees of the crew. */
  function View(c: Crew, slot: Slot): Sys {
    Sys(c.w, match slot case First => c.first case Second => c.second case Third => c.third)
  }

  function Put(c: Crew, slot: Slot, s: Sys): Crew {
    var c1 := c.(w := s.w);
    match slot
    case First => c1.(first := s.pc)
    case Second => c1.(second := s.pc)
    case Third => c1.(third := s.pc)
  }

  predicate CrewRun(c: Crew, turns: seq<Turn>, cron: Cron)
    decreases |turns|
  {
    turns == [] ||
    (var t := turns[0];
     && Enabled(View(c, t.slot), t.act)
     && CrewRun(Put(c, t.slot, Next(View(c, t.slot), t.act, cron)), turns[1..], cron))
  }

  function Play(c: Crew, turns: seq<Turn>, cron: Cron): Crew
    requires CrewRun(c, turns, cron)
    decreases |turns|
  {
    if turns == [] then c
    else Play(Put(c, turns[0].slot, Next(View(c, turns[0].slot), turns[0].act, cron)), turns[1..], cron)
  }

  ghost predicate CrewLeads(c: Crew, c': Crew, cron: Cron) {
    exists turns :: CrewRun(c, turns, cron) && Play(c, turns, cron) == c'
  }

  lemma {:induction false} TurnsConcatenate(c: Crew, a: seq<Turn>, b: seq<Turn>, cron: Cron)
    requires CrewRun(c, a, cron) && CrewRun(Play(c, a, cron), b, cron)
    ensures CrewRun(c, a + b, cron) && Play(c, a + b, cron) == Play(Play(c, a, cron), b, cron)
    decreases |a|
  {
    if a == [] {
      assert a + b == b;
    } else {
      TurnsConcatenate(Put(c, a[0].slot, Next(View(c, a[0].slot), a[0].act, cron)), a[1..], b, cron);
      assert (a + b)[0] == a[0] && (a + b)[1..] == a[1..] + b;
    }
  }

  lemma CrewThen(c: Crew, c1: Crew, c2: Crew, cron: Cron)
    requires CrewLeads(c, c1, cron) && CrewLeads(c1, c2, cron)
    ensures CrewLeads(c, c2, cron)
  {
    var a :| CrewRun(c, a, cron) && Play(c, a, cron) == c1;
    var b :| CrewRun(c1, b, cron) && Play(c1, b, cron) == c2;
    TurnsConcatenate(c, a, b, cron);
  }

  function Turns(slot: Slot, acts: seq<Act>): seq<Turn> {
    seq(|acts|, i requires 0 <= i < |acts| => Turn(slot, acts[i]))
  }

  lemma {:induction false} LiftRun(c: Crew, slot: Slot, acts: seq<Act>, cron: Cron)
    requires ValidRun(View(c, slot), acts, cron)
    ensures CrewRun(c, Turns(slot, acts), cron)
    ensures Play(c, Turns(slot, acts), cron) == Put(c, slot, Execute(View(c, slot), acts, cron))
    decreases |acts|
  {
    if acts != [] {
      var c1 := Put(c, slot, Next(View(c, slot), acts[0], cron));
      LiftRun(c1, slot, acts[1..], cron);
      assert Turns(slot, acts)[1..] == Turns(slot, acts[1..]);
    }
  }

  /** What one reconciler can do alone, it can do in the crew, the others standing still. */
  lemma Lift(c: Crew, c1: Crew, slot: Slot, s: Sys, cron: Cron)
    requires CrewLeads(c, c1, cron) && Leads(View(c1, slot), s, cron)
    ensures CrewLeads(c, Put(c1, slot, s), cron)
  {
    var acts :| ValidRun(View(c1, slot), acts, cron) && Execute(View(c1, slot), acts, cron) == s;
    LiftRun(c1, slot, acts, cron);
    CrewThen(c, c1, Put(c1, slot, s), cron);
  }

  lemma LiftAct(c: Crew, c1: Crew, slot: Slot, a: Act, cron: Cron)
    requires CrewLeads(c, c1, cron) && Enabled(View(c1, slot), a)
    ensures CrewLeads(c, Put(c1, slot, Next(View(c1, slot), a, cron)), cron)
  {
    One(View(c1, slot), a, cron);
    Lift(c, c1, slot, Next(View(c1, slot), a, cron), cron);
  }

  function Rested(w: World): Crew {
    Crew(w, Idle, Idle, Idle)
  }

  /** A crew whose first generation is observed, its Job gone, and a first push pending. */
  lemma PendingCrew(cron: Cron) returns (c0: Crew, w: World)
    ensures c0 == Rested(Initial("", 0)) && CrewLeads(c0, Rested(Push(w, "first", "", 2)), cron) && Emptied(w, "")
  {
    c0 := Rested(Initial("", 0));
    var none: seq<Turn> := [];
    assert CrewRun(c0, none, cron) && Play(c0, none, cron) == c0;
    w := EmptiedReached("", cron);
    Lift(c0, c0, First, Sys(w, Idle), cron);
    LiftAct(c0, Rested(w), First, Deliver("first", "", 2), cron);
  }

  /** Two reconcilers acquire, each for a push of its own, before either creates. */
  lemma InterleavedCreatesReached(cron: Cron) returns (c0: Crew, c: Crew)
    ensures c0 == Rested(Initial("", 0)) && CrewLeads(c0, c, cron) && !AtMostOneActive(c.w)
  {
    var w;
    c0, w := PendingCrew(cron);
    var w0 := Push(w, "first", "", 2);
    var ctx1, req1 := Context(w0.mirror, [], 2), PendingRequest(w0.mirror, 2);
    var w1 := Tick(w0, 2).(lease := Held(Some(req1.name)));
    ToPendingCreate(w0, 2, cron);
    Lift(c0, Rested(w0), First, Sys(w1, JobCreate(ctx1, req1)), cron);
    var c1 := Crew(w1, JobCreate(ctx1, req1), Idle, Idle);
    LiftAct(c0, c1, Second, Deliver("second", "", 3), cron);
    var w2 := Push(w1, "second", "", 3);
    var ctx2, req2 := Context(w2.mirror, [], 3), PendingRequest(w2.mirror, 3);
    var w3 := Tick(w2, 3).(lease := Held(Some(req2.name)));
    ToPendingCreate(w2, 3, cron);
    Lift(c0, c1.(w := w2), Second, Sys(w3, JobCreate(ctx2, req2)), cron);
    c := BothCreate(c0, Crew(w3, JobCreate(ctx1, req1), JobCreate(ctx2, req2), Idle), ctx1, req1, ctx2, req2, cron);
  }

  /** Whoever is between acquiring and creating goes on to create. */
  lemma BothCreate(c0: Crew, c1: Crew, ctx1: Context, req1: Request, ctx2: Context, req2: Request, cron: Cron)
    returns (c: Crew)
    requires CrewLeads(c0, c1, cron) && c1.first == JobCreate(ctx1, req1) && c1.second == JobCreate(ctx2, req2)
    requires OkRequest(ctx1, req1) && OkRequest(ctx2, req2) && req1.name != req2.name
    requires req1.name !in c1.w.jobs && req2.name !in c1.w.jobs && Fresh(c1.w, req1.name) && Fresh(c1.w, req2.name)
    requires req1.generation == req2.generation == c1.w.mirror.generation
    ensures CrewLeads(c0, c, cron) && !AtMostOneActive(c.w)
  {
    Creating(c1.w, ctx1, req1, cron);
    var w1 := CreateJob(c1.w, req1.generation, req1.name, req1.revision);
    Lift(c0, c1, First, Sys(w1, ScheduleGet(ctx1, req1)), cron);
    var c2 := c1.(w := w1, first := ScheduleGet(ctx1, req1));
    FreshStays(c1.w, req1.generation, req1.name, req1.revision, req2.name);
    Creating(w1, ctx2, req2, cron);
    var w2 := CreateJob(w1, req2.generation, req2.name, req2.revision);
    Lift(c0, c2, Second, Sys(w2, ScheduleGet(ctx2, req2)), cron);
    c := c2.(w := w2, second := ScheduleGet(ctx2, req2));
    assert ActiveNow(w2, req1.name) && ActiveNow(w2, req2.name);
  }

  lemma FreshStays(w: World, generation: int, name: JobName, revision: string, other: JobName)
    requires Fresh(w, other) && other != name
    ensures Fresh(CreateJob(w, generation, name, revision), other)
  {}

  /** A create reports an error although the Job is stored, and its lease is given back. */
  lemma GivenBack(c0: Crew, c1: Crew, ctx: Context, req: Request, cron: Cron) returns (c: Crew)
    requires CrewLeads(c0, c1, cron) && c1.first == JobCreate(ctx, req) && c1.w.lease == Held(Some(req.name))
    requires req.name !in c1.w.jobs && Fresh(c1.w, req.name)
    ensures c == c1.(w := CreateJob(c1.w, req.generation, req.name, req.revision).(lease := NoLease), first := Idle)
    ensures CrewLeads(c0, c, cron)
  {
    LiftAct(c0, c1, First, CreateUnclear, cron);
    var w2 := CreateJob(c1.w, req.generation, req.name, req.revision);
    LiftAct(c0, c1.(w := w2, first := UndoGet(ctx, req)), First, Call, cron);
    LiftAct(c0, c1.(w := w2, first := UndoDelete(ctx, req)), First, Call, cron);
    c := c1.(w := w2.(lease := NoLease), first := Idle);
  }

  /** After that, a reconciler whose list is older gets in. */
  lemma AmbiguousCreateReached(cron: Cron) returns (c0: Crew, c: Crew)
    ensures c0 == Rested(Initial("", 0)) && CrewLeads(c0, c, cron) && !AtMostOneActive(c.w)
  {
    var w;
    c0, w := PendingCrew(cron);
    var w0 := Push(w, "first", "", 2);
    var ctx, w1 := Context(w0.mirror, [], 2), Tick(w0, 2);
    Opening(w0, 2, cron);
    Lift(c0, Rested(w0), Second, Sys(w1, GenerationCheck(ctx)), cron);
    var req := PendingRequest(w1.mirror, 2);
    var c1 := Crew(w1, Idle, GenerationCheck(ctx), Idle);
    var c2 := c1.(w := w1.(lease := Held(Some(req.name))), first := JobCreate(ctx, req));
    ToPendingCreate(w1, 2, cron);
    Lift(c0, c1, First, Sys(c2.w, JobCreate(ctx, req)), cron);
    var c3 := GivenBack(c0, c2, ctx, req, cron);
    LiftAct(c0, c3, First, Deliver("second", "", 3), cron);
    c := LatePending(c0, c3.(w := Push(c3.w, "second", "", 3)), Second, ctx, cron);
    assert ActiveNow(c.w, req.name);
  }

  /** A reconciler past its list takes a lease it may take, and creates the Job of the latest push. */
  lemma LatePending(c0: Crew, c1: Crew, slot: Slot, ctx: Context, cron: Cron) returns (c: Crew)
    requires CrewLeads(c0, c1, cron) && View(c1, slot).pc == GenerationCheck(ctx)
    requires ctx.items == [] && ctx.snap.status.pendingResync
    requires !Unobserved(c1.w.mirror) && c1.w.mirror.status.pendingResync
    requires var req := PendingRequest(c1.w.mirror, ctx.now);
             && Takeable(c1.w.lease, c1.w.jobs, req.generation, req.name)
             && req.name !in c1.w.jobs && Fresh(c1.w, req.name)
    ensures CrewLeads(c0, c, cron) && c.w.mirror == c1.w.mirror
    ensures c.w.jobs.Keys == c1.w.jobs.Keys + {PendingTrigger(c1.w.mirror.status, ctx.now)}
    ensures forall n :: ActiveNow(c1.w, n) ==> ActiveNow(c.w, n)
    ensures ActiveNow(c.w, PendingTrigger(c1.w.mirror.status, ctx.now))
  {
    var w, req := c1.w, PendingRequest(c1.w.mirror, ctx.now);
    var s0 := Sys(w, GenerationCheck(ctx));
    One(s0, Call, cron);
    Step(s0, Sys(w, PendingCheck(ctx)), Call, cron);
    Locking(w, ctx, req, cron);
    var w1 := w.(lease := Held(Some(req.name)));
    Then(s0, Sys(w, LeaseCreate(ctx, req)), Sys(w1, JobCreate(ctx, req)), cron);
    Creating(w1, ctx, req, cron);
    var w2 := CreateJob(w1, req.generation, req.name, req.revision);
    Then(s0, Sys(w1, JobCreate(ctx, req)), Sys(w2, ScheduleGet(ctx, req)), cron);
    Lift(c0, c1, slot, Sys(w2, ScheduleGet(ctx, req)), cron);
    c := Put(c1, slot, Sys(w2, ScheduleGet(ctx, req)));
  }

  /** A new generation's Job runs under the lease; one reconciler still asks for the old generation. */
  predicate StaleCrew(c: Crew, ctx1: Context, req1: Request, ctx3: Context) {
    && c.first == LeaseCreate(ctx1, req1) && c.second == Idle && c.third == GenerationCheck(ctx3)
    && OkRequest(ctx1, req1) && req1.generation == 1 && req1.name == ForDelivery("first")
    && ctx3.items == [] && ctx3.snap.status.pendingResync
    && c.w.mirror.generation == 2 && !Unobserved(c.w.mirror)
    && c.w.mirror.status.pendingResync && c.w.mirror.status.lastDeliveryID == "second"
    && c.w.lease == Held(Some(ForGeneration(2))) && ActiveNow(c.w, ForGeneration(2))
    && c.w.jobs.Keys == {ForGeneration(2)}
    && Fresh(c.w, ForDelivery("first")) && Fresh(c.w, ForDelivery("second"))
  }

  /** A request of the first generation, then an edit, then a reconciler that has listed its Jobs. */
  lemma StaleRequestReached(cron: Cron) returns (c0: Crew, c: Crew, ctx1: Context, req1: Request, ctx3: Context)
    ensures c0 == Rested(Initial("", 0)) && CrewLeads(c0, c, cron)
    ensures c.first == LeaseCreate(ctx1, req1) && c.second == Idle && c.third == GenerationCheck(ctx3)
    ensures OkRequest(ctx1, req1) && req1.generation == 1 && req1.name == ForDelivery("first")
    ensures ctx3.items == [] && ctx3.snap.status.pendingResync
    ensures c.w.jobs == map[] && c.w.mirror.generation == 2 && Unobserved(c.w.mirror)
    ensures c.w.history.created == [Created(ForGeneration(1), 1, "")] && c.w.mirror.status.lastDeliveryID == "first"
  {
    var w;
    c0, w := PendingCrew(cron);
    var w0 := Push(w, "first", "", 2);
    ctx1, req1 := Context(w0.mirror, [], 2), PendingRequest(w0.mirror, 2);
    ToPendingRequest(w0, 2, cron);
    Lift(c0, Rested(w0), First, Sys(Tick(w0, 2), LeaseCreate(ctx1, req1)), cron);
    var c1 := Crew(Tick(w0, 2), LeaseCreate(ctx1, req1), Idle, Idle);
    LiftAct(c0, c1, First, Edit(""), cron);
    var w1 := EditSpec(c1.w, "");
    ctx3 := Context(w1.mirror, [], 3);
    Opening(w1, 3, cron);
    Lift(c0, c1.(w := w1), Third, Sys(Tick(w1, 3), GenerationCheck(ctx3)), cron);
    c := c1.(w := Tick(w1, 3), third := GenerationCheck(ctx3));
  }

  lemma StaleCrewReached(cron: Cron) returns (c0: Crew, c: Crew, ctx1: Context, req1: Request, ctx3: Context)
    ensures c0 == Rested(Initial("", 0)) && CrewLeads(c0, c, cron) && StaleCrew(c, ctx1, req1, ctx3)
  {
    var c2;
    c0, c2, ctx1, req1, ctx3 := StaleRequestReached(cron);
    var c3 := NewGenerationCreated(c0, c2, cron);
    LiftAct(c0, c3, Second, Deliver("second", "", 5), cron);
    c := c3.(w := Push(c3.w, "second", "", 5));
    assert forall i :: 0 <= i < |c.w.history.created| ==> c.w.history.created[i].name.ForGeneration?;
  }

  /** The second reconciler starts and records the Job of the new generation. */
  lemma NewGenerationCreated(c0: Crew, c1: Crew, cron: Cron) returns (c: Crew)
    requires CrewLeads(c0, c1, cron) && c1.second == Idle && c1.w.jobs == map[] && Unobserved(c1.w.mirror)
    requires Fresh(c1.w, ForGeneration(c1.w.mirror.generation))
    ensures CrewLeads(c0, c, cron) && c.first == c1.first && c.second == Idle && c.third == c1.third
    ensures var m, req := c1.w.mirror, NewGenerationRequest(c1.w.mirror);
            && c.w.mirror == SyncScheduled(m, req.name, 4)
            && c.w.lease == Held(Some(req.name)) && ActiveNow(c.w, req.name) && c.w.jobs.Keys == {req.name}
            && c.w.history.created == c1.w.history.created + [Created(req.name, m.generation, req.revision)]
  {
    var w, ctx, req := c1.w, Context(c1.w.mirror, [], 4), NewGenerationRequest(c1.w.mirror);
    var s0, w1 := Sys(w, Idle), Tick(w, 4).(lease := Held(Some(req.name)));
    ToNewGeneration(w, 4, cron);
    Creating(w1, ctx, req, cron);
    var w2 := CreateJob(w1, req.generation, req.name, req.revision);
    Then(s0, Sys(w1, JobCreate(ctx, req)), Sys(w2, ScheduleGet(ctx, req)), cron);
    Recording(w2, ctx, req, cron);
    var w3 := w2.(mirror := ScheduleMutation(ctx, req, w2.mirror));
    Then(s0, Sys(w2, ScheduleGet(ctx, req)), Sys(w3, Idle), cron);
    Lift(c0, c1, Second, Sys(w3, Idle), cron);
    c := c1.(w := w3);
  }

  /** The stale request takes the lease from a running Job, and a current one takes it in turn. */
  lemma StaleGenerationReached(cron: Cron) returns (c0: Crew, c: Crew)
    ensures c0 == Rested(Initial("", 0)) && CrewLeads(c0, c, cron) && !AtMostOneActive(c.w)
  {
    var c1, ctx1, req1, ctx3;
    c0, c1, ctx1, req1, ctx3 := StaleCrewReached(cron);
    var w, s0 := c1.w, Sys(c1.w, LeaseCreate(ctx1, req1));
    Locking(w, ctx1, req1, cron);
    var w1 := w.(lease := Held(Some(req1.name)));
    Creating(w1, ctx1, req1, cron);
    var w2 := CreateJob(w1, req1.generation, req1.name, req1.revision);
    Then(s0, Sys(w1, JobCreate(ctx1, req1)), Sys(w2, ScheduleGet(ctx1, req1)), cron);
    Lift(c0, c1, First, Sys(w2, ScheduleGet(ctx1, req1)), cron);
    c := LatePending(c0, c1.(w := w2, first := ScheduleGet(ctx1, req1)), Third, ctx3, cron);
    assert ActiveNow(c.w, ForGeneration(2)) && ActiveNow(c.w, ForDelivery("second"));
  }
}
